# TCS3472 colour-sensor driver, modelled in Dafny

This project models the register-level logic of xpcc's driver for the ams
TCS3472 family of digital colour sensors (`src/xpcc/driver/color/tcs3472.hpp`):

- the byte codes the driver writes: analog gain (`Gain`), integration time
  (`IntegrationTime`) and the register map (`RegisterAddress`);
- the `uint16_t_LOW_HIGH` pair, whose `get()` rebuilds a 16-bit channel from
  its low and high register bytes with a shift and an OR;
- the class-static `Data` union, eight raw bytes overlaid by the clear, red,
  green and blue pairs, filled by one burst read of the data registers
  CDATALOW (0x14) to BDATAHIGH (0x1B);
- the driver object: `initialize`, `setGain` and `setIntegrationTime`, each one
  `writeRegister` call; `readRegisters`; `refreshAllColors`; and the cached
  sample returned by `getOldColors` and `getNewColors`.

Files, one module each:

- `base.dfy` (`Base`): `byte`, `u16` and `Option`.
- `low_high.dfy` (`LowHighWord`): the low/high pair, its bit-level `Get`, and
  `Split`, its inverse.
- `data_block.dfy` (`DataBlock`): the byte and pair views of the union, and
  decoding and encoding of a four-channel `ColorSample`.
- `settings.dfy` (`Tcs3472Settings`): the gain, integration-time and register
  encodings, with their decoders.
- `driver.dfy` (`Tcs3472Driver`): the driver class and two client methods.
  The class works on a `SimulatedSensor` (256 byte registers) and a
  `SampleCache` (the static `data` union and `color`). `EndToEndScenario`
  configures gain x16 and 154 ms integration on a sensor holding clear = 100,
  red = 10, green = 20 and blue = 30, refreshes, and gets exactly that sample.

The I2C bus is a parameter. Every bus operation takes `busOk: bool`, the
outcome the bus reports. A transfer that succeeds takes effect on the
simulated registers or on the caller's buffer. A transfer that fails changes
nothing. The resumable `ResumableResult<bool>` of each operation becomes the
operation's `bool` result.

In the source, `data` and `color` are static members of the class template,
so every object of the same `Tcs3472<I2cMaster>` type shares one cache. The model keeps that: each driver object refers to a
`SampleCache`, and `SharedCacheScenario` shows that a refresh through one
driver is what `getOldColors` returns through another. Making the cache an
instance field is a design alternative that this model does not take.

The bodies of `writeRegister`, `readRegisters` and `refreshAllColors` are in
`tcs3472_impl.hpp`, which is not part of this model. Their contracts here
follow their declared signatures and the driver's documented behaviour:
- `writeRegister` sets one register.
- `readRegisters` copies `count` consecutive registers, one by default.
- `refreshAllColors` is one eight-byte read from CDATALOW into the union.
  It updates the cache only when that read succeeds.

`setIntegrationTime` defaults its argument to 0, the code of the 700 ms
setting (tcs3472.hpp:182). `IntegrationTime::DEFAULT` is 0xFF instead. The
model keeps the default of 0 as written.

## Model

| member | source | states |
|---|---|---|
| `LowHighWord.LowHigh.Get` | src/xpcc/driver/color/tcs3472.hpp:213-219 | the low byte ORed with the high byte shifted left by eight, computed in 16 bits, equals `low + 256 * high`: the first byte is the least significant and the result fits in 16 bits |
| `LowHighWord.ShiftOrIsSum` | src/xpcc/driver/color/tcs3472.hpp:216-217 | the OR of the low byte with the high byte shifted by eight never carries, so the bit-level value equals the arithmetic one |
| `LowHighWord.LowHigh.GetLsb` | src/xpcc/driver/color/tcs3472.hpp:220 | `getLSB` is the 16-bit value modulo 256 |
| `LowHighWord.LowHigh.GetMsb` | src/xpcc/driver/color/tcs3472.hpp:221 | `getMSB` is the 16-bit value divided by 256 |
| `LowHighWord.Split` | src/xpcc/driver/color/tcs3472.hpp:213-221 | the pair built from `(v % 256, v / 256)` gives back `v`, and its LSB and MSB are exactly those bytes |
| `LowHighWord.PairRoundTrip` | src/xpcc/driver/color/tcs3472.hpp:213-221 | every pair is the split of its own value |
| `LowHighWord.ValueInjective` | src/xpcc/driver/color/tcs3472.hpp:213-219 | two pairs with the same `get()` value are the same pair |
| `DataBlock.Pairs` | src/xpcc/driver/color/tcs3472.hpp:224-234 | in the union, pair `i` overlays bytes `2i` (low) and `2i + 1` (high) |
| `DataBlock.Bytes` | src/xpcc/driver/color/tcs3472.hpp:224-234 | laying pairs out as bytes puts each pair's low byte first |
| `DataBlock.PairsOfBytes` | src/xpcc/driver/color/tcs3472.hpp:224-234 | the pair view of the byte view of pairs is those pairs |
| `DataBlock.BytesOfPairs` | src/xpcc/driver/color/tcs3472.hpp:224-234 | the byte view of the pair view of bytes is those bytes |
| `DataBlock.Decode` | src/xpcc/driver/color/tcs3472.hpp:224-234 | clear comes from bytes 0-1, red from 2-3, green from 4-5 and blue from 6-7, each low then high |
| `DataBlock.DecodeIsPairView` | src/xpcc/driver/color/tcs3472.hpp:224-234 | the decoded channels are the union's four pairs, in the order clear, red, green, blue |
| `DataBlock.Encode` | src/xpcc/driver/color/tcs3472.hpp:224-234 | every sample has an eight-byte block that decodes to it |
| `DataBlock.EncodeDecode` | src/xpcc/driver/color/tcs3472.hpp:224-234 | every eight-byte block is the encoding of what it decodes to, so decoding loses nothing |
| `Tcs3472Settings.Gain.Code` | src/xpcc/driver/color/tcs3472.hpp:47-52 | gain codes are two-bit values: X1=0, X4=1, X16=2, X64=3 |
| `Tcs3472Settings.GainOf` | src/xpcc/driver/color/tcs3472.hpp:47-54 | a GAIN value names a gain exactly when it is below 4, and then that gain's code is the value |
| `Tcs3472Settings.GainRoundTrip` | src/xpcc/driver/color/tcs3472.hpp:47-52 | each gain's code decodes back to that gain |
| `Tcs3472Settings.IntegrationTime.Code` | src/xpcc/driver/color/tcs3472.hpp:59-67 | MSEC_2=0xFF, MSEC_24=0xF6, MSEC_101=0xD5, MSEC_154=0xC0, MSEC_700=0x00; the code is the chip default 0xFF exactly for MSEC_2 |
| `Tcs3472Settings.IntegrationTimeOf` | src/xpcc/driver/color/tcs3472.hpp:59-67 | a TIMING value names an integration time exactly when it is 0xFF, 0xF6, 0xD5, 0xC0 or 0x00, and then that setting's code is the value |
| `Tcs3472Settings.IntegrationTimeRoundTrip` | src/xpcc/driver/color/tcs3472.hpp:61-65 | each named integration time has its own code |
| `Tcs3472Settings.DefaultsAlias` | src/xpcc/driver/color/tcs3472.hpp:47-66 | `Gain::DEFAULT` (0) is X1 and `IntegrationTime::DEFAULT` (0xFF) is MSEC_2 |
| `Tcs3472Settings.RegisterAddress.Address` | src/xpcc/driver/color/tcs3472.hpp:72-94 | ENABLE=0x00, TIMING=0x01, ID=0x12, GAIN=0x0F, thresholds 0x04-0x07, data 0x14-0x1B; every address is below 0x20, and a register is a data register exactly when its address lies in 0x14..0x1B |
| `Tcs3472Settings.RegisterAt` | src/xpcc/driver/color/tcs3472.hpp:72-94 | a named register found at an address has that address |
| `Tcs3472Settings.AddressRoundTrip` | src/xpcc/driver/color/tcs3472.hpp:72-94 | no two named registers share an address |
| `Tcs3472Settings.DataRegistersConsecutive` | src/xpcc/driver/color/tcs3472.hpp:86-93 | CDATALOW through BDATAHIGH are eight consecutive addresses from 0x14 |
| `Tcs3472Driver.ChannelsFromDataRegisters` | src/xpcc/driver/color/tcs3472.hpp:86-93 | decoding the burst from CDATALOW gives each channel from its own low/high register pair |
| `Tcs3472Driver.SampleCache.constructor` | src/xpcc/driver/color/tcs3472.hpp:224-236 | the static union and colour start zero-filled |
| `Tcs3472Driver.Tcs3472.constructor` | src/xpcc/driver/color/tcs3472.hpp:117 | a driver binds a device address, 0x29 by default, to the sensor and the shared cache |
| `Tcs3472Driver.Tcs3472.WriteRegister` | src/xpcc/driver/color/tcs3472.hpp:201-204 | on success exactly the addressed register takes the value; on failure no register changes; the cache is untouched |
| `Tcs3472Driver.Tcs3472.ReadRegisters` | src/xpcc/driver/color/tcs3472.hpp:195-199 | on success the first `count` bytes (default 1) are the consecutive registers from the address, the rest of the buffer is unchanged; on failure the buffer is unchanged |
| `Tcs3472Driver.Tcs3472.Initialize` | src/xpcc/driver/color/tcs3472.hpp:168-172 | writes 0b11 (power on, start conversion) to ENABLE at 0x00 and changes no other register |
| `Tcs3472Driver.Tcs3472.SetGain` | src/xpcc/driver/color/tcs3472.hpp:129-134 | writes the gain's code to GAIN at 0x0F, x1 by default, where it decodes back to that gain; no other register changes |
| `Tcs3472Driver.Tcs3472.SetIntegrationTime` | src/xpcc/driver/color/tcs3472.hpp:182-187 | writes the byte unchanged to TIMING at 0x01, 0 by default; no other register changes |
| `Tcs3472Driver.Tcs3472.RefreshAllColors` | src/xpcc/driver/color/tcs3472.hpp:161-164 | on success the union holds the data registers and the cache their decoded sample; on failure both keep their previous contents; no register changes |
| `Tcs3472Driver.Tcs3472.GetOldColors` | src/xpcc/driver/color/tcs3472.hpp:140-144 | returns the cached sample; touches neither registers nor cache |
| `Tcs3472Driver.Tcs3472.GetNewColors` | src/xpcc/driver/color/tcs3472.hpp:152-157 | refreshes, ignores the outcome, and returns the cache: the fresh sample after a successful read, the previous one after a failed read; the union holds the data registers after a successful read and keeps its contents after a failed one |

## Left out

- `configure(gain, int_time)` (tcs3472.hpp:175-177): its body is in `tcs3472_impl.hpp`, which is not part of this model. The header does not show how it sequences its writes. The two writes it is built from are `SetGain` and `SetIntegrationTime`.
- `initializeBlocking` (tcs3472.hpp:121-125): once each resumable call collapses to one `bool` outcome, it is the same as `Initialize`.
- The resumable machinery (`ResumableResult`, `RF_CALL_BLOCKING`, the nesting depth of `I2cDevice`): it is coroutine plumbing from headers not part of this model. Each call becomes a single `bool` outcome.
- The private `commandBuffer[4]` and `success` fields: only the unshown implementation uses them.
- Real I2C traffic and timing. This includes the device address on the wire (the simulated sensor answers any address), the 3 ms power-up wait mentioned at tcs3472.hpp:171, and any command-byte framing of register addresses.
- Tcs3472Driver.Tcs3472.ReadRegisters: a failed read leaves the buffer unchanged. A real bus may leave some bytes already transferred. A burst past register 0xFF wraps to register 0x00. This is a choice of the simulated sensor, not something the header states.
- Tcs3472Driver.Tcs3472.GetNewColors: the source returns after one step of `refreshAllColors`. The model treats the refresh as finished, with outcome `busOk`.
- The physical meaning of the codes (integration milliseconds, gain factors). The header's comments on these are inconsistent: MSEC_24 is described as 100 ms and X64 as x60. Only the byte codes are modelled.
- `color::RgbT` internals from `xpcc/ui/color.hpp`, which is not part of this model. The cache is a record of the four decoded channels.
- `getOldColors` and `getNewColors` are static in the source. Here they are methods of a driver object that read the shared cache. For `getNewColors` this is needed: it is static (tcs3472.hpp:152-157) yet calls the non-static `refreshAllColors()` (tcs3472.hpp:163-164) without an object, which is ill-formed once the template is instantiated. The model gives it the driver object that the refresh needs.
- `src/xpcc/driver/storage/i2c_eeprom.hpp`: a wrapper whose every operation is a bus transfer with an unshown body.
