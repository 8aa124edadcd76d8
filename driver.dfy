/**
 * The `Tcs3472` driver over a simulated sensor. Each bus transfer is one
 * call whose outcome (`busOk`) is given by the caller, standing for the bus:
 * a transfer that succeeds takes effect, one that fails changes nothing.
 */
module Tcs3472Driver {
  import opened Base
  import opened Tcs3472Settings
  import opened DataBlock

  /** A TCS3472 seen from the bus: 256 byte registers behind an 8-bit register pointer. */
  class SimulatedSensor {
    const regs: array<byte>

    /** A sensor whose registers all hold 0. */
    constructor ()
      ensures fresh(regs) && regs.Length == 0x100
      ensures forall i :: 0 <= i < 0x100 ==> regs[i] == 0
    {
      regs := new byte[0x100](_ => 0);
    }
  }

  /**
   * The class-static storage of the driver: the `data` union the burst read
   * lands in and the `color` cache. Every object of the same
   * `Tcs3472<I2cMaster>` type refers to one shared instance, so all of them
   * see the same cached sample.
   */
  class SampleCache {
    const data: array<byte>
    var color: ColorSample

    /** Static storage starts zero-filled. */
    constructor ()
      ensures fresh(data) && data[..] == [0, 0, 0, 0, 0, 0, 0, 0]
      ensures color == ColorSample(0, 0, 0, 0)
    {
      data := new byte[DataBlockSize](_ => 0);
      color := ColorSample(0, 0, 0, 0);
    }
  }

  /**
   * The burst from CDATALOW gives each channel from its own register pair:
   * clear from CDATALOW/CDATAHIGH, red from RDATALOW/RDATAHIGH, and so on,
   * the register with the lower address being the low byte.
   */
  lemma ChannelsFromDataRegisters(regs: seq<byte>)
    requires |regs| == 0x100
    ensures var s := Decode(regs[CDataLow.Address()..BDataHigh.Address() + 1]);
      && s.clear == regs[CDataLow.Address()] as int + 0x100 * regs[CDataHigh.Address()] as int
      && s.red == regs[RDataLow.Address()] as int + 0x100 * regs[RDataHigh.Address()] as int
      && s.green == regs[GDataLow.Address()] as int + 0x100 * regs[GDataHigh.Address()] as int
      && s.blue == regs[BDataLow.Address()] as int + 0x100 * regs[BDataHigh.Address()] as int
  {
  }

  class Tcs3472 {
    const address: byte
    const sensor: SimulatedSensor
    const shared: SampleCache

    ghost predicate Valid() {
      sensor.regs.Length == 0x100 && shared.data.Length == DataBlockSize && sensor.regs != shared.data
    }

    /** The eight data registers CDATALOW..BDATAHIGH as the sensor holds them now. */
    ghost function DataRegisterBytes(): (b: seq<byte>)
      requires Valid()
      reads sensor.regs
    {
      sensor.regs[CDataLow.Address()..BDataHigh.Address() + 1]
    }

    constructor (sensor: SimulatedSensor, shared: SampleCache, address: byte := DefaultDeviceAddress)
      requires sensor.regs.Length == 0x100 && shared.data.Length == DataBlockSize
      requires sensor.regs != shared.data
      ensures Valid()
      ensures this.sensor == sensor && this.shared == shared && this.address == address
    {
      this.sensor := sensor;
      this.shared := shared;
      this.address := address;
    }

    /** `writeRegister`: one register takes the value, nothing else changes. */
    method WriteRegister(reg: RegisterAddress, value: byte, busOk: bool) returns (success: bool)
      requires Valid()
      modifies sensor.regs
      ensures success == busOk
      ensures sensor.regs[..] == if success then old(sensor.regs[..])[reg.Address() := value] else old(sensor.regs[..])
    {
      success := busOk;
      if success {
        sensor.regs[reg.Address()] := value;
      }
    }

    /**
     * `readRegisters`: a burst read of `count` consecutive registers from
     * `reg` on, into the first `count` bytes of `values`.
     */
    method ReadRegisters(reg: RegisterAddress, values: array<byte>, busOk: bool, count: byte := 1)
      returns (success: bool)
      requires Valid()
      requires values != sensor.regs && count <= values.Length
      modifies values
      ensures success == busOk
      ensures success ==> forall i :: 0 <= i < count ==> values[i] == sensor.regs[(reg.Address() + i) % 0x100]
      ensures success ==> values[count..] == old(values[count..])
      ensures !success ==> values[..] == old(values[..])
    {
      success := busOk;
      if success {
        forall i | 0 <= i < count {
          values[i] := sensor.regs[(reg.Address() + i) % 0x100];
        }
      }
    }

    /** `initialize`: power up and start conversions by writing 0b11 to ENABLE. */
    method Initialize(busOk: bool) returns (success: bool)
      requires Valid()
      modifies sensor.regs
      ensures success == busOk
      ensures sensor.regs[..] == if success then old(sensor.regs[..])[0x00 := 3] else old(sensor.regs[..])
    {
      success := WriteRegister(Enable, EnablePowerAndAdc, busOk);
    }

    /** `setGain`: the gain's code goes to GAIN; the default is `Gain::DEFAULT`, that is x1. */
    method SetGain(busOk: bool, gain: Gain := X1) returns (success: bool)
      requires Valid()
      modifies sensor.regs
      ensures success == busOk
      ensures sensor.regs[..] == if success then old(sensor.regs[..])[0x0F := gain.Code()] else old(sensor.regs[..])
      ensures success ==> GainOf(sensor.regs[0x0F]) == Some(gain)
    {
      success := WriteRegister(RegisterAddress.Gain, gain.Code(), busOk);
      GainRoundTrip(gain);
    }

    /** `setIntegrationTime`: the byte goes to TIMING unchanged; the default argument is 0. */
    method SetIntegrationTime(busOk: bool, intTime: byte := 0) returns (success: bool)
      requires Valid()
      modifies sensor.regs
      ensures success == busOk
      ensures sensor.regs[..] == if success then old(sensor.regs[..])[0x01 := intTime] else old(sensor.regs[..])
    {
      success := WriteRegister(Timing, intTime, busOk);
    }

    /**
     * `refreshAllColors`: one burst read of the eight data registers into the
     * shared union; only a read that succeeds replaces the cached sample.
     */
    method RefreshAllColors(busOk: bool) returns (success: bool)
      requires Valid()
      modifies shared, shared.data
      ensures success == busOk
      ensures success ==> shared.data[..] == DataRegisterBytes() && shared.color == Decode(DataRegisterBytes())
      ensures !success ==> shared.data[..] == old(shared.data[..]) && shared.color == old(shared.color)
    {
      success := ReadRegisters(CDataLow, shared.data, busOk, DataBlockSize as byte);
      if success {
        assert shared.data[..] == DataRegisterBytes();
        shared.color := Decode(shared.data[..]);
      }
    }

    /** `getOldColors`: the cached sample, without bus traffic. */
    method GetOldColors() returns (c: ColorSample)
      ensures c == shared.color
    {
      c := shared.color;
    }

    /**
     * `getNewColors`: refresh, ignore whether it worked, and return the cache:
     * a new sample when the read succeeded, the previous one when it failed.
     */
    method GetNewColors(busOk: bool) returns (c: ColorSample)
      requires Valid()
      modifies shared, shared.data
      ensures c == shared.color
      ensures c == if busOk then Decode(DataRegisterBytes()) else old(shared.color)
      ensures shared.data[..] == if busOk then DataRegisterBytes() else old(shared.data[..])
    {
      var _ := RefreshAllColors(busOk);
      c := GetOldColors();
    }
  }

  /** A client: configuring gain and integration time sets exactly GAIN and TIMING. */
  method ConfigurationScenario()
  {
    var sensor := new SimulatedSensor();
    var cache := new SampleCache();
    var driver := new Tcs3472(sensor, cache);
    assert driver.address == DefaultDeviceAddress;

    var ok := driver.Initialize(true);
    ok := driver.SetGain(true, X16);
    ok := driver.SetIntegrationTime(true, Msec154.Code());
    assert sensor.regs[Enable.Address()] == 3;
    assert sensor.regs[RegisterAddress.Gain.Address()] == X16.Code();
    assert sensor.regs[Timing.Address()] == 0xC0;
    ok := driver.SetGain(false, X64);
    assert !ok && sensor.regs[RegisterAddress.Gain.Address()] == X16.Code();
    ok := driver.SetGain(true);
    assert sensor.regs[RegisterAddress.Gain.Address()] == GainDefaultCode;
  }

  /**
   * A client: two drivers share the static cache, so a sample refreshed
   * through one is what the other returns; a failed refresh keeps it.
   */
  method SharedCacheScenario()
  {
    var sensor := new SimulatedSensor();
    var cache := new SampleCache();
    var first := new Tcs3472(sensor, cache);
    var second := new Tcs3472(sensor, cache, 0x39);

    var ok := first.RefreshAllColors(true);
    var c := second.GetOldColors();
    assert c == Decode(first.DataRegisterBytes());
    var d := second.GetNewColors(false);
    assert d == c;
  }

  /**
   * A client, end to end: a sensor holding clear = 100, red = 10, green = 20
   * and blue = 30 is configured for gain x16 and 154 ms integration, then
   * sampled; the cache holds exactly those four channel values.
   */
  method EndToEndScenario(driver: Tcs3472)
    requires driver.Valid()
    requires driver.sensor.regs[0x14..0x1C] == [100, 0, 10, 0, 20, 0, 30, 0]
    modifies driver.sensor.regs, driver.shared, driver.shared.data
  {
    var ok := driver.SetGain(true, X16);
    ok := driver.SetIntegrationTime(true, Msec154.Code());
    assert driver.sensor.regs[RegisterAddress.Gain.Address()] == X16.Code();
    assert driver.sensor.regs[Timing.Address()] == 0xC0;
    assert driver.DataRegisterBytes() == [100, 0, 10, 0, 20, 0, 30, 0];
    ok := driver.RefreshAllColors(true);
    var c := driver.GetOldColors();
    assert c == ColorSample(100, 10, 20, 30);
  }
}
