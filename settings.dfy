/**
 * The byte codes of the TCS3472 family: analog gain, integration time and
 * the register map, bit for bit as the driver's enumerations give them.
 */
module Tcs3472Settings {
  import opened Base

  /** Analog RGBC gain control, written to the GAIN register. */
  datatype Gain = X1 | X4 | X16 | X64 {
    function Code(): (c: byte)
      ensures c < 4
    {
      match this
      case X1 => 0  // 0b00
      case X4 => 1  // 0b01
      case X16 => 2  // 0b10
      case X64 => 3  // 0b11
    }
  }

  /** `Gain::DEFAULT`, the chip-reset value of the GAIN register. */
  const GainDefaultCode: byte := 0

  /** The setting a GAIN register value stands for, if any. */
  function GainOf(c: byte): (g: Option<Gain>)
    ensures g.Some? <==> c < 4
    ensures g.Some? ==> g.value.Code() == c
  {
    if c == 0 then Some(X1)
    else if c == 1 then Some(X4)
    else if c == 2 then Some(X16)
    else if c == 3 then Some(X64)
    else None
  }

  /** Each gain has its own code: reading the code back gives the same gain. */
  lemma GainRoundTrip(g: Gain)
    ensures GainOf(g.Code()) == Some(g)
  {
  }

  /** The named integration times, written to the TIMING register. */
  datatype IntegrationTime = Msec2 | Msec24 | Msec101 | Msec154 | Msec700 {
    function Code(): (c: byte)
      ensures c in {0xFF, 0xF6, 0xD5, 0xC0, 0x00}
      ensures c == IntegrationTimeDefaultCode <==> this == Msec2
    {
      match this
      case Msec2 => 0xFF
      case Msec24 => 0xF6
      case Msec101 => 0xD5
      case Msec154 => 0xC0
      case Msec700 => 0x00
    }
  }

  /** `IntegrationTime::DEFAULT`, the chip-reset value of the TIMING register. */
  const IntegrationTimeDefaultCode: byte := 0xFF

  /** The named integration time a TIMING register value stands for, if any. */
  function IntegrationTimeOf(c: byte): (t: Option<IntegrationTime>)
    ensures t.Some? <==> c in {0xFF, 0xF6, 0xD5, 0xC0, 0x00}
    ensures t.Some? ==> t.value.Code() == c
  {
    if c == 0xFF then Some(Msec2)
    else if c == 0xF6 then Some(Msec24)
    else if c == 0xD5 then Some(Msec101)
    else if c == 0xC0 then Some(Msec154)
    else if c == 0x00 then Some(Msec700)
    else None
  }

  /** Each named integration time has its own code. */
  lemma IntegrationTimeRoundTrip(t: IntegrationTime)
    ensures IntegrationTimeOf(t.Code()) == Some(t)
  {
  }

  /** Both DEFAULT entries alias a named value: gain x1 and 2.4 ms integration. */
  lemma DefaultsAlias()
    ensures GainOf(GainDefaultCode) == Some(X1)
    ensures IntegrationTimeOf(IntegrationTimeDefaultCode) == Some(Msec2)
  {
  }

  /** The registers the driver names. */
  datatype RegisterAddress =
    | Enable | Timing | Id | Gain
    | LowThreshLowByte | LowThreshHighByte | HighThreshLowByte | HighThreshHighByte
    | CDataLow | CDataHigh | RDataLow | RDataHigh
    | GDataLow | GDataHigh | BDataLow | BDataHigh
  {
    function Address(): (a: byte)
      ensures a < 0x20
      ensures this in DataRegisters <==> 0x14 <= a <= 0x1B
    {
      match this
      case Enable => 0x00
      case Timing => 0x01
      case Id => 0x12
      case Gain => 0x0F
      case LowThreshLowByte => 0x04
      case LowThreshHighByte => 0x05
      case HighThreshLowByte => 0x06
      case HighThreshHighByte => 0x07
      case CDataLow => 0x14
      case CDataHigh => 0x15
      case RDataLow => 0x16
      case RDataHigh => 0x17
      case GDataLow => 0x18
      case GDataHigh => 0x19
      case BDataLow => 0x1A
      case BDataHigh => 0x1B
    }
  }

  /** The named register at a bus address, if any. */
  function RegisterAt(a: byte): (r: Option<RegisterAddress>)
    ensures r.Some? ==> r.value.Address() == a
  {
    match a
    case 0x00 => Some(Enable)
    case 0x01 => Some(Timing)
    case 0x12 => Some(Id)
    case 0x0F => Some(Gain)
    case 0x04 => Some(LowThreshLowByte)
    case 0x05 => Some(LowThreshHighByte)
    case 0x06 => Some(HighThreshLowByte)
    case 0x07 => Some(HighThreshHighByte)
    case 0x14 => Some(CDataLow)
    case 0x15 => Some(CDataHigh)
    case 0x16 => Some(RDataLow)
    case 0x17 => Some(RDataHigh)
    case 0x18 => Some(GDataLow)
    case 0x19 => Some(GDataHigh)
    case 0x1A => Some(BDataLow)
    case 0x1B => Some(BDataHigh)
    case _ => None
  }

  /** No two named registers share an address. */
  lemma AddressRoundTrip(r: RegisterAddress)
    ensures RegisterAt(r.Address()) == Some(r)
  {
  }

  /** The eight data registers, in the order the union lays out their bytes. */
  const DataRegisters: seq<RegisterAddress> :=
    [CDataLow, CDataHigh, RDataLow, RDataHigh, GDataLow, GDataHigh, BDataLow, BDataHigh]

  /** The data registers occupy eight consecutive addresses starting at CDATALOW. */
  lemma DataRegistersConsecutive()
    ensures |DataRegisters| == 8
    ensures forall k :: 0 <= k < |DataRegisters| ==> DataRegisters[k].Address() == CDataLow.Address() + k
  {
  }

  /** ENABLE register value written by `initialize`: 0b11, power on (bit 0) and start conversion (bit 1). */
  const EnablePowerAndAdc: byte := 3

  /** The I2C address the driver uses unless told otherwise. */
  const DefaultDeviceAddress: byte := 0x29
}
