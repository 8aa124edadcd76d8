/**
 * The driver's `uint16_t_LOW_HIGH` pair: one 16-bit ADC channel held as two
 * register bytes, the low (first-addressed) byte first.
 */
module LowHighWord {
  import opened Base

  datatype LowHigh = LowHigh(low: byte, high: byte) {

    /** The 16-bit value the pair stands for: the first byte is the least significant. */
    function Value(): u16 {
      low + 0x100 * high
    }

    /**
     * `get()`: the low byte, with the high byte shifted left by eight bits
     * ORed into it, computed in 16 bits as the driver does.
     */
    method Get() returns (value: u16)
      ensures value == low + 256 * high
      ensures value == Value()
    {
      ShiftOrIsSum(low, high);
      value := ((low as bv16) | ((high as bv16) << 8)) as int;
    }

    /** `getLSB()`: the least significant byte of the 16-bit value. */
    function GetLsb(): (b: byte)
      ensures b == Value() % 0x100
    {
      low
    }

    /** `getMSB()`: the most significant byte of the 16-bit value. */
    function GetMsb(): (b: byte)
      ensures b == Value() / 0x100
    {
      high
    }
  }

  /** Splits a 16-bit value into the pair a device holds for it: the inverse of `Value`. */
  function Split(v: u16): (p: LowHigh)
    ensures p.Value() == v
    ensures p.GetLsb() == v % 0x100 && p.GetMsb() == v / 0x100
  {
    LowHigh(v % 0x100, v / 0x100)
  }

  /** Every pair is the split of its own value: no two pairs denote the same 16-bit value. */
  lemma PairRoundTrip(p: LowHigh)
    ensures Split(p.Value()) == p
  {
  }

  /** Two pairs with the same value are the same pair (the low/high encoding is unambiguous). */
  lemma ValueInjective(p: LowHigh, q: LowHigh)
    requires p.Value() == q.Value()
    ensures p == q
  {
  }

  // The bit-level steps of `get()`, one fact at a time.

  lemma ByteWidensExactly(b: byte)
    ensures (b as bv16) as int == b
    ensures (b as bv16) < 0x100
  {
  }

  lemma OrOfDisjointBytes(l: bv16, h: bv16)
    requires l < 0x100 && h < 0x100
    ensures l | (h << 8) == l + h * 0x100
  {
  }

  lemma SumOfBytesHasNoCarry(l: bv16, h: bv16)
    requires l < 0x100 && h < 0x100
    ensures (l + h * 0x100) as int == l as int + 0x100 * (h as int)
  {
  }

  lemma PairOfBytesValue(l: bv16, h: bv16)
    requires l < 0x100 && h < 0x100
    ensures (l | (h << 8)) as int == l as int + 0x100 * (h as int)
  {
    OrOfDisjointBytes(l, h);
    SumOfBytesHasNoCarry(l, h);
  }

  /** `low | high << 8` computed in 16 bits is the arithmetic value `low + 256 * high`. */
  lemma ShiftOrIsSum(low: byte, high: byte)
    ensures ((low as bv16) | ((high as bv16) << 8)) as int == low + 0x100 * high
  {
    ByteWidensExactly(low);
    ByteWidensExactly(high);
    PairOfBytesValue(low as bv16, high as bv16);
  }
}
