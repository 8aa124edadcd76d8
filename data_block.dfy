/**
 * The driver's `Data` union: eight raw bytes (`dataBytes`) overlaid by four
 * `uint16_t_LOW_HIGH` pairs, in the order clear, red, green, blue.
 */
module DataBlock {
  import opened Base
  import opened LowHighWord

  /** Number of bytes in the union: two per channel, four channels. */
  const DataBlockSize: nat := 2 * 4

  /** One decoded sample of the four ADC channels. */
  datatype ColorSample = ColorSample(clear: u16, red: u16, green: u16, blue: u16)

  /** The pair view of a byte block: pair `i` overlays bytes `2i` (low) and `2i + 1` (high). */
  function Pairs(bytes: seq<byte>): (pairs: seq<LowHigh>)
    requires |bytes| % 2 == 0
    ensures |pairs| == |bytes| / 2
    ensures forall i :: 0 <= i < |pairs| ==> pairs[i].low == bytes[2 * i] && pairs[i].high == bytes[2 * i + 1]
  {
    if bytes == [] then []
    else [LowHigh(bytes[0], bytes[1])] + Pairs(bytes[2..])
  }

  /** The byte view of a sequence of pairs: each pair laid out low byte first. */
  function Bytes(pairs: seq<LowHigh>): (bytes: seq<byte>)
    ensures |bytes| == 2 * |pairs|
    ensures forall i :: 0 <= i < |pairs| ==> bytes[2 * i] == pairs[i].low && bytes[2 * i + 1] == pairs[i].high
  {
    if pairs == [] then []
    else [pairs[0].low, pairs[0].high] + Bytes(pairs[1..])
  }

  /** Reading pairs back from their bytes gives the same pairs. */
  lemma PairsOfBytes(pairs: seq<LowHigh>)
    ensures Pairs(Bytes(pairs)) == pairs
  {
  }

  /** Laying out the pairs of a byte block gives the same bytes. */
  lemma {:induction false} BytesOfPairs(bytes: seq<byte>)
    requires |bytes| % 2 == 0
    ensures Bytes(Pairs(bytes)) == bytes
  {
    if bytes != [] {
      BytesOfPairs(bytes[2..]);
      assert Pairs(bytes)[1..] == Pairs(bytes[2..]);
    }
  }

  /** Reads the four channels out of the union: `clear`, `red`, `green`, `blue` are its four pairs. */
  function Decode(block: seq<byte>): (s: ColorSample)
    requires |block| == DataBlockSize
    ensures s.clear == block[0] as int + 0x100 * block[1] as int
    ensures s.red == block[2] as int + 0x100 * block[3] as int
    ensures s.green == block[4] as int + 0x100 * block[5] as int
    ensures s.blue == block[6] as int + 0x100 * block[7] as int
  {
    ColorSample(
      LowHigh(block[0], block[1]).Value(),
      LowHigh(block[2], block[3]).Value(),
      LowHigh(block[4], block[5]).Value(),
      LowHigh(block[6], block[7]).Value())
  }

  /** The named channels of the union are its pair view, in the order clear, red, green, blue. */
  lemma DecodeIsPairView(block: seq<byte>)
    requires |block| == DataBlockSize
    ensures var p := Pairs(block);
      Decode(block) == ColorSample(p[0].Value(), p[1].Value(), p[2].Value(), p[3].Value())
  {
  }

  /** The union's bytes for a sample: each channel split into its low and high byte. */
  function Encode(s: ColorSample): (block: seq<byte>)
    ensures |block| == DataBlockSize
    ensures Decode(block) == s
  {
    Bytes([Split(s.clear), Split(s.red), Split(s.green), Split(s.blue)])
  }

  /** Every eight-byte block is the encoding of the sample it decodes to. */
  lemma EncodeDecode(block: seq<byte>)
    requires |block| == DataBlockSize
    ensures Encode(Decode(block)) == block
  {
  }
}
