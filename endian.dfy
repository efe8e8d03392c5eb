/** Rust's `u32::from_be_bytes`, `u32::from_le_bytes`, `u16::from_le_bytes`
    and the matching `to_*_bytes`, on bit-vectors, with the value each one
    reads as an unbounded integer. */
module Endian {

  /** `u32::from_be_bytes`: the first byte is the most significant. */
  function U32FromBe(b: seq<bv8>): (r: bv32)
    requires |b| == 4
    ensures r as int == b[0] as int * 0x100_0000 + b[1] as int * 0x1_0000 + b[2] as int * 0x100 + b[3] as int
  {
    var hi := U16FromBe(b[0], b[1]);
    var lo := U16FromBe(b[2], b[3]);
    JoinHalves(hi, lo);
    ((hi as bv32) << 16) | lo as bv32
  }

  /** `u32::from_le_bytes`: the first byte is the least significant. */
  function U32FromLe(b: seq<bv8>): (r: bv32)
    requires |b| == 4
    ensures r as int == b[3] as int * 0x100_0000 + b[2] as int * 0x1_0000 + b[1] as int * 0x100 + b[0] as int
  {
    U32FromBe([b[3], b[2], b[1], b[0]])
  }

  /** `u16::from_le_bytes`: the first byte is the least significant. */
  function U16FromLe(b: seq<bv8>): (r: bv16)
    requires |b| == 2
    ensures r as int == b[1] as int * 0x100 + b[0] as int
  {
    U16FromBe(b[1], b[0])
  }

  /** `u32::to_be_bytes`, most significant byte first. */
  function U32ToBe(v: bv32): (b: seq<bv8>)
    ensures |b| == 4
  {
    [(v >> 24) as bv8, ((v >> 16) & 0xFF) as bv8, ((v >> 8) & 0xFF) as bv8, (v & 0xFF) as bv8]
  }

  /** `u32::to_le_bytes`, least significant byte first. */
  function U32ToLe(v: bv32): (b: seq<bv8>)
    ensures |b| == 4
  {
    [(v & 0xFF) as bv8, ((v >> 8) & 0xFF) as bv8, ((v >> 16) & 0xFF) as bv8, (v >> 24) as bv8]
  }

  /** `u16::to_le_bytes`, least significant byte first. */
  function U16ToLe(v: bv16): (b: seq<bv8>)
    ensures |b| == 2
  {
    [(v & 0xFF) as bv8, (v >> 8) as bv8]
  }

  // ---------------------------------------------------------------------
  // Helpers: two bytes into a half-word, two half-words into a word

  function U16FromBe(hi: bv8, lo: bv8): (r: bv16)
    ensures r as int == hi as int * 0x100 + lo as int
  {
    JoinBytes(hi, lo);
    ((hi as bv16) << 8) | lo as bv16
  }

  lemma JoinBytes(hi: bv8, lo: bv8)
    ensures (((hi as bv16) << 8) | lo as bv16) as int == hi as int * 0x100 + lo as int
  {
  }

  lemma JoinHalves(hi: bv16, lo: bv16)
    ensures (((hi as bv32) << 16) | lo as bv32) as int == hi as int * 0x1_0000 + lo as int
  {
  }

  // ---------------------------------------------------------------------
  // Round trips

  /** Writing a word big-endian and reading it back gives the word. */
  lemma U32BeRoundTrip(v: bv32)
    ensures U32FromBe(U32ToBe(v)) == v
  {
  }

  /** Reading four bytes big-endian and writing them back gives the bytes. */
  lemma U32BeBytesRoundTrip(b: seq<bv8>)
    requires |b| == 4
    ensures U32ToBe(U32FromBe(b)) == b
  {
  }

  /** Writing a word little-endian and reading it back gives the word. */
  lemma U32LeRoundTrip(v: bv32)
    ensures U32FromLe(U32ToLe(v)) == v
  {
  }

  /** Reading four bytes little-endian and writing them back gives the bytes. */
  lemma U32LeBytesRoundTrip(b: seq<bv8>)
    requires |b| == 4
    ensures U32ToLe(U32FromLe(b)) == b
  {
  }

  /** Writing a half-word little-endian and reading it back gives it. */
  lemma U16LeRoundTrip(v: bv16)
    ensures U16FromLe(U16ToLe(v)) == v
  {
  }

  /** Reading two bytes little-endian and writing them back gives the bytes. */
  lemma U16LeBytesRoundTrip(b: seq<bv8>)
    requires |b| == 2
    ensures U16ToLe(U16FromLe(b)) == b
  {
  }

  /** The two byte orders are each other's reversal. */
  lemma LeIsReversedBe(v: bv32)
    ensures U32ToLe(v) == [U32ToBe(v)[3], U32ToBe(v)[2], U32ToBe(v)[1], U32ToBe(v)[0]]
  {
  }
}
