/** Fixed-width unsigned integers of the Battle.net wire format and their
    little-endian byte encodings. */
module Bytes {

  type byte = x: int | 0 <= x < 0x100
  type uint16 = x: int | 0 <= x < 0x1_0000
  type uint32 = x: int | 0 <= x < 0x1_0000_0000

  /** A value that may be missing: a null pointer, a packet that did not decode. */
  datatype Option<+T> = None | Some(value: T) {
    function GetOr(default: T): T {
      match this
      case Some(v) => v
      case None => default
    }
  }

  /** The two bytes of `n`, least significant first. */
  function U16Bytes(n: uint16): seq<byte> {
    [n % 0x100, n / 0x100]
  }

  /** The 16-bit value whose little-endian bytes are `lo`, `hi`. */
  function U16Of(lo: byte, hi: byte): uint16 {
    lo as int + 0x100 * (hi as int)
  }

  /** The 32-bit value whose little-endian bytes are `b`. */
  function U32Of(b: seq<byte>): uint32
    requires |b| == 4
  {
    b[0] as int + 0x100 * (b[1] as int) + 0x1_0000 * (b[2] as int) + 0x100_0000 * (b[3] as int)
  }

  /** Reading back the two bytes written for `n` gives `n`. */
  lemma U16RoundTrip(n: uint16)
    ensures |U16Bytes(n)| == 2 && U16Of(U16Bytes(n)[0], U16Bytes(n)[1]) == n
  {
  }

  /** Every pair of bytes is the encoding of the value read from it. */
  lemma U16BytesOf(lo: byte, hi: byte)
    ensures U16Bytes(U16Of(lo, hi)) == [lo, hi]
  {
  }
}
