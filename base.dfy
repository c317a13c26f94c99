/** Small shared vocabulary: optional values, bytes and little-endian 16-bit fields. */
module Base {

  /** Python's `False` placeholder for "not set yet" becomes `None`. */
  datatype Option<T> = None | Some(value: T)

  type byte = b: int | 0 <= b < 256

  predicate IsU16(v: int) {
    0 <= v < 0x1_0000
  }

  /** The unsigned 16-bit value stored little-endian in `lo`, `hi` (struct format "<H"). */
  function LeU16(lo: byte, hi: byte): (v: int)
    ensures IsU16(v)
    ensures v % 256 == lo && v / 256 == hi
  {
    lo + 256 * hi
  }

  /** The two little-endian bytes of a 16-bit value: the inverse of LeU16. */
  function U16Bytes(v: int): (bs: seq<byte>)
    requires IsU16(v)
    ensures |bs| == 2 && LeU16(bs[0], bs[1]) == v
  {
    [v % 256, v / 256]
  }

  /** Concatenation regrouped: a helper for proofs that extend a sequence one piece at a time. */
  lemma AppendAssoc<T>(a: seq<T>, b: seq<T>, c: seq<T>)
    ensures (a + b) + c == a + (b + c)
  {
  }
}
