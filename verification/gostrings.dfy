/**
  Go's `byte` and `string` types, as far as the archive model needs them:
  the conversion of a byte slice into a string.
 */
module GoStrings {

  /** Go's `byte`, an alias of `uint8`. */
  type Byte = bv8

  /** A Go `string`: an immutable sequence of bytes. Its `len` is the
      length of this sequence, a count of bytes. */
  type GoString = seq<Byte>

  /** Go's conversion `string(b)` of a byte slice `b`: a fresh string into
      which the bytes of `b` are copied one after another, first to last.
      The copy is the original, byte for byte: nothing is dropped, added
      or reordered. */
  function StringOfBytes(b: seq<Byte>): (s: GoString)
    ensures |s| == |b|
    ensures s == b
  {
    if b == [] then [] else [b[0]] + StringOfBytes(b[1..])
  }
}
