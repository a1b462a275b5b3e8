/** Bytes and NUL-terminated C strings as the wrapper layer sees them. */
module CStrings {

  /** One `unsigned char`; bit-vectors give the `^` and `|` of the source. */
  type Byte = bv8

  const Nul: Byte := 0

  /** INT_MAX for the 32-bit `int` into which the comparison stores `strlen`. */
  const IntMax: nat := 0x7fff_ffff

  /** The characters before the terminating NUL: no byte of them is NUL, so
      `strlen` of the C string is the length of the sequence. */
  type CStr = s: seq<Byte> | forall i :: 0 <= i < |s| ==> s[i] != Nul

  /** `strlen` of the string fits in an `int` without truncation. */
  predicate FitsInt(s: CStr) {
    |s| <= IntMax
  }
}
