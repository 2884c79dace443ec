/**
 * Go strings are byte strings: `len` counts bytes and slicing cuts bytes,
 * possibly inside a UTF-8 sequence. The model keeps every string as its bytes.
 */
module Bytes {
  newtype Byte = b: int | 0 <= b < 256

  /** A Go `string`, as the bytes it holds. */
  type Text = seq<Byte>

  const Space: Byte := 32
  const Colon: Byte := 58
  const Plus: Byte := 43
  const Minus: Byte := 45
  const Newline: Byte := 10

  /**
   * The bytes of an ASCII literal, where UTF-8 encodes each character as the
   * byte of the same value.
   */
  function Ascii(s: string): (t: Text)
    requires forall i :: 0 <= i < |s| ==> s[i] as int < 128
    ensures |t| == |s|
    ensures forall i :: 0 <= i < |s| ==> t[i] as int == s[i] as int
  {
    seq(|s|, i requires 0 <= i < |s| => s[i] as int as Byte)
  }

  function Min(a: int, b: int): int {
    if a <= b then a else b
  }
}
