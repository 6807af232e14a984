/**
 * Go strings as the program uses them: immutable byte sequences whose
 * literals are UTF-8, and `len` counts bytes. Also the upper-casing the
 * executor applies to the HTTP method.
 */
module Strings {

  newtype byte = x: int | 0 <= x < 256

  type Bytes = seq<byte>

  /** The UTF-8 encoding of one Unicode scalar value. */
  function EncodeRune(c: char): (r: Bytes)
    ensures 1 <= |r| <= 4
    ensures |r| == 1 <==> c as int < 0x80
    ensures |r| == 1 ==> r[0] as int == c as int
    ensures |r| > 1 ==> r[0] >= 0xC0 && forall i | 1 <= i < |r| :: 0x80 <= r[i] < 0xC0
  {
    var n := c as int;
    if n < 0x80 then [n as byte]
    else if n < 0x800 then [(0xC0 + n / 0x40) as byte, (0x80 + n % 0x40) as byte]
    else if n < 0x1_0000 then
      [(0xE0 + n / 0x1000) as byte, (0x80 + n / 0x40 % 0x40) as byte, (0x80 + n % 0x40) as byte]
    else
      [(0xF0 + n / 0x4_0000) as byte, (0x80 + n / 0x1000 % 0x40) as byte,
       (0x80 + n / 0x40 % 0x40) as byte, (0x80 + n % 0x40) as byte]
  }

  predicate IsAscii(s: string) {
    forall i | 0 <= i < |s| :: s[i] as int < 0x80
  }

  /** The bytes of an ASCII Go string literal: one byte per character. */
  function Ascii(s: string): (r: Bytes)
    requires IsAscii(s)
    ensures |r| == |s|
    ensures forall i | 0 <= i < |s| :: r[i] as int == s[i] as int
  {
    seq(|s|, i requires 0 <= i < |s| => s[i] as int as byte)
  }

  predicate IsLowerAscii(b: byte) {
    0x61 <= b <= 0x7A
  }

  function UpperByte(b: byte): byte {
    if IsLowerAscii(b) then b - 0x20 else b
  }

  /**
   * `strings.ToUpper` on a method name: every ASCII letter a-z becomes its
   * capital, every other byte is kept.
   */
  function ToUpper(s: Bytes): (r: Bytes)
    ensures |r| == |s|
    ensures forall i | 0 <= i < |r| :: !IsLowerAscii(r[i])
    ensures forall i | 0 <= i < |s| ::
              if IsLowerAscii(s[i]) then r[i] == s[i] - 0x20 else r[i] == s[i]
  {
    seq(|s|, i requires 0 <= i < |s| => UpperByte(s[i]))
  }

  /** Upper-casing twice is upper-casing once. */
  lemma ToUpperIdempotent(s: Bytes)
    ensures ToUpper(ToUpper(s)) == ToUpper(s)
  {
  }

  /** A name is left unchanged by ToUpper exactly when it has no ASCII lower-case letter. */
  lemma ToUpperFixed(s: Bytes)
    ensures ToUpper(s) == s <==> forall i | 0 <= i < |s| :: !IsLowerAscii(s[i])
  {
  }
}
