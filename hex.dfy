/**
 * ASCII hexadecimal helpers shared by the firmware loader and the test tool:
 * the digit converter, the two-digit byte former, the pairwise decoder the
 * bddata and command-string readers implement, and the `%x` / `%02x`
 * formatting used to name patch files.
 */
module Hex {
  import opened Bytes

  predicate IsDecDigit(c: byte) { '0' as int <= c <= '9' as int }
  predicate IsLowerHexLetter(c: byte) { 'a' as int <= c <= 'f' as int }
  predicate IsUpperHexLetter(c: byte) { 'A' as int <= c <= 'F' as int }

  predicate IsHexDigit(c: byte)
  {
    IsDecDigit(c) || IsLowerHexLetter(c) || IsUpperHexLetter(c)
  }

  /** Reference value of a hex digit, by ASCII arithmetic. */
  function DigitValue(c: byte): (v: nat)
    requires IsHexDigit(c)
    ensures v < 16
  {
    if IsDecDigit(c) then c - '0' as int
    else if IsLowerHexLetter(c) then c - 'a' as int + 10
    else c - 'A' as int + 10
  }

  /**
   * `char_to_hex`: the digit's value, or 0xFF (the C function returns -1
   * as an unsigned char) for any other character.
   */
  function CharToHex(c: byte): (r: byte)
    ensures IsHexDigit(c) ==> r == DigitValue(c)
    ensures !IsHexDigit(c) ==> r == 0xFF
  {
    if c == '0' as int then 0x00
    else if c == '1' as int then 0x01
    else if c == '2' as int then 0x02
    else if c == '3' as int then 0x03
    else if c == '4' as int then 0x04
    else if c == '5' as int then 0x05
    else if c == '6' as int then 0x06
    else if c == '7' as int then 0x07
    else if c == '8' as int then 0x08
    else if c == '9' as int then 0x09
    else if c == 'A' as int || c == 'a' as int then 0x0a
    else if c == 'B' as int || c == 'b' as int then 0x0b
    else if c == 'C' as int || c == 'c' as int then 0x0c
    else if c == 'D' as int || c == 'd' as int then 0x0d
    else if c == 'E' as int || c == 'e' as int then 0x0e
    else if c == 'F' as int || c == 'f' as int then 0x0f
    else 0xFF
  }

  /** `x << 4` stored back into an unsigned char. */
  function Shl4(x: byte): byte
  {
    (x * 16) % 256
  }

  /**
   * The byte `form_byte` forms from two characters, by digit value: a
   * non-digit low character makes it 0xFF, a non-digit high character
   * sets the upper nibble.
   */
  function FormByte(msb: byte, lsb: byte): byte
  {
    if !IsHexDigit(lsb) then 0xFF
    else if IsHexDigit(msb) then 16 * DigitValue(msb) + DigitValue(lsb)
    else 0xF0 + DigitValue(lsb)
  }

  /** `form_byte`'s own expression, the shifted high digit ORed with the low one, forms that byte. */
  lemma FormByteIsOr(msb: byte, lsb: byte)
    ensures Or8(Shl4(CharToHex(msb)), CharToHex(lsb)) == FormByte(msb, lsb)
  {
    Or8Nibble(Shl4(CharToHex(msb)), CharToHex(lsb));
  }

  /** `form_word`: `msb << 8 | lsb`, whose little-endian bytes are the inputs reversed. */
  function FormWord(msb: byte, lsb: byte): (r: u16)
    ensures LE16(r) == [lsb, msb]
  {
    assert Pow2(8) == 256;
    BitOrDisjoint(msb, lsb, 8);
    var r: u16 := BitOr(msb * 256, lsb);
    assert r == msb * 256 + lsb;
    assert r % 256 == lsb && r / 256 == msb;
    r
  }

  /**
   * Decoding of a character string two digits at a time: byte k is
   * formed from characters 2k and 2k+1, and an odd last character is
   * not used.
   */
  function HexPairs(s: seq<byte>): (r: seq<byte>)
    ensures |r| == |s| / 2
    ensures forall k :: 0 <= k < |r| ==> r[k] == FormByte(s[2 * k], s[2 * k + 1])
  {
    if |s| < 2 then [] else [FormByte(s[0], s[1])] + HexPairs(s[2..])
  }

  /** Two more characters decode to one more byte. */
  lemma {:induction false} HexPairsSnoc(s: seq<byte>, a: byte, b: byte)
    requires |s| % 2 == 0
    ensures HexPairs(s + [a, b]) == HexPairs(s) + [FormByte(a, b)]
    decreases |s|
  {
    if |s| == 0 {
      assert s + [a, b] == [a, b];
    } else {
      assert (s + [a, b])[2..] == s[2..] + [a, b];
      HexPairsSnoc(s[2..], a, b);
    }
  }

  /** An odd last character is not decoded. */
  lemma {:induction false} HexPairsDropOdd(s: seq<byte>)
    requires |s| % 2 == 1
    ensures HexPairs(s) == HexPairs(s[..|s| - 1])
    decreases |s|
  {
    if |s| > 1 {
      assert s[..|s| - 1][2..] == s[2..][..|s| - 3];
      HexPairsDropOdd(s[2..]);
    }
  }

  /** ASCII code of a lower-case hex digit. */
  function DigitByte(d: nat): (c: byte)
    requires d < 16
    ensures IsHexDigit(c) && DigitValue(c) == d
  {
    if d < 10 then '0' as int + d else 'a' as int + (d - 10)
  }

  /** Two lower-case digits per byte, the format the decoders read. */
  function ToHexPairs(bs: seq<byte>): (s: seq<byte>)
    ensures |s| == 2 * |bs|
    ensures forall i :: 0 <= i < |bs| ==> s[2 * i] == DigitByte(bs[i] / 16) && s[2 * i + 1] == DigitByte(bs[i] % 16)
  {
    if |bs| == 0 then [] else [DigitByte(bs[0] / 16), DigitByte(bs[0] % 16)] + ToHexPairs(bs[1..])
  }

  /** Decoding undoes encoding. */
  lemma DecodeEncoded(bs: seq<byte>)
    ensures HexPairs(ToHexPairs(bs)) == bs
  {
    var s := ToHexPairs(bs);
    forall k | 0 <= k < |bs|
      ensures HexPairs(s)[k] == bs[k]
    {
      assert FormByte(s[2 * k], s[2 * k + 1]) == 16 * (bs[k] / 16) + bs[k] % 16;
    }
  }

  /** Upper-case digits decode to the same values as lower-case ones. */
  lemma DecodeIgnoresCase(s: seq<byte>, t: seq<byte>)
    requires |s| == |t|
    requires forall i :: 0 <= i < |s| ==> CharToHex(s[i]) == CharToHex(t[i])
    ensures HexPairs(s) == HexPairs(t)
  {
  }

  /** Lower-case hex character of a digit value. */
  function DigitChar(d: nat): (c: char)
    requires d < 16
    ensures c == DigitByte(d) as char
  {
    "0123456789abcdef"[d]
  }

  /** `printf("%x", n)`: lower-case hex without leading zeros ("0" for zero). */
  function LowerHex(n: nat): (s: string)
    ensures |s| >= 1
    ensures n >= 16 ==> s[0] != '0'
    ensures ParseHex(s) == n
    decreases n
  {
    if n < 16 then [DigitChar(n)]
    else
      var r := LowerHex(n / 16) + [DigitChar(n % 16)];
      ParseHexSnoc(LowerHex(n / 16), DigitChar(n % 16), n % 16);
      r
  }

  /** `printf("%02x", b)`: two lower-case digits. */
  function Hex2(b: byte): (s: string)
    ensures |s| == 2 && ParseHex(s) == b
  {
    var s := [DigitChar(b / 16), DigitChar(b % 16)];
    ParseHexSnoc([DigitChar(b / 16)], DigitChar(b % 16), b % 16);
    s
  }

  /** Value of a string of lower-case hex digits (reference reader). */
  function ParseHex(s: string): nat
  {
    if |s| == 0 then 0 else 16 * ParseHex(s[..|s| - 1]) + CharValue(s[|s| - 1])
  }

  function CharValue(c: char): nat
  {
    if '0' <= c <= '9' then c as int - '0' as int
    else if 'a' <= c <= 'f' then c as int - 'a' as int + 10
    else 0
  }

  lemma ParseHexSnoc(s: string, c: char, d: nat)
    requires d < 16 && c == DigitChar(d)
    ensures ParseHex(s + [c]) == 16 * ParseHex(s) + d
  {
    assert (s + [c])[..|s|] == s;
  }

  /** `%02x` of each byte in turn: two digits per byte, which read back as that byte. */
  function HexString(bs: seq<byte>): (s: string)
    ensures |s| == 2 * |bs|
    ensures forall k :: 0 <= k < |bs| ==> s[2 * k .. 2 * k + 2] == Hex2(bs[k])
    ensures forall k :: 0 <= k < |bs| ==> ParseHex(s[2 * k .. 2 * k + 2]) == bs[k]
  {
    if |bs| == 0 then []
    else
      var t := HexString(bs[1..]);
      var s := Hex2(bs[0]) + t;
      assert forall k :: 1 <= k < |bs| ==> s[2 * k .. 2 * k + 2] == t[2 * (k - 1) .. 2 * (k - 1) + 2];
      s
  }
}
