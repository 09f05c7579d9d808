/**
 * Fixed-width unsigned integers as the C sources use them, bitwise OR on
 * naturals, and little-endian encodings of 16- and 32-bit values.
 */
module Bytes {

  type byte = x: int | 0 <= x < 0x100
  type u16 = x: int | 0 <= x < 0x1_0000
  type u32 = x: int | 0 <= x < 0x1_0000_0000

  const U32Modulus: int := 0x1_0000_0000

  function Pow2(n: nat): (r: nat)
    ensures r >= 1
  {
    if n == 0 then 1 else 2 * Pow2(n - 1)
  }

  /** Bitwise OR of two naturals, one bit at a time from the lowest. */
  function BitOr(a: nat, b: nat): nat
    decreases a + b
  {
    if a == 0 then b
    else if b == 0 then a
    else 2 * BitOr(a / 2, b / 2) + (if a % 2 == 1 || b % 2 == 1 then 1 else 0)
  }

  /** OR keeps values below a power of two below it. */
  lemma {:induction false} BitOrBound(a: nat, b: nat, n: nat)
    requires a < Pow2(n) && b < Pow2(n)
    ensures BitOr(a, b) < Pow2(n)
    decreases n
  {
    if a != 0 && b != 0 {
      BitOrBound(a / 2, b / 2, n - 1);
    }
  }

  /** ORing a value whose low n bits are clear with one below 2^n is addition. */
  lemma {:induction false} BitOrDisjoint(h: nat, l: nat, n: nat)
    requires l < Pow2(n)
    ensures BitOr(Pow2(n) * h, l) == Pow2(n) * h + l
    decreases n
  {
    if n > 0 && h != 0 && l != 0 {
      var m := Pow2(n - 1);
      var a := Pow2(n) * h;
      assert a == 2 * (m * h);
      assert a / 2 == m * h && a % 2 == 0;
      BitOrDisjoint(h, l / 2, n - 1);
      assert BitOr(a, l) == 2 * BitOr(m * h, l / 2) + l % 2;
    }
  }

  /** ORing with all ones below 2^n gives all ones. */
  lemma {:induction false} BitOrOnes(a: nat, n: nat)
    requires a < Pow2(n)
    ensures BitOr(a, Pow2(n) - 1) == Pow2(n) - 1
    decreases n
  {
    if n > 0 && a != 0 {
      var m := Pow2(n - 1);
      assert Pow2(n) - 1 == 2 * (m - 1) + 1;
      assert (Pow2(n) - 1) / 2 == m - 1 && (Pow2(n) - 1) % 2 == 1;
      BitOrOnes(a / 2, n - 1);
      assert BitOr(a, Pow2(n) - 1) == 2 * BitOr(a / 2, m - 1) + 1;
    }
  }

  /** The C `|` on two unsigned chars. */
  function Or8(a: byte, b: byte): byte
  {
    assert Pow2(8) == 256;
    BitOrBound(a, b, 8);
    BitOr(a, b)
  }

  /** A value with a clear low nibble ORed with a nibble or with 0xFF. */
  lemma Or8Nibble(hi: byte, lo: byte)
    requires hi % 16 == 0
    requires lo < 16 || lo == 0xFF
    ensures Or8(hi, lo) == if lo == 0xFF then 0xFF else hi + lo
  {
    assert Pow2(4) == 16 && Pow2(8) == 256;
    if lo == 0xFF {
      BitOrOnes(hi, 8);
    } else {
      BitOrDisjoint(hi / 16, lo, 4);
    }
  }

  /** Value of a little-endian byte string. */
  function FromLE(bs: seq<byte>): nat
  {
    if |bs| == 0 then 0 else bs[0] + 256 * FromLE(bs[1..])
  }

  lemma FromLE2(bs: seq<byte>)
    requires |bs| == 2
    ensures FromLE(bs) == bs[0] as int + 0x100 * bs[1] as int
  {
    var t := bs[1..];
    assert FromLE(t) == t[0] as int + 256 * FromLE(t[1..]);
  }

  lemma FromLE4(bs: seq<byte>)
    requires |bs| == 4
    ensures FromLE(bs) == bs[0] as int + 256 * (bs[1] as int + 256 * (bs[2] as int + 256 * bs[3] as int))
  {
    var t1 := bs[1..];
    var t2 := t1[1..];
    var t3 := t2[1..];
    assert FromLE(t3) == t3[0] as int + 256 * FromLE(t3[1..]);
    assert FromLE(t2) == t2[0] as int + 256 * FromLE(t3);
    assert FromLE(t1) == t1[0] as int + 256 * FromLE(t2);
  }

  function LE16(v: u16): (r: seq<byte>)
    ensures |r| == 2 && FromLE(r) == v
  {
    var r: seq<byte> := [v % 256, v / 256];
    FromLE2(r);
    r
  }

  function LE32(v: u32): (r: seq<byte>)
    ensures |r| == 4 && FromLE(r) == v
  {
    var q1 := v / 256;
    var q2 := q1 / 256;
    var q3 := q2 / 256;
    var r: seq<byte> := [v % 256, q1 % 256, q2 % 256, q3];
    FromLE4(r);
    r
  }

  /** Four bytes are the little-endian encoding of the value they denote. */
  lemma LE32OfFromLE(bs: seq<byte>)
    requires |bs| == 4
    ensures FromLE(bs) < U32Modulus
    ensures LE32(FromLE(bs)) == bs
  {
    FromLE4(bs);
    var v := FromLE(bs);
    var q2 := bs[2] as int + 256 * bs[3] as int;
    var q1 := bs[1] as int + 256 * q2;
    DivMod256(bs[0], q1);
    DivMod256(bs[1], q2);
    DivMod256(bs[2], bs[3]);
    assert LE32(v) == [bs[0], bs[1], bs[2], bs[3]];
  }

  lemma DivMod256(a: byte, q: nat)
    ensures (a + 256 * q) % 256 == a && (a + 256 * q) / 256 == q
  {
  }

  /**
   * What a little-endian host holds in a 32-bit variable after `fread`
   * stored `bs` over its lowest bytes: the higher bytes keep their value.
   */
  function OverlayLE32(v: u32, bs: seq<byte>): u32
    requires |bs| <= 4
  {
    var w := bs + LE32(v)[|bs|..];
    LE32OfFromLE(w);
    FromLE(w)
  }

  /** No bytes leave the value, four replace it, and in general the low bytes are replaced. */
  lemma OverlayLE32Bytes(v: u32, bs: seq<byte>)
    requires |bs| <= 4
    ensures |bs| == 0 ==> OverlayLE32(v, bs) == v
    ensures |bs| == 4 ==> OverlayLE32(v, bs) == FromLE(bs)
    ensures LE32(OverlayLE32(v, bs)) == bs + LE32(v)[|bs|..]
  {
    LE32OfFromLE(bs + LE32(v)[|bs|..]);
    assert |bs| == 4 ==> bs + LE32(v)[|bs|..] == bs;
    assert |bs| == 0 ==> bs + LE32(v)[|bs|..] == LE32(v);
  }

  function Zeros(n: nat): (r: seq<byte>)
    ensures |r| == n && forall i :: 0 <= i < n ==> r[i] == 0
  {
    seq(n, _ => 0)
  }

  /**
   * The first `n` bytes of a zero-initialised buffer into which `w` was
   * written from the start (bytes written past `n` are not part of it).
   */
  function Take(w: seq<byte>, n: nat): (r: seq<byte>)
    ensures |r| == n
    ensures forall i :: 0 <= i < n ==> r[i] == if i < |w| then w[i] else 0
  {
    if |w| >= n then w[..n] else w + Zeros(n - |w|)
  }

  /** A buffer holding exactly `w`. */
  lemma TakeAll(w: seq<byte>)
    ensures Take(w, |w|) == w
  {
  }

  /** Bytes written after a prefix of a buffer fill the rest of it. */
  lemma TakeAppend(h: seq<byte>, w: seq<byte>, n: nat)
    ensures Take(h + w, |h| + n) == h + Take(w, n)
  {
    assert forall i :: 0 <= i < |h| + n ==> Take(h + w, |h| + n)[i] == (h + Take(w, n))[i];
  }
}
