/** Bytes and the fixed-width unsigned integers of the .NET runtime that the
    WAVE codec reads and writes, with the little-endian conversions that
    BitConverter performs on a little-endian machine. */
module Bytes {

  type Byte = x: int | 0 <= x < 0x100
  type U16 = x: int | 0 <= x < 0x1_0000
  type U32 = x: int | 0 <= x < 0x1_0000_0000

  /** 2^32, the modulus of unchecked UInt32 arithmetic. */
  const Two32: nat := 0x1_0000_0000
  /** UInt32.MaxValue. */
  const U32Max: nat := 0xFFFF_FFFF

  /** 256^n, the number of values an n-byte field can hold. */
  function Pow256(n: nat): (p: nat)
    ensures p >= 1
  {
    if n == 0 then 1 else 256 * Pow256(n - 1)
  }

  /** The unsigned value of a little-endian byte string. */
  function LeValue(s: seq<Byte>): (v: nat)
    ensures v < Pow256(|s|)
  {
    if s == [] then 0 else s[0] + 256 * LeValue(s[1..])
  }

  /** The n low-order bytes of v, least significant first. */
  function LeBytes(v: nat, n: nat): (s: seq<Byte>)
    ensures |s| == n
  {
    if n == 0 then [] else [v % 256] + LeBytes(v / 256, n - 1)
  }

  /** BitConverter.ToUInt16(s, off). */
  function Le16(s: seq<Byte>, off: nat): U16
    requires off + 2 <= |s|
  {
    s[off] as int + 256 * s[off + 1] as int
  }

  /** BitConverter.ToUInt32(s, off). */
  function Le32(s: seq<Byte>, off: nat): U32
    requires off + 4 <= |s|
  {
    s[off] as int + 256 * s[off + 1] as int + 0x1_0000 * s[off + 2] as int + 0x100_0000 * s[off + 3] as int
  }

  /** The readers are LeValue on the field's bytes. */
  lemma Le16Value(s: seq<Byte>, off: nat)
    requires off + 2 <= |s|
    ensures Le16(s, off) == LeValue(s[off..off + 2])
  {
    var t := s[off..off + 2];
    assert LeValue(t[1..]) == t[1] by { assert t[1..][1..] == []; }
  }

  lemma Le32Value(s: seq<Byte>, off: nat)
    requires off + 4 <= |s|
    ensures Le32(s, off) == LeValue(s[off..off + 4])
  {
    var t := s[off..off + 4];
    assert LeValue(t[3..]) == t[3] by { assert t[3..][1..] == []; }
    assert LeValue(t[2..]) == t[2] + 256 * LeValue(t[3..]) by { assert t[2..][1..] == t[3..]; }
    assert LeValue(t[1..]) == t[1] + 256 * LeValue(t[2..]) by { assert t[1..][1..] == t[2..]; }
  }

  /** If v == m * q + r with 0 <= r < m, then q and r are v's quotient and remainder. */
  lemma DivModUnique(v: nat, m: nat, q: nat, r: nat)
    requires 0 <= r < m && v == m * q + r
    ensures v / m == q && v % m == r
  {
    var d := q - v / m;
    assert m * d == v % m - r by {
      assert v == m * (v / m) + v % m;
      assert m * q - m * (v / m) == m * d;
    }
  }

  /** Splitting off the lowest byte: v mod 256p is its low byte plus 256 times
      the rest mod p. */
  lemma ModSplit(v: nat, p: nat)
    requires p >= 1
    ensures v % (256 * p) == v % 256 + 256 * ((v / 256) % p)
  {
    var q, t := v / 256, v % 256;
    var k, u := q / p, q % p;
    assert q == p * k + u;
    assert v == 256 * q + t;
    assert 256 * (p * k) == (256 * p) * k;
    assert v == (256 * p) * k + (t + 256 * u);
    DivModUnique(v, 256 * p, k, t + 256 * u);
  }

  /** Writing the n low-order bytes and reading them back gives v modulo 256^n. */
  lemma {:induction false} LeValueOfBytes(v: nat, n: nat)
    ensures LeValue(LeBytes(v, n)) == v % Pow256(n)
  {
    if n > 0 {
      LeValueOfBytes(v / 256, n - 1);
      ModSplit(v, Pow256(n - 1));
    }
  }

  /** Reading a byte string and writing its value back gives the same bytes. */
  lemma {:induction false} LeBytesOfValue(s: seq<Byte>)
    ensures LeBytes(LeValue(s), |s|) == s
  {
    if s != [] {
      var rest := LeValue(s[1..]);
      DivModUnique(LeValue(s), 256, rest, s[0]);
      LeBytesOfValue(s[1..]);
    }
  }

  /** The value of a byte string that ends in zero bytes is that of its prefix
      (BitConverter reads a zero-padded 4-byte buffer). */
  lemma {:induction false} LeValueZeroPadded(s: seq<Byte>, k: nat)
    ensures LeValue(s + seq(k, _ => 0)) == LeValue(s)
  {
    if s == [] {
      ZerosValue(k);
      assert s + seq(k, _ => 0) == seq(k, _ => 0);
    } else {
      assert (s + seq(k, _ => 0))[1..] == s[1..] + seq(k, _ => 0);
      LeValueZeroPadded(s[1..], k);
    }
  }

  /** A string of zero bytes has value 0. */
  lemma {:induction false} ZerosValue(k: nat)
    ensures LeValue(seq(k, _ => 0)) == 0
  {
    if k > 0 {
      assert seq(k, _ => 0)[1..] == seq(k - 1, _ => 0);
      ZerosValue(k - 1);
    }
  }

  /** The 16- and 32-bit writers and readers are inverse to each other. */
  lemma Le16RoundTrip(v: U16, s: seq<Byte>, off: nat)
    requires off + 2 <= |s| && s[off..off + 2] == LeBytes(v, 2)
    ensures Le16(s, off) == v
  {
    LeValueOfBytes(v, 2);
    Le16Value(s, off);
  }

  lemma Le32RoundTrip(v: U32, s: seq<Byte>, off: nat)
    requires off + 4 <= |s| && s[off..off + 4] == LeBytes(v, 4)
    ensures Le32(s, off) == v
  {
    LeValueOfBytes(v, 4);
    Le32Value(s, off);
  }

  /** The 8-bit sample byte toggle: below 127 it adds 127, otherwise it
      subtracts 127 (byte arithmetic that never leaves 0..255). */
  function Bias(b: Byte): Byte
  {
    if b < 127 then b + 127 else b - 127
  }

  /** Toggling twice restores exactly the bytes 0..253; 254 and 255 come back as 0 and 1. */
  lemma BiasRoundTrip(b: Byte)
    ensures Bias(Bias(b)) == b <==> b <= 253
    ensures b == 254 ==> Bias(Bias(b)) == 0
    ensures b == 255 ==> Bias(Bias(b)) == 1
  {
  }
}
