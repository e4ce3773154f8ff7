/**
 * Fixed-width machine integers and the byte-level arithmetic the protocol uses:
 * wrapping addition, byte sums, bitwise or, and big-endian (de)serialisation
 * with two's complement for the signed widths.
 */
module Bytes {

  type uint8 = x: int | 0 <= x < 0x100
  type uint16 = x: int | 0 <= x < 0x1_0000
  type uint32 = x: int | 0 <= x < 0x1_0000_0000
  type int16 = x: int | -0x8000 <= x < 0x8000
  type int32 = x: int | -0x8000_0000 <= x < 0x8000_0000

  /** `u8::wrapping_add`. */
  function WrappingAdd(a: uint8, b: uint8): (r: uint8)
    ensures r == (a + b) % 0x100
  {
    if a + b < 0x100 then a + b else a + b - 0x100
  }

  function Pow2(n: nat): (p: nat)
    ensures p >= 1
  {
    if n == 0 then 1 else 2 * Pow2(n - 1)
  }

  /** Bitwise or of the low `n` bits of `a` and `b`, least significant bit first. */
  function OrBits(a: nat, b: nat, n: nat): (r: nat)
    ensures r < Pow2(n)
  {
    if n == 0 then 0
    else 2 * OrBits(a / 2, b / 2, n - 1) + (if a % 2 == 1 || b % 2 == 1 then 1 else 0)
  }

  /**
   * `u8 | u8`. Or-ing in zero changes nothing, and or-ing bit 7 into a byte
   * that does not use it adds 0x80.
   */
  function BitOr(a: uint8, b: uint8): (r: uint8)
    ensures b == 0 ==> r == a
    ensures a < 0x80 && b == 0x80 ==> r == a + 0x80
  {
    assert Pow2(8) == 0x100 && Pow2(7) == 0x80 by { assert Pow2(4) == 16; }
    var r := OrBits(a, b, 8);
    assert b == 0 ==> r == a by {
      if b == 0 { OrBitsZero(a, 8); }
    }
    assert a < 0x80 && b == 0x80 ==> r == a + 0x80 by {
      if a < 0x80 && b == 0x80 { OrBitsHigh(a, 8); }
    }
    r
  }

  /** Or-ing with zero changes nothing. */
  lemma {:induction false} OrBitsZero(a: nat, n: nat)
    requires a < Pow2(n)
    ensures OrBits(a, 0, n) == a
  {
    if n > 0 {
      OrBitsZero(a / 2, n - 1);
    }
  }

  /** Or-ing in bit `n - 1` of a value that does not use it adds that bit. */
  lemma {:induction false} OrBitsHigh(a: nat, n: nat)
    requires n >= 1 && a < Pow2(n - 1)
    ensures OrBits(a, Pow2(n - 1), n) == a + Pow2(n - 1)
  {
    if n > 1 {
      OrBitsHigh(a / 2, n - 1);
    }
  }

  /** The plain (unbounded) sum of a byte sequence. */
  function Sum(s: seq<uint8>): nat
  {
    if s == [] then 0 else s[0] + Sum(s[1..])
  }

  /** Sums of sequences of up to seven bytes, the longest checksum span, spelled out. */
  lemma SumShort(s: seq<uint8>)
    ensures |s| == 1 ==> Sum(s) == s[0]
    ensures |s| == 2 ==> Sum(s) == s[0] as int + s[1]
    ensures |s| == 3 ==> Sum(s) == s[0] as int + s[1] + s[2]
    ensures |s| == 4 ==> Sum(s) == s[0] as int + s[1] + s[2] + s[3]
    ensures |s| == 5 ==> Sum(s) == s[0] as int + s[1] + s[2] + s[3] + s[4]
    ensures |s| == 7 ==> Sum(s) == s[0] as int + s[1] + s[2] + s[3] + s[4] + s[5] + s[6]
  {
    var n := if |s| < 7 then |s| else 7;
    assert s[0..0] == [];
    var k := 0;
    while k < n
      invariant k <= n
      invariant Sum(s[0..k]) == (if k > 0 then s[0] as int else 0) + (if k > 1 then s[1] as int else 0)
        + (if k > 2 then s[2] as int else 0) + (if k > 3 then s[3] as int else 0) + (if k > 4 then s[4] as int else 0)
        + (if k > 5 then s[5] as int else 0) + (if k > 6 then s[6] as int else 0)
    {
      SumSnoc(s, k);
      k := k + 1;
    }
    assert s[0..|s|] == s;
  }

  lemma {:induction false} SumAppend(a: seq<uint8>, b: seq<uint8>)
    ensures Sum(a + b) == Sum(a) + Sum(b)
  {
    if a == [] {
      assert a + b == b;
    } else {
      assert (a + b)[1..] == a[1..] + b;
      SumAppend(a[1..], b);
    }
  }

  /** Each running sum of a sequence extends the previous one by one byte. */
  lemma SumSnoc(s: seq<uint8>, k: nat)
    requires k < |s|
    ensures Sum(s[0..k + 1]) == Sum(s[0..k]) + s[k]
  {
    assert s[0..k + 1] == s[0..k] + [s[k]];
    SumAppend(s[0..k], [s[k]]);
    assert [s[k]][1..] == [];
  }

  /** A slice of a slice is a slice of the original. */
  lemma SliceOfSlice(s: seq<uint8>, lo: nat, hi: nat, i: nat, j: nat)
    requires lo <= hi <= |s| && i <= j <= hi - lo
    ensures s[lo..hi][i..j] == s[lo + i..lo + j]
  {
    forall k | 0 <= k < j - i
      ensures s[lo..hi][i..j][k] == s[lo + i..lo + j][k]
    {
    }
  }

  function Pow256(n: nat): (p: nat)
    ensures p >= 1
  {
    if n == 0 then 1 else 0x100 * Pow256(n - 1)
  }

  /** The unsigned value of a big-endian byte string (`from_be_bytes`). */
  function FromBigEndian(bs: seq<uint8>): nat
  {
    if bs == [] then 0 else FromBigEndian(bs[..|bs| - 1]) * 0x100 + bs[|bs| - 1]
  }

  /** The low `n` bytes of `x`, most significant first (`to_be_bytes`). */
  function ToBigEndian(x: nat, n: nat): (bs: seq<uint8>)
    ensures |bs| == n
  {
    if n == 0 then [] else ToBigEndian(x / 0x100, n - 1) + [x % 0x100]
  }

  lemma {:induction false} FromBigEndianBound(bs: seq<uint8>)
    ensures FromBigEndian(bs) < Pow256(|bs|)
  {
    if bs != [] {
      FromBigEndianBound(bs[..|bs| - 1]);
    }
  }

  /** Serialising a value that fits in `n` bytes and reading it back gives the value. */
  lemma {:induction false} FromToBigEndian(x: nat, n: nat)
    requires x < Pow256(n)
    ensures FromBigEndian(ToBigEndian(x, n)) == x
  {
    if n > 0 {
      var q := x / 0x100;
      var bs := ToBigEndian(x, n);
      assert x == q * 0x100 + x % 0x100;
      assert q < Pow256(n - 1) by {
        assert q * 0x100 <= x < Pow256(n - 1) * 0x100;
      }
      assert bs[..n - 1] == ToBigEndian(q, n - 1);
      FromToBigEndian(q, n - 1);
      assert FromBigEndian(bs) == FromBigEndian(bs[..n - 1]) * 0x100 + bs[n - 1];
    }
  }

  /** Reading a byte string and serialising the value back gives the same bytes. */
  lemma {:induction false} ToFromBigEndian(bs: seq<uint8>)
    ensures ToBigEndian(FromBigEndian(bs), |bs|) == bs
  {
    if bs != [] {
      var init := bs[..|bs| - 1];
      ToFromBigEndian(init);
      assert bs == init + [bs[|bs| - 1]];
    }
  }

  lemma Pow256Values()
    ensures Pow256(2) == 0x1_0000 && Pow256(4) == 0x1_0000_0000
  {
    assert Pow256(1) == 0x100;
  }

  /** `u16::from_be_bytes`. */
  function Uint16FromBytes(bs: seq<uint8>): (v: uint16)
    requires |bs| == 2
    ensures v == bs[0] as int * 0x100 + bs[1]
  {
    assert bs[..1][..0] == [];
    assert FromBigEndian(bs[..1]) == bs[0];
    FromBigEndian(bs)
  }

  /** `u32::from_be_bytes`. */
  function Uint32FromBytes(bs: seq<uint8>): (v: uint32)
    requires |bs| == 4
    ensures v == ((bs[0] as int * 0x100 + bs[1]) * 0x100 + bs[2]) * 0x100 + bs[3]
  {
    assert bs[..3][..2] == bs[..2];
    assert bs[..2][..1] == bs[..1];
    assert bs[..1][..0] == [];
    assert FromBigEndian(bs[..1]) == bs[0];
    assert FromBigEndian(bs[..2]) == bs[0] as int * 0x100 + bs[1];
    assert FromBigEndian(bs[..3]) == (bs[0] as int * 0x100 + bs[1]) * 0x100 + bs[2];
    FromBigEndianBound(bs);
    Pow256Values();
    FromBigEndian(bs)
  }

  /** `i16::from_be_bytes`: the unsigned value read as two's complement. */
  function Int16FromBytes(bs: seq<uint8>): (v: int16)
    requires |bs| == 2
    ensures v == if bs[0] < 0x80 then bs[0] as int * 0x100 + bs[1] else bs[0] as int * 0x100 + bs[1] - 0x1_0000
  {
    var u := Uint16FromBytes(bs);
    if u < 0x8000 then u else u - 0x1_0000
  }

  /** `i32::from_be_bytes`: the unsigned value read as two's complement. */
  function Int32FromBytes(bs: seq<uint8>): (v: int32)
    requires |bs| == 4
    ensures var u := ((bs[0] as int * 0x100 + bs[1]) * 0x100 + bs[2]) * 0x100 + bs[3];
      v == if bs[0] < 0x80 then u else u - 0x1_0000_0000
  {
    var u := Uint32FromBytes(bs);
    if u < 0x8000_0000 then u else u - 0x1_0000_0000
  }

  /** `v as u16` for an `i16`: the two's complement bit pattern. */
  function Uint16OfInt16(v: int16): (u: uint16)
    ensures u % 0x1_0000 == v % 0x1_0000
  {
    if v < 0 then v + 0x1_0000 else v
  }

  /** `v as u32` for an `i32`: the two's complement bit pattern. */
  function Uint32OfInt32(v: int32): (u: uint32)
    ensures u % 0x1_0000_0000 == v % 0x1_0000_0000
  {
    if v < 0 then v + 0x1_0000_0000 else v
  }

  /** `u16::to_be_bytes` followed by `u16::from_be_bytes` is the identity. */
  lemma Uint16RoundTrip(v: uint16)
    ensures |ToBigEndian(v, 2)| == 2 && Uint16FromBytes(ToBigEndian(v, 2)) == v
  {
    Pow256Values();
    FromToBigEndian(v, 2);
  }

  /** `u32::to_be_bytes` followed by `u32::from_be_bytes` is the identity. */
  lemma Uint32RoundTrip(v: uint32)
    ensures |ToBigEndian(v, 4)| == 4 && Uint32FromBytes(ToBigEndian(v, 4)) == v
  {
    Pow256Values();
    FromToBigEndian(v, 4);
  }

  /** `i16::to_be_bytes` followed by `i16::from_be_bytes` is the identity. */
  lemma Int16RoundTrip(v: int16)
    ensures Int16FromBytes(ToBigEndian(Uint16OfInt16(v), 2)) == v
  {
    Uint16RoundTrip(Uint16OfInt16(v));
  }

  /** `i32::to_be_bytes` followed by `i32::from_be_bytes` is the identity. */
  lemma Int32RoundTrip(v: int32)
    ensures Int32FromBytes(ToBigEndian(Uint32OfInt32(v), 4)) == v
  {
    Uint32RoundTrip(Uint32OfInt32(v));
  }
}
