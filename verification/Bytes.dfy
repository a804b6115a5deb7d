/** Fixed-width little-endian integers as byte sequences, and the fixed-width integer types
    of the C++ sources.  Every multi-byte field of both binary formats goes through here. */
module Bytes {

  type byte = x: int | 0 <= x < 0x100
  type u16 = x: int | 0 <= x < 0x1_0000
  type u32 = x: int | 0 <= x < 0x1_0000_0000
  type u64 = x: int | 0 <= x < 0x1_0000_0000_0000_0000

  type s32 = x: int | -0x8000_0000 <= x < 0x8000_0000

  /** 256 to the power n: the number of values an n-byte integer has. */
  function Pow256(n: nat): (p: nat)
    ensures p > 0
  {
    if n == 0 then 1 else 256 * Pow256(n - 1)
  }

  lemma Pow256Values()
    ensures Pow256(1) == 0x100
    ensures Pow256(2) == 0x1_0000
    ensures Pow256(4) == 0x1_0000_0000
    ensures Pow256(8) == 0x1_0000_0000_0000_0000
  {
    assert Pow256(3) == 256 * Pow256(2);
    assert Pow256(5) == 256 * Pow256(4);
    assert Pow256(7) == 256 * Pow256(6);
  }

  /** The n low-order bytes of x, least significant first. */
  function ToBytes(x: nat, n: nat): (s: seq<byte>)
    ensures |s| == n
  {
    if n == 0 then [] else [x % 256] + ToBytes(x / 256, n - 1)
  }

  function FromBytes(s: seq<byte>): nat
  {
    if s == [] then 0 else s[0] + 256 * FromBytes(s[1..])
  }

  lemma {:induction false} FromToBytes(x: nat, n: nat)
    requires x < Pow256(n)
    ensures FromBytes(ToBytes(x, n)) == x
  {
    if n > 0 {
      FromToBytes(x / 256, n - 1);
      assert ToBytes(x, n)[1..] == ToBytes(x / 256, n - 1);
    }
  }

  lemma {:induction false} FromBytesBound(s: seq<byte>)
    ensures FromBytes(s) < Pow256(|s|)
  {
    if s != [] {
      FromBytesBound(s[1..]);
    }
  }

  lemma {:induction false} ToFromBytes(s: seq<byte>)
    ensures ToBytes(FromBytes(s), |s|) == s
  {
    if s != [] {
      ToFromBytes(s[1..]);
      assert FromBytes(s) % 256 == s[0] && FromBytes(s) / 256 == FromBytes(s[1..]);
    }
  }

  // ---------- byte by byte ----------

  /** Two, four and eight bytes, least significant first. */
  function Half(x: u16): seq<byte> {
    [x % 256, x / 256]
  }

  function Word(x: u32): seq<byte> {
    [x % 256, x / 256 % 256, x / 256 / 256 % 256, x / 256 / 256 / 256]
  }

  function Quad(x: u64): seq<byte> {
    Word(x % 0x1_0000_0000) + Word(x / 0x1_0000_0000)
  }

  /** Four bytes and the rest. */
  lemma WordBehind(s: seq<byte>)
    requires |s| >= 4
    ensures FromBytes(s)
         == s[0] + 0x100 * s[1] + 0x1_0000 * s[2] + 0x100_0000 * s[3] + 0x1_0000_0000 * FromBytes(s[4..])
  {
    var s1, s2, s3 := s[1..], s[2..], s[3..];
    assert s1[1..] == s2 && s2[1..] == s3 && s3[1..] == s[4..];
    assert FromBytes(s2) == s2[0] + 256 * FromBytes(s3);
    assert FromBytes(s3) == s3[0] + 256 * FromBytes(s[4..]);
  }

  lemma HalfIs(x: u16)
    ensures ToBytes(x, 2) == Half(x)
  {
    var s := Half(x);
    assert s[1..] == [x / 256] && s[1..][1..] == [];
    assert FromBytes(s[1..]) == x / 256 + 256 * FromBytes([]);
    assert FromBytes(s) == x;
    ToFromBytes(s);
  }

  lemma WordValue(s: seq<byte>, x: u32)
    requires Word(x) <= s
    ensures FromBytes(s) == x + 0x1_0000_0000 * FromBytes(s[4..])
  {
    WordBehind(s);
    assert s[..4] == Word(x);
    assert s[0] == Word(x)[0] && s[1] == Word(x)[1] && s[2] == Word(x)[2] && s[3] == Word(x)[3];
  }

  lemma WordIs(x: u32)
    ensures ToBytes(x, 4) == Word(x)
  {
    WordValue(Word(x), x);
    assert Word(x)[4..] == [];
    ToFromBytes(Word(x));
  }

  lemma QuadIs(x: u64)
    ensures ToBytes(x, 8) == Quad(x)
  {
    var s, low, high := Quad(x), x % 0x1_0000_0000, x / 0x1_0000_0000;
    WordValue(s, low);
    assert s[4..] == Word(high) && Word(high)[4..] == [];
    WordValue(Word(high), high);
    ToFromBytes(s);
  }
}
