/** Bytes and big-endian numbers. */
module Bytes {
  type Byte = x: int | 0 <= x < 256

  function Pow256(w: nat): nat { if w == 0 then 1 else 256 * Pow256(w - 1) }

  /** n in w bytes, most significant first (n modulo 256^w). */
  function BigEndian(n: nat, w: nat): (s: seq<Byte>)
    ensures |s| == w
  {
    if w == 0 then [] else BigEndian(n / 256, w - 1) + [n % 256]
  }

  function Value(s: seq<Byte>): nat { if s == [] then 0 else 256 * Value(s[..|s| - 1]) + s[|s| - 1] }

  lemma {:induction false} ValueOfBigEndian(n: nat, w: nat)
    requires n < Pow256(w)
    ensures Value(BigEndian(n, w)) == n
  {
    if w > 0 {
      var s := BigEndian(n, w);
      assert s[..w - 1] == BigEndian(n / 256, w - 1);
      ValueOfBigEndian(n / 256, w - 1);
    }
  }

  lemma {:induction false} BigEndianOfValue(s: seq<Byte>)
    ensures BigEndian(Value(s), |s|) == s && Value(s) < Pow256(|s|)
  {
    if s != [] {
      var n := |s| - 1;
      BigEndianOfValue(s[..n]);
      assert s == s[..n] + [s[n]];
    }
  }

  lemma Pow256Values()
    ensures Pow256(1) == 0x100 && Pow256(2) == 0x1_0000 && Pow256(4) == 0x1_0000_0000 && Pow256(8) == 0x1_0000_0000_0000_0000
  {
  }

  /* ---- exclusive or ---- */

  function Pow2(n: nat): nat { if n == 0 then 1 else 2 * Pow2(n - 1) }

  /** Bit by bit, on the low n bits. */
  function XorBits(x: nat, k: nat, n: nat): (r: nat)
    ensures r < Pow2(n)
  {
    if n == 0 then 0 else 2 * XorBits(x / 2, k / 2, n - 1) + (if x % 2 == k % 2 then 0 else 1)
  }

  function Xor(x: Byte, k: Byte): Byte {
    assert Pow2(8) == 256;
    XorBits(x, k, 8)
  }

  lemma {:induction false} XorBitsTwice(x: nat, k: nat, n: nat)
    requires x < Pow2(n)
    ensures XorBits(XorBits(x, k, n), k, n) == x
  {
    if n > 0 {
      var y := XorBits(x, k, n);
      assert y / 2 == XorBits(x / 2, k / 2, n - 1) && y % 2 == (if x % 2 == k % 2 then 0 else 1);
      XorBitsTwice(x / 2, k / 2, n - 1);
    }
  }

  lemma XorTwice(x: Byte, k: Byte)
    ensures Xor(Xor(x, k), k) == x
  {
    assert Pow2(8) == 256;
    XorBitsTwice(x, k, 8);
  }
}
