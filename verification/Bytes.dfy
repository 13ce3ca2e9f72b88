/** Bytes, little-endian integers and the fixed-width integer conversions the wire code relies on. */
module Bytes {

  type byte = b: int | 0 <= b < 256

  const TWO_16: int := 0x1_0000
  const TWO_24: int := 0x100_0000
  const TWO_31: int := 0x8000_0000
  const TWO_32: int := 0x1_0000_0000
  const TWO_63: int := 0x8000_0000_0000_0000
  const TWO_64: int := 0x1_0000_0000_0000_0000

  type uint32 = n: int | 0 <= n < TWO_32
  type uint64 = n: int | 0 <= n < TWO_64
  type int32 = n: int | -TWO_31 <= n < TWO_31
  type int64 = n: int | -TWO_63 <= n < TWO_63

  /** Go's uint32(v) of an int32, and back: the two's complement reinterpretation. */
  function ToU32(v: int32): uint32 { if v < 0 then v + TWO_32 else v }

  function ToI32(v: uint32): (r: int32)
    ensures ToU32(r) == v
  {
    if v < TWO_31 then v else v - TWO_32
  }

  function ToU64(v: int64): uint64 { if v < 0 then v + TWO_64 else v }

  function ToI64(v: uint64): (r: int64)
    ensures ToU64(r) == v
  {
    if v < TWO_63 then v else v - TWO_64
  }

  /** What an atomic int32 counter holds after counting to `n`: the value modulo 2^32. */
  function WrapI32(n: int): int32 { (n + TWO_31) % TWO_32 - TWO_31 }

  lemma WrapAdds(n: int)
    ensures WrapI32(WrapI32(n) + 1) == WrapI32(n + 1)
  {
    var q := (n + TWO_31) / TWO_32;
    assert WrapI32(n) == n - q * TWO_32;
  }

  lemma WrapAddsMany(n: int, k: nat)
    ensures WrapI32(WrapI32(n) + k) == WrapI32(n + k)
  {
    var q := (n + TWO_31) / TWO_32;
    assert WrapI32(n) == n - q * TWO_32;
    assert WrapI32(n) + k + TWO_31 == (n + k + TWO_31) - q * TWO_32;
  }

  /** Two counts share a seqno exactly when they differ by a multiple of 2^32. */
  lemma WrapCollides(a: nat, b: nat)
    ensures a <= b < a + TWO_32 && WrapI32(a) == WrapI32(b) ==> a == b
    ensures WrapI32(a + TWO_32) == WrapI32(a)
  {
  }

  function Pow256(k: nat): (p: nat)
    ensures p > 0
  {
    if k == 0 then 1 else 256 * Pow256(k - 1)
  }

  /** The low `k` bytes of `n`, least significant first. */
  function LE(n: nat, k: nat): (s: seq<byte>)
    ensures |s| == k
  {
    if k == 0 then [] else [n % 256] + LE(n / 256, k - 1)
  }

  function FromLE(s: seq<byte>): (n: nat)
    ensures n < Pow256(|s|)
  {
    if s == [] then 0 else s[0] + 256 * FromLE(s[1..])
  }

  lemma {:induction false} FromLEofLE(n: nat, k: nat)
    requires n < Pow256(k)
    ensures FromLE(LE(n, k)) == n
  {
    if k > 0 {
      FromLEofLE(n / 256, k - 1);
      assert LE(n, k)[1..] == LE(n / 256, k - 1);
    }
  }

  lemma Pow256Values()
    ensures Pow256(3) == TWO_24 && Pow256(4) == TWO_32 && Pow256(8) == TWO_64
  {
    assert Pow256(2) == 256 * Pow256(1) == TWO_16;
    assert Pow256(3) == 256 * Pow256(2) == TWO_24;
    assert Pow256(4) == 256 * Pow256(3) == TWO_32;
    assert Pow256(5) == 256 * Pow256(4);
    assert Pow256(6) == 256 * Pow256(5);
    assert Pow256(7) == 256 * Pow256(6);
    assert Pow256(8) == 256 * Pow256(7);
  }

  function Pow2(n: nat): (p: nat)
    ensures p > 0
  {
    if n == 0 then 1 else 2 * Pow2(n - 1)
  }

  lemma {:induction false} Pow2Adds(a: nat, b: nat)
    ensures Pow2(a + b) == Pow2(a) * Pow2(b)
  {
    if b == 0 {
      assert Pow2(0) == 1;
    } else {
      Pow2Adds(a, b - 1);
      Pow2Next(a + b - 1);
      Pow2Next(b - 1);
      hide Pow2;
      MoveTwo(Pow2(a), Pow2(b - 1));
    }
  }

  lemma Pow2Next(n: nat)
    ensures Pow2(n + 1) == 2 * Pow2(n)
  {
  }

  lemma MoveTwo(x: nat, y: nat)
    ensures x * (2 * y) == 2 * (x * y)
  {
  }

  lemma Widths()
    ensures Pow2(1) == 2 && Pow2(2) == 4 && Pow2(4) == 16 && Pow2(8) == 256 && Pow2(32) == TWO_32 && Pow2(64) == TWO_64
  {
    Pow2Is2And4();
    hide Pow2;
    Pow2Adds(2, 2);
    Pow2Adds(4, 4);
    Pow2Adds(8, 8);
    Pow2Adds(16, 16);
    Pow2Adds(32, 32);
  }

  lemma Pow2Is2And4()
    ensures Pow2(1) == 2 && Pow2(2) == 4
  {
    assert Pow2(1) == 2 * Pow2(0);
    assert Pow2(2) == 2 * Pow2(1);
  }

  /** Concatenation is associative; stated once so that proofs can name the step. */
  lemma Assoc<T>(a: seq<T>, b: seq<T>, c: seq<T>)
    ensures (a + b) + c == a + (b + c)
  {
  }

  lemma TakeDrop<T>(a: seq<T>, b: seq<T>)
    ensures (a + b)[..|a|] == a && (a + b)[|a|..] == b
  {
  }
}
