/** Bytes and the fixed-width integers of the wire formats. */
module Bytes {
  type Byte = x: int | 0 <= x < 256

  datatype Option<+T> = None | Some(value: T)

  function Pow256(k: nat): (r: nat)
    ensures r > 0
  {
    if k == 0 then 1 else 256 * Pow256(k - 1)
  }

  /** The `k` low bytes of `n`, least significant first; higher bytes are cut off. */
  function ToLE(n: nat, k: nat): (r: seq<Byte>)
    ensures |r| == k
  {
    if k == 0 then [] else [n % 256] + ToLE(n / 256, k - 1)
  }

  function FromLE(b: seq<Byte>): (r: nat)
    ensures r < Pow256(|b|)
  {
    if b == [] then 0 else b[0] + 256 * FromLE(b[1..])
  }

  lemma {:induction false} FromToLE(n: nat, k: nat)
    requires n < Pow256(k)
    ensures FromLE(ToLE(n, k)) == n
  {
    if k > 0 {
      assert ToLE(n, k)[1..] == ToLE(n / 256, k - 1);
      FromToLE(n / 256, k - 1);
    }
  }

  lemma {:induction false} ToFromLE(b: seq<Byte>)
    ensures ToLE(FromLE(b), |b|) == b
  {
    if b != [] {
      ToFromLE(b[1..]);
      assert (b[0] + 256 * FromLE(b[1..])) / 256 == FromLE(b[1..]);
      assert b == [b[0]] + b[1..];
    }
  }

  function Reversed(b: seq<Byte>): (r: seq<Byte>)
    ensures |r| == |b| && forall i :: 0 <= i < |b| ==> r[i] == b[|b| - 1 - i]
  {
    seq(|b|, i requires 0 <= i < |b| => b[|b| - 1 - i])
  }

  function ToBE(n: nat, k: nat): (r: seq<Byte>)
    ensures |r| == k
  {
    Reversed(ToLE(n, k))
  }

  function FromBE(b: seq<Byte>): (r: nat)
    ensures r < Pow256(|b|)
  {
    FromLE(Reversed(b))
  }

  lemma FromToBE(n: nat, k: nat)
    requires n < Pow256(k)
    ensures FromBE(ToBE(n, k)) == n
  {
    FromToLE(n, k);
    assert Reversed(Reversed(ToLE(n, k))) == ToLE(n, k);
  }

  lemma ToFromBE(b: seq<Byte>)
    ensures ToBE(FromBE(b), |b|) == b
  {
    ToFromLE(Reversed(b));
    assert Reversed(Reversed(b)) == b;
  }

  const U16: nat := 0x1_0000
  const U32: nat := 0x1_0000_0000
  const U64: nat := 0x1_0000_0000_0000_0000

  lemma Widths()
    ensures Pow256(2) == U16 && Pow256(4) == U32 && Pow256(8) == U64
  {
    assert Pow256(1) == 256 && Pow256(3) == 0x100_0000;
    assert Pow256(5) == 0x100_0000_0000 && Pow256(6) == 0x1_0000_0000_0000 && Pow256(7) == 0x100_0000_0000_0000;
  }

  /** Four bytes as a number, the first the least significant. */
  function U32Of(a: Byte, b: Byte, c: Byte, d: Byte): nat {
    a + 0x100 * b + 0x1_0000 * c + 0x100_0000 * d
  }

  lemma FourBytes(b: seq<Byte>)
    requires |b| == 4
    ensures FromLE(b) == U32Of(b[0], b[1], b[2], b[3])
  {
    assert FromLE(b[3..]) == b[3] + 256 * FromLE(b[3..][1..]) == b[3];
    assert b[2..][1..] == b[3..] && b[1..][1..] == b[2..];
    assert FromLE(b[2..]) == b[2] + 256 * FromLE(b[3..]);
    assert FromLE(b[1..]) == b[1] + 256 * FromLE(b[2..]);
  }

  lemma EightBytes(b: seq<Byte>)
    requires |b| == 8
    ensures FromLE(b) == U32Of(b[0], b[1], b[2], b[3]) + U32 * U32Of(b[4], b[5], b[6], b[7])
  {
    FourBytes(b[4..]);
    assert b[3..][1..] == b[4..] && b[2..][1..] == b[3..] && b[1..][1..] == b[2..];
    assert FromLE(b[3..]) == b[3] + 256 * FromLE(b[4..]);
    assert FromLE(b[2..]) == b[2] + 256 * FromLE(b[3..]);
    assert FromLE(b[1..]) == b[1] + 256 * FromLE(b[2..]);
  }

  function Min(a: int, b: int): int {
    if a <= b then a else b
  }
}
