/** Bytes, decimal digits and fixed-width big-endian numbers, with their readers. */
module Bytes {

  newtype byte = b: int | 0 <= b < 256

  const SPACE: byte := 32
  const ZERO: byte := 48

  // ---- decimal ---------------------------------------------------------------------

  /** A number as `%d` prints it. */
  function Decimal(n: nat): (ds: seq<byte>)
    ensures ds != [] && SPACE !in ds
  {
    if n < 10 then [ZERO + n as byte] else Decimal(n / 10) + [ZERO + (n % 10) as byte]
  }

  function Value(ds: seq<byte>): int {
    if ds == [] then 0 else 10 * Value(ds[..|ds| - 1]) + (ds[|ds| - 1] as int - ZERO as int)
  }

  lemma {:induction false} ValueOfDecimal(n: nat)
    ensures Value(Decimal(n)) == n
  {
    var ds := Decimal(n);
    if n < 10 {
      assert Value(ds[..0]) == 0;
    } else {
      ValueOfDecimal(n / 10);
      assert ds[..|ds| - 1] == Decimal(n / 10);
    }
  }

  /** The position of the first space, or the length. */
  function FirstSpace(b: seq<byte>): (i: nat)
    ensures i <= |b| && SPACE !in b[..i]
    ensures i < |b| ==> b[i] == SPACE
  {
    if b == [] || b[0] == SPACE then 0
    else
      var i := FirstSpace(b[1..]);
      assert b[..i + 1] == [b[0]] + b[1..][..i];
      i + 1
  }

  lemma {:induction false} FirstSpaceAfter(a: seq<byte>, rest: seq<byte>)
    requires SPACE !in a
    ensures FirstSpace(a + [SPACE] + rest) == |a|
  {
    if a != [] {
      FirstSpaceAfter(a[1..], rest);
      assert (a + [SPACE] + rest)[1..] == a[1..] + [SPACE] + rest;
    }
  }

  // ---- big endian --------------------------------------------------------------------

  function Pow256(k: nat): (p: nat)
    ensures p > 0
  {
    if k == 0 then 1 else 256 * Pow256(k - 1)
  }

  /** The `k` low bytes of `n`, most significant first. */
  function BigEndian(n: nat, k: nat): (b: seq<byte>)
    ensures |b| == k
  {
    if k == 0 then [] else BigEndian(n / 256, k - 1) + [(n % 256) as byte]
  }

  function FromBigEndian(b: seq<byte>): nat {
    if b == [] then 0 else 256 * FromBigEndian(b[..|b| - 1]) + b[|b| - 1] as nat
  }

  lemma {:induction false} BigEndianReads(n: nat, k: nat)
    requires n < Pow256(k)
    ensures FromBigEndian(BigEndian(n, k)) == n
  {
    if k > 0 {
      BigEndianReads(n / 256, k - 1);
      var b := BigEndian(n, k);
      assert b[..|b| - 1] == BigEndian(n / 256, k - 1);
    }
  }

  /** Writes `v` into the eight bytes of `a`. */
  method PutUint64(a: array<byte>, v: nat)
    requires a.Length == 8
    modifies a
    ensures a[..] == BigEndian(v, 8)
  {
    var rest, i := v, 8;
    while i > 0
      invariant 0 <= i <= 8
      invariant BigEndian(v, 8) == BigEndian(rest, i) + a[i..]
    {
      i := i - 1;
      a[i] := (rest % 256) as byte;
      rest := rest / 256;
    }
    assert a[0..] == a[..];
  }
}
