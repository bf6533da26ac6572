/** Octets and fixed-width integers as the archive, hash and time-zone formats lay them out. */
module Bytes {

  type Byte = n: nat | n < 256

  /** 256 to the power `k`: one more than the largest `k`-octet value. */
  function Pow256(k: nat): (p: nat)
    ensures p >= 1
  {
    if k == 0 then 1 else 256 * Pow256(k - 1)
  }

  /** The low `k` octets of `n`, least significant first; a larger `n` is truncated, as `as u16` truncates. */
  function LittleEndian(n: nat, k: nat): (s: seq<Byte>)
    ensures |s| == k
    decreases k
  {
    if k == 0 then [] else [n % 256] + LittleEndian(n / 256, k - 1)
  }

  function FromLittleEndian(s: seq<Byte>): (n: nat)
    ensures n < Pow256(|s|)
  {
    if s == [] then 0 else s[0] + 256 * FromLittleEndian(s[1..])
  }

  /** A value that fits in `k` octets is read back exactly; one that does not is not. */
  lemma {:induction false} LittleEndianRoundTrip(n: nat, k: nat)
    ensures FromLittleEndian(LittleEndian(n, k)) == n <==> n < Pow256(k)
    decreases k
  {
    if k > 0 {
      LittleEndianRoundTrip(n / 256, k - 1);
      assert LittleEndian(n, k)[1..] == LittleEndian(n / 256, k - 1);
    }
  }

  /** Most significant octet first. */
  function BigEndian(n: nat, k: nat): (s: seq<Byte>)
    ensures |s| == k
    decreases k
  {
    if k == 0 then [] else BigEndian(n / 256, k - 1) + [n % 256]
  }

  function FromBigEndian(s: seq<Byte>): (n: nat)
    ensures n < Pow256(|s|)
  {
    if s == [] then 0 else 256 * FromBigEndian(s[..|s| - 1]) + s[|s| - 1]
  }

  lemma {:induction false} BigEndianRoundTrip(n: nat, k: nat)
    ensures FromBigEndian(BigEndian(n, k)) == n <==> n < Pow256(k)
    decreases k
  {
    if k > 0 {
      BigEndianRoundTrip(n / 256, k - 1);
      assert BigEndian(n, k)[..k - 1] == BigEndian(n / 256, k - 1);
    }
  }

  /** Two's complement of a signed value in `k` octets, and back. */
  function Unsigned(n: int, k: nat): (u: nat)
    requires -(Pow256(k) as int) <= 2 * n < Pow256(k)
    ensures u < Pow256(k)
  {
    if n < 0 then n + Pow256(k) else n
  }

  function Signed(u: nat, k: nat): (n: int)
    requires u < Pow256(k)
    ensures -(Pow256(k) as int) <= 2 * n < Pow256(k)
    ensures Unsigned(n, k) == u
  {
    if 2 * u < Pow256(k) then u else u - Pow256(k)
  }

  /** The octet values of the fixed widths the formats use. */
  lemma Widths()
    ensures Pow256(1) == 0x100
    ensures Pow256(2) == 0x1_0000
    ensures Pow256(4) == 0x1_0000_0000
    ensures Pow256(8) == 0x1_0000_0000_0000_0000
    ensures Pow256(16) == 0x1_0000_0000_0000_0000_0000_0000_0000_0000
  {
    assert Pow256(1) == 256 * Pow256(0);
    assert Pow256(2) == 256 * Pow256(1);
    assert Pow256(4) == 256 * Pow256(3) == 256 * 256 * Pow256(2);
    assert Pow256(6) == 256 * Pow256(5) == 256 * 256 * Pow256(4);
    assert Pow256(8) == 256 * Pow256(7) == 256 * 256 * Pow256(6);
    assert Pow256(10) == 256 * Pow256(9) == 256 * 256 * Pow256(8);
    assert Pow256(12) == 256 * Pow256(11) == 256 * 256 * Pow256(10);
    assert Pow256(14) == 256 * Pow256(13) == 256 * 256 * Pow256(12);
    assert Pow256(16) == 256 * Pow256(15) == 256 * 256 * Pow256(14);
  }

  lemma Slice<T>(pre: seq<T>, mid: seq<T>, post: seq<T>)
    ensures (pre + mid + post)[|pre|..|pre| + |mid|] == mid
  {
  }

  lemma SubSlice<T>(b: seq<T>, at: nat, n: nat, i: nat, j: nat)
    requires at + n <= |b| && i <= j <= n
    ensures b[at..at + n][i..j] == b[at + i..at + j]
  {
    var x, y := b[at..at + n][i..j], b[at + i..at + j];
    assert |x| == |y|;
    assert forall m | 0 <= m < |x| :: x[m] == y[m];
  }

  /** Octets `at` to `at + |part|` of the file are `part`. */
  ghost predicate Holds(b: seq<Byte>, at: nat, part: seq<Byte>) {
    at + |part| <= |b| && b[at..at + |part|] == part
  }

  lemma HoldsPart(b: seq<Byte>, at: nat, whole: seq<Byte>, i: nat, j: nat)
    requires Holds(b, at, whole) && i <= j <= |whole|
    ensures Holds(b, at + i, whole[i..j])
  {
    SubSlice(b, at, |whole|, i, j);
  }

  /** A part of a part. */
  lemma HoldsTrans(b: seq<Byte>, at: nat, whole: seq<Byte>, i: nat, part: seq<Byte>)
    requires Holds(b, at, whole) && Holds(whole, i, part)
    ensures Holds(b, at + i, part)
  {
    SubSlice(b, at, |whole|, i, i + |part|);
  }

  lemma HoldsStart(part: seq<Byte>, rest: seq<Byte>)
    ensures Holds(part + rest, 0, part)
  {
  }

  lemma HoldsMiddle(pre: seq<Byte>, mid: seq<Byte>, post: seq<Byte>)
    ensures Holds(pre + mid + post, |pre|, mid)
  {
    Slice(pre, mid, post);
  }

  lemma HoldsEnd(head: seq<Byte>, tail: seq<Byte>)
    ensures Holds(head + tail, |head|, tail)
  {
  }
}
