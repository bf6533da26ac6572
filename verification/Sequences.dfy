/** Facts about sequences that several checks rely on. */
module Sequences {

  ghost predicate Distinct<T(!new)>(s: seq<T>) {
    forall i, j | 0 <= i < j < |s| :: s[i] != s[j]
  }

  ghost function ToSet<T(!new)>(s: seq<T>): set<T> {
    set x | x in s
  }

  lemma {:induction false} DistinctSize<T(!new)>(s: seq<T>)
    ensures |ToSet(s)| <= |s|
    ensures Distinct(s) ==> |ToSet(s)| == |s|
  {
    if s != [] {
      var last := |s| - 1;
      DistinctSize(s[..last]);
      assert s == s[..last] + [s[last]];
      assert ToSet(s) == ToSet(s[..last]) + {s[last]};
      if Distinct(s) {
        assert s[last] !in s[..last];
      }
    }
  }

  /** Every element is below `n`. */
  ghost predicate Within(s: seq<nat>, n: nat) {
    forall k | 0 <= k < |s| :: s[k] < n
  }

  ghost function Below(n: nat): (r: set<nat>)
    ensures forall i: nat :: i in r <==> i < n
    ensures |r| == n
  {
    if n == 0 then {} else Below(n - 1) + {n - 1}
  }

  /** Distinct indices below `n` are at most `n` many, and `n` of them are all of them. */
  lemma Pigeonhole(s: seq<nat>, n: nat)
    requires Distinct(s) && Within(s, n)
    ensures |s| <= n
    ensures |s| == n <==> forall i: nat | i < n :: i in s
  {
    DistinctSize(s);
    forall x | x in ToSet(s)
      ensures x in Below(n)
    {
      var k :| 0 <= k < |s| && s[k] == x;
    }
    SubsetSize(ToSet(s), Below(n));
    if forall i: nat | i < n :: i in s {
      assert ToSet(s) == Below(n);
    }
    if |s| == n {
      forall i: nat | i < n
        ensures i in s
      {
        assert i in Below(n);
        assert i in ToSet(s);
      }
    }
  }

  lemma {:induction false} SubsetSize<T>(a: set<T>, b: set<T>)
    requires a <= b
    ensures |a| <= |b|
    ensures |a| == |b| ==> a == b
    decreases |a|
  {
    if a != {} {
      var x :| x in a;
      SubsetSize(a - {x}, b - {x});
      if |a| == |b| {
        assert a - {x} == b - {x};
        assert a == (a - {x}) + {x} && b == (b - {x}) + {x};
      }
    }
  }

  ghost predicate Ascending(s: seq<nat>) {
    forall i, j | 0 <= i < j < |s| :: s[i] < s[j]
  }

  /** A strictly ascending list is determined by its elements. */
  lemma {:induction false} AscendingUnique(a: seq<nat>, b: seq<nat>)
    requires Ascending(a) && Ascending(b)
    requires forall x :: x in a <==> x in b
    ensures a == b
  {
    assert a != [] ==> a[0] in b;
    assert b != [] ==> b[0] in a;
    if a != [] {
      assert a[0] == b[0];
      forall x
        ensures x in a[1..] <==> x in b[1..]
      {
        assert x in a[1..] <==> x in a && x != a[0] by { TailIn(a, x); }
        assert x in b[1..] <==> x in b && x != b[0] by { TailIn(b, x); }
      }
      AscendingUnique(a[1..], b[1..]);
      assert a == [a[0]] + a[1..] && b == [b[0]] + b[1..];
    }
  }

  lemma TailIn(s: seq<nat>, x: nat)
    requires Ascending(s) && s != []
    ensures x in s[1..] <==> x in s && x != s[0]
  {
    assert s == [s[0]] + s[1..];
    if x in s[1..] {
      var i :| 0 <= i < |s[1..]| && s[1..][i] == x;
      assert s[i + 1] == x;
    }
  }

  function Reverse<T>(s: seq<T>): (r: seq<T>)
    ensures |r| == |s|
    ensures forall i | 0 <= i < |s| :: r[i] == s[|s| - 1 - i]
  {
    if s == [] then [] else Reverse(s[1..]) + [s[0]]
  }

  lemma {:induction false} ReverseElements<T(!new)>(s: seq<T>)
    ensures forall x :: x in Reverse(s) <==> x in s
    ensures Distinct(s) ==> Distinct(Reverse(s))
  {
    var r := Reverse(s);
    forall x
      ensures x in r <==> x in s
    {
      if x in s {
        var i :| 0 <= i < |s| && s[i] == x;
        assert r[|s| - 1 - i] == x;
      }
    }
  }

  /** Whether every record has a key of its own: the loop that inserts each key into a set. */
  method KeysDiffer<R, K(==, !new)>(records: seq<R>, key: R -> K) returns (differ: bool)
    ensures differ <==> forall i, j | 0 <= i < j < |records| :: key(records[i]) != key(records[j])
  {
    var seen: set<K> := {};
    for n := 0 to |records|
      invariant forall i, j | 0 <= i < j < n :: key(records[i]) != key(records[j])
      invariant forall k :: k in seen <==> exists i :: 0 <= i < n && key(records[i]) == k
    {
      if key(records[n]) in seen {
        return false;
      }
      seen := seen + {key(records[n])};
    }
    return true;
  }
}
