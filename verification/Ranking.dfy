/** Sorting as the ranking code uses it: descending by score, stable, a missing score last. */
module Ranking {
  import opened Prelude

  type Score = Option<real>

  predicate Below(a: Score, b: Score) {
    b.Some? && (a.None? || a.value < b.value)
  }

  /** Put an element in front of the first one it is not below. */
  function Insert<T>(key: T -> Score, x: T, s: seq<T>): (r: seq<T>)
    ensures |r| == |s| + 1 && multiset(r) == multiset(s) + multiset{x}
  {
    if s == [] then [x]
    else
      assert s == [s[0]] + s[1..];
      if Below(key(x), key(s[0])) then [s[0]] + Insert(key, x, s[1..]) else [x] + s
  }

  function Descending<T>(key: T -> Score, s: seq<T>): (r: seq<T>)
    ensures |r| == |s| && multiset(r) == multiset(s)
  {
    if s == [] then []
    else
      assert s == [s[0]] + s[1..];
      Insert(key, s[0], Descending(key, s[1..]))
  }

  /** Higher score first, a missing one last; among equal scores the earlier one. */
  ghost predicate Before<T>(key: T -> Score, pos: T -> int, x: T, y: T) {
    || (key(x).Some? && (key(y).None? || key(x).value > key(y).value))
    || (key(x) == key(y) && pos(x) < pos(y))
  }

  ghost predicate Ranked<T>(key: T -> Score, pos: T -> int, s: seq<T>) {
    forall i, j :: 0 <= i < j < |s| ==> Before(key, pos, s[i], s[j])
  }

  lemma RankedTail<T>(key: T -> Score, pos: T -> int, s: seq<T>)
    requires Ranked(key, pos, s) && s != []
    ensures Ranked(key, pos, s[1..])
    ensures forall y :: y in multiset(s[1..]) ==> Before(key, pos, s[0], y) && y in multiset(s)
  {
    hide Before;
    assert forall j :: 0 <= j < |s[1..]| ==> s[1..][j] == s[j + 1];
    forall y | y in multiset(s[1..]) ensures Before(key, pos, s[0], y) && y in multiset(s) {
      var k :| 0 <= k < |s[1..]| && s[1..][k] == y;
      assert s[k + 1] == y;
    }
  }

  lemma RankedCons<T>(key: T -> Score, pos: T -> int, x: T, s: seq<T>)
    requires Ranked(key, pos, s) && forall y :: y in multiset(s) ==> Before(key, pos, x, y)
    ensures Ranked(key, pos, [x] + s)
  {
    hide Before;
    assert forall j :: 0 <= j < |s| ==> s[j] in multiset(s);
  }

  lemma {:induction false} InsertRanks<T>(key: T -> Score, pos: T -> int, x: T, s: seq<T>)
    requires Ranked(key, pos, s) && forall y :: y in multiset(s) ==> pos(x) < pos(y)
    ensures Ranked(key, pos, Insert(key, x, s))
  {
    if s == [] {
    } else {
      RankedTail(key, pos, s);
      assert s == [s[0]] + s[1..] && s[0] in multiset(s);
      hide Ranked;
      if Below(key(x), key(s[0])) {
        InsertRanks(key, pos, x, s[1..]);
        RankedCons(key, pos, s[0], Insert(key, x, s[1..]));
      } else {
        assert forall y :: y in multiset(s) ==> y == s[0] || y in multiset(s[1..]);
        RankedCons(key, pos, x, s);
      }
    }
  }

  /** The stable descending sort is the one ordering by score and then by position. */
  lemma {:induction false} DescendingRanks<T>(key: T -> Score, pos: T -> int, s: seq<T>)
    requires forall i, j :: 0 <= i < j < |s| ==> pos(s[i]) < pos(s[j])
    ensures Ranked(key, pos, Descending(key, s))
  {
    if s != [] {
      DescendingRanks(key, pos, s[1..]);
      var r := Descending(key, s[1..]);
      forall y | y in multiset(r) ensures pos(s[0]) < pos(y) {
        assert y in multiset(s[1..]);
        var k :| 0 <= k < |s[1..]| && s[1..][k] == y;
        assert s[k + 1] == y;
      }
      InsertRanks(key, pos, s[0], r);
    }
  }

  lemma SameElements<T>(a: seq<T>, b: seq<T>)
    requires multiset(a) == multiset(b)
    ensures forall x :: x in a <==> x in b
  {
    assert forall x :: x in a <==> x in multiset(a);
    assert forall x :: x in b <==> x in multiset(b);
  }

  /** A list already in order is left alone. */
  lemma {:induction false} DescendingFixes<T>(key: T -> Score, s: seq<T>)
    requires forall i, j :: 0 <= i < j < |s| ==> !Below(key(s[i]), key(s[j]))
    ensures Descending(key, s) == s
  {
    if s != [] {
      DescendingFixes(key, s[1..]);
      assert s == [s[0]] + s[1..];
    }
  }

  // ------------------------------------------------------------------ index lists

  ghost predicate Increasing(idx: seq<nat>, n: nat) {
    && (forall k :: 0 <= k < |idx| ==> idx[k] < n)
    && forall j, k :: 0 <= j < k < |idx| ==> idx[j] < idx[k]
  }

  function Scan(keep: set<nat>, n: nat): seq<nat> {
    if n == 0 then [] else Scan(keep, n - 1) + if n - 1 in keep then [n - 1] else []
  }

  lemma {:induction false} ScanListsInOrder(keep: set<nat>, n: nat)
    ensures Increasing(Scan(keep, n), n)
    ensures forall i: nat :: i in Scan(keep, n) <==> i in keep && i < n
  {
    if n > 0 { ScanListsInOrder(keep, n - 1); }
  }

  lemma {:induction false} ScanSame(a: set<nat>, b: set<nat>, n: nat)
    requires forall i: nat :: i < n ==> (i in a <==> i in b)
    ensures Scan(a, n) == Scan(b, n)
  {
    if n > 0 { ScanSame(a, b, n - 1); }
  }

  /** The members of a set of positions below `n`, in order. */
  function InOrder(keep: set<nat>, n: nat): (r: seq<nat>)
    ensures Increasing(r, n)
    ensures forall i: nat :: i in r <==> i in keep && i < n
  {
    ScanListsInOrder(keep, n);
    Scan(keep, n)
  }

  lemma {:induction false} ScanSize(keep: set<nat>, n: nat)
    requires forall i: nat :: i in keep ==> i < n
    ensures |Scan(keep, n)| == |keep|
  {
    if n == 0 {
      assert keep == {};
    } else {
      var less: set<nat> := keep - {n - 1};
      ScanSize(less, n - 1);
      ScanSame(keep, less, n - 1);
      if n - 1 in keep { assert keep == less + {n - 1}; } else { assert keep == less; }
    }
  }

  lemma InOrderSize(keep: set<nat>, n: nat)
    requires forall i: nat :: i in keep ==> i < n
    ensures |InOrder(keep, n)| == |keep|
  {
    ScanSize(keep, n);
  }

  function UpTo(n: nat): (r: seq<nat>)
    ensures |r| == n && forall i :: 0 <= i < n ==> r[i] == i
    ensures forall i: nat :: i in r <==> i < n
  {
    var r := seq(n, i requires 0 <= i < n => i);
    assert forall i: nat :: i < n ==> i in r by { forall i: nat | i < n ensures i in r { assert r[i] == i; } }
    r
  }

  function Pick<T>(s: seq<T>, idx: seq<nat>): (r: seq<T>)
    requires forall k :: 0 <= k < |idx| ==> idx[k] < |s|
    ensures |r| == |idx| && forall k :: 0 <= k < |idx| ==> r[k] == s[idx[k]]
  {
    seq(|idx|, k requires 0 <= k < |idx| => s[idx[k]])
  }

  lemma {:induction false} IncreasingSize(idx: seq<nat>, n: nat)
    requires Increasing(idx, n)
    ensures |idx| <= n
  {
    if idx != [] {
      assert forall k :: 0 <= k < |idx| - 1 ==> idx[k] < idx[|idx| - 1];
      IncreasingSize(idx[..|idx| - 1], idx[|idx| - 1]);
    }
  }

  function SetOf<T(!new)>(s: seq<T>): (r: set<T>)
    ensures forall x :: x in r <==> x in s
    ensures |r| <= |s|
  {
    if s == [] then {}
    else
      assert s == [s[0]] + s[1..];
      {s[0]} + SetOf(s[1..])
  }

  lemma DistinctTail<T>(s: seq<T>)
    requires Distinct(s) && s != []
    ensures Distinct(s[1..]) && s[0] !in s[1..]
  {
    assert forall j :: 0 <= j < |s[1..]| ==> s[1..][j] == s[j + 1];
  }

  lemma {:induction false} DistinctSetSize<T(!new)>(s: seq<T>)
    requires Distinct(s)
    ensures |SetOf(s)| == |s|
  {
    if s != [] {
      DistinctTail(s);
      assert SetOf(s) == {s[0]} + SetOf(s[1..]);
      hide Distinct, SetOf;
      DistinctSetSize(s[1..]);
    }
  }

  lemma {:induction false} BelowSize(n: nat, s: set<nat>)
    requires forall i: nat :: i in s <==> i < n
    ensures |s| == n
  {
    if n == 0 {
      assert s == {};
    } else {
      BelowSize(n - 1, s - {n - 1});
    }
  }
}
