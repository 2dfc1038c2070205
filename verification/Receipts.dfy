/** The receipt list of a page upload as a finite set of chunk numbers, and the two facts
    its completion check rests on: a pigeonhole count, and what sorting such a list gives. */
module Receipts {

  ghost predicate Distinct(s: seq<int>) {
    forall i, j :: 0 <= i < j < |s| ==> s[i] != s[j]
  }

  ghost predicate InRange(s: seq<int>, n: int) {
    forall i :: 0 <= i < |s| ==> 0 <= s[i] < n
  }

  ghost predicate Ascending(s: seq<int>) {
    forall i, j :: 0 <= i < j < |s| ==> s[i] <= s[j]
  }

  /** The numbers 0..n-1. */
  function Upto(n: nat): (s: set<int>)
    ensures forall x :: x in s <==> 0 <= x < n
    ensures |s| == n
  {
    if n == 0 then {} else Upto(n - 1) + {n - 1}
  }

  ghost function Elements(s: seq<int>): (r: set<int>)
    ensures forall x :: x in r <==> x in s
  {
    set x | x in s
  }

  lemma {:induction false} DistinctCount(s: seq<int>)
    requires Distinct(s)
    ensures |Elements(s)| == |s|
  {
    if s != [] {
      var init := s[..|s| - 1];
      assert s == init + [s[|s| - 1]];
      DistinctCount(init);
      assert s[|s| - 1] !in init;
      assert Elements(s) == Elements(init) + {s[|s| - 1]};
    } else {
      assert Elements(s) == {};
    }
  }

  lemma {:induction false} SubsetOfEqualSize<T>(a: set<T>, b: set<T>)
    requires a <= b && |a| >= |b|
    ensures a == b
  {
    if !(b <= a) {
      var x :| x in b && x !in a;
      SubsetSize(a, b - {x});
      assert false;
    }
  }

  lemma {:induction false} SubsetSize<T>(a: set<T>, b: set<T>)
    requires a <= b
    ensures |a| <= |b|
  {
    if a != {} {
      var x :| x in a;
      SubsetSize(a - {x}, b - {x});
    }
  }

  /** Pigeonhole: distinct numbers below n are all of them exactly when there are n. */
  lemma Pigeonhole(s: seq<int>, n: nat)
    requires Distinct(s) && InRange(s, n)
    ensures |s| <= n
    ensures |s| == n <==> forall i :: 0 <= i < n ==> i in s
  {
    DistinctCount(s);
    assert Elements(s) <= Upto(n);
    SubsetSize(Elements(s), Upto(n));
    if |s| == n {
      SubsetOfEqualSize(Elements(s), Upto(n));
      assert forall i :: 0 <= i < n ==> i in Elements(s);
    }
    if forall i :: 0 <= i < n ==> i in s {
      assert Upto(n) <= Elements(s);
      SubsetSize(Upto(n), Elements(s));
    }
  }

  lemma PermutationKeepsDistinct(s: seq<int>, t: seq<int>)
    requires multiset(s) == multiset(t) && Distinct(s)
    ensures Distinct(t)
  {
    forall i, j | 0 <= i < j < |t|
      ensures t[i] != t[j]
    {
      if t[i] == t[j] {
        CountTwice(t, i, j);
        CountOnce(s, t[i]);
        assert false;
      }
    }
  }

  lemma CountTwice(t: seq<int>, i: nat, j: nat)
    requires i < j < |t| && t[i] == t[j]
    ensures multiset(t)[t[i]] >= 2
  {
    assert t == t[..j] + t[j..];
    assert multiset(t) == multiset(t[..j]) + multiset(t[j..]);
    assert t[..j][i] == t[i] && t[j..][0] == t[j];
    assert t[i] in t[..j] && t[j] in t[j..];
  }

  lemma {:induction false} CountOnce(s: seq<int>, x: int)
    requires Distinct(s)
    ensures multiset(s)[x] <= 1
  {
    if s != [] {
      var n := |s| - 1;
      assert s == s[..n] + [s[n]];
      CountOnce(s[..n], x);
      if s[n] == x {
        assert x !in s[..n];
        assert multiset(s[..n])[x] == 0;
      }
    }
  }

  lemma SameElements(s: seq<int>, t: seq<int>)
    requires multiset(s) == multiset(t)
    ensures |s| == |t| && forall x :: x in s <==> x in t
  {
    assert |multiset(s)| == |s| && |multiset(t)| == |t|;
    forall x
      ensures x in s <==> x in t
    {
      assert x in s <==> x in multiset(s);
      assert x in t <==> x in multiset(t);
    }
  }

  /** In a sorted list of distinct non-negative numbers the first position that does not hold
      its own index names a number that is not in the list. */
  lemma NotAtItsIndex(t: seq<int>, i: nat)
    requires Distinct(t) && Ascending(t) && i < |t| && t[i] != i
    requires forall x :: x in t ==> x >= 0
    requires forall k :: 0 <= k < i ==> t[k] == k
    ensures i !in t
  {
    assert t[0] in t;
    AtLeastIndex(t, i);
  }

  lemma {:induction false} AtLeastIndex(t: seq<int>, i: nat)
    requires Distinct(t) && Ascending(t) && i < |t|
    requires t[0] >= 0
    ensures t[i] >= i
  {
    if i > 0 {
      AtLeastIndex(t, i - 1);
      assert t[i - 1] < t[i];
    }
  }

  /** `sort.Ints`: sorts in place, keeping the elements. */
  method SortInts(a: array<int>)
    modifies a
    ensures Ascending(a[..])
    ensures multiset(a[..]) == multiset(old(a[..]))
  {
    var n := 0;
    while n < a.Length
      invariant 0 <= n <= a.Length
      invariant forall i, j :: 0 <= i < j < n ==> a[i] <= a[j]
      invariant multiset(a[..]) == multiset(old(a[..]))
    {
      var k := n;
      while k > 0 && a[k - 1] > a[k]
        invariant 0 <= k <= n
        invariant forall i, j :: 0 <= i < j <= n && j != k ==> a[i] <= a[j]
        invariant multiset(a[..]) == multiset(old(a[..]))
      {
        a[k - 1], a[k] := a[k], a[k - 1];
        k := k - 1;
      }
      n := n + 1;
    }
  }
}
