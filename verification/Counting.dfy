/** Sequences without repetition, and how long they can be. */
module Counting {

  ghost predicate Distinct(a: seq<int>) {
    forall i, j :: 0 <= i < j < |a| ==> a[i] != a[j]
  }

  function Below(n: nat): (r: set<int>)
    ensures forall x :: x in r <==> 0 <= x < n
  {
    if n == 0 then {} else Below(n - 1) + {n - 1}
  }

  lemma {:induction false} BelowSize(n: nat)
    ensures |Below(n)| == n
  {
    if n > 0 {
      BelowSize(n - 1);
    }
  }

  function Values(a: seq<int>): set<int> {
    set x | x in a
  }

  lemma {:induction false} DistinctSize(a: seq<int>)
    requires Distinct(a)
    ensures |Values(a)| == |a|
  {
    if a != [] {
      var b := a[..|a| - 1];
      DistinctSize(b);
      assert Values(a) == Values(b) + {a[|a| - 1]};
    }
  }

  lemma {:induction false} ValuesSize(a: seq<int>)
    ensures |Values(a)| <= |a|
  {
    if a != [] {
      var b := a[..|a| - 1];
      ValuesSize(b);
      assert Values(a) == Values(b) + {a[|a| - 1]};
    }
  }

  lemma SubsetSize(a: set<int>, b: set<int>)
    requires a <= b
    ensures |a| <= |b|
  {
    assert b == a + (b - a);
  }

  /** At most n different numbers lie below n. */
  lemma Pigeonhole(a: seq<int>, n: nat)
    requires Distinct(a) && forall i :: 0 <= i < |a| ==> 0 <= a[i] < n
    ensures |a| <= n
  {
    DistinctSize(a);
    BelowSize(n);
    SubsetSize(Values(a), Below(n));
  }
}
