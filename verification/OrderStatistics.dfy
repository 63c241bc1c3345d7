/** Counting elements up to a bound, and the sorted sequence the counts describe. */
module OrderStatistics {

  function CountLE(xs: seq<int>, v: int): (c: nat)
    ensures c <= |xs|
  {
    if |xs| == 0 then 0
    else CountLE(xs[..|xs| - 1], v) + (if xs[|xs| - 1] <= v then 1 else 0)
  }

  ghost predicate IsSorted(xs: seq<int>) {
    forall j, k :: 0 <= j < k < |xs| ==> xs[j] <= xs[k]
  }

  ghost predicate IsSortingOf(t: seq<int>, xs: seq<int>) {
    IsSorted(t) && multiset(t) == multiset(xs)
  }

  function Insert(x: int, s: seq<int>): seq<int> {
    if |s| == 0 || s[|s| - 1] <= x then s + [x] else Insert(x, s[..|s| - 1]) + [s[|s| - 1]]
  }

  /** The elements of `xs` in ascending order. */
  function Sorted(xs: seq<int>): seq<int> {
    if |xs| == 0 then [] else Insert(xs[|xs| - 1], Sorted(xs[..|xs| - 1]))
  }

  lemma {:induction false} InsertPermutes(x: int, s: seq<int>)
    ensures multiset(Insert(x, s)) == multiset(s) + multiset{x}
  {
    if |s| > 0 && s[|s| - 1] > x {
      InsertPermutes(x, s[..|s| - 1]);
      assert s == s[..|s| - 1] + [s[|s| - 1]];
    }
  }

  lemma InsertedElements(x: int, s: seq<int>)
    ensures forall y :: y in Insert(x, s) ==> y == x || y in s
  {
    InsertPermutes(x, s);
    forall y | y in Insert(x, s) ensures y == x || y in s {
      assert y in multiset(Insert(x, s));
    }
  }

  lemma {:induction false} InsertSorts(x: int, s: seq<int>)
    requires IsSorted(s)
    ensures IsSorted(Insert(x, s))
  {
    if |s| > 0 && s[|s| - 1] > x {
      var front, last := s[..|s| - 1], s[|s| - 1];
      InsertSorts(x, front);
      InsertedElements(x, front);
      var t := Insert(x, front);
      forall j | 0 <= j < |t| ensures t[j] <= last {
        assert t[j] in t;
      }
    }
  }

  lemma {:induction false} SortedSorts(xs: seq<int>)
    ensures IsSortingOf(Sorted(xs), xs) && |Sorted(xs)| == |xs|
  {
    if |xs| > 0 {
      SortedSorts(xs[..|xs| - 1]);
      assert xs == xs[..|xs| - 1] + [xs[|xs| - 1]];
      InsertSorts(xs[|xs| - 1], Sorted(xs[..|xs| - 1]));
      InsertPermutes(xs[|xs| - 1], Sorted(xs[..|xs| - 1]));
    }
    assert |multiset(Sorted(xs))| == |multiset(xs)|;
  }

  lemma {:induction false} CountAppend(xs: seq<int>, ys: seq<int>, v: int)
    ensures CountLE(xs + ys, v) == CountLE(xs, v) + CountLE(ys, v)
  {
    if |ys| == 0 {
      assert xs + ys == xs;
    } else {
      assert (xs + ys)[..|xs + ys| - 1] == xs + ys[..|ys| - 1];
      CountAppend(xs, ys[..|ys| - 1], v);
    }
  }

  /** Counts depend on the multiset of elements only. */
  lemma {:induction false} CountPermutation(xs: seq<int>, ys: seq<int>, v: int)
    requires multiset(xs) == multiset(ys)
    ensures CountLE(xs, v) == CountLE(ys, v)
  {
    if |xs| == 0 {
      assert |multiset(ys)| == 0;
    } else {
      var front, x := xs[..|xs| - 1], xs[|xs| - 1];
      assert xs == front + [x];
      assert x in multiset(ys);
      var i :| 0 <= i < |ys| && ys[i] == x;
      assert ys == ys[..i] + [x] + ys[i + 1..];
      assert multiset(ys) == multiset(ys[..i] + ys[i + 1..]) + multiset{x};
      assert multiset(xs) == multiset(front) + multiset{x};
      assert multiset(front) == multiset(xs) - multiset{x};
      CountPermutation(front, ys[..i] + ys[i + 1..], v);
      CountAppend(ys[..i], ys[i + 1..], v);
      CountAppend(ys[..i] + [x], ys[i + 1..], v);
      CountAppend(ys[..i], [x], v);
    }
  }

  lemma {:induction false} CountOnSorted(t: seq<int>, k: nat, v: int)
    requires IsSorted(t) && k < |t|
    ensures t[k] <= v <==> k < CountLE(t, v)
  {
    var front, last := t[..|t| - 1], t[|t| - 1];
    if k < |front| {
      CountOnSorted(front, k, v);
      if last <= v {
        assert t[k] <= v;
      }
    } else if last <= v {
      if |front| > 0 {
        CountOnSorted(front, |front| - 1, v);
      }
    }
  }

  /** The k-th smallest element is at most `v` exactly when more than k elements are. */
  lemma OrderStatistic(t: seq<int>, xs: seq<int>, k: nat, v: int)
    requires IsSortingOf(t, xs) && k < |t|
    ensures t[k] <= v <==> k < CountLE(xs, v)
  {
    CountPermutation(t, xs, v);
    CountOnSorted(t, k, v);
  }

  /** There is only one sorting. */
  lemma SortingUnique(t: seq<int>, xs: seq<int>)
    requires IsSortingOf(t, xs)
    ensures t == Sorted(xs)
  {
    SortedSorts(xs);
    assert |multiset(t)| == |multiset(xs)|;
    forall k | 0 <= k < |t| ensures t[k] == Sorted(xs)[k] {
      OrderStatistic(t, xs, k, t[k]);
      OrderStatistic(Sorted(xs), xs, k, t[k]);
      OrderStatistic(t, xs, k, Sorted(xs)[k]);
      OrderStatistic(Sorted(xs), xs, k, Sorted(xs)[k]);
    }
  }

  lemma {:induction false} CountPointwise(xs: seq<int>, ys: seq<int>, v: int)
    requires |xs| == |ys| && forall k :: 0 <= k < |xs| ==> xs[k] <= ys[k]
    ensures CountLE(ys, v) <= CountLE(xs, v)
  {
    if |xs| > 0 {
      CountPointwise(xs[..|xs| - 1], ys[..|ys| - 1], v);
    }
  }

  /** Pointwise order carries over to the sorted sequences. */
  lemma SortedPointwise(xs: seq<int>, ys: seq<int>)
    requires |xs| == |ys| && forall k :: 0 <= k < |xs| ==> xs[k] <= ys[k]
    ensures |Sorted(xs)| == |Sorted(ys)| == |xs|
    ensures forall k :: 0 <= k < |xs| ==> Sorted(xs)[k] <= Sorted(ys)[k]
  {
    SortedSorts(xs);
    SortedSorts(ys);
    forall k | 0 <= k < |xs| ensures Sorted(xs)[k] <= Sorted(ys)[k] {
      var v := Sorted(ys)[k];
      OrderStatistic(Sorted(ys), ys, k, v);
      CountPointwise(xs, ys, v);
      OrderStatistic(Sorted(xs), xs, k, v);
    }
  }

  lemma SortedElements(xs: seq<int>, k: nat)
    requires k < |xs|
    ensures |Sorted(xs)| == |xs| && Sorted(xs)[k] in xs
  {
    SortedSorts(xs);
    assert Sorted(xs)[k] in multiset(Sorted(xs));
  }
}
