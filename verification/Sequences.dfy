/** Filtering and counting over sequences, shared by the models of the tables and logs. */
module Sequences {

  datatype Option<+T> = None | Some(value: T)

  /** The elements of `xs` that satisfy `p`, in order. */
  function Filter<T>(p: T -> bool, xs: seq<T>): (r: seq<T>)
    ensures |r| <= |xs|
  {
    if |xs| == 0 then []
    else
      var rest := Filter(p, xs[..|xs| - 1]);
      if p(xs[|xs| - 1]) then rest + [xs[|xs| - 1]] else rest
  }

  lemma FilterSnoc<T>(p: T -> bool, xs: seq<T>, x: T)
    ensures Filter(p, xs + [x]) == Filter(p, xs) + (if p(x) then [x] else [])
  {
    assert (xs + [x])[..|xs|] == xs;
  }

  lemma {:induction false} FilterAppend<T>(p: T -> bool, xs: seq<T>, ys: seq<T>)
    ensures Filter(p, xs + ys) == Filter(p, xs) + Filter(p, ys)
  {
    if |ys| == 0 {
      assert xs + ys == xs;
    } else {
      var front, last := ys[..|ys| - 1], ys[|ys| - 1];
      assert xs + ys == (xs + front) + [last];
      FilterSnoc(p, xs + front, last);
      FilterAppend(p, xs, front);
    }
  }

  lemma {:induction false} FilterMember<T>(p: T -> bool, xs: seq<T>, x: T)
    ensures x in Filter(p, xs) <==> x in xs && p(x)
  {
    if |xs| > 0 {
      FilterMember(p, xs[..|xs| - 1], x);
      assert xs == xs[..|xs| - 1] + [xs[|xs| - 1]];
    }
  }

  /** Removing rows that `p` does not select leaves the selection of `p` unchanged. */
  lemma {:induction false} FilterKeeps<T>(p: T -> bool, keep: T -> bool, xs: seq<T>)
    requires forall x :: x in xs && p(x) ==> keep(x)
    ensures Filter(p, Filter(keep, xs)) == Filter(p, xs)
  {
    if |xs| > 0 {
      var front, last := xs[..|xs| - 1], xs[|xs| - 1];
      assert xs == front + [last];
      FilterKeeps(p, keep, front);
      if keep(last) {
        FilterSnoc(p, Filter(keep, front), last);
      }
    }
  }

  /** Deleting rows never makes a selection larger. */
  lemma {:induction false} FilterShrinks<T>(p: T -> bool, keep: T -> bool, xs: seq<T>)
    ensures |Filter(p, Filter(keep, xs))| <= |Filter(p, xs)|
  {
    if |xs| > 0 {
      var front, last := xs[..|xs| - 1], xs[|xs| - 1];
      FilterShrinks(p, keep, front);
      if keep(last) {
        FilterSnoc(p, Filter(keep, front), last);
      }
    }
  }

  /** Equivalent predicates select the same rows. */
  lemma {:induction false} FilterSame<T>(p: T -> bool, q: T -> bool, xs: seq<T>)
    requires forall x :: x in xs ==> p(x) == q(x)
    ensures Filter(p, xs) == Filter(q, xs)
  {
    if |xs| > 0 {
      FilterSame(p, q, xs[..|xs| - 1]);
    }
  }

  /** A selection is empty exactly when nothing matches. */
  lemma FilterEmpty<T>(p: T -> bool, xs: seq<T>)
    ensures Filter(p, xs) == [] <==> (forall x :: x in xs ==> !p(x))
  {
    forall x | x in xs && p(x) ensures Filter(p, xs) != [] {
      FilterMember(p, xs, x);
    }
    if Filter(p, xs) != [] {
      FilterMember(p, xs, Filter(p, xs)[0]);
    }
  }

  /** Deleting a row that `p` selects makes the selection strictly smaller. */
  lemma {:induction false} FilterStrictlyShrinks<T>(p: T -> bool, keep: T -> bool, xs: seq<T>, x: T)
    requires x in xs && p(x) && !keep(x)
    ensures |Filter(p, Filter(keep, xs))| < |Filter(p, xs)|
  {
    var front, last := xs[..|xs| - 1], xs[|xs| - 1];
    assert xs == front + [last];
    if keep(last) {
      FilterSnoc(p, Filter(keep, front), last);
    }
    if x in front {
      FilterStrictlyShrinks(p, keep, front, x);
    } else {
      FilterShrinks(p, keep, front);
    }
  }

  /** A weaker predicate selects at least as many rows, and strictly more if it also selects some `x`. */
  lemma {:induction false} FilterWeaker<T>(p: T -> bool, q: T -> bool, xs: seq<T>)
    requires forall x :: x in xs && p(x) ==> q(x)
    ensures |Filter(p, xs)| <= |Filter(q, xs)|
    ensures (exists x :: x in xs && q(x) && !p(x)) ==> |Filter(p, xs)| < |Filter(q, xs)|
  {
    if |xs| > 0 {
      var front, last := xs[..|xs| - 1], xs[|xs| - 1];
      assert xs == front + [last];
      FilterWeaker(p, q, front);
      if x :| x in xs && q(x) && !p(x) {
        assert x in front || x == last;
      }
    }
  }
}
