/**
 * Index-based edits of one day's ordered ticket list: the single splice the
 * delete button performs and the batch of splices the bulk delete performs,
 * in descending index order, proved equal to dropping the selected positions.
 */
module Day {
  import opened Tickets

  /**
   * Splicing one element out at `i`: the element at `i` goes and the later ones move down by
   * one; an index past the end removes nothing.
   */
  function RemoveAt<T>(s: seq<T>, i: nat): (r: seq<T>)
    ensures i < |s| ==> |r| == |s| - 1
    ensures i < |s| ==> forall j :: 0 <= j < |r| ==> r[j] == (if j < i then s[j] else s[j + 1])
    ensures i >= |s| ==> r == s
  {
    if i < |s| then s[..i] + s[i + 1..] else s
  }

  /** The selected positions that exist in a list of length `n`. */
  function InRange(X: set<nat>, n: nat): set<nat> {
    set x | x in X && x < n
  }

  /** `s` without the elements at positions in `X`, the others in their original order. */
  function Without<T>(s: seq<T>, X: set<nat>): (r: seq<T>)
    ensures |r| <= |s|
    decreases |s|
  {
    if |s| == 0 then []
    else Without(s[..|s| - 1], X) + (if |s| - 1 in X then [] else [s[|s| - 1]])
  }

  /** Removing positions only ever drops elements: every survivor, counted with multiplicity, was there. */
  lemma {:induction false} WithoutDropsOnly<T>(s: seq<T>, X: set<nat>)
    ensures multiset(Without(s, X)) <= multiset(s)
    decreases |s|
  {
    if |s| > 0 {
      var n := |s| - 1;
      var w := Without(s[..n], X);
      WithoutDropsOnly(s[..n], X);
      assert s == s[..n] + [s[n]];
      assert multiset(s) == multiset(s[..n]) + multiset{s[n]};
      if n in X {
        assert Without(s, X) == w + [];
        assert w + [] == w;
      } else {
        assert Without(s, X) == w + [s[n]];
        assert multiset(w + [s[n]]) == multiset(w) + multiset{s[n]};
      }
    }
  }

  /** The list shrinks by exactly the number of distinct selected positions it has. */
  lemma {:induction false} WithoutLength<T>(s: seq<T>, X: set<nat>)
    ensures |Without(s, X)| == |s| - |InRange(X, |s|)|
    decreases |s|
  {
    var n := |s|;
    if n == 0 {
      assert InRange(X, 0) == {};
    } else {
      WithoutLength(s[..n - 1], X);
      if n - 1 in X {
        assert InRange(X, n) == InRange(X, n - 1) + {n - 1};
      } else {
        assert InRange(X, n) == InRange(X, n - 1);
      }
    }
  }

  /** Selecting nothing below the end removes nothing. */
  lemma {:induction false} WithoutNone<T>(s: seq<T>, X: set<nat>)
    requires forall x :: x in X ==> x >= |s|
    ensures Without(s, X) == s
    decreases |s|
  {
    if |s| > 0 {
      WithoutNone(s[..|s| - 1], X);
    }
  }

  /** A position past the end adds nothing to the selection. */
  lemma {:induction false} WithoutBeyond<T>(s: seq<T>, X: set<nat>, m: nat)
    requires m >= |s|
    ensures Without(s, X + {m}) == Without(s, X)
    decreases |s|
  {
    if |s| > 0 {
      WithoutBeyond(s[..|s| - 1], X, m);
    }
  }

  /**
   * The step of a descending batch: when every position removed so far lies
   * above `m`, position `m` of the original is still position `m` of the
   * current list, so splicing it there removes exactly the original `s[m]`.
   */
  lemma {:induction false} WithoutStep<T>(s: seq<T>, R: set<nat>, m: nat)
    requires m < |s|
    requires forall x :: x in R ==> x > m
    ensures m < |Without(s, R)|
    ensures RemoveAt(Without(s, R), m) == Without(s, R + {m})
    decreases |s|
  {
    var n := |s|;
    var p := s[..n - 1];
    if n == m + 1 {
      WithoutNone(p, R);
      WithoutNone(p, R + {m});
      assert Without(s, R) == p + [s[m]];
      assert (p + [s[m]])[..m] == p;
    } else {
      WithoutStep(p, R, m);
      var w := Without(p, R);
      var tail := if n - 1 in R then [] else [s[n - 1]];
      assert Without(s, R) == w + tail;
      assert Without(s, R + {m}) == Without(p, R + {m}) + tail;
      RemoveAtAppend(w, tail, m);
    }
  }

  /** Splicing inside the front part of a concatenation leaves the back part alone. */
  lemma RemoveAtAppend<T>(w: seq<T>, tail: seq<T>, m: nat)
    requires m < |w|
    ensures RemoveAt(w + tail, m) == RemoveAt(w, m) + tail
  {
    assert (w + tail)[..m] == w[..m];
    assert (w + tail)[m + 1..] == w[m + 1..] + tail;
  }

  predicate StrictlyDescending(order: seq<nat>) {
    forall i, j :: 0 <= i < j < |order| ==> order[i] > order[j]
  }

  /** The largest member of a non-empty selection. */
  method Largest(X: set<nat>) returns (m: nat)
    requires X != {}
    ensures m in X
    ensures forall x :: x in X ==> x <= m
  {
    m :| m in X;
    var rest := X - {m};
    while rest != {}
      invariant m in X && rest <= X
      invariant forall x :: x in X && x !in rest ==> x <= m
      decreases rest
    {
      var y :| y in rest;
      if y > m {
        m := y;
      }
      rest := rest - {y};
    }
  }

  /** The selection as an array sorted by descending numeric value: largest first, each once. */
  method SortDescending(X: set<nat>) returns (order: seq<nat>)
    ensures Elems<nat>(order) == X
    ensures StrictlyDescending(order)
  {
    order := [];
    var rest := X;
    while rest != {}
      invariant rest <= X
      invariant Elems<nat>(order) + rest == X
      invariant StrictlyDescending(order)
      invariant forall x, i :: x in rest && 0 <= i < |order| ==> x < order[i]
      decreases rest
    {
      var m := Largest(rest);
      order := order + [m];
      rest := rest - {m};
    }
  }

  /**
   * Splices every index of a strictly descending order out of `s`, one at a
   * time, each against the list the previous splices left.
   */
  method SpliceEach<T>(s: seq<T>, order: seq<nat>) returns (r: seq<T>)
    requires StrictlyDescending(order)
    ensures r == Without(s, Elems<nat>(order))
  {
    r := s;
    WithoutNone(s, {});
    assert Elems<nat>(order[..0]) == {};
    for k := 0 to |order|
      invariant r == Without(s, Elems<nat>(order[..k]))
    {
      var m := order[k];
      assert Elems<nat>(order[..k + 1]) == Elems<nat>(order[..k]) + {m} by {
        assert order[..k + 1] == order[..k] + [m];
      }
      if m < |s| {
        WithoutStep(s, Elems<nat>(order[..k]), m);
      } else {
        WithoutBeyond(s, Elems<nat>(order[..k]), m);
        assert |r| <= |s|;
      }
      r := RemoveAt(r, m);
    }
    assert order[..|order|] == order;
  }

  /**
   * The bulk delete: sort the selection in descending order, then splice each
   * index. The result is `s` with exactly the selected positions gone, the
   * survivors in their original order, shorter by the number of distinct
   * selected positions that existed.
   */
  method DeleteSelected<T>(s: seq<T>, selected: set<nat>) returns (r: seq<T>)
    ensures r == Without(s, selected)
    ensures |r| == |s| - |InRange(selected, |s|)|
  {
    var order := SortDescending(selected);
    r := SpliceEach(s, order);
    WithoutLength(s, selected);
  }

  /** A single splice is the bulk delete of a one-element selection. */
  lemma RemoveAtIsWithout<T>(s: seq<T>, i: nat)
    ensures RemoveAt(s, i) == Without(s, {i})
  {
    var none: set<nat> := {};
    assert none + {i} == {i};
    WithoutNone(s, none);
    if i < |s| {
      WithoutStep(s, none, i);
    } else {
      WithoutBeyond(s, none, i);
    }
  }

  /** Deleting positions 0 and 2 of [A, B, C] leaves [B]. */
  lemma DeleteFirstAndLast<T>(a: T, b: T, c: T)
    ensures Without([a, b, c], {0, 2}) == [b]
  {
    var X := {0, 2};
    assert [a, b, c][..2] == [a, b];
    assert [a, b][..1] == [a];
    assert [a][..0] == [];
    assert Without([a], X) == Without([], X) + [];
    assert Without([a, b], X) == Without([a], X) + [b];
    assert Without([a, b, c], X) == Without([a, b], X) + [];
  }
}
