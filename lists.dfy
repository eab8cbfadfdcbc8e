/**
 * Generic list helpers: the union of per-element sets, the concatenation of per-element lists, and
 * keeping the first occurrence of each value.
 */
module Lists {
  /** The union of `f` over the elements of a list. */
  function UnionMap<T, U>(xs: seq<T>, f: T -> set<U>): set<U> {
    if xs == [] then {} else UnionMap(xs[..|xs| - 1], f) + f(xs[|xs| - 1])
  }

  /** An element is in the union exactly when some list entry contributes it. */
  lemma {:induction false} UnionMapMembers<T, U>(xs: seq<T>, f: T -> set<U>)
    ensures forall n :: n in UnionMap(xs, f) ==> exists i :: 0 <= i < |xs| && n in f(xs[i])
    ensures forall n, i :: 0 <= i < |xs| && n in f(xs[i]) ==> n in UnionMap(xs, f)
  {
    if xs != [] {
      var init := xs[..|xs| - 1];
      UnionMapMembers(init, f);
      assert UnionMap(xs, f) == UnionMap(init, f) + f(xs[|xs| - 1]);
      forall n | n in UnionMap(xs, f) ensures exists i :: 0 <= i < |xs| && n in f(xs[i]) {
        if n !in f(xs[|xs| - 1]) {
          assert n in UnionMap(init, f);
          var i :| 0 <= i < |init| && n in f(init[i]);
          assert xs[i] == init[i];
        }
      }
      forall n | exists i :: 0 <= i < |xs| && n in f(xs[i]) ensures n in UnionMap(xs, f) {
        var i :| 0 <= i < |xs| && n in f(xs[i]);
        if i < |init| {
          assert init[i] == xs[i];
        }
      }
    }
  }

  /** The position of the first occurrence of `x` in `xs`. */
  function FirstIndex<T(==)>(xs: seq<T>, x: T): (r: nat)
    requires x in xs
    ensures r < |xs| && xs[r] == x
    ensures forall q :: 0 <= q < r ==> xs[q] != x
  {
    if xs[0] == x then 0 else FirstIndex(xs[1..], x) + 1
  }

  /** A value occurring before the last element has the same first position without it. */
  lemma FirstIndexInit<T>(xs: seq<T>, x: T)
    requires xs != [] && x in xs[..|xs| - 1]
    ensures x in xs && FirstIndex(xs, x) == FirstIndex(xs[..|xs| - 1], x)
  {
    var init := xs[..|xs| - 1];
    assert forall q :: 0 <= q < |init| ==> init[q] == xs[q];
    var p := FirstIndex(init, x);
    assert xs[p] == x;
  }

  /** A last element that occurs nowhere before has its first occurrence there. */
  lemma FirstIndexLast<T>(xs: seq<T>)
    requires xs != [] && xs[|xs| - 1] !in xs[..|xs| - 1]
    ensures FirstIndex(xs, xs[|xs| - 1]) == |xs| - 1
  {
    var init := xs[..|xs| - 1];
    assert forall q :: 0 <= q < |init| ==> init[q] == xs[q];
  }

  /** The values of `xs` other than `blank`, each kept once, at its first occurrence. */
  function Dedup<T(==)>(xs: seq<T>, blank: T): (r: seq<T>)
    ensures forall i, j :: 0 <= i < j < |r| ==> r[i] != r[j]
    ensures forall x :: x in r ==> x != blank && x in xs
    ensures forall i :: 0 <= i < |xs| && xs[i] != blank ==> xs[i] in r
  {
    if xs == [] then []
    else
      var init, last := xs[..|xs| - 1], xs[|xs| - 1];
      assert forall i :: 0 <= i < |init| ==> init[i] == xs[i];
      var prev := Dedup(init, blank);
      if last != blank && last !in prev then prev + [last] else prev
  }

  /** Every value of `r` occurs in `xs`, and they are in the order of their first occurrences. */
  predicate FirstOccurrenceOrdered<T(==)>(r: seq<T>, xs: seq<T>) {
    forall i, j :: 0 <= i < j < |r| ==> r[i] in xs && r[j] in xs && FirstIndex(xs, r[i]) < FirstIndex(xs, r[j])
  }

  /** The kept values follow the order in which they first occur in `xs`. */
  lemma DedupFirstOccurrenceOrder<T>(xs: seq<T>, blank: T)
    ensures FirstOccurrenceOrdered(Dedup(xs, blank), xs)
  {
    var r := Dedup(xs, blank);
    forall i, j | 0 <= i < j < |r|
      ensures r[i] in xs && r[j] in xs && FirstIndex(xs, r[i]) < FirstIndex(xs, r[j])
    {
      DedupOrderAt(xs, blank, i, j);
    }
  }

  /** Kept value `i` first occurs before kept value `j` when `i < j`. */
  lemma {:induction false} DedupOrderAt<T>(xs: seq<T>, blank: T, i: nat, j: nat)
    requires i < j < |Dedup(xs, blank)|
    ensures var r := Dedup(xs, blank);
      r[i] in xs && r[j] in xs && FirstIndex(xs, r[i]) < FirstIndex(xs, r[j])
  {
    var init, last := xs[..|xs| - 1], xs[|xs| - 1];
    var prev := Dedup(init, blank);
    var r := Dedup(xs, blank);
    var appended := last != blank && last !in prev;
    assert r == if appended then prev + [last] else prev;
    assert r[i] == prev[i] && prev[i] in prev;
    FirstIndexInit(xs, prev[i]);
    if j < |prev| {
      assert r[j] == prev[j] && prev[j] in prev;
      FirstIndexInit(xs, prev[j]);
      DedupOrderAt(init, blank, i, j);
    } else {
      assert appended && r[j] == last;
      assert last !in init;
      FirstIndexLast(xs);
    }
  }

  /** One more element adds its own part. */
  lemma UnionMapStep<T, U>(xs: seq<T>, f: T -> set<U>, i: int)
    requires 0 <= i < |xs|
    ensures UnionMap(xs[..i + 1], f) == UnionMap(xs[..i], f) + f(xs[i])
  {
    assert xs[..i + 1][..i] == xs[..i];
  }

  /** The concatenation of `f` over the elements of a list, in list order. */
  function ConcatMap<T, U>(xs: seq<T>, f: T -> seq<U>): seq<U> {
    if xs == [] then [] else ConcatMap(xs[..|xs| - 1], f) + f(xs[|xs| - 1])
  }

  /** One more element appends its own part. */
  lemma ConcatMapStep<T, U>(xs: seq<T>, f: T -> seq<U>, i: int)
    requires 0 <= i < |xs|
    ensures ConcatMap(xs[..i + 1], f) == ConcatMap(xs[..i], f) + f(xs[i])
  {
    assert xs[..i + 1][..i] == xs[..i];
  }

  /** The concatenation is empty exactly when every part is. */
  lemma {:induction false} ConcatMapEmpty<T, U>(xs: seq<T>, f: T -> seq<U>)
    ensures ConcatMap(xs, f) == [] ==> forall i :: 0 <= i < |xs| ==> f(xs[i]) == []
    ensures (forall i :: 0 <= i < |xs| ==> f(xs[i]) == []) ==> ConcatMap(xs, f) == []
  {
    if xs != [] {
      var init := xs[..|xs| - 1];
      ConcatMapEmpty(init, f);
      assert forall i :: 0 <= i < |init| ==> init[i] == xs[i];
    }
  }

  /** Every element of the concatenation comes from the part of some list entry. */
  lemma {:induction false} ConcatMapMembers<T, U>(xs: seq<T>, f: T -> seq<U>)
    ensures forall y :: y in ConcatMap(xs, f) ==> exists i :: 0 <= i < |xs| && y in f(xs[i])
  {
    if xs != [] {
      var init := xs[..|xs| - 1];
      ConcatMapMembers(init, f);
      forall y | y in ConcatMap(xs, f) ensures exists i :: 0 <= i < |xs| && y in f(xs[i]) {
        if y !in f(xs[|xs| - 1]) {
          assert y in ConcatMap(init, f);
          var i :| 0 <= i < |init| && y in f(init[i]);
          assert xs[i] == init[i];
        }
      }
    }
  }

  /** When every part has at most one element, the concatenation is no longer than the list. */
  lemma {:induction false} ConcatMapAtMostOne<T, U>(xs: seq<T>, f: T -> seq<U>)
    requires forall i :: 0 <= i < |xs| ==> |f(xs[i])| <= 1
    ensures |ConcatMap(xs, f)| <= |xs|
  {
    if xs != [] {
      var init := xs[..|xs| - 1];
      assert forall i :: 0 <= i < |init| ==> init[i] == xs[i];
      ConcatMapAtMostOne(init, f);
    }
  }
}
