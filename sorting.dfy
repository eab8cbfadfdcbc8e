/**
 * Python's `sorted` as the debug tools use it: text in code-point order (a set of names
 * becomes an increasing list) and a descending sort by a numeric key that keeps equal keys
 * in their input order.
 */
module Sorting {
  /** Python `a < b` on strings: lexicographic by code point, a proper prefix first. */
  predicate LexLess(a: string, b: string) {
    if a == [] then b != []
    else b != [] && (a[0] < b[0] || (a[0] == b[0] && LexLess(a[1..], b[1..])))
  }

  lemma {:induction false} LexLessIrreflexive(a: string)
    ensures !LexLess(a, a)
  {
    if a != [] {
      LexLessIrreflexive(a[1..]);
    }
  }

  lemma {:induction false} LexLessTransitive(a: string, b: string, c: string)
    requires LexLess(a, b) && LexLess(b, c)
    ensures LexLess(a, c)
  {
    if a != [] && a[0] == b[0] && b[0] == c[0] {
      LexLessTransitive(a[1..], b[1..], c[1..]);
    }
  }

  lemma {:induction false} LexLessTotal(a: string, b: string)
    ensures a == b || LexLess(a, b) || LexLess(b, a)
  {
    if a != [] && b != [] && a[0] == b[0] {
      LexLessTotal(a[1..], b[1..]);
      if a[1..] == b[1..] {
        assert a == [a[0]] + a[1..] && b == [b[0]] + b[1..];
      }
    }
  }

  lemma LexLessAsymmetric()
    ensures forall a: string, b: string :: LexLess(a, b) ==> !LexLess(b, a)
  {
    forall a: string, b: string | LexLess(a, b) ensures !LexLess(b, a) {
      if LexLess(b, a) {
        LexLessTransitive(a, b, a);
        LexLessIrreflexive(a);
      }
    }
  }

  predicate StrictlySorted(s: seq<string>) {
    forall i, j :: 0 <= i < j < |s| ==> LexLess(s[i], s[j])
  }

  /** A non-empty finite set of strings has a least element. */
  lemma {:induction false} LeastExists(s: set<string>)
    requires s != {}
    ensures exists m :: m in s && forall y :: y in s && y != m ==> LexLess(m, y)
    decreases |s|
  {
    var x :| x in s;
    if s != {x} {
      var rest := s - {x};
      LeastExists(rest);
      var m :| m in rest && forall y :: y in rest && y != m ==> LexLess(m, y);
      LexLessTotal(x, m);
      if LexLess(x, m) {
        forall y | y in s && y != x ensures LexLess(x, y) {
          if y != m {
            LexLessTransitive(x, m, y);
          }
        }
      } else {
        assert forall y :: y in s && y != m ==> LexLess(m, y);
      }
    }
  }

  /** The least element of a non-empty set of strings. */
  function Least(s: set<string>): (m: string)
    requires s != {}
    ensures m in s && forall y :: y in s && y != m ==> LexLess(m, y)
  {
    LeastExists(s);
    LexLessAsymmetric();
    var m :| m in s && forall y :: y in s && y != m ==> LexLess(m, y);
    m
  }

  /** `sorted(names)` for a set of names: increasing, without repeats, holding exactly the set. */
  function SortedStrings(s: set<string>): (r: seq<string>)
    ensures StrictlySorted(r)
    ensures forall x :: x in r <==> x in s
    ensures |r| == |s|
    decreases |s|
  {
    if s == {} then []
    else
      var m := Least(s);
      var rest := SortedStrings(s - {m});
      assert forall j :: 0 <= j < |rest| ==> rest[j] in s - {m};
      [m] + rest
  }

  predicate Descending<T>(s: seq<T>, key: T -> real) {
    forall i, j :: 0 <= i < j < |s| ==> key(s[i]) >= key(s[j])
  }

  /** Places `x` after every element whose key is at least its own. */
  function InsertDesc<T>(x: T, s: seq<T>, key: T -> real): (r: seq<T>)
    ensures |r| == |s| + 1
    ensures multiset(r) == multiset(s) + multiset{x}
  {
    if s == [] then [x]
    else if key(s[0]) >= key(x) then
      assert s == [s[0]] + s[1..];
      [s[0]] + InsertDesc(x, s[1..], key)
    else
      [x] + s
  }

  /** Every key is at most `bound`. */
  predicate KeysAtMost<T>(s: seq<T>, key: T -> real, bound: real) {
    forall i :: 0 <= i < |s| ==> key(s[i]) <= bound
  }

  lemma {:induction false} InsertDescBound<T>(x: T, s: seq<T>, key: T -> real, bound: real)
    requires KeysAtMost(s, key, bound) && key(x) <= bound
    ensures KeysAtMost(InsertDesc(x, s, key), key, bound)
  {
    if s != [] && key(s[0]) >= key(x) {
      InsertDescBound(x, s[1..], key, bound);
    }
  }

  /** Inserting into a descending list keeps it descending. */
  lemma {:induction false} InsertDescSorted<T>(x: T, s: seq<T>, key: T -> real)
    requires Descending(s, key)
    ensures Descending(InsertDesc(x, s, key), key)
  {
    if s != [] && key(s[0]) >= key(x) {
      var tail := InsertDesc(x, s[1..], key);
      InsertDescSorted(x, s[1..], key);
      InsertDescBound(x, s[1..], key, key(s[0]));
      var r := [s[0]] + tail;
      assert r == InsertDesc(x, s, key);
      forall i, j | 0 <= i < j < |r| ensures key(r[i]) >= key(r[j]) {
        assert r[j] == tail[j - 1];
        if i > 0 {
          assert r[i] == tail[i - 1];
        }
      }
    }
  }

  /**
   * `sorted(xs, key=key, reverse=True)`: each element is inserted after the earlier ones with an
   * equal or larger key, so ties keep their input order. The result is a descending permutation.
   */
  function SortDesc<T>(xs: seq<T>, key: T -> real): (r: seq<T>)
    ensures |r| == |xs|
    ensures multiset(r) == multiset(xs)
    ensures Descending(r, key)
  {
    if xs == [] then []
    else
      assert xs == xs[..|xs| - 1] + [xs[|xs| - 1]];
      var init := SortDesc(xs[..|xs| - 1], key);
      InsertDescSorted(xs[|xs| - 1], init, key);
      InsertDesc(xs[|xs| - 1], init, key)
  }

  /** The entries of `s` whose key is `k`, in their order in `s`. */
  function WithKey<T>(s: seq<T>, key: T -> real, k: real): seq<T> {
    if s == [] then []
    else (if key(s[0]) == k then [s[0]] else []) + WithKey(s[1..], key, k)
  }

  lemma {:induction false} WithKeyConcat<T>(a: seq<T>, b: seq<T>, key: T -> real, k: real)
    ensures WithKey(a + b, key, k) == WithKey(a, key, k) + WithKey(b, key, k)
  {
    if a == [] {
      assert a + b == b;
    } else {
      var rest := a[1..];
      assert a + b == [a[0]] + (rest + b);
      assert a == [a[0]] + rest;
      WithKeyCons(a[0], rest + b, key, k);
      WithKeyCons(a[0], rest, key, k);
      WithKeyConcat(rest, b, key, k);
      var head := if key(a[0]) == k then [a[0]] else [];
      assert head + (WithKey(rest, key, k) + WithKey(b, key, k)) == (head + WithKey(rest, key, k)) + WithKey(b, key, k);
    }
  }

  /** A list with every key below `k` has no entry with key `k`. */
  lemma {:induction false} WithKeyBelow<T>(s: seq<T>, key: T -> real, k: real)
    requires forall i :: 0 <= i < |s| ==> key(s[i]) < k
    ensures WithKey(s, key, k) == []
  {
    if s != [] {
      WithKeyBelow(s[1..], key, k);
    }
  }

  /** One entry followed by a list: that entry's part, then the list's. */
  lemma WithKeyCons<T>(x: T, s: seq<T>, key: T -> real, k: real)
    ensures WithKey([x] + s, key, k) == (if key(x) == k then [x] else []) + WithKey(s, key, k)
  {
    var xs := [x] + s;
    assert xs[0] == x && xs[1..] == s;
  }

  /** Inserting into a descending list puts `x` after every entry with the same key. */
  lemma {:induction false} InsertDescWithKey<T>(x: T, s: seq<T>, key: T -> real, k: real)
    requires Descending(s, key)
    ensures WithKey(InsertDesc(x, s, key), key, k) == WithKey(s, key, k) + (if key(x) == k then [x] else [])
  {
    var own := if key(x) == k then [x] else [];
    if s == [] {
      assert InsertDesc(x, s, key) == [x];
      WithKeyCons(x, [], key, k);
    } else if key(s[0]) >= key(x) {
      var rest := s[1..];
      assert Descending(rest, key) by {
        forall i, j | 0 <= i < j < |rest| ensures key(rest[i]) >= key(rest[j]) {
          assert rest[i] == s[i + 1] && rest[j] == s[j + 1];
        }
      }
      var tail := InsertDesc(x, rest, key);
      assert InsertDesc(x, s, key) == [s[0]] + tail;
      InsertDescWithKey(x, rest, key, k);
      WithKeyCons(s[0], tail, key, k);
      WithKeyCons(s[0], rest, key, k);
      assert s == [s[0]] + rest;
      var head := if key(s[0]) == k then [s[0]] else [];
      assert head + (WithKey(rest, key, k) + own) == (head + WithKey(rest, key, k)) + own;
    } else {
      assert InsertDesc(x, s, key) == [x] + s;
      WithKeyCons(x, s, key, k);
      if key(x) == k {
        assert forall i :: 0 <= i < |s| ==> key(s[i]) <= key(s[0]);
        WithKeyBelow(s, key, k);
      }
    }
  }

  /**
   * The sort is stable: for every key value, the entries with that key come out in their input
   * order.
   */
  lemma {:induction false} SortDescStable<T>(xs: seq<T>, key: T -> real, k: real)
    ensures WithKey(SortDesc(xs, key), key, k) == WithKey(xs, key, k)
  {
    if xs != [] {
      SortDescStable(xs[..|xs| - 1], key, k);
      SortDescStableStep(xs, key, k);
    }
  }

  /** One step of the stability proof: sorting one more entry appends it to its key's entries. */
  lemma SortDescStableStep<T>(xs: seq<T>, key: T -> real, k: real)
    requires xs != []
    requires WithKey(SortDesc(xs[..|xs| - 1], key), key, k) == WithKey(xs[..|xs| - 1], key, k)
    ensures WithKey(SortDesc(xs, key), key, k) == WithKey(xs, key, k)
  {
    var init, last := xs[..|xs| - 1], xs[|xs| - 1];
    var sortedInit := SortDesc(init, key);
    assert SortDesc(xs, key) == InsertDesc(last, sortedInit, key);
    InsertDescWithKey(last, sortedInit, key, k);
    assert xs == init + [last];
    WithKeyConcat(init, [last], key, k);
    WithKeyOne(last, key, k);
  }

  lemma WithKeyOne<T>(x: T, key: T -> real, k: real)
    ensures WithKey([x], key, k) == if key(x) == k then [x] else []
  {
    assert [x][1..] == [];
  }

  /** `xs[:limit]` for a non-negative limit. */
  function Take<T>(xs: seq<T>, limit: nat): (r: seq<T>)
    ensures |r| == if limit < |xs| then limit else |xs|
    ensures forall i :: 0 <= i < |r| ==> r[i] == xs[i]
  {
    if limit < |xs| then xs[..limit] else xs
  }

  /**
   * The first `limit` entries of the descending sort: a prefix of it, largest key first, each an
   * entry of the input, and none smaller than an entry left out.
   */
  lemma TopShape<T>(xs: seq<T>, key: T -> real, limit: nat)
    ensures var sorted := SortDesc(xs, key); var top := Take(sorted, limit);
      top == sorted[..|top|] &&
      (forall i, j :: 0 <= i < j < |top| ==> key(top[i]) >= key(top[j])) &&
      (forall i :: 0 <= i < |top| ==> top[i] in xs) &&
      (forall i, j :: 0 <= i < |top| <= j < |sorted| ==> key(top[i]) >= key(sorted[j]))
  {
    var sorted := SortDesc(xs, key);
    var top := Take(sorted, limit);
    forall i | 0 <= i < |top| ensures top[i] in xs {
      assert top[i] == sorted[i];
      assert sorted[i] in multiset(sorted);
    }
  }
}
