/**
 * `Array.prototype.sort` with a comparator `(a, b) => key(a) - key(b)`, as used
 * on the transaction log (calculations.js:17) and on a supplier's statement
 * rows (calculations.js:194). The built-in sort is stable, so rows with equal
 * dates keep their original order; here that sort is a stable insertion sort.
 */
module Sorting {

  ghost predicate SortedBy<T>(xs: seq<T>, key: T -> int)
  {
    forall i, j | 0 <= i < j < |xs| :: key(xs[i]) <= key(xs[j])
  }

  /** Every element of `xs` has a key at least `k`. */
  ghost predicate AllAtLeast<T>(xs: seq<T>, key: T -> int, k: int)
  {
    forall i | 0 <= i < |xs| :: k <= key(xs[i])
  }

  /** Inserts `x` before the first element with a key not smaller than its own. */
  function Insert<T>(x: T, s: seq<T>, key: T -> int): (r: seq<T>)
    ensures multiset(r) == multiset(s) + multiset{x}
    ensures |r| == |s| + 1
  {
    if s == [] || key(x) <= key(s[0]) then [x] + s
    else
      assert s == [s[0]] + s[1..];
      [s[0]] + Insert(x, s[1..], key)
  }

  function SortBy<T>(xs: seq<T>, key: T -> int): (r: seq<T>)
    ensures multiset(r) == multiset(xs)
    ensures |r| == |xs|
  {
    if xs == [] then []
    else
      assert xs == [xs[0]] + xs[1..];
      Insert(xs[0], SortBy(xs[1..], key), key)
  }

  function Filter<T>(xs: seq<T>, p: T -> bool): (r: seq<T>)
    ensures |r| <= |xs|
    ensures forall i | 0 <= i < |r| :: p(r[i])
    ensures multiset(r) <= multiset(xs)
  {
    if xs == [] then []
    else
      assert xs == [xs[0]] + xs[1..];
      (if p(xs[0]) then [xs[0]] else []) + Filter(xs[1..], p)
  }

  lemma {:induction false} InMultiset<T>(x: T, a: seq<T>, b: seq<T>)
    requires multiset(a) <= multiset(b)
    requires x in a
    ensures x in b
  {
    assert x in multiset(a);
  }

  /** In a sorted sequence every element has a key at least that of the head. */
  lemma {:induction false} SortedHeadLeast<T>(s: seq<T>, key: T -> int, y: T)
    requires SortedBy(s, key) && y in s
    ensures key(s[0]) <= key(y)
  {
    var k :| 0 <= k < |s| && s[k] == y;
    if k > 0 {
      assert key(s[0]) <= key(s[k]);
    }
  }

  lemma {:induction false} InsertSorted<T>(x: T, s: seq<T>, key: T -> int)
    requires SortedBy(s, key)
    ensures SortedBy(Insert(x, s, key), key)
  {
    if s == [] || key(x) <= key(s[0]) {
      var r := [x] + s;
      forall i, j | 0 <= i < j < |r| ensures key(r[i]) <= key(r[j]) {
        if i == 0 {
          if j > 1 { assert key(s[0]) <= key(s[j - 1]); }
        } else {
          assert r[i] == s[i - 1] && r[j] == s[j - 1];
        }
      }
    } else {
      var t := s[1..];
      assert SortedBy(t, key);
      InsertSorted(x, t, key);
      var rest := Insert(x, t, key);
      var r := [s[0]] + rest;
      forall i, j | 0 <= i < j < |r| ensures key(r[i]) <= key(r[j]) {
        if i == 0 {
          var y := rest[j - 1];
          assert y in multiset(rest);
          assert y in multiset(t) || y == x;
          if y != x {
            assert y in t;
            var k :| 0 <= k < |t| && t[k] == y;
            assert key(s[0]) <= key(s[k + 1]);
          }
        } else {
          assert r[i] == rest[i - 1] && r[j] == rest[j - 1];
        }
      }
    }
  }

  /** The sorted copy is in ascending key order. */
  lemma {:induction false} SortBySorted<T>(xs: seq<T>, key: T -> int)
    ensures SortedBy(SortBy(xs, key), key)
  {
    if xs != [] {
      SortBySorted(xs[1..], key);
      InsertSorted(xs[0], SortBy(xs[1..], key), key);
    }
  }

  lemma {:induction false} FilterSorted<T>(s: seq<T>, key: T -> int, p: T -> bool)
    requires SortedBy(s, key)
    ensures SortedBy(Filter(s, p), key)
  {
    if s != [] {
      FilterSorted(s[1..], key, p);
      var f := Filter(s[1..], p);
      if p(s[0]) {
        var r := [s[0]] + f;
        forall i, j | 0 <= i < j < |r| ensures key(r[i]) <= key(r[j]) {
          if i == 0 {
            InMultiset(r[j], f, s[1..]);
            SortedHeadLeast(s, key, r[j]);
          } else {
            assert r[i] == f[i - 1] && r[j] == f[j - 1];
          }
        }
      }
    }
  }

  lemma {:induction false} FilterCons<T>(y: T, t: seq<T>, p: T -> bool)
    ensures Filter([y] + t, p) == (if p(y) then [y] else []) + Filter(t, p)
  {
    assert ([y] + t)[0] == y && ([y] + t)[1..] == t;
  }

  lemma {:induction false} FilterSnoc<T>(xs: seq<T>, y: T, p: T -> bool)
    ensures Filter(xs + [y], p) == Filter(xs, p) + (if p(y) then [y] else [])
    decreases |xs|
  {
    if xs == [] {
      assert [] + [y] == [y];
      FilterCons(y, [], p);
    } else {
      assert (xs + [y])[1..] == xs[1..] + [y];
      FilterSnoc(xs[1..], y, p);
    }
  }

  /** Filtering keeps exactly the elements that satisfy the predicate. */
  lemma {:induction false} FilterMembers<T>(xs: seq<T>, p: T -> bool, x: T)
    ensures x in Filter(xs, p) <==> x in xs && p(x)
    decreases |xs|
  {
    if xs != [] {
      FilterCons(xs[0], xs[1..], p);
      assert xs == [xs[0]] + xs[1..];
      FilterMembers(xs[1..], p, x);
    }
  }

  lemma {:induction false} SortByCons<T>(y: T, t: seq<T>, key: T -> int)
    ensures SortBy([y] + t, key) == Insert(y, SortBy(t, key), key)
  {
    assert ([y] + t)[0] == y && ([y] + t)[1..] == t;
  }

  lemma {:induction false} FilterInsertFront<T>(x: T, s: seq<T>, key: T -> int, p: T -> bool)
    requires SortedBy(s, key)
    requires s == [] || key(x) <= key(s[0])
    ensures Filter(Insert(x, s, key), p) == if p(x) then Insert(x, Filter(s, p), key) else Filter(s, p)
  {
    var f := Filter(s, p);
    assert Insert(x, s, key) == [x] + s;
    FilterCons(x, s, p);
    if p(x) && f != [] {
      InMultiset(f[0], f, s);
      SortedHeadLeast(s, key, f[0]);
      assert Insert(x, f, key) == [x] + f;
    }
  }

  /** Filtering commutes with inserting into a sorted sequence. */
  lemma {:induction false} FilterInsert<T>(x: T, s: seq<T>, key: T -> int, p: T -> bool)
    requires SortedBy(s, key)
    ensures Filter(Insert(x, s, key), p) == if p(x) then Insert(x, Filter(s, p), key) else Filter(s, p)
    decreases |s|, 1
  {
    if s == [] || key(x) <= key(s[0]) {
      FilterInsertFront(x, s, key, p);
    } else {
      FilterInsertLater(x, s, key, p);
    }
  }

  lemma {:induction false} FilterInsertLater<T>(x: T, s: seq<T>, key: T -> int, p: T -> bool)
    requires SortedBy(s, key)
    requires s != [] && key(s[0]) < key(x)
    ensures Filter(Insert(x, s, key), p) == if p(x) then Insert(x, Filter(s, p), key) else Filter(s, p)
    decreases |s|, 0
  {
    var t := s[1..];
    assert s == [s[0]] + t;
    assert SortedBy(t, key);
    FilterInsert(x, t, key, p);
    var i := Insert(x, t, key);
    var ft := Filter(t, p);
    assert Insert(x, s, key) == [s[0]] + i;
    FilterCons(s[0], i, p);
    FilterCons(s[0], t, p);
    if p(s[0]) {
      assert Filter(s, p) == [s[0]] + ft;
      assert Filter(Insert(x, s, key), p) == [s[0]] + Filter(i, p);
      if p(x) {
        assert Filter(i, p) == Insert(x, ft, key);
        InsertLater(x, s[0], ft, key);
      } else {
        assert Filter(i, p) == ft;
      }
    } else {
      assert Filter(s, p) == ft;
      assert Filter(Insert(x, s, key), p) == Filter(i, p);
    }
  }

  lemma {:induction false} InsertLater<T>(x: T, y: T, t: seq<T>, key: T -> int)
    requires key(y) < key(x)
    ensures Insert(x, [y] + t, key) == [y] + Insert(x, t, key)
  {
    assert ([y] + t)[0] == y && ([y] + t)[1..] == t;
  }

  /** Dropping rows before or after sorting gives the same sequence: the sort is stable. */
  lemma {:induction false} FilterSortBy<T>(xs: seq<T>, key: T -> int, p: T -> bool)
    ensures Filter(SortBy(xs, key), p) == SortBy(Filter(xs, p), key)
  {
    if xs != [] {
      var t := xs[1..];
      assert xs == [xs[0]] + t;
      FilterSortBy(t, key, p);
      SortBySorted(t, key);
      FilterInsert(xs[0], SortBy(t, key), key, p);
      FilterCons(xs[0], t, p);
      if p(xs[0]) {
        SortByCons(xs[0], Filter(t, p), key);
      } else {
        assert Filter(xs, p) == Filter(t, p);
      }
    }
  }

  lemma {:induction false} InsertAppend<T>(x: T, a: seq<T>, b: seq<T>, key: T -> int)
    requires AllAtLeast(b, key, key(x))
    ensures Insert(x, a + b, key) == Insert(x, a, key) + b
  {
    if a == [] {
      assert a + b == b;
    } else if key(x) <= key(a[0]) {
      assert (a + b)[0] == a[0];
    } else {
      assert (a + b)[0] == a[0] && (a + b)[1..] == a[1..] + b;
      InsertAppend(x, a[1..], b, key);
    }
  }

  /** Rows whose keys are all at least every earlier key sort to the end in
      their own order: appending rows dated "now" to a log keeps the sorted
      prefix. */
  lemma {:induction false} SortByAppend<T>(xs: seq<T>, ys: seq<T>, key: T -> int)
    requires SortedBy(ys, key)
    requires forall i, j | 0 <= i < |xs| && 0 <= j < |ys| :: key(xs[i]) <= key(ys[j])
    ensures SortBy(xs + ys, key) == SortBy(xs, key) + ys
  {
    if xs == [] {
      assert xs + ys == ys;
      SortedIsFixed(ys, key);
    } else {
      assert (xs + ys)[0] == xs[0] && (xs + ys)[1..] == xs[1..] + ys;
      SortByAppend(xs[1..], ys, key);
      InsertAppend(xs[0], SortBy(xs[1..], key), ys, key);
    }
  }

  lemma {:induction false} SortedIsFixed<T>(ys: seq<T>, key: T -> int)
    requires SortedBy(ys, key)
    ensures SortBy(ys, key) == ys
  {
    if ys != [] {
      assert SortedBy(ys[1..], key);
      SortedIsFixed(ys[1..], key);
      assert ys == [ys[0]] + ys[1..];
    }
  }
}
