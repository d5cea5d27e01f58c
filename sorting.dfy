/** Ordering by an integer key, largest first, with ties in input order:
    what Python's stable `sorted(xs, key=..., reverse=True)` returns, and the
    "largest n" selection built on it (`[:n]` of that order, `nlargest`). */
module Sorting {

  ghost predicate Descending<T>(s: seq<T>, key: T -> int)
  {
    forall i, j :: 0 <= i < j < |s| ==> key(s[i]) >= key(s[j])
  }

  ghost predicate AllAtMost<T>(s: seq<T>, key: T -> int, b: int)
  {
    forall j :: 0 <= j < |s| ==> key(s[j]) <= b
  }

  /** Places `x` after every element whose key is at least its own. */
  function Insert<T>(s: seq<T>, x: T, key: T -> int): (r: seq<T>)
    ensures |r| == |s| + 1
    ensures multiset(r) == multiset(s) + multiset{x}
    decreases |s|
  {
    if s == [] then [x]
    else if key(s[0]) >= key(x) then
      assert s == [s[0]] + s[1..];
      [s[0]] + Insert(s[1..], x, key)
    else
      [x] + s
  }

  lemma {:induction false} InsertAtMost<T>(s: seq<T>, x: T, key: T -> int, b: int)
    requires AllAtMost(s, key, b) && key(x) <= b
    ensures AllAtMost(Insert(s, x, key), key, b)
    decreases |s|
  {
    if s != [] && key(s[0]) >= key(x) {
      InsertAtMost(s[1..], x, key, b);
      ConsAtMost(s[0], Insert(s[1..], x, key), key, b);
    } else if s != [] {
      ConsAtMost(x, s, key, b);
    }
  }

  lemma ConsAtMost<T>(x: T, t: seq<T>, key: T -> int, b: int)
    requires AllAtMost(t, key, b) && key(x) <= b
    ensures AllAtMost([x] + t, key, b)
  {
    var r := [x] + t;
    forall j | 0 < j < |r| ensures key(r[j]) <= b {
      assert r[j] == t[j - 1];
    }
  }

  lemma {:induction false} InsertDescending<T>(s: seq<T>, x: T, key: T -> int)
    requires Descending(s, key)
    ensures Descending(Insert(s, x, key), key)
    decreases |s|
  {
    if s != [] {
      DescendingTail(s, key);
      if key(s[0]) >= key(x) {
        InsertDescending(s[1..], x, key);
        InsertAtMost(s[1..], x, key, key(s[0]));
        ConsDescending(s[0], Insert(s[1..], x, key), key);
      } else {
        forall j | 0 <= j < |s| ensures key(s[j]) <= key(x) {
        }
        ConsDescending(x, s, key);
      }
    }
  }

  lemma ConsDescending<T>(x: T, t: seq<T>, key: T -> int)
    requires Descending(t, key) && AllAtMost(t, key, key(x))
    ensures Descending([x] + t, key)
  {
    var r := [x] + t;
    forall i, j | 0 <= i < j < |r| ensures key(r[i]) >= key(r[j]) {
      assert r[j] == t[j - 1];
      if i > 0 {
        assert r[i] == t[i - 1];
      }
    }
  }

  lemma DescendingTail<T>(s: seq<T>, key: T -> int)
    requires Descending(s, key) && s != []
    ensures Descending(s[1..], key) && AllAtMost(s[1..], key, key(s[0]))
  {
    var t := s[1..];
    forall j | 0 <= j < |t| ensures key(t[j]) <= key(s[0]) {
      assert t[j] == s[j + 1];
    }
    forall i, j | 0 <= i < j < |t| ensures key(t[i]) >= key(t[j]) {
      assert t[i] == s[i + 1] && t[j] == s[j + 1];
    }
  }

  /** The stable descending sort, one insertion per element in input order. */
  function SortDesc<T>(xs: seq<T>, key: T -> int): (r: seq<T>)
    ensures |r| == |xs|
    ensures multiset(r) == multiset(xs)
    ensures Descending(r, key)
    decreases |xs|
  {
    if xs == [] then []
    else
      var init := xs[..|xs| - 1];
      assert xs == init + [xs[|xs| - 1]];
      InsertDescending(SortDesc(init, key), xs[|xs| - 1], key);
      Insert(SortDesc(init, key), xs[|xs| - 1], key)
  }

  /** The elements of `s` whose key is `k`, in their order in `s`. */
  function WithKey<T>(s: seq<T>, key: T -> int, k: int): seq<T>
    decreases |s|
  {
    if s == [] then [] else (if key(s[0]) == k then [s[0]] else []) + WithKey(s[1..], key, k)
  }

  lemma {:induction false} WithKeyAppend<T>(s: seq<T>, x: T, key: T -> int, k: int)
    ensures WithKey(s + [x], key, k) == WithKey(s, key, k) + (if key(x) == k then [x] else [])
    decreases |s|
  {
    if s != [] {
      assert (s + [x])[1..] == s[1..] + [x];
      WithKeyAppend(s[1..], x, key, k);
    }
  }

  lemma {:induction false} WithKeyNone<T>(s: seq<T>, key: T -> int, k: int)
    requires forall j :: 0 <= j < |s| ==> key(s[j]) < k
    ensures WithKey(s, key, k) == []
    decreases |s|
  {
    if s != [] {
      WithKeyNone(s[1..], key, k);
    }
  }

  lemma WithKeyCons<T>(a: T, t: seq<T>, key: T -> int, k: int)
    ensures WithKey([a] + t, key, k) == (if key(a) == k then [a] else []) + WithKey(t, key, k)
  {
    assert ([a] + t)[1..] == t;
  }

  lemma {:induction false} InsertWithKey<T>(s: seq<T>, x: T, key: T -> int, k: int)
    requires Descending(s, key)
    ensures WithKey(Insert(s, x, key), key, k)
         == WithKey(s, key, k) + (if key(x) == k then [x] else [])
    decreases |s|
  {
    var tail := if key(x) == k then [x] else [];
    if s == [] {
      assert Insert(s, x, key) == [x] + [];
      WithKeyCons(x, [], key, k);
      assert WithKey([x] + [], key, k) == tail + [];
    } else if key(s[0]) >= key(x) {
      DescendingTail(s, key);
      InsertWithKey(s[1..], x, key, k);
      InsertAfterHead(s, x, key, k);
    } else {
      assert Insert(s, x, key) == [x] + s;
      WithKeyCons(x, s, key, k);
      if key(x) == k {
        DescendingBelow(s, x, key);
        WithKeyNone(s, key, k);
        assert WithKey([x] + s, key, k) == [x] + [];
      } else {
        assert WithKey([x] + s, key, k) == [] + WithKey(s, key, k);
      }
    }
  }

  /** The step where `x` goes after the first element. */
  lemma InsertAfterHead<T>(s: seq<T>, x: T, key: T -> int, k: int)
    requires s != [] && key(s[0]) >= key(x)
    requires WithKey(Insert(s[1..], x, key), key, k)
          == WithKey(s[1..], key, k) + (if key(x) == k then [x] else [])
    ensures WithKey(Insert(s, x, key), key, k)
         == WithKey(s, key, k) + (if key(x) == k then [x] else [])
  {
    var head := if key(s[0]) == k then [s[0]] else [];
    var tail := if key(x) == k then [x] else [];
    var t := Insert(s[1..], x, key);
    var w := WithKey(s[1..], key, k);
    assert Insert(s, x, key) == [s[0]] + t;
    WithKeyCons(s[0], t, key, k);
    Associative(head, w, tail);
  }

  lemma Associative<T>(a: seq<T>, b: seq<T>, c: seq<T>)
    ensures a + (b + c) == (a + b) + c
  {
  }

  lemma DescendingBelow<T>(s: seq<T>, x: T, key: T -> int)
    requires Descending(s, key) && s != [] && key(s[0]) < key(x)
    ensures forall j :: 0 <= j < |s| ==> key(s[j]) < key(x)
  {
  }

  /** Stability: among equal keys the sort keeps the input order. */
  lemma {:induction false} SortDescStable<T>(xs: seq<T>, key: T -> int, k: int)
    ensures WithKey(SortDesc(xs, key), key, k) == WithKey(xs, key, k)
    decreases |xs|
  {
    if xs != [] {
      var init := xs[..|xs| - 1];
      var x := xs[|xs| - 1];
      assert xs == init + [x];
      SortDescStable(init, key, k);
      InsertWithKey(SortDesc(init, key), x, key, k);
      WithKeyAppend(init, x, key, k);
    }
  }

  lemma PrefixDominates<T>(s: seq<T>, key: T -> int, m: nat)
    requires Descending(s, key) && m <= |s|
    ensures forall x, y :: x in s[..m] && y in multiset(s) - multiset(s[..m]) ==> key(x) >= key(y)
  {
    assert s == s[..m] + s[m..];
    assert multiset(s) - multiset(s[..m]) == multiset(s[m..]);
    forall x, y | x in s[..m] && y in multiset(s) - multiset(s[..m]) ensures key(x) >= key(y) {
      var i :| 0 <= i < m && s[..m][i] == x;
      assert y in s[m..];
      var j :| 0 <= j < |s| - m && s[m..][j] == y;
      assert s[i] == x && s[m + j] == y;
    }
  }

  /** A prefix of `s` holds, for every key, a prefix of that key's elements. */
  lemma {:induction false} WithKeyPrefix<T>(s: seq<T>, key: T -> int, k: int, m: nat)
    requires m <= |s|
    ensures WithKey(s[..m], key, k) <= WithKey(s, key, k)
    decreases |s|
  {
    if m == |s| {
      assert s[..m] == s;
    } else {
      var init := s[..|s| - 1];
      assert s == init + [s[|s| - 1]];
      assert init[..m] == s[..m];
      WithKeyPrefix(init, key, k, m);
      WithKeyAppend(init, s[|s| - 1], key, k);
    }
  }

  /** The first `n` of the descending order (all of it when shorter): the
      `n` largest by key, every one of them at least every element left out;
      among equal keys, the ones taken are the first in input order, in
      that order. */
  function TopN<T>(xs: seq<T>, key: T -> int, n: nat): (r: seq<T>)
    ensures |r| == if |xs| < n then |xs| else n
    ensures Descending(r, key)
    ensures multiset(r) <= multiset(xs)
    ensures forall x, y :: x in r && y in multiset(xs) - multiset(r) ==> key(x) >= key(y)
    ensures forall k :: WithKey(r, key, k) <= WithKey(xs, key, k)
  {
    var s := SortDesc(xs, key);
    var m := if |xs| < n then |xs| else n;
    assert s == s[..m] + s[m..];
    PrefixDominates(s, key, m);
    forall k ensures WithKey(s[..m], key, k) <= WithKey(xs, key, k) {
      WithKeyPrefix(s, key, k, m);
      SortDescStable(xs, key, k);
    }
    s[..m]
  }

  /** The elements of `s` that satisfy `p`, in their order in `s`. */
  function Filter<T>(s: seq<T>, p: T -> bool): seq<T>
    decreases |s|
  {
    if s == [] then []
    else Filter(s[..|s| - 1], p) + (if p(s[|s| - 1]) then [s[|s| - 1]] else [])
  }

  /** A filter keeps exactly the elements that satisfy `p`, every copy of a
      repeated one. */
  lemma {:induction false} FilterCount<T(!new)>(s: seq<T>, p: T -> bool)
    ensures forall x :: x in Filter(s, p) <==> x in s && p(x)
    ensures forall x :: multiset(Filter(s, p))[x] == if p(x) then multiset(s)[x] else 0
    ensures |Filter(s, p)| <= |s|
    decreases |s|
  {
    if s != [] {
      var init := s[..|s| - 1];
      var last := s[|s| - 1];
      assert s == init + [last];
      FilterCount(init, p);
    }
  }

  /** A filter keeps order: filtering two sequences one after the other is
      filtering each, one after the other. */
  lemma {:induction false} FilterConcat<T(!new)>(a: seq<T>, b: seq<T>, p: T -> bool)
    ensures Filter(a + b, p) == Filter(a, p) + Filter(b, p)
    decreases |b|
  {
    if b == [] {
      assert a + b == a;
    } else {
      var init := b[..|b| - 1];
      assert b == init + [b[|b| - 1]];
      FilterConcat(a, init, p);
      FilterAppend(a, init, b[|b| - 1], p);
    }
  }

  /** The step of FilterConcat: one more element at the end of `b`. */
  lemma FilterAppend<T(!new)>(a: seq<T>, init: seq<T>, x: T, p: T -> bool)
    requires Filter(a + init, p) == Filter(a, p) + Filter(init, p)
    ensures Filter(a + (init + [x]), p) == Filter(a, p) + Filter(init + [x], p)
  {
    var tail := if p(x) then [x] else [];
    var b := init + [x];
    assert (a + b)[..|a + b| - 1] == a + init && (a + b)[|a + b| - 1] == x;
    assert b[..|b| - 1] == init && b[|b| - 1] == x;
    Associative(Filter(a, p), Filter(init, p), tail);
  }

  /** A single element is kept exactly when it satisfies `p`. */
  lemma FilterSingle<T(!new)>(x: T, p: T -> bool)
    ensures Filter([x], p) == if p(x) then [x] else []
  {
    assert [x][..0] == [];
  }

  /** `r` is `s` with some positions left out: `idx` lists, in increasing
      order, the position in `s` of each element of `r`. */
  ghost predicate PicksAt<T>(r: seq<T>, s: seq<T>, idx: seq<int>)
  {
    && |idx| == |r|
    && (forall i :: 0 <= i < |idx| ==> 0 <= idx[i] < |s| && r[i] == s[idx[i]])
    && (forall i, j :: 0 <= i < j < |idx| ==> idx[i] < idx[j])
  }

  /** A filter keeps the order of its input: its result is a subsequence. */
  lemma {:induction false} FilterOrder<T>(s: seq<T>, p: T -> bool)
    ensures exists idx :: PicksAt(Filter(s, p), s, idx)
    decreases |s|
  {
    if s == [] {
      assert Filter(s, p) == [];
      assert PicksAt(Filter(s, p), s, []);
    } else {
      var init := s[..|s| - 1];
      var last := s[|s| - 1];
      assert s == init + [last];
      FilterOrder(init, p);
      var idx :| PicksAt(Filter(init, p), init, idx);
      PicksExtend(Filter(init, p), init, last, idx);
      if p(last) {
        assert PicksAt(Filter(s, p), s, idx + [|init|]);
      } else {
        assert PicksAt(Filter(s, p), s, idx);
      }
    }
  }

  lemma PicksExtend<T>(r: seq<T>, s: seq<T>, x: T, idx: seq<int>)
    requires PicksAt(r, s, idx)
    ensures PicksAt(r, s + [x], idx)
    ensures PicksAt(r + [x], s + [x], idx + [|s|])
  {
  }

  /** The filter of a prefix is a prefix of the filter. */
  lemma FilterPrefix<T(!new)>(s: seq<T>, p: T -> bool, m: nat)
    requires m <= |s|
    ensures Filter(s[..m], p) <= Filter(s, p)
  {
    var a, b := Filter(s[..m], p), Filter(s[m..], p);
    assert s == s[..m] + s[m..];
    FilterConcat(s[..m], s[m..], p);
    assert (a + b)[..|a|] == a;
  }

  /** Each element of a filter comes from a position of `s` with exactly
      as many kept elements before it. */
  lemma {:induction false} FilterPosition<T(!new)>(s: seq<T>, p: T -> bool, k: nat)
    requires k < |Filter(s, p)|
    ensures exists m :: 0 <= m < |s| && s[m] == Filter(s, p)[k] && |Filter(s[..m], p)| == k
    decreases |s|
  {
    var init := s[..|s| - 1];
    var last := s[|s| - 1];
    assert s == init + [last];
    FilterPrefix(s, p, |s| - 1);
    if k < |Filter(init, p)| {
      FilterPosition(init, p, k);
      var m :| 0 <= m < |init| && init[m] == Filter(init, p)[k] && |Filter(init[..m], p)| == k;
      assert init[..m] == s[..m];
      assert s[m] == Filter(s, p)[k];
    } else {
      assert s[..|s| - 1] == init;
      assert s[|s| - 1] == Filter(s, p)[k];
    }
  }

  /** A kept element before position `m` is kept before the element at `m`. */
  lemma FilterBefore<T(!new)>(s: seq<T>, p: T -> bool, m: nat, j: nat)
    requires j < m <= |s| && p(s[j])
    ensures exists k :: 0 <= k < |Filter(s[..m], p)| && k < |Filter(s, p)| && Filter(s, p)[k] == s[j]
  {
    FilterCount(s[..m], p);
    assert s[j] == s[..m][j];
    assert s[j] in Filter(s[..m], p);
    FilterPrefix(s, p, m);
    var k :| 0 <= k < |Filter(s[..m], p)| && Filter(s[..m], p)[k] == s[j];
    assert Filter(s, p)[k] == s[j];
  }
}
