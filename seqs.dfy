/**
 * Sequence operations that stand for the SQL the server issues:
 * WHERE (Filter), ORDER BY (a stable sort over the physical row order),
 * LIMIT/OFFSET (Page), and the grouping of rows by a key.
 */
module Seqs {

  /** Rows of `s` that satisfy `p`, in their original order. */
  function Filter<T>(s: seq<T>, p: T -> bool): (r: seq<T>)
    ensures |r| <= |s|
  {
    if |s| == 0 then []
    else if p(s[0]) then [s[0]] + Filter(s[1..], p)
    else Filter(s[1..], p)
  }

  /** Filter keeps exactly the rows that satisfy the predicate. */
  lemma {:induction false} FilterMembers<T>(s: seq<T>, p: T -> bool)
    ensures forall x :: x in Filter(s, p) ==> x in s && p(x)
    ensures forall x :: x in s && p(x) ==> x in Filter(s, p)
  {
    if s != [] {
      FilterMembers(s[1..], p);
      assert s == [s[0]] + s[1..];
    }
  }

  /** No row satisfies the predicate: the filter is empty. */
  lemma {:induction false} FilterNone<T>(s: seq<T>, p: T -> bool)
    requires forall x :: x in s ==> !p(x)
    ensures Filter(s, p) == []
  {
    if s != [] {
      assert forall x :: x in s[1..] ==> x in s;
      FilterNone(s[1..], p);
    }
  }

  /** Every row satisfies the predicate: the filter keeps them all. */
  lemma {:induction false} FilterAll<T>(s: seq<T>, p: T -> bool)
    requires forall x :: x in s ==> p(x)
    ensures Filter(s, p) == s
  {
    if s != [] {
      assert forall x :: x in s[1..] ==> x in s;
      FilterAll(s[1..], p);
      assert s == [s[0]] + s[1..];
    }
  }

  /** The predicate "the key of x is k". */
  function KeyIs<T>(key: T -> string, k: string): T -> bool {
    (x: T) => key(x) == k
  }

  /** The predicate "the key of x is one of ks". */
  function KeyIn<T>(key: T -> string, ks: seq<string>): T -> bool {
    (x: T) => key(x) in ks
  }

  lemma FilterCons<T>(x: T, s: seq<T>, p: T -> bool)
    ensures Filter([x] + s, p) == if p(x) then [x] + Filter(s, p) else Filter(s, p)
  {
    assert ([x] + s)[1..] == s;
  }

  lemma {:induction false} FilterAppend<T>(a: seq<T>, b: seq<T>, p: T -> bool)
    ensures Filter(a + b, p) == Filter(a, p) + Filter(b, p)
  {
    if a == [] {
      assert a + b == b;
    } else {
      assert (a + b)[1..] == a[1..] + b;
      FilterAppend(a[1..], b, p);
    }
  }

  /** Filtering by a stronger predicate after a weaker one is filtering by the stronger one. */
  lemma {:induction false} FilterNarrow<T>(s: seq<T>, p: T -> bool, q: T -> bool)
    requires forall x :: q(x) ==> p(x)
    ensures Filter(Filter(s, p), q) == Filter(s, q)
  {
    if s != [] {
      FilterNarrow(s[1..], p, q);
      assert s == [s[0]] + s[1..];
      FilterCons(s[0], s[1..], q);
      FilterCons(s[0], s[1..], p);
      if p(s[0]) {
        FilterCons(s[0], Filter(s[1..], p), q);
      }
    }
  }

  /** Two predicates that agree on every element of `s` select the same rows. */
  lemma {:induction false} FilterCongruent<T>(s: seq<T>, p: T -> bool, q: T -> bool)
    requires forall x :: x in s ==> (p(x) <==> q(x))
    ensures Filter(s, p) == Filter(s, q)
  {
    if s != [] {
      FilterCongruent(s[1..], p, q);
    }
  }

  // ---------------------------------------------------------------- ordering

  ghost predicate TotalPreorder<T(!new)>(le: (T, T) -> bool) {
    && (forall a, b :: le(a, b) || le(b, a))
    && (forall a, b, c :: le(a, b) && le(b, c) ==> le(a, c))
  }

  predicate SortedBy<T>(s: seq<T>, le: (T, T) -> bool) {
    forall i, j :: 0 <= i < j < |s| ==> le(s[i], s[j])
  }

  /** Insert `x` before the first element it is not greater than (ties keep `x` first). */
  function InsertBy<T>(x: T, s: seq<T>, le: (T, T) -> bool): (r: seq<T>)
    ensures multiset(r) == multiset(s) + multiset{x}
    ensures |r| == |s| + 1
  {
    if s == [] then [x]
    else if le(x, s[0]) then [x] + s
    else
      assert s == [s[0]] + s[1..];
      [s[0]] + InsertBy(x, s[1..], le)
  }

  /**
   * ORDER BY: a stable insertion sort. Rows that compare equal stay in the
   * order in which they are stored.
   */
  function SortBy<T>(s: seq<T>, le: (T, T) -> bool): (r: seq<T>)
    ensures multiset(r) == multiset(s)
    ensures |r| == |s|
  {
    if s == [] then []
    else
      assert s == [s[0]] + s[1..];
      InsertBy(s[0], SortBy(s[1..], le), le)
  }

  lemma {:induction false} InsertBySorted<T(!new)>(x: T, s: seq<T>, le: (T, T) -> bool)
    requires TotalPreorder(le) && SortedBy(s, le)
    ensures SortedBy(InsertBy(x, s, le), le)
  {
    if s != [] && !le(x, s[0]) {
      InsertBySorted(x, s[1..], le);
      var r := InsertBy(x, s, le);
      var t := InsertBy(x, s[1..], le);
      assert r == [s[0]] + t;
      assert multiset(t) == multiset(s[1..]) + multiset{x};
      forall j | 0 < j < |r| ensures le(s[0], r[j]) {
        assert r[j] == t[j - 1];
        assert r[j] in multiset(t);
        if r[j] == x {
        } else {
          assert r[j] in multiset(s[1..]);
          var k :| 0 <= k < |s[1..]| && s[1..][k] == r[j];
          assert s[k + 1] == r[j];
        }
      }
    }
  }

  lemma {:induction false} SortBySorted<T(!new)>(s: seq<T>, le: (T, T) -> bool)
    requires TotalPreorder(le)
    ensures SortedBy(SortBy(s, le), le)
  {
    if s != [] {
      SortBySorted(s[1..], le);
      InsertBySorted(s[0], SortBy(s[1..], le), le);
    }
  }

  lemma {:induction false} FilterInsertBy<T(!new)>(x: T, s: seq<T>, p: T -> bool, le: (T, T) -> bool)
    requires TotalPreorder(le) && SortedBy(s, le)
    ensures Filter(InsertBy(x, s, le), p) == if p(x) then InsertBy(x, Filter(s, p), le) else Filter(s, p)
  {
    if s == [] {
    } else if le(x, s[0]) {
      FilterCons(x, s, p);
      var fs := Filter(s, p);
      if p(x) && fs != [] {
        FilterMembers(s, p);
        assert fs[0] in s;
        var k :| 0 <= k < |s| && s[k] == fs[0];
        assert k == 0 || le(s[0], s[k]);
        assert le(x, fs[0]);
      }
    } else {
      assert SortedBy(s[1..], le);
      FilterInsertBy(x, s[1..], p, le);
      FilterCons(s[0], InsertBy(x, s[1..], le), p);
      assert s == [s[0]] + s[1..];
      FilterCons(s[0], s[1..], p);
    }
  }

  /** Sorting commutes with filtering: a stable sort keeps each filtered group in order. */
  lemma {:induction false} FilterSortBy<T(!new)>(s: seq<T>, p: T -> bool, le: (T, T) -> bool)
    requires TotalPreorder(le)
    ensures Filter(SortBy(s, le), p) == SortBy(Filter(s, p), le)
  {
    if s != [] {
      var r := SortBy(s[1..], le);
      var f := Filter(s[1..], p);
      assert SortBy(s, le) == InsertBy(s[0], r, le);
      SortBySorted(s[1..], le);
      FilterInsertBy(s[0], r, p, le);
      FilterSortBy(s[1..], p, le);
      assert Filter(r, p) == SortBy(f, le);
      if p(s[0]) {
        assert Filter(s, p) == [s[0]] + f;
        assert ([s[0]] + f)[0] == s[0];
        assert ([s[0]] + f)[1..] == f;
        assert SortBy([s[0]] + f, le) == InsertBy(s[0], SortBy(f, le), le);
      } else {
        assert Filter(s, p) == f;
      }
    }
  }

  // -------------------------------------------------------------- uniqueness

  predicate DistinctBy<T>(s: seq<T>, key: T -> string) {
    forall i, j :: 0 <= i < j < |s| ==> key(s[i]) != key(s[j])
  }

  lemma {:induction false} FilterDistinct<T>(s: seq<T>, p: T -> bool, key: T -> string)
    requires DistinctBy(s, key)
    ensures DistinctBy(Filter(s, p), key)
  {
    if s != [] {
      var t := s[1..];
      assert DistinctBy(t, key);
      FilterDistinct(t, p, key);
      assert s == [s[0]] + t;
      FilterCons(s[0], t, p);
      if p(s[0]) {
        var f := Filter(t, p);
        var r := [s[0]] + f;
        FilterMembers(t, p);
        forall j | 0 < j < |r| ensures key(r[0]) != key(r[j]) {
          var y := f[j - 1];
          assert y in f;
          assert y in t;
          var k :| 0 <= k < |t| && t[k] == y;
          assert s[k + 1] == y;
        }
        assert DistinctBy(r, key);
      }
    }
  }

  lemma {:induction false} InsertByDistinct<T>(x: T, s: seq<T>, le: (T, T) -> bool, key: T -> string)
    requires DistinctBy(s, key)
    requires forall y :: y in s ==> key(y) != key(x)
    ensures DistinctBy(InsertBy(x, s, le), key)
  {
    if s != [] && !le(x, s[0]) {
      assert DistinctBy(s[1..], key);
      InsertByDistinct(x, s[1..], le, key);
      var r := InsertBy(x, s, le);
      var t := InsertBy(x, s[1..], le);
      assert r == [s[0]] + t;
      forall j | 0 < j < |r| ensures key(r[0]) != key(r[j]) {
        assert r[j] == t[j - 1];
        assert r[j] in multiset(t);
        assert multiset(t) == multiset(s[1..]) + multiset{x};
        if r[j] != x {
          assert r[j] in multiset(s[1..]);
          assert r[j] in s[1..];
          var k :| 0 <= k < |s[1..]| && s[1..][k] == r[j];
          assert s[k + 1] == r[j];
        }
      }
    }
  }

  /** Sorting keeps keys distinct. */
  lemma {:induction false} SortByDistinct<T>(s: seq<T>, le: (T, T) -> bool, key: T -> string)
    requires DistinctBy(s, key)
    ensures DistinctBy(SortBy(s, le), key)
  {
    if s != [] {
      assert DistinctBy(s[1..], key);
      SortByDistinct(s[1..], le, key);
      forall y | y in SortBy(s[1..], le) ensures key(y) != key(s[0]) {
        assert y in multiset(SortBy(s[1..], le));
        assert y in multiset(s[1..]);
        var k :| 0 <= k < |s[1..]| && s[1..][k] == y;
        assert s[k + 1] == y;
      }
      InsertByDistinct(s[0], SortBy(s[1..], le), le, key);
    }
  }

  // --------------------------------------------------------------------- map

  /** Array.prototype.map: f applied to every element, in order. */
  function Map<T, U>(s: seq<T>, f: T -> U): (r: seq<U>)
    ensures |r| == |s| && forall i :: 0 <= i < |s| ==> r[i] == f(s[i])
  {
    if |s| == 0 then [] else [f(s[0])] + Map(s[1..], f)
  }

  // -------------------------------------------------------------- pagination

  function Min(a: int, b: int): int { if a <= b then a else b }

  /** LIMIT limit OFFSET offset over an already ordered result. */
  function Page<T>(s: seq<T>, limit: nat, offset: nat): (r: seq<T>)
    ensures |r| == if offset >= |s| then 0 else Min(limit, |s| - offset)
    ensures forall i :: 0 <= i < |r| ==> r[i] == s[offset + i]
  {
    s[Min(offset, |s|)..Min(offset + limit, |s|)]
  }

  /** Two consecutive pages are the first 2*limit rows, and share no key. */
  lemma ConsecutivePages<T>(s: seq<T>, limit: nat, key: T -> string)
    requires DistinctBy(s, key)
    ensures Page(s, limit, 0) + Page(s, limit, limit) == Page(s, 2 * limit, 0)
    ensures forall x, y :: x in Page(s, limit, 0) && y in Page(s, limit, limit) ==> key(x) != key(y)
  {
    var a, b := Page(s, limit, 0), Page(s, limit, limit);
    forall x, y | x in a && y in b ensures key(x) != key(y) {
      var i :| 0 <= i < |a| && a[i] == x;
      var j :| 0 <= j < |b| && b[j] == y;
      assert x == s[i] && y == s[limit + j];
    }
  }

  /** Taking the first n elements (used for the dashboard's LIMIT 5). */
  function Take<T>(s: seq<T>, n: nat): (r: seq<T>)
    ensures |r| == Min(n, |s|)
    ensures forall i :: 0 <= i < |r| ==> r[i] == s[i]
  {
    s[..Min(n, |s|)]
  }
}
