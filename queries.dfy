/**
 * The shape of the SQL queries the routes build over a table snapshot:
 * `WHERE` is a filter, `ORDER BY` a sort by a total preorder, `OFFSET`/`LIMIT` a slice.
 * SQL leaves the order of rows with equal sort keys open; the model lists them in
 * snapshot order, and every property below holds for any sorted permutation.
 */
module Queries {
  import opened Wrappers
  import opened Models

  function Min(a: int, b: int): int {
    if a <= b then a else b
  }

  /** `le(a, b)`: row `a` may be listed before row `b`. */
  ghost predicate TotalPreorder<T(!new)>(le: (T, T) -> bool) {
    (forall a, b :: le(a, b) || le(b, a)) &&
    (forall a, b, c :: le(a, b) && le(b, c) ==> le(a, c))
  }

  predicate Sorted<T(!new)>(s: seq<T>, le: (T, T) -> bool) {
    forall i, j :: 0 <= i < j < |s| ==> le(s[i], s[j])
  }

  /** `WHERE keep(row)`: exactly the rows that pass, each as often as in the snapshot. */
  function Filter<T(!new)>(s: seq<T>, keep: T -> bool): (r: seq<T>)
    ensures forall x :: x in r <==> x in s && keep(x)
    ensures |r| <= |s|
  {
    if s == [] then []
    else
      assert forall x :: x in s <==> x == s[0] || x in s[1..];
      (if keep(s[0]) then [s[0]] else []) + Filter(s[1..], keep)
  }

  /** The filter keeps each passing row as often as the snapshot holds it, and no other row. */
  lemma {:induction false} FilterCounts<T(!new)>(s: seq<T>, keep: T -> bool)
    ensures forall x :: multiset(Filter(s, keep))[x] == if keep(x) then multiset(s)[x] else 0
  {
    if s != [] {
      assert s == [s[0]] + s[1..];
      FilterCounts(s[1..], keep);
    }
  }

  /** Two conditions that agree on every row of the snapshot select the same rows. */
  lemma {:induction false} FilterAgree<T(!new)>(s: seq<T>, keep1: T -> bool, keep2: T -> bool)
    requires forall x :: x in s ==> keep1(x) == keep2(x)
    ensures Filter(s, keep1) == Filter(s, keep2)
  {
    if s != [] {
      assert s[0] in s;
      assert forall x :: x in s[1..] ==> x in s;
      FilterAgree(s[1..], keep1, keep2);
    }
  }

  /** Filtering a sequence extended by one row extends the result by that row when it passes. */
  lemma {:induction false} FilterSnoc<T(!new)>(s: seq<T>, x: T, keep: T -> bool)
    ensures Filter(s + [x], keep) == Filter(s, keep) + (if keep(x) then [x] else [])
  {
    if s == [] {
      assert [] + [x] == [x];
    } else {
      var t := s + [x];
      var head := if keep(s[0]) then [s[0]] else [];
      var tail := if keep(x) then [x] else [];
      calc {
        Filter(t, keep);
        (if keep(t[0]) then [t[0]] else []) + Filter(t[1..], keep);
        { assert t[0] == s[0]; assert t[1..] == s[1..] + [x]; }
        head + Filter(s[1..] + [x], keep);
        { FilterSnoc(s[1..], x, keep); }
        head + (Filter(s[1..], keep) + tail);
        (head + Filter(s[1..], keep)) + tail;
      }
    }
  }

  /** Filtering by a weaker condition and then by a stronger one is filtering by the stronger one. */
  lemma {:induction false} FilterNarrow<T(!new)>(s: seq<T>, wide: T -> bool, narrow: T -> bool)
    requires forall x :: x in s && narrow(x) ==> wide(x)
    ensures Filter(Filter(s, wide), narrow) == Filter(s, narrow)
  {
    if s != [] {
      assert s[0] in s;
      assert forall x :: x in s[1..] ==> x in s;
      var rest := Filter(s[1..], wide);
      if wide(s[0]) {
        var f := [s[0]] + rest;
        calc {
          Filter(f, narrow);
          (if narrow(f[0]) then [f[0]] else []) + Filter(f[1..], narrow);
          { assert f[0] == s[0] && f[1..] == rest; }
          (if narrow(s[0]) then [s[0]] else []) + Filter(rest, narrow);
          { FilterNarrow(s[1..], wide, narrow); }
          Filter(s, narrow);
        }
      } else {
        calc {
          Filter(Filter(s, wide), narrow);
          { assert Filter(s, wide) == [] + rest; assert [] + rest == rest; }
          Filter(rest, narrow);
          { FilterNarrow(s[1..], wide, narrow); }
          Filter(s[1..], narrow);
          Filter(s, narrow);
        }
      }
    }
  }

  /** Filtering by a stronger condition keeps no more rows. */
  lemma {:induction false} FilterShrinks<T(!new)>(s: seq<T>, strong: T -> bool, weak: T -> bool)
    requires forall x :: x in s && strong(x) ==> weak(x)
    ensures |Filter(s, strong)| <= |Filter(s, weak)|
  {
    if s != [] {
      assert s[0] in s;
      assert forall x :: x in s[1..] ==> x in s;
      FilterShrinks(s[1..], strong, weak);
    }
  }

  /** A filter no row passes is empty. */
  lemma {:induction false} FilterNone<T(!new)>(s: seq<T>, keep: T -> bool)
    requires forall x :: x in s ==> !keep(x)
    ensures Filter(s, keep) == []
  {
    if s != [] {
      assert s[0] in s;
      assert forall x :: x in s[1..] ==> x in s;
      FilterNone(s[1..], keep);
    }
  }

  function Insert<T(!new)>(x: T, s: seq<T>, le: (T, T) -> bool): (r: seq<T>)
    ensures multiset(r) == multiset(s) + multiset{x}
  {
    if s == [] then [x]
    else if le(x, s[0]) then [x] + s
    else
      assert s == [s[0]] + s[1..];
      [s[0]] + Insert(x, s[1..], le)
  }

  /** `ORDER BY`, as an insertion sort. */
  function Sort<T(!new)>(s: seq<T>, le: (T, T) -> bool): (r: seq<T>)
    ensures multiset(r) == multiset(s)
  {
    if s == [] then []
    else
      assert s == [s[0]] + s[1..];
      Insert(s[0], Sort(s[1..], le), le)
  }

  lemma {:induction false} InsertSorted<T(!new)>(x: T, s: seq<T>, le: (T, T) -> bool)
    requires TotalPreorder(le)
    requires Sorted(s, le)
    ensures Sorted(Insert(x, s, le), le)
  {
    if s == [] {
    } else if le(x, s[0]) {
      var r := [x] + s;
      forall i, j | 0 <= i < j < |r| ensures le(r[i], r[j]) {
        if i == 0 && j > 1 {
          assert le(s[0], s[j - 1]);
        }
      }
    } else {
      assert le(s[0], x);
      assert Sorted(s[1..], le);
      InsertSorted(x, s[1..], le);
      var t := Insert(x, s[1..], le);
      forall k | 0 <= k < |s[1..]| ensures le(s[0], s[1..][k]) {
        assert s[1..][k] == s[k + 1];
      }
      InsertAbove(x, s[1..], le, s[0]);
      var r := [s[0]] + t;
      forall i, j | 0 <= i < j < |r| ensures le(r[i], r[j]) {
        if i == 0 {
          assert r[j] == t[j - 1];
          assert t[j - 1] in t;
        } else {
          assert r[i] == t[i - 1] && r[j] == t[j - 1];
        }
      }
    }
  }

  /** A row every element and the inserted row may follow may follow every element of the result. */
  lemma InsertAbove<T(!new)>(x: T, s: seq<T>, le: (T, T) -> bool, lo: T)
    requires le(lo, x)
    requires forall k :: 0 <= k < |s| ==> le(lo, s[k])
    ensures forall y :: y in Insert(x, s, le) ==> le(lo, y)
  {
    forall y | y in Insert(x, s, le) ensures le(lo, y) {
      assert y in multiset(Insert(x, s, le));
      if y != x {
        assert y in multiset(s);
        var k :| 0 <= k < |s| && s[k] == y;
      }
    }
  }

  /** The sort lists every row of its input, in order. */
  lemma {:induction false} SortSorted<T(!new)>(s: seq<T>, le: (T, T) -> bool)
    requires TotalPreorder(le)
    ensures Sorted(Sort(s, le), le)
  {
    if s != [] {
      SortSorted(s[1..], le);
      InsertSorted(s[0], Sort(s[1..], le), le);
    }
  }

  /** `OFFSET skip LIMIT limit`: the rows at positions `skip`, `skip + 1`, ..., at most `limit` of them. */
  function Page<T(!new)>(s: seq<T>, skip: nat, limit: nat): (r: seq<T>)
    ensures |r| == if skip >= |s| then 0 else Min(limit, |s| - skip)
    ensures forall i :: 0 <= i < |r| ==> r[i] == s[skip + i]
  {
    if skip >= |s| then [] else s[skip..skip + Min(limit, |s| - skip)]
  }

  /**
   * A page of a sorted sequence is sorted, every row before the page may be
   * listed before each row on it, and each row on it before every row after it.
   */
  lemma PageOfSorted<T(!new)>(s: seq<T>, skip: nat, limit: nat, le: (T, T) -> bool)
    requires Sorted(s, le)
    ensures var r := Page(s, skip, limit);
      Sorted(r, le) &&
      (forall i, j :: 0 <= i < skip && i < |s| && 0 <= j < |r| ==> le(s[i], r[j])) &&
      (forall j, k :: 0 <= j < |r| && skip + |r| <= k < |s| ==> le(r[j], s[k]))
  {
    var r := Page(s, skip, limit);
    forall i, j | 0 <= i < j < |r| ensures le(r[i], r[j]) {
      assert r[i] == s[skip + i] && r[j] == s[skip + j];
    }
    forall i, j | 0 <= i < skip && i < |s| && 0 <= j < |r| ensures le(s[i], r[j]) {
      assert r[j] == s[skip + j];
    }
    forall j, k | 0 <= j < |r| && skip + |r| <= k < |s| ensures le(r[j], s[k]) {
      assert r[j] == s[skip + j];
    }
  }

  /** `WHERE keep ORDER BY le OFFSET skip LIMIT limit` lists only rows of the table that pass. */
  lemma PagedQueryRule<T(!new)>(s: seq<T>, keep: T -> bool, le: (T, T) -> bool, skip: nat, limit: nat)
    ensures forall x :: x in Page(Sort(Filter(s, keep), le), skip, limit) ==> x in s && keep(x)
  {
    var f := Filter(s, keep);
    var t := Sort(f, le);
    var r := Page(t, skip, limit);
    forall x | x in r ensures x in s && keep(x) {
      var i :| 0 <= i < |r| && r[i] == x;
      assert t[skip + i] in multiset(f);
    }
  }

  /** `WHERE keep ORDER BY le LIMIT limit`. */
  function Top<T(!new)>(s: seq<T>, keep: T -> bool, le: (T, T) -> bool, limit: nat): seq<T> {
    Page(Sort(Filter(s, keep), le), 0, limit)
  }

  /** In a sorted sequence every row of a prefix may be listed before every row that is not in it. */
  lemma SortedPrefixFirst<T(!new)>(t: seq<T>, k: nat, le: (T, T) -> bool)
    requires Sorted(t, le)
    requires k <= |t|
    ensures multiset(t) - multiset(t[..k]) == multiset(t[k..])
    ensures multiset(t[..k]) <= multiset(t)
    ensures forall x, y :: x in t[..k] && y in multiset(t) - multiset(t[..k]) ==> le(x, y)
  {
    assert t == t[..k] + t[k..];
    assert multiset(t) == multiset(t[..k]) + multiset(t[k..]);
    forall x, y | x in t[..k] && y in multiset(t[k..]) ensures le(x, y) {
      var i :| 0 <= i < k && t[..k][i] == x;
      assert y in t[k..];
      var j :| 0 <= j < |t[k..]| && t[k..][j] == y;
      assert t[i] == x && t[k + j] == y;
    }
  }

  /** The limited query lists a prefix of the sorted rows that pass the condition. */
  lemma TopIsPrefix<T(!new)>(s: seq<T>, keep: T -> bool, le: (T, T) -> bool, limit: nat)
    ensures var t := Sort(Filter(s, keep), le);
      |t| == |Filter(s, keep)| && Top(s, keep, le, limit) == t[..Min(limit, |t|)]
  {
    var f := Filter(s, keep);
    var t := Sort(f, le);
    assert |multiset(t)| == |multiset(f)|;
  }

  /**
   * The first `limit` rows of the query, characterised without the sort: rows that
   * pass the condition, sorted, as many as the limit allows, and no row left out
   * by the limit comes strictly before a row that is listed.
   */
  lemma TopRule<T(!new)>(s: seq<T>, keep: T -> bool, le: (T, T) -> bool, limit: nat)
    requires TotalPreorder(le)
    ensures var r, f := Top(s, keep, le, limit), Filter(s, keep);
      (forall x :: x in r ==> x in s && keep(x)) &&
      multiset(r) <= multiset(f) &&
      |r| == Min(limit, |f|) &&
      Sorted(r, le) &&
      (forall x, y :: x in r && y in multiset(f) - multiset(r) ==> le(x, y))
  {
    var f := Filter(s, keep);
    var t := Sort(f, le);
    SortSorted(f, le);
    TopIsPrefix(s, keep, le, limit);
    var k := Min(limit, |t|);
    var r := t[..k];
    SortedPrefixFirst(t, k, le);
    assert Sorted(r, le);
    assert multiset(r) <= multiset(f);
    forall x | x in r ensures x in s && keep(x) {
      assert x in multiset(t);
      assert x in f;
    }
  }

  /** `score.desc()` on a nullable float column: larger first; `nullsFirst` says where NULL goes. */
  predicate DescLe(nullsFirst: bool, x: Option<real>, y: Option<real>) {
    match (x, y)
    case (None, None) => true
    case (None, Some(_)) => nullsFirst
    case (Some(_), None) => !nullsFirst
    case (Some(a), Some(b)) => a >= b
  }

  /** `ORDER BY priority DESC, performance_score DESC` of the preset queries. */
  predicate PresetBefore(nullsFirst: bool, a: Preset, b: Preset) {
    a.priority > b.priority ||
    (a.priority == b.priority && DescLe(nullsFirst, a.performanceScore, b.performanceScore))
  }

  function PresetOrder(nullsFirst: bool): (Preset, Preset) -> bool {
    (a, b) => PresetBefore(nullsFirst, a, b)
  }

  /** `ORDER BY performance_score DESC NULLS LAST, price ASC` of the alternatives query. */
  predicate ProductBefore(a: Product, b: Product) {
    (DescLe(false, a.performanceScore, b.performanceScore) && a.performanceScore != b.performanceScore) ||
    (a.performanceScore == b.performanceScore && a.price <= b.price)
  }

  function ProductOrder(): (Product, Product) -> bool {
    (a, b) => ProductBefore(a, b)
  }

  lemma PresetOrderIsPreorder(nullsFirst: bool)
    ensures TotalPreorder(PresetOrder(nullsFirst))
  {
  }

  lemma ProductOrderIsPreorder()
    ensures TotalPreorder(ProductOrder())
  {
  }

  /** Along a sorted preset list priority never rises, and within one priority a present score never rises. */
  lemma PresetOrderMeaning(nullsFirst: bool, s: seq<Preset>, i: int, j: int)
    requires Sorted(s, PresetOrder(nullsFirst))
    requires 0 <= i < j < |s|
    ensures s[i].priority >= s[j].priority
    ensures s[i].priority == s[j].priority && s[i].performanceScore.Some? && s[j].performanceScore.Some? ==>
      s[i].performanceScore.value >= s[j].performanceScore.value
    ensures s[i].priority == s[j].priority && s[i].performanceScore.None? && s[j].performanceScore.Some? ==> nullsFirst
  {
    assert PresetOrder(nullsFirst)(s[i], s[j]);
  }

  /** Along a sorted product list scored rows come first by falling score, then the unscored; ties by rising price. */
  lemma ProductOrderMeaning(s: seq<Product>, i: int, j: int)
    requires Sorted(s, ProductOrder())
    requires 0 <= i < j < |s|
    ensures s[i].performanceScore.None? ==> s[j].performanceScore.None?
    ensures s[i].performanceScore.Some? && s[j].performanceScore.Some? ==>
      s[i].performanceScore.value >= s[j].performanceScore.value
    ensures s[i].performanceScore == s[j].performanceScore ==> s[i].price <= s[j].price
  {
    assert ProductOrder()(s[i], s[j]);
  }
}
