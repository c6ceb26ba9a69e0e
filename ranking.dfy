/**
 * Ordering of result lists. The store's `orderBy: ... 'desc'` and JavaScript's stable
 * `Array.prototype.sort` both put the rows in descending order of a key; the model sorts
 * by insertion, which keeps equal rows in their input order.
 */
module Ranking {
  import opened Wrappers

  /** `ge(a, b)`: `a` may come before `b`. Any two values compare, and comparison chains. */
  ghost predicate TotalPreorder<T(!new)>(ge: (T, T) -> bool)
  {
    && (forall a, b :: ge(a, b) || ge(b, a))
    && (forall a, b, c :: ge(a, b) && ge(b, c) ==> ge(a, c))
  }

  ghost predicate SortedDesc<T>(s: seq<T>, ge: (T, T) -> bool)
  {
    forall i, j :: 0 <= i < j < |s| ==> ge(s[i], s[j])
  }

  /** Put `x` in front of the first element it is not below. */
  function Insert<T>(x: T, s: seq<T>, ge: (T, T) -> bool): (r: seq<T>)
    ensures multiset(r) == multiset(s) + multiset{x}
    ensures |r| == |s| + 1
  {
    if s == [] || ge(x, s[0]) then [x] + s
    else
      var t := Insert(x, s[1..], ge);
      assert s == [s[0]] + s[1..];
      [s[0]] + t
  }

  function Sort<T>(s: seq<T>, ge: (T, T) -> bool): (r: seq<T>)
    ensures multiset(r) == multiset(s)
    ensures |r| == |s|
  {
    if s == [] then []
    else
      assert s == [s[0]] + s[1..];
      Insert(s[0], Sort(s[1..], ge), ge)
  }

  lemma {:induction false} InsertSorted<T(!new)>(x: T, s: seq<T>, ge: (T, T) -> bool)
    requires TotalPreorder(ge)
    requires SortedDesc(s, ge)
    ensures SortedDesc(Insert(x, s, ge), ge)
  {
    if s == [] || ge(x, s[0]) {
      var r := [x] + s;
      forall i, j | 0 <= i < j < |r| ensures ge(r[i], r[j]) {
        if i == 0 && j > 1 {
          assert ge(x, s[0]) && ge(s[0], s[j - 1]);
        }
      }
    } else {
      assert ge(s[0], x);
      InsertSorted(x, s[1..], ge);
      var t := Insert(x, s[1..], ge);
      var r := [s[0]] + t;
      forall j | 0 <= j < |t| ensures ge(s[0], t[j]) {
        assert t[j] in multiset(t);
        assert t[j] in multiset(s[1..]) + multiset{x};
        if t[j] != x {
          assert t[j] in multiset(s[1..]);
          var k :| 0 <= k < |s[1..]| && s[1..][k] == t[j];
          assert s[k + 1] == t[j];
        }
      }
      forall i, j | 0 <= i < j < |r| ensures ge(r[i], r[j]) {
        if i > 0 {
          assert ge(t[i - 1], t[j - 1]);
        }
      }
    }
  }

  /** Sort returns its input in descending order. */
  lemma {:induction false} SortSorted<T(!new)>(s: seq<T>, ge: (T, T) -> bool)
    requires TotalPreorder(ge)
    ensures SortedDesc(Sort(s, ge), ge)
  {
    if s != [] {
      SortSorted(s[1..], ge);
      InsertSorted(s[0], Sort(s[1..], ge), ge);
    }
  }

  /** The first `n` rows of the sorted list: `orderBy` followed by `take: n`. */
  function Top<T>(s: seq<T>, ge: (T, T) -> bool, n: nat): (r: seq<T>)
    ensures |r| == if n < |s| then n else |s|
    ensures multiset(r) <= multiset(s)
  {
    var sorted := Sort(s, ge);
    if n < |sorted| then
      assert sorted == sorted[..n] + sorted[n..];
      sorted[..n]
    else sorted
  }

  /** The last `n` rows of the sorted list: `orderBy` followed by a negative `take`. */
  function Bottom<T>(s: seq<T>, ge: (T, T) -> bool, n: nat): (r: seq<T>)
    ensures |r| == if n < |s| then n else |s|
    ensures multiset(r) <= multiset(s)
  {
    var sorted := Sort(s, ge);
    if n < |sorted| then
      assert sorted == sorted[..|sorted| - n] + sorted[|sorted| - n..];
      sorted[|sorted| - n..]
    else sorted
  }

  /**
   * What `Top` keeps is sorted, and every row it leaves out ranks no higher than
   * every row it keeps.
   */
  lemma TopIsBest<T(!new)>(s: seq<T>, ge: (T, T) -> bool, n: nat)
    requires TotalPreorder(ge)
    ensures SortedDesc(Top(s, ge, n), ge)
    ensures forall x, y :: x in Top(s, ge, n) && y in multiset(s) - multiset(Top(s, ge, n)) ==> ge(x, y)
  {
    var sorted := Sort(s, ge);
    SortSorted(s, ge);
    var r := Top(s, ge, n);
    if n < |sorted| {
      assert sorted == r + sorted[n..];
      forall x, y | x in r && y in multiset(s) - multiset(r) ensures ge(x, y) {
        assert multiset(s) == multiset(r) + multiset(sorted[n..]);
        assert y in multiset(sorted[n..]);
        var i :| 0 <= i < |r| && r[i] == x;
        var j :| 0 <= j < |sorted[n..]| && sorted[n..][j] == y;
        assert sorted[i] == x && sorted[n + j] == y;
      }
    } else {
      assert multiset(s) - multiset(r) == multiset{};
    }
  }

  /** The position of the last row that `hit` accepts: a lookup by a key the store keeps unique. */
  function LastIndexWhere<T>(s: seq<T>, hit: T -> bool): (r: Option<nat>)
    ensures r.None? <==> forall i :: 0 <= i < |s| ==> !hit(s[i])
    ensures r.Some? ==> r.value < |s| && hit(s[r.value])
    ensures r.Some? ==> forall i :: r.value < i < |s| ==> !hit(s[i])
  {
    if s == [] then None
    else if hit(s[|s| - 1]) then Some(|s| - 1)
    else LastIndexWhere(s[..|s| - 1], hit)
  }

  /** The rows a `where` clause keeps, in their stored order. */
  function Filter<T(!new)>(s: seq<T>, keep: T -> bool): (r: seq<T>)
    ensures |r| <= |s|
    ensures forall x :: x in r <==> x in s && keep(x)
    ensures multiset(r) <= multiset(s)
  {
    if s == [] then []
    else
      assert s == [s[0]] + s[1..];
      if keep(s[0]) then [s[0]] + Filter(s[1..], keep) else Filter(s[1..], keep)
  }

  /** Filtering distributes over concatenation: rows are judged one at a time. */
  lemma {:induction false} FilterAppend<T(!new)>(a: seq<T>, b: seq<T>, keep: T -> bool)
    ensures Filter(a + b, keep) == Filter(a, keep) + Filter(b, keep)
  {
    if a != [] {
      var head := if keep(a[0]) then [a[0]] else [];
      assert (a + b)[0] == a[0] && (a + b)[1..] == a[1..] + b;
      assert Filter(a + b, keep) == head + Filter(a[1..] + b, keep);
      assert Filter(a, keep) == head + Filter(a[1..], keep);
      FilterAppend(a[1..], b, keep);
    } else {
      assert a + b == b;
    }
  }
}
