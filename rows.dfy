/**
 * Generic operations on the rows of a table or a list: the SQL `WHERE` /
 * Kotlin `filter`, `SUM` / `sumOf`, `ORDER BY ... DESC` / `sortedByDescending`
 * (a stable sort), `LIMIT 1`, and the keyed writes that Room generates for
 * `@Insert(onConflict = REPLACE)`, `@Insert`, `@Update` and `@Delete`.
 *
 * A table is a sequence of rows in storage order; `key` extracts the primary key.
 */
module Rows {
  import opened Wrappers

  /* ---------------- filter ---------------- */

  /** The rows of `s` that satisfy `p`, in their original order. */
  function Filter<R(!new)>(s: seq<R>, p: R -> bool): (r: seq<R>)
    ensures |r| <= |s|
    ensures forall x :: x in r <==> x in s && p(x)
  {
    if s == [] then [] else (if p(s[0]) then [s[0]] else []) + Filter(s[1..], p)
  }

  lemma FilterCons<R(!new)>(x: R, s: seq<R>, p: R -> bool)
    ensures Filter([x] + s, p) == (if p(x) then [x] else []) + Filter(s, p)
  {
    assert ([x] + s)[1..] == s;
  }

  lemma {:induction false} FilterAppend<R(!new)>(a: seq<R>, b: seq<R>, p: R -> bool)
    ensures Filter(a + b, p) == Filter(a, p) + Filter(b, p)
  {
    if a == [] {
      assert a + b == b;
    } else {
      assert a + b == [a[0]] + (a[1..] + b);
      FilterCons(a[0], a[1..] + b, p);
      FilterAppend(a[1..], b, p);
      assert a == [a[0]] + a[1..];
      FilterCons(a[0], a[1..], p);
    }
  }

  /** Two conditions that agree on every row select the same rows. */
  lemma {:induction false} FilterExt<R(!new)>(s: seq<R>, p: R -> bool, q: R -> bool)
    requires forall x :: x in s ==> p(x) == q(x)
    ensures Filter(s, p) == Filter(s, q)
  {
    if s != [] {
      FilterExt(s[1..], p, q);
    }
  }

  /** Filtering twice is filtering once by the conjunction. */
  lemma {:induction false} FilterFilter<R(!new)>(s: seq<R>, p: R -> bool, q: R -> bool, pq: R -> bool)
    requires forall x :: pq(x) == (p(x) && q(x))
    ensures Filter(Filter(s, p), q) == Filter(s, pq)
  {
    if s != [] {
      FilterFilter(s[1..], p, q, pq);
      var rest := Filter(s[1..], p);
      if p(s[0]) {
        assert Filter(s, p) == [s[0]] + rest;
        FilterCons(s[0], rest, q);
      } else {
        assert Filter(s, p) == rest;
      }
    }
  }

  lemma {:induction false} FilterMultiset<R(!new)>(s: seq<R>, p: R -> bool)
    ensures multiset(Filter(s, p)) <= multiset(s)
  {
    if s != [] {
      FilterMultiset(s[1..], p);
      assert s == [s[0]] + s[1..];
    }
  }

  /* ---------------- sums ---------------- */

  /** `sumOf { f(it) }`; 0 for an empty list. */
  function Sum<R(!new)>(s: seq<R>, f: R -> real): real
  {
    if s == [] then 0.0 else f(s[0]) + Sum(s[1..], f)
  }

  lemma SumCons<R(!new)>(x: R, s: seq<R>, f: R -> real)
    ensures Sum([x] + s, f) == f(x) + Sum(s, f)
  {
    assert ([x] + s)[1..] == s;
  }

  lemma {:induction false} SumAppend<R(!new)>(a: seq<R>, b: seq<R>, f: R -> real)
    ensures Sum(a + b, f) == Sum(a, f) + Sum(b, f)
  {
    if a == [] {
      assert a + b == b;
    } else {
      assert a + b == [a[0]] + (a[1..] + b);
      SumCons(a[0], a[1..] + b, f);
      SumAppend(a[1..], b, f);
    }
  }

  /** Splitting a list by two disjoint conditions splits its sum. */
  lemma {:induction false} SumFilterUnion<R(!new)>(s: seq<R>, p: R -> bool, q: R -> bool, pq: R -> bool, f: R -> real)
    requires forall x :: pq(x) == (p(x) || q(x))
    requires forall x :: !(p(x) && q(x))
    ensures Sum(Filter(s, pq), f) == Sum(Filter(s, p), f) + Sum(Filter(s, q), f)
  {
    if s != [] {
      SumFilterUnion(s[1..], p, q, pq, f);
      if p(s[0]) {
        assert Filter(s, pq) == [s[0]] + Filter(s[1..], pq);
        assert Filter(s, p) == [s[0]] + Filter(s[1..], p);
        assert Filter(s, q) == Filter(s[1..], q);
        SumCons(s[0], Filter(s[1..], pq), f);
        SumCons(s[0], Filter(s[1..], p), f);
      } else if q(s[0]) {
        assert Filter(s, pq) == [s[0]] + Filter(s[1..], pq);
        assert Filter(s, q) == [s[0]] + Filter(s[1..], q);
        assert Filter(s, p) == Filter(s[1..], p);
        SumCons(s[0], Filter(s[1..], pq), f);
        SumCons(s[0], Filter(s[1..], q), f);
      } else {
        assert Filter(s, pq) == Filter(s[1..], pq);
        assert Filter(s, p) == Filter(s[1..], p);
        assert Filter(s, q) == Filter(s[1..], q);
      }
    }
  }

  /* ---------------- count ---------------- */

  /** SQL `COUNT(*)`: how many rows satisfy `p`, counted one row at a time. */
  function Count<R(!new)>(s: seq<R>, p: R -> bool): nat
  {
    if s == [] then 0 else (if p(s[0]) then 1 else 0) + Count(s[1..], p)
  }

  /** Counting the rows is taking the length of the filtered list. */
  lemma {:induction false} CountIsFilterLength<R(!new)>(s: seq<R>, p: R -> bool)
    ensures Count(s, p) == |Filter(s, p)|
  {
    if s != [] {
      CountIsFilterLength(s[1..], p);
    }
  }

  /** Some row is counted exactly when some row satisfies `p`. */
  lemma CountPositive<R(!new)>(s: seq<R>, p: R -> bool)
    ensures Count(s, p) > 0 <==> exists x :: x in s && p(x)
  {
    CountIsFilterLength(s, p);
    var f := Filter(s, p);
    assert f != [] ==> f[0] in f;
  }

  /** Counting two lists one after the other. */
  lemma CountAppend<R(!new)>(a: seq<R>, b: seq<R>, p: R -> bool)
    ensures Count(a + b, p) == Count(a, p) + Count(b, p)
  {
    CountIsFilterLength(a + b, p);
    CountIsFilterLength(a, p);
    CountIsFilterLength(b, p);
    FilterAppend(a, b, p);
  }

  /** A list whose rows all weigh nothing or less sums to nothing or less. */
  lemma {:induction false} SumNonPositive<R(!new)>(s: seq<R>, f: R -> real)
    requires forall x :: x in s ==> f(x) <= 0.0
    ensures Sum(s, f) <= 0.0
  {
    if s != [] {
      assert s[0] in s;
      SumNonPositive(s[1..], f);
    }
  }

  /* ---------------- stable sort ---------------- */

  /** Each row outranks or ties with the next one. */
  predicate SortedDesc<R(!new)>(s: seq<R>, rank: R -> real)
  {
    |s| <= 1 || (rank(s[0]) >= rank(s[1]) && SortedDesc(s[1..], rank))
  }

  /** In a sorted list the first row outranks or ties with every row. */
  lemma {:induction false} SortedDescHead<R(!new)>(s: seq<R>, rank: R -> real, y: R)
    requires SortedDesc(s, rank) && y in s
    ensures rank(y) <= rank(s[0])
  {
    if y != s[0] {
      assert y in s[1..];
      SortedDescHead(s[1..], rank, y);
    }
  }

  /** Sortedness read pairwise: every earlier row outranks or ties with every later one. */
  lemma {:induction false} SortedDescPairs<R(!new)>(s: seq<R>, rank: R -> real)
    requires SortedDesc(s, rank)
    ensures forall i, j :: 0 <= i < j < |s| ==> rank(s[i]) >= rank(s[j])
  {
    if |s| > 1 {
      SortedDescPairs(s[1..], rank);
      forall i, j | 0 <= i < j < |s| ensures rank(s[i]) >= rank(s[j]) {
        if i > 0 {
          assert s[i] == s[1..][i - 1] && s[j] == s[1..][j - 1];
        } else {
          SortedDescHead(s, rank, s[j]);
        }
      }
    }
  }

  /** Places `x` before the first row that does not outrank it, so `x` precedes its equals. */
  function InsertDesc<R(!new)>(x: R, s: seq<R>, rank: R -> real): (r: seq<R>)
    ensures |r| == |s| + 1
  {
    if s == [] || rank(s[0]) <= rank(x) then [x] + s
    else [s[0]] + InsertDesc(x, s[1..], rank)
  }

  lemma {:induction false} InsertDescMultiset<R(!new)>(x: R, s: seq<R>, rank: R -> real)
    ensures multiset(InsertDesc(x, s, rank)) == multiset(s) + multiset{x}
  {
    if s != [] && rank(s[0]) > rank(x) {
      InsertDescMultiset(x, s[1..], rank);
      assert s == [s[0]] + s[1..];
    }
  }

  lemma {:induction false} SumInsertDesc<R(!new)>(x: R, s: seq<R>, rank: R -> real, f: R -> real)
    ensures Sum(InsertDesc(x, s, rank), f) == f(x) + Sum(s, f)
  {
    if s == [] || rank(s[0]) <= rank(x) {
      SumCons(x, s, f);
    } else {
      SumInsertDesc(x, s[1..], rank, f);
      SumCons(s[0], InsertDesc(x, s[1..], rank), f);
      assert s == [s[0]] + s[1..];
      SumCons(s[0], s[1..], f);
    }
  }

  lemma {:induction false} InsertDescSorted<R(!new)>(x: R, s: seq<R>, rank: R -> real)
    requires SortedDesc(s, rank)
    ensures SortedDesc(InsertDesc(x, s, rank), rank)
  {
    if s != [] && rank(s[0]) > rank(x) {
      var tail := InsertDesc(x, s[1..], rank);
      InsertDescSorted(x, s[1..], rank);
      var r := [s[0]] + tail;
      assert r[1..] == tail;
      if |s| > 1 && rank(s[1]) > rank(x) {
        assert tail[0] == s[1];
      } else {
        assert tail[0] == x;
      }
    }
  }

  /**
   * `sortedByDescending { rank(it) }`: an insertion sort, stable because
   * each row is inserted in front of the rows it ties with.
   */
  function SortDesc<R(!new)>(s: seq<R>, rank: R -> real): (r: seq<R>)
    ensures |r| == |s|
    ensures SortedDesc(r, rank)
  {
    if s == [] then [] else
      InsertDescSorted(s[0], SortDesc(s[1..], rank), rank);
      InsertDesc(s[0], SortDesc(s[1..], rank), rank)
  }

  /** The sort is a permutation: it keeps every row, as many times as it occurs. */
  lemma {:induction false} SortDescPermutation<R(!new)>(s: seq<R>, rank: R -> real)
    ensures multiset(SortDesc(s, rank)) == multiset(s)
  {
    if s != [] {
      SortDescPermutation(s[1..], rank);
      InsertDescMultiset(s[0], SortDesc(s[1..], rank), rank);
      assert s == [s[0]] + s[1..];
    }
  }

  /** The sort keeps exactly the rows it was given. */
  lemma SortDescMembers<R(!new)>(s: seq<R>, rank: R -> real)
    ensures forall x :: x in SortDesc(s, rank) <==> x in s
  {
    SortDescPermutation(s, rank);
    forall x ensures x in SortDesc(s, rank) <==> x in s {
      assert x in SortDesc(s, rank) <==> x in multiset(SortDesc(s, rank));
      assert x in s <==> x in multiset(s);
    }
  }

  /** Sorting does not change a sum. */
  lemma {:induction false} SumSortDesc<R(!new)>(s: seq<R>, rank: R -> real, f: R -> real)
    ensures Sum(SortDesc(s, rank), f) == Sum(s, f)
  {
    if s != [] {
      SumSortDesc(s[1..], rank, f);
      SumInsertDesc(s[0], SortDesc(s[1..], rank), rank, f);
      assert s == [s[0]] + s[1..];
      SumCons(s[0], s[1..], f);
    }
  }

  lemma {:induction false} FilterInsertDesc<R(!new)>(x: R, s: seq<R>, rank: R -> real, p: R -> bool)
    requires SortedDesc(s, rank)
    ensures Filter(InsertDesc(x, s, rank), p)
         == if p(x) then InsertDesc(x, Filter(s, p), rank) else Filter(s, p)
    decreases |s|, 1
  {
    if s == [] || rank(s[0]) <= rank(x) {
      assert InsertDesc(x, s, rank) == [x] + s;
      FilterCons(x, s, p);
      var fs := Filter(s, p);
      if fs != [] {
        assert fs[0] in fs;
        SortedDescHead(s, rank, fs[0]);
      }
      if p(x) {
        assert InsertDesc(x, fs, rank) == [x] + fs;
      } else {
        assert [] + fs == fs;
      }
    } else {
      FilterInsertDescBelow(x, s, rank, p);
    }
  }

  lemma {:induction false} FilterInsertDescBelow<R(!new)>(x: R, s: seq<R>, rank: R -> real, p: R -> bool)
    requires SortedDesc(s, rank)
    requires s != [] && rank(s[0]) > rank(x)
    ensures Filter(InsertDesc(x, s, rank), p)
         == if p(x) then InsertDesc(x, Filter(s, p), rank) else Filter(s, p)
    decreases |s|, 0
  {
    var s0, s1 := s[0], s[1..];
    var t1 := InsertDesc(x, s1, rank);
    assert InsertDesc(x, s, rank) == [s0] + t1;
    assert SortedDesc(s1, rank);
    FilterInsertDesc(x, s1, rank, p);
    FilterCons(s0, t1, p);
    assert s == [s0] + s1;
    FilterCons(s0, s1, p);
    var f1, ft := Filter(s1, p), Filter(t1, p);
    var head: seq<R> := if p(s0) then [s0] else [];
    assert Filter(InsertDesc(x, s, rank), p) == head + ft;
    assert Filter(s, p) == head + f1;
    if p(x) {
      assert ft == InsertDesc(x, f1, rank);
      if p(s0) {
        assert (head + f1)[0] == s0 && (head + f1)[1..] == f1;
        assert InsertDesc(x, head + f1, rank) == head + InsertDesc(x, f1, rank);
      } else {
        assert head + f1 == f1 && head + ft == ft;
      }
    } else {
      assert ft == f1;
    }
  }

  /** Filtering commutes with the stable sort: the sort keeps the relative order of the kept rows. */
  lemma {:induction false} FilterSortDesc<R(!new)>(s: seq<R>, rank: R -> real, p: R -> bool)
    ensures Filter(SortDesc(s, rank), p) == SortDesc(Filter(s, p), rank)
  {
    if s != [] {
      var s0, s1 := s[0], s[1..];
      var t1 := SortDesc(s1, rank);
      assert SortDesc(s, rank) == InsertDesc(s0, t1, rank);
      FilterSortDesc(s1, rank, p);
      FilterInsertDesc(s0, t1, rank, p);
      assert s == [s0] + s1;
      FilterCons(s0, s1, p);
      var f1 := Filter(s1, p);
      if p(s0) {
        var fs := [s0] + f1;
        assert Filter(s, p) == fs;
        assert fs[0] == s0 && fs[1..] == f1;
        assert SortDesc(fs, rank) == InsertDesc(s0, SortDesc(f1, rank), rank);
      } else {
        assert Filter(s, p) == f1;
      }
    }
  }

  /** Sorting does not change a count. */
  lemma CountSortDesc<R(!new)>(s: seq<R>, rank: R -> real, p: R -> bool)
    ensures Count(SortDesc(s, rank), p) == Count(s, p)
  {
    FilterSortDesc(s, rank, p);
    CountIsFilterLength(SortDesc(s, rank), p);
    CountIsFilterLength(s, p);
  }

  /** Sorting a list that is already sorted leaves it as it is. */
  lemma {:induction false} SortDescOfSorted<R(!new)>(s: seq<R>, rank: R -> real)
    requires SortedDesc(s, rank)
    ensures SortDesc(s, rank) == s
  {
    if s != [] {
      SortDescOfSorted(s[1..], rank);
      assert s == [s[0]] + s[1..];
    }
  }

  /** A list whose rows all tie is left as it is. */
  lemma {:induction false} SortDescOfTies<R(!new)>(s: seq<R>, rank: R -> real, k: real)
    requires forall x :: x in s ==> rank(x) == k
    ensures SortDesc(s, rank) == s
  {
    if s != [] {
      SortDescOfTies(s[1..], rank, k);
    }
  }

  /** The rank that selects the rows tying at `k`. */
  function RankIs<R(!new)>(rank: R -> real, k: real): R -> bool
  {
    x => rank(x) == k
  }

  /** Stability: the rows that tie at any rank keep their original relative order. */
  lemma SortDescStable<R(!new)>(s: seq<R>, rank: R -> real, k: real)
    ensures Filter(SortDesc(s, rank), RankIs(rank, k)) == Filter(s, RankIs(rank, k))
  {
    FilterSortDesc(s, rank, RankIs(rank, k));
    SortDescOfTies(Filter(s, RankIs(rank, k)), rank, k);
  }

  /* ---------------- LIMIT 1 ---------------- */

  /** The first row (in storage order) that satisfies `p`. */
  function FirstWhere<R(!new)>(s: seq<R>, p: R -> bool): (r: Option<R>)
    ensures r.None? <==> forall x :: x in s ==> !p(x)
    ensures r.Some? ==> r.value in s && p(r.value)
    ensures r.Some? ==> exists i :: 0 <= i < |s| && s[i] == r.value && forall j :: 0 <= j < i ==> !p(s[j])
  {
    if s == [] then None
    else if p(s[0]) then Some(s[0])
    else
      var r := FirstWhere(s[1..], p);
      assert r.Some? ==> exists i :: 1 <= i < |s| && s[i] == r.value && forall j :: 1 <= j < i ==> !p(s[j]) by {
        if r.Some? {
          var i :| 0 <= i < |s[1..]| && s[1..][i] == r.value && forall j :: 0 <= j < i ==> !p(s[1..][j]);
          assert s[i + 1] == r.value;
          forall j | 1 <= j < i + 1 ensures !p(s[j]) { assert s[j] == s[1..][j - 1]; }
        }
      }
      r
  }

  /* ---------------- keyed tables ---------------- */

  /** The primary key is unique. */
  predicate UniqueKeys<R(!new)>(t: seq<R>, key: R -> int)
  {
    forall i, j :: 0 <= i < |t| && 0 <= j < |t| && key(t[i]) == key(t[j]) ==> i == j
  }

  predicate HasKey<R(!new)>(t: seq<R>, key: R -> int, k: int)
  {
    exists i :: 0 <= i < |t| && key(t[i]) == k
  }

  /** Every key is at most `n` (the AUTOINCREMENT counter). */
  predicate KeysAtMost<R(!new)>(t: seq<R>, key: R -> int, n: int)
  {
    forall i :: 0 <= i < |t| ==> key(t[i]) <= n
  }

  /** The key an insert stores: Room treats an id of 0 as "not set" and SQLite assigns counter + 1. */
  function AutoKey(id: int, counter: int): (k: int)
    ensures id != 0 ==> k == id
    ensures id == 0 ==> k > counter
  {
    if id == 0 then counter + 1 else id
  }

  /** The AUTOINCREMENT counter after storing key `k`. */
  function NextCounter(counter: int, k: int): (c: int)
    ensures c >= counter && c >= k
    ensures c == counter || c == k
  {
    if k > counter then k else counter
  }

  /** Every row with the key of `r` becomes `r`; the others stay (Room `@Update`). */
  function Overwrite<R(!new)>(t: seq<R>, key: R -> int, r: R): seq<R>
  {
    seq(|t|, i requires 0 <= i < |t| => if key(t[i]) == key(r) then r else t[i])
  }

  /** `@Insert(onConflict = REPLACE)`: overwrite the row with the same key in place, or append. */
  function Upsert<R(!new)>(t: seq<R>, key: R -> int, r: R): seq<R>
  {
    if HasKey(t, key, key(r)) then Overwrite(t, key, r) else t + [r]
  }

  /** `@Delete`: remove the row with key `k`. */
  function Remove<R(!new)>(t: seq<R>, key: R -> int, k: int): seq<R>
  {
    Filter(t, x => key(x) != k)
  }

  /** `@Insert` with the default ABORT strategy: a key clash is an error and nothing is written. */
  function InsertOrAbort<R(!new)>(t: seq<R>, key: R -> int, r: R): Option<seq<R>>
  {
    if HasKey(t, key, key(r)) then None else Some(t + [r])
  }

  lemma OverwriteSpec<R(!new)>(t: seq<R>, key: R -> int, r: R)
    requires UniqueKeys(t, key)
    ensures UniqueKeys(Overwrite(t, key, r), key)
    ensures forall x :: x in Overwrite(t, key, r) <==>
              (x == r && HasKey(t, key, key(r))) || (x in t && key(x) != key(r))
  {
    var u := Overwrite(t, key, r);
    forall x ensures x in u <==> (x == r && HasKey(t, key, key(r))) || (x in t && key(x) != key(r)) {
      if x in u {
        var i :| 0 <= i < |u| && u[i] == x;
      }
      if x in t && key(x) != key(r) {
        var i :| 0 <= i < |t| && t[i] == x;
        assert u[i] == x;
      }
      if x == r && HasKey(t, key, key(r)) {
        var i :| 0 <= i < |t| && key(t[i]) == key(r);
        assert u[i] == r;
      }
    }
  }

  /** REPLACE: the new row is present, the row it clashes with is gone, every other row stays. */
  lemma UpsertSpec<R(!new)>(t: seq<R>, key: R -> int, r: R)
    requires UniqueKeys(t, key)
    ensures UniqueKeys(Upsert(t, key, r), key)
    ensures r in Upsert(t, key, r)
    ensures forall x :: x in Upsert(t, key, r) <==> x == r || (x in t && key(x) != key(r))
    ensures |Upsert(t, key, r)| == if HasKey(t, key, key(r)) then |t| else |t| + 1
  {
    if HasKey(t, key, key(r)) {
      OverwriteSpec(t, key, r);
    } else {
      var u := t + [r];
      assert forall i :: 0 <= i < |t| ==> key(t[i]) != key(r);
      assert forall i :: 0 <= i < |t| ==> u[i] == t[i];
      forall x | x in t ensures key(x) != key(r) {
        var i :| 0 <= i < |t| && t[i] == x;
      }
    }
  }

  /** With a fresh key the insert appends: the old table is a prefix of the new one. */
  lemma UpsertFreshAppends<R(!new)>(t: seq<R>, key: R -> int, r: R, n: int)
    requires KeysAtMost(t, key, n) && key(r) > n
    ensures Upsert(t, key, r) == t + [r]
  {
  }

  /** Deleting removes exactly the rows with that key. */
  lemma RemoveSpec<R(!new)>(t: seq<R>, key: R -> int, k: int)
    requires UniqueKeys(t, key)
    ensures UniqueKeys(Remove(t, key, k), key)
    ensures forall x :: x in Remove(t, key, k) <==> x in t && key(x) != k
    ensures !HasKey(Remove(t, key, k), key, k)
    ensures |Remove(t, key, k)| == if HasKey(t, key, k) then |t| - 1 else |t|
  {
    FilterKeepsUnique(t, key, x => key(x) != k);
    var u := Remove(t, key, k);
    forall i | 0 <= i < |u| ensures key(u[i]) != k {
      assert u[i] in u;
    }
    RemoveLength(t, key, k);
  }

  lemma {:induction false} FilterKeepsUnique<R(!new)>(t: seq<R>, key: R -> int, p: R -> bool)
    requires UniqueKeys(t, key)
    ensures UniqueKeys(Filter(t, p), key)
  {
    if t != [] {
      assert UniqueKeys(t[1..], key) by {
        forall i, j | 0 <= i < |t[1..]| && 0 <= j < |t[1..]| && key(t[1..][i]) == key(t[1..][j])
          ensures i == j
        {
          assert t[1..][i] == t[i + 1] && t[1..][j] == t[j + 1];
        }
      }
      FilterKeepsUnique(t[1..], key, p);
      var rest := Filter(t[1..], p);
      if p(t[0]) {
        forall y | y in rest ensures key(y) != key(t[0]) {
          var m :| 0 <= m < |t[1..]| && t[1..][m] == y;
          assert t[m + 1] == y;
        }
        var u := [t[0]] + rest;
        assert forall j :: 1 <= j < |u| ==> u[j] == rest[j - 1];
        assert forall j :: 1 <= j < |u| ==> key(u[j]) != key(u[0]);
      }
    }
  }

  lemma {:induction false} RemoveLength<R(!new)>(t: seq<R>, key: R -> int, k: int)
    requires UniqueKeys(t, key)
    ensures |Remove(t, key, k)| == if HasKey(t, key, k) then |t| - 1 else |t|
  {
    if t != [] {
      assert UniqueKeys(t[1..], key) by {
        forall i, j | 0 <= i < |t[1..]| && 0 <= j < |t[1..]| && key(t[1..][i]) == key(t[1..][j])
          ensures i == j
        {
          assert t[1..][i] == t[i + 1] && t[1..][j] == t[j + 1];
        }
      }
      RemoveLength(t[1..], key, k);
      assert Remove(t, key, k) == (if key(t[0]) != k then [t[0]] else []) + Remove(t[1..], key, k);
      if key(t[0]) == k {
        forall i | 0 <= i < |t[1..]| ensures key(t[1..][i]) != k {
          assert t[1..][i] == t[i + 1];
        }
      } else {
        if HasKey(t, key, k) {
          var i :| 0 <= i < |t| && key(t[i]) == k;
          assert key(t[1..][i - 1]) == k;
        }
        if HasKey(t[1..], key, k) {
          var i :| 0 <= i < |t[1..]| && key(t[1..][i]) == k;
          assert key(t[i + 1]) == k;
        }
      }
    }
  }

  /** Dropping the first row keeps the keys unique. */
  lemma UniqueKeysTail<R(!new)>(t: seq<R>, key: R -> int)
    requires UniqueKeys(t, key) && t != []
    ensures UniqueKeys(t[1..], key)
    ensures forall x :: x in t[1..] ==> key(x) != key(t[0])
  {
    forall i, j | 0 <= i < |t[1..]| && 0 <= j < |t[1..]| && key(t[1..][i]) == key(t[1..][j])
      ensures i == j
    {
      assert t[1..][i] == t[i + 1] && t[1..][j] == t[j + 1];
    }
    forall x | x in t[1..] ensures key(x) != key(t[0]) {
      var i :| 0 <= i < |t[1..]| && t[1..][i] == x;
      assert t[i + 1] == x;
    }
  }

  /** Deleting a key no row has changes nothing. */
  lemma {:induction false} RemoveMissing<R(!new)>(t: seq<R>, key: R -> int, k: int)
    requires forall x :: x in t ==> key(x) != k
    ensures Remove(t, key, k) == t
  {
    if t != [] {
      assert Remove(t, key, k) == [t[0]] + Remove(t[1..], key, k);
      RemoveMissing(t[1..], key, k);
    }
  }

  /** Updating a key no row has changes nothing. */
  lemma OverwriteMissing<R(!new)>(t: seq<R>, key: R -> int, r: R)
    requires forall x :: x in t ==> key(x) != key(r)
    ensures Overwrite(t, key, r) == t
  {
    forall i | 0 <= i < |t| ensures Overwrite(t, key, r)[i] == t[i] {
      assert t[i] in t;
    }
  }

  /** A REPLACE insert always stores its row. */
  lemma UpsertStores<R(!new)>(t: seq<R>, key: R -> int, r: R)
    ensures r in Upsert(t, key, r)
  {
    if HasKey(t, key, key(r)) {
      var i :| 0 <= i < |t| && key(t[i]) == key(r);
      assert Overwrite(t, key, r)[i] == r;
    } else {
      assert (t + [r])[|t|] == r;
    }
  }

  /** A REPLACE insert keeps the keys unique and within the counter when the new key is. */
  lemma UpsertBound<R(!new)>(t: seq<R>, key: R -> int, r: R, n: int)
    requires UniqueKeys(t, key) && KeysAtMost(t, key, n) && key(r) <= n
    ensures UniqueKeys(Upsert(t, key, r), key) && KeysAtMost(Upsert(t, key, r), key, n)
  {
    UpsertSpec(t, key, r);
    var u := Upsert(t, key, r);
    forall i | 0 <= i < |u| ensures key(u[i]) <= n {
      assert u[i] in u;
      if u[i] != r {
        var j :| 0 <= j < |t| && t[j] == u[i];
      }
    }
  }

  /** An update keeps the keys unique and within the counter. */
  lemma OverwriteBound<R(!new)>(t: seq<R>, key: R -> int, r: R, n: int)
    requires UniqueKeys(t, key) && KeysAtMost(t, key, n)
    ensures UniqueKeys(Overwrite(t, key, r), key) && KeysAtMost(Overwrite(t, key, r), key, n)
  {
    OverwriteSpec(t, key, r);
  }

  /** A delete keeps the keys unique and within the counter. */
  lemma RemoveBound<R(!new)>(t: seq<R>, key: R -> int, k: int, n: int)
    requires UniqueKeys(t, key) && KeysAtMost(t, key, n)
    ensures UniqueKeys(Remove(t, key, k), key) && KeysAtMost(Remove(t, key, k), key, n)
  {
    RemoveSpec(t, key, k);
    var u := Remove(t, key, k);
    forall i | 0 <= i < |u| ensures key(u[i]) <= n {
      assert u[i] in u;
      var j :| 0 <= j < |t| && t[j] == u[i];
    }
  }

  /** ABORT: on a clash nothing is written; otherwise the row is appended. */
  lemma InsertOrAbortSpec<R(!new)>(t: seq<R>, key: R -> int, r: R)
    requires UniqueKeys(t, key)
    ensures InsertOrAbort(t, key, r).None? <==> exists x :: x in t && key(x) == key(r)
    ensures InsertOrAbort(t, key, r).Some? ==>
              InsertOrAbort(t, key, r).value == t + [r] && UniqueKeys(t + [r], key)
  {
    if HasKey(t, key, key(r)) {
      var i :| 0 <= i < |t| && key(t[i]) == key(r);
      assert t[i] in t;
    } else {
      UpsertSpec(t, key, r);
    }
  }
}
