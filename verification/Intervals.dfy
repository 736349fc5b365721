/** Half-open intervals over integer microseconds, and the gaps-and-islands query that
    merges overlapping and touching ones (sql/016, analytics_healthy_source_intervals). */
module Intervals {
  import opened Common

  datatype Interval = Interval(lo: int, hi: int) {
    predicate Has(t: int) { lo <= t < hi }
    predicate NonEmpty() { lo < hi }
  }

  function Min(a: int, b: int): int { if a < b then a else b }
  function Max(a: int, b: int): int { if a < b then b else a }

  /** The point set of a bag of rows. */
  ghost predicate Covers(rows: seq<Interval>, t: int) {
    exists i :: 0 <= i < |rows| && rows[i].Has(t)
  }

  ghost predicate SamePoints(a: seq<Interval>, b: seq<Interval>) {
    forall t :: Covers(a, t) <==> Covers(b, t)
  }

  predicate AllNonEmpty(rows: seq<Interval>) {
    forall i :: 0 <= i < |rows| ==> rows[i].NonEmpty()
  }

  // ----- ORDER BY interval_start, interval_end -----

  predicate RowLeq(a: Interval, b: Interval) {
    a.lo < b.lo || (a.lo == b.lo && a.hi <= b.hi)
  }

  predicate Ordered(rows: seq<Interval>) {
    forall i, j :: 0 <= i < j < |rows| ==> RowLeq(rows[i], rows[j])
  }

  function InsertRow(x: Interval, rows: seq<Interval>): seq<Interval> {
    if rows == [] || RowLeq(x, rows[0]) then [x] + rows else [rows[0]] + InsertRow(x, rows[1..])
  }

  function SortRows(rows: seq<Interval>): seq<Interval> {
    if rows == [] then [] else InsertRow(rows[0], SortRows(rows[1..]))
  }

  lemma {:induction false} InsertRowMembers(x: Interval, rows: seq<Interval>)
    ensures multiset(InsertRow(x, rows)) == multiset(rows) + multiset{x}
  {
    if rows == [] || RowLeq(x, rows[0]) {
    } else {
      InsertRowMembers(x, rows[1..]);
      assert rows == [rows[0]] + rows[1..];
    }
  }

  lemma {:induction false} InsertRowOrdered(x: Interval, rows: seq<Interval>)
    requires Ordered(rows)
    ensures Ordered(InsertRow(x, rows))
  {
    if rows == [] || RowLeq(x, rows[0]) {
      var r := [x] + rows;
      forall i, j | 0 <= i < j < |r| ensures RowLeq(r[i], r[j]) {
        if i > 0 { assert RowLeq(rows[i - 1], rows[j - 1]); }
        else if j > 1 { assert RowLeq(rows[0], rows[j - 1]); }
      }
    } else {
      var rest := InsertRow(x, rows[1..]);
      InsertRowOrdered(x, rows[1..]);
      InsertRowMembers(x, rows[1..]);
      forall y | y in rest ensures RowLeq(rows[0], y) {
        assert y in multiset(rest);
        if y != x {
          assert y in multiset(rows[1..]);
          var k :| 0 <= k < |rows[1..]| && rows[1..][k] == y;
          assert RowLeq(rows[0], rows[k + 1]);
        }
      }
      PrependOrdered(rows[0], rest);
    }
  }

  lemma PrependOrdered(x: Interval, rest: seq<Interval>)
    requires Ordered(rest) && forall y :: y in rest ==> RowLeq(x, y)
    ensures Ordered([x] + rest)
  {
  }

  lemma {:induction false} SortRowsMeaning(rows: seq<Interval>)
    ensures Ordered(SortRows(rows)) && multiset(SortRows(rows)) == multiset(rows)
  {
    if rows != [] {
      SortRowsMeaning(rows[1..]);
      InsertRowOrdered(rows[0], SortRows(rows[1..]));
      InsertRowMembers(rows[0], SortRows(rows[1..]));
      assert rows == [rows[0]] + rows[1..];
    }
  }

  lemma MultisetMembers(a: seq<Interval>, b: seq<Interval>)
    requires multiset(a) == multiset(b)
    ensures forall x :: x in a <==> x in b
  {
    assert forall x :: x in a <==> x in multiset(a);
    assert forall x :: x in b <==> x in multiset(b);
  }

  /** Ties are identical rows, so the window order of a bag is unique. */
  lemma {:induction false} OrderedIsUnique(a: seq<Interval>, b: seq<Interval>)
    requires Ordered(a) && Ordered(b) && multiset(a) == multiset(b)
    ensures a == b
  {
    assert |a| == |multiset(a)| && |b| == |multiset(b)|;
    if a != [] {
      MultisetMembers(a, b);
      assert a[0] in b && b[0] in a;
      assert a[0] == b[0];
      assert a == [a[0]] + a[1..] && b == [b[0]] + b[1..];
      assert multiset(a[1..]) == multiset(a) - multiset{a[0]};
      assert multiset(b[1..]) == multiset(b) - multiset{b[0]};
      OrderedIsUnique(a[1..], b[1..]);
    }
  }

  // ----- the window functions, over rows already in window order -----

  /** max(interval_end) OVER (... ROWS BETWEEN UNBOUNDED PRECEDING AND 1 PRECEDING);
      n == 0 is SQL's NULL. */
  function PriorMaxEnd(r: seq<Interval>, n: nat): int
    requires 0 < n <= |r|
  {
    if n == 1 then r[0].hi else Max(PriorMaxEnd(r, n - 1), r[n - 1].hi)
  }

  predicate Opens(r: seq<Interval>, i: nat)
    requires i < |r|
  {
    i == 0 || PriorMaxEnd(r, i) < r[i].lo
  }

  function CountOpens(r: seq<Interval>, n: nat): (c: nat)
    requires n <= |r|
  {
    if n == 0 then 0 else CountOpens(r, n - 1) + if Opens(r, n - 1) then 1 else 0
  }

  /** End of the peer group of row i: the running sum has no frame clause, so SQL's default
      RANGE frame includes every later row with the same start and end. */
  function PeerEnd(r: seq<Interval>, i: nat): (e: nat)
    requires i < |r|
    ensures i < e <= |r|
    decreases |r| - i
  {
    if i + 1 < |r| && r[i + 1] == r[i] then PeerEnd(r, i + 1) else i + 1
  }

  function IslandId(r: seq<Interval>, i: nat): nat
    requires i < |r|
  {
    CountOpens(r, PeerEnd(r, i))
  }

  /** GROUP BY island_id: min(interval_start) and max(interval_end) of group k among the
      first n rows; None when the group has no row yet. */
  function GroupSpan(r: seq<Interval>, k: nat, n: nat): Option<Interval>
    requires n <= |r|
  {
    if n == 0 then None
    else if IslandId(r, n - 1) == k then Some(Aggregate(GroupSpan(r, k, n - 1), r[n - 1]))
    else GroupSpan(r, k, n - 1)
  }

  function Aggregate(before: Option<Interval>, x: Interval): Interval {
    match before
    case None => x
    case Some(b) => Interval(Min(b.lo, x.lo), Max(b.hi, x.hi))
  }

  /** The view's rows for one partition, listed by island_id (a group that had no row would
      not appear in SQL; IslandsMeaning shows every id from 1 to the last is inhabited). */
  function Group(r: seq<Interval>, k: nat): Interval {
    match GroupSpan(r, k, |r|)
    case None => Interval(0, 0)
    case Some(span) => span
  }

  function Islands(rows: seq<Interval>): seq<Interval> {
    var r := SortRows(rows);
    seq(CountOpens(r, |r|), (k: int) => if k < 0 then Interval(0, 0) else Group(r, k + 1))
  }

  // ----- canonical form -----

  /** Sorted, nonempty and strictly separated: touching intervals do not count as separate. */
  predicate Canonical(s: seq<Interval>) {
    AllNonEmpty(s) && forall i, j :: 0 <= i < j < |s| ==> s[i].hi < s[j].lo
  }

  lemma PeersDoNotOpen(r: seq<Interval>, i: nat)
    requires i < |r| && AllNonEmpty(r)
    ensures IslandId(r, i) == CountOpens(r, i + 1)
    decreases |r| - i
  {
    if i + 1 < |r| && r[i + 1] == r[i] {
      PeersDoNotOpen(r, i + 1);
      assert PriorMaxEnd(r, i + 1) >= r[i].hi;
      assert !Opens(r, i + 1);
    }
  }

  /** What the first n rows have been merged into. */
  ghost function Merged(r: seq<Interval>, n: nat): seq<Interval>
    requires n <= |r|
  {
    if n == 0 then []
    else
      var m := Merged(r, n - 1);
      if Opens(r, n - 1) || m == [] then m + [r[n - 1]]
      else Grow(m, r[n - 1].hi)
  }

  lemma {:induction false} MergedShape(r: seq<Interval>, n: nat)
    requires n <= |r| && Ordered(r) && AllNonEmpty(r)
    ensures |Merged(r, n)| == CountOpens(r, n)
    ensures n > 0 ==> Merged(r, n) != []
    ensures n > 0 ==> var m := Merged(r, n); m[|m| - 1].hi == PriorMaxEnd(r, n) && m[|m| - 1].lo <= r[n - 1].lo
    ensures Canonical(Merged(r, n))
  {
    if n > 1 {
      MergedShape(r, n - 1);
      assert RowLeq(r[n - 2], r[n - 1]);
      var m := Merged(r, n - 1);
      if Opens(r, n - 1) {
        AppendCanonical(m, r[n - 1]);
      } else {
        GrowCanonical(m, r[n - 1].hi);
      }
    } else if n == 1 {
      assert Opens(r, 0);
      assert CountOpens(r, 0) == 0;
      assert Merged(r, 0) == [];
      assert Merged(r, 1) == [r[0]];
    }
  }

  lemma AppendCanonical(m: seq<Interval>, x: Interval)
    requires Canonical(m) && m != [] && m[|m| - 1].hi < x.lo && x.NonEmpty()
    ensures Canonical(m + [x])
  {
  }

  function Grow(m: seq<Interval>, hi: int): seq<Interval>
    requires m != []
  {
    m[..|m| - 1] + [Interval(m[|m| - 1].lo, Max(m[|m| - 1].hi, hi))]
  }

  lemma GrowCanonical(m: seq<Interval>, hi: int)
    requires Canonical(m) && m != []
    ensures Canonical(Grow(m, hi))
  {
  }

  lemma {:induction false} MergedPoints(r: seq<Interval>, n: nat, t: int)
    requires n <= |r| && Ordered(r) && AllNonEmpty(r)
    ensures Covers(Merged(r, n), t) <==> Covers(r[..n], t)
  {
    hide Covers, Opens, Ordered;
    if n > 0 {
      var m, x := Merged(r, n - 1), r[n - 1];
      MergedPoints(r, n - 1, t);
      assert r[..n] == r[..n - 1] + [x];
      CoversAppend(r[..n - 1], x, t);
      if Opens(r, n - 1) || m == [] {
        CoversAppend(m, x, t);
      } else {
        LastIslandMeets(r, n);
        GrowPoints(m, x, t);
      }
    }
  }

  /** A row that opens no island starts inside the last one. */
  lemma LastIslandMeets(r: seq<Interval>, n: nat)
    requires 0 < n <= |r| && Ordered(r) && AllNonEmpty(r) && !Opens(r, n - 1) && Merged(r, n - 1) != []
    ensures var m, x := Merged(r, n - 1), r[n - 1]; m[|m| - 1].lo <= x.lo <= m[|m| - 1].hi
  {
    MergedShape(r, n - 1);
    assert RowLeq(r[n - 2], r[n - 1]);
  }

  lemma GrowPoints(m: seq<Interval>, x: Interval, t: int)
    requires m != [] && m[|m| - 1].lo <= x.lo <= m[|m| - 1].hi
    ensures Covers(Grow(m, x.hi), t) <==> Covers(m, t) || x.Has(t)
  {
    var front, last := m[..|m| - 1], m[|m| - 1];
    assert m == front + [last];
    CoversAppend(front, last, t);
    CoversAppend(front, Interval(last.lo, Max(last.hi, x.hi)), t);
  }

  lemma CoversAppend(s: seq<Interval>, x: Interval, t: int)
    ensures Covers(s + [x], t) <==> Covers(s, t) || x.Has(t)
  {
    if Covers(s, t) {
      var i :| 0 <= i < |s| && s[i].Has(t);
      assert (s + [x])[i].Has(t);
    }
    if x.Has(t) {
      assert (s + [x])[|s|].Has(t);
    }
  }

  /** Grouping by the running sum computes exactly the merge. */
  lemma {:induction false} GroupIsMerged(r: seq<Interval>, k: nat, n: nat)
    requires n <= |r| && Ordered(r) && AllNonEmpty(r)
    ensures GroupSpan(r, k + 1, n) == Nth(Merged(r, n), k)
  {
    hide CountOpens, PriorMaxEnd, PeerEnd, IslandId, Canonical;
    if n > 0 {
      GroupIsMerged(r, k, n - 1);
      PeersDoNotOpen(r, n - 1);
      MergedShape(r, n - 1);
      MergedShape(r, n);
      if n > 1 { assert RowLeq(r[n - 2], r[n - 1]); }
      GroupStep(Merged(r, n - 1), Merged(r, n), r[n - 1], Opens(r, n - 1), k);
    }
  }

  function Nth(m: seq<Interval>, k: nat): Option<Interval> { if k < |m| then Some(m[k]) else None }

  lemma GroupStep(m: seq<Interval>, m': seq<Interval>, x: Interval, opens: bool, k: nat)
    requires m == [] ==> opens
    requires m != [] ==> m[|m| - 1].lo <= x.lo
    requires m' == if opens then m + [x] else Grow(m, x.hi)
    ensures Nth(m', k) == if k + 1 == |m'| then Some(Aggregate(Nth(m, k), x)) else Nth(m, k)
  {
  }

  /** Gaps-and-islands: for any overlapping, nested or duplicate rows in any order, the
      result is canonical and covers exactly the instants the rows cover. */
  lemma IslandsMeaning(rows: seq<Interval>)
    requires AllNonEmpty(rows)
    ensures Canonical(Islands(rows))
    ensures SamePoints(Islands(rows), rows)
  {
    var r := SortRows(rows);
    IslandsAreMerged(rows);
    MergedShape(r, |r|);
    MultisetMembers(r, rows);
    forall t ensures Covers(Islands(rows), t) <==> Covers(rows, t) {
      assert r[..|r|] == r;
      MergedPoints(r, |r|, t);
      CoversByMembers(r, rows, t);
      CoversByMembers(rows, r, t);
    }
  }

  lemma SortedRows(rows: seq<Interval>)
    requires AllNonEmpty(rows)
    ensures var r := SortRows(rows); multiset(r) == multiset(rows) && Ordered(r) && AllNonEmpty(r)
  {
    var r := SortRows(rows);
    SortRowsMeaning(rows);
    MultisetMembers(r, rows);
    forall i | 0 <= i < |r| ensures r[i].NonEmpty() { assert r[i] in rows; }
  }

  lemma IslandsAreMerged(rows: seq<Interval>)
    requires AllNonEmpty(rows)
    ensures var r := SortRows(rows);
            multiset(r) == multiset(rows) && Ordered(r) && AllNonEmpty(r) && Islands(rows) == Merged(r, |r|)
  {
    var r, s := SortRows(rows), Islands(rows);
    SortedRows(rows);
    MergedShape(r, |r|);
    forall k | 0 <= k < |s| ensures s[k] == Merged(r, |r|)[k] {
      IslandIsMerged(r, k);
      assert s[k] == Group(r, k + 1);
    }
  }

  lemma IslandIsMerged(r: seq<Interval>, k: nat)
    requires Ordered(r) && AllNonEmpty(r) && k < |Merged(r, |r|)|
    ensures Group(r, k + 1) == Merged(r, |r|)[k]
  {
    GroupIsMerged(r, k, |r|);
  }

  lemma CoversByMembers(a: seq<Interval>, b: seq<Interval>, t: int)
    requires forall x :: x in a ==> x in b
    ensures Covers(a, t) ==> Covers(b, t)
  {
    if Covers(a, t) {
      var i :| 0 <= i < |a| && a[i].Has(t);
      assert a[i] in b;
      var j :| 0 <= j < |b| && b[j] == a[i];
      assert b[j].Has(t);
    }
  }

  lemma TailPoints(a: seq<Interval>, t: int)
    requires Canonical(a) && a != []
    ensures Covers(a[1..], t) <==> Covers(a, t) && t >= a[0].hi
  {
  }

  lemma FirstPoint(a: seq<Interval>, t: int)
    requires Canonical(a) && a != []
    ensures Covers(a, t) ==> a[0].lo <= t && t != a[0].hi
    ensures a[0].lo <= t < a[0].hi ==> Covers(a, t)
  {
  }

  /** A canonical list is determined by its points. */
  lemma {:induction false} CanonicalIsUnique(a: seq<Interval>, b: seq<Interval>)
    requires Canonical(a) && Canonical(b) && SamePoints(a, b)
    ensures a == b
  {
    if a == [] && b == [] {
    } else if a == [] {
      FirstPoint(b, b[0].lo);
      assert false;
    } else if b == [] {
      FirstPoint(a, a[0].lo);
      assert false;
    } else {
      FirstPoint(a, a[0].lo); FirstPoint(b, a[0].lo);
      FirstPoint(b, b[0].lo); FirstPoint(a, b[0].lo);
      assert Covers(a, a[0].lo) && Covers(b, a[0].lo);
      assert Covers(b, b[0].lo) && Covers(a, b[0].lo);
      FirstPoint(a, a[0].hi); FirstPoint(b, a[0].hi);
      FirstPoint(b, b[0].hi); FirstPoint(a, b[0].hi);
      assert Covers(a, a[0].hi) <==> Covers(b, a[0].hi);
      assert Covers(a, b[0].hi) <==> Covers(b, b[0].hi);
      assert a[0] == b[0];
      forall t ensures Covers(a[1..], t) <==> Covers(b[1..], t) {
        TailPoints(a, t); TailPoints(b, t);
        assert Covers(a, t) <==> Covers(b, t);
      }
      CanonicalIsUnique(a[1..], b[1..]);
    }
  }

  /** The view is a function of the covered instants alone: row order, duplicates, nesting
      and the way a span is cut into rows make no difference. */
  lemma IslandsDependOnPointsOnly(a: seq<Interval>, b: seq<Interval>)
    requires AllNonEmpty(a) && AllNonEmpty(b) && SamePoints(a, b)
    ensures Islands(a) == Islands(b)
  {
    IslandsMeaning(a);
    IslandsMeaning(b);
    forall t ensures Covers(Islands(a), t) <==> Covers(Islands(b), t) {
      assert Covers(Islands(a), t) <==> Covers(a, t);
      assert Covers(Islands(b), t) <==> Covers(b, t);
      assert Covers(a, t) <==> Covers(b, t);
    }
    CanonicalIsUnique(Islands(a), Islands(b));
  }

  // ----- measure -----

  ghost function Range(lo: int, hi: int): set<int> { set t: int {:trigger Within(lo, hi, t)} | lo <= t < hi && Within(lo, hi, t) }

  predicate Within(lo: int, hi: int, t: int) { lo <= t < hi }

  lemma {:induction false} RangeSize(lo: int, hi: int)
    requires lo <= hi
    ensures |Range(lo, hi)| == hi - lo
    decreases hi - lo
  {
    if lo < hi {
      RangeSize(lo, hi - 1);
      assert Within(lo, hi, hi - 1);
      assert Range(lo, hi) == Range(lo, hi - 1) + {hi - 1} by {
        forall t ensures t in Range(lo, hi) <==> t in Range(lo, hi - 1) + {hi - 1} {
          assert Within(lo, hi, t) <==> Within(lo, hi - 1, t) || t == hi - 1;
        }
      }
    } else {
      assert Range(lo, hi) == {};
    }
  }

  /** The instants of window w that the rows cover. */
  ghost function Instants(rows: seq<Interval>, w: Interval): set<int> {
    set t | w.lo <= t < w.hi && Covers(rows, t)
  }

  predicate Overlaps(i: Interval, w: Interval) { i.lo < w.hi && i.hi > w.lo }

  /** sum(least(i.end, w.end) - greatest(i.start, w.start)) over the joined islands. */
  function ClippedSum(islands: seq<Interval>, w: Interval): int {
    if islands == [] then 0
    else
      (if Overlaps(islands[0], w) then Min(islands[0].hi, w.hi) - Max(islands[0].lo, w.lo) else 0)
      + ClippedSum(islands[1..], w)
  }

  lemma {:induction false} ClippedSumIsMeasure(islands: seq<Interval>, w: Interval)
    requires Canonical(islands) && w.lo <= w.hi
    ensures ClippedSum(islands, w) == |Instants(islands, w)|
  {
    if islands == [] {
      assert Instants(islands, w) == {};
    } else {
      var x, rest := islands[0], islands[1..];
      ClippedSumIsMeasure(rest, w);
      var lo := Max(x.lo, w.lo);
      var hi := Max(lo, Min(x.hi, w.hi));
      RangeSize(lo, hi);
      FirstInstants(islands, w, lo, hi);
    }
  }

  lemma FirstInstants(islands: seq<Interval>, w: Interval, lo: int, hi: int)
    requires Canonical(islands) && islands != [] && w.lo <= w.hi
    requires lo == Max(islands[0].lo, w.lo) && hi == Max(lo, Min(islands[0].hi, w.hi))
    ensures Instants(islands, w) == Range(lo, hi) + Instants(islands[1..], w)
    ensures Range(lo, hi) !! Instants(islands[1..], w)
  {
  }

  lemma InstantsFit(rows: seq<Interval>, w: Interval)
    requires w.lo <= w.hi
    ensures |Instants(rows, w)| <= w.hi - w.lo
  {
    RangeSize(w.lo, w.hi);
    SubsetSize(Instants(rows, w), Range(w.lo, w.hi));
  }

  lemma SubsetSize(a: set<int>, b: set<int>)
    requires a <= b
    ensures |a| <= |b|
  {
    assert b == a + (b - a);
  }

  /** chat_coverage / source_coverage: least(window length, coalesce(sum(...), 0)). */
  function HealthyTime(rows: seq<Interval>, w: Interval): int {
    Min(w.hi - w.lo, ClippedSum(Islands(rows), w))
  }

  /** Healthy time is the number of covered instants of the window, and the least(...) cap
      never binds. */
  lemma HealthyTimeIsMeasure(rows: seq<Interval>, w: Interval)
    requires AllNonEmpty(rows) && w.lo <= w.hi
    ensures HealthyTime(rows, w) == ClippedSum(Islands(rows), w) == |Instants(rows, w)|
  {
    IslandsMeaning(rows);
    ClippedSumIsMeasure(Islands(rows), w);
    assert Instants(Islands(rows), w) == Instants(rows, w);
    InstantsFit(rows, w);
  }
}
