/** restart_gap_seconds (scripts/post_stream.py:423-428): the longest step from one run's last
    successful observation to the next run's first, in order of first observations. */
module RestartGap {

  /** first_successful_observed_at and last_successful_observed_at; sql/011 orders them. */
  datatype Span = Span(first: int, last: int)

  predicate ValidSpans(runs: seq<Span>) {
    forall r <- runs :: r.first <= r.last
  }

  /** A result of sorted(runs, key=first_successful_observed_at). */
  predicate IsSorting(runs: seq<Span>, ordered: seq<Span>) {
    && multiset(ordered) == multiset(runs)
    && forall i, j :: 0 <= i < j < |ordered| ==> ordered[i].first <= ordered[j].first
  }

  function Step(ordered: seq<Span>, j: nat): int
    requires 0 < j < |ordered|
  {
    ordered[j].first - ordered[j - 1].last
  }

  /** max(0, max(steps, default=0)) over the first n runs. */
  function Gap(ordered: seq<Span>, n: nat): (gap: nat)
    requires n <= |ordered|
    ensures forall j :: 0 < j < n ==> Step(ordered, j) <= gap
    ensures gap > 0 ==> exists j :: 0 < j < n && Step(ordered, j) == gap
  {
    if n <= 1 then 0
    else
      var before := Gap(ordered, n - 1);
      if Step(ordered, n - 1) > before then Step(ordered, n - 1) else before
  }

  function RestartGap(ordered: seq<Span>): nat { Gap(ordered, |ordered|) }

  /** No run observed anything strictly between a and b, and runs lie on both sides. */
  ghost predicate Hole(runs: seq<Span>, a: int, b: int) {
    && a < b
    && (forall r <- runs :: r.last <= a || b <= r.first)
    && (exists r :: r in runs && r.last <= a)
    && (exists r :: r in runs && b <= r.first)
  }

  lemma SameMembers(runs: seq<Span>, ordered: seq<Span>)
    requires multiset(ordered) == multiset(runs)
    ensures forall r :: r in runs <==> r in ordered
  {
    assert forall r :: r in runs <==> r in multiset(runs);
    assert forall r :: r in ordered <==> r in multiset(ordered);
  }

  /** The first run on the far side of a hole. */
  lemma FarSide(ordered: seq<Span>, a: int, b: int) returns (j: nat)
    requires ValidSpans(ordered) && Hole(ordered, a, b)
    requires forall i, k :: 0 <= i < k < |ordered| ==> ordered[i].first <= ordered[k].first
    ensures 0 < j < |ordered| && b <= ordered[j].first
    ensures forall i :: 0 <= i < j ==> ordered[i].last <= a
  {
    j := 0;
    while j < |ordered| && ordered[j].first < b
      invariant j <= |ordered|
      invariant forall i :: 0 <= i < j ==> ordered[i].first < b
    {
      j := j + 1;
    }
    var far :| far in ordered && b <= far.first;
    var near :| near in ordered && near.last <= a;
    var f :| 0 <= f < |ordered| && ordered[f] == far;
    var n :| 0 <= n < |ordered| && ordered[n] == near;
    assert j < |ordered|;
    assert near in ordered && near.first <= near.last;
    forall i | 0 <= i < j ensures ordered[i].last <= a { assert ordered[i] in ordered; }
  }

  /** The reported gap is never shorter than a real hole, however the runs overlap or nest. */
  lemma NeverMissesAHole(runs: seq<Span>, ordered: seq<Span>, a: int, b: int)
    requires ValidSpans(runs) && IsSorting(runs, ordered) && Hole(runs, a, b)
    ensures b - a <= RestartGap(ordered)
  {
    SameMembers(runs, ordered);
    var j := FarSide(ordered, a, b);
    assert Step(ordered, j) <= RestartGap(ordered);
  }

  /** The step before run j is where the gap is measured, and every earlier run had ended. */
  predicate HonestStep(ordered: seq<Span>, j: nat) {
    && 0 < j < |ordered|
    && Step(ordered, j) == RestartGap(ordered)
    && forall i :: 0 <= i < j ==> ordered[i].last <= ordered[j - 1].last
  }

  ghost predicate HoleOfLength(runs: seq<Span>, length: int) {
    exists a, b :: Hole(runs, a, b) && b - a == length
  }

  ghost predicate SomeHonestStep(ordered: seq<Span>) { exists j: nat :: HonestStep(ordered, j) }

  /** A positive gap is the length of a real hole exactly when at a step of that size no
      earlier run was still observing; otherwise it overstates every hole. */
  lemma ExactIff(runs: seq<Span>, ordered: seq<Span>)
    requires ValidSpans(runs) && IsSorting(runs, ordered) && RestartGap(ordered) > 0
    ensures HoleOfLength(runs, RestartGap(ordered)) <==> SomeHonestStep(ordered)
  {
    if SomeHonestStep(ordered) {
      var j: nat :| HonestStep(ordered, j);
      HonestHole(runs, ordered, j);
    }
    if HoleOfLength(runs, RestartGap(ordered)) {
      var a, b :| Hole(runs, a, b) && b - a == RestartGap(ordered);
      HoleIsHonest(runs, ordered, a, b);
    }
  }

  lemma HoleIsHonest(runs: seq<Span>, ordered: seq<Span>, a: int, b: int)
    requires ValidSpans(runs) && IsSorting(runs, ordered) && Hole(runs, a, b) && b - a == RestartGap(ordered)
    ensures SomeHonestStep(ordered)
  {
    SameMembers(runs, ordered);
    var j := FarSide(ordered, a, b);
    assert Step(ordered, j) <= RestartGap(ordered);
    assert HonestStep(ordered, j);
  }

  lemma HonestHole(runs: seq<Span>, ordered: seq<Span>, j: nat)
    requires IsSorting(runs, ordered) && RestartGap(ordered) > 0 && HonestStep(ordered, j)
    ensures Hole(runs, ordered[j - 1].last, ordered[j].first)
  {
    SameMembers(runs, ordered);
    var a, b := ordered[j - 1].last, ordered[j].first;
    assert ordered[j - 1] in runs && ordered[j] in runs;
    forall r | r in runs ensures r.last <= a || b <= r.first {
      var i :| 0 <= i < |ordered| && ordered[i] == r;
    }
  }

  /** In particular when the runs also ended in that order. */
  lemma ExactWhenEndsAreOrdered(runs: seq<Span>, ordered: seq<Span>)
    requires ValidSpans(runs) && IsSorting(runs, ordered) && RestartGap(ordered) > 0
    requires forall i, j :: 0 <= i < j < |ordered| ==> ordered[i].last <= ordered[j].last
    ensures HoleOfLength(runs, RestartGap(ordered))
  {
    var j :| 0 < j < |ordered| && Step(ordered, j) == RestartGap(ordered);
    forall i | 0 <= i < j ensures ordered[i].last <= ordered[j - 1].last {
      if i < j - 1 { assert ordered[i].last <= ordered[j - 1].last; }
    }
    assert HonestStep(ordered, j);
    ExactIff(runs, ordered);
  }

  /** A short run nested inside a long one makes the gap overstate the only hole. */
  lemma NestedRunOverstates()
    ensures var runs := [Span(0, 100), Span(10, 20), Span(150, 160)];
            IsSorting(runs, runs) && RestartGap(runs) == 130
            && forall a, b :: Hole(runs, a, b) ==> b - a <= 50
  {
  }
}
