/** Viewer samples of a closed stream as bounded segments, and their time-weighted totals
    (sql/016 viewer_segments and viewer_window). */
module ViewerSegments {
  import opened Common
  import opened Intervals
  import opened Windows

  const HOLD := 90_000_000

  /** A row of viewer_snapshots for one stream. */
  datatype Sample = Sample(observedAt: int, viewers: nat)

  datatype Segment = Segment(span: Interval, viewers: nat)

  /** ORDER BY observed_at; (stream_id, observed_at) is the primary key, so there are no ties. */
  predicate InOrder(samples: seq<Sample>) {
    forall i, j :: 0 <= i < j < |samples| ==> samples[i].observedAt < samples[j].observedAt
  }

  /** WHERE observed_at >= started_at AND observed_at < offline_observed_at */
  function Kept(samples: seq<Sample>, start: int, offline: int): seq<Sample> {
    if samples == [] then []
    else (if start <= samples[0].observedAt < offline then [samples[0]] else []) + Kept(samples[1..], start, offline)
  }

  /** The kept samples from position 0 on: each holds until the next one, for 90 seconds at
      most, and not past the end of the stream. */
  function Segments(kept: seq<Sample>, offline: int): seq<Segment> {
    if kept == [] then []
    else
      var next := if |kept| > 1 then kept[1].observedAt else offline;
      [Segment(Interval(kept[0].observedAt, Min(Min(next, kept[0].observedAt + HOLD), offline)), kept[0].viewers)]
      + Segments(kept[1..], offline)
  }

  lemma {:induction false} KeptMembers(samples: seq<Sample>, start: int, offline: int)
    requires InOrder(samples)
    ensures InOrder(Kept(samples, start, offline))
    ensures forall x :: x in Kept(samples, start, offline) <==> x in samples && start <= x.observedAt < offline
  {
    if samples != [] {
      var rest := Kept(samples[1..], start, offline);
      KeptMembers(samples[1..], start, offline);
      assert samples == [samples[0]] + samples[1..];
      forall x | x in rest ensures samples[0].observedAt < x.observedAt {
        var k :| 0 <= k < |samples[1..]| && samples[1..][k] == x;
        assert samples[k + 1] == x;
      }
    }
  }

  /** Sorted segments that may touch but never overlap. */
  predicate Disjoint(segments: seq<Segment>) {
    forall i, j :: 0 <= i < j < |segments| ==> segments[i].span.hi <= segments[j].span.lo
  }

  /** Every kept sample gives one nonempty segment of at most 90 seconds inside the stream,
      starting at the sample; the segments are pairwise disjoint. */
  lemma {:induction false} SegmentsShape(kept: seq<Sample>, offline: int)
    requires InOrder(kept) && forall x <- kept :: x.observedAt < offline
    ensures |Segments(kept, offline)| == |kept|
    ensures forall i :: 0 <= i < |kept| ==> Fits(Segments(kept, offline)[i], kept[i], offline)
    ensures Disjoint(Segments(kept, offline))
    decreases |kept|
  {
    if kept != [] {
      hide Fits, Disjoint, InOrder, Segments;
      SegmentsShape(Later(kept, offline), offline);
      FirstSegment(kept, offline);
      Joined(kept, offline);
    }
  }

  /** A segment carries its sample, is not empty, and ends with the hold or the stream. */
  predicate Fits(g: Segment, x: Sample, offline: int) {
    && g.viewers == x.viewers && g.span.lo == x.observedAt
    && g.span.NonEmpty() && g.span.hi - g.span.lo <= HOLD && g.span.hi <= offline
  }

  function Later(kept: seq<Sample>, offline: int): (rest: seq<Sample>)
    requires kept != [] && InOrder(kept) && forall x <- kept :: x.observedAt < offline
    ensures InOrder(rest) && |rest| < |kept| && forall x <- rest :: x.observedAt < offline
  {
    kept[1..]
  }

  lemma FirstSegment(kept: seq<Sample>, offline: int)
    requires kept != [] && InOrder(kept) && forall x <- kept :: x.observedAt < offline
    ensures var all := Segments(kept, offline);
            && all != [] && all[1..] == Segments(kept[1..], offline) && Fits(all[0], kept[0], offline)
            && (|kept| > 1 ==> all[0].span.hi <= kept[1].observedAt)
  {
    assert kept[0] in kept;
  }

  lemma Joined(kept: seq<Sample>, offline: int)
    requires kept != [] && InOrder(kept)
    requires var all := Segments(kept, offline);
             && all != [] && Fits(all[0], kept[0], offline) && (|kept| > 1 ==> all[0].span.hi <= kept[1].observedAt)
             && |all[1..]| == |kept[1..]| && Disjoint(all[1..])
             && forall i :: 0 <= i < |kept[1..]| ==> Fits(all[1..][i], kept[1..][i], offline)
    ensures var all := Segments(kept, offline);
            |all| == |kept| && Disjoint(all) && forall i :: 0 <= i < |kept| ==> Fits(all[i], kept[i], offline)
  {
    hide Segments;
    var all := Segments(kept, offline);
    forall i | 0 < i < |kept| ensures Fits(all[i], kept[i], offline) && all[0].span.hi <= all[i].span.lo {
      assert all[i] == all[1..][i - 1] && kept[i] == kept[1..][i - 1];
    }
    forall i, j | 0 <= i < j < |all| ensures all[i].span.hi <= all[j].span.lo {
      if i > 0 { assert all[i] == all[1..][i - 1] && all[j] == all[1..][j - 1]; }
    }
  }

  // ----- one window -----

  /** greatest(0, least(ends) - greatest(starts)) for a joined segment, 0 when not joined. */
  function Clip(span: Interval, w: Interval): nat {
    if Overlaps(span, w) then Max(0, Min(span.hi, w.hi) - Max(span.lo, w.lo)) else 0
  }

  function Covered(segments: seq<Segment>, w: Interval): nat {
    if segments == [] then 0 else Clip(segments[0].span, w) + Covered(segments[1..], w)
  }

  function Weighted(segments: seq<Segment>, w: Interval): nat {
    if segments == [] then 0 else segments[0].viewers * Clip(segments[0].span, w) + Weighted(segments[1..], w)
  }

  /** Time covered in a window never exceeds the window. */
  lemma {:induction false} CoveredFits(segments: seq<Segment>, w: Interval)
    requires Disjoint(segments) && w.lo <= w.hi && forall g <- segments :: g.span.NonEmpty()
    ensures Covered(segments, w) <= w.hi - w.lo
    ensures segments != [] ==> Covered(segments, w) <= Max(0, w.hi - Max(w.lo, segments[0].span.lo))
  {
    if |segments| > 1 {
      CoveredFits(segments[1..], w);
      assert segments[0] in segments;
    } else if |segments| == 1 {
      assert Covered(segments[1..], w) == 0;
    }
  }

  /** Segments that contribute to the window. */
  ghost predicate CountsWithin(segments: seq<Segment>, w: Interval, least: nat, most: nat) {
    forall g <- segments :: Overlaps(g.span, w) ==> least <= g.viewers <= most
  }

  /** The time-weighted average weighted / covered lies between the smallest and the largest
      contributing count (stated without division). */
  lemma {:induction false} AverageIsBetween(segments: seq<Segment>, w: Interval, least: nat, most: nat)
    requires CountsWithin(segments, w, least, most)
    ensures least * Covered(segments, w) <= Weighted(segments, w) <= most * Covered(segments, w)
  {
    if segments != [] {
      assert segments[0] in segments;
      AverageIsBetween(segments[1..], w, least, most);
      var c := Clip(segments[0].span, w);
      Scale(least, segments[0].viewers, most, c);
      Distribute(least, c, Covered(segments[1..], w));
      Distribute(most, c, Covered(segments[1..], w));
    }
  }

  lemma Scale(least: nat, v: nat, most: nat, c: nat)
    requires c > 0 ==> least <= v <= most
    ensures least * c <= v * c <= most * c
  {
  }

  lemma Distribute(a: int, b: int, c: int)
    ensures a * (b + c) == a * b + a * c
  {
  }

  // ----- all windows -----

  lemma ClipSplits(span: Interval, a: int, b: int, c: int)
    requires a <= b <= c
    ensures Clip(span, Interval(a, b)) + Clip(span, Interval(b, c)) == Clip(span, Interval(a, c))
  {
  }

  lemma {:induction false} CoveredSplits(segments: seq<Segment>, a: int, b: int, c: int)
    requires a <= b <= c
    ensures Covered(segments, Interval(a, b)) + Covered(segments, Interval(b, c)) == Covered(segments, Interval(a, c))
    ensures Weighted(segments, Interval(a, b)) + Weighted(segments, Interval(b, c)) == Weighted(segments, Interval(a, c))
  {
    if segments != [] {
      CoveredSplits(segments[1..], a, b, c);
      ClipSplits(segments[0].span, a, b, c);
      Distribute(segments[0].viewers, Clip(segments[0].span, Interval(a, b)), Clip(segments[0].span, Interval(b, c)));
    }
  }

  /** Total length and viewer-weighted length of the segments themselves. */
  function Length(segments: seq<Segment>): int {
    if segments == [] then 0 else segments[0].span.hi - segments[0].span.lo + Length(segments[1..])
  }

  function WeightedLength(segments: seq<Segment>): int {
    if segments == [] then 0
    else segments[0].viewers * (segments[0].span.hi - segments[0].span.lo) + WeightedLength(segments[1..])
  }

  lemma {:induction false} WholeStream(segments: seq<Segment>, w: Interval)
    requires forall g <- segments :: g.span.NonEmpty() && w.lo <= g.span.lo && g.span.hi <= w.hi
    ensures Covered(segments, w) == Length(segments) && Weighted(segments, w) == WeightedLength(segments)
  {
    if segments != [] {
      assert segments[0] in segments;
      WholeStream(segments[1..], w);
    }
  }

  /** Splitting into windows loses and duplicates nothing: covered time and viewer-weighted
      time summed over the windows are the totals over the segments. */
  lemma SegmentsAddUp(samples: seq<Sample>, start: int, offline: int)
    requires InOrder(samples) && start < offline
    ensures var g := Segments(Kept(samples, start, offline), offline);
            && Total(w => Covered(g, w), WindowsOf(start, offline)) == Length(g)
            && Total(w => Weighted(g, w), WindowsOf(start, offline)) == WeightedLength(g)
  {
    var kept := Kept(samples, start, offline);
    var g := Segments(kept, offline);
    KeptMembers(samples, start, offline);
    SegmentsInside(kept, start, offline);
    BothAdditive(g);
    TotalOverWindows(w => Covered(g, w), start, offline);
    TotalOverWindows(w => Weighted(g, w), start, offline);
    WholeStream(g, Interval(start, offline));
  }

  lemma BothAdditive(g: seq<Segment>)
    ensures Additive(w => Covered(g, w)) && Additive(w => Weighted(g, w))
  {
    forall a, b, c | a <= b <= c
      ensures Covered(g, Interval(a, b)) + Covered(g, Interval(b, c)) == Covered(g, Interval(a, c))
      ensures Weighted(g, Interval(a, b)) + Weighted(g, Interval(b, c)) == Weighted(g, Interval(a, c))
    {
      CoveredSplits(g, a, b, c);
    }
  }

  lemma SegmentsInside(kept: seq<Sample>, start: int, offline: int)
    requires InOrder(kept) && forall x <- kept :: start <= x.observedAt < offline
    ensures forall x <- Segments(kept, offline) :: x.span.NonEmpty() && start <= x.span.lo && x.span.hi <= offline
  {
  }

  /** An instant of the stream is covered exactly when the latest sample of the stream at or
      before it is less than 90 seconds old, and then by the segment of that sample. */
  lemma {:induction false} CoveredInstant(kept: seq<Sample>, offline: int, t: int, i: nat)
    requires InOrder(kept) && (forall x <- kept :: x.observedAt < offline) && i < |kept| && t < offline
    requires kept[i].observedAt <= t && (i + 1 < |kept| ==> t < kept[i + 1].observedAt)
    ensures |Segments(kept, offline)| == |kept|
    ensures Segments(kept, offline)[i].span.Has(t) <==> t < kept[i].observedAt + HOLD
    ensures forall j :: 0 <= j < |kept| && Segments(kept, offline)[j].span.Has(t) ==> j == i
  {
    SegmentsShape(kept, offline);
    SegmentAt(kept, offline, i);
    forall j | 0 <= j < |kept| && j != i ensures !Segments(kept, offline)[j].span.Has(t) {
      SegmentAt(kept, offline, j);
      assert j + 1 < i ==> kept[j + 1].observedAt <= kept[i].observedAt;
      assert i + 1 < j ==> kept[i + 1].observedAt <= kept[j].observedAt;
    }
  }

  lemma {:induction false} SegmentAt(kept: seq<Sample>, offline: int, i: nat)
    requires i < |kept|
    ensures |Segments(kept, offline)| == |kept|
    ensures var next := if i + 1 < |kept| then kept[i + 1].observedAt else offline;
            Segments(kept, offline)[i].span == Interval(kept[i].observedAt, Min(Min(next, kept[i].observedAt + HOLD), offline))
  {
    SegmentsLength(kept, offline);
    if i > 0 { SegmentAt(kept[1..], offline, i - 1); }
  }

  lemma {:induction false} SegmentsLength(kept: seq<Sample>, offline: int)
    ensures |Segments(kept, offline)| == |kept|
  {
    if kept != [] { SegmentsLength(kept[1..], offline); }
  }

  // ----- what a window's totals mean -----

  /** The viewer count in force at t; no count when no segment holds t. */
  function ViewersAt(segments: seq<Segment>, t: int): Option<nat> {
    if segments == [] then None else if segments[0].span.Has(t) then Some(segments[0].viewers) else ViewersAt(segments[1..], t)
  }

  /** Instants of [lo, hi) with a count in force, and the sum of those counts. */
  function CountedInstants(segments: seq<Segment>, lo: int, hi: int): nat
    decreases hi - lo
  {
    if lo >= hi then 0 else CountedInstants(segments, lo, hi - 1) + if ViewersAt(segments, hi - 1).Some? then 1 else 0
  }

  function ViewersSummed(segments: seq<Segment>, lo: int, hi: int): nat
    decreases hi - lo
  {
    if lo >= hi then 0
    else ViewersSummed(segments, lo, hi - 1) + if ViewersAt(segments, hi - 1).Some? then ViewersAt(segments, hi - 1).value else 0
  }

  lemma {:induction false} NothingBefore(segments: seq<Segment>, t: int)
    requires forall g <- segments :: t < g.span.lo
    ensures Weighted(segments, Interval(t, t + 1)) == 0 && Covered(segments, Interval(t, t + 1)) == 0
  {
    if segments != [] {
      assert segments[0] in segments;
      NothingBefore(segments[1..], t);
    }
  }

  lemma {:induction false} OneInstant(segments: seq<Segment>, t: int)
    requires Disjoint(segments)
    ensures var v := ViewersAt(segments, t);
            && Covered(segments, Interval(t, t + 1)) == (if v.Some? then 1 else 0)
            && Weighted(segments, Interval(t, t + 1)) == (if v.Some? then v.value else 0)
  {
    if segments != [] {
      var w := Interval(t, t + 1);
      OneInstant(segments[1..], t);
      if segments[0].span.Has(t) {
        NothingBefore(segments[1..], t);
        assert Clip(segments[0].span, w) == 1;
      } else {
        assert Clip(segments[0].span, w) == 0;
      }
    }
  }

  /** A window's covered time counts its instants with a count in force, and its weighted time
      sums those counts: their quotient is the average over the covered time. */
  lemma {:induction false} WindowMeaning(segments: seq<Segment>, lo: int, hi: int)
    requires Disjoint(segments) && lo <= hi
    ensures Covered(segments, Interval(lo, hi)) == CountedInstants(segments, lo, hi)
    ensures Weighted(segments, Interval(lo, hi)) == ViewersSummed(segments, lo, hi)
    decreases hi - lo
  {
    if lo == hi {
      CoveredSplits(segments, lo, lo, lo);
    } else {
      WindowMeaning(segments, lo, hi - 1);
      CoveredSplits(segments, lo, hi - 1, hi);
      OneInstant(segments, hi - 1);
    }
  }

  lemma {:induction false} OnlyHolder(segments: seq<Segment>, t: int, i: nat)
    requires i < |segments| && forall j :: 0 <= j < |segments| && segments[j].span.Has(t) ==> j == i
    ensures ViewersAt(segments, t) == if segments[i].span.Has(t) then Some(segments[i].viewers) else None
    decreases |segments|
  {
    if i > 0 {
      OnlyHolder(segments[1..], t, i - 1);
    } else if !segments[0].span.Has(t) {
      NoHolder(segments, t);
    }
  }

  lemma {:induction false} NoHolder(segments: seq<Segment>, t: int)
    requires forall j :: 0 <= j < |segments| ==> !segments[j].span.Has(t)
    ensures ViewersAt(segments, t) == None
  {
    if segments != [] { NoHolder(segments[1..], t); }
  }

  /** In terms of the samples: the count in force is that of the latest sample while it is under
      90 seconds old. */
  lemma ViewersInForce(kept: seq<Sample>, offline: int, t: int, i: nat)
    requires InOrder(kept) && (forall x <- kept :: x.observedAt < offline) && i < |kept| && t < offline
    requires kept[i].observedAt <= t && (i + 1 < |kept| ==> t < kept[i + 1].observedAt)
    ensures ViewersAt(Segments(kept, offline), t) == if t < kept[i].observedAt + 90_000_000 then Some(kept[i].viewers) else None
  {
    CoveredInstant(kept, offline, t, i);
    SegmentsShape(kept, offline);
    OnlyHolder(Segments(kept, offline), t, i);
  }
}
