/** Two-clock sampling (scripts/clock_guard.py). The clock is a sequence of readings: each
    call of the injected clock takes the next one. */
module ClockGuard {
  import opened Common

  const STALE := 90_000_000
  const TOLERANCE := 5_000_000
  const RECOVERY := 5_000_000
  /** ceil(UTC_RECOVERY_SECONDS / TICK_SECONDS) */
  const RECOVERY_WAITS := 20

  datatype Fault = ElapsedRollback | UtcRollback | RecoveryTimeout

  datatype Result = Returned(now: Reading) | Raised(fault: Fault)

  /** One call of sample: its result, the readings passed to on_gap in order, and the number
      of clock readings taken. */
  datatype Sampled = Sampled(result: Result, gaps: seq<Reading>, used: nat)

  /** Clock readings one call of sample may need. */
  predicate Enough(readings: seq<Reading>) { |readings| > RECOVERY_WAITS }

  predicate IsGap(now: Reading, previous: Reading) {
    var elapsed, wall := now.tick - previous.tick, now.utc - previous.utc;
    elapsed >= STALE || wall >= STALE || wall - elapsed >= TOLERANCE || elapsed - wall >= TOLERANCE
  }

  /** Waits k .. RECOVERY_WAITS of the recovery loop; readings[k] is the latest reading. */
  function Waiting(readings: seq<Reading>, previous: Reading, k: nat): Sampled
    requires Enough(readings) && k <= RECOVERY_WAITS
    decreases RECOVERY_WAITS - k
  {
    if k == RECOVERY_WAITS then Sampled(Raised(RecoveryTimeout), [], k + 1)
    else
      var now := readings[k + 1];
      if now.tick < readings[k].tick then Sampled(Raised(ElapsedRollback), [], k + 2)
      else if now.tick - readings[0].tick > RECOVERY then Sampled(Raised(RecoveryTimeout), [], k + 2)
      else if now.utc >= previous.utc then Sampled(Returned(now), [now], k + 2)
      else Waiting(readings, previous, k + 1)
  }

  function Recovering(readings: seq<Reading>, previous: Reading): Sampled
    requires Enough(readings)
  {
    if previous.utc - readings[0].utc >= TOLERANCE then Sampled(Raised(UtcRollback), [readings[0]], 1)
    else
      var w := Waiting(readings, previous, 0);
      w.(gaps := [readings[0]] + w.gaps)
  }

  function Checked(s: Sampled, previous: Reading): Sampled {
    if s.result.Returned? && IsGap(s.result.now, previous) then s.(gaps := s.gaps + [s.result.now]) else s
  }

  function SampleOf(previous: Option<Reading>, readings: seq<Reading>): Sampled
    requires Enough(readings)
  {
    var first := readings[0];
    match previous
    case None => Sampled(Returned(first), [], 1)
    case Some(p) =>
      if first.tick < p.tick then Sampled(Raised(ElapsedRollback), [first], 1)
      else if first.utc < p.utc then Checked(Recovering(readings, p), p)
      else Checked(Sampled(Returned(first), [], 1), p)
  }

  function NextPrevious(previous: Option<Reading>, s: Sampled): Option<Reading> {
    match s.result case Returned(now) => Some(now) case Raised(_) => previous
  }

  lemma {:induction false} WaitingMeaning(readings: seq<Reading>, previous: Reading, k: nat)
    requires Enough(readings) && k <= RECOVERY_WAITS && readings[0].tick <= readings[k].tick
    ensures var w := Waiting(readings, previous, k);
            && 1 <= w.used <= RECOVERY_WAITS + 1
            && match w.result
               case Returned(now) => w.gaps == [now] && readings[0].tick <= now.tick <= readings[0].tick + RECOVERY && now.utc >= previous.utc
               case Raised(_) => w.gaps == []
    decreases RECOVERY_WAITS - k
  {
    if k < RECOVERY_WAITS && readings[k + 1].tick >= readings[k].tick {
      WaitingMeaning(readings, previous, k + 1);
    }
  }

  /** A returned reading is never behind the previous one on either clock; a rollback it waited
      out took at most 20 waits and 5 seconds; every fault was reported as a gap first. */
  lemma SampleGoesForward(previous: Option<Reading>, readings: seq<Reading>)
    requires Enough(readings)
    ensures var s := SampleOf(previous, readings);
            && 1 <= s.used <= RECOVERY_WAITS + 1
            && (s.result.Raised? ==> s.gaps != [] && NextPrevious(previous, s) == previous)
            && (s.result.Returned? && previous.Some? ==>
                  && previous.value.tick <= s.result.now.tick && previous.value.utc <= s.result.now.utc
                  && (s.used > 1 ==> s.result.now.tick - readings[0].tick <= RECOVERY))
  {
    if previous.Some? && readings[0].tick >= previous.value.tick && readings[0].utc < previous.value.utc {
      WaitingMeaning(readings, previous.value, 0);
    }
  }

  /** A sample reports no gap exactly when its first reading is forward of the previous one by
      under 90 s on each clock and the two clocks moved within 5 s of each other. */
  lemma QuietIff(previous: Reading, readings: seq<Reading>)
    requires Enough(readings)
    ensures var s, first := SampleOf(Some(previous), readings), readings[0];
            s.gaps == [] <==>
              && 0 <= first.tick - previous.tick < STALE && 0 <= first.utc - previous.utc < STALE
              && -TOLERANCE < (first.utc - previous.utc) - (first.tick - previous.tick) < TOLERANCE
    ensures var s := SampleOf(Some(previous), readings);
            s.gaps == [] ==> s.result == Returned(readings[0])
  {
  }

  /** A UTC rollback that is waited out reports a gap when it starts and again when it ends. */
  lemma RecoveryReportsTwice(previous: Reading, readings: seq<Reading>)
    requires Enough(readings) && readings[0].tick >= previous.tick && readings[0].utc < previous.utc
    ensures var s := SampleOf(Some(previous), readings);
            s.result.Returned? ==> |s.gaps| >= 2 && s.gaps[0] == readings[0] && s.gaps[1] == s.result.now
  {
    WaitingMeaning(readings, previous, 0);
  }

  /** Ninety seconds on either clock, or five seconds between the two. */
  predicate Jumped(previous: Reading, now: Reading) {
    var elapsed, wall := now.tick - previous.tick, now.utc - previous.utc;
    elapsed >= 90_000_000 || wall >= 90_000_000 || wall - elapsed >= 5_000_000 || elapsed - wall >= 5_000_000
  }

  /** Every report: a fault once, a rollback at its start and its end, and a jump once more. */
  lemma GapsReported(previous: Reading, readings: seq<Reading>)
    requires Enough(readings)
    ensures var s, first := SampleOf(Some(previous), readings), readings[0];
            match s.result
            case Raised(_) => s.gaps == [first]
            case Returned(now) => s.gaps == (if first.utc < previous.utc then [first, now] else []) + (if Jumped(previous, now) then [now] else [])
    ensures SampleOf(None, readings).gaps == []
  {
    if readings[0].tick >= previous.tick && readings[0].utc < previous.utc { WaitingMeaning(readings, previous, 0); }
  }

  // ----- exactly when a sample returns -----

  /** Up to wait k UTC has not caught up, while elapsed time never went back and stayed within
      five seconds of the rollback. */
  predicate StillWaiting(readings: seq<Reading>, previous: Reading, k: int) {
    && 0 <= k < |readings|
    && (forall j :: 0 < j <= k ==> readings[j - 1].tick <= readings[j].tick && readings[j].tick - readings[0].tick <= 5_000_000)
    && (forall j :: 0 < j <= k ==> readings[j].utc < previous.utc)
  }

  /** Wait k is the first at which UTC has caught up, in time. */
  predicate Corrects(readings: seq<Reading>, previous: Reading, k: int) {
    && 0 < k <= 20 && k < |readings| && StillWaiting(readings, previous, k - 1)
    && readings[k - 1].tick <= readings[k].tick && readings[k].tick - readings[0].tick <= 5_000_000 && readings[k].utc >= previous.utc
  }

  /** Elapsed time went back at wait k. */
  predicate StepsBack(readings: seq<Reading>, previous: Reading, k: int) {
    0 < k <= 20 && k < |readings| && StillWaiting(readings, previous, k - 1) && readings[k].tick < readings[k - 1].tick
  }

  ghost predicate WaitOutcome(readings: seq<Reading>, previous: Reading, k: int, r: Result) {
    match r
    case Returned(now) => exists m :: k < m <= 20 && Corrects(readings, previous, m) && now == readings[m]
    case Raised(fault) =>
      if fault == ElapsedRollback then exists m :: k < m <= 20 && StepsBack(readings, previous, m)
      else fault == RecoveryTimeout && forall m :: k < m <= 20 ==> !Corrects(readings, previous, m) && !StepsBack(readings, previous, m)
  }

  lemma {:induction false} WaitingOutcome(readings: seq<Reading>, previous: Reading, k: nat)
    requires Enough(readings) && k <= RECOVERY_WAITS && StillWaiting(readings, previous, k)
    ensures WaitOutcome(readings, previous, k, Waiting(readings, previous, k).result)
    decreases RECOVERY_WAITS - k
  {
    if k < RECOVERY_WAITS {
      var now := readings[k + 1];
      if now.tick < readings[k].tick {
        assert StepsBack(readings, previous, k + 1);
      } else if now.tick - readings[0].tick > RECOVERY {
        forall m | k < m <= 20 ensures !Corrects(readings, previous, m) && !StepsBack(readings, previous, m) { }
      } else if now.utc >= previous.utc {
        assert Corrects(readings, previous, k + 1);
      } else {
        WaitingOutcome(readings, previous, k + 1);
      }
    }
  }

  /** A first reading forward of the previous one is returned as it is. A UTC rollback is
      waited out exactly when it is under five seconds and UTC catches up within twenty waits
      and five seconds of elapsed time that never goes back: then that reading is returned.
      Otherwise the fault names what happened. */
  lemma ReturnsIff(previous: Reading, readings: seq<Reading>)
    requires Enough(readings)
    ensures var r, first := SampleOf(Some(previous), readings).result, readings[0];
            if first.tick < previous.tick then r == Raised(ElapsedRollback)
            else if first.utc >= previous.utc then r == Returned(first)
            else if previous.utc - first.utc >= 5_000_000 then r == Raised(UtcRollback)
            else
              && (forall k :: Corrects(readings, previous, k) ==> r == Returned(readings[k]))
              && (r.Returned? <==> exists k :: Corrects(readings, previous, k))
              && (r == Raised(ElapsedRollback) <==> exists k :: StepsBack(readings, previous, k))
              && (r.Raised? ==> r.fault == ElapsedRollback || r.fault == RecoveryTimeout)
    ensures SampleOf(None, readings).result == Returned(readings[0])
  {
    hide Corrects, StepsBack;
    assert StillWaiting(readings, previous, 0);
    WaitingOutcome(readings, previous, 0);
    OneOutcome(readings, previous);
  }

  lemma OneOutcome(readings: seq<Reading>, previous: Reading)
    ensures forall k, m :: Corrects(readings, previous, k) && Corrects(readings, previous, m) ==> k == m
    ensures forall k, m :: !(Corrects(readings, previous, k) && StepsBack(readings, previous, m))
    ensures forall k :: Corrects(readings, previous, k) || StepsBack(readings, previous, k) ==> 0 < k <= 20
  {
  }

  // ----- whole runs -----

  /** The readings a guard returns over a run, up to the first fault. */
  function RunReadings(previous: Option<Reading>, batches: seq<seq<Reading>>): seq<Reading>
    requires forall b <- batches :: Enough(b)
    decreases |batches|
  {
    if batches == [] then []
    else
      var s := SampleOf(previous, batches[0]);
      match s.result
      case Raised(_) => []
      case Returned(now) => [now] + RunReadings(Some(now), batches[1..])
  }

  predicate NotBehind(a: Reading, b: Reading) { a.tick <= b.tick && a.utc <= b.utc }

  ghost predicate Forward(r: seq<Reading>) {
    forall i, j :: 0 <= i < j < |r| ==> NotBehind(r[i], r[j])
  }

  lemma PrependForward(now: Reading, rest: seq<Reading>)
    requires Forward(rest) && forall x <- rest :: NotBehind(now, x)
    ensures Forward([now] + rest)
  {
  }

  /** Over any run, however the real clocks jump, the readings the collector works with never
      go back on either clock. */
  lemma {:induction false} RunGoesForward(previous: Option<Reading>, batches: seq<seq<Reading>>)
    requires forall b <- batches :: Enough(b)
    ensures Forward(RunReadings(previous, batches))
    ensures previous.Some? ==> forall x <- RunReadings(previous, batches) :: NotBehind(previous.value, x)
    decreases |batches|
  {
    if batches != [] {
      var s := SampleOf(previous, batches[0]);
      SampleGoesForward(previous, batches[0]);
      if s.result.Returned? {
        RunGoesForward(Some(s.result.now), batches[1..]);
        PrependForward(s.result.now, RunReadings(Some(s.result.now), batches[1..]));
      }
    }
  }

  // ----- the class -----

  class ClockGuard {
    var previous: Option<Reading>

    constructor ()
      ensures previous == None
    {
      previous := None;
    }

    method Sample(readings: seq<Reading>) returns (result: Result, gaps: seq<Reading>, used: nat)
      requires Enough(readings)
      modifies this
      ensures Sampled(result, gaps, used) == SampleOf(old(previous), readings)
      ensures previous == NextPrevious(old(previous), Sampled(result, gaps, used))
    {
      var now := readings[0];
      gaps, used := [], 1;
      if previous.Some? {
        var elapsed, wall := now.tick - previous.value.tick, now.utc - previous.value.utc;
        if elapsed < 0 {
          return Raised(ElapsedRollback), [now], 1;
        }
        if wall < 0 {
          result, gaps, used := RecoverUtc(readings, previous.value);
          if result.Raised? { return; }
          now := result.now;
          elapsed, wall := now.tick - previous.value.tick, now.utc - previous.value.utc;
        }
        if elapsed >= STALE || wall >= STALE || wall - elapsed >= TOLERANCE || elapsed - wall >= TOLERANCE {
          gaps := gaps + [now];
        }
      }
      previous := Some(now);
      result := Returned(now);
    }

    method RecoverUtc(readings: seq<Reading>, before: Reading) returns (result: Result, gaps: seq<Reading>, used: nat)
      requires Enough(readings)
      ensures Sampled(result, gaps, used) == Recovering(readings, before)
    {
      var now := readings[0];
      gaps, used := [now], 1;
      if before.utc - now.utc >= TOLERANCE {
        return Raised(UtcRollback), gaps, used;
      }
      var started := now.tick;
      var k := 0;
      while k < RECOVERY_WAITS
        invariant 0 <= k <= RECOVERY_WAITS && now == readings[k] && used == k + 1 && gaps == [readings[0]]
        invariant Waiting(readings, before, 0) == Waiting(readings, before, k)
      {
        var lastTick := now.tick;
        now := readings[k + 1];
        used := used + 1;
        if now.tick < lastTick { return Raised(ElapsedRollback), gaps, used; }
        if now.tick - started > RECOVERY { return Raised(RecoveryTimeout), gaps, used; }
        if now.utc >= before.utc {
          gaps := gaps + [now];
          return Returned(now), gaps, used;
        }
        k := k + 1;
      }
      result := Raised(RecoveryTimeout);
    }
  }
}
