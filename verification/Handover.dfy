/** How a directed handover can end, and the one state in which the reconnect branch reads a
    retry time nobody set. */
module Handover {
  import opened Common
  import opened EventSink
  import opened EventSub
  import opened EventRouter
  import opened Recovery
  import opened RecoveryInvariants
  import opened RecoveryRuns
  import opened RouterGuarantees
  import opened RecoveryGuarantees
  import opened RecoveryTheorems

  // ----- every drained delivery is dispatched once and in order -----

  ghost predicate DispatchedUpTo(p: Probe, q: Probe, items: seq<DrainItem>, k: int) {
    0 <= k <= |items| && q.router.calls == p.router.calls + FrameDeliveries(items[..k])
  }

  /** The deliveries of some prefix of the frames were dispatched, and nothing else. */
  ghost predicate DispatchedPrefix(p: Probe, q: Probe, items: seq<DrainItem>) {
    exists k :: DispatchedUpTo(p, q, items, k)
  }

  lemma NoneDispatched(p: Probe, q: Probe, items: seq<DrainItem>)
    requires q.router.calls == p.router.calls
    ensures DispatchedPrefix(p, q, items)
  {
    assert DispatchedUpTo(p, q, items, 0);
  }

  lemma OneMore(p: Probe, q: Probe, t: Probe, items: seq<DrainItem>)
    requires items != [] && q.router.calls == p.router.calls + FrameDeliveries([items[0]])
    requires DispatchedPrefix(q, t, items[1..])
    ensures DispatchedPrefix(p, t, items)
  {
    var k :| DispatchedUpTo(q, t, items[1..], k);
    ConsDeliveries(items[..k + 1]);
    assert items[..k + 1][1..] == items[1..][..k] && items[..k + 1][0] == items[0];
    assert DispatchedUpTo(p, t, items, k + 1);
  }

  lemma {:induction false} DrainDispatches(p: Probe, url: string, items: seq<DrainItem>, end: DrainEnd, k: nat)
    requires Core(p)
    ensures DispatchedPrefix(p, Drain(p, url, items, end, k).p, items)
    ensures Drain(p, url, items, end, k).Ok? && k <= DRAIN_LIMIT ==> k + |items| < DRAIN_LIMIT
    decreases |items|
  {
    hide Core, DrainOne, Accept, Sample;
    if k == DRAIN_LIMIT || items == [] {
      NoneDispatched(p, p, items);
    } else {
      SampledFrame(p, items[0]);
      DrainOneRejected(p, items[0]);
      var s := Sample(p, items[0].at);
      if s.Fatal? {
        NoneDispatched(p, s.p, items);
      } else {
        var outcome := Accept(s.p.session, items[0].frame, items[0].at).outcome;
        var r := DrainOne(s.p, items[0]);
        if outcome.Rejected? {
          NoneDispatched(p, r, items);
        } else if outcome.ReconnectRequest? && outcome.url != url {
          NoneDispatched(r, r, items[1..]);
          OneMore(p, r, r, items);
        } else {
          DrainDispatches(r, url, items[1..], end, k + 1);
          OneMore(p, r, Drain(r, url, items[1..], end, k + 1).p, items);
        }
      }
    }
  }

  lemma DrainOneRejected(p: Probe, x: DrainItem)
    requires Core(p)
    ensures var s := Sample(p, x.at);
            && s.p.session == p.session && s.p.router == p.router
            && (Accept(s.p.session, x.frame, x.at).outcome.Rejected? ==> DrainOne(s.p, x).router == p.router)
  {
  }

  // ----- the outcomes -----

  /** The new session took over: same subscription ids, every failure and revocation kept, each
      drained delivery dispatched once and in order, no gap row, no new setup worker. */
  ghost predicate Completed(p: Probe, q: Probe, i: CompletionInput) {
    && q.socket && q.job == None && !q.handover && !q.stop
    && q.session.serial == p.nextSerial && q.session.sessionId.Some? && !q.session.responsive
    && q.session.ids == p.session.ids && q.session.failed == p.session.failed + RevokedBy(i.drain)
    && q.router.calls == p.router.calls + FrameDeliveries(i.drain) && |i.drain| < DRAIN_LIMIT
    && q.router.gaps == p.router.gaps && q.router.openGap == p.router.openGap
    && q.worker == p.worker && q.requests == p.requests
  }

  /** The handover failed: the old session is lost, a gap row is open and a retry scheduled. */
  ghost predicate BecameGap(p: Probe, q: Probe, i: CompletionInput) {
    && Down(q) && !q.stop && q.session.serial == p.session.serial && p.session.failed <= q.session.failed
    && (q.router.storageFailed || q.router.openGap.Some?)
    && DispatchedPrefix(p, q, i.drain)
  }

  /** Stop or the duration was seen: the run is ending, with no gap row of its own. */
  ghost predicate RunEnding(p: Probe, q: Probe, i: CompletionInput) {
    && q.stop && q.job == None && !q.session.responsive && q.session.serial == p.session.serial
    && q.router.gaps == p.router.gaps && q.router.openGap == p.router.openGap && DispatchedPrefix(p, q, i.drain)
  }

  ghost predicate Outcomes(p: Probe, s: Res, i: CompletionInput) {
    match s
    case Go(q) => Completed(p, q, i) || BecameGap(p, q, i) || RunEnding(p, q, i)
    case Fatal(q, code) => Unrecoverable(code) && DispatchedPrefix(p, q, i.drain)
  }

  ghost predicate TryOutcomes(p: Probe, t: Try, i: CompletionInput) {
    && Core(t.p) && t.p.job == None
    && (t.Ok? ==> Completed(p, t.p, i))
    && (t.Ended? ==> RunEnding(p, t.p, i))
    && (t.Err? ==> t.p.handover && !t.p.stop && DispatchedPrefix(p, t.p, i.drain)
                   && t.p.session.serial == p.session.serial && p.session.failed <= t.p.session.failed)
  }

  lemma SameCalls(p: Probe, q: Probe, r: Probe, items: seq<DrainItem>)
    requires DispatchedPrefix(p, q, items) && r.router == q.router
    ensures DispatchedPrefix(p, r, items)
  {
    var k :| DispatchedUpTo(p, q, items, k);
    assert DispatchedUpTo(p, r, items, k);
  }

  lemma SameOrigin(p: Probe, q: Probe, r: Probe, items: seq<DrainItem>)
    requires DispatchedPrefix(p, q, items) && r.router == p.router
    ensures DispatchedPrefix(r, q, items)
  {
    var k :| DispatchedUpTo(p, q, items, k);
    assert DispatchedUpTo(r, q, items, k);
  }

  lemma AfterCloseRouter(q: Probe, next: Session, jobStarted: Reading, i: CompletionInput)
    ensures var t := AfterClose(q, next, jobStarted, i); t.p.router == q.router && (t.Err? ==> t.p.stop == q.stop)
  {
    hide Sample, Expired, CheckLiveness, Age;
    SampleKeeps(q.(socket := false), i.afterClose);
  }

  /** Which part of closing the old socket decided its result. */
  lemma CloseStages(p: Probe, next: Session, url: string, i: CompletionInput)
    ensures var checked := p.(session := CheckLiveness(p.session, i.at).session);
            var t, c := Drain(checked, url, i.drain, i.drainEnd, 0), CloseOld(p, next, url, i);
            || (c.p == checked && c.Err?)
            || (c.p == t.p && c.Err?)
            || t.Ended?
            || (t.Ok? && c == AfterClose(t.p, next, p.jobStarted, i))
  {
  }

  lemma CloseDispatches(p: Probe, next: Session, url: string, i: CompletionInput)
    requires Core(p) && !p.stop
    ensures var t := CloseOld(p, next, url, i);
            && DispatchedPrefix(p, t.p, i.drain) && (t.Ok? ==> |i.drain| < DRAIN_LIMIT) && (t.Err? ==> !t.p.stop)
  {
    hide Core, Drain, CloseOld, AfterClose, DispatchedPrefix;
    CheckKeeps(p, i.at);
    var checked := p.(session := CheckLiveness(p.session, i.at).session);
    NoneDispatched(p, checked, i.drain);
    DrainDispatches(checked, url, i.drain, i.drainEnd, 0);
    DrainKeeps(checked, url, i.drain, i.drainEnd, 0);
    var t := Drain(checked, url, i.drain, i.drainEnd, 0);
    SameOrigin(checked, t.p, p, i.drain);
    CloseStages(p, next, url, i);
    AfterCloseRouter(t.p, next, p.jobStarted, i);
    SameCalls(p, t.p, AfterClose(t.p, next, p.jobStarted, i).p, i.drain);
  }

  lemma TryHandover(p: Probe, job: Job, i: CompletionInput)
    requires Connecting(p, job) && p.handover
    ensures TryOutcomes(p, TryConnect(p, job, i), i)
  {
    hide Core, CloseOld, Greet;
    NoneDispatched(p, p, i.drain);
    GreetSession(p, i);
    var g := Greet(p, i);
    if i.result.error == None && !g.outcome.Rejected? {
      CloseOldKeeps(p, g.session, job.url, i);
      CloseDispatches(p, g.session, job.url, i);
      var t := CloseOld(p, g.session, job.url, i);
      if t.Ok? {
        HandoverAdopts(p, t.p, g.session, i);
        LivenessStep(g.session, i.afterClose);
      }
    }
  }

  lemma AfterTryOutcomes(p: Probe, t: Try, i: CompletionInput)
    requires TryOutcomes(p, t, i)
    ensures Outcomes(p, AfterTry(t, i), i)
  {
    hide Core, Lose, ScheduleRetry, FrameDeliveries, Completed, RunEnding;
    if t.Err? && !Unrecoverable(t.code) {
      LoseKeeps(t.p, HandoverFailed, i.loss);
      var k :| DispatchedUpTo(p, t.p, i.drain, k);
      assert DispatchedUpTo(p, AfterTry(t, i).p, i.drain, k);
    }
  }

  lemma SameStart(p: Probe, seen: Probe, s: Res, i: CompletionInput)
    requires Outcomes(seen, s, i)
    requires seen.session == p.session && seen.router == p.router && seen.nextSerial == p.nextSerial && seen.worker == p.worker && seen.requests == p.requests
    ensures Outcomes(p, s, i)
  {
    if exists k :: DispatchedUpTo(seen, s.p, i.drain, k) {
      var k :| DispatchedUpTo(seen, s.p, i.drain, k);
      assert DispatchedUpTo(p, s.p, i.drain, k);
    }
  }

  /** A handover whose connection job is done completes, becomes a gap, ends with the run, or
      is fatal; there is no other outcome, and in each of them every drained delivery was
      dispatched at most once and in order. */
  lemma HandoverOutcomes(p: Probe, i: CompletionInput)
    requires Inv(p) && p.job.Some? && p.handover
    ensures Outcomes(p, CompleteJob(p, i), i)
  {
    hide Core, TryConnect, AfterTry, Outcomes;
    var taken := p.(job := None);
    CoreFrame(p, taken);
    SampleKeeps(taken, i.at);
    var sampled := Sample(taken, i.at);
    var seen := SawStop(sampled.p, i.stopBefore);
    if sampled.Fatal? {
      FatalSample(p, sampled.p, i);
    } else if seen.stop || Expired(seen, i.at) {
      EarlyEnd(p, seen, i);
    } else {
      CoreFrame(sampled.p, seen);
      CompleteIsTry(p, i);
      TryHandover(seen, p.job.value, i);
      AfterTryOutcomes(seen, TryConnect(seen, p.job.value, i), i);
      SameStart(p, seen, AfterTry(TryConnect(seen, p.job.value, i), i), i);
    }
  }

  lemma CompleteIsTry(p: Probe, i: CompletionInput)
    requires p.job.Some?
    ensures var sampled := Sample(p.(job := None), i.at);
            var seen := SawStop(sampled.p, i.stopBefore);
            CompleteJob(p, i) == if sampled.Fatal? then sampled
                                 else if seen.stop || Expired(seen, i.at) then Go(EndRun(seen))
                                 else AfterTry(TryConnect(seen, p.job.value, i), i)
  {
  }

  lemma FatalSample(p: Probe, q: Probe, i: CompletionInput)
    requires q.router == p.router
    ensures Outcomes(p, Fatal(q, ClockIsUncertain), i)
  {
    NoneDispatched(p, q, i.drain);
  }

  lemma EarlyEnd(p: Probe, q: Probe, i: CompletionInput)
    requires q.router == p.router && q.session == p.session && q.job == None
    ensures Outcomes(p, Go(EndRun(q)), i)
  {
    NoneDispatched(p, EndRun(q), i.drain);
  }

  // ----- a whole tick with a handover pending -----

  /** The session was lost to a gap; a retry is scheduled, or the next attempt has begun. */
  ghost predicate Gapped(q: Probe) {
    IsLost(q) && !q.socket && q.worker == None && (q.job.Some? || q.retryAt.Some?) && (q.router.storageFailed || q.router.openGap.Some?)
    && q.session.ids == map[]
  }

  /** The same job, still waiting on the same live session. */
  predicate StillPending(p: Probe, q: Probe) {
    q.job == p.job && q.handover == p.handover && q.socket && q.jobStarted == p.jobStarted && q.worker.Some?
  }

  /** What the live part of a tick does while a handover is pending. */
  ghost predicate Onward(p: Probe, s: Res) {
    s.Go? ==>
      && s.p.session.serial == p.session.serial && s.p.nextSerial == p.nextSerial && (p.stop ==> s.p.stop)
      && (StillPending(p, s.p) || Gapped(s.p))
  }

  lemma LoseOnward(p: Probe, q: Probe, code: Code, i: LossInput)
    requires Core(q) && Onward(p, Go(q))
    ensures Onward(p, Lose(q, code, i))
  {
    hide Core, Lose, StillPending;
    LoseKeeps(q, code, i);
  }

  lemma LookOnward(p: Probe, q: Probe, now: Reading, w: Writes)
    requires Onward(p, Go(q))
    ensures Onward(p, Go(Look(q, now, w)))
  {
    hide Observe;
    if q.session.ids == map[] {
      assert !AnyReady(q.router, q.session);
      ObserveNothing(q.router, q.session, now, w);
    }
  }

  lemma ActOnward(p: Probe, q: Probe, outcome: Outcome, i: LiveInput)
    requires p.job.Some? && Core(q) && Onward(p, Go(q)) && StillPending(p, q)
    ensures Onward(p, Act(q, outcome, i))
  {
    hide Core, Lose, Look, Dispatch, Onward;
    match outcome {
      case ReconnectRequest(url) =>
        LoseOnward(p, q, HandoverConflict, i.loss);
        var r := RequestHandover(q, url, i.setupComplete, i.stopAtJob, i.jobAt, i.loss);
        if r.Go? { LookOnward(p, r.p, i.at, i.observeWrites); }
      case Deliver(d) =>
        RoutedOnward(p, q, Dispatch(q.router, d, i.at.utc, i.submission, i.dispatchWrites));
        LookOnward(p, q.(router := Dispatch(q.router, d, i.at.utc, i.submission, i.dispatchWrites)), i.at, i.observeWrites);
      case _ => LookOnward(p, q, i.at, i.observeWrites);
    }
  }

  lemma RoutedOnward(p: Probe, q: Probe, r: Router)
    requires Onward(p, Go(q)) && StillPending(p, q)
    ensures Onward(p, Go(q.(router := r)))
  {
    hide Gapped;
  }

  /** A step that changes nothing the handover waits on. */
  lemma SameOnward(p: Probe, q: Probe, r: Probe)
    requires Onward(p, Go(q)) && StillPending(p, q)
    requires r.job == q.job && r.handover == q.handover && r.socket && r.jobStarted == q.jobStarted && r.worker == q.worker
    requires r.session.serial == q.session.serial && r.nextSerial == q.nextSerial && (q.stop ==> r.stop)
    ensures Onward(p, Go(r)) && StillPending(p, r)
  {
    hide Gapped;
  }

  lemma FrameOnward(p: Probe, q: Probe, frame: Frame, i: LiveInput)
    requires p.job.Some? && Inv(q) && Onward(p, Go(q)) && StillPending(p, q)
    ensures Onward(p, TakeFrame(q, frame, i))
  {
    hide Core, Shape, Onward, Act, Lose, Accept;
    var a := Accept(q.session, frame, i.at);
    AcceptedFrame(q, frame, i.at);
    var r := q.(session := a.session);
    SameOnward(p, q, r);
    if a.outcome.Rejected? {
      LoseOnward(p, r, a.outcome.code, i.loss);
      if a.outcome.code != KeepaliveTimedOut { FatalOnward(p, TakeFrame(q, frame, i)); }
    } else if a.outcome.Deliver? && a.outcome.delivery.revocation {
      RevokedOnward(p, r, a.outcome.delivery, i);
    } else {
      ActOnward(p, r, a.outcome, i);
    }
  }

  lemma RevokedOnward(p: Probe, q: Probe, d: Delivery, i: LiveInput)
    requires Onward(p, Go(q)) && StillPending(p, q)
    ensures Onward(p, Act(q, Deliver(d), i))
  {
    hide Onward, Act, Look, Dispatch;
    var r := q.(router := Dispatch(q.router, d, i.at.utc, i.submission, i.dispatchWrites));
    SameOnward(p, q, r);
    DeliverAct(q, d, i);
    LookOnward(p, r, i.at, i.observeWrites);
  }

  lemma DeliverAct(q: Probe, d: Delivery, i: LiveInput)
    requires q.worker.Some?
    ensures Act(q, Deliver(d), i) == Go(Look(q.(router := Dispatch(q.router, d, i.at.utc, i.submission, i.dispatchWrites)), i.at, i.observeWrites))
  {
    hide Look, Dispatch;
  }

  lemma FatalOnward(p: Probe, s: Res)
    requires s.Fatal?
    ensures Onward(p, s)
  {
  }

  lemma ReceiveOnward(p: Probe, q: Probe, frame: Frame, i: LiveInput)
    requires p.job.Some? && Inv(q) && Onward(p, Go(q)) && StillPending(p, q)
    ensures Onward(p, Receive(q, frame, i))
  {
    hide Core, Shape, Onward, TakeFrame, Lose, Sample, Expired, WelcomeOverdue, CheckLiveness, Age;
    SampleKeeps(q, i.at);
    var sampled := Sample(q, i.at);
    if sampled.Go? {
      CheckKeeps(sampled.p, i.at);
      var checked := sampled.p.(session := CheckLiveness(sampled.p.session, i.at).session);
      SameOnward(p, q, checked);
      if CheckLiveness(sampled.p.session, i.at).error.Some? {
        LoseOnward(p, checked, KeepaliveTimedOut, i.loss);
      } else {
        SawStopKeeps(checked, i.stop);
        SameOnward(p, q, SawStop(checked, i.stop));
        LoseOnward(p, SawStop(checked, i.stop), WelcomeTimedOut, i.loss);
        FrameOnward(p, SawStop(checked, i.stop), frame, i);
      }
    } else {
      FatalOnward(p, Receive(q, frame, i));
    }
  }

  lemma LiveOnward(p: Probe, q: Probe, now: Reading, i: LiveInput)
    requires p.job.Some? && Inv(q) && Onward(p, Go(q)) && StillPending(p, q)
    ensures Onward(p, Live(q, now, i))
  {
    hide Core, Shape, Onward, Receive, Lose, Look, NoteReady;
    CheckKeeps(q, now);
    var checked := q.(session := CheckLiveness(q.session, now).session);
    SameOnward(p, q, checked);
    if CheckLiveness(q.session, now).error.Some? {
      LoseOnward(p, checked, KeepaliveTimedOut, i.loss);
    } else {
      LookFresh(q, now, i.writes);
      var looked := Look(checked, now, i.writes);
      LookFrame(checked, now, i.writes);
      SameOnward(p, checked, looked);
      LoseOnward(p, looked, WelcomeTimedOut, i.loss);
      var noted := NoteReady(looked, now);
      NotedKeeps(looked, now);
      NotedFrame(looked, now);
      SameOnward(p, looked, noted);
      LoseOnward(p, noted, NetworkLost, i.loss);
      if i.receipt.Received? { ReceiveOnward(p, noted, i.receipt.frame, i); }
    }
  }

  lemma NotedFrame(p: Probe, now: Reading)
    ensures NoteReady(p, now) == p.(gapPending := NoteReady(p, now).gapPending, retryCount := NoteReady(p, now).retryCount)
  {
    hide Ready, Age, Seconds;
  }

  /** How a tick that starts with a handover pending can leave the probe. */
  ghost predicate HandoverTick(p: Probe, i: StepInput, s: Res) {
    s.Go? ==>
      || (StillPending(p, s.p) && s.p.session.serial == p.session.serial && !i.jobDone)
      || (s.p.session.serial == p.nextSerial && i.jobDone)
      || (Gapped(s.p) && s.p.session.serial == p.session.serial)
      || (s.p.stop && i.jobDone)
  }

  /** While the old session lives on, only a finished job completes the handover or ends the
      run with it; otherwise the tick leaves it pending, loses it to a gap, or is fatal. */
  lemma PendingHandover(p: Probe, i: StepInput)
    requires Inv(p) && p.job.Some? && p.handover
    ensures HandoverTick(p, i, Step(p, i))
  {
    hide Core, Jobs, Live, Reconnecting, Gapped, StillPending;
    TakeResults(p, i);
    NoticesFrame(p, i);
    var q := Notices(SeeNow(p, i.now), i.notices, false);
    if q.Go? {
      JobsKeep(q.p, i);
      if i.jobDone { DoneTick(p, q.p, i); } else { WaitingTick(p, q.p, i); }
    }
  }

  lemma NoticesFrame(p: Probe, i: StepInput)
    requires Inv(p) && p.job.Some? && p.handover
    ensures var q := Notices(SeeNow(p, i.now), i.notices, false);
            q.p.session.serial == p.session.serial && q.p.nextSerial == p.nextSerial && (p.stop ==> q.p.stop) && StillPending(p, q.p) && q.p.handover
  {
    hide Core, Notices;
    var seen := SeeNow(p, i.now);
    CoreFrame(p, seen);
    NoticesKeep(seen, i.notices, false);
  }

  lemma WaitingTick(p: Probe, q: Probe, i: StepInput)
    requires Inv(q) && Keeps(Jobs(q, i)) && !i.jobDone && StillPending(p, q) && q.handover && p.job.Some?
    requires q.session.serial == p.session.serial && q.nextSerial == p.nextSerial && (p.stop ==> q.stop)
    ensures HandoverTick(p, i, AfterNoticesStep(q, i))
  {
    hide Core, Shape, Lose, Live, Reconnecting, IsLost;
    if Age(i.now, q.jobStarted) >= HANDOVER_DEADLINE {
      LoseOnward(p, q, HandoverTimedOut, i.loss);
      var s := Lose(q, HandoverTimedOut, i.loss);
      if s.Go? { DownAfter(q, i.loss, HandoverTimedOut, i.now, i); }
    } else {
      LiveOnward(p, q, i.now, i.live);
    }
  }

  lemma DownAfter(q: Probe, loss: LossInput, code: Code, now: Reading, i: StepInput)
    requires Core(q) && Lose(q, code, loss).Go?
    ensures var d := Lose(q, code, loss).p;
            !d.socket && (Reconnecting(d, now, i).Go? ==> Gapped(Reconnecting(d, now, i).p) && Reconnecting(d, now, i).p.session == d.session && d.session.serial == q.session.serial)
  {
    hide Core, Lose;
    LoseKeeps(q, code, loss);
    GappedStays(Lose(q, code, loss).p, now, i);
  }

  /** Without a socket a tick at most sees a stop and starts a job. */
  predicate SameButJob(p: Probe, q: Probe) {
    && q.session == p.session && q.router == p.router && q.socket == p.socket && q.worker == p.worker && q.retryAt == p.retryAt
    && (p.stop ==> q.stop) && (p.job.Some? ==> q.job.Some?)
  }

  lemma JobFrame(p: Probe, url: string, handover: bool, stop: bool, at: Reading)
    ensures SameButJob(p, StartJob(p, url, handover, stop, at).p)
  {
    hide Sample;
    SampleKeeps(SawStop(p, stop), at);
  }

  lemma ReconnectingFrame(p: Probe, now: Reading, i: StepInput)
    ensures SameButJob(p, Reconnecting(p, now, i).p)
  {
    hide StartJob;
    var q := SawStop(p, i.stopAtReconnect);
    JobFrame(q, q.url, false, i.stopAtJob, i.jobAt);
  }

  lemma GappedStays(d: Probe, now: Reading, i: StepInput)
    requires Gapped(d)
    ensures Reconnecting(d, now, i).Go? ==> Gapped(Reconnecting(d, now, i).p) && Reconnecting(d, now, i).p.session == d.session
  {
    hide Reconnecting;
    ReconnectingFrame(d, now, i);
  }

  /** No part of a live tick replaces the session object or takes back a stop. */
  predicate SameSession(p: Probe, s: Res) { s.Go? ==> s.p.session.serial == p.session.serial && (p.stop ==> s.p.stop) }

  lemma LoseSame(p: Probe, code: Code, i: LossInput)
    requires Core(p)
    ensures SameSession(p, Lose(p, code, i))
  {
    hide Core, Lose;
    LoseKeeps(p, code, i);
  }

  /** Acting on a frame once there is a worker, or the run is stopping. */
  function Acted(q: Probe, outcome: Outcome, i: LiveInput): Res {
    match outcome
    case ReconnectRequest(url) =>
      var r :- RequestHandover(q, url, i.setupComplete, i.stopAtJob, i.jobAt, i.loss);
      Go(Look(r, i.at, i.observeWrites))
    case Deliver(d) => Go(Look(q.(router := Dispatch(q.router, d, i.at.utc, i.submission, i.dispatchWrites)), i.at, i.observeWrites))
    case _ => Go(Look(q, i.at, i.observeWrites))
  }

  lemma ActedSame(q: Probe, outcome: Outcome, i: LiveInput)
    requires Core(q)
    ensures SameSession(q, Acted(q, outcome, i))
  {
    hide Core, RequestHandover, Look, Dispatch;
    match outcome {
      case ReconnectRequest(url) =>
        RequestSame(q, url, i);
        LookFrame(RequestHandover(q, url, i.setupComplete, i.stopAtJob, i.jobAt, i.loss).p, i.at, i.observeWrites);
      case Deliver(d) =>
        LookFrame(q.(router := Dispatch(q.router, d, i.at.utc, i.submission, i.dispatchWrites)), i.at, i.observeWrites);
      case _ => LookFrame(q, i.at, i.observeWrites);
    }
  }

  lemma ActSame(p: Probe, outcome: Outcome, i: LiveInput)
    requires Core(p) && (p.worker == None ==> Bare(p))
    ensures SameSession(p, Act(p, outcome, i))
  {
    hide Core, Bare, RequestHandover, Look, Dispatch, StartWorker;
    if p.worker == None {
      StartWorkerKeeps(p, i.stopAtWorker);
      var s := StartWorker(p, i.stopAtWorker);
      if s.Go? { ActedSame(s.p, outcome, i); }
    } else {
      ActedSame(p, outcome, i);
    }
  }

  lemma RequestSame(q: Probe, url: string, i: LiveInput)
    requires Core(q)
    ensures SameSession(q, RequestHandover(q, url, i.setupComplete, i.stopAtJob, i.jobAt, i.loss))
  {
    hide Core, Lose, StartJob;
    LoseSame(q, HandoverConflict, i.loss);
    LoseSame(q, HandoverDuringSetup, i.loss);
    if q.job == None { StartJobKeeps(q, url, true, i.stopAtJob, i.jobAt); }
  }

  lemma FrameSame(p: Probe, frame: Frame, i: LiveInput)
    requires Inv(p)
    ensures SameSession(p, TakeFrame(p, frame, i))
  {
    hide Core, Act, Lose, Accept;
    var a := Accept(p.session, frame, i.at);
    var q := p.(session := a.session);
    AcceptedFrame(p, frame, i.at);
    if a.outcome.Rejected? {
      LoseSame(q, a.outcome.code, i.loss);
    } else if a.outcome.Deliver? && a.outcome.delivery.revocation {
      RevocationSame(p, q, a.outcome, i);
    } else {
      ActSame(q, a.outcome, i);
    }
  }

  lemma RevocationSame(p: Probe, q: Probe, outcome: Outcome, i: LiveInput)
    requires q.session.serial == p.session.serial && q.stop == p.stop && outcome.Deliver?
    ensures SameSession(p, Act(q, outcome, i))
  {
    hide Observe, Dispatch;
  }

  lemma ReceiveSame(p: Probe, frame: Frame, i: LiveInput)
    requires Inv(p)
    ensures SameSession(p, Receive(p, frame, i))
  {
    hide Core, Shape, TakeFrame, Lose;
    SampleKeeps(p, i.at);
    var sampled := Sample(p, i.at);
    if sampled.Go? {
      CheckKeeps(sampled.p, i.at);
      var checked := sampled.p.(session := CheckLiveness(sampled.p.session, i.at).session);
      LoseSame(checked, KeepaliveTimedOut, i.loss);
      SawStopKeeps(checked, i.stop);
      LoseSame(SawStop(checked, i.stop), WelcomeTimedOut, i.loss);
      FrameSame(SawStop(checked, i.stop), frame, i);
    }
  }

  lemma LiveSame(p: Probe, now: Reading, i: LiveInput)
    requires Inv(p) && p.socket
    ensures SameSession(p, Live(p, now, i))
  {
    hide Core, Shape, Receive, Lose, Look, NoteReady, CheckLiveness, WelcomeOverdue, Age;
    CheckKeeps(p, now);
    var checked := p.(session := CheckLiveness(p.session, now).session);
    LoseSame(checked, KeepaliveTimedOut, i.loss);
    if CheckLiveness(p.session, now).error == None {
      LookFresh(p, now, i.writes);
      var looked := Look(checked, now, i.writes);
      LookFrame(checked, now, i.writes);
      LoseSame(looked, WelcomeTimedOut, i.loss);
      var noted := NoteReady(looked, now);
      NotedKeeps(looked, now);
      NotedFrame(looked, now);
      LoseSame(noted, NetworkLost, i.loss);
      if i.receipt.Received? { ReceiveSame(noted, i.receipt.frame, i); }
    }
  }

  lemma ReconnectingSame(p: Probe, now: Reading, i: StepInput)
    ensures SameSession(p, Reconnecting(p, now, i))
  {
    hide Reconnecting;
    ReconnectingFrame(p, now, i);
  }

  lemma DoneTick(p: Probe, q: Probe, i: StepInput)
    requires Inv(q) && Keeps(Jobs(q, i)) && i.jobDone && StillPending(p, q) && q.handover && p.job.Some?
    requires q.session.serial == p.session.serial && q.nextSerial == p.nextSerial
    ensures HandoverTick(p, i, AfterNoticesStep(q, i))
  {
    hide Core, Shape, CompleteJob, Live, Reconnecting, Completed, BecameGap, RunEnding;
    HandoverOutcomes(q, i.completion);
    var s := CompleteJob(q, i.completion);
    if s.Go? {
      SampleKeeps(s.p, i.afterJob);
      var r := Sample(s.p, i.afterJob);
      if r.Go? {
        DoneOutcome(q, s.p, i.completion);
        if r.p.socket {
          LiveSame(r.p, i.afterJob, i.live);
        } else {
          ReconnectingSame(r.p, i.afterJob, i);
          if Gapped(r.p) { GappedStays(r.p, i.afterJob, i); }
        }
      }
    }
  }

  lemma DoneOutcome(p: Probe, q: Probe, i: CompletionInput)
    requires Completed(p, q, i) || BecameGap(p, q, i) || RunEnding(p, q, i)
    ensures q.session.serial == p.nextSerial || q.stop || (Gapped(q) && q.session.serial == p.session.serial)
  {
    hide DispatchedPrefix;
  }

  // ----- a cold reconnect -----

  /** The new session took over a lost one: nothing confirmed yet, every failure kept, and the
      setup worker started for exactly the sources that have not failed, unless the run stops. */
  ghost predicate Resumed(p: Probe, q: Probe) {
    && q.socket && q.job == None && !q.handover && q.session.serial == p.nextSerial && q.session.sessionId.Some?
    && q.session.ids == map[] && q.session.failed == p.session.failed && q.router == p.router
    && (if q.stop then q.worker == None
        else q.worker == Some(Worker(q.session.sessionId, p.specs - p.session.failed))
             && p.specs - p.session.failed != {} && q.requests == p.requests + [p.specs - p.session.failed])
  }

  /** The attempt failed: still without a socket, and another one scheduled. */
  ghost predicate Postponed(p: Probe, q: Probe, i: CompletionInput) {
    && !q.socket && q.job == None && q.worker == None && q.session == p.session && q.router == p.router
    && q.retryCount == p.retryCount + 1 && q.retryAt == Some(i.retryFrom.tick + Backoff(p.retryCount))
  }

  ghost predicate ColdOutcome(p: Probe, s: Res, i: CompletionInput) {
    match s
    case Go(q) => Resumed(p, q) || Postponed(p, q, i) || (q.stop && !q.socket && q.job == None && q.router == p.router)
    case Fatal(q, code) => q.router == p.router
                           && (Unrecoverable(code) || code == InvalidMessage || (code == NoUsableSubscriptions && p.specs <= p.session.failed))
  }

  ghost predicate ColdTried(p: Probe, t: Try) {
    match t
    case Ok(q) => Resumed(p, q)
    case Ended(_) => false
    case Err(q, code) =>
      q.router == p.router && !q.handover
      && (q == p || code == NoUsableSubscriptions) && (code == NoUsableSubscriptions ==> p.specs <= p.session.failed)
      && (Unrecoverable(code) || code == InvalidMessage || code == NoUsableSubscriptions || code == ConnectionFailed || code == KeepaliveTimedOut)
  }

  lemma ColdTry(p: Probe, job: Job, i: CompletionInput)
    requires Connecting(p, job) && !p.handover
    ensures ColdTried(p, TryConnect(p, job, i))
  {
    hide Core, CloseOld, Greet, HandoverSession;
    GreetSession(p, i);
    GreetCodes(p, i);
    var g := Greet(p, i);
    if i.result.error == None && !g.outcome.Rejected? {
      ColdAdopted(p, g.session, i);
    }
  }

  lemma ColdAdopted(p: Probe, greeted: Session, i: CompletionInput)
    requires Bare(p) && p.job == None && greeted.serial == p.nextSerial && greeted.specs == p.specs && greeted.ids == map[] && greeted.sessionId.Some?
    requires i.result.received.Some? && !p.handover
    ensures var s := StartWorker(Adopt(p, greeted.(failed := p.session.failed), i.result.received.value), i.stopAtWorker);
            if s.Go? then Resumed(p, s.p.(handover := false))
            else s.code == NoUsableSubscriptions && s.p.router == p.router && !s.p.handover && p.specs <= p.session.failed
  {
    if p.specs - p.session.failed == {} {
      forall x | x in p.specs ensures x in p.session.failed {
        assert x !in p.specs - p.session.failed;
      }
    }
  }

  lemma ColdAfter(p: Probe, job: Job, i: CompletionInput)
    requires ColdTried(p, TryConnect(p, job, i)) && !p.socket && p.worker == None && p.job == None && !p.handover
    ensures ColdOutcome(p, AfterTry(TryConnect(p, job, i), i), i)
  {
  }

  lemma GreetCodes(p: Probe, i: CompletionInput)
    ensures var g := Greet(p, i);
            g.outcome.Rejected? ==> g.outcome.code == ClockIsUncertain || g.outcome.code == InvalidMessage || g.outcome.code == KeepaliveTimedOut
  {
  }

  /** A cold reconnect whose job is done resumes capture, is postponed by the backoff, ends with
      the run, or is fatal; it never writes a gap row itself. */
  lemma ColdOutcomes(p: Probe, i: CompletionInput)
    requires Inv(p) && p.job.Some? && !p.handover
    ensures ColdOutcome(p, CompleteJob(p, i), i)
  {
    hide Core, TryConnect, AfterTry, ColdOutcome;
    var taken := p.(job := None);
    CoreFrame(p, taken);
    SampleKeeps(taken, i.at);
    var sampled := Sample(taken, i.at);
    var seen := SawStop(sampled.p, i.stopBefore);
    CompleteIsTry(p, i);
    if sampled.Go? && !seen.stop && !Expired(seen, i.at) {
      CoreFrame(sampled.p, seen);
      ColdTry(seen, p.job.value, i);
      ColdAfter(seen, p.job.value, i);
      ColdSame(p, seen, AfterTry(TryConnect(seen, p.job.value, i), i), i);
    } else {
      ColdStopped(p, CompleteJob(p, i), i);
    }
  }

  lemma ColdStopped(p: Probe, s: Res, i: CompletionInput)
    requires s.p.router == p.router && s.p.socket == p.socket && (if s.Go? then s.p.stop && s.p.job == None && !p.socket else s.code == ClockIsUncertain)
    ensures ColdOutcome(p, s, i)
  {
  }

  lemma ColdSame(p: Probe, seen: Probe, s: Res, i: CompletionInput)
    requires ColdOutcome(seen, s, i)
    requires seen.session == p.session && seen.router == p.router && seen.nextSerial == p.nextSerial && seen.specs == p.specs
    requires seen.requests == p.requests && seen.retryCount == p.retryCount
    ensures ColdOutcome(p, s, i)
  {
  }

  function Pow2(n: nat): nat { if n == 0 then 1 else 2 * Pow2(n - 1) }

  /** The waits double from one second and stay at thirty. */
  lemma {:induction false} BackoffDoubles(n: nat)
    ensures Backoff(n) == Seconds(if Pow2(n) < 30 then Pow2(n) else 30)
    ensures n >= 5 ==> Pow2(n) >= 30
  {
    if n > 0 { BackoffDoubles(n - 1); }
  }

  // ----- the retry time -----

  /** The old socket of the handover was drained and closed, and the clock read after that. */
  predicate ClosedCleanly(p: Probe, job: Job, i: CompletionInput) {
    && i.result.error == None && !Greet(p, i).outcome.Rejected?
    && CheckLiveness(p.session, i.at).error == None && Age(i.at, p.jobStarted) < HANDOVER_DEADLINE
    && var t := Drain(p.(session := CheckLiveness(p.session, i.at).session), job.url, i.drain, i.drainEnd, 0);
       t.Ok? && i.closed && Sample(t.p, i.afterClose).Go?
  }

  lemma SampleOtherSocket(p: Probe, r: Reading)
    ensures Sample(p.(socket := false), r) == (match Sample(p, r) case Go(q) => Go(q.(socket := false)) case Fatal(q, c) => Fatal(q.(socket := false), c))
  {
  }

  /** Once the old socket is closed, only stop or the duration ends the attempt early. */
  lemma EndsIff(p: Probe, job: Job, i: CompletionInput)
    requires Core(p) && !p.stop && p.handover
    ensures TryConnect(p, job, i).Ended? <==> ClosedCleanly(p, job, i) && (i.stopAfterClose || Expired(p, i.afterClose))
    ensures TryConnect(p, job, i).Ended? ==> var q := TryConnect(p, job, i).p; !q.socket && q.retryAt == p.retryAt && q.job == p.job
  {
    hide Core, Drain, Greet, Sample, CheckLiveness, Age, FrameDeliveries, RevokedBy;
    if i.result.error == None && !Greet(p, i).outcome.Rejected? {
      var checked := p.(session := CheckLiveness(p.session, i.at).session);
      CheckKeeps(p, i.at);
      DrainKeeps(checked, job.url, i.drain, i.drainEnd, 0);
      var t := Drain(checked, job.url, i.drain, i.drainEnd, 0);
      SampleOtherSocket(t.p, i.afterClose);
      SampleKeeps(t.p.(socket := false), i.afterClose);
    }
  }

  /** Stop, or the duration, is seen right after a handover closed the old socket, in a run in
      which no retry was ever scheduled. */
  predicate CutShort(p: Probe, c: CompletionInput)
    requires p.job.Some?
  {
    && p.handover && p.retryAt == None
    && var sampled := Sample(p.(job := None), c.at);
       sampled.Go? && !c.stopBefore && !Expired(p, c.at) && ClosedCleanly(sampled.p, p.job.value, c)
       && (c.stopAfterClose || Expired(p, c.afterClose))
  }

  predicate StoppedMidHandover(p: Probe, i: StepInput) {
    p.job.Some? && i.jobDone && CutShort(p, i.completion) && Sample(CompleteJob(p, i.completion).p, i.afterJob).Go?
  }

  /** The state after a finished job: without a socket and without a retry time only there. */
  lemma NoRetryTimeIff(p: Probe, c: CompletionInput)
    requires Inv(p) && !p.stop && p.job.Some?
    ensures CompleteJob(p, c).Go? ==> CompleteJob(p, c).p.job == None
    ensures CompleteJob(p, c).Go? && !CompleteJob(p, c).p.socket && CompleteJob(p, c).p.retryAt == None <==> CutShort(p, c)
  {
    hide Core, TryConnect, ClosedCleanly, Lose, Expired, AfterTry, ConnectResult, CompleteJob;
    CompleteIsTry(p, c);
    var taken := p.(job := None);
    CoreFrame(p, taken);
    SampleKeeps(taken, c.at);
    var sampled := Sample(taken, c.at);
    if sampled.Go? {
      var seen := SawStop(sampled.p, c.stopBefore);
      CoreFrame(sampled.p, seen);
      SameDuration(p, seen, c);
      if !(seen.stop || Expired(seen, c.at)) {
        assert seen == sampled.p;
        if seen.handover {
          EndsIff(seen, p.job.value, c);
          HandoverConnect(seen, p.job.value, c);
          TryHandover(seen, p.job.value, c);
        } else {
          ColdConnect(seen, p.job.value, c);
          ColdKeepsRetry(seen, p.job.value, c);
        }
        RetryAfterTry(seen, p.job.value, c);
      }
    }
  }

  lemma SameDuration(p: Probe, q: Probe, c: CompletionInput)
    requires q.duration == p.duration && q.started == p.started
    ensures Expired(q, c.at) == Expired(p, c.at) && Expired(q, c.afterClose) == Expired(p, c.afterClose)
  {
  }

  lemma ColdKeepsRetry(p: Probe, job: Job, c: CompletionInput)
    requires Connecting(p, job) && !p.handover
    ensures var t := TryConnect(p, job, c); !t.Ended? && t.p.job == None && t.p.retryAt == p.retryAt && (t.Ok? ==> t.p.socket)
  {
    hide Core, Bare, Greet, CloseOld, HandoverSession, StartWorker, Adopt;
    var g := Greet(p, c);
    if c.result.error == None && !g.outcome.Rejected? {
      GreetSession(p, c);
      AdoptedFrame(p, g.session.(failed := p.session.failed), c.result.received.value, c.stopAtWorker);
    }
  }

  lemma AdoptedFrame(p: Probe, next: Session, received: Reading, stop: bool)
    ensures var q := StartWorker(Adopt(p, next, received), stop).p; q.job == p.job && q.retryAt == p.retryAt && q.socket
  {
  }

  lemma RetryAfterTry(p: Probe, job: Job, c: CompletionInput)
    requires Connecting(p, job) && ConnectResult(p, TryConnect(p, job, c))
    requires TryConnect(p, job, c).p.job == None && (TryConnect(p, job, c).Ok? ==> TryConnect(p, job, c).p.socket)
    requires p.handover || (p.retryAt.Some? && TryConnect(p, job, c).p.retryAt == p.retryAt && !TryConnect(p, job, c).Ended?)
    requires TryConnect(p, job, c).Ended? ==> !TryConnect(p, job, c).p.socket && TryConnect(p, job, c).p.retryAt == p.retryAt
    ensures var s := AfterTry(TryConnect(p, job, c), c);
            s.Go? ==> s.p.job == None && (!s.p.socket && s.p.retryAt == None <==> TryConnect(p, job, c).Ended? && p.retryAt == None)
    ensures TryConnect(p, job, c).Ended? ==> AfterTry(TryConnect(p, job, c), c).Go?
  {
    hide Core, TryConnect, Lose;
    var t := TryConnect(p, job, c);
    if t.Err? && !Unrecoverable(t.code) {
      if t.p.handover {
        LoseKeeps(t.p, HandoverFailed, c.loss);
      } else {
        ScheduleRetryKeeps(t.p, c.retryFrom);
      }
    }
  }

  /** While stop has not been seen before the tick, the reconnect branch reads an unset retry
      time exactly when the tick's finished job is such a handover. The source then raises an
      internal error, and the run ends without its stop rows. */
  lemma RetryTimeUnsetIff(p: Probe, i: StepInput)
    requires Inv(p) && !p.stop
    ensures var s := Step(p, i);
            s.Fatal? && s.code == RetryTimeUnset <==>
              var taken := Notices(SeeNow(p, i.now), i.notices, false);
              taken.Go? && StoppedMidHandover(taken.p, i)
  {
    hide Core, Jobs, Live, Reconnecting, StoppedMidHandover;
    TakeResults(p, i);
    var seen := SeeNow(p, i.now);
    CoreFrame(p, seen);
    NoticesKeep(seen, i.notices, false);
    var q := Notices(seen, i.notices, false);
    if q.Go? {
      JobsKeep(q.p, i);
      UnsetAfterJobs(q.p, i);
      var r := Jobs(q.p, i);
      if r.Go? && r.p.socket { LiveKeeps(r.p, Tick(q.p, i), i.live); }
    }
  }

  lemma UnsetAfterJobs(q: Probe, i: StepInput)
    requires Inv(q) && !q.stop
    ensures var r := Jobs(q, i);
            (r.Go? && !r.p.socket && Reconnecting(r.p, Tick(q, i), i).Fatal? && Reconnecting(r.p, Tick(q, i), i).code == RetryTimeUnset)
            <==> StoppedMidHandover(q, i)
  {
    hide Core, CompleteJob, CutShort, Lose, Expired;
    if q.job.Some? {
      if i.jobDone {
        NoRetryTimeIff(q, i.completion);
        var s := CompleteJob(q, i.completion);
        SampleKeeps(s.p, i.afterJob);
        OnlyUnset(Sample(s.p, i.afterJob).p, i);
      } else {
        LoseKeeps(q, HandoverTimedOut, i.loss);
        OnlyUnset(Jobs(q, i).p, i);
      }
    } else {
      OnlyUnset(q, i);
    }
  }

  lemma OnlyUnset(r: Probe, i: StepInput)
    ensures forall now :: var s := Reconnecting(r, now, i); s.Fatal? && s.code == RetryTimeUnset <==> r.job == None && r.retryAt == None
  {
  }

  // ----- and that state is reached -----

  const T0 := Reading(0, 0)
  const Fine := Writes(Committed, Committed, Committed, Committed)
  const NoLoss := LossInput(T0, Fine, None, [], T0)

  /** The connection worked; stop is noticed once the old socket is closed. */
  const StopAfterClose := CompletionInput(
    ConnectionResult(None, Welcome("new", 10), Some(T0)), T0, false, [], Quiet, true, T0, true, false, NoLoss, T0)

  function Hearing(frame: Frame): StepInput {
    StepInput(T0, [], false, StopAfterClose, T0, NoLoss, false, false, T0,
              LiveInput(Fine, Received(frame), T0, false, false, true, false, T0, Ineligible, Fine, Fine, NoLoss))
  }

  const JobDone := Hearing(Keepalive).(jobDone := true)

  const Begun := Start({Raids}, {Raids}, "url", None, true, T0, Fine)

  lemma FirstTick()
    ensures var s := Step(Begun, Hearing(Welcome("old", 10)));
            s.Go? && s.p.socket && s.p.worker.Some? && s.p.job == None && !s.p.stop && !s.p.handover && s.p.retryAt == None
            && s.p.session.sessionId == Some("old") && s.p.session.lastLiveness == Some(T0) && s.p.session.timeout == Seconds(10)
            && s.p.specs == {Raids} && s.p.externalClock && s.p.duration == None
  {
    var i := Hearing(Welcome("old", 10)).live;
    var p := SeeNow(Begun, T0);
    var looked := Look(p, T0, Fine);
    assert looked.session == p.session && looked.worker == None;
    assert NoteReady(looked, T0).session.sessionId == None;
    assert Age(T0, looked.connected) == 0;
    assert {Raids} - looked.session.failed == {Raids};
  }

  /** Connected under the old session, no handover yet. */
  predicate Settling(p: Probe) {
    && p.socket && p.worker.Some? && p.job == None && !p.stop && !p.handover && p.retryAt == None
    && p.session.sessionId == Some("old") && p.session.lastLiveness == Some(T0) && p.session.timeout == Seconds(10)
    && p.externalClock && p.duration == None
  }

  lemma HearReconnect(p: Probe)
    requires Settling(p)
    ensures var s := Receive(p, Reconnect("old", "next"), Hearing(Reconnect("old", "next")).live);
            s.Go? && s.p.socket && s.p.job == Some(Job("next", false)) && s.p.handover && !s.p.stop && s.p.retryAt == None
            && s.p.session == p.session && s.p.jobStarted == T0 && s.p.externalClock && s.p.duration == None
  {
    hide Observe, Lose, StartWorker, Dispatch;
    var frame := Reconnect("old", "next");
    var i := Hearing(frame).live;
    assert Accept(p.session, frame, T0) == Accepted(p.session, ReconnectRequest("next"));
    assert CheckLiveness(p.session, T0) == Checked(p.session, None);
    var sampled := Sample(p, T0);
    assert sampled.Go? && sampled.p.session == p.session;
    assert RequestHandover(sampled.p, "next", i.setupComplete, i.stopAtJob, i.jobAt, i.loss) == StartJob(sampled.p, "next", true, false, T0);
  }

  lemma SecondTick(p: Probe)
    requires Settling(p)
    ensures var s := Step(p, Hearing(Reconnect("old", "next")));
            s.Go? && s.p.socket && s.p.job == Some(Job("next", false)) && s.p.handover && !s.p.stop && s.p.retryAt == None
            && s.p.session.lastLiveness == Some(T0) && s.p.session.timeout == Seconds(10) && s.p.jobStarted == T0
            && s.p.externalClock && s.p.duration == None
  {
    hide Observe, Receive;
    var seen := SeeNow(p, T0);
    var noted := NoteReady(Look(seen, T0, Fine), T0);
    HearReconnect(noted);
  }

  lemma ThirdTick(p: Probe)
    requires p.socket && p.job == Some(Job("next", false)) && p.handover && !p.stop && p.retryAt == None
    requires p.session.lastLiveness == Some(T0) && p.session.timeout == Seconds(10) && p.jobStarted == T0
    requires p.externalClock && p.duration == None
    ensures Step(p, JobDone).Fatal? && Step(p, JobDone).code == RetryTimeUnset
  {
    hide CompleteJob;
    JobEnds(SeeNow(p, T0));
  }

  lemma JobEnds(p: Probe)
    requires p.socket && p.job == Some(Job("next", false)) && p.handover && !p.stop && p.retryAt == None
    requires p.session.lastLiveness == Some(T0) && p.session.timeout == Seconds(10) && p.jobStarted == T0
    requires p.externalClock && p.duration == None
    ensures var s := CompleteJob(p, StopAfterClose);
            s.Go? && !s.p.socket && s.p.job == None && s.p.retryAt == None && s.p.externalClock
  {
    hide Observe, Lose, StartWorker, Dispatch, Adopt, ScheduleRetry;
    var seen := SawStop(Sample(p.(job := None), T0).p, false);
    assert !Greet(seen, StopAfterClose).outcome.Rejected?;
    assert CheckLiveness(seen.session, T0) == Checked(seen.session, None);
    assert Drain(seen, "next", [], Quiet, 0) == Ok(seen);
  }

  ghost predicate Unset(p: Probe, i: StepInput) { Step(p, i).Fatal? && Step(p, i).code == RetryTimeUnset }

  /** A welcome, a directed reconnect, and a stop request while the old socket is closed. */
  lemma StopMidHandoverHappens()
    ensures exists p, i :: Reached(p) && !p.stop && Unset(p, i)
  {
    hide Step;
    FirstTick();
    var a, b := Hearing(Welcome("old", 10)), Hearing(Reconnect("old", "next"));
    var p := Step(Begun, a).p;
    SecondTick(p);
    var q := Step(p, b).p;
    ThirdTick(q);
    var es := [Ticked(a), Ticked(b)];
    assert es[1..] == [Ticked(b)] && es[1..][1..] == [];
    assert RunOf(q, []) == Go(q);
    assert RunOf(p, es[1..]) == Go(q);
    assert Reaches(q, Begun, es);
    assert Unset(q, JobDone);
  }
}
