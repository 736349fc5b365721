/** Guarantees over whole runs of the recovery protocol. */
module RecoveryGuarantees {
  import opened Common
  import opened EventSink
  import opened EventSub
  import opened EventRouter
  import opened RouterGuarantees
  import opened Recovery
  import opened RecoveryInvariants
  import opened RecoveryRuns

  // ----- what one part of a tick may do to failed sources and gap times -----

  ghost predicate Timed(p: Probe) { p.monotone ==> TimedTo(p.router, p.clock) }

  /** From p to q: failures stay; sinks of failed sources stay down without a healthy row; the
      clock only goes forward while it is monotone, and row times with it; nothing but polling
      states is written once storage failed; and no setup is requested for a failed source. */
  ghost predicate Rel(p: Probe, q: Probe) {
    && p.session.failed <= q.session.failed
    && Muted(p.router, q.router, p.session.failed)
    && (q.monotone ==> p.monotone && p.clock <= q.clock)
    && (Timed(p) ==> Timed(q))
    && NoRequestFor(p.requests, q.requests, p.session.failed)
    && Frozen(p.router, q.router)
  }

  /** Setup workers started since then were given none of these sources. */
  ghost predicate NoRequestFor(a: seq<set<Source>>, b: seq<set<Source>>, failed: set<Source>) {
    a <= b && forall i :: |a| <= i < |b| ==> b[i] !! failed
  }

  lemma RelTransitive(p: Probe, q: Probe, r: Probe)
    requires Rel(p, q) && Rel(q, r)
    ensures Rel(p, r)
  {
    hide Frozen, Muted, Timed;
    FrozenTransitive(p.router, q.router, r.router);
    MutedTransitive(p.router, q.router, r.router, p.session.failed, q.session.failed);
  }

  /** Nothing written. */
  lemma RelSame(p: Probe, q: Probe)
    requires q.router == p.router && p.session.failed <= q.session.failed && NoRequestFor(p.requests, q.requests, p.session.failed)
    requires q.monotone ==> p.monotone && p.clock <= q.clock
    ensures Rel(p, q)
  {
    hide TimedTo;
    if Timed(p) && q.monotone { TimedLater(p.router, p.clock, q.clock); }
  }

  lemma RelSample(p: Probe, r: Reading)
    ensures Rel(p, Sample(p, r).p)
  {
    hide Rel;
    RelSame(p, Sample(p, r).p);
  }

  /** One call of the router, made at the latest reading. */
  lemma RelWrite(p: Probe, r: Router)
    requires Muted(p.router, r, p.session.failed) && Frozen(p.router, r)
    requires p.monotone && TimedTo(p.router, p.clock) ==> TimedTo(r, p.clock)
    ensures Rel(p, p.(router := r))
  {
    hide Muted, Frozen, TimedTo;
  }

  lemma SinksRunning(r: Router)
    requires FlagsAgree(r) && !r.stopped
    ensures Running(r.sinks)
  {
  }

  // ----- the three writers -----

  lemma RelLook(p: Probe, now: Reading, w: Writes)
    requires Core(p) && (p.monotone ==> now.utc <= p.clock)
    requires Timed(p) && p.monotone && AnyReady(p.router, p.session) ==> TimedTo(p.router, now.utc)
    ensures Rel(p, Look(p, now, w))
  {
    hide Rel, Observe, Muted, Frozen, TimedTo, Running;
    SinksRunning(p.router);
    ObserveMutes(p.router, p.session, now, w);
    CallsFreeze(p.router, p.session, now, NetworkError, 0, Delivery(false, Chat, 0), Ineligible, 0, w);
    if p.monotone && TimedTo(p.router, p.clock) {
      if AnyReady(p.router, p.session) {
        ObserveTimes(p.router, p.session, now, w);
        TimedLater(Observe(p.router, p.session, now, w), now.utc, p.clock);
      } else {
        ObserveNothing(p.router, p.session, now, w);
      }
    }
    RelWrite(p, Observe(p.router, p.session, now, w));
  }

  lemma RelDisconnect(p: Probe, code: Code, at: Reading, w: Writes)
    requires Core(p) && (p.monotone ==> at.utc == p.clock)
    ensures Rel(p, Disconnect(p, code, at, w))
  {
    hide Rel, TransportLost, Muted, Frozen, TimedTo, Running;
    SinksRunning(p.router);
    var r := TransportLost(p.router, LossReason(code), at.utc, p.session.serial, w);
    LostMutes(p.router, LossReason(code), at.utc, p.session.serial, w, p.session.failed);
    CallsFreeze(p.router, p.session, at, LossReason(code), p.session.serial, Delivery(false, Chat, 0), Ineligible, at.utc, w);
    if p.monotone && TimedTo(p.router, p.clock) { LostTimes(p.router, LossReason(code), at.utc, p.session.serial, w); }
    RelWrite(p, r);
    RelSame(p.(router := r), p.(router := r, socket := false));
    RelTransitive(p, p.(router := r), p.(router := r, socket := false));
  }

  lemma RelDispatch(p: Probe, d: Delivery, at: int, submission: Submission, w: Writes)
    requires FlagsAgree(p.router) && !p.router.stopped && (p.monotone ==> at == p.clock)
    ensures Rel(p, p.(router := Dispatch(p.router, d, at, submission, w)))
  {
    hide Rel, Dispatch, Muted, Frozen, TimedTo, Running;
    SinksRunning(p.router);
    DispatchMutes(p.router, d, at, submission, w, p.session.failed);
    CallsFreeze(p.router, p.session, Reading(at, at), NetworkError, 0, d, submission, at, w);
    if p.monotone && TimedTo(p.router, p.clock) { DispatchTimes(p.router, d, at, submission, w); }
    RelWrite(p, Dispatch(p.router, d, at, submission, w));
  }

  // ----- the rest of a tick follows -----

  lemma RelNotices(p: Probe, ns: seq<Notice>, discard: bool)
    requires Core(p) && (discard || !IsLost(p) || p.worker == None)
    ensures Rel(p, Notices(p, ns, discard).p)
  {
    hide Rel, Core;
    NoticesKeep(p, ns, discard);
    RelSame(p, Notices(p, ns, discard).p);
  }

  lemma RelFinish(p: Probe, ns: seq<Notice>, from: Reading)
    requires Core(p) && IsLost(p) && (!p.router.storageFailed ==> p.router.ready == {})
    ensures var q := StopWorker(p, ns); Rel(p, q.p) && (q.Go? ==> Rel(p, ScheduleRetry(q.p, from).p))
  {
    hide Rel, StopWorker;
    StopWorkerKeeps(p, ns);
    var q := StopWorker(p, ns);
    RelSame(p, q.p);
    if q.Go? {
      ScheduleRetryKeeps(q.p, from);
      RelSame(q.p, ScheduleRetry(q.p, from).p);
      RelTransitive(p, q.p, ScheduleRetry(q.p, from).p);
    }
  }

  lemma RelWindDown(p: Probe, i: LossInput)
    requires Core(p) && IsLost(p) && (!p.router.storageFailed ==> p.router.ready == {})
    ensures Rel(p, WindDown(p, i).p)
  {
    hide Rel, StopWorker, ScheduleRetry;
    var cleared := p.(job := None, handover := false);
    RelSame(p, p.(job := None));
    RelSame(p, cleared);
    CoreFrame(p, cleared);
    RelFinish(cleared, i.notices, i.retryFrom);
    RelTransitive(p, cleared, StopWorker(cleared, i.notices).p);
    if StopWorker(cleared, i.notices).Go? {
      RelTransitive(p, cleared, ScheduleRetry(StopWorker(cleared, i.notices).p, i.retryFrom).p);
    }
  }

  lemma RelLose(p: Probe, code: Code, i: LossInput)
    requires Core(p)
    ensures Rel(p, Lose(p, code, i).p)
  {
    hide Rel, WindDown;
    var silenced := Silenced(p);
    SilencedKeeps(p);
    RelSame(p, silenced);
    SampleKeeps(silenced, i.lostAt);
    var sampled := Sample(silenced, i.lostAt);
    RelSample(silenced, i.lostAt);
    RelTransitive(p, silenced, sampled.p);
    if sampled.Go? {
      var down := Disconnect(sampled.p, code, i.lostAt, i.writes);
      DisconnectKeeps(sampled.p, code, i.lostAt, i.writes);
      RelDisconnect(sampled.p, code, i.lostAt, i.writes);
      RelTransitive(p, sampled.p, down);
      RelWindDown(down, i);
      RelTransitive(p, down, WindDown(down, i).p);
    }
  }

  lemma RelStartWorker(p: Probe, stop: bool)
    ensures Rel(p, StartWorker(p, stop).p)
  {
    hide Rel;
    RelSame(p, StartWorker(p, stop).p);
  }

  lemma RelStartJob(p: Probe, url: string, handover: bool, stop: bool, at: Reading)
    ensures Rel(p, StartJob(p, url, handover, stop, at).p)
  {
    hide Rel;
    RelSame(p, StartJob(p, url, handover, stop, at).p);
  }

  lemma SampleClock(p: Probe, r: Reading)
    ensures Sample(p, r).p.clock == r.utc
  {
  }

  lemma CoreRouter(p: Probe)
    requires Core(p)
    ensures FlagsAgree(p.router) && !p.router.stopped
  {
  }

  lemma RelDrainOne(p: Probe, x: DrainItem)
    requires Core(p) && p.clock == x.at.utc
    ensures Rel(p, DrainOne(p, x))
  {
    hide Rel, Accept, Dispatch, FlagsAgree;
    AcceptedFrame(p, x.frame, x.at);
    var a := Accept(p.session, x.frame, x.at);
    var q := p.(session := a.session);
    RelSame(p, q);
    if a.outcome.Deliver? {
      RelDispatch(q, a.outcome.delivery, x.at.utc, x.submission, x.writes);
      RelTransitive(p, q, DrainOne(p, x));
    }
  }

  lemma {:induction false} RelDrain(p: Probe, url: string, items: seq<DrainItem>, end: DrainEnd, k: nat)
    requires Core(p)
    ensures Rel(p, Drain(p, url, items, end, k).p)
    decreases |items|
  {
    hide Core, Rel, DrainOne, Accept, Sample;
    RelSame(p, p);
    if k != DRAIN_LIMIT && items != [] {
      SampledFrame(p, items[0]);
      var s := Sample(p, items[0].at);
      RelSample(p, items[0].at);
      SampleClock(p, items[0].at);
      if s.Go? {
        var q := DrainOne(s.p, items[0]);
        RelDrainOne(s.p, items[0]);
        RelTransitive(p, s.p, q);
        RelDrain(q, url, items[1..], end, k + 1);
        RelTransitive(p, q, Drain(q, url, items[1..], end, k + 1).p);
      }
    }
  }

  lemma RelAfterClose(q: Probe, next: Session, jobStarted: Reading, i: CompletionInput)
    ensures Rel(q, AfterClose(q, next, jobStarted, i).p)
  {
    hide Rel, Sample, Expired, CheckLiveness, Age;
    var down := q.(socket := false);
    SampleKeeps(down, i.afterClose);
    var s := Sample(down, i.afterClose);
    RelSame(q, s.p);
    RelSame(q, SawStop(s.p, i.stopAfterClose));
    RelSame(q, EndRun(SawStop(s.p, i.stopAfterClose)));
  }

  lemma RelCloseOld(p: Probe, next: Session, url: string, i: CompletionInput)
    requires Core(p)
    ensures Rel(p, CloseOld(p, next, url, i).p)
  {
    hide Core, Rel, Drain;
    CheckKeeps(p, i.at);
    var checked := p.(session := CheckLiveness(p.session, i.at).session);
    RelSame(p, checked);
    RelDrain(checked, url, i.drain, i.drainEnd, 0);
    var t := Drain(checked, url, i.drain, i.drainEnd, 0);
    RelTransitive(p, checked, t.p);
    if t.Ok? && i.closed {
      RelAfterClose(t.p, next, p.jobStarted, i);
      RelTransitive(p, t.p, AfterClose(t.p, next, p.jobStarted, i).p);
    }
  }

  lemma RelTryConnect(p: Probe, job: Job, i: CompletionInput)
    requires Core(p)
    ensures Rel(p, TryConnect(p, job, i).p)
  {
    hide Rel, CloseOld, StartWorker, Greet;
    RelSame(p, p);
    var g := Greet(p, i);
    GreetSession(p, i);
    if i.result.error == None && !g.outcome.Rejected? {
      if p.handover {
        RelCloseOld(p, g.session, job.url, i);
        var t := CloseOld(p, g.session, job.url, i);
        if t.Ok? {
          var a := Adopt(t.p, HandoverSession(g.session, t.p.session, i.afterClose), i.result.received.value).(handover := false);
          RelSame(t.p, a);
          RelTransitive(p, t.p, a);
        }
      } else {
        var q := Adopt(p, g.session.(failed := p.session.failed), i.result.received.value);
        RelSame(p, q);
        RelStartWorker(q, i.stopAtWorker);
        var s := StartWorker(q, i.stopAtWorker);
        RelTransitive(p, q, s.p);
        RelSame(s.p, s.p.(handover := false));
        RelTransitive(p, s.p, s.p.(handover := false));
      }
    }
  }

  lemma RelAfterTry(t: Try, i: CompletionInput)
    requires Core(t.p)
    ensures Rel(t.p, AfterTry(t, i).p)
  {
    hide Rel, Lose;
    RelSame(t.p, t.p);
    if t.Err? && !Unrecoverable(t.code) {
      if t.p.handover { RelLose(t.p, HandoverFailed, i.loss); }
      else { RelSame(t.p, ScheduleRetry(t.p, i.retryFrom).p); }
    }
  }

  lemma RelTaken(p: Probe, i: CompletionInput)
    ensures var sampled := Sample(p.(job := None), i.at);
            var seen := SawStop(sampled.p, i.stopBefore);
            Rel(p, sampled.p) && Rel(p, seen) && Rel(p, EndRun(seen))
  {
    hide Rel, Sample;
    SampleKeeps(p.(job := None), i.at);
    var sampled := Sample(p.(job := None), i.at);
    var seen := SawStop(sampled.p, i.stopBefore);
    RelSame(p, sampled.p);
    RelSame(p, seen);
    RelSame(p, EndRun(seen));
  }

  lemma RelCompleteJob(p: Probe, i: CompletionInput)
    requires Inv(p) && p.job.Some?
    ensures Rel(p, CompleteJob(p, i).p)
  {
    hide Core, Shape, Rel, TryConnect, Lose, EndRun, Sample;
    var sampled := Sample(p.(job := None), i.at);
    RelTaken(p, i);
    if sampled.Go? {
      var seen := SawStop(sampled.p, i.stopBefore);
      if !(seen.stop || Expired(seen, i.at)) {
        TryKeepsCore(p, i, seen, p.job.value);
        RelConnected(seen, p.job.value, i);
        RelTransitive(p, seen, AfterTry(TryConnect(seen, p.job.value, i), i).p);
      }
    }
  }

  lemma RelConnected(p: Probe, job: Job, i: CompletionInput)
    requires Core(p) && Core(TryConnect(p, job, i).p)
    ensures Rel(p, AfterTry(TryConnect(p, job, i), i).p)
  {
    hide Rel, Core, TryConnect, AfterTry;
    RelTryConnect(p, job, i);
    var t := TryConnect(p, job, i);
    RelAfterTry(t, i);
    RelTransitive(p, t.p, AfterTry(t, i).p);
  }

  lemma TryKeepsCore(p: Probe, i: CompletionInput, seen: Probe, job: Job)
    requires Inv(p) && p.job == Some(job) && Sample(p.(job := None), i.at).Go?
    requires seen == SawStop(Sample(p.(job := None), i.at).p, i.stopBefore) && !seen.stop
    ensures Connecting(seen, job) && ConnectResult(seen, TryConnect(seen, job, i))
  {
    CoreFrame(p, seen);
    if seen.handover { HandoverConnect(seen, job, i); } else { ColdConnect(seen, job, i); }
  }

  lemma RelRequestHandover(p: Probe, url: string, setupComplete: bool, stop: bool, at: Reading, loss: LossInput)
    requires Core(p)
    ensures Rel(p, RequestHandover(p, url, setupComplete, stop, at, loss).p)
  {
    hide Rel, Lose, StartJob;
    RelSame(p, p);
    if p.job.Some? { RelLose(p, HandoverConflict, loss); }
    else if p.worker == None || !setupComplete { RelLose(p, HandoverDuringSetup, loss); }
    else { RelStartJob(p, url, true, stop, at); }
  }

  /** A look at reading `now`, which the probe took and nothing later has been written. */
  lemma RelLookNow(p: Probe, now: Reading, w: Writes)
    requires Core(p) && p.clock == now.utc
    ensures Rel(p, Look(p, now, w))
  {
    hide Rel, TimedTo, Look, AnyReady;
    RelLook(p, now, w);
  }

  /** The second look of a tick, after a handover request: a job may have been started, or the
      transport lost, since reading i.at. */
  lemma RelLookAfterRequest(q: Probe, url: string, i: LiveInput)
    requires Inv(q) && q.socket && q.clock == i.at.utc
    ensures var r := RequestHandover(q, url, i.setupComplete, i.stopAtJob, i.jobAt, i.loss);
            r.Go? ==> Rel(q, Look(r.p, i.at, i.observeWrites))
  {
    hide Rel, Core, Shape, TimedTo, RequestHandover, Look;
    var r := RequestHandover(q, url, i.setupComplete, i.stopAtJob, i.jobAt, i.loss);
    RelRequestHandover(q, url, i.setupComplete, i.stopAtJob, i.jobAt, i.loss);
    RequestHandoverKeeps(q, url, i.setupComplete, i.stopAtJob, i.jobAt, i.loss);
    AfterRequestRows(q, url, i);
    if r.Go? {
      RelParts(q, r.p);
      if AnyReady(r.p.router, r.p.session) && !Timed(q) {
        LookOutOfOrder(q, r.p, i.at, i.observeWrites);
      } else {
        RelLook(r.p, i.at, i.observeWrites);
        RelTransitive(q, r.p, Look(r.p, i.at, i.observeWrites));
      }
    }
  }

  lemma RelParts(p: Probe, q: Probe)
    requires Rel(p, q)
    ensures q.monotone ==> p.monotone && p.clock <= q.clock
  {
    hide Muted, Frozen, Timed;
  }

  lemma LookOutOfOrder(q: Probe, r: Probe, now: Reading, w: Writes)
    requires Core(r) && Rel(q, r) && !Timed(q)
    ensures Rel(q, Look(r, now, w))
  {
    hide Observe, Muted, Frozen, TimedTo;
    var l := Observe(r.router, r.session, now, w);
    ObserveMutes(r.router, r.session, now, w);
    MutedTransitive(q.router, r.router, l, q.session.failed, r.session.failed);
    CallsFreeze(r.router, r.session, now, NetworkError, 0, Delivery(false, Chat, 0), Ineligible, 0, w);
    FrozenTransitive(q.router, r.router, l);
  }

  lemma AfterRequestRows(q: Probe, url: string, i: LiveInput)
    requires Inv(q) && q.socket
    ensures var r := RequestHandover(q, url, i.setupComplete, i.stopAtJob, i.jobAt, i.loss);
            r.Go? && AnyReady(r.p.router, r.p.session) ==> r.p.router == q.router
  {
    if q.job.Some? { LoseKeeps(q, HandoverConflict, i.loss); }
    else if q.worker == None || !i.setupComplete { LoseKeeps(q, HandoverDuringSetup, i.loss); }
    else { StartJobKeeps(q, url, true, i.stopAtJob, i.jobAt); }
  }

  lemma RelActOn(q: Probe, outcome: Outcome, i: LiveInput)
    requires Inv(q) && q.socket && q.clock == i.at.utc && !outcome.Deliver?
    ensures Rel(q, (if outcome.ReconnectRequest? then
                      (var r := RequestHandover(q, outcome.url, i.setupComplete, i.stopAtJob, i.jobAt, i.loss);
                       if r.Go? then Look(r.p, i.at, i.observeWrites) else r.p)
                    else Look(q, i.at, i.observeWrites)))
  {
    hide Rel, RequestHandover, Look, Core, Shape;
    if outcome.ReconnectRequest? {
      RelRequestHandover(q, outcome.url, i.setupComplete, i.stopAtJob, i.jobAt, i.loss);
      RelLookAfterRequest(q, outcome.url, i);
    } else {
      RelLookNow(q, i.at, i.observeWrites);
    }
  }

  lemma RelAct(p: Probe, frame: Frame, i: LiveInput)
    requires Inv(p) && p.socket && p.clock == i.at.utc
    requires !Accept(p.session, frame, i.at).outcome.Rejected?
    ensures var a := Accept(p.session, frame, i.at); Rel(p, Act(p.(session := a.session), a.outcome, i).p)
  {
    hide Core, Shape, Rel, Look, Accept, FlagsAgree, Dispatch, RequestHandover;
    var a := Accept(p.session, frame, i.at);
    var q := p.(session := a.session);
    AcceptedFrame(p, frame, i.at);
    RelSame(p, q);
    if p.worker == None {
      CoreSession(p);
      AcceptStep(p.session, frame, i.at);
      BareAccepts(p, a.session);
      RelActFirst(p, q, a.outcome, i);
    } else if a.outcome.Deliver? {
      DeliverKeeps(p, frame, i.at, i.submission, i.dispatchWrites);
      CoreRouter(p);
      RelDeliver(p, q, a.outcome.delivery, i);
    } else {
      RelActOn(q, a.outcome, i);
      RelTransitive(p, q, Act(q, a.outcome, i).p);
    }
  }

  lemma RelActFirst(p: Probe, q: Probe, outcome: Outcome, i: LiveInput)
    requires Inv(q) && q.socket && q.worker == None && q.clock == i.at.utc && Rel(p, q) && !outcome.Rejected?
    ensures Rel(p, Act(q, outcome, i).p)
  {
    hide Rel, Core, Shape;
    FirstWorker(q, i.stopAtWorker);
    RelStartWorker(q, i.stopAtWorker);
    var s := StartWorker(q, i.stopAtWorker);
    RelTransitive(p, q, s.p);
    if s.Go? { RelActStarted(p, q, s.p, outcome, i); }
  }

  lemma RelActStarted(p: Probe, q: Probe, s: Probe, outcome: Outcome, i: LiveInput)
    requires Inv(s) && s.socket && s.clock == i.at.utc && Rel(p, s) && q.worker == None && !outcome.Rejected?
    requires StartWorker(q, i.stopAtWorker) == Go(s)
    ensures Rel(p, Act(q, outcome, i).p)
  {
    hide Rel, Core, Shape, StartWorker, RequestHandover, Look, Dispatch;
    if outcome.Deliver? {
      DispatchCore(s, outcome.delivery, i.at.utc, i.submission, i.dispatchWrites);
      CoreRouter(s);
      RelDeliver(p, s, outcome.delivery, i);
    } else {
      RelActOn(s, outcome, i);
      RelTransitive(p, s, Act(q, outcome, i).p);
    }
  }

  /** Between acceptance and dispatch of a revocation the session is ahead of the flags. */
  lemma RelDeliver(p: Probe, q: Probe, d: Delivery, i: LiveInput)
    requires q.clock == i.at.utc && Rel(p, q) && FlagsAgree(q.router) && !q.router.stopped
    requires Core(q.(router := Dispatch(q.router, d, i.at.utc, i.submission, i.dispatchWrites)))
    ensures Rel(p, Look(q.(router := Dispatch(q.router, d, i.at.utc, i.submission, i.dispatchWrites)), i.at, i.observeWrites))
  {
    hide Rel, Core, Dispatch, Look, FlagsAgree;
    var r := q.(router := Dispatch(q.router, d, i.at.utc, i.submission, i.dispatchWrites));
    RelDispatch(q, d, i.at.utc, i.submission, i.dispatchWrites);
    RelTransitive(p, q, r);
    RelLookNow(r, i.at, i.observeWrites);
    RelTransitive(p, r, Look(r, i.at, i.observeWrites));
  }

  lemma RelTakeFrame(p: Probe, frame: Frame, i: LiveInput)
    requires Inv(p) && p.socket && p.clock == i.at.utc
    ensures Rel(p, TakeFrame(p, frame, i).p)
  {
    hide Rel, Act, Lose, Accept;
    var a := Accept(p.session, frame, i.at);
    if a.outcome.Rejected? {
      AcceptedFrame(p, frame, i.at);
      var q := p.(session := a.session);
      RelSame(p, q);
      if a.outcome.code == KeepaliveTimedOut {
        RelLose(q, a.outcome.code, i.loss);
        RelTransitive(p, q, Lose(q, a.outcome.code, i.loss).p);
      }
    } else {
      RelAct(p, frame, i);
    }
  }

  lemma RelHandle(p: Probe, frame: Frame, i: LiveInput)
    requires Inv(p) && p.socket && p.clock == i.at.utc
    ensures Rel(p, Handle(p, frame, i).p)
  {
    hide Core, Shape, Rel, Lose, TakeFrame;
    var seen := SawStop(p, i.stop);
    SawStopKeeps(p, i.stop);
    RelSame(p, seen);
    RelLose(seen, WelcomeTimedOut, i.loss);
    RelTransitive(p, seen, Lose(seen, WelcomeTimedOut, i.loss).p);
    RelTakeFrame(seen, frame, i);
    RelTransitive(p, seen, TakeFrame(seen, frame, i).p);
  }

  lemma RelReceive(p: Probe, frame: Frame, i: LiveInput)
    requires Inv(p) && p.socket
    ensures Rel(p, Receive(p, frame, i).p)
  {
    hide Core, Shape, Rel, Lose, Handle;
    SampleKeeps(p, i.at);
    var sampled := Sample(p, i.at);
    RelSample(p, i.at);
    if sampled.Go? {
      CheckKeeps(sampled.p, i.at);
      var c := CheckLiveness(sampled.p.session, i.at);
      var checked := sampled.p.(session := c.session);
      RelSame(sampled.p, checked);
      RelTransitive(p, sampled.p, checked);
      if c.error.Some? { RelLose(checked, c.error.value, i.loss); } else { RelHandle(checked, frame, i); }
      RelTransitive(p, checked, Receive(p, frame, i).p);
    }
  }

  lemma RelListen(p: Probe, now: Reading, i: LiveInput)
    requires Inv(p) && p.socket
    ensures Rel(p, Listen(p, now, i).p)
  {
    hide Rel, Lose, Receive;
    var noted := NoteReady(p, now);
    NotedKeeps(p, now);
    RelSame(p, noted);
    if WelcomeOverdue(p, now) {
      RelLose(p, WelcomeTimedOut, i.loss);
    } else if i.receipt.SocketError? {
      RelLose(noted, NetworkLost, i.loss);
      RelTransitive(p, noted, Lose(noted, NetworkLost, i.loss).p);
    } else if i.receipt.Received? {
      RelReceive(noted, i.receipt.frame, i);
      RelTransitive(p, noted, Receive(noted, i.receipt.frame, i).p);
    }
  }

  lemma RelLive(p: Probe, now: Reading, i: LiveInput)
    requires Inv(p) && p.socket && p.clock == now.utc
    ensures Rel(p, Live(p, now, i).p)
  {
    hide Rel, Lose, Listen, CheckLiveness;
    CheckKeeps(p, now);
    var c := CheckLiveness(p.session, now);
    var checked := p.(session := c.session);
    RelSame(p, checked);
    if c.error.Some? {
      RelLose(checked, c.error.value, i.loss);
      RelTransitive(p, checked, Lose(checked, c.error.value, i.loss).p);
    } else {
      var looked := Look(checked, now, i.writes);
      LookFresh(p, now, i.writes);
      RelLookNow(checked, now, i.writes);
      RelTransitive(p, checked, looked);
      RelListen(looked, now, i);
      RelTransitive(p, looked, Listen(looked, now, i).p);
    }
  }

  lemma RelReconnecting(p: Probe, now: Reading, i: StepInput)
    ensures Rel(p, Reconnecting(p, now, i).p)
  {
    hide Rel;
    var q := SawStop(p, i.stopAtReconnect);
    RelSame(p, p);
    RelSame(p, q);
    RelStartJob(q, q.url, false, i.stopAtJob, i.jobAt);
    RelTransitive(p, q, StartJob(q, q.url, false, i.stopAtJob, i.jobAt).p);
  }

  lemma RelJobs(p: Probe, i: StepInput)
    requires Inv(p) && p.clock == i.now.utc
    ensures Rel(p, Jobs(p, i).p)
    ensures Jobs(p, i).Go? && Jobs(p, i).p.socket ==> Jobs(p, i).p.clock == Tick(p, i).utc
  {
    hide Rel, CompleteJob, Lose;
    RelSame(p, p);
    if p.job.Some? {
      if i.jobDone {
        CompleteJobKeeps(p, i.completion);
        RelCompleteJob(p, i.completion);
        var q := CompleteJob(p, i.completion);
        if q.Go? {
          RelSample(q.p, i.afterJob);
          RelTransitive(p, q.p, Sample(q.p, i.afterJob).p);
        }
      } else {
        RelLose(p, HandoverTimedOut, i.loss);
        LoseKeeps(p, HandoverTimedOut, i.loss);
      }
    }
  }

  lemma RelStep(p: Probe, i: StepInput)
    requires Inv(p)
    ensures Rel(p, Step(p, i).p)
  {
    hide Core, Rel, Jobs, Live, Reconnecting;
    var seen := SeeNow(p, i.now);
    CoreFrame(p, seen);
    RelSame(p, seen);
    TakeResults(p, i);
    RelNotices(seen, i.notices, false);
    NoticesKeep(seen, i.notices, false);
    var q := Notices(seen, i.notices, false);
    RelTransitive(p, seen, q.p);
    if q.Go? {
      RelTick(q.p, i);
      RelTransitive(p, q.p, Step(p, i).p);
    }
  }

  /** The part of step after notices. */
  function AfterNoticesStep(q: Probe, i: StepInput): Res {
    var r :- Jobs(q, i);
    if !r.socket then Reconnecting(r, Tick(q, i), i) else Live(r, Tick(q, i), i.live)
  }

  lemma RelTick(q: Probe, i: StepInput)
    requires Inv(q) && q.clock == i.now.utc
    ensures Rel(q, AfterNoticesStep(q, i).p)
  {
    hide Rel, Jobs, Live, Reconnecting;
    JobsKeep(q, i);
    RelJobs(q, i);
    var r := Jobs(q, i);
    if r.Go? {
      if r.p.socket { RelLive(r.p, Tick(q, i), i.live); } else { RelReconnecting(r.p, Tick(q, i), i); }
      RelTransitive(q, r.p, AfterNoticesStep(q, i).p);
    }
  }
}
