/** What holds in every reachable state of the recovery protocol. */
module RecoveryInvariants {
  import opened Common
  import opened EventSink
  import opened EventSub
  import opened EventRouter
  import opened Recovery

  /** The session now in the probe is one whose transport loss was reported. */
  predicate IsLost(p: Probe) { p.router.lastLost == Some(p.session.serial) }

  /** Losses name sessions up to the current one; a lost session has no confirmed subscription
      and, while storage works, an open gap row; an open row was opened by a loss no later than
      the latest. */
  predicate LossMemory(p: Probe) {
    && (p.router.lastLost.Some? ==> p.router.lastLost.value <= p.session.serial)
    && (IsLost(p) ==> p.session.ids == map[] && (p.router.storageFailed || p.router.openGap.Some?))
    && (p.router.openGap.Some? && !Closed(p.router.gaps) ==>
          p.router.lastLost.Some? && p.router.gaps[|p.router.gaps| - 1].lost <= p.router.lastLost.value)
  }

  /** A source the worker has yet to report is neither confirmed nor flagged ready. */
  predicate PendingApart(p: Probe) {
    p.worker.Some? ==>
      && p.worker.value.pending !! p.session.ids.Keys
      && (!p.router.storageFailed ==> p.worker.value.pending !! p.router.ready)
  }

  /** A failed or revoked source is not flagged ready. */
  predicate FailedNotReady(p: Probe) {
    !p.router.storageFailed ==> p.session.failed !! p.router.ready
  }

  /** Holds in every state, also when a fatal error ended the run. */
  ghost predicate Core(p: Probe) {
    && RouterInv(p.router) && !p.router.stopped
    && ValidSession(p.session) && p.session.specs == p.specs && p.session.serial < p.nextSerial
    && LossMemory(p) && PendingApart(p) && FailedNotReady(p)
    && !p.overlapped
  }

  /** No worker: nothing is confirmed or flagged ready. */
  predicate Bare(p: Probe) {
    p.worker == None && p.session.ids == map[] && (!p.router.storageFailed ==> p.router.ready == {})
  }

  /** Socket, worker and job between ticks. */
  predicate Shape(p: Probe) {
    // A cold job has no live socket and no worker beside it; a handover job has both.
    && (p.job.Some? && p.job.value.authorized ==> !p.socket && p.worker == None && !p.handover && p.retryAt.Some?)
    && (p.job.Some? && !p.job.value.authorized ==> p.socket && p.worker.Some? && p.handover)
    // Without a socket there is no worker and a retry time, unless the run is ending.
    && (!p.socket && !p.stop ==> p.worker == None)
    && (!p.socket && !p.stop && p.job == None ==> p.retryAt.Some?)
    && (p.handover && p.job == None ==> p.stop)
    && (IsLost(p) ==> !p.socket && p.worker == None)
    && (p.worker == None ==> Bare(p))
  }

  ghost predicate Inv(p: Probe) { Core(p) && Shape(p) }

  /** Core speaks of these parts only. */
  lemma CoreFrame(p: Probe, q: Probe)
    requires p.router == q.router && p.session == q.session && p.worker == q.worker && p.specs == q.specs
    requires p.nextSerial == q.nextSerial && p.overlapped == q.overlapped
    ensures Core(p) == Core(q)
  {
  }

  lemma CoreSession(p: Probe)
    requires Core(p)
    ensures ValidSession(p.session)
  {
  }

  // ----- sampling and notices -----

  lemma SampleKeeps(p: Probe, r: Reading)
    ensures var s := Sample(p, r);
            && s.p == p.(previous := s.p.previous, clock := r.utc, monotone := p.monotone && p.clock <= r.utc)
            && (s.Fatal? ==> s.code == ClockIsUncertain)
    ensures Core(p) ==> Core(Sample(p, r).p)
    ensures Shape(p) ==> Shape(Sample(p, r).p)
  {
  }

  /** What taking notices may change. */
  ghost predicate AfterNotices(p: Probe, q: Probe, discard: bool) {
    && q == p.(session := q.session, worker := q.worker) && q.worker.Some? == p.worker.Some?
    && q.session.serial == p.session.serial && p.session.failed <= q.session.failed
    && q.session.responsive == p.session.responsive
    && (discard ==> q.session.ids == p.session.ids)
  }

  lemma SettleKeeps(p: Probe, n: Notice)
    requires Core(p) && p.worker.Some? && (n.error == None ==> !IsLost(p))
    requires n.source.Some? ==> n.source.value !in p.worker.value.pending
    requires n.source.Some? && !p.router.storageFailed ==> n.source.value !in p.router.ready
    ensures var s := Settle(p, n);
            && Core(s.p) && AfterNotices(p, s.p, n.error.Some?)
            && (s.Fatal? ==> Unrecoverable(s.code))
  {
    hide RouterInv;
    SetupStep(p.session, n);
  }

  lemma TakeNoticeKeeps(p: Probe, n: Notice, discard: bool)
    requires Core(p) && p.worker.Some? && (discard || !IsLost(p))
    ensures var s := TakeNotice(p, n, discard);
            && Core(s.p) && AfterNotices(p, s.p, discard)
            && (s.Fatal? ==> Unrecoverable(s.code))
  {
    hide Core, Settle, AfterNotices, Reported;
    if Posts(p.worker.value, n) {
      TakenKeeps(p, n);
      var taken := p.(worker := Some(Reported(p.worker.value, n)));
      if n.error == None && discard {
        NoticeFrame(p, taken, taken, discard, true);
      } else {
        SettleKeeps(taken, n);
        NoticeFrame(p, taken, Settle(taken, n).p, discard, n.error.Some?);
      }
    } else {
      NoticeFrame(p, p, p, discard, true);
    }
  }

  lemma TakenKeeps(p: Probe, n: Notice)
    requires Core(p) && p.worker.Some? && Posts(p.worker.value, n)
    ensures var taken := p.(worker := Some(Reported(p.worker.value, n)));
            && Core(taken) && IsLost(taken) == IsLost(p)
            && (n.source.Some? ==> n.source.value !in taken.worker.value.pending)
            && (n.source.Some? && !p.router.storageFailed ==> n.source.value !in p.router.ready)
  {
  }

  lemma NoticeFrame(p: Probe, taken: Probe, q: Probe, discard: bool, strict: bool)
    requires p.worker.Some? && taken.worker.Some? && taken == p.(worker := taken.worker)
    requires q == taken || AfterNotices(taken, q, strict)
    requires discard ==> strict
    ensures AfterNotices(p, q, discard)
  {
  }

  lemma {:induction false} NoticesKeep(p: Probe, ns: seq<Notice>, discard: bool)
    requires Core(p) && (discard || !IsLost(p) || p.worker == None)
    ensures var s := Notices(p, ns, discard);
            && Core(s.p) && AfterNotices(p, s.p, discard)
            && (s.Fatal? ==> Unrecoverable(s.code))
            && (p.worker == None ==> s == Go(p))
    decreases |ns|
  {
    hide Core, TakeNotice, ValidSession;
    if ns != [] && p.worker.Some? {
      TakeNoticeKeeps(p, ns[0], discard);
      var s := TakeNotice(p, ns[0], discard);
      if s.Go? { NoticesKeep(s.p, ns[1..], discard); }
    }
  }

  // ----- losing the transport -----

  lemma DisconnectKeeps(p: Probe, code: Code, at: Reading, w: Writes)
    requires Core(p) && p.session.ids == map[]
    ensures var q := Disconnect(p, code, at, w);
            && Core(q) && IsLost(q) && q == p.(router := q.router, socket := false)
            && (!q.router.storageFailed ==> q.router.ready == {} && q.router.openGap.Some?)
            && q.router.calls == p.router.calls && q.router.sinks.Keys == p.router.sinks.Keys
  {
    LostKeeps(p.router, LossReason(code), at.utc, p.session.serial, w);
  }

  /** Where every loss that is not fatal leaves the probe. */
  predicate Down(p: Probe) {
    && !p.socket && p.worker == None && p.job == None && !p.handover && p.retryAt.Some? && p.gapPending
    && IsLost(p) && Bare(p) && !p.session.responsive
  }

  lemma StopWorkerKeeps(p: Probe, ns: seq<Notice>)
    requires Core(p) && IsLost(p) && (!p.router.storageFailed ==> p.router.ready == {})
    ensures var s := StopWorker(p, ns);
            && Core(s.p) && s.p.session.serial == p.session.serial && p.session.failed <= s.p.session.failed
            && s.p == p.(session := s.p.session, worker := s.p.worker) && s.p.session.responsive == p.session.responsive
            && (s.Go? ==> Bare(s.p))
            && (s.Fatal? ==> Unrecoverable(s.code))
  {
    NoticesKeep(p, ns, true);
  }

  lemma ScheduleRetryKeeps(p: Probe, from: Reading)
    requires Core(p)
    ensures var s := ScheduleRetry(p, from);
            && Core(s.p)
            && s.p == p.(retryCount := s.p.retryCount, retryAt := s.p.retryAt, previous := s.p.previous, clock := s.p.clock, monotone := s.p.monotone)
            && (s.Go? ==> s.p.retryAt == Some(from.tick + Backoff(p.retryCount)))
            && (s.Fatal? ==> s.code == ClockIsUncertain)
  {
  }

  /** Losing the transport always ends the same way, whatever was in flight: no socket, worker
      or job, nothing confirmed, a gap open (unless storage failed) and a retry scheduled. */
  lemma LoseKeeps(p: Probe, code: Code, i: LossInput)
    requires Core(p)
    ensures var s := Lose(p, code, i);
            && Core(s.p) && s.p.session.serial == p.session.serial && p.session.failed <= s.p.session.failed && s.p.stop == p.stop
            && s.p.router.calls == p.router.calls && s.p.nextSerial == p.nextSerial
            && (s.Go? ==> Down(s.p) && (!s.p.router.storageFailed ==> s.p.router.openGap.Some?))
            && (s.Fatal? ==> Unrecoverable(s.code))
  {
    hide Core, Sample, WindDown, Silenced, Disconnect, Down;
    SilencedKeeps(p);
    SampleKeeps(Silenced(p), i.lostAt);
    var sampled := Sample(Silenced(p), i.lostAt);
    if sampled.Go? {
      DisconnectKeeps(sampled.p, code, i.lostAt, i.writes);
      WindDownKeeps(Disconnect(sampled.p, code, i.lostAt, i.writes), i);
    }
  }

  lemma SilencedKeeps(p: Probe)
    requires Core(p)
    ensures var q := Silenced(p);
            && Core(q) && q == p.(gapPending := true, session := q.session)
            && q.session.serial == p.session.serial && q.session.failed == p.session.failed && q.session.ids == map[] && !q.session.responsive
  {
  }

  lemma WindDownKeeps(p: Probe, i: LossInput)
    requires Core(p) && IsLost(p) && (!p.router.storageFailed ==> p.router.ready == {})
    requires !p.socket && p.gapPending && !p.session.responsive
    ensures var s := WindDown(p, i);
            && Core(s.p) && s.p.session.serial == p.session.serial && p.session.failed <= s.p.session.failed && s.p.stop == p.stop
            && s.p.router == p.router && s.p.nextSerial == p.nextSerial
            && (s.Go? ==> Down(s.p))
            && (s.Fatal? ==> Unrecoverable(s.code))
  {
    CoreFrame(p, p.(job := None));
    CoreFrame(p, p.(job := None, handover := false));
    FinishKeeps(p.(job := None, handover := false), i.notices, i.retryFrom);
  }

  lemma FinishKeeps(p: Probe, ns: seq<Notice>, from: Reading)
    requires Core(p) && IsLost(p) && (!p.router.storageFailed ==> p.router.ready == {})
    requires !p.socket && p.gapPending && !p.session.responsive && p.job == None && !p.handover
    ensures var q := StopWorker(p, ns);
            var s := if q.Go? then ScheduleRetry(q.p, from) else q;
            && Core(s.p) && s.p.session.serial == p.session.serial && p.session.failed <= s.p.session.failed && s.p.stop == p.stop
            && s.p.router == p.router && s.p.nextSerial == p.nextSerial
            && (s.Go? ==> Down(s.p))
            && (s.Fatal? ==> Unrecoverable(s.code))
  {
    StopWorkerKeeps(p, ns);
    var q := StopWorker(p, ns);
    if q.Go? { ScheduleRetryKeeps(q.p, from); }
  }

  // ----- starting work -----

  lemma StartWorkerKeeps(p: Probe, stop: bool)
    requires Core(p) && Bare(p)
    ensures var s := StartWorker(p, stop);
            && Core(s.p) && s.p == p.(worker := s.p.worker, stop := s.p.stop, requests := s.p.requests) && (p.stop ==> s.p.stop)
            && (s.p.requests == p.requests || s.p.requests == p.requests + [p.specs - p.session.failed])
            && (s.Go? && !s.p.stop ==> s.p.worker.Some? && s.p.worker.value.pending !! p.session.failed)
            && (s.Go? && s.p.stop ==> s.p.worker == None)
            && (s.Fatal? ==> s.code == NoUsableSubscriptions)
  {
  }

  lemma StartJobKeeps(p: Probe, url: string, handover: bool, stop: bool, at: Reading)
    requires Core(p) && p.job == None
    ensures var s := StartJob(p, url, handover, stop, at);
            && Core(s.p) && (s.Fatal? ==> s.code == ClockIsUncertain)
            && s.p == p.(stop := s.p.stop, jobStarted := s.p.jobStarted, handover := s.p.handover, job := s.p.job,
                         previous := s.p.previous, clock := s.p.clock, monotone := s.p.monotone)
            && (p.stop ==> s.p.stop)
            && (s.Go? && s.p.stop ==> s.p.job == None && s.p.handover == p.handover)
            && (s.Go? && !s.p.stop ==> s.p.job == Some(Job(url, !handover)) && s.p.handover == handover)
  {
    SampleKeeps(SawStop(p, stop), at);
  }

  lemma RequestHandoverKeeps(p: Probe, url: string, setupComplete: bool, stop: bool, at: Reading, loss: LossInput)
    requires Inv(p) && p.socket
    ensures var s := RequestHandover(p, url, setupComplete, stop, at, loss);
            Core(s.p) && (s.Go? ==> Inv(s.p)) && (s.Fatal? ==> Unrecoverable(s.code))
  {
    if p.job.Some? {
      LoseKeeps(p, HandoverConflict, loss);
    } else if p.worker == None || !setupComplete {
      LoseKeeps(p, HandoverDuringSetup, loss);
    } else {
      StartJobKeeps(p, url, true, stop, at);
    }
  }

  // ----- looking and acting -----

  lemma LookKeeps(p: Probe, now: Reading, w: Writes)
    requires Core(p)
    requires forall s :: SourceReady(p.session, s) ==> LiveAndConfirmed(p.session, s, now)
    ensures var q := Look(p, now, w);
            && Core(q) && q == p.(router := q.router) && IsLost(q) == IsLost(p) && q.router.calls == p.router.calls
            && (Shape(p) ==> Shape(q))
  {
    hide RouterInv, Observe, Core, Shape, AnyReady, LostBefore, SourceReady, LiveAndConfirmed, Look;
    LookAllowed(p);
    LookFrame(p, now, w);
    ObserveKeeps(p.router, p.session, now, w);
    LookReady(p, Look(p, now, w));
  }

  lemma LookFrame(p: Probe, now: Reading, w: Writes)
    ensures Look(p, now, w) == p.(router := Look(p, now, w).router) && Look(p, now, w).router == Observe(p.router, p.session, now, w)
  {
    hide Observe;
  }

  lemma LookAllowed(p: Probe)
    requires Core(p)
    ensures RouterInv(p.router) && !p.router.stopped && (AnyReady(p.router, p.session) ==> LostBefore(p.router, p.session))
  {
    hide RouterInv;
  }

  lemma LookReady(p: Probe, q: Probe)
    requires Core(p) && q == p.(router := q.router) && RouterInv(q.router) && !q.router.stopped
    requires q.router.lastLost == p.router.lastLost && (p.router.storageFailed ==> q.router.storageFailed)
    requires forall s :: s in q.router.ready && s !in p.router.ready ==> SourceReady(p.session, s)
    requires q.router.openGap.Some? ==> q.router.openGap == p.router.openGap && q.router.gaps == p.router.gaps
    requires q.router.openGap == None && p.router.openGap.Some? ==> AnyReady(p.router, p.session)
    ensures Core(q) && (Shape(p) ==> Shape(q))
  {
  }

  lemma AcceptedFrame(p: Probe, frame: Frame, now: Reading)
    requires Core(p)
    ensures var a := Accept(p.session, frame, now);
            var q := p.(session := a.session);
            && (a.outcome.Rejected? ==> a.outcome.code == KeepaliveTimedOut || a.outcome.code == InvalidMessage)
            && a.session.ids == p.session.ids && a.session.serial == p.session.serial
            && p.session.failed <= a.session.failed
            && (!(a.outcome.Deliver? && a.outcome.delivery.revocation) ==> Core(q) && (Shape(p) ==> Shape(q)))
            && (!a.outcome.Rejected? ==> forall s :: SourceReady(a.session, s) ==> LiveAndConfirmed(a.session, s, now))
  {
    AcceptStep(p.session, frame, now);
    RevocationStep(p.session, frame, now);
  }

  /** A delivery is handed to the router before anything else looks at the session. */
  lemma DeliverKeeps(p: Probe, frame: Frame, now: Reading, submission: Submission, w: Writes)
    requires Core(p) && Accept(p.session, frame, now).outcome.Deliver?
    ensures var a := Accept(p.session, frame, now);
            var q := p.(session := a.session, router := Dispatch(p.router, a.outcome.delivery, now.utc, submission, w));
            && Core(q) && (Shape(p) ==> Shape(q))
            && q.router.calls == p.router.calls + [a.outcome.delivery] && q.router.gaps == p.router.gaps
            && q.router.openGap == p.router.openGap && q.router.lastLost == p.router.lastLost
            && a.session.failed == p.session.failed + (if a.outcome.delivery.revocation then {a.outcome.delivery.source} else {})
  {
    hide Accept, Dispatch, EnvelopeFits;
    var a := Accept(p.session, frame, now);
    AcceptStep(p.session, frame, now);
    RevocationStep(p.session, frame, now);
    DispatchKeeps(p.router, a.outcome.delivery, now.utc, submission, w);
  }

  // ----- completing a connection -----

  /** The deliveries of a batch of frames, in order. */
  function FrameDeliveries(items: seq<DrainItem>): seq<Delivery> {
    if items == [] then []
    else
      (match items[0].frame
       case Notification(e, m) => [Delivery(false, e.source, m)]
       case Revocation(e, m) => [Delivery(true, e.source, m)]
       case _ => [])
      + FrameDeliveries(items[1..])
  }

  /** The sources a batch of frames revokes. */
  function RevokedBy(items: seq<DrainItem>): set<Source> {
    if items == [] then {}
    else (if items[0].frame.Revocation? then {items[0].frame.envelope.source} else {}) + RevokedBy(items[1..])
  }

  /** What draining the old socket may change. */
  ghost predicate Drained(p: Probe, q: Probe) {
    && q == p.(session := q.session, router := q.router, previous := q.previous, clock := q.clock, monotone := q.monotone)
    && q.session.serial == p.session.serial && q.session.ids == p.session.ids && p.session.failed <= q.session.failed
    && q.router.gaps == p.router.gaps && q.router.openGap == p.router.openGap && q.router.lastLost == p.router.lastLost
    && p.router.calls <= q.router.calls
  }

  lemma FrameOutcome(s: Session, x: DrainItem)
    requires ValidSession(s)
    ensures var a := Accept(s, x.frame, x.at);
            && (a.outcome.Deliver? ==> FrameDeliveries([x]) == [a.outcome.delivery]
                                       && RevokedBy([x]) == (if a.outcome.delivery.revocation then {a.outcome.delivery.source} else {}))
            && (a.outcome.Nothing? || a.outcome.ReconnectRequest? ==> FrameDeliveries([x]) == [] && RevokedBy([x]) == {})
  {
  }

  lemma DrainOneKeeps(p: Probe, x: DrainItem)
    requires Core(p)
    ensures var q := DrainOne(p, x);
            && Core(q) && Drained(p, q)
            && (!Accept(p.session, x.frame, x.at).outcome.Rejected? ==>
                  q.router.calls == p.router.calls + FrameDeliveries([x]) && q.session.failed == p.session.failed + RevokedBy([x]))
  {
    hide Core, Accept, DrainOne, Drained, FrameDeliveries, RevokedBy;
    CoreSession(p);
    FrameOutcome(p.session, x);
    if Accept(p.session, x.frame, x.at).outcome.Deliver? { DeliveryDrained(p, x); } else { SilenceDrained(p, x); }
  }

  lemma DeliveryDrained(p: Probe, x: DrainItem)
    requires Core(p) && Accept(p.session, x.frame, x.at).outcome.Deliver?
    ensures var q := DrainOne(p, x);
            var d := Accept(p.session, x.frame, x.at).outcome.delivery;
            && Core(q) && Drained(p, q) && q.router.calls == p.router.calls + [d]
            && q.session.failed == p.session.failed + (if d.revocation then {d.source} else {})
  {
    hide Core, Accept, Dispatch;
    AcceptedFrame(p, x.frame, x.at);
    DeliverKeeps(p, x.frame, x.at, x.submission, x.writes);
  }

  lemma SilenceDrained(p: Probe, x: DrainItem)
    requires Core(p) && !Accept(p.session, x.frame, x.at).outcome.Deliver?
    ensures var q := DrainOne(p, x); Core(q) && Drained(p, q) && q.router == p.router && q.session.failed == p.session.failed
  {
    hide Core, Accept;
    CoreSession(p);
    AcceptedFrame(p, x.frame, x.at);
    RevocationStep(p.session, x.frame, x.at);
  }

  lemma ConsDeliveries(items: seq<DrainItem>)
    requires items != []
    ensures FrameDeliveries(items) == FrameDeliveries([items[0]]) + FrameDeliveries(items[1..])
    ensures RevokedBy(items) == RevokedBy([items[0]]) + RevokedBy(items[1..])
  {
  }

  lemma DrainedTransitive(p: Probe, q: Probe, r: Probe)
    requires Drained(p, q) && Drained(q, r)
    ensures Drained(p, r)
  {
  }

  ghost predicate DrainResult(p: Probe, t: Try, items: seq<DrainItem>) {
    && Core(t.p) && Drained(p, t.p) && !t.Ended? && (t.Err? ==> t.code != RetryTimeUnset)
    && (t.Ok? ==> t.p.router.calls == p.router.calls + FrameDeliveries(items) && t.p.session.failed == p.session.failed + RevokedBy(items))
  }

  /** Draining dispatches every buffered delivery once and in order, and keeps every failure. */
  lemma {:induction false} DrainKeeps(p: Probe, url: string, items: seq<DrainItem>, end: DrainEnd, k: nat)
    requires Core(p)
    ensures DrainResult(p, Drain(p, url, items, end, k), items)
    decreases |items|
  {
    hide Core, DrainOne;
    if k != DRAIN_LIMIT && items != [] {
      SampledFrame(p, items[0]);
      var s := Sample(p, items[0].at);
      if s.Go? {
        var q := DrainOne(s.p, items[0]);
        if !Accept(s.p.session, items[0].frame, items[0].at).outcome.Rejected? {
          DrainKeeps(q, url, items[1..], end, k + 1);
          DrainRest(p, q, Drain(q, url, items[1..], end, k + 1), items);
        }
      }
    }
  }

  lemma SampledFrame(p: Probe, x: DrainItem)
    requires Core(p)
    ensures var s := Sample(p, x.at);
            && Core(s.p) && Drained(p, s.p) && s.p.session == p.session
            && var q := DrainOne(s.p, x);
               && Core(q) && Drained(p, q)
               && (!Accept(p.session, x.frame, x.at).outcome.Rejected? ==>
                     q.router.calls == p.router.calls + FrameDeliveries([x]) && q.session.failed == p.session.failed + RevokedBy([x]))
  {
    SampleKeeps(p, x.at);
    var s := Sample(p, x.at);
    DrainOneKeeps(s.p, x);
    DrainedTransitive(p, s.p, DrainOne(s.p, x));
  }

  lemma DrainRest(p: Probe, q: Probe, t: Try, items: seq<DrainItem>)
    requires items != [] && Drained(p, q)
    requires q.router.calls == p.router.calls + FrameDeliveries([items[0]]) && q.session.failed == p.session.failed + RevokedBy([items[0]])
    requires DrainResult(q, t, items[1..])
    ensures DrainResult(p, t, items)
  {
    ConsDeliveries(items);
    DrainedTransitive(p, q, t.p);
  }
}
