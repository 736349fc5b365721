/** Every tick of the recovery protocol keeps the invariants, over any run. */
module RecoveryRuns {
  import opened Common
  import opened EventSink
  import opened EventSub
  import opened EventRouter
  import opened Recovery
  import opened RecoveryInvariants

  // ----- the old socket of a handover -----

  /** What closing the old socket may change. */
  ghost predicate ClosedOld(p: Probe, q: Probe) {
    && q == p.(session := q.session, router := q.router, previous := q.previous, clock := q.clock, monotone := q.monotone,
               socket := q.socket, stop := q.stop)
    && q.session.serial == p.session.serial && q.session.ids == p.session.ids && p.session.failed <= q.session.failed
    && q.router.gaps == p.router.gaps && q.router.openGap == p.router.openGap && q.router.lastLost == p.router.lastLost
  }

  ghost predicate CloseResult(p: Probe, t: Try, i: CompletionInput) {
    && Core(t.p) && ClosedOld(p, t.p) && (t.Err? ==> t.code != RetryTimeUnset)
    && (t.Ok? ==> !t.p.socket && !t.p.stop
                  && t.p.router.calls == p.router.calls + FrameDeliveries(i.drain)
                  && t.p.session.failed == p.session.failed + RevokedBy(i.drain))
    && (t.Ended? ==> t.p.stop && !t.p.session.responsive)
  }

  lemma CheckKeeps(p: Probe, now: Reading)
    requires Core(p)
    ensures var q := p.(session := CheckLiveness(p.session, now).session);
            && Core(q) && ClosedOld(p, q) && q.session.failed == p.session.failed && (Shape(p) ==> Shape(q))
    ensures CheckLiveness(p.session, now).error.Some? ==> (CheckLiveness(p.session, now).session == p.session
            && CheckLiveness(p.session, now).error == Some(KeepaliveTimedOut))
  {
    LivenessStep(p.session, now);
  }

  lemma EndRunKeeps(p: Probe)
    requires Core(p)
    ensures Core(EndRun(p)) && EndRun(p).stop && !EndRun(p).session.responsive
  {
  }

  lemma AfterCloseKeeps(p: Probe, q: Probe, next: Session, i: CompletionInput)
    requires Core(q) && ClosedOld(p, q) && q.stop == p.stop && !p.stop
    requires q.router.calls == p.router.calls + FrameDeliveries(i.drain) && q.session.failed == p.session.failed + RevokedBy(i.drain)
    ensures CloseResult(p, AfterClose(q, next, p.jobStarted, i), i)
  {
    hide Core, ClosedOld, EndRun, FrameDeliveries, RevokedBy, Sample, Expired, Age;
    ClosingSample(p, q, i);
    var s := Sample(q.(socket := false), i.afterClose);
    if s.Go? {
      var seen := SawStop(s.p, i.stopAfterClose);
      if seen.stop || Expired(seen, i.afterClose) { EndedClose(p, seen); }
    }
  }

  lemma ClosingSample(p: Probe, q: Probe, i: CompletionInput)
    requires Core(q) && ClosedOld(p, q)
    ensures var s := Sample(q.(socket := false), i.afterClose);
            var seen := SawStop(s.p, i.stopAfterClose);
            && Core(s.p) && ClosedOld(p, s.p) && Core(seen) && ClosedOld(p, seen)
            && (s.Fatal? ==> s.code == ClockIsUncertain) && !seen.socket && seen.session == q.session && seen.router == q.router
  {
    hide Core, ClosedOld;
    var down := q.(socket := false);
    SampleKeeps(down, i.afterClose);
    var s := Sample(down, i.afterClose);
    SameEvidence(p, q, s.p);
    SameEvidence(p, q, SawStop(s.p, i.stopAfterClose));
  }

  lemma EndedClose(p: Probe, q: Probe)
    requires Core(q) && ClosedOld(p, q)
    ensures Core(EndRun(q)) && ClosedOld(p, EndRun(q)) && EndRun(q).stop && !EndRun(q).session.responsive
  {
  }

  lemma SameEvidence(p: Probe, q: Probe, r: Probe)
    requires Core(q) && ClosedOld(p, q)
    requires r == q.(previous := r.previous, clock := r.clock, monotone := r.monotone, socket := r.socket, stop := r.stop)
    ensures Core(r) && ClosedOld(p, r)
  {
  }

  lemma CloseOldKeeps(p: Probe, next: Session, url: string, i: CompletionInput)
    requires Core(p) && !p.stop
    ensures CloseResult(p, CloseOld(p, next, url, i), i)
  {
    hide Core, Drain;
    CheckKeeps(p, i.at);
    var checked := p.(session := CheckLiveness(p.session, i.at).session);
    DrainKeeps(checked, url, i.drain, i.drainEnd, 0);
    var t := Drain(checked, url, i.drain, i.drainEnd, 0);
    DrainIsClose(p, checked, t.p);
    if t.Ok? && i.closed { AfterCloseKeeps(p, t.p, next, i); }
  }

  lemma DrainIsClose(p: Probe, q: Probe, r: Probe)
    requires ClosedOld(p, q) && Drained(q, r)
    ensures ClosedOld(p, r) && r.stop == q.stop
  {
  }

  // ----- adopting the new session -----

  lemma GreetSession(p: Probe, i: CompletionInput)
    requires Core(p)
    ensures var g := Greet(p, i);
            && g.session.serial == p.nextSerial && g.session.specs == p.specs && g.session.ids == map[] && g.session.failed == {}
            && ValidSession(g.session) && !g.session.responsive
            && (g.outcome.Rejected? ==> g.outcome.code != RetryTimeUnset)
            && (!g.outcome.Rejected? ==> i.result.received.Some? && g.session.sessionId.Some?)
  {
  }

  lemma AdoptKeeps(p: Probe, next: Session, received: Reading)
    requires Core(p) && ValidSession(next) && next.serial == p.nextSerial && next.specs == p.specs
    requires next.ids == p.session.ids && next.failed == p.session.failed
    ensures Core(Adopt(p, next, received)) && !IsLost(Adopt(p, next, received))
  {
  }

  /** Right before a connection result is acted on: the job is taken and the run goes on. */
  ghost predicate Connecting(p: Probe, job: Job) {
    && Core(p) && p.job == None && !p.stop && p.handover == !job.authorized
    && (p.handover ==> p.socket && p.worker.Some? && !IsLost(p))
    && (!p.handover ==> !p.socket && Bare(p))
  }

  ghost predicate ConnectResult(p: Probe, t: Try) {
    && Core(t.p)
    && (t.Ok? ==> Inv(t.p))
    && (t.Ended? ==> Inv(t.p) && t.p.stop)
    && (t.Err? ==> t.code != RetryTimeUnset)
    && (t.Err? && p.handover ==> t.p.handover)
    && (t.Err? && !p.handover ==> !t.p.handover && (t.code == NoUsableSubscriptions || t.p == p))
  }

  lemma ColdConnect(p: Probe, job: Job, i: CompletionInput)
    requires Connecting(p, job) && !p.handover
    ensures ConnectResult(p, TryConnect(p, job, i))
  {
    hide Greet, CloseOld, HandoverSession, StartWorker, Adopt, Inv;
    GreetSession(p, i);
    var g := Greet(p, i);
    if i.result.error == None && !g.outcome.Rejected? { ColdStarted(p, g.session, i.result.received.value, i.stopAtWorker); }
  }

  lemma ColdStarted(p: Probe, greeted: Session, received: Reading, stop: bool)
    requires Core(p) && p.job == None && !p.handover && Bare(p)
    requires greeted.serial == p.nextSerial && greeted.specs == p.specs && greeted.ids == map[] && greeted.failed == {} && ValidSession(greeted)
    ensures var s := StartWorker(Adopt(p, greeted.(failed := p.session.failed), received), stop);
            && Core(s.p) && (s.Go? ==> Inv(s.p.(handover := false))) && (s.Fatal? ==> s.code == NoUsableSubscriptions && !s.p.handover)
  {
    hide StartWorker;
    var next := greeted.(failed := p.session.failed);
    AdoptKeeps(p, next, received);
    var q := Adopt(p, next, received);
    StartWorkerKeeps(q, stop);
    var s := StartWorker(q, stop);
    CoreFrame(s.p, s.p.(handover := false));
  }

  lemma HandoverConnect(p: Probe, job: Job, i: CompletionInput)
    requires Connecting(p, job) && p.handover
    ensures ConnectResult(p, TryConnect(p, job, i))
  {
    GreetSession(p, i);
    var g := Greet(p, i);
    if i.result.error == None && !g.outcome.Rejected? {
      CloseOldKeeps(p, g.session, job.url, i);
      var t := CloseOld(p, g.session, job.url, i);
      if t.Ok? { HandoverAdopts(p, t.p, g.session, i); }
    }
  }

  lemma HandoverAdopts(p: Probe, q: Probe, greeted: Session, i: CompletionInput)
    requires Connecting(p, Job("", false)) && Core(q) && ClosedOld(p, q) && i.result.received.Some?
    requires greeted.serial == p.nextSerial && greeted.specs == p.specs && ValidSession(greeted) && !greeted.responsive
    ensures var a := Adopt(q, HandoverSession(greeted, q.session, i.afterClose), i.result.received.value).(handover := false);
            Inv(a)
  {
  }

  // ----- completing the job -----

  lemma CompleteJobKeeps(p: Probe, i: CompletionInput)
    requires Inv(p) && p.job.Some?
    ensures var s := CompleteJob(p, i); Core(s.p) && (s.Go? ==> Inv(s.p)) && (s.Fatal? ==> s.code != RetryTimeUnset)
  {
    hide Core, TryConnect, Lose;
    var job, taken := p.job.value, p.(job := None);
    CoreFrame(p, taken);
    SampleKeeps(taken, i.at);
    var sampled := Sample(taken, i.at);
    if sampled.Go? {
      var seen := SawStop(sampled.p, i.stopBefore);
      CoreFrame(sampled.p, seen);
      if seen.stop || Expired(seen, i.at) {
        EndRunKeeps(seen);
      } else {
        if seen.handover { HandoverConnect(seen, job, i); } else { ColdConnect(seen, job, i); }
        ConnectOutcome(seen, job, i);
      }
    }
  }

  lemma ConnectOutcome(p: Probe, job: Job, i: CompletionInput)
    requires Connecting(p, job) && ConnectResult(p, TryConnect(p, job, i))
    ensures var s := AfterTry(TryConnect(p, job, i), i); Core(s.p) && (s.Go? ==> Inv(s.p)) && (s.Fatal? ==> s.code != RetryTimeUnset)
  {
    var t := TryConnect(p, job, i);
    if t.Err? && !Unrecoverable(t.code) {
      if t.p.handover {
        LoseKeeps(t.p, HandoverFailed, i.loss);
      } else if t.code == ConnectionFailed || t.code == KeepaliveTimedOut {
        ScheduleRetryKeeps(p, i.retryFrom);
      }
    }
  }

  // ----- one tick -----

  ghost predicate Keeps(s: Res) { Core(s.p) && (s.Go? ==> Inv(s.p)) }

  /** The same, and a fatal code other than the unset retry time. */
  ghost predicate KeepsQuietly(s: Res) { Keeps(s) && (s.Fatal? ==> s.code != RetryTimeUnset) }

  lemma LostKeepsInv(p: Probe, code: Code, i: LossInput)
    requires Core(p)
    ensures KeepsQuietly(Lose(p, code, i)) && (Lose(p, code, i).Go? ==> Down(Lose(p, code, i).p))
  {
    LoseKeeps(p, code, i);
  }

  lemma DispatchCore(p: Probe, d: Delivery, at: int, submission: Submission, w: Writes)
    requires Core(p)
    ensures var q := p.(router := Dispatch(p.router, d, at, submission, w)); Core(q) && (Shape(p) ==> Shape(q))
  {
    DispatchKeeps(p.router, d, at, submission, w);
  }

  /** Nothing is flagged ready without a worker, so any failure set is consistent. */
  lemma BareAccepts(p: Probe, next: Session)
    requires Inv(p) && p.worker == None && Carries(p.session, next) && next.ids == p.session.ids
    ensures Core(p.(session := next)) && Shape(p.(session := next)) && Bare(p.(session := next))
  {
  }

  lemma LookAgain(s: Res, now: Reading, w: Writes)
    requires Keeps(s) && s.Go?
    requires forall x :: SourceReady(s.p.session, x) ==> LiveAndConfirmed(s.p.session, x, now)
    ensures KeepsQuietly(Go(Look(s.p, now, w)))
  {
    LookKeeps(s.p, now, w);
  }

  lemma FirstWorker(p: Probe, stop: bool)
    requires Inv(p) && p.worker == None && p.socket
    ensures KeepsQuietly(StartWorker(p, stop)) && (StartWorker(p, stop).Go? ==> StartWorker(p, stop).p.session == p.session && StartWorker(p, stop).p.socket)
  {
  }

  lemma ActOnRequest(q: Probe, url: string, i: LiveInput)
    requires Inv(q) && q.socket
    requires forall x :: SourceReady(q.session, x) ==> LiveAndConfirmed(q.session, x, i.at)
    ensures var r := RequestHandover(q, url, i.setupComplete, i.stopAtJob, i.jobAt, i.loss);
            KeepsQuietly(r) && (r.Go? ==> KeepsQuietly(Go(Look(r.p, i.at, i.observeWrites))))
  {
    RequestHandoverKeeps(q, url, i.setupComplete, i.stopAtJob, i.jobAt, i.loss);
    var r := RequestHandover(q, url, i.setupComplete, i.stopAtJob, i.jobAt, i.loss);
    if r.Go? {
      AfterRequest(q, url, i);
      LookAgain(r, i.at, i.observeWrites);
    }
  }

  lemma AfterRequest(q: Probe, url: string, i: LiveInput)
    requires Inv(q) && q.socket
    ensures var r := RequestHandover(q, url, i.setupComplete, i.stopAtJob, i.jobAt, i.loss);
            r.Go? ==> r.p.session == q.session || r.p.session.ids == map[]
  {
    if q.job.Some? {
      LoseKeeps(q, HandoverConflict, i.loss);
    } else if q.worker == None || !i.setupComplete {
      LoseKeeps(q, HandoverDuringSetup, i.loss);
    } else {
      StartJobKeeps(q, url, true, i.stopAtJob, i.jobAt);
    }
  }

  /** A frame that was accepted, with a worker already there. */
  lemma ActWithWorker(p: Probe, frame: Frame, i: LiveInput)
    requires Inv(p) && p.socket && p.worker.Some?
    requires !Accept(p.session, frame, i.at).outcome.Rejected?
    ensures var a := Accept(p.session, frame, i.at); KeepsQuietly(Act(p.(session := a.session), a.outcome, i))
  {
    hide Core, Shape, Look, Accept, RequestHandover, Dispatch;
    var a := Accept(p.session, frame, i.at);
    var q := p.(session := a.session);
    AcceptedFrame(p, frame, i.at);
    match a.outcome {
      case ReconnectRequest(url) => ActOnRequest(q, url, i);
      case Deliver(d) =>
        DeliverKeeps(p, frame, i.at, i.submission, i.dispatchWrites);
        LookAgain(Go(q.(router := Dispatch(q.router, d, i.at.utc, i.submission, i.dispatchWrites))), i.at, i.observeWrites);
      case _ => LookAgain(Go(q), i.at, i.observeWrites);
    }
  }

  lemma ActWithoutWorker(p: Probe, frame: Frame, i: LiveInput)
    requires Inv(p) && p.socket && p.worker == None
    requires !Accept(p.session, frame, i.at).outcome.Rejected?
    ensures var a := Accept(p.session, frame, i.at); KeepsQuietly(Act(p.(session := a.session), a.outcome, i))
  {
    hide Core, Shape, Look, Accept, RequestHandover, Dispatch, StartWorker, Bare;
    var a := Accept(p.session, frame, i.at);
    var q := p.(session := a.session);
    AcceptedFrame(p, frame, i.at);
    CoreSession(p);
    AcceptStep(p.session, frame, i.at);
    BareAccepts(p, a.session);
    FirstWorker(q, i.stopAtWorker);
    var s := StartWorker(q, i.stopAtWorker);
    if s.Go? {
      match a.outcome {
        case ReconnectRequest(url) => ActOnRequest(s.p, url, i);
        case Deliver(d) =>
          DispatchCore(s.p, d, i.at.utc, i.submission, i.dispatchWrites);
          LookAgain(Go(s.p.(router := Dispatch(s.p.router, d, i.at.utc, i.submission, i.dispatchWrites))), i.at, i.observeWrites);
        case _ => LookAgain(s, i.at, i.observeWrites);
      }
    }
  }

  lemma ReceiveKeeps(p: Probe, frame: Frame, i: LiveInput)
    requires Inv(p) && p.socket
    ensures KeepsQuietly(Receive(p, frame, i))
  {
    SampleKeeps(p, i.at);
    var sampled := Sample(p, i.at);
    if sampled.Go? {
      CheckKeeps(sampled.p, i.at);
      var c := CheckLiveness(sampled.p.session, i.at);
      var checked := sampled.p.(session := c.session);
      if c.error.Some? { LostKeepsInv(checked, c.error.value, i.loss); } else { HandleKeeps(checked, frame, i); }
    }
  }

  lemma HandleKeeps(p: Probe, frame: Frame, i: LiveInput)
    requires Inv(p) && p.socket
    ensures KeepsQuietly(Handle(p, frame, i))
  {
    hide Lose, TakeFrame, Expired, WelcomeOverdue, Core, Shape;
    SawStopKeeps(p, i.stop);
    LostKeepsInv(SawStop(p, i.stop), WelcomeTimedOut, i.loss);
    TakeFrameKeeps(SawStop(p, i.stop), frame, i);
  }

  lemma TakeFrameKeeps(p: Probe, frame: Frame, i: LiveInput)
    requires Inv(p) && p.socket
    ensures KeepsQuietly(TakeFrame(p, frame, i))
  {
    hide Core, Shape, Act, Lose;
    var a := Accept(p.session, frame, i.at);
    if a.outcome.Rejected? {
      RejectedKeeps(p, frame, i.at);
      LostKeepsInv(p.(session := a.session), a.outcome.code, i.loss);
    } else if p.worker.Some? {
      ActWithWorker(p, frame, i);
    } else {
      ActWithoutWorker(p, frame, i);
    }
  }

  lemma SawStopKeeps(p: Probe, stop: bool)
    requires Inv(p)
    ensures Inv(SawStop(p, stop))
  {
  }

  lemma RejectedKeeps(p: Probe, frame: Frame, now: Reading)
    requires Inv(p) && Accept(p.session, frame, now).outcome.Rejected?
    ensures Core(p.(session := Accept(p.session, frame, now).session))
  {
    AcceptedFrame(p, frame, now);
  }

  lemma NotedKeeps(p: Probe, now: Reading)
    requires Inv(p)
    ensures Inv(NoteReady(p, now)) && NoteReady(p, now).socket == p.socket
  {
    CoreFrame(p, NoteReady(p, now));
  }

  lemma LiveKeeps(p: Probe, now: Reading, i: LiveInput)
    requires Inv(p) && p.socket
    ensures KeepsQuietly(Live(p, now, i))
  {
    CheckKeeps(p, now);
    var c := CheckLiveness(p.session, now);
    var checked := p.(session := c.session);
    if c.error.Some? {
      LostKeepsInv(checked, c.error.value, i.loss);
    } else {
      LookFresh(p, now, i.writes);
      ListenKeeps(Look(checked, now, i.writes), now, i);
    }
  }

  lemma LookFresh(p: Probe, now: Reading, w: Writes)
    requires Inv(p) && CheckLiveness(p.session, now).error == None
    ensures var q := Look(p.(session := CheckLiveness(p.session, now).session), now, w); Inv(q) && q.socket == p.socket
  {
    CheckKeeps(p, now);
    var c := CheckLiveness(p.session, now);
    forall s ensures SourceReady(c.session, s) ==> LiveAndConfirmed(c.session, s, now) { ReadyMeansFresh(p.session, now, s); }
    LookKeeps(p.(session := c.session), now, w);
  }

  lemma ListenKeeps(p: Probe, now: Reading, i: LiveInput)
    requires Inv(p) && p.socket
    ensures KeepsQuietly(Listen(p, now, i))
  {
    hide Core, Shape, Receive, Lose;
    LostKeepsInv(p, WelcomeTimedOut, i.loss);
    var noted := NoteReady(p, now);
    NotedKeeps(p, now);
    LostKeepsInv(noted, NetworkLost, i.loss);
    if i.receipt.Received? { ReceiveKeeps(noted, i.receipt.frame, i); }
  }

  lemma ReconnectingKeeps(p: Probe, now: Reading, i: StepInput)
    requires Inv(p) && !p.socket
    ensures Keeps(Reconnecting(p, now, i))
  {
    if p.job == None && p.retryAt.Some? {
      var q := SawStop(p, i.stopAtReconnect);
      CoreFrame(p, q);
      if now.tick >= q.retryAt.value && !q.stop { StartJobKeeps(q, q.url, false, i.stopAtJob, i.jobAt); }
    }
  }

  lemma JobsKeep(p: Probe, i: StepInput)
    requires Inv(p)
    ensures KeepsQuietly(Jobs(p, i))
  {
    if p.job.Some? {
      if i.jobDone {
        CompleteJobKeeps(p, i.completion);
        var q := CompleteJob(p, i.completion);
        if q.Go? { SampleKeeps(q.p, i.afterJob); }
      } else {
        LostKeepsInv(p, HandoverTimedOut, i.loss);
      }
    }
  }

  lemma TakeResults(p: Probe, i: StepInput)
    requires Inv(p)
    ensures KeepsQuietly(Notices(SeeNow(p, i.now), i.notices, false))
  {
    CoreFrame(p, SeeNow(p, i.now));
    NoticesKeep(SeeNow(p, i.now), i.notices, false);
  }

  /** Every tick keeps the invariant, whatever frames, results, readings, stops and write
      outcomes it meets; a fatal tick still leaves the rows and the session consistent. */
  lemma StepKeeps(p: Probe, i: StepInput)
    requires Inv(p)
    ensures Keeps(Step(p, i))
  {
    TakeResults(p, i);
    var q := Notices(SeeNow(p, i.now), i.notices, false);
    if q.Go? {
      JobsKeep(q.p, i);
      var r := Jobs(q.p, i);
      if r.Go? {
        if r.p.socket { LiveKeeps(r.p, Tick(q.p, i), i.live); } else { ReconnectingKeeps(r.p, Tick(q.p, i), i); }
      }
    }
  }
}
