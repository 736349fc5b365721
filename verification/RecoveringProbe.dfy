/** The probe as the object the source updates in place (scripts/eventsub_recovery.py),
    refining the functions of Recovery. It holds the views of its session and its router, whose
    own classes are SessionReadiness and EventRouter. */
module RecoveringProbe {
  import opened Common
  import opened EventSink
  import opened EventSub
  import opened EventRouter
  import opened Recovery
  import opened RecoveryInvariants
  import opened RecoveryRuns
  import opened RecoveryGuarantees
  import opened RecoveryTheorems
  import RecoveryProgress
  import ConnectionOutcomes

  lemma StepHolds(p: Probe, i: StepInput)
    requires Inv(p)
    ensures Keeps(Step(p, i)) && Rel(p, Step(p, i).p)
  {
    hide Core, Shape, Rel, Step;
    StepKeeps(p, i);
    RelStep(p, i);
  }

  /** Methods return None, or the code of the ProbeError the source raises. */
  class RecoveringProbe {
    const specs: set<Source>
    const url: string
    const duration: Option<int>
    const externalClock: bool
    var router: Router
    var state: Session
    var socket: bool
    var worker: Option<Worker>
    var job: Option<Job>
    var handover: bool
    var gapPending: bool
    var retryCount: nat
    var retryAt: Option<int>
    var previous: Option<Reading>
    var jobStarted: Reading
    var connected: Reading
    var started: Reading
    var stop: bool
    /** Numbers the session objects. */
    var nextSerial: nat
    ghost var clock: int
    ghost var monotone: bool
    ghost var overlapped: bool
    ghost var requests: seq<set<Source>>

    ghost function View(): Probe
      reads this
    {
      Probe(specs, url, duration, externalClock, state, socket, worker, job, handover, gapPending, retryCount, retryAt, previous,
            jobStarted, connected, started, stop, router, nextSerial, clock, monotone, overlapped, requests)
    }

    ghost function Result(error: Option<Code>): Res
      reads this
    {
      if error == None then Go(View()) else Fatal(View(), error.value)
    }

    constructor (specs: set<Source>, sources: set<Source>, url: string, duration: Option<int>, externalClock: bool, now: Reading, w: Writes)
      ensures View() == Start(specs, sources, url, duration, externalClock, now, w)
    {
      this.specs, this.url, this.duration, this.externalClock := specs, url, duration, externalClock;
      router, state := BeginAll(NewRouter(sources), now.utc, w), NewSession(0, specs);
      socket, worker, job, handover, gapPending, retryCount, retryAt, previous := true, None, None, false, false, 0, None, None;
      jobStarted, connected, started, stop, nextSerial := now, now, now, false, 1;
      clock, monotone, overlapped, requests := now.utc, true, false, [];
    }

    method CheckStop(set_: bool)
      modifies this`stop
      ensures View() == SawStop(old(View()), set_)
    {
      stop := stop || set_;
    }

    method TakeSample(r: Reading) returns (error: Option<Code>)
      modifies this`previous, this`clock, this`monotone
      ensures Result(error) == Sample(old(View()), r)
    {
      monotone, clock := monotone && clock <= r.utc, r.utc;
      if previous.Some? && !externalClock {
        var tick, utc := r.tick - previous.value.tick, r.utc - previous.value.utc;
        if tick < 0 || utc < 0 || tick - utc >= Seconds(5) || utc - tick >= Seconds(5) { return Some(ClockIsUncertain); }
      }
      previous := Some(r);
      error := None;
    }

    method TakeOne(n: Notice, discardSuccess: bool) returns (error: Option<Code>)
      requires worker.Some?
      modifies this`worker, this`state
      ensures Result(error) == TakeNotice(old(View()), n, discardSuccess)
      ensures worker.Some?
    {
      error := None;
      if !Posts(worker.value, n) { return; }
      worker := Some(Reported(worker.value, n));
      if n.error == None && discardSuccess { return; }
      var c := SetupResult(state, n);
      state := c.session;
      error := c.error;
    }

    method TakeNotices(ns: seq<Notice>, discardSuccess: bool) returns (error: Option<Code>)
      modifies this`worker, this`state
      ensures Result(error) == Notices(old(View()), ns, discardSuccess)
    {
      hide TakeNotice;
      ghost var before := View();
      error := None;
      var k := 0;
      while worker.Some? && k < |ns|
        invariant 0 <= k <= |ns| && error == None
        invariant Notices(View(), ns[k..], discardSuccess) == Notices(before, ns, discardSuccess)
      {
        assert ns[k..][1..] == ns[k + 1..];
        error := TakeOne(ns[k], discardSuccess);
        if error.Some? { return; }
        k := k + 1;
      }
      assert worker.Some? ==> ns[k..] == [];
    }

    method FinishWorker(ns: seq<Notice>) returns (error: Option<Code>)
      modifies this`worker, this`state
      ensures Result(error) == StopWorker(old(View()), ns)
    {
      hide Notices;
      error := TakeNotices(ns, true);
      if error.Some? { return; }
      worker := None;
    }

    method BeginWorker(stopSeen: bool) returns (error: Option<Code>)
      modifies this`stop, this`worker, this`overlapped, this`requests
      ensures Result(error) == StartWorker(old(View()), stopSeen)
    {
      CheckStop(stopSeen);
      if stop { return None; }
      var active := specs - state.failed;
      if active == {} { return Some(NoUsableSubscriptions); }
      overlapped, requests := overlapped || worker.Some?, requests + [active];
      worker := Some(Worker(state.sessionId, active));
      error := None;
    }

    method PlanRetry(from: Reading) returns (error: Option<Code>)
      modifies this`retryCount, this`retryAt, this`previous, this`clock, this`monotone
      ensures Result(error) == ScheduleRetry(old(View()), from)
    {
      hide Sample, Backoff;
      var delay := Backoff(retryCount);
      CountRetry();
      error := TakeSample(from);
      if error.Some? { return; }
      retryAt := Some(from.tick + delay);
    }

    method CountRetry()
      modifies this`retryCount
      ensures View() == old(View()).(retryCount := old(retryCount) + 1)
    {
      retryCount := retryCount + 1;
    }

    method LoseTransport(code: Code, i: LossInput) returns (error: Option<Code>)
      modifies this
      ensures Result(error) == Lose(old(View()), code, i)
    {
      hide Silenced, Sample, Disconnect, WindDown;
      Silence();
      error := TakeSample(i.lostAt);
      if error.Some? { return; }
      DropSocket(code, i.lostAt, i.writes);
      error := FinishJobAndWorker(i);
    }

    method Silence()
      modifies this`gapPending, this`state
      ensures View() == Silenced(old(View()))
    {
      gapPending := true;
      state := state.(responsive := false, ids := map[]);
    }

    method DropSocket(code: Code, lostAt: Reading, w: Writes)
      modifies this`router, this`socket
      ensures View() == Disconnect(old(View()), code, lostAt, w)
    {
      hide TransportLost;
      router := TransportLost(router, LossReason(code), lostAt.utc, state.serial, w);
      socket := false;
    }

    method FinishJobAndWorker(i: LossInput) returns (error: Option<Code>)
      modifies this
      ensures Result(error) == WindDown(old(View()), i)
    {
      hide StopWorker, ScheduleRetry, CodeOf;
      if job.Some? {
        job := None;
        if i.jobError.Some? && i.jobError != Some(JobDisconnected) { return Some(CodeOf(i.jobError.value)); }
      }
      handover := false;
      error := FinishWorker(i.notices);
      if error.Some? { return; }
      error := PlanRetry(i.retryFrom);
    }

    method BeginJob(target: string, directed: bool, stopSeen: bool, at: Reading) returns (error: Option<Code>)
      modifies this
      ensures Result(error) == StartJob(old(View()), target, directed, stopSeen, at)
    {
      hide Sample, SawStop;
      CheckStop(stopSeen);
      if stop { return None; }
      error := TakeSample(at);
      if error.Some? { return; }
      SetJob(target, directed, at);
    }

    method SetJob(target: string, directed: bool, at: Reading)
      modifies this`jobStarted, this`handover, this`job, this`overlapped
      ensures View() == old(View()).(jobStarted := at, handover := directed, job := Some(Job(target, !directed)),
                                     overlapped := old(overlapped) || old(job).Some?)
    {
      overlapped := overlapped || job.Some?;
      jobStarted, handover := at, directed;
      job := Some(Job(target, !directed));
    }

    method AskHandover(target: string, setupComplete: bool, stopSeen: bool, at: Reading, loss: LossInput) returns (error: Option<Code>)
      modifies this
      ensures Result(error) == RequestHandover(old(View()), target, setupComplete, stopSeen, at, loss)
    {
      hide Lose, StartJob;
      if job.Some? {
        // A duplicate request does not restart the deadline.
        if target == job.value.url { return None; }
        error := LoseTransport(HandoverConflict, loss);
      } else if worker == None || !setupComplete {
        error := LoseTransport(HandoverDuringSetup, loss);
      } else {
        error := BeginJob(target, true, stopSeen, at);
      }
    }

    // ----- completing a connection -----

    ghost function Attempt(ended: bool, error: Option<Code>): Try
      reads this
    {
      if error.Some? then Err(View(), error.value) else if ended then Ended(View()) else Ok(View())
    }

    /** One buffered frame of the old socket; conflicting is set by a different reconnect URL. */
    method DrainFrame(target: string, x: DrainItem) returns (error: Option<Code>)
      modifies this`state, this`router
      ensures View() == DrainOne(old(View()), x)
      ensures var outcome := Accept(old(state), x.frame, x.at).outcome;
              error == if outcome.Rejected? then Some(outcome.code)
                       else if outcome.ReconnectRequest? && outcome.url != target then Some(HandoverConflict) else None
    {
      hide Accept, Dispatch;
      var a := Accept(state, x.frame, x.at);
      state := a.session;
      error := None;
      match a.outcome
      case Rejected(code) => error := Some(code);
      case ReconnectRequest(target') => if target' != target { error := Some(HandoverConflict); }
      case Deliver(d) => router := Dispatch(router, d, x.at.utc, x.submission, x.writes);
      case Nothing =>
    }

    method DrainOldSocket(target: string, items: seq<DrainItem>, end: DrainEnd) returns (error: Option<Code>)
      modifies this`state, this`router, this`previous, this`clock, this`monotone
      ensures Attempt(false, error) == Drain(old(View()), target, items, end, 0)
    {
      hide Sample, DrainOne, Accept;
      ghost var before := View();
      var k := 0;
      while k < DRAIN_LIMIT
        invariant 0 <= k <= DRAIN_LIMIT && k <= |items|
        invariant Drain(View(), target, items[k..], end, k) == Drain(before, target, items, end, 0)
      {
        if k == |items| {
          assert items[k..] == [];
          return if end == Broken then Some(ConnectionFailed) else None;
        }
        assert items[k..][1..] == items[k + 1..] && items[k..][0] == items[k];
        error := TakeSample(items[k].at);
        if error.Some? { return; }
        error := DrainFrame(target, items[k]);
        if error.Some? { return; }
        k := k + 1;
      }
      error := Some(DrainLimit);
    }

    method CheckOldSession(now: Reading) returns (error: Option<Code>)
      modifies this`state
      ensures View() == old(View()).(session := CheckLiveness(old(state), now).session)
      ensures error == CheckLiveness(old(state), now).error
    {
      hide CheckLiveness;
      var c := CheckLiveness(state, now);
      state, error := c.session, c.error;
    }

    predicate Overdue(now: Reading)
      reads this
      ensures Overdue(now) == Expired(View(), now)
    {
      duration.Some? && Age(now, started) >= duration.value
    }

    method Finish()
      modifies this`stop, this`state
      ensures View() == EndRun(old(View()))
    {
      stop, state := true, state.(responsive := false);
    }

    /** The socket is closed; what follows in the same handover. */
    method LeaveOldSocket(next: Session, startedAt: Reading, i: CompletionInput) returns (ended: bool, error: Option<Code>)
      modifies this
      ensures Attempt(ended, error) == AfterClose(old(View()), next, startedAt, i)
    {
      hide Sample, CheckLiveness, EndRun, SawStop;
      ended := false;
      DropOldSocket();
      error := TakeSample(i.afterClose);
      if error.Some? { return; }
      CheckStop(i.stopAfterClose);
      if stop || Overdue(i.afterClose) {
        Finish();
        return true, None;
      }
      if Age(i.afterClose, startedAt) >= Seconds(30) { return false, Some(HandoverTimedOut); }
      error := CheckLiveness(next, i.afterClose).error;
    }

    method DropOldSocket()
      modifies this`socket
      ensures View() == old(View()).(socket := false)
    {
      socket := false;
    }

    method CloseOldSocket(next: Session, target: string, i: CompletionInput) returns (ended: bool, error: Option<Code>)
      modifies this
      ensures Attempt(ended, error) == CloseOld(old(View()), next, target, i)
    {
      hide Drain, CheckLiveness, AfterClose;
      var startedAt := jobStarted;
      ended := false;
      error := CheckOldSession(i.at);
      if error.Some? { return; }
      if Age(i.at, jobStarted) >= HANDOVER_DEADLINE { return false, Some(HandoverTimedOut); }
      error := DrainOldSocket(target, i.drain, i.drainEnd);
      if error.Some? { return; }
      if !i.closed { return false, Some(CloseFailed); }
      ended, error := LeaveOldSocket(next, startedAt, i);
    }

    /** The welcome the job received, checked against the clock. */
    method GreetNewSocket(i: CompletionInput) returns (g: Accepted)
      ensures g == Greet(View(), i)
    {
      hide Accept, CheckLiveness;
      var next := NewSession(nextSerial, specs);
      var got := i.result.received;
      if got == None || got.value.tick < jobStarted.tick || got.value.utc < jobStarted.utc
         || got.value.tick > i.at.tick || got.value.utc > i.at.utc {
        return Accepted(next, Rejected(ClockIsUncertain));
      }
      g := Accept(next, i.result.welcome, got.value);
      if g.outcome.Rejected? { return; }
      var c := CheckLiveness(g.session, i.at);
      g := Accepted(c.session, if c.error.Some? then Rejected(c.error.value) else Nothing);
    }

    method AdoptSession(next: Session, received: Reading)
      modifies this`state, this`socket, this`connected, this`nextSerial
      ensures View() == Adopt(old(View()), next, received)
    {
      state, socket, connected, nextSerial := next, true, received, nextSerial + 1;
    }

    method ConnectDirected(greeted: Session, target: string, i: CompletionInput) returns (ended: bool, error: Option<Code>)
      requires handover && i.result.received.Some?
      modifies this
      ensures Attempt(ended, error) ==
        (match CloseOld(old(View()), greeted, target, i)
         case Err(q, code) => Err(q, code)
         case Ended(q) => Ended(q)
         case Ok(q) => Ok(Adopt(q, HandoverSession(greeted, q.session, i.afterClose), i.result.received.value).(handover := false)))
    {
      hide CloseOld, HandoverSession, Adopt;
      ended, error := CloseOldSocket(greeted, target, i);
      if ended || error.Some? { return; }
      AdoptSession(HandoverSession(greeted, state, i.afterClose), i.result.received.value);
      handover := false;
    }

    method ConnectCold(greeted: Session, i: CompletionInput) returns (error: Option<Code>)
      requires i.result.received.Some?
      modifies this
      ensures Attempt(false, error) ==
        (var p := old(View());
         match StartWorker(Adopt(p, greeted.(failed := p.session.failed), i.result.received.value), i.stopAtWorker)
         case Fatal(s, code) => Err(s, code)
         case Go(s) => Ok(s.(handover := false)))
    {
      hide StartWorker, Adopt;
      AdoptSession(greeted.(failed := state.failed), i.result.received.value);
      error := BeginWorker(i.stopAtWorker);
      if error.Some? { return; }
      handover := false;
    }

    method Connect(j: Job, i: CompletionInput) returns (ended: bool, error: Option<Code>)
      modifies this
      ensures Attempt(ended, error) == TryConnect(old(View()), j, i)
    {
      hide CloseOld, HandoverSession, Adopt, Accept, CheckLiveness, StartWorker;
      ended := false;
      if i.result.error.Some? { return false, Some(CodeOf(i.result.error.value)); }
      var g := GreetNewSocket(i);
      if g.outcome.Rejected? { return false, Some(g.outcome.code); }
      if handover {
        ended, error := ConnectDirected(g.session, j.url, i);
      } else {
        error := ConnectCold(g.session, i);
      }
    }

    method FinishJob(i: CompletionInput) returns (error: Option<Code>)
      requires job.Some?
      modifies this
      ensures Result(error) == CompleteJob(old(View()), i)
    {
      hide Sample, SawStop, EndRun, TryConnect, AfterTry;
      var j := job.value;
      ClearJob();
      error := TakeSample(i.at);
      if error.Some? { return; }
      error := ConcludeJob(j, i);
    }

    method ClearJob()
      modifies this`job
      ensures View() == old(View()).(job := None)
    {
      job := None;
    }

    method ConcludeJob(j: Job, i: CompletionInput) returns (error: Option<Code>)
      modifies this
      ensures var seen := SawStop(old(View()), i.stopBefore);
              Result(error) == if seen.stop || Expired(seen, i.at) then Go(EndRun(seen)) else AfterTry(TryConnect(seen, j, i), i)
    {
      hide SawStop, EndRun, TryConnect, AfterTry;
      CheckStop(i.stopBefore);
      if stop || Overdue(i.at) {
        Finish();
        error := None;
      } else {
        error := ConnectOrRecover(j, i);
      }
    }

    method ConnectOrRecover(j: Job, i: CompletionInput) returns (error: Option<Code>)
      modifies this
      ensures Result(error) == AfterTry(TryConnect(old(View()), j, i), i)
    {
      hide TryConnect, Lose, ScheduleRetry;
      var ended;
      ended, error := Connect(j, i);
      if error == None { return; }
      var code := error.value;
      if Unrecoverable(code) { return; }
      if handover {
        error := LoseTransport(HandoverFailed, i.loss);
      } else if code == ConnectionFailed || code == KeepaliveTimedOut {
        error := PlanRetry(i.retryFrom);
      }
    }

    // ----- one tick -----

    method LookAtSession(now: Reading, w: Writes)
      modifies this`router
      ensures View() == Look(old(View()), now, w)
    {
      hide Observe;
      router := Observe(router, state, now, w);
    }

    method NoteIfReady(now: Reading)
      modifies this`gapPending, this`retryCount
      ensures View() == NoteReady(old(View()), now)
    {
      if Ready(state) {
        gapPending := false;
        if Age(now, connected) >= Seconds(60) { retryCount := 0; }
      }
    }

    predicate OverdueWelcome(now: Reading)
      reads this
      ensures OverdueWelcome(now) == WelcomeOverdue(View(), now)
    {
      state.sessionId == None && Age(now, connected) > Seconds(10)
    }

    method RouteDelivery(d: Delivery, at: int, submission: Submission, w: Writes)
      modifies this`router
      ensures View() == old(View()).(router := Dispatch(old(router), d, at, submission, w))
    {
      router := Dispatch(router, d, at, submission, w);
    }

    method ActOn(outcome: Outcome, i: LiveInput) returns (error: Option<Code>)
      modifies this
      ensures Result(error) == Act(old(View()), outcome, i)
    {
      hide StartWorker, RequestHandover, Look, Dispatch;
      error := None;
      if worker == None {
        error := BeginWorker(i.stopAtWorker);
        if error.Some? { return; }
      }
      match outcome
      case ReconnectRequest(target) =>
        error := AskHandover(target, i.setupComplete, i.stopAtJob, i.jobAt, i.loss);
        if error.Some? { return; }
        LookAtSession(i.at, i.observeWrites);
      case Deliver(d) =>
        RouteDelivery(d, i.at.utc, i.submission, i.dispatchWrites);
        LookAtSession(i.at, i.observeWrites);
      case Nothing => LookAtSession(i.at, i.observeWrites);
      case Rejected(_) => LookAtSession(i.at, i.observeWrites);
    }

    method HandleFrame(frame: Frame, i: LiveInput) returns (error: Option<Code>)
      modifies this
      ensures Result(error) == TakeFrame(old(View()), frame, i)
    {
      hide Accept, Act, Lose;
      var a := Accept(state, frame, i.at);
      state := a.session;
      if !a.outcome.Rejected? {
        error := ActOn(a.outcome, i);
      } else if a.outcome.code == KeepaliveTimedOut {
        error := LoseTransport(a.outcome.code, i.loss);
      } else {
        error := Some(a.outcome.code);
      }
    }

    method ReceiveFrame(frame: Frame, i: LiveInput) returns (error: Option<Code>)
      modifies this
      ensures Result(error) == Receive(old(View()), frame, i)
    {
      hide Sample, CheckLiveness, Lose, Handle;
      error := TakeSample(i.at);
      if error.Some? { return; }
      error := CheckOldSession(i.at);
      if error.Some? {
        error := LoseTransport(error.value, i.loss);
        return;
      }
      error := HandleReceived(frame, i);
    }

    method HandleReceived(frame: Frame, i: LiveInput) returns (error: Option<Code>)
      modifies this
      ensures Result(error) == Handle(old(View()), frame, i)
    {
      hide SawStop, Lose, TakeFrame;
      CheckStop(i.stop);
      if stop || Overdue(i.at) { return None; }
      if OverdueWelcome(i.at) {
        error := LoseTransport(WelcomeTimedOut, i.loss);
        return;
      }
      error := HandleFrame(frame, i);
    }

    method ListenOnce(now: Reading, i: LiveInput) returns (error: Option<Code>)
      modifies this
      ensures Result(error) == Listen(old(View()), now, i)
    {
      hide Lose, NoteReady, Receive;
      if OverdueWelcome(now) {
        error := LoseTransport(WelcomeTimedOut, i.loss);
        return;
      }
      NoteIfReady(now);
      match i.receipt
      case Silence => error := None;
      case SocketError => error := LoseTransport(NetworkLost, i.loss);
      case Received(frame) => error := ReceiveFrame(frame, i);
    }

    method StayLive(now: Reading, i: LiveInput) returns (error: Option<Code>)
      modifies this
      ensures Result(error) == Live(old(View()), now, i)
    {
      hide CheckLiveness, Lose, Look, Listen;
      error := CheckOldSession(now);
      if error.Some? {
        error := LoseTransport(error.value, i.loss);
        return;
      }
      LookAtSession(now, i.writes);
      error := ListenOnce(now, i);
    }

    /** The comparison with an unset retry time raises in the source, stop or not. */
    method Reconnect(now: Reading, i: StepInput) returns (error: Option<Code>)
      modifies this
      ensures Result(error) == Reconnecting(old(View()), now, i)
      ensures error == None && old(job) == None ==>
                && retryAt == old(retryAt) && (job.Some? ==> job == Some(Job(url, true)))
                && (job.Some? <==> now.tick >= retryAt.value && !old(stop) && !i.stopAtReconnect && !i.stopAtJob)
    {
      RecoveryProgress.ColdJobIff(View(), now, i);
      hide StartJob;
      if job.Some? { return None; }
      if retryAt == None { return Some(RetryTimeUnset); }
      CheckStop(i.stopAtReconnect);
      if now.tick >= retryAt.value && !stop {
        error := BeginJob(url, false, i.stopAtJob, i.jobAt);
      } else {
        error := None;
      }
    }

    method HandleJob(i: StepInput) returns (error: Option<Code>)
      modifies this
      ensures Result(error) == Jobs(old(View()), i)
    {
      hide CompleteJob, Sample, Lose;
      if job == None { return None; }
      if i.jobDone {
        error := FinishJob(i.completion);
        if error.Some? { return; }
        error := TakeSample(i.afterJob);
      } else if handover && Age(i.now, jobStarted) >= HANDOVER_DEADLINE {
        error := LoseTransport(HandoverTimedOut, i.loss);
      } else {
        error := None;
      }
    }

    method See(now: Reading)
      modifies this`monotone, this`clock
      ensures View() == SeeNow(old(View()), now)
    {
      monotone, clock := monotone && clock <= now.utc, now.utc;
    }

    method RunStep(i: StepInput) returns (error: Option<Code>)
      modifies this
      ensures Result(error) == Step(old(View()), i)
      ensures Inv(old(View())) ==> Keeps(Result(error)) && Rel(old(View()), View())
      ensures Inv(old(View())) ==> router.calls == old(router.calls) + ConnectionOutcomes.TickHears(old(View()), i)
    {
      hide SeeNow, Notices, Jobs, Reconnecting, Live, Inv, Keeps, Rel, ConnectionOutcomes.TickHears;
      if Inv(View()) {
        StepHolds(View(), i);
        ConnectionOutcomes.TickCalls(View(), i);
      }
      See(i.now);
      error := TakeNotices(i.notices, false);
      if error.Some? { return; }
      var now := if job.Some? && i.jobDone then i.afterJob else i.now;
      error := HandleJob(i);
      if error.Some? { return; }
      if socket {
        error := StayLive(now, i.live);
      } else {
        error := Reconnect(now, i);
      }
    }

    method OnClockGap(i: LossInput) returns (error: Option<Code>)
      modifies this
      ensures Result(error) == ForceGap(old(View()), i)
      ensures Inv(old(View())) ==> Keeps(Result(error)) && Rel(old(View()), View())
    {
      hide Lose, Inv, Keeps, Rel;
      if Inv(View()) { GapKeeps(View(), i); }
      previous := None;
      if socket || job.Some? || worker.Some? {
        error := LoseTransport(NetworkLost, i);
      } else {
        error := None;
      }
    }
  }
}
