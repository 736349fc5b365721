/** Recovery of the EventSub session (scripts/eventsub_recovery.py), as functions of the
    probe's state and of everything the outside world answers: clock readings, frames, job and
    worker results, stop requests and write outcomes. Capture configuration: a connector and a
    router are present. */
module Recovery {
  import opened Common
  import opened EventSink
  import opened EventSub
  import opened EventRouter

  const HANDOVER_DEADLINE := 25_000_000
  const DRAIN_LIMIT := 256

  /** BACKOFF = (1, 2, 4, 8, 16, 30) seconds. */
  function Backoff(retries: nat): int {
    Seconds(if retries == 0 then 1 else if retries == 1 then 2 else if retries == 2 then 4
            else if retries == 3 then 8 else if retries == 4 then 16 else 30)
  }

  /** The setup worker: pending are the sources it was given and has not reported yet. */
  datatype Worker = Worker(sessionId: Option<string>, pending: set<Source>)

  /** authorized: the job validates the token first, as cold reconnects do. */
  datatype Job = Job(url: string, authorized: bool)

  /** clock, monotone, overlapped and requests are history: the latest reading's UTC, whether
      readings never went back, whether a worker or job was ever replaced while still held, and
      the sources each setup worker was started for. */
  datatype Probe = Probe(
    specs: set<Source>, url: string, duration: Option<int>, externalClock: bool,
    session: Session, socket: bool, worker: Option<Worker>, job: Option<Job>, handover: bool, gapPending: bool,
    retryCount: nat, retryAt: Option<int>, previous: Option<Reading>, jobStarted: Reading, connected: Reading, started: Reading,
    stop: bool, router: Router, nextSerial: nat, clock: int, monotone: bool, overlapped: bool,
    requests: seq<set<Source>>)

  datatype Res = Go(p: Probe) | Fatal(p: Probe, code: Code) {
    predicate IsFailure() { Fatal? }
    function PropagateFailure(): Res
      requires Fatal?
    { this }
    function Extract(): Probe
      requires Go?
    { p }
  }

  // ----- what the outside answers -----

  /** The errors a connection job can report. */
  datatype JobError = JobUnauthorized | JobDisconnected | JobBroken

  function CodeOf(e: JobError): Code {
    match e
    case JobUnauthorized => AuthorizationFailed
    case JobDisconnected => ConnectionFailed
    case JobBroken => InternalFailure
  }

  datatype ConnectionResult = ConnectionResult(error: Option<JobError>, welcome: Frame, received: Option<Reading>)

  datatype DrainItem = DrainItem(frame: Frame, at: Reading, submission: Submission, writes: Writes)

  /** How draining the old socket ends when fewer than 256 frames came: nothing buffered, or
      the socket failed. */
  datatype DrainEnd = Quiet | Broken

  datatype LossInput = LossInput(lostAt: Reading, writes: Writes, jobError: Option<JobError>, notices: seq<Notice>, retryFrom: Reading)

  datatype CompletionInput = CompletionInput(
    result: ConnectionResult, at: Reading, stopBefore: bool,
    drain: seq<DrainItem>, drainEnd: DrainEnd, closed: bool, afterClose: Reading, stopAfterClose: bool,
    stopAtWorker: bool, loss: LossInput, retryFrom: Reading)

  datatype Receipt = Silence | SocketError | Received(frame: Frame)

  datatype LiveInput = LiveInput(
    writes: Writes, receipt: Receipt, at: Reading, stop: bool, stopAtWorker: bool, setupComplete: bool,
    stopAtJob: bool, jobAt: Reading, submission: Submission, dispatchWrites: Writes, observeWrites: Writes, loss: LossInput)

  datatype StepInput = StepInput(
    now: Reading, notices: seq<Notice>, jobDone: bool, completion: CompletionInput, afterJob: Reading, loss: LossInput,
    stopAtReconnect: bool, stopAtJob: bool, jobAt: Reading, live: LiveInput)

  // ----- small steps -----

  function SawStop(p: Probe, stop: bool): Probe { p.(stop := p.stop || stop) }

  /** sample(): without a coordinator clock guard, a backward step or a 5 s divergence between
      the clocks is fatal. */
  function Sample(p: Probe, r: Reading): Res {
    var seen := p.(monotone := p.monotone && p.clock <= r.utc, clock := r.utc);
    if p.previous.Some? && !p.externalClock
       && (var tick, utc := r.tick - p.previous.value.tick, r.utc - p.previous.value.utc;
           tick < 0 || utc < 0 || tick - utc >= Seconds(5) || utc - tick >= Seconds(5))
    then Fatal(seen, ClockIsUncertain)
    else Go(seen.(previous := Some(r)))
  }

  /** worker.take(): a source's result is posted once, for a source the worker was given; a
      notice without a source is a terminal error. */
  predicate Posts(w: Worker, n: Notice) {
    n.source == None || n.source.value in w.pending
  }

  /** state.setup_result(notice) */
  function Settle(p: Probe, n: Notice): Res {
    var c := SetupResult(p.session, n);
    if c.error.Some? then Fatal(p, c.error.value) else Go(p.(session := c.session))
  }

  function Reported(w: Worker, n: Notice): Worker {
    if n.source.Some? then w.(pending := w.pending - {n.source.value}) else w
  }

  function TakeNotice(p: Probe, n: Notice, discardSuccess: bool): Res
    requires p.worker.Some?
  {
    if !Posts(p.worker.value, n) then Go(p)
    else
      var taken := p.(worker := Some(Reported(p.worker.value, n)));
      if n.error == None && discardSuccess then Go(taken) else Settle(taken, n)
  }

  function Notices(p: Probe, ns: seq<Notice>, discardSuccess: bool): Res
    decreases |ns|
  {
    if ns == [] || p.worker == None then Go(p)
    else
      var q :- TakeNotice(p, ns[0], discardSuccess);
      Notices(q, ns[1..], discardSuccess)
  }

  function StopWorker(p: Probe, ns: seq<Notice>): Res {
    var q :- Notices(p, ns, true);
    Go(q.(worker := None))
  }

  function StartWorker(p: Probe, stop: bool): Res {
    var q := SawStop(p, stop);
    if q.stop then Go(q)
    else if q.specs - q.session.failed == {} then Fatal(q, NoUsableSubscriptions)
    else Go(q.(worker := Some(Worker(q.session.sessionId, q.specs - q.session.failed)), overlapped := q.overlapped || q.worker.Some?,
            requests := q.requests + [q.specs - q.session.failed]))
  }

  function ScheduleRetry(p: Probe, from: Reading): Res {
    var q :- Sample(p.(retryCount := p.retryCount + 1), from);
    Go(q.(retryAt := Some(from.tick + Backoff(p.retryCount))))
  }

  function LossReason(code: Code): TransportReason {
    if code == KeepaliveTimedOut then KeepaliveTimeout else NetworkError
  }

  /** The state once transport_lost was reported and the socket dropped. */
  function Disconnect(p: Probe, code: Code, lostAt: Reading, w: Writes): Probe {
    p.(router := TransportLost(p.router, LossReason(code), lostAt.utc, p.session.serial, w), socket := false)
  }

  function Silenced(p: Probe): Probe {
    p.(gapPending := true, session := p.session.(responsive := false, ids := map[]))
  }

  /** Finish whatever job and worker were in flight, then wait for the next attempt. */
  function WindDown(p: Probe, i: LossInput): Res {
    if p.job.Some? && i.jobError.Some? && i.jobError != Some(JobDisconnected) then
      Fatal(p.(job := None), CodeOf(i.jobError.value))
    else
      var q :- StopWorker(p.(job := None, handover := false), i.notices);
      ScheduleRetry(q, i.retryFrom)
  }

  function Lose(p: Probe, code: Code, i: LossInput): Res {
    var s :- Sample(Silenced(p), i.lostAt);
    WindDown(Disconnect(s, code, i.lostAt, i.writes), i)
  }

  function StartJob(p: Probe, url: string, handover: bool, stop: bool, at: Reading): Res {
    var q := SawStop(p, stop);
    if q.stop then Go(q)
    else
      var s :- Sample(q, at);
      Go(s.(jobStarted := at, handover := handover, job := Some(Job(url, !handover)), overlapped := s.overlapped || s.job.Some?))
  }

  function RequestHandover(p: Probe, url: string, setupComplete: bool, stop: bool, at: Reading, loss: LossInput): Res {
    if p.job.Some? then (if url != p.job.value.url then Lose(p, HandoverConflict, loss) else Go(p))
    else if p.worker == None || !setupComplete then Lose(p, HandoverDuringSetup, loss)
    else StartJob(p, url, true, stop, at)
  }

  // ----- completing a connection -----

  function Expired(p: Probe, now: Reading): bool {
    p.duration.Some? && Age(now, p.started) >= p.duration.value
  }

  /** Outcome of a part of the try block: carry on, return early because the run is ending, or
      a ProbeError to handle. */
  datatype Try = Ok(p: Probe) | Ended(p: Probe) | Err(p: Probe, code: Code)

  function EndRun(p: Probe): Probe { p.(stop := true, session := p.session.(responsive := false)) }

  /** One drained frame: accepted by the old session and, if a delivery, dispatched. */
  function DrainOne(p: Probe, x: DrainItem): Probe {
    var a := Accept(p.session, x.frame, x.at);
    var r := p.(session := a.session);
    if a.outcome.Deliver? then r.(router := Dispatch(r.router, a.outcome.delivery, x.at.utc, x.submission, x.writes)) else r
  }

  /** The recv loop over frames buffered on the old socket. */
  function Drain(p: Probe, url: string, items: seq<DrainItem>, end: DrainEnd, k: nat): Try
    decreases |items|
  {
    if k == DRAIN_LIMIT then Err(p, DrainLimit)
    else if items == [] then (if end == Broken then Err(p, ConnectionFailed) else Ok(p))
    else
      match Sample(p, items[0].at)
      case Fatal(q, code) => Err(q, code)
      case Go(q) =>
        var outcome := Accept(q.session, items[0].frame, items[0].at).outcome;
        var r := DrainOne(q, items[0]);
        if outcome.Rejected? then Err(r, outcome.code)
        else if outcome.ReconnectRequest? && outcome.url != url then Err(r, HandoverConflict)
        else Drain(r, url, items[1..], end, k + 1)
  }

  /** The welcome received by the job, checked against the clock at completion. */
  function Greet(p: Probe, i: CompletionInput): Accepted {
    var got := i.result.received;
    if got == None || got.value.tick < p.jobStarted.tick || got.value.utc < p.jobStarted.utc
       || got.value.tick > i.at.tick || got.value.utc > i.at.utc then
      Accepted(NewSession(p.nextSerial, p.specs), Rejected(ClockIsUncertain))
    else
      var a := Accept(NewSession(p.nextSerial, p.specs), i.result.welcome, got.value);
      if a.outcome.Rejected? then a
      else
        var c := CheckLiveness(a.session, i.at);
        Accepted(c.session, if c.error.Some? then Rejected(c.error.value) else Nothing)
  }

  /** After the old socket closed cleanly. */
  function AfterClose(q: Probe, next: Session, jobStarted: Reading, i: CompletionInput): Try {
    match Sample(q.(socket := false), i.afterClose)
    case Fatal(s, code) => Err(s, code)
    case Go(s) =>
      var seen := SawStop(s, i.stopAfterClose);
      if seen.stop || Expired(seen, i.afterClose) then Ended(EndRun(seen))
      else if Age(i.afterClose, jobStarted) >= Seconds(30) then Err(seen, HandoverTimedOut)
      else if CheckLiveness(next, i.afterClose).error.Some? then Err(seen, CheckLiveness(next, i.afterClose).error.value)
      else Ok(seen)
  }

  /** Drain and close the old socket of a directed handover; Ok carries the old state after
      the drain and leaves the socket closed. */
  function CloseOld(p: Probe, next: Session, url: string, i: CompletionInput): Try {
    var c := CheckLiveness(p.session, i.at);
    var checked := p.(session := c.session);
    if c.error.Some? then Err(checked, c.error.value)
    else if Age(i.at, p.jobStarted) >= HANDOVER_DEADLINE then Err(checked, HandoverTimedOut)
    else
      match Drain(checked, url, i.drain, i.drainEnd, 0)
      case Err(q, code) => Err(q, code)
      case Ended(q) => Ended(q)
      case Ok(q) =>
        if !i.closed then Err(q, CloseFailed)
        else AfterClose(q, next, p.jobStarted, i)
  }

  /** self.state = fresh; the new socket takes over. */
  function Adopt(p: Probe, next: Session, received: Reading): Probe {
    p.(session := next, socket := true, connected := received, nextSerial := p.nextSerial + 1)
  }

  function HandoverSession(next: Session, prior: Session, now: Reading): Session {
    CheckLiveness(next, now).session.(ids := prior.ids, deliverySeen := prior.deliverySeen, failed := prior.failed)
  }

  function TryConnect(p: Probe, job: Job, i: CompletionInput): Try {
    if i.result.error.Some? then Err(p, CodeOf(i.result.error.value))
    else
      var g := Greet(p, i);
      if g.outcome.Rejected? then Err(p, g.outcome.code)
      else if p.handover then
        match CloseOld(p, g.session, job.url, i)
        case Err(q, code) => Err(q, code)
        case Ended(q) => Ended(q)
        case Ok(q) => Ok(Adopt(q, HandoverSession(g.session, q.session, i.afterClose), i.result.received.value).(handover := false))
      else
        var q := Adopt(p, g.session.(failed := p.session.failed), i.result.received.value);
        match StartWorker(q, i.stopAtWorker)
        case Fatal(s, code) => Err(s, code)
        case Go(s) => Ok(s.(handover := false))
  }

  function Unrecoverable(code: Code): bool {
    code == AuthorizationFailed || code == InternalFailure || code == ClockIsUncertain
  }

  /** What complete_job does with the outcome of its try block. */
  function AfterTry(t: Try, i: CompletionInput): Res {
    match t
    case Ok(q) => Go(q)
    case Ended(q) => Go(q)
    case Err(q, code) =>
      if Unrecoverable(code) then Fatal(q, code)
      else if q.handover then Lose(q, HandoverFailed, i.loss)
      else if code == ConnectionFailed || code == KeepaliveTimedOut then ScheduleRetry(q, i.retryFrom)
      else Fatal(q, code)
  }

  function CompleteJob(p: Probe, i: CompletionInput): Res
    requires p.job.Some?
  {
    var job := p.job.value;
    var sampled :- Sample(p.(job := None), i.at);
    var seen := SawStop(sampled, i.stopBefore);
    if seen.stop || Expired(seen, i.at) then Go(EndRun(seen))
    else AfterTry(TryConnect(seen, job, i), i)
  }

  // ----- one tick -----

  function Look(p: Probe, now: Reading, w: Writes): Probe {
    p.(router := Observe(p.router, p.session, now, w))
  }

  function NoteReady(p: Probe, now: Reading): Probe {
    if !Ready(p.session) then p
    else p.(gapPending := false, retryCount := if Age(now, p.connected) >= Seconds(60) then 0 else p.retryCount)
  }

  predicate WelcomeOverdue(p: Probe, now: Reading) {
    p.session.sessionId == None && Age(now, p.connected) > Seconds(10)
  }

  /** After a frame was accepted: start the first worker, act on the frame, look again. */
  function Act(p: Probe, outcome: Outcome, i: LiveInput): Res {
    var q :- if p.worker == None then StartWorker(p, i.stopAtWorker) else Go(p);
    match outcome
    case ReconnectRequest(url) =>
      var r :- RequestHandover(q, url, i.setupComplete, i.stopAtJob, i.jobAt, i.loss);
      Go(Look(r, i.at, i.observeWrites))
    case Deliver(d) => Go(Look(q.(router := Dispatch(q.router, d, i.at.utc, i.submission, i.dispatchWrites)), i.at, i.observeWrites))
    case _ => Go(Look(q, i.at, i.observeWrites))
  }

  /** accept() the frame; only a keepalive timeout is survivable. */
  function TakeFrame(p: Probe, frame: Frame, i: LiveInput): Res {
    var a := Accept(p.session, frame, i.at);
    var q := p.(session := a.session);
    if !a.outcome.Rejected? then Act(q, a.outcome, i)
    else if a.outcome.code == KeepaliveTimedOut then Lose(q, a.outcome.code, i.loss)
    else Fatal(q, a.outcome.code)
  }

  /** A frame in hand, with liveness just checked. */
  function Handle(p: Probe, frame: Frame, i: LiveInput): Res {
    var seen := SawStop(p, i.stop);
    if seen.stop || Expired(seen, i.at) then Go(seen)
    else if WelcomeOverdue(seen, i.at) then Lose(seen, WelcomeTimedOut, i.loss)
    else TakeFrame(seen, frame, i)
  }

  function Receive(p: Probe, frame: Frame, i: LiveInput): Res {
    var sampled :- Sample(p, i.at);
    var c := CheckLiveness(sampled.session, i.at);
    if c.error.Some? then Lose(sampled.(session := c.session), c.error.value, i.loss)
    else Handle(sampled.(session := c.session), frame, i)
  }

  /** The rest of a live tick, once the sinks were shown the session. */
  function Listen(p: Probe, now: Reading, i: LiveInput): Res {
    if WelcomeOverdue(p, now) then Lose(p, WelcomeTimedOut, i.loss)
    else
      match i.receipt
      case Silence => Go(NoteReady(p, now))
      case SocketError => Lose(NoteReady(p, now), NetworkLost, i.loss)
      case Received(frame) => Receive(NoteReady(p, now), frame, i)
  }

  function Live(p: Probe, now: Reading, i: LiveInput): Res {
    var c := CheckLiveness(p.session, now);
    if c.error.Some? then Lose(p.(session := c.session), c.error.value, i.loss)
    else Listen(Look(p.(session := c.session), now, i.writes), now, i)
  }

  /** The branch without a live socket. The retry time is compared before stop is looked at. */
  function Reconnecting(p: Probe, now: Reading, i: StepInput): Res {
    if p.job.Some? then Go(p)
    else if p.retryAt == None then Fatal(p, RetryTimeUnset)
    else
      var q := SawStop(p, i.stopAtReconnect);
      if now.tick >= q.retryAt.value && !q.stop then StartJob(q, q.url, false, i.stopAtJob, i.jobAt) else Go(q)
  }

  /** The pending job, and the reading the rest of the tick works with. */
  function Jobs(p: Probe, i: StepInput): Res {
    if p.job == None then Go(p)
    else if i.jobDone then
      var q :- CompleteJob(p, i.completion);
      Sample(q, i.afterJob)
    else if p.handover && Age(i.now, p.jobStarted) >= HANDOVER_DEADLINE then Lose(p, HandoverTimedOut, i.loss)
    else Go(p)
  }

  function Tick(p: Probe, i: StepInput): Reading {
    if p.job.Some? && i.jobDone then i.afterJob else i.now
  }

  /** `now` is a reading the caller took; in the merged runtime the coordinator's guard took it. */
  function SeeNow(p: Probe, now: Reading): Probe {
    p.(monotone := p.monotone && p.clock <= now.utc, clock := now.utc)
  }

  function Step(p: Probe, i: StepInput): Res {
    var q :- Notices(SeeNow(p, i.now), i.notices, false);
    var r :- Jobs(q, i);
    if !r.socket then Reconnecting(r, Tick(q, i), i) else Live(r, Tick(q, i), i.live)
  }

  /** The coordinator's clock guard saw a gap. */
  function ForceGap(p: Probe, i: LossInput): Res {
    var q := p.(previous := None);
    if q.socket || q.job.Some? || q.worker.Some? then Lose(q, NetworkLost, i) else Go(q)
  }

  function Start(specs: set<Source>, sources: set<Source>, url: string, duration: Option<int>, externalClock: bool, now: Reading, w: Writes): Probe {
    Probe(specs, url, duration, externalClock, NewSession(0, specs), true, None, None, false, false,
          0, None, None, now, now, now, false, BeginAll(NewRouter(sources), now.utc, w), 1, now.utc, true, false, [])
  }
}
