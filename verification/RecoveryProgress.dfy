/** What a tick of the capture session does, exactly, and when (scripts/eventsub_recovery.py):
    the conditions are on the session, the frame, the clock and the stop requests. */
module RecoveryProgress {
  import opened Common
  import opened EventSink
  import opened EventSub
  import opened EventRouter
  import opened RouterGuarantees
  import opened Recovery
  import opened RecoveryInvariants
  import opened RecoveryRuns
  import opened RecoveryGuarantees
  import opened RecoveryTheorems
  import opened Handover

  /** The state the rest of a tick works on, after the results of the setup worker and of a
      pending connection job were taken. */
  function Readied(p: Probe, i: StepInput): Res {
    var q :- Notices(SeeNow(p, i.now), i.notices, false);
    Jobs(q, i)
  }

  lemma StepIs(p: Probe, i: StepInput)
    requires Inv(p)
    ensures var r := Readied(p, i);
            && (r.Fatal? ==> Step(p, i) == r)
            && (r.Go? ==> Inv(r.p) && Step(p, i) == if r.p.socket then Live(r.p, Tick(p, i), i.live) else Reconnecting(r.p, Tick(p, i), i))
  {
    hide Core, Jobs, Live, Reconnecting, Notices;
    TakeResults(p, i);
    var seen := SeeNow(p, i.now);
    CoreFrame(p, seen);
    NoticesKeep(seen, i.notices, false);
    var q := Notices(seen, i.notices, false);
    if q.Go? { JobsKeep(q.p, i); }
  }

  /** Nothing is pending: the tick starts from the probe itself. */
  lemma NothingPending(p: Probe, i: StepInput)
    requires p.job == None && (i.notices == [] || p.worker == None)
    ensures Readied(p, i) == Go(SeeNow(p, i.now)) && Tick(p, i) == i.now
  {
  }

  // ----- conditions -----

  /** Without a coordinator's clock guard both clocks must go forward, within 5 s of each other. */
  predicate InOrder(external: bool, previous: Option<Reading>, r: Reading) {
    previous == None || external
    || (var ticks, wall := r.tick - previous.value.tick, r.utc - previous.value.utc;
        0 <= ticks && 0 <= wall && -5_000_000 < ticks - wall < 5_000_000)
  }

  predicate ClockAllows(p: Probe, r: Reading) { InOrder(p.externalClock, p.previous, r) }

  lemma SampleIff(p: Probe, r: Reading)
    ensures Sample(p, r).Go? <==> ClockAllows(p, r)
    ensures Sample(p, r).Fatal? ==> Sample(p, r).code == ClockIsUncertain && !p.externalClock
    ensures Sample(p, r).p == p.(previous := Sample(p, r).p.previous, clock := r.utc, monotone := Sample(p, r).p.monotone)
    ensures Sample(p, r).Go? ==> Sample(p, r).p.previous == Some(r)
  {
  }

  /** No welcome within ten seconds of the connection. */
  predicate Unwelcomed(p: Probe, at: Reading) { p.session.sessionId == None && PassedBy(at, p.connected, 10_000_000) }

  predicate Ending(p: Probe, stop: bool, at: Reading) {
    p.stop || stop
    || (p.duration.Some? && (at.tick - p.started.tick >= p.duration.value || at.utc - p.started.utc >= p.duration.value))
  }

  lemma TimingIs(p: Probe, stop: bool, at: Reading)
    ensures WelcomeOverdue(p, at) == Unwelcomed(p, at)
    ensures (SawStop(p, stop).stop || Expired(SawStop(p, stop), at)) == Ending(p, stop, at)
  {
  }

  // ----- a loss -----

  /** The outside answers a loss without a fatal error. */
  predicate Bearable(p: Probe, loss: LossInput) {
    p.externalClock && loss.notices == [] && (loss.jobError == None || loss.jobError == Some(JobDisconnected))
  }

  /** The session is lost, reported to the router with this reason at the time of the loss:
      nothing is connected or confirmed, a gap row is open while storage works, a retry is
      scheduled. Only an unrecoverable error is fatal instead. */
  ghost predicate LostTo(p: Probe, r: Router, reason: TransportReason, loss: LossInput, s: Res) {
    && (s.Go? ==> Down(s.p) && s.p.router == TransportLost(r, reason, loss.lostAt.utc, p.session.serial, loss.writes)
                  && (s.p.router.storageFailed || s.p.router.openGap.Some?)
                  && s.p.retryAt == Some(loss.retryFrom.tick + Backoff(p.retryCount)) && s.p.retryCount == p.retryCount + 1)
    && (s.Fatal? ==> Unrecoverable(s.code))
    && (Bearable(p, loss) ==> s.Go?) && s.p.router.calls == r.calls
  }

  lemma LoseLoses(p: Probe, code: Code, loss: LossInput)
    requires Core(p)
    ensures LostTo(p, p.router, if code == KeepaliveTimedOut then KeepaliveTimeout else NetworkError, loss, Lose(p, code, loss))
  {
    hide Core, TransportLost, Down;
    LoseKeeps(p, code, loss);
    LoseFrame(p, code, loss);
  }

  lemma LoseFrame(p: Probe, code: Code, loss: LossInput)
    requires Core(p)
    ensures var s := Lose(p, code, loss);
            && (s.Go? ==> s.p.router == TransportLost(p.router, LossReason(code), loss.lostAt.utc, p.session.serial, loss.writes)
                          && s.p.retryAt == Some(loss.retryFrom.tick + Backoff(p.retryCount)) && s.p.retryCount == p.retryCount + 1)
            && (Bearable(p, loss) ==> s.Go?)
  {
    hide TransportLost, Sample, StopWorker, Backoff, Core;
    SilencedKeeps(p);
    SampleIff(Silenced(p), loss.lostAt);
    SampleKeeps(Silenced(p), loss.lostAt);
    var sampled := Sample(Silenced(p), loss.lostAt);
    if sampled.Go? {
      var down := Disconnect(sampled.p, code, loss.lostAt, loss.writes);
      DisconnectKeeps(sampled.p, code, loss.lostAt, loss.writes);
      WindsDown(down, loss);
    }
  }

  lemma WindsDown(p: Probe, loss: LossInput)
    requires Core(p) && IsLost(p) && (!p.router.storageFailed ==> p.router.ready == {})
    ensures var s := WindDown(p, loss);
            && (s.Go? ==> s.p.router == p.router && s.p.retryAt == Some(loss.retryFrom.tick + Backoff(p.retryCount)) && s.p.retryCount == p.retryCount + 1)
            && (Bearable(p, loss) ==> s.Go?)
  {
    hide ScheduleRetry, StopWorker, Backoff, Core;
    var cleared := p.(job := None, handover := false);
    CoreFrame(p, cleared);
    StopWorkerKeeps(cleared, loss.notices);
    var q := StopWorker(cleared, loss.notices);
    if loss.notices == [] { NoNotices(cleared); }
    if q.Go? { RetryIs(q.p, loss.retryFrom); }
  }

  lemma RetryIs(p: Probe, from: Reading)
    ensures var s := ScheduleRetry(p, from);
            && (s.Go? <==> ClockAllows(p, from)) && s.p.router == p.router
            && (s.Go? ==> s.p.retryAt == Some(from.tick + Backoff(p.retryCount)) && s.p.retryCount == p.retryCount + 1)
  {
    hide Sample, Backoff, InOrder;
    SampleIff(p.(retryCount := p.retryCount + 1), from);
  }

  lemma NoNotices(p: Probe)
    ensures StopWorker(p, []) == Go(p.(worker := None))
  {
  }

  // ----- a tick with a live socket -----

  /** What the router has seen before the socket is read. */
  function Seen(r: Probe, now: Reading, l: LiveInput): Router { Observe(r.router, Graced(r.session, now), now, l.writes) }

  function Watching(r: Probe, now: Reading, l: LiveInput): Probe { r.(session := Graced(r.session, now), router := Seen(r, now, l)) }

  lemma WatchingKeeps(r: Probe, now: Reading, l: LiveInput)
    requires Inv(r) && r.socket && !Dead(r.session, now)
    ensures Inv(Watching(r, now, l))
    ensures Live(r, now, l) == Listen(Watching(r, now, l), now, l)
  {
    hide Core, Shape, Listen, Observe, Lose, Graced, Dead;
    TimeoutIff(r.session, now);
    LookFresh(r, now, l.writes);
  }

  lemma DeadTick(r: Probe, now: Reading, l: LiveInput)
    requires Inv(r) && r.socket && Dead(r.session, now)
    ensures LostTo(r, r.router, KeepaliveTimeout, l.loss, Live(r, now, l))
  {
    hide Core, Shape, Lose, LostTo, Dead, Graced;
    TimeoutIff(r.session, now);
    LoseLoses(r, KeepaliveTimedOut, l.loss);
    assert r.(session := r.session) == r;
  }

  /** A session silent for its keepalive interval and two seconds more is lost. */
  lemma SilenceIsLost(p: Probe, i: StepInput, r: Probe)
    requires Inv(p) && Readied(p, i) == Go(r) && r.socket && Dead(r.session, Tick(p, i))
    ensures LostTo(r, r.router, KeepaliveTimeout, i.live.loss, Step(p, i))
  {
    hide Core, Shape, Readied, Step, Live, Reconnecting, LostTo;
    StepIs(p, i);
    DeadTick(r, Tick(p, i), i.live);
  }

  /** A connection without a welcome for ten seconds is lost. */
  lemma NoWelcomeIsLost(p: Probe, i: StepInput, r: Probe)
    requires Inv(p) && Readied(p, i) == Go(r) && r.socket && !Dead(r.session, Tick(p, i)) && Unwelcomed(r, Tick(p, i))
    ensures LostTo(r, Seen(r, Tick(p, i), i.live), NetworkError, i.live.loss, Step(p, i))
  {
    hide Core, Shape, Readied, Step, Live, Reconnecting, LostTo, Observe, Lose, Dead, WelcomeOverdue, Unwelcomed, PassedBy;
    var now := Tick(p, i);
    StepIs(p, i);
    WatchingKeeps(r, now, i.live);
    var w := Watching(r, now, i.live);
    TimingIs(w, false, now);
    UnwelcomedFrame(r, w, now);
    LoseLoses(w, WelcomeTimedOut, i.live.loss);
    LostFrame(r, w, NetworkError, i.live.loss, Step(p, i));
  }

  lemma UnwelcomedFrame(r: Probe, w: Probe, at: Reading)
    requires w.session.sessionId == r.session.sessionId && w.connected == r.connected
    ensures Unwelcomed(w, at) == Unwelcomed(r, at)
  {
  }

  lemma LostFrame(p: Probe, q: Probe, reason: TransportReason, loss: LossInput, s: Res)
    requires LostTo(q, q.router, reason, loss, s) && q.session.serial == p.session.serial && q.retryCount == p.retryCount && q.externalClock == p.externalClock
    ensures LostTo(p, q.router, reason, loss, s)
  {
    hide TransportLost, Down;
  }

  /** Neither dead nor unwelcomed: the socket is read. */
  predicate Attentive(r: Probe, now: Reading) { r.socket && !Dead(r.session, now) && !Unwelcomed(r, now) }

  lemma Listens(p: Probe, i: StepInput, r: Probe)
    requires Inv(p) && Readied(p, i) == Go(r) && Attentive(r, Tick(p, i))
    ensures var w := Watching(r, Tick(p, i), i.live);
            var n := NoteReady(w, Tick(p, i));
            && Inv(n) && n == w.(gapPending := n.gapPending, retryCount := n.retryCount)
            && Step(p, i) == match i.live.receipt
                             case Silence => Go(n)
                             case SocketError => Lose(n, NetworkLost, i.live.loss)
                             case Received(frame) => Receive(n, frame, i.live)
  {
    hide Core, Shape, Readied, Step, Live, Reconnecting, Observe, Lose, Dead, WelcomeOverdue, Unwelcomed, PassedBy, Receive, NoteReady;
    var now := Tick(p, i);
    StepIs(p, i);
    WatchingKeeps(r, now, i.live);
    var w := Watching(r, now, i.live);
    TimingIs(w, false, now);
    UnwelcomedFrame(r, w, now);
    NotedKeeps(w, now);
    NotedFrame(w, now);
    ListenIs(w, now, i.live);
  }

  lemma ListenIs(w: Probe, now: Reading, l: LiveInput)
    requires !WelcomeOverdue(w, now)
    ensures Listen(w, now, l) == match l.receipt
                                 case Silence => Go(NoteReady(w, now))
                                 case SocketError => Lose(NoteReady(w, now), NetworkLost, l.loss)
                                 case Received(frame) => Receive(NoteReady(w, now), frame, l)
  {
    hide WelcomeOverdue, NoteReady, Lose, Receive;
  }

  /** Silence: the session is shown to the router; once every source is ready the gap is over,
      and after sixty seconds of connection the backoff starts anew. */
  lemma SilentTick(p: Probe, i: StepInput, r: Probe)
    requires Inv(p) && Readied(p, i) == Go(r) && Attentive(r, Tick(p, i)) && i.live.receipt.Silence?
    ensures var now, s := Tick(p, i), Graced(r.session, Tick(p, i));
            var over := Ready(s) && (now.tick - r.connected.tick >= 60_000_000 || now.utc - r.connected.utc >= 60_000_000);
            Step(p, i) == Go(r.(session := s, router := Seen(r, now, i.live), gapPending := r.gapPending && !Ready(s),
                                retryCount := if over then 0 else r.retryCount))
  {
    hide Core, Shape, Readied, Step, Observe, Dead, Unwelcomed, Graced, Ready;
    Listens(p, i, r);
  }

  /** A socket error is a loss. */
  lemma SocketErrorTick(p: Probe, i: StepInput, r: Probe)
    requires Inv(p) && Readied(p, i) == Go(r) && Attentive(r, Tick(p, i)) && i.live.receipt.SocketError?
    ensures exists n :: LostTo(n, Seen(r, Tick(p, i), i.live), NetworkError, i.live.loss, Step(p, i))
                        && n == Watching(r, Tick(p, i), i.live).(gapPending := n.gapPending, retryCount := n.retryCount)
  {
    hide Core, Shape, Readied, Step, Observe, Dead, Unwelcomed, Graced, LostTo, NoteReady;
    Listens(p, i, r);
    LoseLoses(NoteReady(Watching(r, Tick(p, i), i.live), Tick(p, i)), NetworkLost, i.live.loss);
  }

  // ----- a frame -----

  /** In hand before the frame is looked at: the router saw the session, and readiness is noted. */
  function Noted(r: Probe, now: Reading, l: LiveInput): Probe { NoteReady(Watching(r, now, l), now) }

  /** The same once the frame's own reading was taken and found in order. */
  function Holding(r: Probe, now: Reading, l: LiveInput): Probe {
    var n := Sample(Noted(r, now, l), l.at).p;
    n.(session := Graced(n.session, l.at))
  }

  /** What a tick reads of the probe; sampling and noting change none of it. */
  predicate SameReading(p: Probe, q: Probe) {
    && q.specs == p.specs && q.url == p.url && q.duration == p.duration && q.externalClock == p.externalClock && q.socket == p.socket
    && q.worker == p.worker && q.job == p.job && q.handover == p.handover && q.retryAt == p.retryAt && q.jobStarted == p.jobStarted
    && q.connected == p.connected && q.started == p.started && q.stop == p.stop && q.nextSerial == p.nextSerial
    && q.overlapped == p.overlapped && q.requests == p.requests
  }

  lemma HoldingIs(r: Probe, now: Reading, l: LiveInput)
    requires Inv(r) && Attentive(r, now) && ClockAllows(r, l.at) && !Dead(Graced(r.session, now), l.at)
    ensures var h := Holding(r, now, l);
            && Inv(h) && SameReading(r, h) && h.router == Seen(r, now, l) && h.session == Graced(Graced(r.session, now), l.at)
            && h.previous == Some(l.at)
  {
    hide Core, Shape, Observe, Dead, NoteReady, Sample, Graced, ClockAllows;
    WatchingKeeps(r, now, l);
    NotedClock(r, now, l);
    var w := Watching(r, now, l);
    NotedKeeps(w, now);
    NotedFrame(w, now);
    var n := NoteReady(w, now);
    SampleIff(n, l.at);
    SampleKeeps(n, l.at);
    TimeoutIff(n.session, l.at);
    CheckKeeps(Sample(n, l.at).p, l.at);
  }

  lemma NotedClock(r: Probe, now: Reading, l: LiveInput)
    ensures ClockAllows(Noted(r, now, l), l.at) == ClockAllows(r, l.at)
  {
    hide NoteReady, InOrder, Seen, Graced;
    NotedFrame(Watching(r, now, l), now);
  }

  lemma ReceiveIs(n: Probe, frame: Frame, l: LiveInput)
    ensures ClockAllows(n, l.at) && !Dead(n.session, l.at) ==>
              var m := Sample(n, l.at).p;
              Receive(n, frame, l) == Handle(m.(session := Graced(m.session, l.at)), frame, l)
    ensures ClockAllows(n, l.at) && Dead(n.session, l.at) ==> Receive(n, frame, l) == Lose(Sample(n, l.at).p, KeepaliveTimedOut, l.loss)
    ensures !ClockAllows(n, l.at) ==> Receive(n, frame, l).Fatal? && Receive(n, frame, l).code == ClockIsUncertain && Receive(n, frame, l).p.router == n.router
  {
    hide Sample, ClockAllows, Handle, Lose, Dead, Graced, CheckLiveness;
    SampleIff(n, l.at);
    TimeoutIff(n.session, l.at);
    var m := Sample(n, l.at).p;
    assert m.session == n.session;
    assert m.(session := m.session) == m;
  }

  /** The frame is looked at: the clock allows it and the session is not dead then. */
  predicate Awake(r: Probe, now: Reading, l: LiveInput) {
    Attentive(r, now) && ClockAllows(r, l.at) && !Dead(Graced(r.session, now), l.at)
  }

  lemma HandlesFrame(p: Probe, i: StepInput, r: Probe, frame: Frame)
    requires Inv(p) && Readied(p, i) == Go(r) && Awake(r, Tick(p, i), i.live) && i.live.receipt == Received(frame)
    ensures var h := Holding(r, Tick(p, i), i.live);
            Inv(h) && Step(p, i) == Handle(h, frame, i.live)
  {
    hide Core, Shape, Readied, Step, Observe, Dead, Unwelcomed, Graced, ClockAllows, NoteReady, Handle, Receive, Sample;
    var now, l := Tick(p, i), i.live;
    StepIs(p, i);
    Listens(p, i, r);
    HoldingIs(r, now, l);
    NotedClock(r, now, l);
    var n := Noted(r, now, l);
    NotedSession(Watching(r, now, l), now);
    ReceiveIs(n, frame, l);
  }

  lemma NotedSession(p: Probe, now: Reading)
    ensures NoteReady(p, now).session == p.session && NoteReady(p, now).router == p.router
  {
    NotedFrame(p, now);
    hide NoteReady;
  }

  /** A clock step back or aside between the readings of a tick is fatal; a session dead at the
      frame's reading is lost all the same. */
  lemma LateFrame(p: Probe, i: StepInput, r: Probe)
    requires Inv(p) && Readied(p, i) == Go(r) && Attentive(r, Tick(p, i)) && i.live.receipt.Received?
    ensures var now, l, s := Tick(p, i), i.live, Step(p, i);
            && (!ClockAllows(r, l.at) ==> s.Fatal? && s.code == ClockIsUncertain && s.p.router == Seen(r, now, l))
            && (ClockAllows(r, l.at) && Dead(Graced(r.session, now), l.at) ==>
                  LostTo(Noted(r, now, l), Seen(r, now, l), KeepaliveTimeout, l.loss, s))
  {
    hide Core, Shape, Readied, Step, Observe, Dead, Unwelcomed, Graced, ClockAllows, NoteReady, Receive, Sample, LostTo, Lose;
    var now, l := Tick(p, i), i.live;
    Listens(p, i, r);
    NotedClock(r, now, l);
    var n := Noted(r, now, l);
    NotedSession(Watching(r, now, l), now);
    ReceiveIs(n, l.receipt.frame, l);
    SampleKeeps(n, l.at);
    var m := Sample(n, l.at).p;
    LoseLoses(m, KeepaliveTimedOut, l.loss);
    if LostTo(m, m.router, KeepaliveTimeout, l.loss, Lose(m, KeepaliveTimedOut, l.loss)) {
      LostFrame(n, m, KeepaliveTimeout, l.loss, Lose(m, KeepaliveTimedOut, l.loss));
    }
  }

  /** The frame is acted on: the run goes on and a welcome is not overdue. */
  predicate Attended(r: Probe, now: Reading, l: LiveInput) {
    Awake(r, now, l) && !Ending(r, l.stop, l.at) && !Unwelcomed(r, l.at)
  }

  lemma HandleIs(h: Probe, frame: Frame, l: LiveInput)
    ensures Ending(h, l.stop, l.at) ==> Handle(h, frame, l) == Go(SawStop(h, l.stop))
    ensures !Ending(h, l.stop, l.at) && Unwelcomed(h, l.at) ==> Handle(h, frame, l) == Lose(h, WelcomeTimedOut, l.loss)
    ensures !Ending(h, l.stop, l.at) && !Unwelcomed(h, l.at) ==> Handle(h, frame, l) == TakeFrame(h, frame, l)
  {
    hide Ending, Unwelcomed, WelcomeOverdue, Expired, Lose, TakeFrame;
    TimingIs(h, l.stop, l.at);
    TimingIs(SawStop(h, l.stop), false, l.at);
    EndingStop(h, l);
  }

  lemma EndingStop(h: Probe, l: LiveInput)
    ensures !Ending(h, l.stop, l.at) ==> SawStop(h, l.stop) == h
    ensures Unwelcomed(SawStop(h, l.stop), l.at) == Unwelcomed(h, l.at)
  {
  }

  lemma SameTiming(r: Probe, h: Probe, stop: bool, at: Reading)
    requires SameReading(r, h) && h.session.sessionId == r.session.sessionId
    ensures Ending(h, stop, at) == Ending(r, stop, at) && Unwelcomed(h, at) == Unwelcomed(r, at)
  {
  }

  /** A frame that comes when the run is ending is dropped, and one before an overdue welcome
      does not save the connection. */
  lemma DroppedFrame(p: Probe, i: StepInput, r: Probe)
    requires Inv(p) && Readied(p, i) == Go(r) && Awake(r, Tick(p, i), i.live) && i.live.receipt.Received?
    ensures var now, l, s := Tick(p, i), i.live, Step(p, i);
            var h := Holding(r, now, l);
            && (Ending(r, l.stop, l.at) ==> s == Go(SawStop(h, l.stop)))
            && (!Ending(r, l.stop, l.at) && Unwelcomed(r, l.at) ==> LostTo(h, Seen(r, now, l), NetworkError, l.loss, s))
  {
    hide Core, Shape, Readied, Step, Observe, Dead, Unwelcomed, ClockAllows, Handle, LostTo, Lose, Holding, Ending, SameReading, PassedBy;
    var now, l := Tick(p, i), i.live;
    StepIs(p, i);
    HandlesFrame(p, i, r, l.receipt.frame);
    HoldingIs(r, now, l);
    var h := Holding(r, now, l);
    SameTiming(r, h, l.stop, l.at);
    HandleIs(h, l.receipt.frame, l);
    LoseLoses(h, WelcomeTimedOut, l.loss);
  }

  lemma TakesFrame(p: Probe, i: StepInput, r: Probe, frame: Frame)
    requires Inv(p) && Readied(p, i) == Go(r) && Attended(r, Tick(p, i), i.live) && i.live.receipt == Received(frame)
    ensures var h := Holding(r, Tick(p, i), i.live);
            && Inv(h) && SameReading(r, h) && h.router == Seen(r, Tick(p, i), i.live)
            && h.session == Graced(Graced(r.session, Tick(p, i)), i.live.at) && !Dead(h.session, i.live.at) && !h.stop && r.socket
            && Step(p, i) == TakeFrame(h, frame, i.live)
  {
    hide Core, Shape, Readied, Step, Observe, Unwelcomed, ClockAllows, Handle, Holding, Ending, SameReading, PassedBy, TakeFrame;
    var now, l := Tick(p, i), i.live;
    StepIs(p, i);
    HandlesFrame(p, i, r, frame);
    HoldingIs(r, now, l);
    var h := Holding(r, now, l);
    SameTiming(r, h, l.stop, l.at);
    HandleIs(h, frame, l);
    GoingOn(h, l);
    DeadFrame(Graced(r.session, now), l.at);
  }

  lemma GoingOn(h: Probe, l: LiveInput)
    ensures !Ending(h, l.stop, l.at) ==> !h.stop
  {
  }

  lemma DeadFrame(s: Session, at: Reading)
    ensures Dead(Graced(s, at), at) == Dead(s, at)
  {
  }

  /** The session at the frame's reading. */
  function Before(r: Probe, now: Reading, l: LiveInput): Session { Graced(Graced(r.session, now), l.at) }

  /** A frame that is not acceptable then is fatal. */
  lemma BadFrame(p: Probe, i: StepInput, r: Probe, frame: Frame)
    requires Inv(p) && Readied(p, i) == Go(r) && Attended(r, Tick(p, i), i.live) && i.live.receipt == Received(frame)
    requires !Acceptable(Before(r, Tick(p, i), i.live), frame)
    ensures Step(p, i).Fatal? && Step(p, i).code == InvalidMessage && Step(p, i).p.router == Seen(r, Tick(p, i), i.live)
  {
    hide Core, Shape, Readied, Step, Observe, Attended, Holding, SameReading, Dead, Acceptable, Accept, Act, Lose, Graced;
    var h := Holding(r, Tick(p, i), i.live);
    TakesFrame(p, i, r, frame);
    AcceptIff(h.session, frame, i.live.at);
  }

  /** The setup worker exists, or is started now unless stop is seen; without a source left to
      subscribe to, the run ends. */
  ghost predicate WorkerReady(r: Probe, t: Session, l: LiveInput, q: Probe) {
    if r.worker.Some? then q.worker == r.worker && q.requests == r.requests
    else if l.stopAtWorker then q.worker == None && q.requests == r.requests && q.stop
    else r.specs - t.failed != {} && q.worker == Some(Worker(t.sessionId, r.specs - t.failed)) && q.requests == r.requests + [r.specs - t.failed]
  }

  /** The frame's session and router once it was taken: the router is told of a delivery first
      and then shown the session. */
  ghost predicate FrameTaken(r: Probe, seen: Router, s: Session, frame: Frame, l: LiveInput, q: Probe) {
    && Took(s, frame, l.at, q.session) && q.socket && WorkerReady(r, q.session, l, q)
    && q.router == Observe(if Meaning(frame).Deliver? then Dispatch(seen, Meaning(frame).delivery, l.at.utc, l.submission, l.dispatchWrites) else seen,
                           q.session, l.at, l.observeWrites)
  }

  /** An acceptable frame other than a reconnect request is taken; the only other outcome is
      that no source is left for a first setup worker. */
  lemma GoodFrame(p: Probe, i: StepInput, r: Probe, frame: Frame)
    requires Inv(p) && Readied(p, i) == Go(r) && Attended(r, Tick(p, i), i.live) && i.live.receipt == Received(frame)
    requires Acceptable(Before(r, Tick(p, i), i.live), frame) && !frame.Reconnect?
    ensures var s := Step(p, i);
            match s
            case Go(q) => FrameTaken(r, Seen(r, Tick(p, i), i.live), Before(r, Tick(p, i), i.live), frame, i.live, q)
                          && q.job == r.job && q.handover == r.handover
            case Fatal(q, code) => code == NoUsableSubscriptions && r.worker == None && !i.live.stopAtWorker
                                   && r.specs <= q.session.failed && Took(Before(r, Tick(p, i), i.live), frame, i.live.at, q.session)
                                   && q.router == Seen(r, Tick(p, i), i.live)
  {
    hide Core, Shape, Readied, Step, Observe, Attended, Holding, Dead, Acceptable, Accept, Act, Lose, Graced, Took, Dispatch;
    var h := Holding(r, Tick(p, i), i.live);
    TakesFrame(p, i, r, frame);
    AcceptIff(h.session, frame, i.live.at);
    var a := Accept(h.session, frame, i.live.at);
    GracedTwice(r.session, Tick(p, i), i.live.at);
    ActIs(h, h.(session := a.session), a.outcome, i.live);
  }

  lemma GracedTwice(s: Session, now: Reading, at: Reading)
    ensures Graced(Graced(Graced(s, now), at), at) == Graced(Graced(s, now), at)
  {
  }

  lemma ActIs(h: Probe, q: Probe, outcome: Outcome, l: LiveInput)
    requires q == h.(session := q.session) && (outcome.Nothing? || outcome.Deliver?) && !h.stop
    ensures match Act(q, outcome, l)
            case Go(x) =>
              && x.session == q.session && x.socket == q.socket && x.job == q.job && x.handover == q.handover && WorkerReady(h, q.session, l, x)
              && x.router == Observe(if outcome.Deliver? then Dispatch(q.router, outcome.delivery, l.at.utc, l.submission, l.dispatchWrites) else q.router,
                                     q.session, l.at, l.observeWrites)
            case Fatal(x, code) => code == NoUsableSubscriptions && h.worker == None && !l.stopAtWorker && h.specs <= x.session.failed && x.session == q.session
                                   && x.router == q.router
  {
    hide StartWorker, Acted, WorkerReady;
    FirstWorkerIs(h, q, l);
    var s := if q.worker == None then StartWorker(q, l.stopAtWorker) else Go(q);
    ActThenActed(q, outcome, l);
    if s.Go? {
      ActedIs(s.p, outcome, l);
      ReadyFrame(h, q.session, l, s.p, Acted(s.p, outcome, l).p);
    }
  }

  lemma ActThenActed(q: Probe, outcome: Outcome, l: LiveInput)
    ensures var s := if q.worker == None then StartWorker(q, l.stopAtWorker) else Go(q);
            Act(q, outcome, l) == if s.Go? then Acted(s.p, outcome, l) else s
  {
    hide StartWorker, RequestHandover, Look, Dispatch;
  }

  lemma ReadyFrame(h: Probe, t: Session, l: LiveInput, q: Probe, x: Probe)
    requires WorkerReady(h, t, l, q) && x.worker == q.worker && x.requests == q.requests && x.stop == q.stop
    ensures WorkerReady(h, t, l, x)
  {
  }

  lemma ActedIs(q: Probe, outcome: Outcome, l: LiveInput)
    requires outcome.Nothing? || outcome.Deliver?
    ensures var told := if outcome.Deliver? then Dispatch(q.router, outcome.delivery, l.at.utc, l.submission, l.dispatchWrites) else q.router;
            Acted(q, outcome, l) == Go(q.(router := Observe(told, q.session, l.at, l.observeWrites)))
  {
    hide Observe, Dispatch;
  }

  lemma FirstWorkerIs(h: Probe, q: Probe, l: LiveInput)
    requires q == h.(session := q.session) && !h.stop
    ensures match (if q.worker == None then StartWorker(q, l.stopAtWorker) else Go(q))
            case Go(x) => x == q.(worker := x.worker, requests := x.requests, stop := x.stop, overlapped := x.overlapped) && WorkerReady(h, q.session, l, x)
            case Fatal(x, code) => code == NoUsableSubscriptions && h.worker == None && !l.stopAtWorker && h.specs <= x.session.failed && x.session == q.session
                                   && x.router == q.router
  {
    if q.worker == None && !l.stopAtWorker && q.specs - q.session.failed == {} {
      forall x | x in q.specs ensures x in q.session.failed { assert x !in q.specs - q.session.failed; }
    }
  }

  /** A notification that fits a live session is dispatched exactly once, as submitted, to the
      sink of its source. */
  lemma NotificationIsDispatched(p: Probe, i: StepInput, r: Probe, e: Envelope, message: int)
    requires Inv(p) && Readied(p, i) == Go(r) && Attended(r, Tick(p, i), i.live) && i.live.receipt == Received(Notification(e, message))
    requires r.worker.Some? && Fits(r.session, e) && e.enabled
    ensures var seen, l, d := Seen(r, Tick(p, i), i.live), i.live, Delivery(false, e.source, message);
            var told := Dispatch(seen, d, l.at.utc, l.submission, l.dispatchWrites);
            && Step(p, i).Go?
            && Step(p, i).p.router == Observe(told, Step(p, i).p.session, l.at, l.observeWrites)
            && Step(p, i).p.router.calls == r.router.calls + [d]
            && (!seen.storageFailed && e.source in seen.sinks ==>
                  e.source in told.sinks && told.sinks[e.source] == Apply(seen.sinks[e.source], Submit(l.submission), l.at.utc, l.dispatchWrites.For(e.source)).sink
                  && (forall s :: s in seen.sinks && s != e.source ==> s in told.sinks && told.sinks[s] == seen.sinks[s]))
  {
    hide Core, Shape, Readied, Step, Observe, Attended, Took, Dispatch, Apply;
    StepIs(p, i);
    var seen, l, d := Seen(r, Tick(p, i), i.live), i.live, Delivery(false, e.source, message);
    GoodFrame(p, i, r, Notification(e, message));
    SeenCalls(r, Tick(p, i), l);
    ObserveCalls(Dispatch(seen, d, l.at.utc, l.submission, l.dispatchWrites), Step(p, i).p.session, l.at, l.observeWrites);
    DispatchCalls(seen, d, l.at.utc, l.submission, l.dispatchWrites);
    SeenRuns(r, Tick(p, i), l);
    if !seen.storageFailed && e.source in seen.sinks { DeliveryReachesItsSink(seen, d, l.at.utc, l.submission, l.dispatchWrites); }
  }

  lemma SeenRuns(r: Probe, now: Reading, l: LiveInput)
    requires Inv(r)
    ensures !Seen(r, now, l).stopped
  {
    hide Graced, NewlyReady, AnyReady;
  }

  lemma ObserveCalls(r: Router, session: Session, now: Reading, w: Writes)
    ensures Observe(r, session, now, w).calls == r.calls
  {
    hide NewlyReady, AnyReady, ApplyTo, AnyFails;
  }

  lemma SeenCalls(r: Probe, now: Reading, l: LiveInput)
    ensures Seen(r, now, l).calls == r.router.calls
  {
    hide Observe;
    ObserveCalls(r.router, Graced(r.session, now), now, l.writes);
  }

  lemma DispatchCalls(r: Router, d: Delivery, at: int, submission: Submission, w: Writes)
    ensures Dispatch(r, d, at, submission, w).calls == r.calls + [d]
  {
    hide ApplyTo, AnyFails;
  }

  // ----- a reconnect request -----

  /** A directed reconnect with the setup worker there: repeated, it changes nothing; for
      another place, or before the setup is complete, the session is lost; otherwise a handover
      to that place begins, unless stop is seen. */
  lemma ReconnectRequested(p: Probe, i: StepInput, r: Probe, id: string, url: string)
    requires Inv(p) && Readied(p, i) == Go(r) && Attended(r, Tick(p, i), i.live) && i.live.receipt == Received(Reconnect(id, url))
    requires r.session.sessionId == Some(id) && r.worker.Some?
    ensures var l, s, h := i.live, Step(p, i), Holding(r, Tick(p, i), i.live);
            if r.job.Some? && url == r.job.value.url then s.Go? && StillPending(r, s.p)
            else if r.job.Some? || !l.setupComplete then LostTo(h, Seen(r, Tick(p, i), l), NetworkError, l.loss, s)
            else if l.stopAtJob then s.Go? && s.p.stop && s.p.job == None && s.p.socket
            else if !ClockAllows(h, l.jobAt) then s.Fatal? && s.code == ClockIsUncertain
            else s.Go? && s.p.job == Some(Job(url, false)) && s.p.handover && s.p.jobStarted == l.jobAt && s.p.socket && s.p.worker == r.worker
  {
    hide Core, Shape, Readied, Step, Observe, Attended, Holding, Dead, Acceptable, Accept, Act, Lose, Graced, Took, ClockAllows, LostTo;
    var l, h, frame := i.live, Holding(r, Tick(p, i), i.live), Reconnect(id, url);
    TakesFrame(p, i, r, frame);
    NamedSession(r.session, Tick(p, i), l.at, id, url);
    AcceptIff(h.session, frame, l.at);
    var a := Accept(h.session, frame, l.at);
    GracedTwice(r.session, Tick(p, i), l.at);
    TookNothing(h.session, frame, l.at, a.session);
    AcceptedFrame(h, frame, l.at);
    RequestIs(h, h.(session := a.session), url, l);
    RequestFrame(h, h.(session := a.session), l);
  }

  lemma NamedSession(s: Session, now: Reading, at: Reading, id: string, url: string)
    requires s.sessionId == Some(id)
    ensures Acceptable(Graced(Graced(s, now), at), Reconnect(id, url))
  {
  }

  lemma TookNothing(s: Session, frame: Frame, at: Reading, t: Session)
    requires frame.Reconnect? && Took(Graced(s, at), frame, at, t)
    ensures t.serial == s.serial
  {
  }

  /** The session taken from a frame changes nothing a loss or a new job reads. */
  lemma RequestFrame(h: Probe, q: Probe, l: LiveInput)
    requires q == h.(session := q.session) && q.session.serial == h.session.serial
    ensures ClockAllows(q, l.jobAt) == ClockAllows(h, l.jobAt)
    ensures forall s :: LostTo(q, q.router, NetworkError, l.loss, s) ==> LostTo(h, q.router, NetworkError, l.loss, s)
  {
    hide TransportLost, Down;
    forall s | LostTo(q, q.router, NetworkError, l.loss, s) ensures LostTo(h, q.router, NetworkError, l.loss, s) {
      LostFrame(h, q, NetworkError, l.loss, s);
    }
  }

  lemma RequestIs(h: Probe, q: Probe, url: string, l: LiveInput)
    requires q == h.(session := q.session) && q.worker.Some? && Core(q) && !q.stop && q.socket
    ensures var s := Act(q, ReconnectRequest(url), l);
            if q.job.Some? && url == q.job.value.url then s.Go? && StillPending(q, s.p)
            else if q.job.Some? || !l.setupComplete then LostTo(q, q.router, NetworkError, l.loss, s)
            else if l.stopAtJob then s.Go? && s.p.stop && s.p.job == None && s.p.socket
            else if !ClockAllows(q, l.jobAt) then s.Fatal? && s.code == ClockIsUncertain
            else s.Go? && s.p.job == Some(Job(url, false)) && s.p.handover && s.p.jobStarted == l.jobAt && s.p.socket && s.p.worker == q.worker
  {
    hide Core, Lose, Look, StartJob, LostTo, ClockAllows;
    var r := RequestHandover(q, url, l.setupComplete, l.stopAtJob, l.jobAt, l.loss);
    LookFrame(r.p, l.at, l.observeWrites);
    if q.job.Some? && url == q.job.value.url {
    } else if q.job.Some? || !l.setupComplete {
      LoseLoses(q, HandoverConflict, l.loss);
      LoseLoses(q, HandoverDuringSetup, l.loss);
      if r.Go? { LostThenSeen(q, q.router, l, r.p); }
    } else {
      JobIs(q, url, true, l.stopAtJob, l.jobAt);
    }
  }

  /** A lost session shown to the router changes nothing. */
  lemma LostThenSeen(q: Probe, r: Router, l: LiveInput, x: Probe)
    requires LostTo(q, r, NetworkError, l.loss, Go(x))
    ensures Look(x, l.at, l.observeWrites) == x
  {
    hide Observe, TransportLost;
    assert !AnyReady(x.router, x.session);
    ObserveNothing(x.router, x.session, l.at, l.observeWrites);
  }

  lemma JobIs(q: Probe, url: string, handover: bool, stop: bool, at: Reading)
    ensures var s := StartJob(q, url, handover, stop, at);
            if q.stop || stop then s == Go(SawStop(q, stop))
            else if !ClockAllows(q, at) then s.Fatal? && s.code == ClockIsUncertain
            else s == Go(q.(previous := Some(at), clock := at.utc, monotone := s.p.monotone, jobStarted := at, handover := handover,
                            job := Some(Job(url, !handover)), overlapped := q.overlapped || q.job.Some?))
  {
    hide Sample, ClockAllows;
    SampleIff(SawStop(q, stop), at);
    StoppedClock(q, stop, at);
  }

  lemma StoppedClock(q: Probe, stop: bool, at: Reading)
    ensures ClockAllows(SawStop(q, stop), at) == ClockAllows(q, at)
  {
  }

  // ----- without a socket -----

  /** After a loss: the cold reconnect begins exactly at the first tick at or after the retry
      time that sees no stop, and nothing else changes until then. */
  lemma ReconnectsIff(p: Probe, i: StepInput, t: int)
    requires Inv(p) && !p.socket && p.job == None && p.retryAt == Some(t)
    ensures var s := Step(p, i);
            s.Go? ==>
              && (s.p.job == Some(Job(p.url, true)) <==> i.now.tick >= t && !p.stop && !i.stopAtReconnect && !i.stopAtJob)
              && (s.p.job != Some(Job(p.url, true)) ==> s.p.job == None)
              && s.p.retryAt == Some(t) && !s.p.socket && s.p.router == p.router && s.p.session.serial == p.session.serial
    ensures p.worker == None ==>
              (Step(p, i).Go? <==> (i.now.tick >= t && !p.stop && !i.stopAtReconnect && !i.stopAtJob ==> ClockAllows(p, i.jobAt)))
  {
    hide Core, Shape, Step, Notices, Reconnecting, ClockAllows, Live;
    StepIs(p, i);
    NoticesFrameDown(p, i);
    var q := Notices(SeeNow(p, i.now), i.notices, false);
    if q.Go? {
      ColdJobIff(q.p, i.now, i);
      ReconnectingFrame(q.p, i.now, i);
      if p.worker == None { SeenClock(p, i.now, q.p, i.jobAt); }
    }
  }

  /** The same for the part of the tick without a socket. */
  lemma ColdJobIff(p: Probe, now: Reading, i: StepInput)
    ensures var s := Reconnecting(p, now, i);
            p.job == None && s.Go? ==>
              && p.retryAt.Some? && s.p.retryAt == p.retryAt && (s.p.job.Some? ==> s.p.job == Some(Job(p.url, true)))
              && (s.p.job.Some? <==> now.tick >= p.retryAt.value && !p.stop && !i.stopAtReconnect && !i.stopAtJob)
    ensures p.job == None && p.retryAt.Some? ==>
              (Reconnecting(p, now, i).Go? <==> (now.tick >= p.retryAt.value && !p.stop && !i.stopAtReconnect && !i.stopAtJob ==> ClockAllows(p, i.jobAt)))
  {
    hide StartJob, InOrder;
    var x := SawStop(p, i.stopAtReconnect);
    JobIs(x, x.url, false, i.stopAtJob, i.jobAt);
  }

  lemma SeenClock(p: Probe, now: Reading, x: Probe, at: Reading)
    requires x == SeeNow(p, now).(stop := x.stop)
    ensures ClockAllows(x, at) == ClockAllows(p, at)
  {
  }

  lemma NoticesFrameDown(p: Probe, i: StepInput)
    requires Inv(p) && p.job == None
    ensures var q := Notices(SeeNow(p, i.now), i.notices, false);
            && q.p == SeeNow(p, i.now).(session := q.p.session, worker := q.p.worker) && q.p.session.serial == p.session.serial
            && (p.worker == None ==> q == Go(SeeNow(p, i.now)))
            && Readied(p, i) == q
  {
    hide Core, Notices;
    var seen := SeeNow(p, i.now);
    CoreFrame(p, seen);
    NoticesKeep(seen, i.notices, false);
  }

  // ----- a pending job -----

  /** A connection job that has not finished: a handover is given up once twenty-five seconds
      have passed on either clock; anything else waits. */
  lemma PendingJob(p: Probe, i: StepInput)
    requires Inv(p) && p.job.Some? && !i.jobDone && Notices(SeeNow(p, i.now), i.notices, false).Go?
    ensures var q := Notices(SeeNow(p, i.now), i.notices, false).p;
            var overdue := i.now.tick - p.jobStarted.tick >= 25_000_000 || i.now.utc - p.jobStarted.utc >= 25_000_000;
            if p.handover && overdue then LostTo(q, p.router, NetworkError, i.loss, Readied(p, i))
            else Readied(p, i) == Go(q)
  {
    hide Core, Notices, Lose, LostTo;
    var seen := SeeNow(p, i.now);
    CoreFrame(p, seen);
    NoticesKeep(seen, i.notices, false);
    var q := Notices(seen, i.notices, false).p;
    LoseLoses(q, HandoverTimedOut, i.loss);
  }

  /** A clock gap loses whatever is connected or under way; with nothing to lose it only
      forgets the previous reading. */
  lemma ClockGapLoses(p: Probe, loss: LossInput)
    requires Inv(p)
    ensures var s := ForceGap(p, loss);
            if p.socket || p.job.Some? || p.worker.Some? then LostTo(p, p.router, NetworkError, loss, s) else s == Go(p.(previous := None))
  {
    hide Core, Shape, Lose, LostTo;
    var q := p.(previous := None);
    CoreFrame(p, q);
    LoseLoses(q, NetworkLost, loss);
    LostFrame(p, q, NetworkError, loss, Lose(q, NetworkLost, loss));
  }

  // ----- worker results -----

  /** The first notice about a source decides. */
  function FirstFor(ns: seq<Notice>, x: Source): Option<Notice> {
    if ns == [] then None else if ns[0].source == Some(x) then Some(ns[0]) else FirstFor(ns[1..], x)
  }

  predicate Benign(n: Notice, specs: set<Source>) {
    n.source.Some? && !n.fatal && n.source.value in specs && (n.error.Some? || n.subscriptionId != "")
  }

  /** What the results do to one source: the first result of a source still pending fails it, or
      confirms it unless it failed before or the success is discarded. */
  ghost predicate ResultTaken(p: Probe, q: Probe, ns: seq<Notice>, discard: bool, x: Source)
    requires p.worker.Some? && q.worker.Some?
  {
    var first := FirstFor(ns, x);
    var due := x in p.worker.value.pending && first.Some?;
    && (x in q.worker.value.pending <==> x in p.worker.value.pending && first == None)
    && (x in q.session.failed <==> x in p.session.failed || (due && first.value.error.Some?))
    && (x in q.session.ids <==> x in p.session.ids || (due && first.value.error == None && !discard && x !in p.session.failed))
    && (x in q.session.ids ==> q.session.ids[x] == if due && first.value.error == None && !discard && x !in p.session.failed
                                                   then first.value.subscriptionId else (if x in p.session.ids then p.session.ids[x] else ""))
  }

  lemma OneResult(p: Probe, n: Notice, discard: bool, x: Source)
    requires p.worker.Some? && TakeNotice(p, n, discard).Go?
    ensures var q := TakeNotice(p, n, discard).p; q.worker.Some? && ResultTaken(p, q, [n], discard, x)
  {
    hide SetupResult, FirstFor, TakeNotice;
    FirstOf(n, x);
    NoticeIs(p, n, discard);
    if SetupResult(p.session, n).error == None { SettledSession(p.session, n, x); }
  }

  lemma NoticeIs(p: Probe, n: Notice, discard: bool)
    requires p.worker.Some? && TakeNotice(p, n, discard).Go?
    ensures var q, w, c := TakeNotice(p, n, discard).p, p.worker.value, SetupResult(p.session, n);
            var applied := Posts(w, n) && (n.error.Some? || !discard);
            && q.worker == Some(if Posts(w, n) then Reported(w, n) else w)
            && q.session == (if applied then c.session else p.session) && (applied ==> c.error == None)
  {
    hide SetupResult, Settle, Posts, Reported;
    SettleIs(p.(worker := Some(Reported(p.worker.value, n))), n);
  }

  lemma SettleIs(p: Probe, n: Notice)
    ensures Settle(p, n).Go? ==> Settle(p, n).p == p.(session := SetupResult(p.session, n).session) && SetupResult(p.session, n).error == None
  {
    hide SetupResult;
  }

  lemma SettledSession(s: Session, n: Notice, x: Source)
    requires SetupResult(s, n).error == None
    ensures var t, mine := SetupResult(s, n).session, n.source == Some(x);
            && n.source.Some?
            && (x in t.failed <==> x in s.failed || (mine && n.error.Some?))
            && (x in t.ids <==> x in s.ids || (mine && n.error == None && x !in s.failed))
            && (x in t.ids ==> t.ids[x] == if mine && n.error == None && x !in s.failed then n.subscriptionId else (if x in s.ids then s.ids[x] else ""))
  {
  }

  lemma FirstOf(n: Notice, x: Source)
    ensures FirstFor([n], x) == if n.source == Some(x) then Some(n) else None
  {
    assert [n][1..] == [] && FirstFor([], x) == None;
  }

  lemma {:induction false} ResultsTaken(p: Probe, ns: seq<Notice>, discard: bool, x: Source)
    requires p.worker.Some? && Notices(p, ns, discard).Go?
    ensures var q := Notices(p, ns, discard).p; q.worker.Some? && ResultTaken(p, q, ns, discard, x)
    decreases |ns|
  {
    if ns != [] {
      hide TakeNotice, ResultTaken;
      OneResult(p, ns[0], discard, x);
      var q := TakeNotice(p, ns[0], discard).p;
      ResultsTaken(q, ns[1..], discard, x);
      ResultsJoin(p, q, Notices(q, ns[1..], discard).p, ns, discard, x);
    }
  }

  lemma ResultsJoin(p: Probe, q: Probe, r: Probe, ns: seq<Notice>, discard: bool, x: Source)
    requires ns != [] && p.worker.Some? && q.worker.Some? && r.worker.Some?
    requires ResultTaken(p, q, [ns[0]], discard, x) && ResultTaken(q, r, ns[1..], discard, x)
    ensures ResultTaken(p, r, ns, discard, x)
  {
    FirstOf(ns[0], x);
    assert FirstFor(ns, x) == if ns[0].source == Some(x) then Some(ns[0]) else FirstFor(ns[1..], x);
    hide FirstFor;
  }

  /** Results without a terminal error never end the run. */
  lemma {:induction false} BenignResults(p: Probe, ns: seq<Notice>, discard: bool)
    requires forall n <- ns :: Benign(n, p.session.specs)
    ensures Notices(p, ns, discard).Go?
    decreases |ns|
  {
    if ns != [] && p.worker.Some? {
      hide TakeNotice;
      BenignResult(p, ns[0], discard);
      BenignResults(TakeNotice(p, ns[0], discard).p, ns[1..], discard);
    }
  }

  lemma BenignResult(p: Probe, n: Notice, discard: bool)
    requires p.worker.Some? && Benign(n, p.session.specs)
    ensures TakeNotice(p, n, discard).Go? && TakeNotice(p, n, discard).p.session.specs == p.session.specs
  {
    hide Settle, Reported, Posts;
    BenignSettles(p.(worker := Some(Reported(p.worker.value, n))), n);
  }

  lemma BenignSettles(p: Probe, n: Notice)
    requires Benign(n, p.session.specs)
    ensures Settle(p, n).Go? && Settle(p, n).p.session.specs == p.session.specs
  {
    hide SetupResult;
    BenignSetup(p.session, n);
  }

  lemma BenignSetup(s: Session, n: Notice)
    requires Benign(n, s.specs)
    ensures SetupResult(s, n).error == None && SetupResult(s, n).session.specs == s.specs
  {
  }

  /** A terminal error of the worker ends the run, whatever came before it. */
  lemma {:induction false} TerminalResult(p: Probe, ns: seq<Notice>, discard: bool, k: nat)
    requires p.worker.Some? && k < |ns| && ns[k].source == None && ns[k].error.Some?
    ensures Notices(p, ns, discard).Fatal?
    ensures (forall j :: 0 <= j < k ==> Benign(ns[j], p.session.specs)) ==>
              Notices(p, ns, discard).code == if ns[k].error == Some(InternalError) then InternalFailure else AuthorizationFailed
    decreases k
  {
    hide TakeNotice, Benign;
    if k == 0 {
      TerminalNotice(p, ns[0], discard);
    } else if TakeNotice(p, ns[0], discard).Go? {
      NoticeSpecs(p, ns[0], discard);
      assert forall j :: 0 <= j < k - 1 ==> ns[1..][j] == ns[j + 1];
      TerminalResult(TakeNotice(p, ns[0], discard).p, ns[1..], discard, k - 1);
    } else if Benign(ns[0], p.session.specs) {
      BenignResult(p, ns[0], discard);
    }
  }

  lemma TerminalNotice(p: Probe, n: Notice, discard: bool)
    requires p.worker.Some? && n.source == None && n.error.Some?
    ensures var s := TakeNotice(p, n, discard); s.Fatal? && s.code == if n.error == Some(InternalError) then InternalFailure else AuthorizationFailed
  {
  }

  lemma NoticeSpecs(p: Probe, n: Notice, discard: bool)
    requires p.worker.Some? && TakeNotice(p, n, discard).Go?
    ensures TakeNotice(p, n, discard).p.worker.Some? && TakeNotice(p, n, discard).p.session.specs == p.session.specs
  {
    hide SetupResult, Settle, Posts, Reported;
    NoticeIs(p, n, discard);
    SetupSpecs(p.session, n);
  }

  lemma SetupSpecs(s: Session, n: Notice)
    ensures SetupResult(s, n).session.specs == s.specs
  {
  }

  /** A loss still takes the worker's late errors, and none of its late successes; a job in
      flight that failed for good, or a terminal error of the worker, ends the run with it. */
  lemma LossTakesResults(p: Probe, code: Code, loss: LossInput, x: Source)
    ensures var s := Lose(p, code, loss);
            && (s.Go? ==> s.p.session.ids == map[])
            && (s.Go? && p.worker == None ==> s.p.session.failed == p.session.failed)
            && (s.Go? && p.worker.Some? ==>
                  (x in s.p.session.failed <==>
                     x in p.session.failed || (x in p.worker.value.pending && FirstFor(loss.notices, x).Some? && FirstFor(loss.notices, x).value.error.Some?)))
            && (p.job.Some? && loss.jobError == Some(JobUnauthorized) && ClockAllows(p, loss.lostAt) ==> s.Fatal? && s.code == AuthorizationFailed)
            && (p.job.Some? && loss.jobError == Some(JobBroken) && ClockAllows(p, loss.lostAt) ==> s.Fatal? && s.code == InternalFailure)
  {
    hide Sample, TransportLost, Notices, ScheduleRetry, ClockAllows, FirstFor;
    SampleIff(Silenced(p), loss.lostAt);
    SilencedClock(p, loss.lostAt);
    var s := Sample(Silenced(p), loss.lostAt);
    if s.Go? { LateResults(Disconnect(s.p, code, loss.lostAt, loss.writes), loss, x); }
  }

  lemma SilencedClock(p: Probe, at: Reading)
    ensures ClockAllows(Silenced(p), at) == ClockAllows(p, at)
  {
  }

  lemma LateResults(p: Probe, loss: LossInput, x: Source)
    requires p.session.ids == map[]
    ensures var s := WindDown(p, loss);
            && (s.Go? ==> s.p.session.ids == map[])
            && (s.Go? && p.worker == None ==> s.p.session.failed == p.session.failed)
            && (s.Go? && p.worker.Some? ==>
                  (x in s.p.session.failed <==>
                     x in p.session.failed || (x in p.worker.value.pending && FirstFor(loss.notices, x).Some? && FirstFor(loss.notices, x).value.error.Some?)))
  {
    hide Notices, ScheduleRetry, ResultTaken;
    var c := p.(job := None, handover := false);
    var q := Notices(c, loss.notices, true);
    if q.Go? {
      RetrySession(q.p.(worker := None), loss.retryFrom);
      if p.worker.Some? {
        ResultsTaken(c, loss.notices, true, x);
        forall y ensures y !in q.p.session.ids {
          ResultsTaken(c, loss.notices, true, y);
          NotConfirmed(c, q.p, loss.notices, y);
        }
        FailedLate(c, q.p, loss.notices, x);
      } else {
        assert q == Go(c) by { NothingTaken(c, loss.notices); }
      }
    }
  }

  lemma NothingTaken(p: Probe, ns: seq<Notice>)
    requires p.worker == None
    ensures Notices(p, ns, true) == Go(p)
  {
  }

  lemma NotConfirmed(c: Probe, q: Probe, ns: seq<Notice>, y: Source)
    requires c.worker.Some? && q.worker.Some? && c.session.ids == map[] && ResultTaken(c, q, ns, true, y)
    ensures y !in q.session.ids
  {
    hide FirstFor;
  }

  lemma FailedLate(c: Probe, q: Probe, ns: seq<Notice>, x: Source)
    requires c.worker.Some? && q.worker.Some? && ResultTaken(c, q, ns, true, x)
    ensures x in q.session.failed <==>
              x in c.session.failed || (x in c.worker.value.pending && FirstFor(ns, x).Some? && FirstFor(ns, x).value.error.Some?)
  {
    hide FirstFor;
  }

  lemma RetrySession(p: Probe, from: Reading)
    ensures ScheduleRetry(p, from).p.session == p.session
  {
    hide Sample;
    SampleIff(p.(retryCount := p.retryCount + 1), from);
  }

  /** At every tick the results the setup worker posted are taken, each source's first one. */
  lemma ResultsOfTick(p: Probe, i: StepInput, x: Source)
    requires Inv(p) && p.worker.Some? && p.job == None && Readied(p, i).Go?
    ensures var r := Readied(p, i).p; r.worker.Some? && ResultTaken(p, r, i.notices, false, x)
  {
    hide Notices, ResultTaken, Shape, Core;
    NoticesFrameDown(p, i);
    var seen := SeeNow(p, i.now);
    ResultsTaken(seen, i.notices, false, x);
    SeenResult(p, i.now, Readied(p, i).p, i.notices, x);
  }

  lemma SeenResult(p: Probe, now: Reading, r: Probe, ns: seq<Notice>, x: Source)
    requires p.worker.Some? && r.worker.Some? && ResultTaken(SeeNow(p, now), r, ns, false, x)
    ensures ResultTaken(p, r, ns, false, x)
  {
  }

  // ----- every dispatched delivery -----

  /** What a tick hears: the deliveries it carries if its frame is looked at, and none else. */
  function HeardIn(r: Probe, now: Reading, l: LiveInput): seq<Delivery> {
    if r.socket && l.receipt.Received? && Attended(r, now, l) && Acceptable(Before(r, now, l), l.receipt.frame) && Meaning(l.receipt.frame).Deliver?
    then [Meaning(l.receipt.frame).delivery] else []
  }

  /** A live tick that goes on dispatches exactly what it hears, once; a fatal one nothing. */
  lemma LiveTickCalls(p: Probe, i: StepInput, r: Probe)
    requires Inv(p) && Readied(p, i) == Go(r)
    ensures var s := Step(p, i);
            s.p.router.calls == r.router.calls + (if s.Go? then HeardIn(r, Tick(p, i), i.live) else [])
  {
    hide Core, Shape, Readied, Step, Observe, Attended, Holding, Dead, Acceptable, Graced, Took, LostTo, Dispatch, Unwelcomed, ClockAllows, Noted, Ending;
    StepIs(p, i);
    if !r.socket {
      ReconnectingFrame(r, Tick(p, i), i);
      QuietReconnect(r, Tick(p, i), i);
    } else {
      SocketCalls(p, i, r);
    }
  }

  lemma SocketCalls(p: Probe, i: StepInput, r: Probe)
    requires Inv(p) && Readied(p, i) == Go(r) && r.socket
    ensures var s := Step(p, i);
            s.p.router.calls == r.router.calls + (if s.Go? then HeardIn(r, Tick(p, i), i.live) else [])
  {
    hide Core, Shape, Readied, Step, Observe, Holding, Acceptable, Graced, Took, LostTo, Dispatch, ClockAllows, Noted, Ending, Dead, Unwelcomed;
    var now, l := Tick(p, i), i.live;
    StepIs(p, i);
    SeenCalls(r, now, l);
    if Dead(r.session, now) {
      SilenceIsLost(p, i, r);
      LostCalls(r, r.router, KeepaliveTimeout, l.loss, Step(p, i));
    } else if Unwelcomed(r, now) {
      NoWelcomeIsLost(p, i, r);
      LostCalls(r, Seen(r, now, l), NetworkError, l.loss, Step(p, i));
    } else {
      match l.receipt {
        case Silence => SilentTick(p, i, r);
        case SocketError =>
          SocketErrorTick(p, i, r);
          var n :| LostTo(n, Seen(r, now, l), NetworkError, l.loss, Step(p, i));
          LostCalls(n, Seen(r, now, l), NetworkError, l.loss, Step(p, i));
        case Received(frame) =>
          if Attended(r, now, l) { AttendedCalls(p, i, r, frame); } else { UnattendedCalls(p, i, r); }
      }
    }
  }

  lemma LostCalls(p: Probe, r: Router, reason: TransportReason, loss: LossInput, s: Res)
    requires LostTo(p, r, reason, loss, s)
    ensures s.p.router.calls == r.calls && (s.Fatal? ==> Unrecoverable(s.code)) && (Bearable(p, loss) ==> s.Go?)
  {
  }

  lemma UnattendedCalls(p: Probe, i: StepInput, r: Probe)
    requires Inv(p) && Readied(p, i) == Go(r) && Attentive(r, Tick(p, i)) && i.live.receipt.Received? && !Attended(r, Tick(p, i), i.live)
    ensures Step(p, i).p.router.calls == r.router.calls
  {
    hide Core, Shape, Readied, Step, Observe, Holding, Graced, LostTo, ClockAllows, Noted, Ending, Dead, Unwelcomed, SameReading;
    var now, l := Tick(p, i), i.live;
    StepIs(p, i);
    SeenCalls(r, now, l);
    LateFrame(p, i, r);
    if ClockAllows(r, l.at) {
      if Dead(Graced(r.session, now), l.at) {
        LostCalls(Noted(r, now, l), Seen(r, now, l), KeepaliveTimeout, l.loss, Step(p, i));
      } else {
        DroppedFrame(p, i, r);
        HoldingIs(r, now, l);
        if !Ending(r, l.stop, l.at) { LostCalls(Holding(r, now, l), Seen(r, now, l), NetworkError, l.loss, Step(p, i)); }
      }
    }
  }

  lemma AttendedCalls(p: Probe, i: StepInput, r: Probe, frame: Frame)
    requires Inv(p) && Readied(p, i) == Go(r) && Attended(r, Tick(p, i), i.live) && i.live.receipt == Received(frame) && r.socket
    ensures var s := Step(p, i);
            s.p.router.calls == r.router.calls + (if s.Go? then HeardIn(r, Tick(p, i), i.live) else [])
  {
    hide Core, Shape, Readied, Step, Observe, Holding, Acceptable, Graced, Took, Dispatch, Attended, WorkerReady;
    var now, l, s := Tick(p, i), i.live, Step(p, i);
    StepIs(p, i);
    SeenCalls(r, now, l);
    if !Acceptable(Before(r, now, l), frame) {
      BadFrame(p, i, r, frame);
    } else if frame.Reconnect? {
      ReconnectCalls(p, i, r, frame);
    } else {
      GoodFrame(p, i, r, frame);
      if s.Go? {
        var told := if Meaning(frame).Deliver? then Dispatch(Seen(r, now, l), Meaning(frame).delivery, l.at.utc, l.submission, l.dispatchWrites) else Seen(r, now, l);
        ObserveCalls(told, s.p.session, l.at, l.observeWrites);
        if Meaning(frame).Deliver? { DispatchCalls(Seen(r, now, l), Meaning(frame).delivery, l.at.utc, l.submission, l.dispatchWrites); }
      }
    }
  }

  lemma ReconnectCalls(p: Probe, i: StepInput, r: Probe, frame: Frame)
    requires Inv(p) && Readied(p, i) == Go(r) && Attended(r, Tick(p, i), i.live) && i.live.receipt == Received(frame) && frame.Reconnect?
    requires Acceptable(Before(r, Tick(p, i), i.live), frame)
    ensures Step(p, i).p.router.calls == r.router.calls
  {
    hide Core, Shape, Readied, Step, Observe, Holding, Acceptable, Graced, Took, Attended, Accept, Act, Lose;
    var h := Holding(r, Tick(p, i), i.live);
    TakesFrame(p, i, r, frame);
    SeenCalls(r, Tick(p, i), i.live);
    AcceptIff(h.session, frame, i.live.at);
    GracedTwice(r.session, Tick(p, i), i.live.at);
    AcceptedFrame(h, frame, i.live.at);
    var q := h.(session := Accept(h.session, frame, i.live.at).session);
    RequestCalls(q, frame.url, i.live);
  }

  lemma RequestCalls(q: Probe, url: string, l: LiveInput)
    requires Core(q)
    ensures Act(q, ReconnectRequest(url), l).p.router.calls == q.router.calls
  {
    hide Core, StartWorker, Acted;
    ActThenActed(q, ReconnectRequest(url), l);
    if q.worker == None {
      WorkerFrame(q, l.stopAtWorker);
      var s := StartWorker(q, l.stopAtWorker);
      if s.Go? { ActedCalls(q, s.p, url, l); }
    } else {
      ActedCalls(q, q, url, l);
    }
  }

  lemma WorkerFrame(q: Probe, stop: bool)
    ensures var s := StartWorker(q, stop); s.p == q.(worker := s.p.worker, requests := s.p.requests, stop := s.p.stop, overlapped := s.p.overlapped)
  {
  }

  lemma ActedCalls(h: Probe, q: Probe, url: string, l: LiveInput)
    requires Core(h) && q == h.(worker := q.worker, requests := q.requests, stop := q.stop, overlapped := q.overlapped)
    ensures Acted(q, ReconnectRequest(url), l).p.router.calls == h.router.calls
  {
    hide Core, Look, Lose, StartJob;
    LoseCalls(h, q, HandoverConflict, l.loss);
    LoseCalls(h, q, HandoverDuringSetup, l.loss);
    JobFrame(q, url, true, l.stopAtJob, l.jobAt);
    var r := RequestHandover(q, url, l.setupComplete, l.stopAtJob, l.jobAt, l.loss);
    LookFrame(r.p, l.at, l.observeWrites);
    ObserveCalls(r.p.router, r.p.session, l.at, l.observeWrites);
  }

  /** A loss reports to the router and to nothing else, whatever else is in flight. */
  lemma LoseCalls(h: Probe, q: Probe, code: Code, loss: LossInput)
    requires q == h.(worker := q.worker, requests := q.requests, stop := q.stop, overlapped := q.overlapped)
    ensures Lose(q, code, loss).p.router.calls == h.router.calls
  {
    hide Sample, TransportLost, Notices;
    SampleIff(Silenced(q), loss.lostAt);
    var s := Sample(Silenced(q), loss.lostAt);
    if s.Go? {
      var d := Disconnect(s.p, code, loss.lostAt, loss.writes);
      LostKeepsCalls(s.p.router, LossReason(code), loss.lostAt.utc, s.p.session.serial, loss.writes);
      WindDownCalls(d, loss);
    }
  }

  lemma LostKeepsCalls(r: Router, reason: TransportReason, at: int, lost: nat, w: Writes)
    ensures TransportLost(r, reason, at, lost, w).calls == r.calls
  {
    hide ApplyTo, AnyFails;
  }

  lemma WindDownCalls(d: Probe, loss: LossInput)
    ensures WindDown(d, loss).p.router == d.router
  {
    hide Notices, Sample;
    var c := d.(job := None, handover := false);
    NoticesRouter(c, loss.notices, true);
    var q := Notices(c, loss.notices, true);
    if q.Go? { SampleIff(q.p.(worker := None, retryCount := q.p.retryCount + 1), loss.retryFrom); }
  }

  lemma {:induction false} NoticesRouter(p: Probe, ns: seq<Notice>, discard: bool)
    ensures Notices(p, ns, discard).p.router == p.router && Notices(p, ns, discard).p.retryCount == p.retryCount
    decreases |ns|
  {
    if ns != [] && p.worker.Some? {
      hide TakeNotice;
      NoticeRouter(p, ns[0], discard);
      var q := TakeNotice(p, ns[0], discard);
      if q.Go? { NoticesRouter(q.p, ns[1..], discard); }
    }
  }

  lemma NoticeRouter(p: Probe, n: Notice, discard: bool)
    requires p.worker.Some?
    ensures TakeNotice(p, n, discard).p.router == p.router && TakeNotice(p, n, discard).p.retryCount == p.retryCount
  {
    hide SetupResult;
  }

  lemma QuietReconnect(r: Probe, now: Reading, i: StepInput)
    ensures Reconnecting(r, now, i).p.router == r.router
  {
    hide StartJob;
    var q := SawStop(r, i.stopAtReconnect);
    JobFrame(q, q.url, false, i.stopAtJob, i.jobAt);
  }
}
