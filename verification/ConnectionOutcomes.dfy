/** When a connection attempt succeeds, exactly, and what it leaves behind
    (scripts/eventsub_recovery.py): the conditions are on the clock, the welcome, the frames
    still buffered on the old socket, the deadlines and the stop requests. */
module ConnectionOutcomes {
  import opened Common
  import opened EventSink
  import opened EventSub
  import opened EventRouter
  import opened Recovery
  import opened RecoveryInvariants
  import opened RecoveryRuns
  import opened RecoveryTheorems
  import opened Handover
  import opened RecoveryProgress

  // ----- the welcome -----

  predicate ReceivedInTime(p: Probe, i: CompletionInput) {
    i.result.received.Some? && var got := i.result.received.value;
    p.jobStarted.tick <= got.tick <= i.at.tick && p.jobStarted.utc <= got.utc <= i.at.utc
  }

  predicate Welcoming(f: Frame) { f.Welcome? && |f.sessionId| > 0 && 10 <= f.keepaliveSeconds <= 600 }

  /** The welcomed session is still alive at this reading. */
  predicate StillAlive(i: CompletionInput, at: Reading)
    requires i.result.received.Some? && i.result.welcome.Welcome?
  {
    !PassedBy(at, i.result.received.value, i.result.welcome.keepaliveSeconds * 1_000_000 + 2_000_000)
  }

  /** The job connected and brought back a welcome that is still good. */
  predicate Welcomed(p: Probe, i: CompletionInput) {
    i.result.error == None && ReceivedInTime(p, i) && Welcoming(i.result.welcome) && StillAlive(i, i.at)
  }

  lemma GreetIs(p: Probe, i: CompletionInput)
    requires i.result.error == None
    ensures var g := Greet(p, i);
            && (g.outcome.Rejected? <==> !Welcomed(p, i))
            && (g.outcome.Rejected? ==>
                  g.outcome.code == if !ReceivedInTime(p, i) then ClockIsUncertain else if !Welcoming(i.result.welcome) then InvalidMessage else KeepaliveTimedOut)
            && (!g.outcome.Rejected? ==>
                  && g.session == NewSession(p.nextSerial, p.specs).(sessionId := Some(i.result.welcome.sessionId),
                       timeout := i.result.welcome.keepaliveSeconds * 1_000_000, lastLiveness := i.result.received, inGrace := g.session.inGrace)
                  && (forall at :: Dead(g.session, at) <==> !StillAlive(i, at)))
  {
    hide CheckLiveness, PassedBy;
    if ReceivedInTime(p, i) {
      var blank := NewSession(p.nextSerial, p.specs);
      FreshAccept(blank, i.result.welcome, i.result.received.value);
      var a := Accept(blank, i.result.welcome, i.result.received.value);
      TimeoutIff(a.session, i.at);
    }
  }

  lemma FreshAccept(s: Session, f: Frame, at: Reading)
    requires s.sessionId == None && s.lastLiveness == None
    ensures Accept(s, f, at) == if Welcoming(f) then Accepted(s.(sessionId := Some(f.sessionId), timeout := f.keepaliveSeconds * 1_000_000, lastLiveness := Some(at)), Nothing)
                                else Accepted(s, Rejected(InvalidMessage))
  {
  }

  // ----- draining the old socket -----

  /** How many of the buffered frames the old session takes: each read in order of the clock,
      acceptable to a session not yet dead, asking for no other place; 256 at most. */
  function Taken(s: Session, external: bool, previous: Option<Reading>, url: string, items: seq<DrainItem>, k: nat): (n: nat)
    ensures n <= |items|
    decreases |items|
  {
    if items == [] || k == 256 || !Takes(s, external, previous, url, items[0]) then 0
    else 1 + Taken(Accept(s, items[0].frame, items[0].at).session, external, Some(items[0].at), url, items[1..], k + 1)
  }

  predicate Takes(s: Session, external: bool, previous: Option<Reading>, url: string, x: DrainItem) {
    && InOrder(external, previous, x.at) && !Dead(s, x.at) && Acceptable(s, x.frame)
    && (x.frame.Reconnect? ==> x.frame.url == url)
  }

  /** The router told of every delivery among the frames, in order. */
  function Routed(r: Router, items: seq<DrainItem>): Router
    decreases |items|
  {
    if items == [] then r else Routed(Told(r, items[0]), items[1..])
  }

  function Told(r: Router, x: DrainItem): Router {
    if Meaning(x.frame).Deliver? then Dispatch(r, Meaning(x.frame).delivery, x.at.utc, x.submission, x.writes) else r
  }

  lemma {:induction false} RoutedCalls(r: Router, items: seq<DrainItem>)
    ensures Routed(r, items).calls == r.calls + FrameDeliveries(items)
    decreases |items|
  {
    if items != [] {
      hide Dispatch;
      var x := items[0];
      if Meaning(x.frame).Deliver? { DispatchCalls(r, Meaning(x.frame).delivery, x.at.utc, x.submission, x.writes); }
      RoutedCalls(Told(r, x), items[1..]);
    }
  }

  function LastRead(previous: Option<Reading>, items: seq<DrainItem>): Option<Reading> {
    if items == [] then previous else Some(items[|items| - 1].at)
  }

  /** What draining leaves alone. */
  predicate SameOwner(p: Probe, q: Probe) {
    && q.specs == p.specs && q.duration == p.duration && q.externalClock == p.externalClock && q.handover == p.handover
    && q.started == p.started && q.stop == p.stop && q.retryCount == p.retryCount && q.session.serial == p.session.serial
    && q.nextSerial == p.nextSerial && q.jobStarted == p.jobStarted && q.socket == p.socket && q.job == p.job && q.worker == p.worker
  }

  /** The drain dispatches exactly the deliveries of the frames taken, and succeeds exactly when
      that is all of them, fewer than 256, and the socket went quiet. */
  ghost predicate DrainedTo(p: Probe, url: string, items: seq<DrainItem>, end: DrainEnd, k: nat, t: Try) {
    var n := Taken(p.session, p.externalClock, p.previous, url, items, k);
    && t.p.router == Routed(p.router, items[..n]) && SameOwner(p, t.p) && !t.Ended?
    && (t.Ok? <==> n == |items| && k + |items| < 256 && end == Quiet)
    && (t.Ok? ==> t.p.previous == LastRead(p.previous, items))
    && (t.Err? && p.externalClock ==> !Unrecoverable(t.code))
  }

  lemma {:induction false} DrainIs(p: Probe, url: string, items: seq<DrainItem>, end: DrainEnd, k: nat)
    requires k <= 256
    ensures DrainedTo(p, url, items, end, k, Drain(p, url, items, end, k))
    decreases |items|
  {
    hide Takes, SameOwner, Drain, DrainOne, Sample, Accept, Routed, Unrecoverable;
    if k == 256 || items == [] {
      DrainBare(p, url, items, end, k);
    } else {
      FirstFrame(p, url, items, end, k);
      if Takes(p.session, p.externalClock, p.previous, url, items[0]) {
        var q := DrainOne(Sample(p, items[0].at).p, items[0]);
        DrainIs(q, url, items[1..], end, k + 1);
        FrameMore(p, q, url, items, end, k, Drain(q, url, items[1..], end, k + 1));
      }
    }
  }

  lemma DrainBare(p: Probe, url: string, items: seq<DrainItem>, end: DrainEnd, k: nat)
    requires k == 256 || (items == [] && k < 256)
    ensures DrainedTo(p, url, items, end, k, Drain(p, url, items, end, k))
  {
    assert items[..0] == [];
  }

  /** The first frame is either taken, told to the router and followed by the rest, or ends the
      drain with the router as it was. */
  lemma FirstFrame(p: Probe, url: string, items: seq<DrainItem>, end: DrainEnd, k: nat)
    requires items != [] && k < 256
    ensures var x, s, t := items[0], Sample(p, items[0].at).p, Drain(p, url, items, end, k);
            var q := DrainOne(s, x);
            if Takes(p.session, p.externalClock, p.previous, url, x) then
              && t == Drain(q, url, items[1..], end, k + 1) && SameOwner(p, q) && q.previous == Some(x.at)
              && q.session == Accept(p.session, x.frame, x.at).session && q.router == Routed(p.router, [x])
            else DrainedTo(p, url, items, end, k, t)
  {
    hide Sample, Drain, DrainOne, Accept, Dispatch, SameOwner, Takes, Told;
    var x := items[0];
    var s := Sample(p, x.at);
    FrameTold(p, url, x);
    FrameOwner(p, x);
    DrainUnrolls(p, url, items, end, k);
    assert [x][1..] == [] && items[..0] == [];
    assert Routed(p.router, [x]) == Told(p.router, x);
    assert Routed(p.router, items[..0]) == p.router;
  }

  /** One step of the recv loop. */
  lemma DrainUnrolls(p: Probe, url: string, items: seq<DrainItem>, end: DrainEnd, k: nat)
    requires items != [] && k < 256
    ensures var x, s, t := items[0], Sample(p, items[0].at), Drain(p, url, items, end, k);
            var a, q := Accept(s.p.session, x.frame, x.at), DrainOne(s.p, x);
            t == if s.Fatal? then Err(s.p, s.code)
                 else if a.outcome.Rejected? then Err(q, a.outcome.code)
                 else if a.outcome.ReconnectRequest? && a.outcome.url != url then Err(q, HandoverConflict)
                 else Drain(q, url, items[1..], end, k + 1)
  {
    hide Sample, Accept, DrainOne;
  }

  /** A frame is taken exactly when the clock, the session and the place it names allow it. */
  lemma FrameTold(p: Probe, url: string, x: DrainItem)
    ensures var s := Sample(p, x.at);
            var a, q := Accept(p.session, x.frame, x.at), DrainOne(s.p, x);
            && s.p.session == p.session && (s.Fatal? ==> s.code == ClockIsUncertain && !p.externalClock)
            && s.p.router == p.router && SameOwner(p, s.p)
            && (Takes(p.session, p.externalClock, p.previous, url, x) <==>
                  s.Go? && !a.outcome.Rejected? && !(a.outcome.ReconnectRequest? && a.outcome.url != url))
            && (a.outcome.Rejected? ==> a.outcome.code == KeepaliveTimedOut || a.outcome.code == InvalidMessage)
            && q.router == (if a.outcome.Rejected? then p.router else Told(p.router, x))
            && (a.outcome.ReconnectRequest? ==> q.router == p.router)
            && q.session == a.session && (s.Go? ==> q.previous == Some(x.at))
  {
    hide Sample, Accept, Dispatch, Dead, Acceptable, InOrder, DrainOne, Told;
    SampleIff(p, x.at);
    AcceptTold(p.session, x);
    DrainOneTold(Sample(p, x.at).p, x);
  }

  lemma AcceptTold(s: Session, x: DrainItem)
    ensures var a := Accept(s, x.frame, x.at);
            && (a.outcome.Rejected? <==> Dead(s, x.at) || !Acceptable(s, x.frame))
            && (a.outcome.Rejected? ==> a.outcome.code == KeepaliveTimedOut || a.outcome.code == InvalidMessage)
            && (!a.outcome.Rejected? ==> a.outcome == Meaning(x.frame))
  {
    hide Accept, Dead, Acceptable, Graced, Took;
    AcceptIff(s, x.frame, x.at);
  }

  lemma DrainOneTold(p: Probe, x: DrainItem)
    ensures var q, a := DrainOne(p, x), Accept(p.session, x.frame, x.at);
            && q.router == (if a.outcome.Rejected? then p.router else Told(p.router, x)) && (a.outcome.ReconnectRequest? ==> q.router == p.router)
            && q.session == a.session && q.previous == p.previous
  {
    hide Accept, Dispatch, Dead, Acceptable, Meaning, DrainOne;
    AcceptTold(p.session, x);
    DrainOneIs(p, x);
  }

  lemma FrameOwner(p: Probe, x: DrainItem)
    ensures SameOwner(p, DrainOne(Sample(p, x.at).p, x))
  {
    hide Sample, Accept, DrainOne;
    var s := Sample(p, x.at).p;
    SampleKeeps(p, x.at);
    AcceptSerial(p.session, x);
    DrainOneIs(s, x);
  }

  lemma DrainOneIs(p: Probe, x: DrainItem)
    ensures var a := Accept(p.session, x.frame, x.at);
            var told := if a.outcome.Deliver? then Dispatch(p.router, a.outcome.delivery, x.at.utc, x.submission, x.writes) else p.router;
            DrainOne(p, x) == p.(session := a.session, router := told)
  {
    hide Accept, Dispatch;
  }

  lemma FrameMore(p: Probe, q: Probe, url: string, items: seq<DrainItem>, end: DrainEnd, k: nat, t: Try)
    requires items != [] && k < 256 && Takes(p.session, p.externalClock, p.previous, url, items[0])
    requires SameOwner(p, q) && q.previous == Some(items[0].at) && q.session == Accept(p.session, items[0].frame, items[0].at).session
    requires q.router == Routed(p.router, [items[0]]) && DrainedTo(q, url, items[1..], end, k + 1, t)
    ensures DrainedTo(p, url, items, end, k, t)
  {
    hide Takes, Accept, Dispatch;
    var n := Taken(q.session, q.externalClock, q.previous, url, items[1..], k + 1);
    assert items[..n + 1][1..] == items[1..][..n] && items[..n + 1][0] == items[0];
    assert [items[0]][1..] == [];
  }

  lemma AcceptSerial(s: Session, x: DrainItem)
    ensures Accept(s, x.frame, x.at).session.serial == s.serial
  {
  }

  // ----- closing the old socket -----

  /** Twenty-five seconds on either clock since the job started. */
  predicate Overdue(p: Probe, at: Reading) {
    at.tick - p.jobStarted.tick >= 25_000_000 || at.utc - p.jobStarted.utc >= 25_000_000
  }

  /** How many frames of the old socket are taken once the job is done: none unless the new
      session was welcomed and the old one is alive and the deadline ahead. */
  function Through(p: Probe, url: string, i: CompletionInput): (n: nat)
    ensures n <= |i.drain|
  {
    if !Welcomed(p, i) || Dead(p.session, i.at) || Overdue(p, i.at) then 0
    else Taken(Graced(p.session, i.at), p.externalClock, Some(i.at), url, i.drain, 0)
  }

  /** The old socket was drained to the end and closed, and the clock is still in order. */
  predicate Closes(p: Probe, url: string, i: CompletionInput) {
    && Welcomed(p, i) && !Dead(p.session, i.at) && !Overdue(p, i.at)
    && Through(p, url, i) == |i.drain| && |i.drain| < 256 && i.drainEnd == Quiet && i.closed
    && InOrder(p.externalClock, LastRead(Some(i.at), i.drain), i.afterClose)
  }

  /** Thirty seconds have not passed, and the new session is still alive. */
  predicate Prompt(p: Probe, i: CompletionInput)
    requires Welcomed(p, i)
  {
    i.afterClose.tick - p.jobStarted.tick < 30_000_000 && i.afterClose.utc - p.jobStarted.utc < 30_000_000 && StillAlive(i, i.afterClose)
  }

  ghost predicate ClosedTo(p: Probe, url: string, i: CompletionInput, t: Try)
    requires Welcomed(p, i)
  {
    && t.p.router == Routed(p.router, i.drain[..Through(p, url, i)])
    && t.p.session.serial == p.session.serial && t.p.retryCount == p.retryCount && t.p.externalClock == p.externalClock && t.p.handover == p.handover
    && (t.Ended? <==> Closes(p, url, i) && Ending(p, i.stopAfterClose, i.afterClose))
    && (t.Ok? <==> Closes(p, url, i) && !Ending(p, i.stopAfterClose, i.afterClose) && Prompt(p, i))
    && (t.Err? && p.externalClock ==> !Unrecoverable(t.code))
  }

  lemma CloseIs(p: Probe, next: Session, url: string, i: CompletionInput)
    requires !p.stop && Welcomed(p, i) && p.previous == Some(i.at)
    requires forall at :: Dead(next, at) <==> !StillAlive(i, at)
    ensures ClosedTo(p, url, i, CloseOld(p, next, url, i))
  {
    hide Drain, AfterClose, Dead, InOrder, Ending, Welcomed, StillAlive, CheckLiveness, Taken, Routed, Overdue, CloseOld, Age;
    TimeoutIff(p.session, i.at);
    OverdueIs(p, i.at);
    RoutedNone(p.router, i.drain);
    CloseUnrolls(p, next, url, i);
    if !Dead(p.session, i.at) && !Overdue(p, i.at) {
      var checked := p.(session := Graced(p.session, i.at));
      DrainIs(checked, url, i.drain, i.drainEnd, 0);
      var t := Drain(checked, url, i.drain, i.drainEnd, 0);
      assert i.drain[..|i.drain|] == i.drain;
      if t.Ok? {
        AfterCloseIs(t.p, next, i);
        EndingSame(p, t.p, i.stopAfterClose, i.afterClose);
      }
    }
  }

  lemma RoutedNone(r: Router, items: seq<DrainItem>)
    ensures Routed(r, items[..0]) == r
  {
  }

  lemma CloseUnrolls(p: Probe, next: Session, url: string, i: CompletionInput)
    ensures var c := CheckLiveness(p.session, i.at);
            var checked := p.(session := c.session);
            var t := Drain(checked, url, i.drain, i.drainEnd, 0);
            CloseOld(p, next, url, i) == if c.error.Some? then Err(checked, c.error.value)
                                         else if Age(i.at, p.jobStarted) >= HANDOVER_DEADLINE then Err(checked, HandoverTimedOut)
                                         else if !t.Ok? then t
                                         else if !i.closed then Err(t.p, CloseFailed)
                                         else AfterClose(t.p, next, p.jobStarted, i)
  {
    hide Drain, AfterClose, CheckLiveness, Age;
  }

  lemma OverdueIs(p: Probe, at: Reading)
    ensures (Age(at, p.jobStarted) >= HANDOVER_DEADLINE) == Overdue(p, at)
  {
  }

  lemma AfterCloseIs(q: Probe, next: Session, i: CompletionInput)
    requires !q.stop
    ensures var t, ordered := AfterClose(q, next, q.jobStarted, i), InOrder(q.externalClock, q.previous, i.afterClose);
            && t.p.router == q.router && t.p.session.serial == q.session.serial && t.p.retryCount == q.retryCount
            && t.p.externalClock == q.externalClock && t.p.handover == q.handover
            && (t.Ended? <==> ordered && Ending(q, i.stopAfterClose, i.afterClose))
            && (t.Ok? <==> ordered && !Ending(q, i.stopAfterClose, i.afterClose) && !Dead(next, i.afterClose)
                           && i.afterClose.tick - q.jobStarted.tick < 30_000_000 && i.afterClose.utc - q.jobStarted.utc < 30_000_000)
            && (t.Err? && q.externalClock ==> !Unrecoverable(t.code))
  {
    hide Sample, InOrder, Dead, Graced, CheckLiveness, Ending, Expired, WelcomeOverdue, Unwelcomed;
    var c := q.(socket := false);
    SampleIff(c, i.afterClose);
    var s := Sample(c, i.afterClose);
    if s.Go? {
      TimingIs(s.p, i.stopAfterClose, i.afterClose);
      EndingSame(q, s.p, i.stopAfterClose, i.afterClose);
      TimeoutIff(next, i.afterClose);
    }
  }

  lemma EndingSame(p: Probe, q: Probe, stop: bool, at: Reading)
    requires q.stop == p.stop && q.duration == p.duration && q.started == p.started
    ensures Ending(q, stop, at) == Ending(p, stop, at)
  {
  }

  // ----- a directed handover -----

  /** The handover goes through. */
  predicate HandsOver(p: Probe, url: string, i: CompletionInput) {
    && ClockAllows(p, i.at) && !Ending(p, i.stopBefore, i.at)
    && Closes(p, url, i) && !Ending(p, i.stopAfterClose, i.afterClose) && Prompt(p, i)
  }

  /** The run ends with it: stop or the duration is seen when the job is done, or once the old
      socket closed. */
  predicate EndsThere(p: Probe, url: string, i: CompletionInput) {
    && ClockAllows(p, i.at)
    && (Ending(p, i.stopBefore, i.at) || (Closes(p, url, i) && Ending(p, i.stopAfterClose, i.afterClose)))
  }

  /** The frames the old session took before the outcome. */
  function DrainedFrames(p: Probe, url: string, i: CompletionInput): seq<DrainItem> {
    if ClockAllows(p, i.at) && !Ending(p, i.stopBefore, i.at) then i.drain[..Through(p, url, i)] else []
  }

  /** Nothing in the job's result or in the loss that may follow is fatal. */
  predicate Survivable(p: Probe, i: CompletionInput) {
    && Bearable(p, i.loss) && (i.result.error == None || i.result.error == Some(JobDisconnected))
    && (i.result.error == None ==> ReceivedInTime(p, i))
  }

  /** The welcome's session is the live one, heard of when the welcome came. */
  predicate Greeted(q: Probe, i: CompletionInput)
    requires i.result.received.Some? && i.result.welcome.Welcome?
  {
    && q.socket && q.session.sessionId == Some(i.result.welcome.sessionId) && q.session.timeout == i.result.welcome.keepaliveSeconds * 1_000_000
    && q.session.lastLiveness == i.result.received && q.connected == i.result.received.value
  }

  /** The clock is out of order when the job is done, its error is one that no retry mends, or
      its welcome was not received between its start and its end. */
  predicate Doomed(p: Probe, i: CompletionInput) {
    || !ClockAllows(p, i.at)
    || (!Ending(p, i.stopBefore, i.at)
        && (i.result.error == Some(JobUnauthorized) || i.result.error == Some(JobBroken) || (i.result.error == None && !ReceivedInTime(p, i))))
  }

  ghost predicate TriedTo(p: Probe, url: string, i: CompletionInput, t: Try) {
    && t.p.router == Routed(p.router, i.drain[..Through(p, url, i)])
    && (t.Ended? <==> Closes(p, url, i) && Ending(p, i.stopAfterClose, i.afterClose))
    && (t.Ok? <==> Closes(p, url, i) && !Ending(p, i.stopAfterClose, i.afterClose) && Prompt(p, i))
    && (t.Ok? ==> Greeted(t.p, i))
    && (t.Err? ==> t.p.session.serial == p.session.serial && t.p.retryCount == p.retryCount && t.p.externalClock == p.externalClock
                   && (Survivable(p, i) ==> !Unrecoverable(t.code)))
    && (Mended(p, i) || (t.Err? && Unrecoverable(t.code)))
  }

  predicate Mended(p: Probe, i: CompletionInput) {
    i.result.error != Some(JobUnauthorized) && i.result.error != Some(JobBroken) && (i.result.error == None ==> ReceivedInTime(p, i))
  }

  lemma TryIs(p: Probe, job: Job, i: CompletionInput)
    requires p.handover && !p.stop && p.previous == Some(i.at)
    ensures TriedTo(p, job.url, i, TryConnect(p, job, i))
  {
    hide CloseOld, Greet, Ending, Welcoming, StillAlive, Routed, Prompt, Taken, Dead, Overdue, InOrder, CheckLiveness;
    RoutedNone(p.router, i.drain);
    if i.result.error == None {
      GreetIs(p, i);
      var g := Greet(p, i);
      if !g.outcome.Rejected? {
        CloseIs(p, g.session, job.url, i);
        CheckedFrame(g.session, i.afterClose);
      }
    }
  }

  lemma CheckedFrame(s: Session, at: Reading)
    ensures var c := CheckLiveness(s, at).session; c == s.(inGrace := c.inGrace)
  {
  }

  /** How a finished handover ends, exactly: it goes through, or the run ends with it, or the
      old session is lost; in each case exactly the deliveries of the frames taken were told
      to the router, in order. */
  lemma HandoverIff(p: Probe, i: CompletionInput)
    requires Inv(p) && p.job.Some? && p.handover
    ensures var s, url, told := CompleteJob(p, i), p.job.value.url, Routed(p.router, DrainedFrames(p, p.job.value.url, i));
            && (HandsOver(p, url, i) ==> s.Go? && Completed(p, s.p, i) && Greeted(s.p, i) && s.p.router == told && DrainedFrames(p, url, i) == i.drain)
            && (EndsThere(p, url, i) ==> s.Go? && RunEnding(p, s.p, i) && s.p.router == told)
            && (!HandsOver(p, url, i) && !EndsThere(p, url, i) ==>
                  && (s.Go? ==> LostTo(p, told, NetworkError, i.loss, s))
                  && (s.Fatal? ==> Unrecoverable(s.code) && s.p.router.calls == told.calls)
                  && (Survivable(p, i) ==> s.Go?))
            && (Doomed(p, i) ==> s.Fatal?)
  {
    hide Core, TryConnect, AfterTry, Completed, RunEnding, LostTo, Routed, Ending, Closes, Prompt, ClockAllows, Through, Survivable, Expired, Outcomes, ReceivedInTime;
    CompleteIsTry(p, i);
    var taken, job := p.(job := None), p.job.value;
    CoreFrame(p, taken);
    SampleIff(taken, i.at);
    SampleKeeps(taken, i.at);
    var sampled := Sample(taken, i.at);
    var seen := SawStop(sampled.p, i.stopBefore);
    SameJob(p, seen, job.url, i);
    if sampled.Fatal? {
      RoutedNothing(p.router);
      SurvivableClock(p, i);
    } else if Ending(p, i.stopBefore, i.at) {
      RoutedNothing(p.router);
      TimingIs(sampled.p, i.stopBefore, i.at);
      EarlyRunEnding(p, seen, i);
    } else {
      TimingIs(sampled.p, i.stopBefore, i.at);
      CoreFrame(sampled.p, seen);
      GoesOnTo(p, seen, job, i);
    }
  }

  lemma RoutedNothing(r: Router)
    ensures Routed(r, []) == r
  {
  }

  lemma SurvivableClock(p: Probe, i: CompletionInput)
    ensures Survivable(p, i) ==> p.externalClock && ClockAllows(p, i.at)
  {
  }

  /** The same handover: the job was taken off, and the clock and stop requests were read. */
  predicate SameHandover(p: Probe, q: Probe) {
    && q.session == p.session && q.router == p.router && q.externalClock == p.externalClock && q.jobStarted == p.jobStarted
    && q.duration == p.duration && q.started == p.started && q.retryCount == p.retryCount && q.specs == p.specs
    && q.nextSerial == p.nextSerial && q.handover == p.handover && q.worker == p.worker && q.requests == p.requests && q.socket == p.socket
  }

  lemma SameJob(p: Probe, seen: Probe, url: string, i: CompletionInput)
    requires var s := Sample(p.(job := None), i.at).p; seen == SawStop(s, i.stopBefore)
    ensures SameHandover(p, seen) && seen.stop == (p.stop || i.stopBefore) && seen.job == None
    ensures ClockAllows(p.(job := None), i.at) == ClockAllows(p, i.at)
    ensures Closes(seen, url, i) == Closes(p, url, i) && Through(seen, url, i) == Through(p, url, i) && Survivable(seen, i) == Survivable(p, i)
    ensures Mended(seen, i) == Mended(p, i)
    ensures Welcomed(p, i) ==> Welcomed(seen, i) && Prompt(seen, i) == Prompt(p, i)
    ensures Ending(Sample(p.(job := None), i.at).p, i.stopBefore, i.at) == Ending(p, i.stopBefore, i.at)
    ensures !Ending(p, i.stopBefore, i.at) ==> !seen.stop && Ending(seen, i.stopAfterClose, i.afterClose) == Ending(p, i.stopAfterClose, i.afterClose)
  {
    hide Sample, Taken, Dead, Graced, InOrder, StillAlive, Welcoming;
    SampleIff(p.(job := None), i.at);
  }

  lemma EarlyRunEnding(p: Probe, seen: Probe, i: CompletionInput)
    requires SameHandover(p, seen) && seen.job == None
    ensures RunEnding(p, EndRun(seen), i)
  {
    NoneDispatched(p, EndRun(seen), i.drain);
    hide DispatchedPrefix;
  }

  lemma GoesOnTo(p: Probe, seen: Probe, job: Job, i: CompletionInput)
    requires Connecting(seen, job) && SameHandover(p, seen) && p.handover && seen.previous == Some(i.at)
    requires Closes(seen, job.url, i) == Closes(p, job.url, i) && Through(seen, job.url, i) == Through(p, job.url, i)
    requires Ending(seen, i.stopAfterClose, i.afterClose) == Ending(p, i.stopAfterClose, i.afterClose) && Survivable(seen, i) == Survivable(p, i)
    requires Mended(seen, i) == Mended(p, i)
    requires Welcomed(p, i) ==> Welcomed(seen, i) && Prompt(seen, i) == Prompt(p, i)
    ensures var s, told := AfterTry(TryConnect(seen, job, i), i), Routed(p.router, i.drain[..Through(p, job.url, i)]);
            var ends := Closes(p, job.url, i) && Ending(p, i.stopAfterClose, i.afterClose);
            var done := Closes(p, job.url, i) && !Ending(p, i.stopAfterClose, i.afterClose) && Prompt(p, i);
            && (done ==> s.Go? && Completed(p, s.p, i) && Greeted(s.p, i) && s.p.router == told && i.drain[..Through(p, job.url, i)] == i.drain)
            && (ends ==> s.Go? && RunEnding(p, s.p, i) && s.p.router == told)
            && (!done && !ends ==> (s.Go? ==> LostTo(p, told, NetworkError, i.loss, s))
                                   && (s.Fatal? ==> Unrecoverable(s.code) && s.p.router.calls == told.calls) && (Survivable(p, i) ==> s.Go?))
            && (!Mended(p, i) ==> s.Fatal?)
  {
    hide Core, TryConnect, Lose, ScheduleRetry, Completed, RunEnding, LostTo, Routed, Ending, Prompt, Through, Survivable, Unrecoverable, Bearable, Closes;
    TryHandover(seen, job, i);
    TryIs(seen, job, i);
    ClosedThrough(p, job.url, i);
    var t := TryConnect(seen, job, i);
    if t.Ok? { SameCompletion(p, seen, t.p, i); }
    if t.Ended? { SameEnding(p, seen, t.p, i); }
    if t.Err? && !Unrecoverable(t.code) {
      LoseLoses(t.p, HandoverFailed, i.loss);
      LostFrame(p, t.p, NetworkError, i.loss, Lose(t.p, HandoverFailed, i.loss));
      LostCalls(p, t.p.router, NetworkError, i.loss, Lose(t.p, HandoverFailed, i.loss));
      SurvivableLoss(p, i);
    }
  }

  lemma SurvivableLoss(p: Probe, i: CompletionInput)
    ensures Survivable(p, i) ==> Bearable(p, i.loss)
  {
  }

  lemma ClosedThrough(p: Probe, url: string, i: CompletionInput)
    ensures Closes(p, url, i) ==> Welcomed(p, i) && i.drain[..Through(p, url, i)] == i.drain
  {
  }

  lemma SameCompletion(p: Probe, seen: Probe, q: Probe, i: CompletionInput)
    requires SameHandover(p, seen) && Completed(seen, q, i)
    ensures Completed(p, q, i)
  {
  }

  lemma SameEnding(p: Probe, seen: Probe, q: Probe, i: CompletionInput)
    requires SameHandover(p, seen) && RunEnding(seen, q, i)
    ensures RunEnding(p, q, i)
  {
    var k :| DispatchedUpTo(seen, q, i.drain, k);
    assert DispatchedUpTo(p, q, i.drain, k);
  }

  // ----- a cold reconnect -----

  /** The attempt brings the session back. */
  predicate Resumes(p: Probe, i: CompletionInput) {
    && ClockAllows(p, i.at) && !Ending(p, i.stopBefore, i.at) && Welcomed(p, i)
    && (i.stopAtWorker || p.specs - p.session.failed != {})
  }

  /** It failed in a way that is tried again: no connection, or the welcome's session died. */
  predicate Postpones(p: Probe, i: CompletionInput) {
    && ClockAllows(p, i.at) && !Ending(p, i.stopBefore, i.at)
    && (i.result.error == Some(JobDisconnected)
        || (i.result.error == None && ReceivedInTime(p, i) && Welcoming(i.result.welcome) && !StillAlive(i, i.at)))
  }

  /** How a finished cold reconnect ends, exactly. */
  lemma ColdIff(p: Probe, i: CompletionInput)
    requires Inv(p) && p.job.Some? && !p.handover
    ensures var s := CompleteJob(p, i);
            if Resumes(p, i) then s.Go? && Resumed(p, s.p) && Greeted(s.p, i) && s.p.stop == i.stopAtWorker
            else if ClockAllows(p, i.at) && Ending(p, i.stopBefore, i.at) then s.Go? && s.p.stop && !s.p.socket && s.p.job == None && s.p.router == p.router
            else if Postpones(p, i) then if InOrder(p.externalClock, Some(i.at), i.retryFrom) then s.Go? && Postponed(p, s.p, i)
                                         else s.Fatal? && s.code == ClockIsUncertain && s.p.router == p.router
            else s.Fatal? && s.p.router == p.router
  {
    hide Core, TryConnect, AfterTry, Resumed, Postponed, Ending, ClockAllows, Welcomed, Expired, ReceivedInTime, Welcoming, StillAlive;
    CompleteIsTry(p, i);
    var taken, job := p.(job := None), p.job.value;
    CoreFrame(p, taken);
    SampleIff(taken, i.at);
    SampleKeeps(taken, i.at);
    var sampled := Sample(taken, i.at);
    var seen := SawStop(sampled.p, i.stopBefore);
    SameJob(p, seen, job.url, i);
    if sampled.Go? {
      TimingIs(sampled.p, i.stopBefore, i.at);
      if !Ending(p, i.stopBefore, i.at) {
        CoreFrame(sampled.p, seen);
        ColdTryIs(p, seen, job, i);
      }
    }
  }

  lemma ColdTryIs(p: Probe, seen: Probe, job: Job, i: CompletionInput)
    requires Connecting(seen, job) && SameHandover(p, seen) && !p.handover && seen.previous == Some(i.at)
    ensures var s := AfterTry(TryConnect(seen, job, i), i);
            if Welcomed(p, i) && (i.stopAtWorker || p.specs - p.session.failed != {}) then s.Go? && Resumed(p, s.p) && Greeted(s.p, i) && s.p.stop == i.stopAtWorker
            else if i.result.error == Some(JobDisconnected)
                    || (i.result.error == None && ReceivedInTime(p, i) && Welcoming(i.result.welcome) && !StillAlive(i, i.at)) then
              if InOrder(p.externalClock, Some(i.at), i.retryFrom) then s.Go? && Postponed(p, s.p, i)
              else s.Fatal? && s.code == ClockIsUncertain && s.p.router == p.router
            else s.Fatal? && s.p.router == p.router
  {
    hide Core, Greet, StartWorker, ScheduleRetry, StillAlive, InOrder;
    if i.result.error == None {
      GreetIs(seen, i);
      var g := Greet(seen, i);
      if !g.outcome.Rejected? { ColdStarts(p, seen, g.session, i); }
    }
    RetryIs(p, seen, i);
  }

  lemma ColdStarts(p: Probe, seen: Probe, next: Session, i: CompletionInput)
    requires SameHandover(p, seen) && !p.handover && !seen.stop && seen.job == None && Bare(seen) && i.result.received.Some? && i.result.welcome.Welcome?
    requires next == NewSession(p.nextSerial, p.specs).(sessionId := Some(i.result.welcome.sessionId),
                       timeout := i.result.welcome.keepaliveSeconds * 1_000_000, lastLiveness := i.result.received, inGrace := next.inGrace)
    ensures var t := StartWorker(Adopt(seen, next.(failed := seen.session.failed), i.result.received.value), i.stopAtWorker);
            if i.stopAtWorker || p.specs - p.session.failed != {} then
              t.Go? && Resumed(p, t.p.(handover := false)) && Greeted(t.p.(handover := false), i) && t.p.stop == i.stopAtWorker
            else t.Fatal? && t.code == NoUsableSubscriptions && t.p.router == p.router && !t.p.handover
  {
  }

  lemma RetryIs(p: Probe, seen: Probe, i: CompletionInput)
    requires SameHandover(p, seen) && !seen.socket && seen.job == None && seen.worker == None && seen.previous == Some(i.at)
    ensures var s := ScheduleRetry(seen, i.retryFrom);
            if InOrder(p.externalClock, Some(i.at), i.retryFrom) then s.Go? && Postponed(p, s.p, i)
            else s.Fatal? && s.code == ClockIsUncertain && s.p.router == p.router
  {
    hide Sample, InOrder;
    var q := seen.(retryCount := seen.retryCount + 1);
    SampleIff(q, i.retryFrom);
    SampleKeeps(q, i.retryFrom);
  }

  // ----- every delivery of a run -----

  /** The frames of the old socket that a tick drains. */
  function DrainedIn(q: Probe, i: StepInput): seq<DrainItem> {
    if q.job.Some? && q.handover && i.jobDone then DrainedFrames(q, q.job.value.url, i.completion) else []
  }

  lemma JobCalls(q: Probe, i: StepInput)
    requires Inv(q)
    ensures Jobs(q, i).p.router.calls == q.router.calls + FrameDeliveries(DrainedIn(q, i))
  {
    hide Core, CompleteJob, Lose, Sample, DrainedFrames, LostTo, Routed, HandsOver, EndsThere, Survivable, Completed, RunEnding, Greeted, Resumes, Postpones, ClockAllows, Ending, InOrder;
    if q.job.Some? {
      if i.jobDone {
        var s := CompleteJob(q, i.completion);
        SampleIff(s.p, i.afterJob);
        if q.handover {
          HandoverIff(q, i.completion);
          var told := Routed(q.router, DrainedFrames(q, q.job.value.url, i.completion));
          RoutedCalls(q.router, DrainedFrames(q, q.job.value.url, i.completion));
          if LostTo(q, told, NetworkError, i.completion.loss, s) { LostCalls(q, told, NetworkError, i.completion.loss, s); }
        } else {
          ColdIff(q, i.completion);
        }
      } else {
        LoseLoses(q, HandoverTimedOut, i.loss);
        LostCalls(q, q.router, NetworkError, i.loss, Lose(q, HandoverTimedOut, i.loss));
      }
    }
  }

  /** What a tick hears: the deliveries drained from an old socket, then the one of its frame. */
  function TickHears(p: Probe, i: StepInput): seq<Delivery> {
    var q := Notices(SeeNow(p, i.now), i.notices, false);
    if q.Fatal? then []
    else FrameDeliveries(DrainedIn(q.p, i)) + (if Step(p, i).Go? then HeardIn(Readied(p, i).p, Tick(p, i), i.live) else [])
  }

  /** A tick dispatches exactly what it hears. */
  lemma TickCalls(p: Probe, i: StepInput)
    requires Inv(p)
    ensures Step(p, i).p.router.calls == p.router.calls + TickHears(p, i)
  {
    hide Core, Shape, Notices, Jobs, Live, Reconnecting, HeardIn, DrainedIn, FrameDeliveries;
    var seen := SeeNow(p, i.now);
    TakeResults(p, i);
    NoticesRouter(seen, i.notices, false);
    var q := Notices(seen, i.notices, false);
    StepIs(p, i);
    if q.Go? {
      JobCalls(q.p, i);
      var r := Jobs(q.p, i);
      if r.Go? { LiveTickCalls(p, i, r.p); }
    }
  }

  function Hears(p: Probe, e: Happening): seq<Delivery> {
    if e.Ticked? then TickHears(p, e.tick) else []
  }

  function RunHears(p: Probe, es: seq<Happening>): seq<Delivery>
    decreases |es|
  {
    if es == [] then []
    else Hears(p, es[0]) + (if React(p, es[0]).Go? then RunHears(React(p, es[0]).p, es[1..]) else [])
  }

  lemma HappeningCalls(p: Probe, e: Happening)
    requires Inv(p)
    ensures React(p, e).p.router.calls == p.router.calls + Hears(p, e)
  {
    hide Core, Step, Lose, TickHears, Apply;
    if e.Ticked? { TickCalls(p, e.tick); }
    if e.ClockGap? {
      var q := p.(previous := None);
      LoseCalls(q, q, NetworkLost, e.loss);
    }
  }

  /** Over any run, the deliveries dispatched are exactly those heard, each once and in order. */
  lemma {:induction false} RunDispatches(p: Probe, es: seq<Happening>)
    requires Inv(p)
    ensures RunOf(p, es).p.router.calls == p.router.calls + RunHears(p, es)
    decreases |es|
  {
    hide Core, Shape, React, Hears;
    if es != [] {
      HappeningCalls(p, es[0]);
      ReactKeeps(p, es[0]);
      var s := React(p, es[0]);
      if s.Go? { RunDispatches(s.p, es[1..]); }
    }
  }
}
