/** A run in which a revoked chat source is reported healthy again. */
module RevokedChat {
  import opened Common
  import opened EventSink
  import opened EventSub
  import opened EventRouter
  import opened RouterGuarantees
  import opened Recovery
  import opened RecoveryInvariants
  import opened RecoveryTheorems
  import opened Handover

  const Begun := Start({Chat}, {Chat}, "url", None, true, T0, Fine)

  /** The worker confirms chat, the write of its first health row fails, and the frame in hand
      revokes it. */
  const Revoking := Hearing(Revocation(Envelope(Chat, true, "old", "id", false), 0)).(
    notices := [Notice(Some(Chat), "id", None, false)],
    live := Hearing(Revocation(Envelope(Chat, true, "old", "id", false), 0)).live.(writes := Fine.(chat := Failed)))

  /** Connected, with nothing confirmed and nothing written since the start. */
  predicate Waiting(p: Probe, responsive: bool) {
    && p.socket && p.worker == Some(Worker(Some("old"), {Chat})) && p.job == None && !p.stop && p.externalClock && p.duration == None
    && p.specs == {Chat} && p.router == Begun.router && p.connected == T0
    && p.session == Session(0, {Chat}, Some("old"), Seconds(10), Some(T0), map[], {}, {}, responsive, false)
  }

  lemma BegunRouter()
    ensures Begun.router.sinks == map[Chat := Sink(true, Some(Health(Starting, Initializing)), false, false, false, Awaiting, [Row(Health(Starting, Initializing), 0)])]
    ensures !Begun.router.stopped && !Begun.router.storageFailed && Begun.router.ready == {} && Begun.router.openGap == None
  {
    var r := NewRouter({Chat});
    assert r.sinks == map[Chat := NewSink(true)];
    assert Begun.router == BeginAll(r, 0, Fine);
    assert Begun.router.sinks.Keys == {Chat};
    assert !AnyFails(r.sinks, r.sinks.Keys, Begin, 0, Fine);
    assert Begun.router.sinks[Chat] == Apply(NewSink(true), Begin, 0, Committed).sink;
    assert Apply(NewSink(true), Begin, 0, Committed).sink.log == [Row(Health(Starting, Initializing), 0)];
  }

  /** Everything happens at T0 on a live socket with nothing pending. */
  predicate Calm(p: Probe) {
    p.socket && p.job == None && !p.stop && p.externalClock && p.duration == None && p.connected == T0
    && CheckLiveness(p.session, T0) == Checked(p.session, None)
  }

  /** The state in which a tick's frame is taken. */
  function Heeded(p: Probe): Probe { Sample(NoteReady(p, T0), T0).p }

  lemma FrameIsTaken(p: Probe, q: Probe, frame: Frame, i: StepInput)
    requires Notices(SeeNow(p, T0), i.notices, false) == Go(q) && Calm(q) && i.now == T0
    requires i.live.receipt == Received(frame) && i.live.at == T0 && !i.live.stop
    ensures Step(p, i) == TakeFrame(Heeded(Look(q, T0, i.live.writes)), frame, i.live)
  {
    hide Notices, Live, SeeNow, Look, Heeded;
    LiveTakes(q, Look(q, T0, i.live.writes), frame, i.live);
  }

  lemma LiveTakes(q: Probe, l: Probe, frame: Frame, i: LiveInput)
    requires Calm(q) && l == Look(q, T0, i.writes) && i.receipt == Received(frame) && i.at == T0 && !i.stop
    ensures Live(q, T0, i) == TakeFrame(Heeded(l), frame, i)
  {
    hide Observe, Receive, NoteReady, Heeded;
    NotedFrame(l, T0);
    ReceiveTakes(NoteReady(l, T0), frame, i);
    HeededNoted(l);
  }

  lemma HeededNoted(l: Probe)
    ensures Heeded(l) == Sample(NoteReady(l, T0), T0).p
  {
  }

  lemma ReceiveTakes(p: Probe, frame: Frame, i: LiveInput)
    requires Calm(p) && i.at == T0 && !i.stop
    ensures Receive(p, frame, i) == TakeFrame(Sample(p, T0).p, frame, i)
  {
    hide CheckLiveness, TakeFrame, Lose;
  }

  lemma BegunIsCalm()
    ensures var seen := SeeNow(Begun, T0); Calm(seen) && Heeded(seen) == seen.(previous := Some(T0))
  {
    hide BeginAll;
  }

  lemma Welcomed()
    ensures var s := Step(Begun, Hearing(Welcome("old", 10))); s.Go? && Waiting(s.p, false)
  {
    hide Step, Observe, BeginAll, Accept;
    var i := Hearing(Welcome("old", 10));
    var p := SeeNow(Begun, T0);
    BegunIsCalm();
    ObserveNothing(p.router, p.session, T0, Fine);
    assert Look(p, T0, Fine) == p;
    FrameIsTaken(Begun, p, Welcome("old", 10), i);
    var welcomed := p.session.(sessionId := Some("old"), timeout := Seconds(10), lastLiveness := Some(T0));
    FirstAccepted(p.session);
    assert {Chat} - {} == {Chat};
    ObserveNothing(p.router, welcomed, T0, Fine);
  }

  lemma FirstAccepted(s: Session)
    requires s == NewSession(0, {Chat})
    ensures Accept(s, Welcome("old", 10), T0)
            == Accepted(s.(sessionId := Some("old"), timeout := Seconds(10), lastLiveness := Some(T0)), Nothing)
  {
  }

  lemma WaitingIsCalm(p: Probe, responsive: bool)
    requires Waiting(p, responsive)
    ensures var seen := SeeNow(p, T0); Calm(seen) && Heeded(seen) == seen.(previous := Some(T0)) && Waiting(Heeded(seen), responsive)
    ensures Look(SeeNow(p, T0), T0, Fine) == SeeNow(p, T0)
  {
    hide BeginAll, Observe;
    ObserveNothing(p.router, p.session, T0, Fine);
  }

  lemma Heard(p: Probe)
    requires Waiting(p, false)
    ensures var s := Step(p, Hearing(Keepalive)); s.Go? && Waiting(s.p, true)
  {
    hide Step, Observe, BeginAll, CheckLiveness;
    WaitingIsCalm(p, false);
    var seen := SeeNow(p, T0);
    FrameIsTaken(p, seen, Keepalive, Hearing(Keepalive));
    KeepaliveAccepted(p.session);
    ObserveNothing(p.router, p.session.(responsive := true), T0, Fine);
  }

  lemma KeepaliveAccepted(s: Session)
    requires s.sessionId.Some? && s.lastLiveness == Some(T0) && s.timeout == Seconds(10) && !s.inGrace
    ensures Accept(s, Keepalive, T0) == Accepted(s.(responsive := true), Nothing)
  {
  }

  /** Chat has failed, its sink is up, and storage has failed. */
  predicate Exposed(p: Probe) {
    Chat in p.session.failed && Chat in p.router.sinks && !Silent(p.router, Chat)
  }

  const AllConfirmed := Session(0, {Chat}, Some("old"), Seconds(10), Some(T0), map[Chat := "id"], {}, {}, true, false)

  lemma Revoked(p: Probe)
    requires Waiting(p, true)
    ensures var s := Step(p, Revoking); s.Go? && Exposed(s.p)
  {
    hide Step, Look, BeginAll, TakeFrame, Exposed, Heeded;
    WaitingIsCalm(p, true);
    var seen := SeeNow(p, T0);
    NoticeTaken(seen);
    var q := seen.(worker := Some(Worker(Some("old"), {})), session := AllConfirmed);
    var frame := Revoking.live.receipt.frame;
    FrameIsTaken(p, q, frame, Revoking);
    FirstRowFails(q);
    HeededFrame(Look(q, T0, Revoking.live.writes));
    StillUp(Heeded(Look(q, T0, Revoking.live.writes)));
  }

  lemma HeededFrame(p: Probe)
    ensures var q := Heeded(p); q.session == p.session && q.worker == p.worker && q.router == p.router
  {
    hide NoteReady, Sample;
    NotedFrame(p, T0);
    SampleKeeps(NoteReady(p, T0), T0);
  }

  lemma NoticeTaken(p: Probe)
    requires Waiting(p, true)
    ensures Notices(p, Revoking.notices, false) == Go(p.(worker := Some(Worker(Some("old"), {})), session := AllConfirmed))
  {
    hide BeginAll;
    assert {Chat} - {Chat} == {};
    assert Revoking.notices[1..] == [];
  }

  /** A failed first row leaves the sink up behind the latch. */
  lemma FirstRowFails(p: Probe)
    requires p.router == Begun.router && p.session == AllConfirmed
    ensures var q := Look(p, T0, Revoking.live.writes);
            q == p.(router := q.router) && q.router.storageFailed && Chat in q.router.sinks
            && q.router.sinks[Chat].transportReady && !q.router.sinks[Chat].processingError
  {
    BegunRouter();
    assert NewlyReady(p.router, p.session) == {Chat};
    RowFails(p.router.sinks[Chat]);
    assert AnyFails(p.router.sinks, {Chat}, TransportReady, 0, Revoking.live.writes);
  }

  lemma RowFails(s: Sink)
    requires s.chat && s.health == Some(Health(Starting, Initializing)) && !s.processingError && !s.stopped && s.polling == Awaiting
    ensures var d := Apply(s, TransportReady, 0, Failed); d.error == StorageError && d.sink.transportReady && !d.sink.processingError
  {
  }

  lemma RevocationAccepted()
    ensures Accept(AllConfirmed, Revoking.live.receipt.frame, T0) == Accepted(AllConfirmed.(failed := {Chat}), Deliver(Delivery(true, Chat, 0)))
  {
  }

  /** The revocation is accepted by the session and dropped by the router. */
  lemma StillUp(p: Probe)
    requires p.session == AllConfirmed && p.worker.Some?
    requires p.router.storageFailed && Chat in p.router.sinks && p.router.sinks[Chat].transportReady && !p.router.sinks[Chat].processingError
    ensures var s := TakeFrame(p, Revoking.live.receipt.frame, Revoking.live); s.Go? && Exposed(s.p)
  {
    hide Lose, StartWorker, RequestHandover, NewlyReady, AnyReady, CallAll, ResolveGap;
    var frame := Revoking.live.receipt.frame;
    RevocationAccepted();
    hide Accept;
  }

  /** Such a state is reached, and from there the chat sink can turn healthy. */
  lemma RevokedAfterStorageFailure()
    ensures exists p :: Reached(p) && Chat in p.session.failed && Chat in p.router.sinks && !NeverHealthyAgain(p, Chat)
  {
    hide Step, NeverHealthyAgain;
    Welcomed();
    var a, b := Hearing(Welcome("old", 10)), Hearing(Keepalive);
    var p := Step(Begun, a).p;
    Heard(p);
    var q := Step(p, b).p;
    Revoked(q);
    var r := Step(q, Revoking).p;
    var es := [Ticked(a), Ticked(b), Ticked(Revoking)];
    assert es[1..] == [Ticked(b), Ticked(Revoking)] && es[1..][1..] == [Ticked(Revoking)] && es[1..][1..][1..] == [];
    assert RunOf(r, []) == Go(r);
    assert RunOf(q, es[1..][1..]) == Go(r);
    assert RunOf(p, es[1..]) == Go(r);
    assert Reaches(r, Begun, es);
    NeverHealthyIff(r, Chat);
  }
}
