/** Routing of deliveries and transport signals to the sinks, and the reconnection_gaps rows
    (scripts/eventsub_router.py). */
module EventRouter {
  import opened Common
  import opened EventSink
  import opened EventSub

  /** Committed changes of reconnection_gaps: an inserted row, or its recovered_at. The lost
      session and the recovering session are recorded beside the source's own columns. */
  datatype GapEvent =
    | Opened(id: nat, detectedAt: int, lost: nat)
    | Resolved(id: nat, recoveredAt: Reading, session: Session)

  /** One outcome per write a router call may make. */
  datatype Writes = Writes(chat: Write, raids: Write, follows: Write, gap: Write) {
    function For(source: Source): Write {
      match source case Chat => chat case Raids => raids case _ => follows
    }
  }

  /** calls lists every dispatch; lastLost is the session of the latest transport loss. */
  datatype Router = Router(
    sinks: map<Source, Sink>, ready: set<Source>, openGap: Option<nat>, stopped: bool, storageFailed: bool,
    nextGap: nat, gaps: seq<GapEvent>, calls: seq<Delivery>, lastLost: Option<nat>)

  function NewRouter(sources: set<Source>): Router {
    Router(map s | s in sources :: NewSink(s == Chat), {}, None, false, false, 0, [], [], None)
  }

  // ----- calls to several sinks: a failing one does not stop the loop -----

  function ApplyTo(sinks: map<Source, Sink>, chosen: set<Source>, op: Op, at: int, w: Writes): map<Source, Sink> {
    map s | s in sinks :: if s in chosen then Apply(sinks[s], op, at, w.For(s)).sink else sinks[s]
  }

  predicate AnyFails(sinks: map<Source, Sink>, chosen: set<Source>, op: Op, at: int, w: Writes) {
    exists s :: s in chosen && s in sinks && Apply(sinks[s], op, at, w.For(s)).error == StorageError
  }

  function CallAll(r: Router, chosen: set<Source>, op: Op, at: int, w: Writes): Router {
    r.(sinks := ApplyTo(r.sinks, chosen, op, at, w),
       storageFailed := r.storageFailed || AnyFails(r.sinks, chosen, op, at, w))
  }

  function BeginAll(r: Router, at: int, w: Writes): Router { CallAll(r, r.sinks.Keys, Begin, at, w) }

  function NewlyReady(r: Router, session: Session): set<Source> {
    set s | s in r.sinks && SourceReady(session, s) && s !in r.ready
  }

  predicate AnyReady(r: Router, session: Session) {
    exists s :: s in r.sinks && SourceReady(session, s)
  }

  function ResolveGap(r: Router, session: Session, now: Reading, w: Write): Router {
    if r.openGap == None then r
    else r.(openGap := None,
            gaps := if w == Failed then r.gaps else r.gaps + [Resolved(r.openGap.value, now, session)],
            storageFailed := r.storageFailed || w != Committed)
  }

  function Observe(r: Router, session: Session, now: Reading, w: Writes): Router {
    if r.stopped || r.storageFailed then r
    else
      var newly := NewlyReady(r, session);
      var called := CallAll(r, newly, TransportReady, now.utc, w).(ready := r.ready + newly);
      if AnyReady(r, session) then ResolveGap(called, session, now, w.gap) else called
  }

  function OpenGap(r: Router, at: int, lost: nat, w: Write): Router {
    if r.openGap.Some? then r
    else r.(openGap := if w == Committed then Some(r.nextGap) else None,
            gaps := if w == Failed then r.gaps else r.gaps + [Opened(r.nextGap, at, lost)],
            nextGap := if w == Failed then r.nextGap else r.nextGap + 1,
            storageFailed := r.storageFailed || w != Committed)
  }

  function TransportLost(r: Router, reason: TransportReason, at: int, lost: nat, w: Writes): Router {
    var noted := r.(lastLost := Some(lost));
    if r.stopped || r.storageFailed then noted
    else
      var called := CallAll(noted, r.ready, TransportError(reason), at, w).(ready := r.ready - r.sinks.Keys);
      OpenGap(called, at, lost, w.gap)
  }

  function Dispatch(r: Router, d: Delivery, at: int, submission: Submission, w: Writes): Router {
    var noted := r.(calls := r.calls + [d]);
    if r.stopped || r.storageFailed || d.source !in r.sinks then noted
    else if d.revocation then CallAll(noted, {d.source}, TransportError(SubscriptionRevoked), at, w).(ready := r.ready - {d.source})
    else CallAll(noted, {d.source}, Submit(submission), at, w)
  }

  function StopAll(r: Router, at: int, w: Writes): Router {
    if r.stopped || r.storageFailed then r
    else CallAll(r.(stopped := true), r.sinks.Keys, Stop, at, w)
  }

  function MarkStorageFailed(r: Router): Router { r.(storageFailed := true) }

  /** The coordinator's polling state, written past the router straight to the chat sink. */
  function SetChatPolling(r: Router, p: Polling, at: int, w: Write): Router {
    if Chat in r.sinks then r.(sinks := r.sinks[Chat := Apply(r.sinks[Chat], SetPolling(p), at, w).sink]) else r
  }

  // ----- invariants -----

  /** The router's flags and its sinks' flags agree, and while storage works every sink whose
      transport is up and that holds no bad notification is at its resting health. Only the
      chat source has a sink with a polling state. */
  ghost predicate FlagsAgree(r: Router) {
    && r.ready <= r.sinks.Keys
    && (forall s :: s in r.sinks ==> (s in r.ready <==> r.sinks[s].transportReady))
    && (forall s :: s in r.sinks ==> (r.sinks[s].stopped ==> r.stopped))
    && (forall s :: s in r.sinks ==> (r.sinks[s].chat <==> s == Chat))
    && (!r.storageFailed ==> forall s :: s in r.sinks ==> Settled(r.sinks[s]))
  }

  predicate SomeLive(session: Session, sources: set<Source>, now: Reading) {
    exists s :: s in sources && LiveAndConfirmed(session, s, now)
  }

  predicate Closed(gaps: seq<GapEvent>) { gaps == [] || gaps[|gaps| - 1].Resolved? }

  /** A resolve answers the open right before it, from a session made after the loss that
      opened the gap, with a source confirmed and heard within the keepalive interval. */
  predicate Answers(open: GapEvent, e: GapEvent, sources: set<Source>)
    requires e.Resolved?
  {
    open.Opened? && open.id == e.id && e.session.serial > open.lost && SomeLive(e.session, sources, e.recoveredAt)
  }

  /** Rows in order: an open follows only closed rows and takes a new id below `next`; a
      resolve answers the open before it. */
  predicate GapLog(gaps: seq<GapEvent>, next: nat, sources: set<Source>)
    decreases |gaps|
  {
    gaps == [] ||
    (var front, e := gaps[..|gaps| - 1], gaps[|gaps| - 1];
     if e.Opened? then Closed(front) && e.id < next && GapLog(front, e.id, sources)
     else front != [] && Answers(front[|front| - 1], e, sources) && GapLog(front, next, sources))
  }

  /** What the router remembers of the rows: an open id is the last row's, and with none and
      storage intact every row is resolved. */
  predicate GapMemory(r: Router) {
    && (r.openGap.Some? ==> !Closed(r.gaps) && r.gaps[|r.gaps| - 1].id == r.openGap.value)
    && (r.openGap == None && !r.storageFailed ==> Closed(r.gaps))
  }

  predicate GapInv(r: Router) { GapLog(r.gaps, r.nextGap, r.sinks.Keys) && GapMemory(r) }

  ghost predicate RouterInv(r: Router) { FlagsAgree(r) && GapInv(r) }

  /** Spelled out: opens and resolves strictly alternate starting with an open, and every
      resolve answers the open just before it. */
  lemma {:induction false} GapsAlternate(gaps: seq<GapEvent>, next: nat, sources: set<Source>, i: nat)
    requires GapLog(gaps, next, sources) && i < |gaps|
    ensures gaps[i].Opened? <==> i % 2 == 0
    ensures gaps[i].Resolved? ==> i > 0 && Answers(gaps[i - 1], gaps[i], sources)
    ensures gaps[i].id < next
    decreases |gaps|
  {
    var front, e := gaps[..|gaps| - 1], gaps[|gaps| - 1];
    var below := if e.Opened? then e.id else next;
    if i < |front| {
      GapsAlternate(front, below, sources, i);
    } else if front != [] {
      GapsAlternate(front, below, sources, |front| - 1);
    }
  }

  /** A row of reconnection_gaps with no recovered_at. */
  ghost predicate OpenRow(gaps: seq<GapEvent>, id: nat) {
    && (exists i :: 0 <= i < |gaps| && gaps[i].Opened? && gaps[i].id == id)
    && (forall i :: 0 <= i < |gaps| && gaps[i].Resolved? ==> gaps[i].id != id)
  }

  /** At most one row is open, and then it is the last one. */
  lemma AtMostOneOpen(gaps: seq<GapEvent>, next: nat, sources: set<Source>, id: nat)
    requires GapLog(gaps, next, sources) && OpenRow(gaps, id)
    ensures !Closed(gaps) && id == gaps[|gaps| - 1].id
  {
  }

  // ----- every call keeps them -----

  lemma CallAllKeepsFlags(r: Router, chosen: set<Source>, op: Op, at: int, w: Writes, ready: set<Source>)
    requires FlagsAgree(r) && chosen <= r.sinks.Keys
    requires !op.Stop? && !op.Begin? && !r.stopped
    requires ready == if op.TransportReady? then r.ready + chosen else if op.TransportError? then r.ready - chosen else r.ready
    ensures FlagsAgree(CallAll(r, chosen, op, at, w).(ready := ready))
  {
    hide Apply, Settled;
    var called := CallAll(r, chosen, op, at, w);
    forall s | s in r.sinks
      ensures !called.sinks[s].stopped && (s in ready <==> called.sinks[s].transportReady) && (called.sinks[s].chat <==> s == Chat)
      ensures !called.storageFailed ==> Settled(called.sinks[s])
    {
      if s in chosen {
        FlagsAfter(r.sinks[s], op, at, w.For(s));
      }
    }
  }

  /** What one call does to a running sink's transport flag. */
  lemma FlagsAfter(s: Sink, op: Op, at: int, w: Write)
    requires !s.stopped && !op.Stop?
    ensures !Apply(s, op, at, w).sink.stopped
    ensures Apply(s, op, at, w).sink.transportReady == (op.TransportReady? || (!op.TransportError? && s.transportReady))
    ensures Apply(s, op, at, w).sink.chat == s.chat
    ensures Settled(s) && !op.Begin? && Apply(s, op, at, w).error != StorageError ==> Settled(Apply(s, op, at, w).sink)
  {
  }

  lemma ResolveKeepsGaps(r: Router, session: Session, now: Reading, w: Write)
    requires GapInv(r) && SomeLive(session, r.sinks.Keys, now) && LostBefore(r, session)
    ensures GapInv(ResolveGap(r, session, now, w))
  {
  }

  lemma OpenKeepsGaps(r: Router, at: int, lost: nat, w: Write)
    requires GapLog(r.gaps, r.nextGap, r.sinks.Keys)
    requires r.openGap.Some? ==> !Closed(r.gaps) && r.gaps[|r.gaps| - 1].id == r.openGap.value
    requires r.openGap == None ==> Closed(r.gaps)
    ensures GapInv(OpenGap(r, at, lost, w))
    ensures !OpenGap(r, at, lost, w).storageFailed ==> OpenGap(r, at, lost, w).openGap.Some?
  {
  }

  /** The session is newer than the one whose loss opened the gap. */
  predicate LostBefore(r: Router, session: Session) {
    r.openGap.Some? && !Closed(r.gaps) ==> session.serial > r.gaps[|r.gaps| - 1].lost
  }

  lemma ObserveKeeps(r: Router, session: Session, now: Reading, w: Writes)
    requires RouterInv(r)
    requires forall s :: SourceReady(session, s) ==> LiveAndConfirmed(session, s, now)
    requires AnyReady(r, session) ==> LostBefore(r, session)
    ensures var q := Observe(r, session, now, w);
            && RouterInv(q) && q.calls == r.calls && q.lastLost == r.lastLost && q.sinks.Keys == r.sinks.Keys && q.stopped == r.stopped
            && (r.storageFailed ==> q.storageFailed)
            && (forall s :: s in q.ready && s !in r.ready ==> SourceReady(session, s))
            && (q.openGap.Some? ==> q.openGap == r.openGap && q.gaps == r.gaps)
            && (q.openGap == None && r.openGap.Some? ==> AnyReady(r, session))
  {
    if !r.stopped && !r.storageFailed {
      var newly := NewlyReady(r, session);
      CallAllKeepsFlags(r, newly, TransportReady, now.utc, w, r.ready + newly);
      var called := CallAll(r, newly, TransportReady, now.utc, w).(ready := r.ready + newly);
      assert called.sinks.Keys == r.sinks.Keys;
      if AnyReady(r, session) {
        var s :| s in r.sinks && SourceReady(session, s);
        assert SomeLive(session, called.sinks.Keys, now);
        ResolveKeepsGaps(called, session, now, w.gap);
      }
    }
  }

  lemma LostKeeps(r: Router, reason: TransportReason, at: int, lost: nat, w: Writes)
    requires RouterInv(r)
    ensures var q := TransportLost(r, reason, at, lost, w);
            && RouterInv(q) && q.lastLost == Some(lost) && q.calls == r.calls && q.sinks.Keys == r.sinks.Keys && q.stopped == r.stopped
            && (!q.storageFailed && !r.stopped ==> q.ready == {} && q.openGap.Some?)
            && (r.storageFailed ==> q.storageFailed) && q.ready <= r.ready
            && (q.openGap.Some? ==>
                  (q.openGap == r.openGap && q.gaps == r.gaps) || q.gaps == r.gaps + [Opened(r.nextGap, at, lost)])
  {
    if !r.stopped && !r.storageFailed {
      var noted := r.(lastLost := Some(lost));
      CallAllKeepsFlags(noted, r.ready, TransportError(reason), at, w, {});
      assert r.ready - r.sinks.Keys == {};
      var called := CallAll(noted, r.ready, TransportError(reason), at, w).(ready := {});
      assert called.sinks.Keys == r.sinks.Keys;
      OpenKeepsGaps(called, at, lost, w.gap);
    }
  }

  lemma DispatchKeeps(r: Router, d: Delivery, at: int, submission: Submission, w: Writes)
    requires RouterInv(r)
    ensures var q := Dispatch(r, d, at, submission, w);
            && RouterInv(q) && q.calls == r.calls + [d] && q.gaps == r.gaps && q.openGap == r.openGap && q.lastLost == r.lastLost
            && q.sinks.Keys == r.sinks.Keys && q.ready <= r.ready && q.stopped == r.stopped && (r.storageFailed ==> q.storageFailed)
            && (d.revocation && !r.stopped && !r.storageFailed ==> d.source !in q.ready)
  {
    if !r.stopped && !r.storageFailed && d.source in r.sinks {
      var noted := r.(calls := r.calls + [d]);
      if d.revocation {
        CallAllKeepsFlags(noted, {d.source}, TransportError(SubscriptionRevoked), at, w, r.ready - {d.source});
        assert CallAll(noted, {d.source}, TransportError(SubscriptionRevoked), at, w).sinks.Keys == r.sinks.Keys;
      } else {
        CallAllKeepsFlags(noted, {d.source}, Submit(submission), at, w, r.ready);
        assert CallAll(noted, {d.source}, Submit(submission), at, w).sinks.Keys == r.sinks.Keys;
      }
    }
  }

  /** With every write committed, an observation leaves the flags exactly the ready sources
      added to those before, each newly ready sink at its resting health unless it holds a bad
      notification, and no gap open if any source is ready: the open row is resolved now. */
  lemma ObserveCatchesUp(r: Router, session: Session, now: Reading, w: Writes)
    requires RouterInv(r) && !r.stopped && !r.storageFailed && w == Writes(Committed, Committed, Committed, Committed)
    ensures var q := Observe(r, session, now, w);
            && !q.storageFailed && q.sinks.Keys == r.sinks.Keys
            && (forall s :: s in r.sinks ==> (s in q.ready <==> s in r.ready || SourceReady(session, s)))
            && (forall s :: s in r.sinks && SourceReady(session, s) && !q.sinks[s].processingError ==>
                  q.sinks[s].transportReady && q.sinks[s].health == Some(Resting(q.sinks[s])))
            && (AnyReady(r, session) ==> q.openGap == None)
            && q.gaps == if AnyReady(r, session) && r.openGap.Some? then r.gaps + [Resolved(r.openGap.value, now, session)] else r.gaps
  {
  }

  /** A delivery reaches the sink of its source and no other: a notification as submitted, a
      revocation as a transport error that also lowers the flag. */
  lemma DeliveryReachesItsSink(r: Router, d: Delivery, at: int, submission: Submission, w: Writes)
    requires !r.stopped && !r.storageFailed && d.source in r.sinks
    ensures var q := Dispatch(r, d, at, submission, w);
            && q.sinks.Keys == r.sinks.Keys
            && (forall s :: s in r.sinks && s != d.source ==> q.sinks[s] == r.sinks[s] && (s in q.ready <==> s in r.ready))
            && (!d.revocation ==> q.sinks[d.source] == Apply(r.sinks[d.source], Submit(submission), at, w.For(d.source)).sink)
            && (d.revocation && !r.sinks[d.source].stopped ==> !q.sinks[d.source].transportReady && d.source !in q.ready)
            && (q.storageFailed ==> w.For(d.source) != Committed || submission == Persisted(true))
  {
  }

  /** A loss reaches every sink whose flag was raised, with its reason, and no other sink; a
      gap row is opened at that time unless one is open; storage fails exactly with a write
      that was needed and did not commit. */
  lemma LossReachesEverySink(r: Router, reason: TransportReason, at: int, lost: nat, w: Writes)
    requires RouterInv(r) && !r.stopped && !r.storageFailed
    ensures var q := TransportLost(r, reason, at, lost, w);
            && q.sinks.Keys == r.sinks.Keys && q.ready == {}
            && (forall s :: s in r.sinks ==> q.sinks[s] == if s in r.ready then Apply(r.sinks[s], TransportError(reason), at, w.For(s)).sink else r.sinks[s])
            && (forall s :: s in r.ready && w.For(s) == Committed ==>
                  q.sinks[s].health == Some(Health(Errored, Transport(if reason == OtherReason then SubscriptionError else reason))))
            && q.gaps == (if r.openGap.Some? || w.gap == Failed then r.gaps else r.gaps + [Opened(r.nextGap, at, lost)])
            && (q.storageFailed <==>
                  || (r.openGap == None && w.gap != Committed)
                  || exists s :: s in r.ready && w.For(s) != Committed
                                 && r.sinks[s].health != Some(Health(Errored, Transport(if reason == OtherReason then SubscriptionError else reason))))
  {
    hide Apply;
    forall s | s in r.ready
      ensures Apply(r.sinks[s], TransportError(reason), at, w.For(s)).error == StorageError <==>
                w.For(s) != Committed && r.sinks[s].health != Some(Health(Errored, Transport(if reason == OtherReason then SubscriptionError else reason)))
      ensures w.For(s) == Committed ==>
                Apply(r.sinks[s], TransportError(reason), at, w.For(s)).sink.health
                == Some(Health(Errored, Transport(if reason == OtherReason then SubscriptionError else reason)))
    {
      CallEffects(r.sinks[s], TransportError(reason), at);
      if w.For(s) != Committed { UncommittedWrite(r.sinks[s], TransportError(reason), at, w.For(s)); }
    }
  }

  /** Beginning and stopping reach every sink, and the stop is final. */
  lemma BeginAndStopReachEverySink(r: Router, at: int, w: Writes)
    requires RouterInv(r) && !r.stopped && !r.storageFailed && w == Writes(Committed, Committed, Committed, Committed)
    ensures var b, e := BeginAll(r, at, w), StopAll(r, at, w);
            && b.sinks.Keys == r.sinks.Keys == e.sinks.Keys && e.stopped && !b.stopped && !b.storageFailed && !e.storageFailed
            && (forall s :: s in r.sinks ==> b.sinks[s].health == Some(Health(Starting, Initializing)) && !b.sinks[s].stopped)
            && (forall s :: s in r.sinks ==> e.sinks[s].health == Some(Health(Stopped, OrderlyShutdown)) && e.sinks[s].stopped)
  {
    hide Apply;
    forall s | s in r.sinks
      ensures var b := Apply(r.sinks[s], Begin, at, Committed);
              b.error == NoError && b.sink.health == Some(Health(Starting, Initializing)) && !b.sink.stopped
      ensures var e := Apply(r.sinks[s], Stop, at, Committed);
              e.error == NoError && e.sink.health == Some(Health(Stopped, OrderlyShutdown)) && e.sink.stopped
    {
      CallEffects(r.sinks[s], Begin, at);
      CallEffects(r.sinks[s], Stop, at);
    }
  }

  /** A polling state reaches the chat sink alone. */
  lemma PollingReachesChat(r: Router, p: Polling, at: int, w: Write)
    ensures var q := SetChatPolling(r, p, at, w);
            && q == r.(sinks := q.sinks) && q.sinks.Keys == r.sinks.Keys
            && (forall s :: s in r.sinks ==> q.sinks[s] == if s == Chat then Apply(r.sinks[s], SetPolling(p), at, w).sink else r.sinks[s])
  {
    hide Apply;
  }

  /** After a storage failure the router writes nothing: no gap row, no health row. */
  lemma StorageFailureIsFinal(r: Router, session: Session, d: Delivery, now: Reading, reason: TransportReason, sub: Submission, w: Writes)
    requires r.storageFailed
    ensures Observe(r, session, now, w) == r && StopAll(r, now.utc, w) == r
    ensures TransportLost(r, reason, now.utc, session.serial, w).(lastLost := r.lastLost) == r
    ensures Dispatch(r, d, now.utc, sub, w).(calls := r.calls) == r
  {
  }

  // ----- the class -----

  class EventRouter {
    const sinks: map<Source, EventSink>
    /** The order in which the source iterates its dictionary of sinks. */
    const order: seq<Source>
    var ready: set<Source>
    var openGap: Option<nat>
    var stopped: bool
    var storageFailed: bool
    /** The next key of the database's identity column. */
    var nextGap: nat
    ghost var gaps: seq<GapEvent>
    ghost var calls: seq<Delivery>
    ghost var lastLost: Option<nat>

    ghost function View(): Router
      reads this, sinks.Values
    {
      Router(SinkViews(), ready, openGap, stopped, storageFailed, nextGap, gaps, calls, lastLost)
    }

    ghost function SinkViews(): map<Source, Sink>
      reads sinks.Values
    {
      map s | s in sinks :: sinks[s].View()
    }

    /** Every source has its own sink and occurs once in the order. */
    ghost predicate Valid() {
      && (forall s, t :: s in sinks && t in sinks && s != t ==> sinks[s] != sinks[t])
      && (forall s :: s in order <==> s in sinks)
      && (forall i, j :: 0 <= i < j < |order| ==> order[i] != order[j])
    }

    constructor (sinks: map<Source, EventSink>, order: seq<Source>)
      requires forall s, t :: s in sinks && t in sinks && s != t ==> sinks[s] != sinks[t]
      requires forall s :: s in order <==> s in sinks
      requires forall i, j :: 0 <= i < j < |order| ==> order[i] != order[j]
      requires forall s :: s in sinks ==> sinks[s].View() == NewSink(s == Chat)
      ensures Valid() && this.sinks == sinks && View() == NewRouter(sinks.Keys)
    {
      this.sinks, this.order := sinks, order;
      ready, openGap, stopped, storageFailed, nextGap, gaps, calls, lastLost := {}, None, false, false, 0, [], [], None;
      new;
      assert SinkViews() == NewRouter(sinks.Keys).sinks;
    }

    /** One guarded call: a storage error is latched instead of propagated. */
    method Guard(source: Source, op: Op, at: int, w: Write)
      requires Valid() && source in sinks
      modifies this`storageFailed, sinks[source]
      ensures SinkViews() == old(SinkViews())[source := Apply(old(sinks[source].View()), op, at, w).sink]
      ensures storageFailed == (old(storageFailed) || Apply(old(sinks[source].View()), op, at, w).error == StorageError)
    {
      hide Apply;
      var error := Perform(sinks[source], op, at, w);
      if error == StorageError { storageFailed := true; }
    }

    static method Perform(sink: EventSink, op: Op, at: int, w: Write) returns (error: Error)
      modifies sink
      ensures Done(sink.View(), error) == Apply(old(sink.View()), op, at, w)
    {
      match op
      case Begin => error := sink.BeginRun(at, w);
      case TransportReady => error := sink.MarkTransportReady(at, w);
      case TransportError(reason) => error := sink.MarkTransportError(reason, at, w);
      case Submit(submission) => error := sink.SubmitNotification(submission, at, w);
      case Stop => error := sink.StopSource(at, w);
      case SetPolling(p) => error := sink.SetPollingState(p, at, w);
    }

    /** One more of the chosen sinks. */
    method CallOne(source: Source, op: Op, at: int, w: Writes, ghost before: Router, ghost done: set<Source>)
      requires Valid() && source in sinks && source !in done && before.sinks.Keys == sinks.Keys
      requires View() == CallAll(before, done, op, at, w)
      modifies this`storageFailed, sinks[source]
      ensures View() == CallAll(before, done + {source}, op, at, w)
    {
      hide Apply, ApplyTo, AnyFails;
      CalledOne(before.sinks, done, source, op, at, w);
      assert sinks[source].View() == SinkViews()[source];
      Guard(source, op, at, w.For(source));
    }

    /** The loops over the sinks: a failing one does not stop them. */
    method CallEach(chosen: set<Source>, op: Op, at: int, w: Writes)
      requires Valid()
      modifies this`storageFailed, sinks.Values
      ensures View() == CallAll(old(View()), chosen, op, at, w)
    {
      hide CallAll, CalledSoFar;
      ghost var before := View();
      NobodyCalled(before, op, at, w);
      NoneInOrder(order, chosen);
      assert before.sinks.Keys == sinks.Keys;
      var k := 0;
      while k < |order|
        invariant 0 <= k <= |order|
        invariant View() == CallAll(before, CalledSoFar(order, k, chosen), op, at, w)
      {
        var source := order[k];
        NextInOrder(order, k, chosen);
        if source in chosen {
          CallOne(source, op, at, w, before, CalledSoFar(order, k, chosen));
        }
        k := k + 1;
      }
      AllInOrder(order, chosen);
      EverybodyCalled(before, CalledSoFar(order, k, chosen), chosen, op, at, w);
    }

    method Open(at: int, w: Writes)
      requires Valid()
      modifies this`storageFailed, sinks.Values
      ensures View() == BeginAll(old(View()), at, w)
    {
      CallEach(sinks.Keys, Begin, at, w);
    }

    method ObserveSession(session: Session, now: Reading, w: Writes)
      requires Valid()
      modifies this, sinks.Values
      ensures View() == Observe(old(View()), session, now, w)
    {
      hide CallAll, ResolveGap, SourceReady, NewlyReady, AnyReady;
      if stopped || storageFailed { return; }
      var any := exists s :: s in sinks && SourceReady(session, s);
      assert any == AnyReady(View(), session) by { AnyReadyKeys(View(), session); }
      RaiseReady(session, now.utc, w);
      if any { ResolveOpenGap(session, now, w.gap); }
    }

    method RaiseReady(session: Session, at: int, w: Writes)
      requires Valid()
      modifies this`ready, this`storageFailed, sinks.Values
      ensures View() == (var r := old(View()); CallAll(r, NewlyReady(r, session), TransportReady, at, w).(ready := r.ready + NewlyReady(r, session)))
    {
      hide CallAll, SourceReady;
      var newly := set s | s in sinks && SourceReady(session, s) && s !in ready;
      assert newly == NewlyReady(View(), session);
      CallEach(newly, TransportReady, at, w);
      ready := ready + newly;
    }

    method ResolveOpenGap(session: Session, now: Reading, w: Write)
      modifies this`openGap, this`gaps, this`storageFailed
      ensures View() == ResolveGap(old(View()), session, now, w)
    {
      if openGap == None { return; }
      var id := openGap.value;
      openGap := None;
      if w != Failed { gaps := gaps + [Resolved(id, now, session)]; }
      if w != Committed { storageFailed := true; }
    }

    method ReportLoss(reason: TransportReason, at: int, lost: nat, w: Writes)
      requires Valid()
      modifies this, sinks.Values
      ensures View() == TransportLost(old(View()), reason, at, lost, w)
    {
      hide CallAll, OpenGap;
      lastLost := Some(lost);
      if stopped || storageFailed { return; }
      LowerReady(reason, at, w);
      OpenGapRow(at, lost, w.gap);
    }

    method LowerReady(reason: TransportReason, at: int, w: Writes)
      requires Valid()
      modifies this`ready, this`storageFailed, sinks.Values
      ensures View() == (var r := old(View()); CallAll(r, r.ready, TransportError(reason), at, w).(ready := r.ready - r.sinks.Keys))
    {
      hide CallAll;
      assert View().sinks.Keys == sinks.Keys;
      CallEach(ready, TransportError(reason), at, w);
      ready := ready - sinks.Keys;
    }

    method OpenGapRow(at: int, lost: nat, w: Write)
      modifies this`openGap, this`gaps, this`storageFailed, this`nextGap
      ensures View() == OpenGap(old(View()), at, lost, w)
    {
      if openGap.Some? { return; }
      var id := nextGap;
      if w != Failed {
        gaps := gaps + [Opened(id, at, lost)];
        nextGap := id + 1;
      }
      if w == Committed { openGap := Some(id); } else { storageFailed := true; }
    }

    method Route(d: Delivery, at: int, submission: Submission, w: Writes)
      requires Valid()
      modifies this, sinks.Values
      ensures View() == Dispatch(old(View()), d, at, submission, w)
    {
      hide CallAll;
      assert View().sinks.Keys == sinks.Keys;
      calls := calls + [d];
      if stopped || storageFailed || d.source !in sinks { return; }
      if d.revocation {
        LowerRevoked(d.source, at, w);
      } else {
        CallEach({d.source}, Submit(submission), at, w);
      }
    }

    method LowerRevoked(source: Source, at: int, w: Writes)
      requires Valid()
      modifies this`ready, this`storageFailed, sinks.Values
      ensures View() == (var r := old(View()); CallAll(r, {source}, TransportError(SubscriptionRevoked), at, w).(ready := r.ready - {source}))
    {
      hide CallAll;
      CallEach({source}, TransportError(SubscriptionRevoked), at, w);
      ready := ready - {source};
    }

    method StopSinks(at: int, w: Writes)
      requires Valid()
      modifies this, sinks.Values
      ensures View() == StopAll(old(View()), at, w)
    {
      hide CallAll;
      if stopped || storageFailed { return; }
      stopped := true;
      assert View().sinks.Keys == sinks.Keys;
      CallEach(sinks.Keys, Stop, at, w);
    }
  }

  // ----- one sink after another -----

  function CalledSoFar(order: seq<Source>, k: nat, chosen: set<Source>): set<Source>
    requires k <= |order|
  {
    set s | s in chosen && s in order[..k]
  }

  lemma NobodyCalled(r: Router, op: Op, at: int, w: Writes)
    ensures CallAll(r, {}, op, at, w) == r
  {
    NoneCalled(r.sinks, op, at, w);
  }

  lemma EverybodyCalled(r: Router, done: set<Source>, chosen: set<Source>, op: Op, at: int, w: Writes)
    requires forall s :: s in r.sinks ==> (s in done <==> s in chosen)
    ensures CallAll(r, done, op, at, w) == CallAll(r, chosen, op, at, w)
  {
    AllCalled(r.sinks, done, chosen, op, at, w);
  }

  lemma NoneInOrder(order: seq<Source>, chosen: set<Source>)
    ensures CalledSoFar(order, 0, chosen) == {}
  {
  }

  lemma AllInOrder(order: seq<Source>, chosen: set<Source>)
    ensures forall s :: s in CalledSoFar(order, |order|, chosen) <==> s in chosen && s in order
  {
    assert order[..|order|] == order;
  }

  lemma NextInOrder(order: seq<Source>, k: nat, chosen: set<Source>)
    requires k < |order| && forall i, j :: 0 <= i < j < |order| ==> order[i] != order[j]
    ensures order[k] !in CalledSoFar(order, k, chosen) && order[k] in order
    ensures CalledSoFar(order, k + 1, chosen) == if order[k] in chosen then CalledSoFar(order, k, chosen) + {order[k]} else CalledSoFar(order, k, chosen)
  {
  }

  lemma NoneCalled(sinks: map<Source, Sink>, op: Op, at: int, w: Writes)
    ensures ApplyTo(sinks, {}, op, at, w) == sinks && !AnyFails(sinks, {}, op, at, w)
  {
  }

  lemma CalledOne(sinks: map<Source, Sink>, done: set<Source>, source: Source, op: Op, at: int, w: Writes)
    requires source in sinks && source !in done
    ensures ApplyTo(sinks, done, op, at, w).Keys == sinks.Keys && ApplyTo(sinks, done, op, at, w)[source] == sinks[source]
    ensures ApplyTo(sinks, done + {source}, op, at, w)
            == ApplyTo(sinks, done, op, at, w)[source := Apply(sinks[source], op, at, w.For(source)).sink]
    ensures AnyFails(sinks, done + {source}, op, at, w)
            <==> AnyFails(sinks, done, op, at, w) || Apply(sinks[source], op, at, w.For(source)).error == StorageError
  {
  }

  lemma AnyReadyKeys(r: Router, session: Session)
    ensures AnyReady(r, session) == exists s :: s in r.sinks.Keys && SourceReady(session, s)
  {
  }

  lemma AllCalled(sinks: map<Source, Sink>, done: set<Source>, chosen: set<Source>, op: Op, at: int, w: Writes)
    requires forall s :: s in sinks ==> (s in done <==> s in chosen)
    ensures ApplyTo(sinks, done, op, at, w) == ApplyTo(sinks, chosen, op, at, w)
    ensures AnyFails(sinks, done, op, at, w) == AnyFails(sinks, chosen, op, at, w)
  {
  }
}
