/** What the router's calls do to sinks that are down, to the times of its rows, and once
    storage has failed (scripts/eventsub_router.py). */
module RouterGuarantees {
  import opened Common
  import opened EventSink
  import opened EventSub
  import opened EventRouter

  // ----- sinks that are down -----

  /** Rows were only added, none of them healthy. */
  ghost predicate NoHealthySince(a: seq<Row>, b: seq<Row>) {
    a <= b && forall i :: |a| <= i < |b| ==> b[i].health.status != Healthy
  }

  /** The source's sink is down and the router does not flag it. */
  predicate SinkDown(r: Router, s: Source) {
    s in r.sinks && !r.sinks[s].transportReady && s !in r.ready
  }

  ghost predicate StaysDown(r: Router, q: Router, s: Source) {
    SinkDown(r, s) ==> SinkDown(q, s) && NoHealthySince(r.sinks[s].log, q.sinks[s].log)
  }

  ghost predicate Muted(r: Router, q: Router, failed: set<Source>) { forall s :: s in failed ==> StaysDown(r, q, s) }

  lemma DownSinkStep(s: Sink, op: Op, at: int, w: Write)
    requires !s.transportReady && !op.TransportReady?
    ensures !Apply(s, op, at, w).sink.transportReady && NoHealthySince(s.log, Apply(s, op, at, w).sink.log)
  {
  }

  lemma CallMutes(r: Router, chosen: set<Source>, op: Op, at: int, w: Writes, ready: set<Source>, s: Source)
    requires SinkDown(r, s) && s !in ready && (op.TransportReady? ==> s !in chosen)
    ensures StaysDown(r, CallAll(r, chosen, op, at, w).(ready := ready), s)
  {
    hide Apply, AnyFails;
    if s in chosen { DownSinkStep(r.sinks[s], op, at, w.For(s)); }
  }

  lemma ObserveMutes(r: Router, session: Session, now: Reading, w: Writes)
    ensures Muted(r, Observe(r, session, now, w), session.failed)
  {
    hide Apply, AnyFails, CallAll;
    var newly := NewlyReady(r, session);
    forall s | s in session.failed && SinkDown(r, s) ensures StaysDown(r, Observe(r, session, now, w), s) {
      if !r.stopped && !r.storageFailed { CallMutes(r, newly, TransportReady, now.utc, w, r.ready + newly, s); }
    }
  }

  lemma LostMutes(r: Router, reason: TransportReason, at: int, lost: nat, w: Writes, failed: set<Source>)
    ensures Muted(r, TransportLost(r, reason, at, lost, w), failed)
  {
    hide Apply, AnyFails, CallAll;
    var noted := r.(lastLost := Some(lost));
    forall s | s in failed && SinkDown(r, s) ensures StaysDown(r, TransportLost(r, reason, at, lost, w), s) {
      if !r.stopped && !r.storageFailed { CallMutes(noted, r.ready, TransportError(reason), at, w, r.ready - r.sinks.Keys, s); }
    }
  }

  lemma DispatchMutes(r: Router, d: Delivery, at: int, submission: Submission, w: Writes, failed: set<Source>)
    ensures Muted(r, Dispatch(r, d, at, submission, w), failed)
  {
    hide Apply, AnyFails, ApplyTo;
    var noted := r.(calls := r.calls + [d]);
    forall s | s in failed && SinkDown(r, s) ensures StaysDown(r, Dispatch(r, d, at, submission, w), s) {
      if !r.stopped && !r.storageFailed && d.source in r.sinks {
        CallMutes(noted, {d.source}, TransportError(SubscriptionRevoked), at, w, r.ready - {d.source}, s);
        CallMutes(noted, {d.source}, Submit(submission), at, w, r.ready, s);
      }
    }
  }

  lemma PollingMutes(r: Router, polling: Polling, at: int, w: Write, failed: set<Source>)
    ensures Muted(r, SetChatPolling(r, polling, at, w), failed)
  {
    hide Apply;
    forall s | s in failed && SinkDown(r, s) ensures StaysDown(r, SetChatPolling(r, polling, at, w), s) {
      if s == Chat { DownSinkStep(r.sinks[s], SetPolling(polling), at, w); }
    }
  }

  // ----- the times of the rows -----

  function TimeOf(e: GapEvent): int {
    match e case Opened(_, at, _) => at case Resolved(_, now, _) => now.utc
  }

  /** Gap times never decrease and none is after t. */
  predicate GapTimes(gaps: seq<GapEvent>, t: int)
    decreases |gaps|
  {
    gaps == [] || (TimeOf(gaps[|gaps| - 1]) <= t && GapTimes(gaps[..|gaps| - 1], TimeOf(gaps[|gaps| - 1])))
  }

  /** Every sink is where some run of successful calls up to t leads. */
  ghost predicate SinksRun(sinks: map<Source, Sink>, t: int) { forall s :: s in sinks ==> Replayed(sinks[s], s == Chat, t) }

  /** While storage works, the sinks are explained too; an aborted write ends the explanation. */
  ghost predicate TimedTo(r: Router, t: int) {
    GapTimes(r.gaps, t) && (!r.storageFailed ==> SinksRun(r.sinks, t))
  }

  lemma TimedLater(r: Router, t: int, u: int)
    requires TimedTo(r, t) && t <= u
    ensures TimedTo(r, u)
  {
    if !r.storageFailed {
      forall s | s in r.sinks ensures Replayed(r.sinks[s], s == Chat, u) { ReplayedLater(r.sinks[s], s == Chat, t, u); }
    }
  }

  lemma GapAppended(gaps: seq<GapEvent>, e: GapEvent, t: int)
    requires GapTimes(gaps, t) && TimeOf(e) == t
    ensures GapTimes(gaps + [e], t)
  {
    assert (gaps + [e])[..|gaps|] == gaps;
  }

  predicate Running(sinks: map<Source, Sink>) { forall s :: s in sinks ==> !sinks[s].stopped }

  lemma OnlyStorageFails(s: Sink, op: Op, at: int, w: Write)
    requires !s.stopped
    ensures Apply(s, op, at, w).error != Misuse
  {
  }

  lemma CallsReplayed(sinks: map<Source, Sink>, chosen: set<Source>, op: Op, at: int, w: Writes)
    requires Running(sinks) && SinksRun(sinks, at) && !AnyFails(sinks, chosen, op, at, w)
    ensures SinksRun(ApplyTo(sinks, chosen, op, at, w), at)
  {
    hide Apply, Replayed;
    forall s | s in sinks && s in chosen ensures Replayed(Apply(sinks[s], op, at, w.For(s)).sink, s == Chat, at) {
      OnlyStorageFails(sinks[s], op, at, w.For(s));
      ReplayedCall(sinks[s], s == Chat, at, op, at, w.For(s));
    }
  }

  lemma CallTimes(r: Router, chosen: set<Source>, op: Op, at: int, w: Writes, ready: set<Source>)
    requires Running(r.sinks) && TimedTo(r, at)
    ensures TimedTo(CallAll(r, chosen, op, at, w).(ready := ready), at)
  {
    hide Apply, ApplyTo, AnyFails, SinksRun;
    if !r.storageFailed && !AnyFails(r.sinks, chosen, op, at, w) { CallsReplayed(r.sinks, chosen, op, at, w); }
  }

  /** What observe writes is written at now; without a ready source it writes nothing. */
  lemma ObserveTimes(r: Router, session: Session, now: Reading, w: Writes)
    requires Running(r.sinks) && TimedTo(r, now.utc)
    ensures TimedTo(Observe(r, session, now, w), now.utc)
  {
    hide Apply, CallAll, NewlyReady, AnyReady, SinksRun;
    var newly := NewlyReady(r, session);
    var called := CallAll(r, newly, TransportReady, now.utc, w).(ready := r.ready + newly);
    CallTimes(r, newly, TransportReady, now.utc, w, r.ready + newly);
    if called.openGap.Some? { GapAppended(called.gaps, Resolved(called.openGap.value, now, session), now.utc); }
  }

  lemma ObserveNothing(r: Router, session: Session, now: Reading, w: Writes)
    requires !AnyReady(r, session)
    ensures Observe(r, session, now, w) == r
  {
    assert NewlyReady(r, session) == {};
    NoneCalled(r.sinks, TransportReady, now.utc, w);
    assert r.ready + {} == r.ready;
  }

  lemma LostTimes(r: Router, reason: TransportReason, at: int, lost: nat, w: Writes)
    requires Running(r.sinks) && TimedTo(r, at)
    ensures TimedTo(TransportLost(r, reason, at, lost, w), at)
  {
    hide Apply, CallAll, SinksRun;
    var noted := r.(lastLost := Some(lost));
    CallTimes(noted, r.ready, TransportError(reason), at, w, r.ready - r.sinks.Keys);
    var called := CallAll(noted, r.ready, TransportError(reason), at, w).(ready := r.ready - r.sinks.Keys);
    GapAppended(called.gaps, Opened(called.nextGap, at, lost), at);
  }

  lemma DispatchTimes(r: Router, d: Delivery, at: int, submission: Submission, w: Writes)
    requires Running(r.sinks) && TimedTo(r, at)
    ensures TimedTo(Dispatch(r, d, at, submission, w), at)
  {
    hide Apply, CallAll, SinksRun;
    var noted := r.(calls := r.calls + [d]);
    CallTimes(noted, {d.source}, TransportError(SubscriptionRevoked), at, w, r.ready - {d.source});
    CallTimes(noted, {d.source}, Submit(submission), at, w, r.ready);
    assert CallAll(noted, {d.source}, Submit(submission), at, w).(ready := r.ready) == CallAll(noted, {d.source}, Submit(submission), at, w) by {
      CallKeepsReady(noted, {d.source}, Submit(submission), at, w);
    }
  }

  lemma CallKeepsReady(r: Router, chosen: set<Source>, op: Op, at: int, w: Writes)
    ensures CallAll(r, chosen, op, at, w).ready == r.ready
  {
  }

  /** A polling write either raises or is one more call on the chat sink. */
  lemma PollingTimes(r: Router, polling: Polling, at: int, w: Write)
    requires Running(r.sinks) && TimedTo(r, at)
    requires Chat in r.sinks ==> Apply(r.sinks[Chat], SetPolling(polling), at, w).error != StorageError
    ensures TimedTo(SetChatPolling(r, polling, at, w), at)
  {
    hide Apply, Replayed;
    if Chat in r.sinks && !r.storageFailed {
      OnlyStorageFails(r.sinks[Chat], SetPolling(polling), at, w);
      ReplayedCall(r.sinks[Chat], true, at, SetPolling(polling), at, w);
    }
  }

  lemma BeginTimes(sources: set<Source>, at: int, w: Writes)
    ensures TimedTo(BeginAll(NewRouter(sources), at, w), at)
  {
    hide Apply, Replayed;
    var r := NewRouter(sources);
    if !BeginAll(r, at, w).storageFailed {
      forall s | s in sources ensures Replayed(Apply(r.sinks[s], Begin, at, w.For(s)).sink, s == Chat, at) {
        OnlyStorageFails(r.sinks[s], Begin, at, w.For(s));
        ReplayedBegin(s == Chat, at, w.For(s));
      }
    }
  }

  // ----- after a storage failure -----

  predicate PollingRow(h: Health) { exists p: Polling :: h == PollingHealth(p) }

  /** Only polling states can have changed the sink since. */
  ghost predicate PolledOnly(a: Sink, b: Sink) {
    && (a.chat, a.transportReady, a.processingError, a.stopped) == (b.chat, b.transportReady, b.processingError, b.stopped)
    && a.log <= b.log && (a.chat ==> forall i :: |a.log| <= i < |b.log| ==> PollingRow(b.log[i].health))
    && (!a.transportReady || a.processingError || a.stopped ==> b.log == a.log)
  }

  /** Once a write has failed, no gap row is written and only the chat sink changes, by polling
      states. */
  ghost predicate Frozen(r: Router, q: Router) {
    r.storageFailed ==>
      && q.storageFailed && q.gaps == r.gaps && q.openGap == r.openGap && q.ready == r.ready && q.sinks.Keys == r.sinks.Keys
      && (forall s :: s in r.sinks && s != Chat ==> q.sinks[s] == r.sinks[s])
      && (Chat in r.sinks ==> PolledOnly(r.sinks[Chat], q.sinks[Chat]))
  }

  lemma FrozenTransitive(r: Router, q: Router, u: Router)
    requires Frozen(r, q) && Frozen(q, u)
    ensures Frozen(r, u)
  {
  }

  lemma MutedTransitive(r: Router, q: Router, u: Router, failed: set<Source>, later: set<Source>)
    requires Muted(r, q, failed) && Muted(q, u, later) && failed <= later
    ensures Muted(r, u, failed)
  {
    forall s | s in failed ensures StaysDown(r, u, s) { assert StaysDown(r, q, s) && StaysDown(q, u, s); }
  }

  lemma CallsFreeze(r: Router, session: Session, now: Reading, reason: TransportReason, lost: nat, d: Delivery, submission: Submission, at: int, w: Writes)
    ensures Frozen(r, Observe(r, session, now, w)) && Frozen(r, TransportLost(r, reason, at, lost, w)) && Frozen(r, Dispatch(r, d, at, submission, w))
  {
    hide CallAll, NewlyReady, AnyReady, OpenGap, ResolveGap;
  }

  lemma PollingFreezes(r: Router, polling: Polling, at: int, w: Write)
    ensures Frozen(r, SetChatPolling(r, polling, at, w))
  {
  }
}
