/** Per-source health (scripts/event_sink.py): EventSink for raids and follows, ChatSink when
    `chat` is set. Health rows are written only on change. */
module EventSink {
  import opened Common

  datatype TransportReason =
    NetworkError | KeepaliveTimeout | SubscriptionError | SubscriptionRevoked | AuthError | ClockUncertain | OtherReason

  datatype Reason =
    | Initializing | CaptureReady | AwaitingStreamStatus | OfflineObserved | PollFailed | PollStale
    | InvalidNotification | OrderlyShutdown | Transport(reason: TransportReason)

  datatype Health = Health(status: Status, reason: Reason)

  datatype Polling = Awaiting | PolledLive | PolledOffline | PolledFailed | PolledStale

  /** A committed collection_health row of this run and source. */
  datatype Row = Row(health: Health, observedAt: int)

  /** Outcome of a write: it commits, it fails, or the commit is uncertain: the source sees a
      StorageError although the row is there. */
  datatype Write = Committed | Failed | Uncertain

  datatype Sink = Sink(chat: bool, health: Option<Health>, transportReady: bool, processingError: bool,
                       stopped: bool, polling: Polling, log: seq<Row>)

  function NewSink(chat: bool): Sink { Sink(chat, None, false, false, false, Awaiting, []) }

  datatype Error = NoError | StorageError | Misuse

  datatype Done = Done(sink: Sink, error: Error)

  /** What happened to a notification before health is reconciled: the body was invalid, chat
      eligibility dropped it, or it was persisted (raised: persistence or the follow-up that
      records a raid's enrichment intent failed). */
  datatype Submission = InvalidBody | Ineligible | Persisted(raised: bool)

  datatype Op =
    | Begin | TransportReady | TransportError(reason: TransportReason) | Submit(submission: Submission)
    | Stop | SetPolling(polling: Polling)

  function SetHealth(s: Sink, h: Health, at: int, w: Write): Done {
    if s.health == Some(h) then Done(s, NoError)
    else match w
      case Committed => Done(s.(health := Some(h), log := s.log + [Row(h, at)]), NoError)
      case Failed => Done(s, StorageError)
      case Uncertain => Done(s.(log := s.log + [Row(h, at)]), StorageError)
  }

  function PollingHealth(p: Polling): Health {
    match p
    case Awaiting => Health(Starting, AwaitingStreamStatus)
    case PolledLive => Health(Healthy, CaptureReady)
    case PolledOffline => Health(Paused, OfflineObserved)
    case PolledFailed => Health(Errored, PollFailed)
    case PolledStale => Health(Errored, PollStale)
  }

  /** The row a sink rests at while its transport is up and nothing is held against it. */
  function Resting(s: Sink): Health {
    if s.chat then PollingHealth(s.polling) else Health(Healthy, CaptureReady)
  }

  function Reconcile(s: Sink, at: int, w: Write): Done {
    if s.stopped || !s.transportReady || s.processingError then Done(s, NoError)
    else SetHealth(s, Resting(s), at, w)
  }

  function Apply(s: Sink, op: Op, at: int, w: Write): Done {
    match op
    case Begin => if s.stopped then Done(s, Misuse) else SetHealth(s, Health(Starting, Initializing), at, w)
    case TransportReady => if s.stopped then Done(s, NoError) else Reconcile(s.(transportReady := true), at, w)
    case TransportError(reason) =>
      if s.stopped then Done(s, NoError)
      else SetHealth(s.(transportReady := false),
                     Health(Errored, Transport(if reason == OtherReason then SubscriptionError else reason)), at, w)
    case Submit(InvalidBody) =>
      if s.stopped then Done(s, Misuse)
      else SetHealth(s.(processingError := true), Health(Errored, InvalidNotification), at, w)
    case Submit(Ineligible) => if s.stopped then Done(s, Misuse) else Done(s, NoError)
    case Submit(Persisted(raised)) =>
      if s.stopped then Done(s, Misuse)
      else if raised then Done(s, StorageError)
      else Reconcile(s.(processingError := false), at, w)
    case Stop => if s.stopped then Done(s, NoError) else SetHealth(s.(stopped := true), Health(Stopped, OrderlyShutdown), at, w)
    case SetPolling(p) => if s.stopped then Done(s, NoError) else Reconcile(s.(polling := p), at, w)
  }

  // ----- invariants -----

  ghost predicate NeverRepeats(log: seq<Row>) {
    forall i :: 0 < i < |log| ==> log[i].health != log[i - 1].health
  }

  ghost predicate LogIsHealth(s: Sink) {
    s.health == if s.log == [] then None else Some(s.log[|s.log| - 1].health)
  }

  /** With transport up, nothing held and not stopped, health is the resting row. */
  predicate Settled(s: Sink) {
    s.transportReady && !s.processingError && !s.stopped ==> s.health == Some(Resting(s))
  }

  ghost predicate SinkInv(s: Sink) {
    && NeverRepeats(s.log) && LogIsHealth(s) && Settled(s)
    && (s.stopped ==> s.health == Some(Health(Stopped, OrderlyShutdown)))
  }

  /** A call appends at most one row, at its own time. */
  lemma ApplyAppends(s: Sink, op: Op, at: int, w: Write)
    ensures var d := Apply(s, op, at, w).sink;
            d.log == s.log || (|d.log| == |s.log| + 1 && d.log[..|s.log|] == s.log && d.log[|s.log|].observedAt == at)
    ensures var d := Apply(s, op, at, w);
            d.sink.log != s.log ==> s.health != Some(d.sink.log[|s.log|].health)
    ensures var d := Apply(s, op, at, w);
            d.error == NoError ==> d.sink.health == if d.sink.log == s.log then s.health else Some(d.sink.log[|s.log|].health)
  {
    hide SetHealth, Reconcile;
    var u := Prepared(s, op);
    ReconcileAppends(u, at, w);
    forall h ensures Appends(u, SetHealth(u, h, at, w), at) { SetHealthAppends(u, h, at, w); }
    PreparedLog(s, op);
  }

  /** The flags an operation sets before its health write. */
  function Prepared(s: Sink, op: Op): Sink {
    match op
    case TransportReady => s.(transportReady := true)
    case TransportError(_) => s.(transportReady := false)
    case Submit(InvalidBody) => s.(processingError := true)
    case Submit(Persisted(_)) => s.(processingError := false)
    case Stop => s.(stopped := true)
    case SetPolling(p) => s.(polling := p)
    case _ => s
  }

  lemma PreparedLog(s: Sink, op: Op)
    ensures Prepared(s, op).log == s.log && Prepared(s, op).health == s.health
  {
  }

  /** At most one row, at its time, other than the health in force. */
  predicate Appends(s: Sink, d: Done, at: int) {
    && (d.sink.log == s.log || (|d.sink.log| == |s.log| + 1 && d.sink.log[..|s.log|] == s.log && d.sink.log[|s.log|].observedAt == at
                                && s.health != Some(d.sink.log[|s.log|].health)))
    && (d.error == NoError ==> d.sink.health == if d.sink.log == s.log then s.health else Some(d.sink.log[|s.log|].health))
  }

  lemma SetHealthAppends(s: Sink, h: Health, at: int, w: Write)
    ensures Appends(s, SetHealth(s, h, at, w), at)
  {
  }

  lemma ReconcileAppends(s: Sink, at: int, w: Write)
    ensures Appends(s, Reconcile(s, at, w), at)
  {
    hide SetHealth;
    SetHealthAppends(s, Resting(s), at, w);
  }

  lemma ApplySettles(s: Sink, op: Op, at: int, w: Write)
    requires Settled(s) && (s.stopped ==> s.health == Some(Health(Stopped, OrderlyShutdown)))
    requires op == Begin ==> !s.transportReady
    ensures var d := Apply(s, op, at, w);
            d.error == NoError ==>
              Settled(d.sink) && (d.sink.stopped ==> d.sink.health == Some(Health(Stopped, OrderlyShutdown)))
    ensures var d := Apply(s, op, at, w);
            d.error != NoError && w != Uncertain ==> d.sink.log == s.log
  {
  }

  /** begin() is the first call of a sink; every other call keeps the invariant unless it
      raised, and a call that raised changed the log only if its commit was uncertain. */
  lemma ApplyKeepsInv(s: Sink, op: Op, at: int, w: Write)
    requires SinkInv(s) && (op == Begin ==> !s.transportReady)
    ensures var d := Apply(s, op, at, w);
            && (d.error == NoError ==> SinkInv(d.sink))
            && (d.error != NoError && w != Uncertain ==> d.sink.log == s.log)
            && s.log <= d.sink.log
  {
    hide Apply, Settled;
    ApplySettles(s, op, at, w);
    ApplyAppends(s, op, at, w);
  }

  /** Polling changes write nothing while transport is down or an error is held. */
  lemma PollingIsSilent(s: Sink, p: Polling, at: int, w: Write)
    requires !s.transportReady || s.processingError || s.stopped
    ensures var d := Apply(s, SetPolling(p), at, w);
            d.error == NoError && d.sink.log == s.log && d.sink.health == s.health
  {
  }

  // ----- what each call does -----

  /** At rest a raid or follow sink is healthy; a chat sink is healthy exactly while the last
      poll found the stream live, paused while it found it offline, starting before any poll,
      and in error, for its own reason, when a poll failed or none came for too long. */
  lemma RestingMeaning(s: Sink)
    ensures Resting(s).status == Healthy <==> (s.chat ==> s.polling == PolledLive)
    ensures Resting(s).status == Healthy ==> Resting(s).reason == CaptureReady
    ensures Resting(s) == Health(Paused, OfflineObserved) <==> s.chat && s.polling == PolledOffline
    ensures Resting(s) == Health(Starting, AwaitingStreamStatus) <==> s.chat && s.polling == Awaiting
    ensures Resting(s) == Health(Errored, PollFailed) <==> s.chat && s.polling == PolledFailed
    ensures Resting(s) == Health(Errored, PollStale) <==> s.chat && s.polling == PolledStale
  {
  }

  /** A call whose write commits leaves a running sink with exactly these flags and health: a
      transport or notification error is recorded at once, and anything that clears what was
      held brings the resting row back if nothing else is held. */
  lemma CallEffects(s: Sink, op: Op, at: int)
    requires !s.stopped && op != Submit(Persisted(true))
    ensures var d := Apply(s, op, at, Committed);
            var t, up := d.sink, d.sink.transportReady && !d.sink.processingError;
            && d.error == NoError && t.chat == s.chat && (t.stopped <==> op == Stop)
            && t.transportReady == (op == TransportReady || (s.transportReady && !op.TransportError?))
            && t.processingError == (op == Submit(InvalidBody) || (s.processingError && op != Submit(Persisted(false))))
            && t.polling == (if op.SetPolling? then op.polling else s.polling)
            && t.health == match op
                           case Begin => Some(Health(Starting, Initializing))
                           case Stop => Some(Health(Stopped, OrderlyShutdown))
                           case TransportError(reason) => Some(Health(Errored, Transport(if reason == OtherReason then SubscriptionError else reason)))
                           case Submit(InvalidBody) => Some(Health(Errored, InvalidNotification))
                           case Submit(Ineligible) => s.health
                           case _ => if up then Some(Resting(t)) else s.health
  {
  }

  /** When the write does not commit, the call raises exactly if there was something to write;
      the flags are set all the same, the health in memory stays, and the row is there only if
      the commit was uncertain. */
  lemma UncommittedWrite(s: Sink, op: Op, at: int, w: Write)
    requires !s.stopped && op != Submit(Persisted(true)) && w != Committed
    ensures var d, c := Apply(s, op, at, w), Apply(s, op, at, Committed);
            && d.error == (if c.sink.health == s.health then NoError else StorageError)
            && d.sink == c.sink.(health := s.health, log := if w == Uncertain then c.sink.log else s.log)
  {
    hide SetHealth, Reconcile;
    var u := Prepared(s, op);
    PreparedLog(s, op);
    forall h ensures Uncommitted(u, SetHealth(u, h, at, w), SetHealth(u, h, at, Committed), w) { SetUncommitted(u, h, at, w); }
    ReconcileUncommitted(u, at, w);
  }

  predicate Uncommitted(s: Sink, d: Done, c: Done, w: Write) {
    && d.error == (if c.sink.health == s.health then NoError else StorageError) && c.error == NoError
    && d.sink == c.sink.(health := s.health, log := if w == Uncertain then c.sink.log else s.log)
  }

  lemma SetUncommitted(s: Sink, h: Health, at: int, w: Write)
    requires w != Committed
    ensures Uncommitted(s, SetHealth(s, h, at, w), SetHealth(s, h, at, Committed), w)
  {
  }

  lemma ReconcileUncommitted(s: Sink, at: int, w: Write)
    requires w != Committed
    ensures Uncommitted(s, Reconcile(s, at, w), Reconcile(s, at, Committed), w)
  {
    hide SetHealth, Resting;
    SetUncommitted(s, Resting(s), at, w);
  }

  /** A failure to persist, or to record the follow-up, is a storage error that changes nothing;
      after a stop, begin and submit are misuse and everything else is ignored. */
  lemma CallRefused(s: Sink, op: Op, at: int, w: Write)
    ensures !s.stopped && op == Submit(Persisted(true)) ==> Apply(s, op, at, w) == Done(s, StorageError)
    ensures s.stopped ==> Apply(s, op, at, w) == Done(s, if op == Begin || op.Submit? then Misuse else NoError)
  {
  }

  datatype Call = Call(op: Op, at: int, write: Write)

  /** A run of calls, up to the first that raises. */
  function RunCalls(s: Sink, calls: seq<Call>): Sink
    decreases |calls|
  {
    if calls == [] then s
    else
      var d := Apply(s, calls[0].op, calls[0].at, calls[0].write);
      if d.error != NoError then d.sink else RunCalls(d.sink, calls[1..])
  }

  /** After a stop nothing is ever appended, whatever is called. */
  lemma {:induction false} NothingAfterStop(s: Sink, calls: seq<Call>)
    requires s.stopped
    ensures RunCalls(s, calls).log == s.log
    decreases |calls|
  {
    if calls != [] {
      var d := Apply(s, calls[0].op, calls[0].at, calls[0].write);
      if d.error == NoError { NothingAfterStop(d.sink, calls[1..]); }
    }
  }

  /** A sink whose transport is down writes no healthy row until transport_ready is called. */
  lemma {:induction false} NoHealthyWhileDown(s: Sink, calls: seq<Call>)
    requires !s.transportReady && forall x <- calls :: x.op != TransportReady
    ensures s.log <= RunCalls(s, calls).log
    ensures forall i :: |s.log| <= i < |RunCalls(s, calls).log| ==> RunCalls(s, calls).log[i].health.status != Healthy
    ensures !RunCalls(s, calls).transportReady
    decreases |calls|
  {
    if calls != [] {
      assert calls[0] in calls;
      var d := Apply(s, calls[0].op, calls[0].at, calls[0].write);
      if d.error == NoError { NoHealthyWhileDown(d.sink, calls[1..]); }
    }
  }

  /** A transport error does not survive a later transport recovery while a bad notification
      is held: health stays at the transport row, so it is not a function of the flags. */
  lemma HeldErrorKeepsTransportRow()
    ensures var bad := Apply(Apply(NewSink(false), TransportReady, 0, Committed).sink, Submit(InvalidBody), 1, Committed).sink;
            var back := Apply(Apply(bad, TransportError(NetworkError), 2, Committed).sink, TransportReady, 3, Committed).sink;
            && (bad.transportReady, bad.processingError, bad.stopped) == (back.transportReady, back.processingError, back.stopped)
            && bad.health == Some(Health(Errored, InvalidNotification))
            && back.health == Some(Health(Errored, Transport(NetworkError)))
  {
  }

  // ----- change-only logging loses nothing -----

  /** Health in force in memory at t: after every call made by t. */
  function HealthAt(s: Sink, calls: seq<Call>, t: int): Option<Health>
    decreases |calls|
  {
    if calls == [] || calls[0].at > t then s.health
    else HealthAt(Apply(s, calls[0].op, calls[0].at, calls[0].write).sink, calls[1..], t)
  }

  /** As-of lookup: the last row at or before t. */
  function LogAt(log: seq<Row>, t: int): Option<Health> {
    if log == [] then None
    else if log[|log| - 1].observedAt <= t then Some(log[|log| - 1].health)
    else LogAt(log[..|log| - 1], t)
  }

  predicate TimesNondecreasing(calls: seq<Call>) {
    forall i, j :: 0 <= i < j < |calls| ==> calls[i].at <= calls[j].at
  }

  ghost predicate AllSucceed(s: Sink, calls: seq<Call>)
    decreases |calls|
  {
    calls == [] ||
    (var d := Apply(s, calls[0].op, calls[0].at, calls[0].write); d.error == NoError && AllSucceed(d.sink, calls[1..]))
  }

  /** Every row after position n is later than t. */
  ghost predicate LaterRows(log: seq<Row>, n: nat, t: int) {
    n <= |log| && forall i :: n <= i < |log| ==> log[i].observedAt > t
  }

  lemma {:induction false} LaterRowsDoNotMatter(log: seq<Row>, n: nat, t: int)
    requires LaterRows(log, n, t)
    ensures LogAt(log, t) == LogAt(log[..n], t)
    decreases |log|
  {
    if n < |log| {
      LaterRowsDoNotMatter(log[..|log| - 1], n, t);
      assert log[..|log| - 1][..n] == log[..n];
    } else {
      assert log[..n] == log;
    }
  }

  lemma {:induction false} RowsComeFromCalls(s: Sink, calls: seq<Call>, t: int)
    requires AllSucceed(s, calls) && forall x <- calls :: x.at > t
    ensures s.log <= RunCalls(s, calls).log
    ensures LaterRows(RunCalls(s, calls).log, |s.log|, t)
    decreases |calls|
  {
    if calls != [] {
      assert calls[0] in calls;
      hide Apply;
      ApplyAppends(s, calls[0].op, calls[0].at, calls[0].write);
      var d := Apply(s, calls[0].op, calls[0].at, calls[0].write);
      RowsComeFromCalls(d.sink, calls[1..], t);
    }
  }

  lemma ApplyLog(s: Sink, op: Op, at: int, w: Write, t: int)
    requires LogIsHealth(s) && at <= t && forall r <- s.log :: r.observedAt <= t
    requires Apply(s, op, at, w).error == NoError
    ensures var d := Apply(s, op, at, w).sink; LogIsHealth(d) && forall r <- d.log :: r.observedAt <= t
  {
    hide Apply;
    ApplyAppends(s, op, at, w);
    var d := Apply(s, op, at, w).sink;
    assert d.log != s.log ==> d.log == s.log + [d.log[|s.log|]];
  }

  lemma {:induction false} LogFollowsHealth(s: Sink, calls: seq<Call>, t: int)
    requires AllSucceed(s, calls) && TimesNondecreasing(calls) && LogIsHealth(s)
    requires forall r <- s.log :: r.observedAt <= t
    ensures LogAt(RunCalls(s, calls).log, t) == HealthAt(s, calls, t)
    decreases |calls|
  {
    if calls == [] || calls[0].at > t {
      assert forall x <- calls :: x.at > t;
      RowsComeFromCalls(s, calls, t);
      LaterRowsDoNotMatter(RunCalls(s, calls).log, |s.log|, t);
      assert RunCalls(s, calls).log[..|s.log|] == s.log;
    } else {
      ApplyLog(s, calls[0].op, calls[0].at, calls[0].write, t);
      LogFollowsHealth(Apply(s, calls[0].op, calls[0].at, calls[0].write).sink, calls[1..], t);
    }
  }

  /** For any calls at nondecreasing times whose writes succeed, looking up the row log at any
      instant gives the health the sink had in memory at that instant. */
  lemma LogIsFaithful(chat: bool, calls: seq<Call>, t: int)
    requires AllSucceed(NewSink(chat), calls) && TimesNondecreasing(calls)
    ensures LogAt(RunCalls(NewSink(chat), calls).log, t) == HealthAt(NewSink(chat), calls, t)
  {
    LogFollowsHealth(NewSink(chat), calls, t);
  }

  /** And no two adjacent rows are equal. */
  lemma {:induction false} RunKeepsInv(s: Sink, calls: seq<Call>)
    requires SinkInv(s) && AllSucceed(s, calls) && forall i :: 0 <= i < |calls| && calls[i].op == Begin ==> i == 0 && !s.transportReady
    ensures SinkInv(RunCalls(s, calls))
    decreases |calls|
  {
    if calls != [] {
      ApplyKeepsInv(s, calls[0].op, calls[0].at, calls[0].write);
      RunKeepsInv(Apply(s, calls[0].op, calls[0].at, calls[0].write).sink, calls[1..]);
    }
  }

  lemma {:induction false} RowTimesOrdered(s: Sink, calls: seq<Call>)
    requires AllSucceed(s, calls) && TimesNondecreasing(calls)
    requires forall i, j :: 0 <= i < j < |s.log| ==> s.log[i].observedAt <= s.log[j].observedAt
    requires calls != [] ==> forall r <- s.log :: r.observedAt <= calls[0].at
    ensures forall i, j :: 0 <= i < j < |RunCalls(s, calls).log|
                           ==> RunCalls(s, calls).log[i].observedAt <= RunCalls(s, calls).log[j].observedAt
    decreases |calls|
  {
    if calls != [] {
      hide Apply;
      ApplyAppends(s, calls[0].op, calls[0].at, calls[0].write);
      RowTimesOrdered(Apply(s, calls[0].op, calls[0].at, calls[0].write).sink, calls[1..]);
    }
  }

  // ----- a sink that one run of calls explains -----

  ghost predicate RunReaches(calls: seq<Call>, s: Sink, chat: bool, t: int) {
    && AllSucceed(NewSink(chat), calls) && RunCalls(NewSink(chat), calls) == s
    && TimesNondecreasing(calls) && forall c <- calls :: c.at <= t
  }

  /** Some successful calls, at times that never decrease and are not after t, lead to this sink. */
  ghost predicate Replayed(s: Sink, chat: bool, t: int) { exists calls :: RunReaches(calls, s, chat, t) }

  lemma {:induction false} OneMoreCall(s: Sink, calls: seq<Call>, c: Call)
    requires AllSucceed(s, calls) && Apply(RunCalls(s, calls), c.op, c.at, c.write).error == NoError
    ensures AllSucceed(s, calls + [c]) && RunCalls(s, calls + [c]) == Apply(RunCalls(s, calls), c.op, c.at, c.write).sink
    decreases |calls|
  {
    hide Apply;
    if calls == [] {
      assert calls + [c] == [c] && [c][1..] == [];
    } else {
      assert (calls + [c])[1..] == calls[1..] + [c];
      OneMoreCall(Apply(s, calls[0].op, calls[0].at, calls[0].write).sink, calls[1..], c);
    }
  }

  lemma ReplayedCall(s: Sink, chat: bool, t: int, op: Op, at: int, w: Write)
    requires Replayed(s, chat, t) && t <= at && Apply(s, op, at, w).error == NoError
    ensures Replayed(Apply(s, op, at, w).sink, chat, at)
  {
    hide Apply, RunCalls, AllSucceed;
    var calls :| RunReaches(calls, s, chat, t);
    OneMoreCall(NewSink(chat), calls, Call(op, at, w));
    assert RunReaches(calls + [Call(op, at, w)], Apply(s, op, at, w).sink, chat, at);
  }

  lemma ReplayedLater(s: Sink, chat: bool, t: int, u: int)
    requires Replayed(s, chat, t) && t <= u
    ensures Replayed(s, chat, u)
  {
    var calls :| RunReaches(calls, s, chat, t);
    assert RunReaches(calls, s, chat, u);
  }

  lemma ReplayedBegin(chat: bool, at: int, w: Write)
    requires Apply(NewSink(chat), Begin, at, w).error == NoError
    ensures Replayed(Apply(NewSink(chat), Begin, at, w).sink, chat, at)
  {
    assert RunReaches([], NewSink(chat), chat, at);
    ReplayedCall(NewSink(chat), chat, at, Begin, at, w);
  }

  // ----- the class -----

  class EventSink {
    const chat: bool
    var health: Option<Health>
    var transportReady: bool
    var processingError: bool
    var stopped: bool
    var polling: Polling
    /** Rows committed for this run and source. */
    ghost var log: seq<Row>

    ghost function View(): Sink
      reads this
    {
      Sink(chat, health, transportReady, processingError, stopped, polling, log)
    }

    constructor (chat: bool)
      ensures View() == NewSink(chat)
    {
      this.chat := chat;
      health, transportReady, processingError, stopped, polling, log := None, false, false, false, Awaiting, [];
    }

    method SetHealthRow(h: Health, at: int, w: Write) returns (error: Error)
      modifies this
      ensures Done(View(), error) == SetHealth(old(View()), h, at, w)
    {
      if health == Some(h) { return NoError; }
      match w
      case Committed => health := Some(h); log := log + [Row(h, at)]; error := NoError;
      case Failed => error := StorageError;
      case Uncertain => log := log + [Row(h, at)]; error := StorageError;
    }

    method ReconcileHealth(at: int, w: Write) returns (error: Error)
      modifies this
      ensures Done(View(), error) == Reconcile(old(View()), at, w)
    {
      if stopped || !transportReady || processingError { return NoError; }
      if chat {
        error := SetHealthRow(PollingHealth(polling), at, w);
      } else {
        error := SetHealthRow(Health(Healthy, CaptureReady), at, w);
      }
    }

    method BeginRun(at: int, w: Write) returns (error: Error)
      modifies this
      ensures Done(View(), error) == Apply(old(View()), Begin, at, w)
    {
      if stopped { return Misuse; }
      error := SetHealthRow(Health(Starting, Initializing), at, w);
    }

    method MarkTransportReady(at: int, w: Write) returns (error: Error)
      modifies this
      ensures Done(View(), error) == Apply(old(View()), TransportReady, at, w)
    {
      if stopped { return NoError; }
      transportReady := true;
      error := ReconcileHealth(at, w);
    }

    method MarkTransportError(reason: TransportReason, at: int, w: Write) returns (error: Error)
      modifies this
      ensures Done(View(), error) == Apply(old(View()), TransportError(reason), at, w)
    {
      if stopped { return NoError; }
      var known := if reason == OtherReason then SubscriptionError else reason;
      transportReady := false;
      error := SetHealthRow(Health(Errored, Transport(known)), at, w);
    }

    method SubmitNotification(submission: Submission, at: int, w: Write) returns (error: Error)
      modifies this
      ensures Done(View(), error) == Apply(old(View()), Submit(submission), at, w)
    {
      if stopped { return Misuse; }
      match submission
      case InvalidBody =>
        processingError := true;
        error := SetHealthRow(Health(Errored, InvalidNotification), at, w);
      case Ineligible =>
        error := NoError;
      case Persisted(raised) =>
        if raised { return StorageError; }
        processingError := false;
        error := ReconcileHealth(at, w);
    }

    method StopSource(at: int, w: Write) returns (error: Error)
      modifies this
      ensures Done(View(), error) == Apply(old(View()), Stop, at, w)
    {
      if stopped { return NoError; }
      stopped := true;
      error := SetHealthRow(Health(Stopped, OrderlyShutdown), at, w);
    }

    method SetPollingState(p: Polling, at: int, w: Write) returns (error: Error)
      modifies this
      ensures Done(View(), error) == Apply(old(View()), SetPolling(p), at, w)
    {
      if stopped { return NoError; }
      polling := p;
      error := ReconcileHealth(at, w);
    }
  }
}
