/** What the polling half of the collector does, exactly, and when (scripts/collect_stream.py,
    scripts/event_sink.py): which chat messages are stored, and which poll opens eligibility. */
module CollectorProgress {
  import opened Common
  import opened EventSink
  import opened Collector
  import LiveStatus
  import ClockGuard

  // ----- the chat messages a pump stores -----

  /** The message was committed, is not older than the eligibility, and the last live poll is
      under 90 s old. */
  predicate IsAdmitted(since: Option<int>, lastPoll: Option<int>, tick: int, m: Message) {
    && m.committed && since.Some? && lastPoll.Some? && 0 <= tick - lastPoll.value < 90_000_000
    && since.value <= m.notificationAt && m.notificationAt <= m.receivedAt
  }

  /** One row for each message admitted, in order, naming the tracked stream. */
  function Admitted(tracked: Option<string>, since: Option<int>, lastPoll: Option<int>, tick: int, ms: seq<Message>): seq<ChatRow> {
    if ms == [] then []
    else
      (if tracked.Some? && IsAdmitted(since, lastPoll, tick, ms[0]) then [ChatRow(tracked.value, ms[0].notificationAt, ms[0].receivedAt)] else [])
      + Admitted(tracked, since, lastPoll, tick, ms[1..])
  }

  function AdmittedNow(c: Collector, ms: seq<Message>): seq<ChatRow> {
    Admitted(c.tracked, c.live.eligibleSince, c.live.lastPollTick, c.now.tick, ms)
  }

  /** The pump stores exactly the messages admitted at its tick. */
  lemma {:induction false} PumpStoresExactly(c: Collector, ms: seq<Message>)
    requires Inv(c)
    ensures ReceiveAll(c, ms).rows == c.rows + AdmittedNow(c, ms)
    decreases |ms|
  {
    if ms != [] {
      hide Inv, Receive;
      OneMessage(c, ms[0]);
      StoredMeansTrusted(c, ms[0]);
      var d := Receive(c, ms[0]);
      PumpStoresExactly(d, ms[1..]);
      if d.live != c.live { NoneAdmitted(c, ms[1..]); NoneAdmitted(d, ms[1..]); }
    }
  }

  lemma OneMessage(c: Collector, m: Message)
    requires Inv(c)
    ensures var d := Receive(c, m);
            && d.tracked == c.tracked && d.now == c.now
            && (d.live == c.live || (Shut(c) && Shut(d)))
            && d.rows == c.rows + (if c.tracked.Some? && IsAdmitted(c.live.eligibleSince, c.live.lastPollTick, c.now.tick, m)
                                   then [ChatRow(c.tracked.value, m.notificationAt, m.receivedAt)] else [])
  {
  }

  /** No message can be admitted. */
  predicate Shut(c: Collector) {
    c.live.eligibleSince == None || c.live.lastPollTick == None || !(0 <= c.now.tick - c.live.lastPollTick.value < 90_000_000)
  }

  lemma {:induction false} NoneAdmitted(c: Collector, ms: seq<Message>)
    requires Shut(c)
    ensures AdmittedNow(c, ms) == []
    decreases |ms|
  {
    if ms != [] { NoneAdmitted(c, ms[1..]); }
  }

  /** The rows of the messages that the full poll history accepts. */
  ghost function AcceptedBy(p: seq<LiveStatus.Event>, tracked: Option<string>, tick: int, ms: seq<Message>): seq<ChatRow> {
    if ms == [] then []
    else
      (if ms[0].committed && tracked.Some? && LiveStatus.Accepts(p, tracked.value, ms[0].notificationAt, ms[0].receivedAt, tick)
       then [ChatRow(tracked.value, ms[0].notificationAt, ms[0].receivedAt)] else [])
      + AcceptedBy(p, tracked, tick, ms[1..])
  }

  /** In terms of any history of polls that leaves these fields: a message is stored exactly
      when it committed and the unbroken run of live polls at its end accepts it. */
  lemma PumpFollowsHistory(c: Collector, ms: seq<Message>, p: seq<LiveStatus.Event>)
    requires Inv(c) && LiveStatus.OnlyPolls(p) && LiveStatus.Replay(p) == c.live
    ensures ReceiveAll(c, ms).rows == c.rows + AcceptedBy(p, c.tracked, c.now.tick, ms)
  {
    hide Inv, LiveStatus.Accepts, LiveStatus.Replay;
    PumpStoresExactly(c, ms);
    SameAdmission(c, ms, p);
  }

  lemma {:induction false} SameAdmission(c: Collector, ms: seq<Message>, p: seq<LiveStatus.Event>)
    requires Inv(c) && LiveStatus.OnlyPolls(p) && LiveStatus.Replay(p) == c.live
    ensures AdmittedNow(c, ms) == AcceptedBy(p, c.tracked, c.now.tick, ms)
    decreases |ms|
  {
    if ms != [] {
      hide LiveStatus.Accepts, LiveStatus.Replay;
      SameAdmission(c, ms[1..], p);
      if c.tracked.Some? { LiveStatus.FieldsAnswerHistory(p, ms[0].notificationAt, ms[0].receivedAt, c.now.tick, c.tracked.value); }
    }
  }

  // ----- nothing but the pump stores -----

  lemma SampleRows(c: Collector, k: Clock)
    ensures Sample(c, k).c.rows == c.rows
  {
    hide Sample;
    SampleIsCautious(c, k);
  }

  lemma StaleRows(c: Collector, w: StaleInput)
    ensures CheckStale(c, w).c.rows == c.rows
  {
  }

  lemma LeadRows(c: Collector, i: StepInput)
    ensures Lead(c, i).c.rows == c.rows
  {
    hide Sample, CheckStale, Heartbeat;
    SampleRows(c, i.first);
    var d := Sample(c, i.first);
    if d.Go? {
      StaleRows(d.c, i.stale);
      var e := CheckStale(d.c, i.stale);
      if e.Go? {
        SampleRows(e.c, i.second);
        var f := Sample(e.c, i.second);
        if f.Go? { HeartbeatRows(f.c, i); }
      }
    }
  }

  lemma HeartbeatRows(c: Collector, i: StepInput)
    ensures Heartbeat(c, i).c.rows == c.rows
  {
    hide Sample, CheckStale;
    var d := c.(nextHeartbeat := c.now.tick + HEARTBEAT);
    SampleRows(d, i.third);
    var e := Sample(d, i.third);
    if e.Go? { StaleRows(e.c, i.staleAgain); }
  }

  lemma GiveUpRows(c: Collector, chat: bool, stale: StaleInput)
    ensures GiveUp(c, chat, stale).c.rows == c.rows
  {
    hide CheckStale;
    var d := Fail(c, chat);
    StaleRows(d.c, stale);
  }

  lemma ReconfirmRows(c: Collector, generation: nat, stream: Option<Stream>, observed: Reading, i: SaveInput)
    ensures Reconfirm(c, generation, stream, observed, i).c.rows == c.rows
  {
    hide Sample, GiveUp;
    SampleRows(c, i.last);
    var d := Sample(c, i.last);
    if d.Go? { GiveUpRows(d.c, i.chat, i.staleLast); }
  }

  lemma ConfirmRows(c: Collector, generation: nat, stream: Option<Stream>, observed: Reading, i: SaveInput)
    ensures Confirm(c, generation, stream, observed, i).c.rows == c.rows
  {
    hide Sample, CheckStale, GiveUp, Reconfirm;
    SampleRows(c, i.between);
    var d := Sample(c, i.between);
    if d.Go? {
      StaleRows(d.c, i.staleBetween);
      var e := CheckStale(d.c, i.staleBetween);
      if e.Go? {
        GiveUpRows(e.c, i.chat, i.staleLast);
        ReconfirmRows(e.c.(lastSuccess := Some(observed), staleReported := false), generation, stream, observed, i);
      }
    }
  }

  lemma ConsumeRows(c: Collector, r: PollResult, w: StaleInput, save: SaveInput)
    ensures Consume(c, r, w, save).c.rows == c.rows
  {
    hide Confirm;
    var d := Record(c, r.stream, save.row);
    if r.observed.Some? { ConfirmRows(d.c, c.generation, r.stream, r.observed.value, save); }
  }

  lemma PollRows(c: Collector, i: StepInput)
    ensures Poll(c, i).c.rows == c.rows
  {
    hide Sample, CheckStale, Consume;
    var taken := c.(busy := false);
    SampleRows(taken, i.taken);
    if i.result.Some? { ConsumeRows(Sample(taken, i.taken).c, i.result.value, i.failed, i.save); }
    var d := Take(c, i);
    SampleRows(d.c, i.fourth);
    StaleRows(Sample(d.c, i.fourth).c, i.staleLast);
  }

  /** The state in which a step's messages are decided, if it gets that far. */
  function AtPump(c: Collector, i: StepInput): Option<Collector> {
    var d := Lead(c, i);
    if d.Halt? || i.stop then None
    else
      var e := Poll(d.c, i);
      if e.Halt? then None
      else
        var f := Sample(e.c, i.pump);
        if f.Halt? then None else Some(f.c)
  }

  function StepStored(c: Collector, i: StepInput): seq<ChatRow> {
    match AtPump(c, i) case None => [] case Some(d) => AdmittedNow(d, i.messages)
  }

  lemma StepStoresExactly(c: Collector, i: StepInput)
    requires Inv(c)
    ensures Step(c, i).c.rows == c.rows + StepStored(c, i)
  {
    hide Inv, Lead, Poll, Sample, AdmittedNow;
    LeadRows(c, i);
    LeadKeeps(c, i);
    var d := Lead(c, i);
    if d.Go? && !i.stop {
      PollRows(d.c, i);
      PollKeeps(d.c, i);
      var e := Poll(d.c, i);
      if e.Go? {
        SampleRows(e.c, i.pump);
        var f := Sample(e.c, i.pump);
        if f.Go? {
          SampleKeeps(e.c, i.pump);
          PumpStoresExactly(f.c, i.messages);
        }
      }
    }
  }

  function RunStored(c: Collector, inputs: seq<StepInput>): seq<ChatRow>
    decreases |inputs|
  {
    if inputs == [] then []
    else StepStored(c, inputs[0]) + (if Step(c, inputs[0]).Go? then RunStored(Step(c, inputs[0]).c, inputs[1..]) else [])
  }

  /** Over any run, halted or not, the rows stored are exactly the messages admitted at the
      tick of their pump, in order. */
  lemma {:induction false} RunStoresExactly(c: Collector, inputs: seq<StepInput>)
    requires Inv(c)
    ensures RunOf(c, inputs).c.rows == c.rows + RunStored(c, inputs)
    decreases |inputs|
  {
    hide Inv, Step, StepStored;
    if inputs != [] {
      StepStoresExactly(c, inputs[0]);
      StepKeeps(c, inputs[0]);
      var d := Step(c, inputs[0]);
      if d.Go? { RunStoresExactly(d.c, inputs[1..]); }
    }
  }

  // ----- a poll that saw the stream live opens eligibility -----

  /** A reading with no gap before it just becomes the current one. */
  lemma QuietIs(c: Collector, k: Clock)
    requires c.previous == Some(c.now) && Quiet(c.now, k)
    ensures Sample(c, k) == Go(c.(previous := Some(k.readings[0]), now := k.readings[0]))
    ensures c.now.tick <= k.readings[0].tick && c.now.utc <= k.readings[0].utc
  {
    ClockGuard.QuietIff(c.now, k.readings);
  }

  predicate Saves(w: StaleInput) { w.health && w.chat }

  /** With working writes a staleness check goes on; ninety seconds after the last saved poll
      nothing is eligible. */
  lemma StaleIs(c: Collector, w: StaleInput)
    requires Saves(w)
    ensures var r := CheckStale(c, w);
            && r == Go(c.(live := r.c.live, polling := r.c.polling, staleReported := r.c.staleReported))
            && r.c.live == if c.now.tick - Baseline(c).tick >= 90_000_000 || c.now.utc - Baseline(c).utc >= 90_000_000 then LiveStatus.NotLive else c.live
    ensures Age(c.now, Baseline(c)) < STALE ==> CheckStale(c, w) == Go(c)
  {
  }

  /** What a saved live poll leaves: eligible since the poll, or since before if the eligibility
      in force named the same stream, was not stale, and was polled under 90 s before. */
  predicate Opened(c: Collector, s: Stream, observed: Reading, i: SaveInput, d: Collector) {
    var stale := i.between.readings[0].tick - Baseline(c).tick >= 90_000_000 || i.between.readings[0].utc - Baseline(c).utc >= 90_000_000;
    var kept := !stale && c.live.streamId == Some(s.id) && c.live.eligibleSince.Some? && c.live.lastPollTick.Some?
                && 0 <= observed.tick - c.live.lastPollTick.value < 90_000_000;
    && d.live == LiveStatus.Live(Some(s.id), if kept then c.live.eligibleSince else Some(observed.utc), Some(observed.tick))
    && d.polling == PolledLive && d.tracked == Some(s.id) && d.committed == c.committed + {s.id} && d.lastSuccess == Some(observed) && !d.staleReported
    && d.now == i.last.readings[0] && d.previous == Some(d.now)
    && d.busy == c.busy && d.rows == c.rows && d.generation == c.generation && d.nextPoll == c.nextPoll && d.started == c.started
  }

  predicate SaveWorks(i: SaveInput) { i.row && Saves(i.early) && Saves(i.staleBetween) && i.health && i.chat && Saves(i.staleLast) }

  /** With working writes and no clock gap, a live poll observed in time opens eligibility. */
  lemma LiveSave(c: Collector, s: Stream, observed: Reading, i: SaveInput)
    requires c.previous == Some(c.now) && Together(c.live) && ObservedInOrder(c, observed) && Opens(c, observed, Some(s), i) && s.id != "" && SaveWorks(i)
    ensures var r := Save(c, Some(observed), Some(s), i); r.Go? && Opened(c, s, observed, i, r.c)
  {
    hide Sample, CheckStale, Quiet, ObservedInOrder;
    var d := c.(tracked := Some(s.id), committed := c.committed + {s.id});
    QuietIs(d, i.between);
    var e := d.(previous := Some(i.between.readings[0]), now := i.between.readings[0]);
    StaleIs(e, i.staleBetween);
    var f := CheckStale(e, i.staleBetween).c.(lastSuccess := Some(observed), staleReported := false);
    QuietIs(f, i.last);
    AgeGrows(observed, c.now, e.now);
    AgeGrows(observed, e.now, i.last.readings[0]);
    hide Age;
  }

  /** Finding the stream offline closes eligibility and forgets the stream. */
  lemma OfflineSave(c: Collector, observed: Reading, i: SaveInput)
    requires c.previous == Some(c.now) && ObservedInOrder(c, observed) && SaveWorks(i)
    requires Quiet(c.now, i.between) && Quiet(i.between.readings[0], i.last) && Age(i.last.readings[0], observed) < STALE
    ensures var r := Save(c, Some(observed), None, i);
            r.Go? && r.c.live == LiveStatus.NotLive && r.c.polling == PolledOffline && r.c.tracked == None && r.c.committed == c.committed
            && r.c.lastSuccess == Some(observed) && r.c.rows == c.rows
  {
    hide Sample, CheckStale, Quiet, ObservedInOrder;
    var d := c.(tracked := None, live := LiveStatus.NotLive);
    QuietIs(d, i.between);
    var e := d.(previous := Some(i.between.readings[0]), now := i.between.readings[0]);
    StaleIs(e, i.staleBetween);
    var f := CheckStale(e, i.staleBetween).c.(lastSuccess := Some(observed), staleReported := false);
    QuietIs(f, i.last);
    AgeGrows(observed, c.now, e.now);
    AgeGrows(observed, e.now, i.last.readings[0]);
    hide Age;
  }

  /** A poll whose row does not commit ends the run: no stream becomes tracked, nothing eligible. */
  lemma PollNeedsItsRow(c: Collector, stream: Option<Stream>, observed: Reading, i: SaveInput)
    requires ObservedInOrder(c, observed) && Age(c.now, observed) < STALE && !i.row
    requires stream.Some? ==> stream.value.startedAt <= observed.utc
    requires stream == None ==> c.tracked.Some?
    ensures var r := Save(c, Some(observed), stream, i);
            r == Halt(if stream.Some? then c else c.(live := LiveStatus.NotLive), StorageFailure)
  {
    hide Confirm;
  }

  /** One whose health row does not commit ends it before chat becomes eligible. */
  lemma PollNeedsItsHealth(c: Collector, s: Stream, observed: Reading, i: SaveInput)
    requires c.previous == Some(c.now) && ObservedInOrder(c, observed) && Opens(c, observed, Some(s), i) && i.row && Saves(i.staleBetween) && !i.health
    ensures var r := Save(c, Some(observed), Some(s), i); r.Halt? && r.why == StorageFailure && (r.c.live == c.live || r.c.live == LiveStatus.NotLive)
  {
    hide Sample, CheckStale, Quiet, ObservedInOrder;
    var d := c.(tracked := Some(s.id), committed := c.committed + {s.id});
    QuietIs(d, i.between);
    var e := d.(previous := Some(i.between.readings[0]), now := i.between.readings[0]);
    StaleIs(e, i.staleBetween);
    AgeGrows(observed, c.now, e.now);
    QuietIs(e, i.last);
    AgeGrows(observed, e.now, i.last.readings[0]);
    hide Age;
  }

  /** A poll observed outside its own job's time ends the run; one observed too long ago, or of
      a stream that starts in the future, only closes eligibility. */
  lemma PollNotSaved(c: Collector, observed: Option<Reading>, stream: Option<Stream>, i: SaveInput)
    requires Saves(i.early)
    ensures var r, shut := Save(c, observed, stream, i), c.(live := LiveStatus.NotLive, polling := PolledFailed);
            && (observed == None || !ObservedInOrder(c, observed.value) ==> r == Halt(shut, ObservationInvalid))
            && (observed.Some? && ObservedInOrder(c, observed.value) && OldOrFuture(c.now, observed.value, stream) ==> r == Go(shut))
  {
    hide Confirm, Record;
  }

  predicate OldOrFuture(now: Reading, observed: Reading, stream: Option<Stream>) {
    || now.tick - observed.tick >= 90_000_000 || now.utc - observed.utc >= 90_000_000
    || (stream.Some? && stream.value.startedAt > observed.utc)
  }

  /** A result that is not saved closes eligibility; an internal or authorization error ends the
      run with it. */
  lemma ResultTaken(c: Collector, i: StepInput)
    requires c.previous == Some(c.now) && c.busy && i.result.Some? && Quiet(c.now, i.taken) && Saves(i.failed)
    ensures var t, r := c.(busy := false, previous := Some(i.taken.readings[0]), now := i.taken.readings[0]), i.result.value;
            var late := t.now.tick - c.jobStarted.tick >= 90_000_000 || t.now.utc - c.jobStarted.utc >= 90_000_000;
            match r.error
            case Some(Internal) => Take(c, i) == Halt(t, WorkerFailed)
            case Some(Blocked) => Take(c, i) == Halt(t.(live := LiveStatus.NotLive, polling := PolledFailed), AuthorizationBlocked)
            case Some(Transient) => Take(c, i) == Go(t.(live := LiveStatus.NotLive, polling := PolledFailed))
            case None => Take(c, i) == if c.discardJob || late then Go(t.(live := LiveStatus.NotLive, polling := PolledFailed))
                                       else Save(t, r.observed, r.stream, i.save)
  {
    hide Sample, Quiet, Save;
    QuietIs(c.(busy := false), i.taken);
  }

  /** A poll is started exactly when one is due, none is in flight and no stop is seen; it is
      the generation's own and not yet disowned. */
  lemma PollStartsIff(c: Collector, stop: bool)
    ensures var d := StartPoll(c, stop);
            && (d.busy <==> c.busy || (c.nextPoll <= c.now.tick && !stop))
            && (!c.busy && d.busy ==> d.jobStarted == c.now && d.jobGeneration == c.generation && !d.discardJob && !d.forceValidation)
            && d == c.(busy := d.busy, jobStarted := d.jobStarted, jobGeneration := d.jobGeneration, discardJob := d.discardJob,
                       forceValidation := d.forceValidation, nextPoll := d.nextPoll)
            && (d.busy == c.busy ==> d == c)
  {
  }

  /** A heartbeat is written exactly when thirty seconds have passed since the one before; if it
      cannot be, the run ends. */
  lemma HeartbeatIff(c: Collector, i: StepInput)
    requires c.previous == Some(c.now) && Quiet(c.now, i.third) && Saves(i.staleAgain)
    ensures c.now.tick < c.nextHeartbeat ==> Heartbeat(c, i) == Go(c)
    ensures c.now.tick >= c.nextHeartbeat && !i.heartbeat ==> Heartbeat(c, i) == Halt(c, StorageFailure)
    ensures c.now.tick >= c.nextHeartbeat && i.heartbeat ==>
              Heartbeat(c, i).Go? && Heartbeat(c, i).c.nextHeartbeat == c.now.tick + 30_000_000 && Heartbeat(c, i).c.now == i.third.readings[0]
  {
    hide Sample, CheckStale, Quiet;
    var d := c.(nextHeartbeat := c.now.tick + HEARTBEAT);
    QuietIs(d, i.third);
    StaleIs(d.(previous := Some(i.third.readings[0]), now := i.third.readings[0]), i.staleAgain);
  }

  /** The reading the lead of a step ends with: a heartbeat that is due takes one more. */
  function LeadReading(c: Collector, i: StepInput): Reading {
    if i.second.readings[0].tick >= c.nextHeartbeat then i.third.readings[0] else i.second.readings[0]
  }

  /** No clock gap before or during the step. */
  predicate Calm(c: Collector, i: StepInput) {
    && Quiet(c.now, i.first) && Quiet(i.first.readings[0], i.second) && (i.second.readings[0].tick >= c.nextHeartbeat ==> Quiet(i.second.readings[0], i.third))
    && Quiet(LeadReading(c, i), i.taken) && Quiet(i.taken.readings[0], i.save.between) && Quiet(i.save.between.readings[0], i.save.last)
    && Quiet(i.save.last.readings[0], i.fourth) && Quiet(i.fourth.readings[0], i.pump)
  }

  predicate Works(i: StepInput) {
    i.heartbeat && Saves(i.stale) && Saves(i.staleAgain) && Saves(i.failed) && SaveWorks(i.save) && Saves(i.staleLast)
  }

  /** What the lead of a calm step may change. */
  predicate Led(c: Collector, d: Collector) {
    d == c.(previous := d.previous, now := d.now, live := d.live, polling := d.polling, staleReported := d.staleReported, nextHeartbeat := d.nextHeartbeat)
    && (d.live == c.live || d.live == LiveStatus.NotLive) && d.previous == Some(d.now)
  }

  lemma CalmLead(c: Collector, i: StepInput)
    requires c.previous == Some(c.now) && Calm(c, i) && Works(i)
    ensures Lead(c, i).Go? && Led(c, Lead(c, i).c) && Lead(c, i).c.now == LeadReading(c, i)
  {
    hide Sample, CheckStale, Quiet, Saves, SaveWorks;
    QuietIs(c, i.first);
    var d := c.(previous := Some(i.first.readings[0]), now := i.first.readings[0]);
    StaleIs(d, i.stale);
    var e := CheckStale(d, i.stale).c;
    QuietIs(e, i.second);
    var f := e.(previous := Some(i.second.readings[0]), now := i.second.readings[0]);
    if f.now.tick >= f.nextHeartbeat {
      var g := f.(nextHeartbeat := f.now.tick + HEARTBEAT);
      QuietIs(g, i.third);
      StaleIs(g.(previous := Some(i.third.readings[0]), now := i.third.readings[0]), i.staleAgain);
    }
  }

  /** The poll in flight was dispatched since the last clock gap, is under 90 s old, and saw
      this stream live. */
  predicate SawLive(c: Collector, i: StepInput, s: Stream, observed: Reading) {
    && c.busy && !c.discardJob && i.result == Some(PollResult(Some(observed), Some(s), None))
    && s.id != "" && s.startedAt <= observed.utc
    && c.jobStarted.tick <= observed.tick <= i.taken.readings[0].tick && c.jobStarted.utc <= observed.utc <= i.taken.readings[0].utc
    && Age(i.taken.readings[0], c.jobStarted) < STALE && Age(i.pump.readings[0], observed) < STALE
  }

  /** In a calm step with working writes, taking such a poll makes its stream the one whose
      messages the same step's pump admits. */
  lemma LivePollOpens(c: Collector, i: StepInput, s: Stream, observed: Reading)
    requires Inv(c) && Calm(c, i) && Works(i) && !i.stop && SawLive(c, i, s, observed)
    ensures match AtPump(c, i)
            case None => false
            case Some(d) => d.live.streamId == Some(s.id) == d.tracked && d.live.lastPollTick == Some(observed.tick)
                            && d.live.eligibleSince.Some? && (d.live.eligibleSince == Some(observed.utc) || d.live.eligibleSince == c.live.eligibleSince)
                            && d.polling == PolledLive && s.id in d.committed && d.now == i.pump.readings[0]
                            && Step(c, i).c.rows == c.rows + AdmittedNow(d, i.messages) && (Step(c, i).Go? <==> !i.ended)
  {
    hide Sample, Lead, Poll, ReceiveAll, Calm, Works, Admitted, LeadReading, Together;
    StepStoresExactly(c, i);
    CalmLead(c, i);
    LeadKeeps(c, i);
    var d := Lead(c, i).c;
    CalmPoll(c, d, i, s, observed);
    var g := Poll(d, i).c;
    QuietIs(g, i.pump);
  }

  /** From the lead on: the poll is saved, still fresh, and the clock goes on. */
  lemma CalmPoll(c: Collector, d: Collector, i: StepInput, s: Stream, observed: Reading)
    requires Led(c, d) && d.now == LeadReading(c, i) && Together(d.live) && Calm(c, i) && Works(i) && SawLive(c, i, s, observed)
    ensures Poll(d, i).Go?
    ensures var g := Poll(d, i).c;
            && g.live.streamId == Some(s.id) == g.tracked && g.live.lastPollTick == Some(observed.tick) && g.live.eligibleSince.Some?
            && (g.live.eligibleSince == Some(observed.utc) || g.live.eligibleSince == c.live.eligibleSince)
            && g.polling == PolledLive && s.id in g.committed && g.previous == Some(g.now) && g.now == i.fourth.readings[0]
            && Quiet(g.now, i.pump)
  {
    hide Sample, Take, Save, CheckStale, StartPoll, Saves, SaveWorks, Opens, Quiet, Age, LeadReading, ObservedInOrder, Together;
    var t := d.(busy := false, previous := Some(i.taken.readings[0]), now := i.taken.readings[0]);
    ResultTaken(d, i);
    NotLate(c, i, s, observed);
    CalmSave(c, t, i, s, observed);
    LiveSave(t, s, observed, i.save);
    var e := Save(t, Some(observed), Some(s), i.save).c;
    QuietIs(e, i.fourth);
    var f := e.(previous := Some(i.fourth.readings[0]), now := i.fourth.readings[0]);
    StaleIs(f, i.staleLast);
    CalmAges(c, i, observed);
    PollStartsIff(f, i.stopAtPoll);
  }

  lemma NotLate(c: Collector, i: StepInput, s: Stream, observed: Reading)
    requires SawLive(c, i, s, observed)
    ensures i.taken.readings[0].tick - c.jobStarted.tick < 90_000_000 && i.taken.readings[0].utc - c.jobStarted.utc < 90_000_000
  {
  }

  lemma CalmSave(c: Collector, t: Collector, i: StepInput, s: Stream, observed: Reading)
    requires Calm(c, i) && SawLive(c, i, s, observed) && t.now == i.taken.readings[0] && t.jobStarted == c.jobStarted
    ensures ObservedInOrder(t, observed) && Opens(t, observed, Some(s), i.save)
  {
    hide Quiet, Age, LeadReading;
    CalmAges(c, i, observed);
  }

  lemma CalmAges(c: Collector, i: StepInput, observed: Reading)
    requires Calm(c, i) && Age(i.pump.readings[0], observed) < STALE
    ensures Age(i.save.last.readings[0], observed) < STALE && Age(i.fourth.readings[0], observed) < STALE
  {
    ClockGuard.QuietIff(i.save.last.readings[0], i.fourth.readings);
    ClockGuard.QuietIff(i.fourth.readings[0], i.pump.readings);
    hide Age, LeadReading;
    AgeGrows(observed, i.fourth.readings[0], i.pump.readings[0]);
    AgeGrows(observed, i.save.last.readings[0], i.fourth.readings[0]);
  }
}
