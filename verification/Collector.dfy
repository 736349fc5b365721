/** Observed-live eligibility in the polling half of the collector (scripts/collect_stream.py):
    viewer polls, staleness, clock gaps and the chat messages they admit. Chat is a configured
    source. */
module Collector {
  import opened Common
  import opened EventSink
  import LiveStatus
  import ClockGuard

  const POLL := 60_000_000
  const HEARTBEAT := 30_000_000
  const STALE := 90_000_000

  /** The readings one call of the clock guard may take. */
  type Readings = r: seq<Reading> | ClockGuard.Enough(r) witness seq(ClockGuard.RECOVERY_WAITS + 1, i => Reading(0, 0))

  datatype Why = StorageFailure | ClockFault | WorkerFailed | AuthorizationBlocked | ObservationInvalid | EmptyStreamId | ProbeEnded

  datatype Stream = Stream(id: string, startedAt: int)

  datatype PollError = Transient | Blocked | Internal

  datatype PollResult = PollResult(observed: Option<Reading>, stream: Option<Stream>, error: Option<PollError>)

  /** A chat row: the stream it references and the times its eligibility was decided on. */
  datatype ChatRow = ChatRow(stream: string, notificationAt: int, receivedAt: int)

  /** now is the latest reading of the guard. committed, jobGeneration, openGeneration and rows
      are history: the streams whose row was committed in this run, the generation when the
      poll in flight was dispatched and when the poll that opened the current eligibility was,
      the chat rows stored, and every clock gap the guard reported. */
  datatype Collector = Collector(
    previous: Option<Reading>, now: Reading, live: LiveStatus.Live, polling: Polling, tracked: Option<string>,
    started: Reading, lastSuccess: Option<Reading>, staleReported: bool, discardJob: bool, forceValidation: bool,
    generation: nat, nextPoll: int, nextHeartbeat: int, jobStarted: Reading, busy: bool,
    committed: set<string>, jobGeneration: nat, openGeneration: nat, rows: seq<ChatRow>,
    gaps: seq<Reading>)

  datatype Res = Go(c: Collector) | Halt(c: Collector, why: Why) {
    predicate IsFailure() { Halt? }
    function PropagateFailure(): Res
      requires Halt?
    { this }
    function Extract(): Collector
      requires Go?
    { c }
  }

  // ----- what the outside answers: readings, and which writes succeed -----

  /** chat: the chat sink's health row, on a clock gap. */
  datatype Clock = Clock(readings: Readings, chat: bool)

  datatype StaleInput = StaleInput(health: bool, chat: bool)

  datatype SaveInput = SaveInput(
    row: bool, early: StaleInput, between: Clock, staleBetween: StaleInput, health: bool, last: Clock, chat: bool, staleLast: StaleInput)

  datatype Message = Message(notificationAt: int, receivedAt: int, committed: bool)

  datatype StepInput = StepInput(
    first: Clock, stale: StaleInput, second: Clock, heartbeat: bool, third: Clock, staleAgain: StaleInput, stop: bool,
    result: Option<PollResult>, taken: Clock, failed: StaleInput, save: SaveInput,
    fourth: Clock, staleLast: StaleInput, stopAtPoll: bool, pump: Clock, ended: bool, messages: seq<Message>)

  // ----- the small steps -----

  function Written(c: Collector, ok: bool): Res { if ok then Go(c) else Halt(c, StorageFailure) }

  function ChatPolling(c: Collector, p: Polling, ok: bool): Res { Written(c.(polling := p), ok) }

  /** poll_failed() and the chat sink told so. */
  function Fail(c: Collector, ok: bool): Res { ChatPolling(c.(live := LiveStatus.NotLive), PolledFailed, ok) }

  /** The guard's on_gap. */
  function Invalidate(c: Collector, at: Reading, ok: bool): Res {
    var d :- Fail(c, ok);
    Go(d.(generation := d.generation + 1, discardJob := true, forceValidation := true, nextPoll := at.tick))
  }

  function InvalidateAll(c: Collector, gaps: seq<Reading>, ok: bool): Res
    decreases |gaps|
  {
    if gaps == [] then Go(c)
    else
      var d :- Invalidate(c, gaps[0], ok);
      InvalidateAll(d, gaps[1..], ok)
  }

  function Reported(c: Collector, s: ClockGuard.Sampled): Collector {
    c.(previous := ClockGuard.NextPrevious(c.previous, s), gaps := c.gaps + s.gaps)
  }

  function Sample(c: Collector, k: Clock): Res {
    var s := ClockGuard.SampleOf(c.previous, k.readings);
    var d :- InvalidateAll(Reported(c, s), s.gaps, k.chat);
    match s.result
    case Raised(_) => Halt(d, ClockFault)
    case Returned(now) => Go(d.(now := now))
  }

  function Baseline(c: Collector): Reading { if c.lastSuccess.Some? then c.lastSuccess.value else c.started }

  function CheckStale(c: Collector, w: StaleInput): Res {
    if Age(c.now, Baseline(c)) < STALE then Go(c) else GoStale(c.(live := LiveStatus.NotLive), w)
  }

  /** Reported once until a poll succeeds again. */
  function GoStale(c: Collector, w: StaleInput): Res {
    if c.staleReported then Go(c)
    else
      var d :- Written(c, w.health);
      var e :- ChatPolling(d, PolledStale, w.chat);
      Go(e.(staleReported := true))
  }

  // ----- saving a poll -----

  predicate ObservedInOrder(c: Collector, observed: Reading) {
    c.jobStarted.utc <= observed.utc <= c.now.utc && c.jobStarted.tick <= observed.tick <= c.now.tick
  }

  predicate StillFresh(c: Collector, generation: nat, observed: Reading) {
    generation == c.generation && Age(c.now, observed) < STALE
  }

  function GiveUp(c: Collector, chat: bool, stale: StaleInput): Res {
    var d :- Fail(c, chat);
    CheckStale(d, stale)
  }

  /** The database part: an offline mark or a live poll row. */
  function Record(c: Collector, stream: Option<Stream>, ok: bool): Res {
    match stream
    case None =>
      var d := c.(live := LiveStatus.NotLive);
      if d.tracked == None then Go(d)
      else
        var e :- Written(d, ok);
        Go(e.(tracked := None))
    case Some(s) =>
      var d :- Written(c, ok);
      Go(d.(tracked := Some(s.id), committed := d.committed + {s.id}))
  }

  /** The eligibility in force carries on with this poll. */
  predicate CarriesOn(l: LiveStatus.Live, id: string, tick: int) {
    LiveStatus.Expire(l, tick).streamId == Some(id) && LiveStatus.Expire(l, tick).eligibleSince.Some?
  }

  function Open(c: Collector, stream: Option<Stream>, observed: Reading, ok: bool): Res {
    match stream
    case None => ChatPolling(c, PolledOffline, ok)
    case Some(s) =>
      if s.id == "" then Halt(c, EmptyStreamId)
      else
        ChatPolling(c.(live := LiveStatus.PollLive(c.live, s.id, observed.utc, observed.tick),
                       openGeneration := if CarriesOn(c.live, s.id, observed.tick) then c.openGeneration else c.jobGeneration),
                    PolledLive, ok)
  }

  function Reconfirm(c: Collector, generation: nat, stream: Option<Stream>, observed: Reading, i: SaveInput): Res {
    var d :- Sample(c, i.last);
    if !StillFresh(d, generation, observed) then GiveUp(d, i.chat, i.staleLast)
    else Open(d, stream, observed, i.chat)
  }

  /** After the data rows are committed: recheck, commit health, recheck, and only then open. */
  function Confirm(c: Collector, generation: nat, stream: Option<Stream>, observed: Reading, i: SaveInput): Res {
    var d :- Sample(c, i.between);
    var e :- CheckStale(d, i.staleBetween);
    if !StillFresh(e, generation, observed) then GiveUp(e, i.chat, i.staleLast)
    else
      var f :- Written(e, i.health);
      Reconfirm(f.(lastSuccess := Some(observed), staleReported := false), generation, stream, observed, i)
  }

  function Save(c: Collector, observed: Option<Reading>, stream: Option<Stream>, i: SaveInput): Res {
    if observed == None || !ObservedInOrder(c, observed.value) then
      var d :- Fail(c, i.early.chat);
      Halt(d, ObservationInvalid)
    else if Age(c.now, observed.value) >= STALE then Fail(c, i.early.chat)
    else if stream.Some? && stream.value.startedAt > observed.value.utc then
      var d :- Fail(c, i.early.chat);
      Written(d, i.early.health)
    else
      var d :- Record(c, stream, i.row);
      Confirm(d, c.generation, stream, observed.value, i)
  }

  // ----- one step -----

  function Consume(c: Collector, r: PollResult, w: StaleInput, save: SaveInput): Res {
    if r.error == Some(Internal) then Halt(c, WorkerFailed)
    else if r.error == Some(Blocked) then
      var d :- Fail(c, w.chat);
      var e :- Written(d, w.health);
      Halt(e, AuthorizationBlocked)
    else if c.discardJob || Age(c.now, c.jobStarted) >= STALE then Fail(c, w.chat)
    else if r.error.Some? then
      var d :- Fail(c, w.chat);
      Written(d, w.health)
    else Save(c, r.observed, r.stream, save)
  }

  /** math.floor((now.tick - next_poll) / POLL_SECONDS) with now.tick >= next_poll. */
  function NextSlot(nextPoll: int, tick: int): int { nextPoll + ((tick - nextPoll) / POLL + 1) * POLL }

  function StartPoll(c: Collector, stop: bool): Collector {
    if c.busy || c.now.tick < c.nextPoll || stop then c
    else c.(busy := true, jobStarted := c.now, jobGeneration := c.generation, discardJob := false, forceValidation := false,
            nextPoll := NextSlot(c.nextPoll, c.now.tick))
  }

  /** One chat notification during the pump: the eligible stream, asked at the pump's tick. */
  function Receive(c: Collector, m: Message): Collector {
    var d := c.(live := LiveStatus.Expire(c.live, c.now.tick));
    var id := LiveStatus.Eligible(d.live, m.notificationAt, m.receivedAt);
    if id.Some? && m.committed then d.(rows := d.rows + [ChatRow(id.value, m.notificationAt, m.receivedAt)]) else d
  }

  function ReceiveAll(c: Collector, ms: seq<Message>): Collector
    decreases |ms|
  {
    if ms == [] then c else ReceiveAll(Receive(c, ms[0]), ms[1..])
  }

  function Heartbeat(c: Collector, i: StepInput): Res {
    if c.now.tick < c.nextHeartbeat then Go(c)
    else
      var d :- Written(c, i.heartbeat);
      var e :- Sample(d.(nextHeartbeat := d.now.tick + HEARTBEAT), i.third);
      CheckStale(e, i.staleAgain)
  }

  function Take(c: Collector, i: StepInput): Res {
    if !c.busy || i.result == None then Go(c)
    else
      var d :- Sample(c.(busy := false), i.taken);
      Consume(d, i.result.value, i.failed, i.save)
  }

  /** Messages delivered before the probe ends the run are stored all the same. */
  function Pump(c: Collector, k: Clock, ended: bool, ms: seq<Message>): Res {
    var d :- Sample(c, k);
    var e := ReceiveAll(d, ms);
    if ended then Halt(e, ProbeEnded) else Go(e)
  }

  /** The part of a step before the socket pump. None means that stop was seen. */
  function Poll(c: Collector, i: StepInput): Res {
    var d :- Take(c, i);
    var e :- Sample(d, i.fourth);
    var f :- CheckStale(e, i.staleLast);
    Go(StartPoll(f, i.stopAtPoll))
  }

  function Lead(c: Collector, i: StepInput): Res {
    var d :- Sample(c, i.first);
    var e :- CheckStale(d, i.stale);
    var f :- Sample(e, i.second);
    Heartbeat(f, i)
  }

  function Step(c: Collector, i: StepInput): Res {
    var d :- Lead(c, i);
    if i.stop then Go(d)
    else
      var e :- Poll(d, i);
      Pump(e, i.pump, i.ended, i.messages)
  }

  function Start(now: Reading): Collector {
    Collector(Some(now), now, LiveStatus.NotLive, Awaiting, None, now, None, false, false, false, 0, now.tick,
              now.tick + HEARTBEAT, now, false, {}, 0, 0, [], [])
  }

  // ----- invariants -----

  /** The three fields of LiveStatus are set together. */
  predicate Together(l: LiveStatus.Live) {
    (l.streamId.Some? <==> l.eligibleSince.Some?) && (l.eligibleSince.Some? <==> l.lastPollTick.Some?)
  }

  /** Holds also between the commit of a poll and the decision about it. */
  predicate Loose(c: Collector) {
    && Together(c.live)
    && (c.tracked.Some? ==> c.tracked.value in c.committed)
    && (c.live.eligibleSince.Some? ==> c.polling == PolledLive && c.openGeneration == c.generation)
    && (forall r <- c.rows :: r.stream in c.committed)
    && (!c.discardJob && c.busy ==> c.jobGeneration == c.generation)
    && (c.live.lastPollTick.Some? ==> c.live.lastPollTick.value <= c.now.tick)
    && c.previous == Some(c.now) && c.generation == |c.gaps|
  }

  predicate Inv(c: Collector) {
    Loose(c) && (c.live.eligibleSince.Some? ==> c.live.streamId == c.tracked)
  }

  /** From c to d eligibility was kept or dropped, never opened; a reported gap drops it and
      disowns the poll in flight. */
  ghost predicate Cautious(c: Collector, d: Collector) {
    && (d.live == LiveStatus.NotLive || (d.live == c.live && d.polling == c.polling && d.generation == c.generation))
    && d.tracked == c.tracked && d.committed == c.committed && d.rows == c.rows && d.busy == c.busy
    && d.openGeneration == c.openGeneration && d.jobGeneration == c.jobGeneration && d.jobStarted == c.jobStarted
    && c.generation <= d.generation && (c.generation == d.generation ==> d.discardJob == c.discardJob)
    && (c.generation < d.generation ==> d.discardJob)
    && c.gaps <= d.gaps
  }

  lemma CautiousKeeps(c: Collector, d: Collector)
    requires Cautious(c, d) && d.previous == Some(d.now) && |d.gaps| - |c.gaps| == d.generation - c.generation
    requires c.previous == Some(c.now) ==> c.now.tick <= d.now.tick
    ensures Loose(c) ==> Loose(d)
    ensures Inv(c) ==> Inv(d)
  {
  }

  lemma CautiousTransitive(c: Collector, d: Collector, e: Collector)
    requires Cautious(c, d) && Cautious(d, e)
    ensures Cautious(c, e)
  {
  }

  /** Every reported gap is one new generation. */
  lemma {:induction false} InvalidateAllIsCautious(c: Collector, gaps: seq<Reading>, ok: bool)
    ensures var r := InvalidateAll(c, gaps, ok);
            && Cautious(c, r.c) && (r.Go? ==> r.c.generation == c.generation + |gaps|)
            && (gaps != [] ==> r.c.live == LiveStatus.NotLive && r.c.polling == PolledFailed)
            && (gaps == [] ==> r == Go(c))
            && r.c == c.(live := r.c.live, polling := r.c.polling, generation := r.c.generation, discardJob := r.c.discardJob,
                         forceValidation := r.c.forceValidation, nextPoll := r.c.nextPoll)
    decreases |gaps|
  {
    if gaps != [] {
      var d := Invalidate(c, gaps[0], ok);
      if d.Go? { InvalidateAllIsCautious(d.c, gaps[1..], ok); }
    }
  }

  /** What a clock sample does: nothing but move the clock forward, unless it reports gaps. */
  lemma SampleIsCautious(c: Collector, k: Clock)
    ensures var r, s := Sample(c, k), ClockGuard.SampleOf(c.previous, k.readings);
            && Cautious(c, r.c)
            && (r.Go? ==> r.c.previous == Some(r.c.now) && r.c.generation == c.generation + |s.gaps| && s.result == ClockGuard.Returned(r.c.now))
            && (r.Go? ==> r.c.lastSuccess == c.lastSuccess && r.c.started == c.started)
            && (r.Go? && c.previous.Some? ==> c.previous.value.tick <= r.c.now.tick && c.previous.value.utc <= r.c.now.utc)
            && (r.Go? && s.gaps == [] ==> r.c.live == c.live)
            && r.c.gaps == c.gaps + s.gaps
  {
    var s := ClockGuard.SampleOf(c.previous, k.readings);
    ClockGuard.SampleGoesForward(c.previous, k.readings);
    InvalidateAllIsCautious(Reported(c, s), s.gaps, k.chat);
  }

  lemma SampleKeeps(c: Collector, k: Clock)
    requires Sample(c, k).Go?
    ensures var d := Sample(c, k).c; (Loose(c) ==> Loose(d) && c.now.tick <= d.now.tick) && (Inv(c) ==> Inv(d)) && Cautious(c, d)
  {
    SampleIsCautious(c, k);
    CautiousKeeps(c, Sample(c, k).c);
  }

  lemma CheckStaleKeeps(c: Collector, w: StaleInput)
    ensures var r := CheckStale(c, w);
            && Cautious(c, r.c) && r.c.generation == c.generation && r.c.now == c.now && r.c.previous == c.previous
            && (Loose(c) ==> Loose(r.c)) && (Inv(c) ==> Inv(r.c))
  {
  }

  lemma GiveUpKeeps(c: Collector, chat: bool, stale: StaleInput)
    requires Loose(c)
    ensures var r := GiveUp(c, chat, stale); Inv(r.c) && r.c.live == LiveStatus.NotLive
  {
  }

  // ----- a saved poll -----

  lemma OpenKeeps(c: Collector, stream: Option<Stream>, observed: Reading, ok: bool)
    requires Loose(c) && c.jobGeneration == c.generation && observed.tick <= c.now.tick
    requires match stream case None => c.live == LiveStatus.NotLive case Some(s) => c.tracked == Some(s.id)
    ensures Open(c, stream, observed, ok).Go? ==> Inv(Open(c, stream, observed, ok).c)
  {
  }

  /** After a poll was saved, chat is either not eligible at all, or eligible on this very poll:
      no earlier eligibility survives a saved poll. */
  ghost predicate RestsOn(d: Collector, stream: Option<Stream>, observed: Reading) {
    stream.Some? && d.live.streamId == Some(stream.value.id) && d.tracked == Some(stream.value.id)
    && d.live.lastPollTick == Some(observed.tick)
  }

  lemma ConfirmKeeps(c: Collector, stream: Option<Stream>, observed: Reading, i: SaveInput)
    requires Loose(c) && c.jobGeneration == c.generation && observed.tick <= c.now.tick
    requires match stream case None => c.live == LiveStatus.NotLive case Some(s) => c.tracked == Some(s.id)
    ensures var r := Confirm(c, c.generation, stream, observed, i);
            r.Go? ==> Inv(r.c) && (r.c.live == LiveStatus.NotLive || RestsOn(r.c, stream, observed))
  {
    hide Sample, CheckStale, GiveUp, Loose;
    var d := Sample(c, i.between);
    if d.Go? {
      SampleKeeps(c, i.between);
      CheckStaleKeeps(d.c, i.staleBetween);
      var e := CheckStale(d.c, i.staleBetween);
      CautiousTransitive(c, d.c, e.c);
      if e.Go? {
        GiveUpKeeps(e.c, i.chat, i.staleLast);
        var f := e.c.(lastSuccess := Some(observed), staleReported := false);
        LooseFrame(e.c, f);
        if StillFresh(e.c, c.generation, observed) { ReopenKeeps(c, f, stream, observed, i); }
      }
    }
  }

  lemma LooseFrame(c: Collector, d: Collector)
    requires d == c.(lastSuccess := d.lastSuccess, staleReported := d.staleReported)
    ensures Loose(d) == Loose(c) && Cautious(c, d)
  {
  }

  lemma ReopenKeeps(c: Collector, f: Collector, stream: Option<Stream>, observed: Reading, i: SaveInput)
    requires Loose(f) && Cautious(c, f.(lastSuccess := c.lastSuccess, staleReported := c.staleReported)) && c.jobGeneration == c.generation == f.generation
    requires match stream case None => c.live == LiveStatus.NotLive case Some(s) => c.tracked == Some(s.id)
    requires observed.tick <= f.now.tick
    ensures var r := Reconfirm(f, c.generation, stream, observed, i);
            r.Go? ==> Inv(r.c) && (r.c.live == LiveStatus.NotLive || RestsOn(r.c, stream, observed))
  {
    var g := Sample(f, i.last);
    if g.Go? {
      hide Sample, Loose, GiveUp;
      SampleKeeps(f, i.last);
      if StillFresh(g.c, c.generation, observed) {
        OpenKeeps(g.c, stream, observed, i.chat);
      } else {
        GiveUpKeeps(g.c, i.chat, i.staleLast);
      }
    }
  }

  lemma RecordKeeps(c: Collector, stream: Option<Stream>, ok: bool)
    requires Inv(c)
    ensures var r := Record(c, stream, ok);
            r.Go? ==> Loose(r.c) && r.c.jobGeneration == c.jobGeneration && r.c.generation == c.generation && r.c.now == c.now
                      && (match stream case None => r.c.live == LiveStatus.NotLive case Some(s) => r.c.tracked == Some(s.id))
  {
  }

  lemma FailKeeps(c: Collector, chat: bool, health: bool)
    requires Loose(c)
    ensures var d := Fail(c, chat);
            && Inv(d.c) && d.c.live == LiveStatus.NotLive && Written(d.c, health).c == d.c
  {
  }

  lemma SaveKeeps(c: Collector, observed: Option<Reading>, stream: Option<Stream>, i: SaveInput)
    requires Inv(c) && c.jobGeneration == c.generation
    ensures var r := Save(c, observed, stream, i);
            r.Go? ==> Inv(r.c) && (r.c.live == LiveStatus.NotLive || (observed.Some? && RestsOn(r.c, stream, observed.value)))
  {
    hide Confirm, Record, Loose, Fail, Written;
    FailKeeps(c, i.early.chat, i.early.health);
    RecordKeeps(c, stream, i.row);
    if observed.Some? && ObservedInOrder(c, observed.value) {
      var d := Record(c, stream, i.row);
      if d.Go? { ConfirmKeeps(d.c, stream, observed.value, i); }
    }
  }

  predicate Quiet(previous: Reading, k: Clock) { ClockGuard.SampleOf(Some(previous), k.readings).gaps == [] }

  /** The poll saw the stream live and not started in the future, and both later clock samples
      were free of gaps, the last under 90 s after the observation. */
  predicate Opens(c: Collector, observed: Reading, stream: Option<Stream>, i: SaveInput) {
    && stream.Some? && stream.value.startedAt <= observed.utc
    && Quiet(c.now, i.between) && Quiet(i.between.readings[0], i.last)
    && Age(i.last.readings[0], observed) < STALE
  }

  lemma QuietSample(c: Collector, k: Clock)
    requires c.previous == Some(c.now)
    ensures var r := Sample(c, k);
            && (Quiet(c.now, k) ==> r.Go? && r.c.now == k.readings[0] && r.c.previous == Some(r.c.now) && r.c.generation == c.generation
                                    && c.now.tick <= r.c.now.tick && c.now.utc <= r.c.now.utc)
            && (r.Go? ==> r.c.previous == Some(r.c.now) && (r.c.generation == c.generation <==> Quiet(c.now, k)))
  {
    SampleIsCautious(c, k);
    ClockGuard.QuietIff(c.now, k.readings);
  }

  lemma ConfirmOpensIff(c: Collector, stream: Option<Stream>, observed: Reading, i: SaveInput)
    requires c.previous == Some(c.now) && (stream == None ==> c.live == LiveStatus.NotLive)
    requires stream.Some? ==> stream.value.startedAt <= observed.utc
    requires Confirm(c, c.generation, stream, observed, i).Go?
    ensures Confirm(c, c.generation, stream, observed, i).c.live.eligibleSince.Some? <==> Opens(c, observed, stream, i)
  {
    hide Sample, CheckStale, GiveUp, Open, Quiet;
    QuietSample(c, i.between);
    SampleIsCautious(c, i.between);
    var d := Sample(c, i.between);
    CheckStaleKeeps(d.c, i.staleBetween);
    var e := CheckStale(d.c, i.staleBetween);
    if e.Go? {
      GivenUp(e.c, i.chat, i.staleLast);
      var f := e.c.(lastSuccess := Some(observed), staleReported := false);
      QuietSample(f, i.last);
      SampleIsCautious(f, i.last);
      var g := Sample(f, i.last);
      GivenUp(g.c, i.chat, i.staleLast);
      OpenedIff(g.c, stream, observed, i.chat);
      if Quiet(c.now, i.between) && Quiet(i.between.readings[0], i.last) { AgeGrows(observed, d.c.now, i.last.readings[0]); }
    }
  }

  lemma AgeGrows(observed: Reading, a: Reading, b: Reading)
    requires a.tick <= b.tick && a.utc <= b.utc
    ensures Age(a, observed) <= Age(b, observed)
  {
  }

  lemma GivenUp(c: Collector, chat: bool, stale: StaleInput)
    ensures GiveUp(c, chat, stale).c.live == LiveStatus.NotLive
  {
  }

  lemma OpenedIff(c: Collector, stream: Option<Stream>, observed: Reading, ok: bool)
    ensures var r := Open(c, stream, observed, ok);
            r.Go? ==> if stream.Some? then r.c.live.eligibleSince.Some? else r.c.live == c.live
  {
  }

  lemma OpensIsFresh(c: Collector, observed: Reading, stream: Option<Stream>, i: SaveInput)
    requires c.previous == Some(c.now) && Opens(c, observed, stream, i)
    ensures Age(c.now, observed) < STALE
  {
  }

  /** Exactly when a saved poll leaves chat eligible. */
  lemma SaveOpensIff(c: Collector, observed: Option<Reading>, stream: Option<Stream>, i: SaveInput)
    requires Inv(c) && Save(c, observed, stream, i).Go?
    ensures observed.Some?
    ensures Save(c, observed, stream, i).c.live.eligibleSince.Some? <==> Opens(c, observed.value, stream, i)
  {
    hide Confirm, Opens;
    if Opens(c, observed.value, stream, i) { OpensIsFresh(c, observed.value, stream, i); }
    OpensNotEarly(c, observed.value, stream, i);
    var d := Record(c, stream, i.row);
    if d.Go? {
      OpensAfterRecord(c, d.c, observed.value, stream, i);
      if Age(c.now, observed.value) < STALE && !(stream.Some? && stream.value.startedAt > observed.value.utc) {
        ConfirmOpensIff(d.c, stream, observed.value, i);
      }
    }
  }

  lemma OpensNotEarly(c: Collector, observed: Reading, stream: Option<Stream>, i: SaveInput)
    ensures Opens(c, observed, stream, i) ==> stream.Some? && stream.value.startedAt <= observed.utc
  {
  }

  lemma OpensAfterRecord(c: Collector, d: Collector, observed: Reading, stream: Option<Stream>, i: SaveInput)
    requires d.now == c.now
    ensures Opens(d, observed, stream, i) == Opens(c, observed, stream, i)
  {
  }

  /** A sample that reports gaps leaves chat ineligible, disowns the poll in flight, and makes a
      poll that validates the token due at that very reading. */
  lemma GapForcesFreshPoll(c: Collector, k: Clock)
    requires c.previous == Some(c.now) && !Quiet(c.now, k) && Sample(c, k).Go?
    ensures var d := Sample(c, k).c;
            && d.live == LiveStatus.NotLive && d.polling == PolledFailed && d.discardJob && d.forceValidation
            && d.nextPoll == d.now.tick && (!d.busy ==> StartPoll(d, false).busy)
  {
    var s := ClockGuard.SampleOf(c.previous, k.readings);
    LastGapIsNow(c.now, k.readings);
    LastGapDue(Reported(c, s), s.gaps, k.chat);
  }

  lemma LastGapIsNow(previous: Reading, readings: Readings)
    ensures var s := ClockGuard.SampleOf(Some(previous), readings);
            s.result.Returned? && s.gaps != [] ==> s.gaps[|s.gaps| - 1] == s.result.now
  {
    if readings[0].tick >= previous.tick && readings[0].utc < previous.utc { ClockGuard.WaitingMeaning(readings, previous, 0); }
  }

  lemma {:induction false} LastGapDue(c: Collector, gaps: seq<Reading>, ok: bool)
    requires gaps != [] && InvalidateAll(c, gaps, ok).Go?
    ensures var d := InvalidateAll(c, gaps, ok).c;
            && d.live == LiveStatus.NotLive && d.polling == PolledFailed && d.discardJob && d.forceValidation
            && d.nextPoll == gaps[|gaps| - 1].tick && d.now == c.now && d.busy == c.busy
    decreases |gaps|
  {
    var d := Invalidate(c, gaps[0], ok);
    if |gaps| > 1 { LastGapDue(d.c, gaps[1..], ok); } else { assert gaps[1..] == []; }
  }

  /** Once 90 s have passed on either clock since the last saved poll, a staleness check leaves
      chat ineligible, and reports it once until a poll succeeds again. */
  lemma StaleIsIneligible(c: Collector, w: StaleInput)
    requires CheckStale(c, w).Go?
    ensures var d := CheckStale(c, w).c;
            if Age(c.now, Baseline(c)) < STALE then d == c
            else d.live == LiveStatus.NotLive && d.staleReported && d.polling == (if c.staleReported then c.polling else PolledStale)
                 && CheckStale(d, w) == Go(d)
  {
  }

  // ----- whole runs -----

  lemma HeartbeatKeeps(c: Collector, i: StepInput)
    requires Inv(c)
    ensures Heartbeat(c, i).Go? ==> Inv(Heartbeat(c, i).c)
  {
    hide Sample, CheckStale;
    if c.now.tick >= c.nextHeartbeat && i.heartbeat {
      var d := c.(nextHeartbeat := c.now.tick + HEARTBEAT);
      var e := Sample(d, i.third);
      if e.Go? {
        SampleKeeps(d, i.third);
        CheckStaleKeeps(e.c, i.staleAgain);
      }
    }
  }

  lemma LeadKeeps(c: Collector, i: StepInput)
    requires Inv(c)
    ensures Lead(c, i).Go? ==> Inv(Lead(c, i).c)
  {
    hide Sample, CheckStale, Heartbeat, Inv;
    var d := Sample(c, i.first);
    if d.Go? {
      SampleKeeps(c, i.first);
      CheckStaleKeeps(d.c, i.stale);
      var e := CheckStale(d.c, i.stale);
      if e.Go? {
        var f := Sample(e.c, i.second);
        if f.Go? {
          SampleKeeps(e.c, i.second);
          HeartbeatKeeps(f.c, i);
        }
      }
    }
  }

  lemma ConsumeKeeps(c: Collector, r: PollResult, w: StaleInput, save: SaveInput)
    requires Inv(c) && (!c.discardJob ==> c.jobGeneration == c.generation)
    ensures Consume(c, r, w, save).Go? ==> Inv(Consume(c, r, w, save).c)
  {
    hide Save, Loose, Fail, Written;
    FailKeeps(c, w.chat, w.health);
    if !c.discardJob { SaveKeeps(c, r.observed, r.stream, save); }
  }

  lemma TakeKeeps(c: Collector, i: StepInput)
    requires Inv(c)
    ensures Take(c, i).Go? ==> Inv(Take(c, i).c)
  {
    hide Sample, Consume;
    if c.busy && i.result.Some? {
      var taken := c.(busy := false);
      var d := Sample(taken, i.taken);
      SampleIsCautious(taken, i.taken);
      if d.Go? {
        SampleKeeps(taken, i.taken);
        ConsumeKeeps(d.c, i.result.value, i.failed, i.save);
      }
    }
  }

  lemma PollKeeps(c: Collector, i: StepInput)
    requires Inv(c)
    ensures Poll(c, i).Go? ==> Inv(Poll(c, i).c)
  {
    hide Sample, CheckStale, Take;
    TakeKeeps(c, i);
    var d := Take(c, i);
    if d.Go? {
      var e := Sample(d.c, i.fourth);
      if e.Go? {
        SampleKeeps(d.c, i.fourth);
        CheckStaleKeeps(e.c, i.staleLast);
      }
    }
  }

  /** What a chat message's eligibility rests on at the moment of the pump. */
  predicate Trusted(c: Collector, stream: string) {
    && c.tracked == Some(stream) && stream in c.committed && c.polling == PolledLive && c.openGeneration == c.generation
    && c.live.lastPollTick.Some? && LiveStatus.WithinHold(c.now.tick, c.live.lastPollTick.value)
  }

  /** A chat row is stored only for the tracked stream, whose row was committed in this run,
      while the sink's polling state is live, no clock gap was reported since the dispatch of
      the poll that opened the eligibility, the last live poll is under 90 s old, and the
      message is no older than that eligibility. */
  lemma StoredMeansTrusted(c: Collector, m: Message)
    requires Inv(c)
    ensures var d := Receive(c, m);
            && Inv(d) && d.committed == c.committed && d.now == c.now
            && (d.rows == c.rows
                || exists stream :: d.rows == c.rows + [ChatRow(stream, m.notificationAt, m.receivedAt)] && Trusted(c, stream)
                                    && c.live.eligibleSince.value <= m.notificationAt <= m.receivedAt)
  {
  }

  /** The pump's checks are never behind the last poll, so they change no answer unless a poll
      observed earlier is recorded later. */
  lemma PumpChecksAreUnobservable(c: Collector)
    requires Inv(c)
    ensures LiveStatus.SameFuture(LiveStatus.Expire(c.live, c.now.tick), c.live, c.now.tick)
  {
    if c.live.lastPollTick.Some? {
      LiveStatus.CheckUnobservableFromItsTick(c.live, c.now.tick);
    } else {
      LiveStatus.CheckUnobservableIff(LiveStatus.Expire(c.live, c.now.tick), c.now.tick, c.now.tick);
    }
  }

  lemma {:induction false} ReceiveAllKeeps(c: Collector, ms: seq<Message>)
    requires Inv(c)
    ensures Inv(ReceiveAll(c, ms))
    decreases |ms|
  {
    hide Inv, Receive;
    if ms != [] {
      StoredMeansTrusted(c, ms[0]);
      ReceiveAllKeeps(Receive(c, ms[0]), ms[1..]);
    }
  }

  lemma PumpKeeps(c: Collector, k: Clock, ended: bool, ms: seq<Message>)
    requires Inv(c)
    ensures Pump(c, k, ended, ms).Go? ==> Inv(Pump(c, k, ended, ms).c)
  {
    hide Sample, Inv;
    var d := Sample(c, k);
    if d.Go? {
      SampleKeeps(c, k);
      ReceiveAllKeeps(d.c, ms);
    }
  }

  lemma StepKeeps(c: Collector, i: StepInput)
    requires Inv(c)
    ensures Step(c, i).Go? ==> Inv(Step(c, i).c)
  {
    hide Lead, Poll, Pump, Inv;
    LeadKeeps(c, i);
    var d := Lead(c, i);
    if d.Go? && !i.stop {
      PollKeeps(d.c, i);
      var e := Poll(d.c, i);
      if e.Go? { PumpKeeps(e.c, i.pump, i.ended, i.messages); }
    }
  }

  function RunOf(c: Collector, inputs: seq<StepInput>): Res
    decreases |inputs|
  {
    if inputs == [] then Go(c)
    else
      var d :- Step(c, inputs[0]);
      RunOf(d, inputs[1..])
  }

  /** After any run, also one that halted, every stored chat row references a stream committed
      in that run. While the run goes on, chat is eligible only for the tracked stream, with
      the chat sink polled live and no clock gap since the dispatch of the poll that opened the
      eligibility. */
  lemma {:induction false} EligibilityIsTrusted(c: Collector, inputs: seq<StepInput>)
    requires Inv(c)
    ensures var r := RunOf(c, inputs);
            && (forall x <- r.c.rows :: x.stream in r.c.committed)
            && (r.Go? && r.c.live.eligibleSince.Some? ==>
                  r.c.tracked.Some? && r.c.live.streamId == r.c.tracked && r.c.tracked.value in r.c.committed
                  && r.c.polling == PolledLive && r.c.openGeneration == |r.c.gaps|)
            && (r.Go? ==> Inv(r.c))
    decreases |inputs|
  {
    hide Step;
    if inputs != [] {
      StepKeeps(c, inputs[0]);
      StepGrows(c, inputs[0]);
      var d := Step(c, inputs[0]);
      if d.Go? { EligibilityIsTrusted(d.c, inputs[1..]); }
    }
  }

  lemma StartInv(now: Reading)
    ensures Inv(Start(now))
  {
  }

  /** A started poll skips every missed slot: the next one is due within a minute, on the same
      grid of minutes, and no second poll is ever started beside one in flight. */
  lemma NoCatchUp(c: Collector, stop: bool)
    requires StartPoll(c, stop) != c
    ensures var d := StartPoll(c, stop);
            && !c.busy && !stop && c.nextPoll <= c.now.tick < d.nextPoll <= c.now.tick + POLL
            && (d.nextPoll - c.nextPoll) % POLL == 0
            && StartPoll(d, stop) == d
  {
  }

  // ----- what only grows -----

  /** Reported gaps, committed streams and stored rows only grow, halted or not; rows name
      committed streams; and every gap is one generation. */
  ghost predicate Grows(c: Collector, r: Res) {
    && c.gaps <= r.c.gaps && c.generation <= r.c.generation && c.committed <= r.c.committed && c.rows <= r.c.rows
    && (forall x <- r.c.rows :: x in c.rows || x.stream in r.c.committed)
    && (r.Go? ==> |r.c.gaps| - |c.gaps| == r.c.generation - c.generation)
  }

  lemma GrowsOn(c: Collector, d: Collector, r: Res)
    requires Grows(c, Go(d)) && Grows(d, r)
    ensures Grows(c, r)
  {
  }

  lemma GrowsNot(c: Collector, r: Res)
    requires r.c.gaps == c.gaps && r.c.generation == c.generation && c.committed <= r.c.committed && r.c.rows == c.rows
    ensures Grows(c, r)
  {
  }

  lemma SampleGrows(c: Collector, k: Clock)
    ensures Grows(c, Sample(c, k))
  {
    hide Sample;
    SampleIsCautious(c, k);
  }

  lemma StaleGrows(c: Collector, w: StaleInput)
    ensures Grows(c, CheckStale(c, w))
  {
  }

  lemma SampledStale(c: Collector, k: Clock, w: StaleInput)
    ensures var d := Sample(c, k); Grows(c, d) && (d.Go? ==> Grows(c, CheckStale(d.c, w)))
  {
    hide Grows, Sample, CheckStale;
    SampleGrows(c, k);
    var d := Sample(c, k);
    if d.Go? {
      StaleGrows(d.c, w);
      GrowsOn(c, d.c, CheckStale(d.c, w));
    }
  }

  lemma HeartbeatGrows(c: Collector, i: StepInput)
    ensures Grows(c, Heartbeat(c, i))
  {
    hide Grows, Sample, CheckStale;
    var d := c.(nextHeartbeat := c.now.tick + HEARTBEAT);
    GrowsNot(c, Go(c));
    GrowsNot(c, Halt(c, StorageFailure));
    GrowsNot(c, Go(d));
    SampledStale(d, i.third, i.staleAgain);
    GrowsOn(c, d, Sample(d, i.third));
    if Sample(d, i.third).Go? { GrowsOn(c, d, CheckStale(Sample(d, i.third).c, i.staleAgain)); }
  }

  lemma LeadGrows(c: Collector, i: StepInput)
    ensures Grows(c, Lead(c, i))
  {
    hide Grows, Sample, CheckStale, Heartbeat;
    SampledStale(c, i.first, i.stale);
    var d := Sample(c, i.first);
    if d.Go? {
      var e := CheckStale(d.c, i.stale);
      if e.Go? {
        SampleGrows(e.c, i.second);
        GrowsOn(c, e.c, Sample(e.c, i.second));
        var f := Sample(e.c, i.second);
        if f.Go? {
          HeartbeatGrows(f.c, i);
          GrowsOn(c, f.c, Heartbeat(f.c, i));
        }
      }
    }
  }

  lemma GiveUpGrows(c: Collector, chat: bool, stale: StaleInput)
    ensures Grows(c, GiveUp(c, chat, stale))
  {
    hide CheckStale, Grows;
    var d := Fail(c, chat);
    GrowsNot(c, d);
    StaleGrows(d.c, stale);
    if d.Go? { GrowsOn(c, d.c, CheckStale(d.c, stale)); }
  }

  lemma ConfirmGrows(c: Collector, generation: nat, stream: Option<Stream>, observed: Reading, i: SaveInput)
    ensures Grows(c, Confirm(c, generation, stream, observed, i))
  {
    hide Grows, Sample, CheckStale, GiveUp, Reconfirm;
    SampledStale(c, i.between, i.staleBetween);
    var d := Sample(c, i.between);
    if d.Go? {
      var e := CheckStale(d.c, i.staleBetween);
      if e.Go? {
        GiveUpGrows(e.c, i.chat, i.staleLast);
        GrowsOn(c, e.c, GiveUp(e.c, i.chat, i.staleLast));
        GrowsNot(e.c, Halt(e.c, StorageFailure));
        GrowsOn(c, e.c, Halt(e.c, StorageFailure));
        var f := e.c.(lastSuccess := Some(observed), staleReported := false);
        GrowsNot(e.c, Go(f));
        GrowsOn(c, e.c, Go(f));
        ReconfirmGrows(f, generation, stream, observed, i);
        GrowsOn(c, f, Reconfirm(f, generation, stream, observed, i));
      }
    }
  }

  lemma ReconfirmGrows(c: Collector, generation: nat, stream: Option<Stream>, observed: Reading, i: SaveInput)
    ensures Grows(c, Reconfirm(c, generation, stream, observed, i))
  {
    hide Grows, Sample, GiveUp, Open;
    SampleGrows(c, i.last);
    var d := Sample(c, i.last);
    if d.Go? {
      GiveUpGrows(d.c, i.chat, i.staleLast);
      GrowsOn(c, d.c, GiveUp(d.c, i.chat, i.staleLast));
      OpenGrows(d.c, stream, observed, i.chat);
      GrowsOn(c, d.c, Open(d.c, stream, observed, i.chat));
    }
  }

  lemma OpenGrows(c: Collector, stream: Option<Stream>, observed: Reading, ok: bool)
    ensures Grows(c, Open(c, stream, observed, ok))
  {
    hide Grows;
    GrowsNot(c, Open(c, stream, observed, ok));
  }

  lemma SaveGrows(c: Collector, observed: Option<Reading>, stream: Option<Stream>, i: SaveInput)
    ensures Grows(c, Save(c, observed, stream, i))
  {
    hide Grows, Confirm;
    hide Record, Fail, Written;
    var d := Record(c, stream, i.row);
    RecordGrows(c, stream, i.row);
    if observed.Some? && d.Go? {
      ConfirmGrows(d.c, c.generation, stream, observed.value, i);
      GrowsOn(c, d.c, Confirm(d.c, c.generation, stream, observed.value, i));
    }
    FailGrows(c, i.early);
  }

  lemma RecordGrows(c: Collector, stream: Option<Stream>, ok: bool)
    ensures Grows(c, Record(c, stream, ok))
  {
    hide Grows;
    GrowsNot(c, Record(c, stream, ok));
  }

  lemma FailGrows(c: Collector, w: StaleInput)
    ensures var d := Fail(c, w.chat); Grows(c, d) && Grows(c, Halt(d.c, ObservationInvalid)) && Grows(c, Halt(d.c, AuthorizationBlocked)) && Grows(c, Written(d.c, w.health))
  {
  }

  lemma ConsumeGrows(c: Collector, r: PollResult, w: StaleInput, save: SaveInput)
    ensures Grows(c, Consume(c, r, w, save))
  {
    hide Grows, Save, Fail;
    SaveGrows(c, r.observed, r.stream, save);
    FailGrows(c, w);
    GrowsNot(c, Halt(c, WorkerFailed));
  }

  lemma TakeGrows(c: Collector, i: StepInput)
    ensures Grows(c, Take(c, i))
  {
    hide Grows, Sample, Consume;
    var taken := c.(busy := false);
    GrowsNot(c, Go(c));
    GrowsNot(c, Go(taken));
    SampleGrows(taken, i.taken);
    var d := Sample(taken, i.taken);
    GrowsOn(c, taken, d);
    if d.Go? && i.result.Some? {
      ConsumeGrows(d.c, i.result.value, i.failed, i.save);
      GrowsOn(c, d.c, Consume(d.c, i.result.value, i.failed, i.save));
    }
  }

  lemma PollGrows(c: Collector, i: StepInput)
    ensures Grows(c, Poll(c, i))
  {
    hide Grows, Sample, CheckStale, Take;
    TakeGrows(c, i);
    var d := Take(c, i);
    if d.Go? {
      SampledStale(d.c, i.fourth, i.staleLast);
      var e := Sample(d.c, i.fourth);
      GrowsOn(c, d.c, e);
      if e.Go? {
        var f := CheckStale(e.c, i.staleLast);
        GrowsOn(c, d.c, f);
        GrowsNot(f.c, Go(StartPoll(f.c, i.stopAtPoll)));
        if f.Go? { GrowsOn(c, f.c, Go(StartPoll(f.c, i.stopAtPoll))); }
      }
    }
  }

  lemma {:induction false} ReceiveGrows(c: Collector, ms: seq<Message>, ended: bool)
    requires Inv(c)
    ensures var d := ReceiveAll(c, ms); Grows(c, if ended then Halt(d, ProbeEnded) else Go(d))
    decreases |ms|
  {
    hide Inv, Receive;
    if ms != [] {
      StoredMeansTrusted(c, ms[0]);
      LevelReceive(c, ms[0]);
      ReceiveGrows(Receive(c, ms[0]), ms[1..], ended);
    }
  }

  lemma LevelReceive(c: Collector, m: Message)
    ensures Receive(c, m).generation == c.generation && Receive(c, m).gaps == c.gaps
  {
  }

  lemma PumpGrows(c: Collector, k: Clock, ended: bool, ms: seq<Message>)
    requires Inv(c)
    ensures Grows(c, Pump(c, k, ended, ms))
  {
    hide Grows, Sample, Inv;
    SampleGrows(c, k);
    var d := Sample(c, k);
    if d.Go? {
      SampleKeeps(c, k);
      ReceiveGrows(d.c, ms, ended);
      GrowsOn(c, d.c, Pump(c, k, ended, ms));
    }
  }

  lemma StepGrows(c: Collector, i: StepInput)
    requires Inv(c)
    ensures Grows(c, Step(c, i))
  {
    hide Grows, Lead, Poll, Pump, Inv;
    LeadGrows(c, i);
    LeadKeeps(c, i);
    var d := Lead(c, i);
    if d.Go? && !i.stop {
      PollGrows(d.c, i);
      PollKeeps(d.c, i);
      var e := Poll(d.c, i);
      GrowsOn(c, d.c, e);
      if e.Go? {
        PumpGrows(e.c, i.pump, i.ended, i.messages);
        GrowsOn(c, e.c, Pump(e.c, i.pump, i.ended, i.messages));
      }
    }
  }

  /** Over any run the generation never falls, and while the run goes on it counts the gaps
      reported: two states have the same generation exactly when the guard reported no clock
      gap between them. */
  lemma {:induction false} GenerationCountsGaps(c: Collector, inputs: seq<StepInput>)
    requires Inv(c)
    ensures var r := RunOf(c, inputs);
            && Grows(c, r) && c.gaps <= r.c.gaps && c.generation <= r.c.generation
            && (r.Go? ==> (r.c.generation == c.generation <==> r.c.gaps == c.gaps))
    decreases |inputs|
  {
    hide Step, Inv;
    if inputs == [] {
      GrowsNot(c, Go(c));
    } else {
      StepKeeps(c, inputs[0]);
      StepGrows(c, inputs[0]);
      var d := Step(c, inputs[0]);
      if d.Go? {
        GenerationCountsGaps(d.c, inputs[1..]);
        GrowsOn(c, d.c, RunOf(d.c, inputs[1..]));
      }
    }
  }
}
