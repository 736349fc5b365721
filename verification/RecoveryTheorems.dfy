/** What every run of the capture session guarantees, whatever happens to it. */
module RecoveryTheorems {
  import opened Common
  import opened EventSink
  import opened EventSub
  import opened EventRouter
  import opened Recovery
  import opened RecoveryInvariants
  import opened RecoveryRuns
  import opened RecoveryGuarantees
  import opened RouterGuarantees

  /** A tick; a clock gap seen by the coordinator; a polling state it writes to the chat sink;
      or a failed write of its own. */
  datatype Happening = Ticked(tick: StepInput) | ClockGap(loss: LossInput) | Polled(polling: Polling, at: int, write: Write) | StorageLatched

  /** The chat sink's row failed: the coordinator stops at once, so nothing is written later,
      which the model records in the router's latch. */
  predicate PollingFails(r: Router, polling: Polling, at: int, w: Write) {
    Chat in r.sinks && Apply(r.sinks[Chat], SetPolling(polling), at, w).error == StorageError
  }

  /** The coordinator's own reading, as far as the history of readings is concerned. */
  function SeeTime(p: Probe, at: int): Probe { p.(monotone := p.monotone && p.clock <= at, clock := at) }

  function React(p: Probe, e: Happening): Res {
    match e
    case Ticked(i) => Step(p, i)
    case ClockGap(i) => ForceGap(p, i)
    case Polled(polling, at, w) =>
      var q := SeeTime(p, at);
      if PollingFails(q.router, polling, at, w) then Fatal(q.(router := MarkStorageFailed(SetChatPolling(q.router, polling, at, w))), StorageLost)
      else Go(q.(router := SetChatPolling(q.router, polling, at, w)))
    case StorageLatched => Go(p.(router := MarkStorageFailed(p.router)))
  }

  /** A run, up to the first fatal error. */
  function RunOf(p: Probe, es: seq<Happening>): Res
    decreases |es|
  {
    if es == [] then Go(p)
    else
      var q :- React(p, es[0]);
      RunOf(q, es[1..])
  }

  lemma StartInv(specs: set<Source>, sources: set<Source>, url: string, duration: Option<int>, externalClock: bool, now: Reading, w: Writes)
    ensures var p := Start(specs, sources, url, duration, externalClock, now, w); Inv(p) && Timed(p)
  {
    hide Apply, TimedTo, Settled, ValidSession;
    var b := BeginAll(NewRouter(sources), now.utc, w);
    forall s | s in b.sinks ensures !b.sinks[s].transportReady && !b.sinks[s].stopped && (b.sinks[s].chat <==> s == Chat) && Settled(b.sinks[s]) {
      BegunSink(s == Chat, now.utc, w.For(s));
    }
    BeginTimes(sources, now.utc, w);
    NewIsValid(specs);
  }

  lemma BegunSink(chat: bool, at: int, w: Write)
    ensures var s := Apply(NewSink(chat), Begin, at, w).sink; !s.transportReady && !s.stopped && s.chat == chat && Settled(s)
  {
  }

  lemma NewIsValid(specs: set<Source>)
    ensures ValidSession(NewSession(0, specs))
  {
  }

  lemma GapKeeps(p: Probe, i: LossInput)
    requires Inv(p)
    ensures var s := ForceGap(p, i); Keeps(s) && Rel(p, s.p)
  {
    var q := p.(previous := None);
    CoreFrame(p, q);
    RelSame(p, q);
    LostKeepsInv(q, NetworkLost, i);
    RelLose(q, NetworkLost, i);
    RelTransitive(p, q, Lose(q, NetworkLost, i).p);
  }

  lemma PollingKeeps(p: Probe, polling: Polling, at: int, w: Write)
    requires Inv(p)
    ensures var s := React(p, Polled(polling, at, w)); Keeps(s) && Rel(p, s.p)
  {
    hide Core, Shape, Rel, SetChatPolling, Apply;
    var q := SeeTime(p, at);
    CoreFrame(p, q);
    RelSame(p, q);
    SeenKeeps(p, at);
    PolledKeeps(q, polling, at, w);
    RelTransitive(p, q, React(p, Polled(polling, at, w)).p);
  }

  lemma SeenKeeps(p: Probe, at: int)
    requires Inv(p)
    ensures Inv(SeeTime(p, at))
  {
    CoreFrame(p, SeeTime(p, at));
  }

  lemma PolledKeeps(p: Probe, polling: Polling, at: int, w: Write)
    requires Inv(p) && p.clock == at
    ensures var q := p.(router := SetChatPolling(p.router, polling, at, w));
            var latched := q.(router := MarkStorageFailed(q.router));
            if PollingFails(p.router, polling, at, w) then Core(latched) && Rel(p, latched) else Inv(q) && Rel(p, q)
  {
    hide Core, Shape, Rel, SetChatPolling, Apply;
    if PollingFails(p.router, polling, at, w) {
      LatchedSink(p, polling, at, w);
      PollingAborts(p, polling, at, w);
    } else {
      PolledSink(p, polling, at, w);
      PollingWrites(p, polling, at, w);
    }
  }

  lemma PollingAborts(p: Probe, polling: Polling, at: int, w: Write)
    requires Core(p) && p.clock == at && SetChatPolling(p.router, polling, at, w) == p.router.(sinks := SetChatPolling(p.router, polling, at, w).sinks)
    ensures Rel(p, p.(router := MarkStorageFailed(SetChatPolling(p.router, polling, at, w))))
  {
    hide Core, Rel, SetChatPolling, TimedTo, Frozen, Muted;
    var r := SetChatPolling(p.router, polling, at, w);
    PollingMutes(p.router, polling, at, w, p.session.failed);
    PollingFreezes(p.router, polling, at, w);
    LatchedTimes(p.router, r, at);
    RelWrite(p, MarkStorageFailed(r));
  }

  lemma PollingWrites(p: Probe, polling: Polling, at: int, w: Write)
    requires Core(p) && p.clock == at && !PollingFails(p.router, polling, at, w)
    ensures Rel(p, p.(router := SetChatPolling(p.router, polling, at, w)))
  {
    hide Core, Rel, SetChatPolling, Apply, TimedTo, Frozen, Muted;
    CoreRouter(p);
    PollingMutes(p.router, polling, at, w, p.session.failed);
    PollingFreezes(p.router, polling, at, w);
    if p.monotone && TimedTo(p.router, p.clock) {
      SinksRunning(p.router);
      PollingTimes(p.router, polling, at, w);
    }
    RelWrite(p, SetChatPolling(p.router, polling, at, w));
  }

  /** Marking the latch says nothing about the sinks, and SetChatPolling writes no gap row. */
  lemma LatchedTimes(r: Router, q: Router, t: int)
    requires q == r.(sinks := q.sinks)
    ensures TimedTo(r, t) ==> TimedTo(MarkStorageFailed(q), t)
    ensures Frozen(r, q) ==> Frozen(r, MarkStorageFailed(q))
    ensures forall failed :: Muted(r, q, failed) ==> Muted(r, MarkStorageFailed(q), failed)
  {
    hide GapTimes;
    forall failed | Muted(r, q, failed) ensures Muted(r, MarkStorageFailed(q), failed) {
      forall s | s in failed ensures StaysDown(r, MarkStorageFailed(q), s) { assert StaysDown(r, q, s); }
    }
  }

  lemma LatchedSink(p: Probe, polling: Polling, at: int, w: Write)
    requires Inv(p) && Chat in p.router.sinks
    ensures Core(p.(router := MarkStorageFailed(SetChatPolling(p.router, polling, at, w))))
    ensures SetChatPolling(p.router, polling, at, w) == p.router.(sinks := SetChatPolling(p.router, polling, at, w).sinks)
  {
    FlagsAfterPolling(p.router.sinks[Chat], polling, at, w);
    var q := SetChatPolling(p.router, polling, at, w);
    assert q.sinks.Keys == p.router.sinks.Keys;
  }

  lemma PolledSink(p: Probe, polling: Polling, at: int, w: Write)
    requires Inv(p) && !PollingFails(p.router, polling, at, w)
    ensures Inv(p.(router := SetChatPolling(p.router, polling, at, w)))
  {
    hide Apply, Settled;
    if Chat in p.router.sinks {
      FlagsAfterPolling(p.router.sinks[Chat], polling, at, w);
      SinkReplaced(p, Apply(p.router.sinks[Chat], SetPolling(polling), at, w).sink);
    }
  }

  lemma SinkReplaced(p: Probe, s: Sink)
    requires Inv(p) && Chat in p.router.sinks && s.chat
    requires s.transportReady == p.router.sinks[Chat].transportReady && s.stopped == p.router.sinks[Chat].stopped
    requires p.router.storageFailed || Settled(s)
    ensures Inv(p.(router := p.router.(sinks := p.router.sinks[Chat := s])))
  {
    hide Settled;
    var q := p.(router := p.router.(sinks := p.router.sinks[Chat := s]));
    assert q.router.sinks.Keys == p.router.sinks.Keys;
  }

  lemma FlagsAfterPolling(s: Sink, polling: Polling, at: int, w: Write)
    ensures var d := Apply(s, SetPolling(polling), at, w);
            && d.sink.transportReady == s.transportReady && d.sink.stopped == s.stopped && d.sink.chat == s.chat
            && (Settled(s) && d.error != StorageError ==> Settled(d.sink))
  {
  }

  lemma LatchedKeeps(p: Probe)
    requires Inv(p)
    ensures var q := p.(router := MarkStorageFailed(p.router)); Inv(q) && Rel(p, q)
  {
    hide TimedTo, Rel;
    RelSame(p, p);
    LatchedTimes(p.router, p.router, p.clock);
    NothingMutes(p.router, p.session.failed);
    RelWrite(p, MarkStorageFailed(p.router));
  }

  lemma NothingMutes(r: Router, failed: set<Source>)
    ensures Muted(r, r, failed) && Frozen(r, r)
  {
  }

  lemma ReactKeeps(p: Probe, e: Happening)
    requires Inv(p)
    ensures var s := React(p, e); Keeps(s) && Rel(p, s.p)
  {
    hide Core, Shape, Rel, Step, ForceGap, SetChatPolling;
    match e {
      case Ticked(i) => StepKeeps(p, i); RelStep(p, i);
      case ClockGap(i) => GapKeeps(p, i);
      case Polled(polling, at, w) => PollingKeeps(p, polling, at, w);
      case StorageLatched => LatchedKeeps(p);
    }
  }

  /** The invariant holds after any run, and everything the run did is accounted for. */
  lemma {:induction false} RunKeeps(p: Probe, es: seq<Happening>)
    requires Inv(p)
    ensures var s := RunOf(p, es); Keeps(s) && Rel(p, s.p)
    decreases |es|
  {
    hide Core, Shape, Rel, React;
    if es == [] {
      RelSame(p, p);
    } else {
      ReactKeeps(p, es[0]);
      var s := React(p, es[0]);
      if s.Go? {
        RunKeeps(s.p, es[1..]);
        RelTransitive(p, s.p, RunOf(s.p, es[1..]).p);
      }
    }
  }

  /** A state some run reaches without a fatal error. */
  ghost predicate Reached(p: Probe) {
    exists specs, sources, url, duration, externalClock, now, w, es :: Reaches(p, Start(specs, sources, url, duration, externalClock, now, w), es)
  }

  ghost predicate Reaches(p: Probe, start: Probe, es: seq<Happening>) { RunOf(start, es) == Go(p) }

  lemma ReachedInv(p: Probe)
    requires Reached(p)
    ensures Inv(p) && Timed(p)
  {
    var specs, sources, url, duration, externalClock, now, w, es :|
      Reaches(p, Start(specs, sources, url, duration, externalClock, now, w), es);
    StartInv(specs, sources, url, duration, externalClock, now, w);
    RunKeeps(Start(specs, sources, url, duration, externalClock, now, w), es);
  }

  // ----- the theorems -----

  /** At most one job exists. A cold reconnect never runs beside a setup worker or a live
      socket; a handover job runs beside both and validates no token. No worker or job was
      ever started while another was held. */
  lemma WorkIsExclusive(p: Probe)
    requires Reached(p)
    ensures p.job.Some? && p.job.value.authorized ==> p.worker == None && !p.socket
    ensures p.job.Some? && !p.job.value.authorized ==> p.worker.Some? && p.socket && p.handover
    ensures p.job.Some? && p.handover ==> !p.job.value.authorized
    ensures p.worker.Some? && !p.stop ==> p.socket
    ensures !p.overlapped
  {
    ReachedInv(p);
  }

  /** Opens and resolves alternate, every resolve answers the open before it, and a row without
      a resolve is the last one. */
  ghost predicate Sound(gaps: seq<GapEvent>, sources: set<Source>) {
    && (forall i :: 0 <= i < |gaps| ==> (gaps[i].Opened? <==> i % 2 == 0))
    && (forall i :: 0 < i < |gaps| && gaps[i].Resolved? ==> Answers(gaps[i - 1], gaps[i], sources))
    && (forall id :: OpenRow(gaps, id) ==> gaps != [] && gaps[|gaps| - 1].Opened? && gaps[|gaps| - 1].id == id)
  }

  lemma LogIsSound(gaps: seq<GapEvent>, next: nat, sources: set<Source>)
    requires GapLog(gaps, next, sources)
    ensures Sound(gaps, sources)
  {
    hide GapLog, Answers;
    forall i | 0 <= i < |gaps|
      ensures gaps[i].Opened? <==> i % 2 == 0
      ensures gaps[i].Resolved? ==> i > 0 && Answers(gaps[i - 1], gaps[i], sources)
    {
      GapsAlternate(gaps, next, sources, i);
    }
    forall id | OpenRow(gaps, id) ensures gaps != [] && gaps[|gaps| - 1].Opened? && gaps[|gaps| - 1].id == id {
      AtMostOneOpen(gaps, next, sources, id);
    }
  }

  /** After any run, also one that ended in a fatal error: gap opens and resolves alternate, at
      most one row is open, every resolve rests on a session made after the loss that opened
      the gap, with a confirmed subscription and a frame within its keepalive interval; while
      the clock did not go back, no recovery is before its detection. */
  lemma GapRowsAreSound(start: Probe, es: seq<Happening>)
    requires Reached(start)
    ensures var p := RunOf(start, es).p;
            && Sound(p.router.gaps, p.router.sinks.Keys)
            && (p.monotone ==> forall i, j :: 0 <= i < j < |p.router.gaps| ==> TimeOf(p.router.gaps[i]) <= TimeOf(p.router.gaps[j]))
  {
    hide Shape, Reached, Sound, RunOf;
    ReachedInv(start);
    RunKeeps(start, es);
    var p := RunOf(start, es).p;
    LogIsSound(p.router.gaps, p.router.nextGap, p.router.sinks.Keys);
    if p.monotone { TimesOrdered(p.router.gaps, p.clock); }
  }

  lemma {:induction false} TimesOrdered(gaps: seq<GapEvent>, t: int)
    requires GapTimes(gaps, t)
    ensures forall i, j :: 0 <= i < j < |gaps| ==> TimeOf(gaps[i]) <= TimeOf(gaps[j])
    ensures forall i :: 0 <= i < |gaps| ==> TimeOf(gaps[i]) <= t
    decreases |gaps|
  {
    if gaps != [] {
      var front := gaps[..|gaps| - 1];
      TimesOrdered(front, TimeOf(gaps[|gaps| - 1]));
      assert forall i :: 0 <= i < |front| ==> gaps[i] == front[i];
    }
  }

  /** Flags and rows agree in every reached state: the router flags exactly the sinks whose
      transport is up, and, while storage works, each of those that holds no bad notification
      is at its resting health: capture_ready, or for chat the row of its polling state. */
  lemma SettledHealth(p: Probe, source: Source)
    requires Reached(p) && source in p.router.sinks
    ensures var s := p.router.sinks[source];
            && (source in p.router.ready <==> s.transportReady)
            && (!p.router.storageFailed && s.transportReady && !s.processingError ==>
                  s.health == Some(if s.chat then PollingHealth(s.polling) else Health(Healthy, CaptureReady)))
  {
    ReachedInv(p);
    assert Settled(p.router.sinks[source]) || p.router.storageFailed;
  }

  /** No loss goes unrecorded: while the latest session is lost and storage works, a gap row
      is open; without a socket the run is waiting for a scheduled retry or a reconnect job. */
  lemma LossIsRecorded(p: Probe)
    requires Reached(p) && IsLost(p) && !p.router.storageFailed
    ensures p.router.openGap.Some? && OpenRow(p.router.gaps, p.router.openGap.value)
    ensures p.router.ready == {} && !p.socket && (p.job.Some? || p.retryAt.Some? || p.stop)
  {
    ReachedInv(p);
    var gaps := p.router.gaps;
    forall k | 0 <= k < |gaps| ensures gaps[k].Resolved? ==> k > 0 && gaps[k].id == gaps[k - 1].id {
      GapsAlternate(gaps, p.router.nextGap, p.router.sinks.Keys, k);
    }
    OpenIdIsFresh(gaps, p.router.nextGap, p.router.sinks.Keys);
  }

  lemma {:induction false} OpenIdIsFresh(gaps: seq<GapEvent>, next: nat, sources: set<Source>)
    requires GapLog(gaps, next, sources) && !Closed(gaps)
    ensures forall k :: 0 <= k < |gaps| - 1 ==> gaps[k].id < gaps[|gaps| - 1].id
  {
    var front, e := gaps[..|gaps| - 1], gaps[|gaps| - 1];
    forall k | 0 <= k < |front| ensures gaps[k].id < e.id {
      GapsAlternate(front, e.id, sources, k);
    }
  }

  /** Once a source has failed or been revoked, nothing that happens later makes it ready or
      asks for its subscription again; if storage worked when it failed, the router never flags
      it again and its sink never writes a healthy row. */
  lemma FailedForever(p: Probe, es: seq<Happening>, source: Source)
    requires Reached(p) && source in p.session.failed
    ensures var q := RunOf(p, es).p;
            && source in q.session.failed && !SourceReady(q.session, source)
            && p.requests <= q.requests && (forall i :: |p.requests| <= i < |q.requests| ==> source !in q.requests[i])
    ensures var q := RunOf(p, es).p;
            !p.router.storageFailed && source in p.router.sinks ==>
              && source !in q.router.ready && source in q.router.sinks
              && NoHealthySince(p.router.sinks[source].log, q.router.sinks[source].log)
  {
    hide Frozen, Timed, Reached, RunOf, Shape;
    ReachedInv(p);
    RunKeeps(p, es);
    var q := RunOf(p, es).p;
    assert StaysDown(p.router, q.router, source);
  }

  function LogOf(r: Router, source: Source): seq<Row> { if source in r.sinks then r.sinks[source].log else [] }

  /** Whatever happens from here on, the source's sink writes no healthy row. */
  ghost predicate NeverHealthyAgain(p: Probe, source: Source) {
    forall es :: NoHealthySince(LogOf(p.router, source), LogOf(RunOf(p, es).p.router, source))
  }

  /** The guard: storage works, or the sink is one that only the router writes to, or its
      transport is down, or it holds a bad notification. */
  predicate Silent(r: Router, source: Source)
    requires source in r.sinks
  {
    !r.storageFailed || source != Chat || !r.sinks[source].transportReady || r.sinks[source].processingError
  }

  /** Exactly when a failed source is never reported healthy again. A revocation that arrives
      after a failed write in the same tick is not dispatched, which leaves the chat sink's
      transport up for the coordinator's next polling states. */
  lemma NeverHealthyIff(p: Probe, source: Source)
    requires Reached(p) && source in p.session.failed && source in p.router.sinks
    ensures NeverHealthyAgain(p, source) <==> Silent(p.router, source)
  {
    hide Reached, RunOf, Shape, Frozen, TimedTo;
    ReachedInv(p);
    if Silent(p.router, source) {
      forall es ensures NoHealthySince(LogOf(p.router, source), LogOf(RunOf(p, es).p.router, source)) {
        RunKeeps(p, es);
        SilentStays(p, RunOf(p, es).p, source);
      }
    } else {
      var es := TurnsHealthy(p);
      assert !NoHealthySince(LogOf(p.router, source), LogOf(RunOf(p, es).p.router, source));
    }
  }

  lemma SilentStays(p: Probe, q: Probe, source: Source)
    requires Inv(p) && Rel(p, q) && source in p.session.failed && source in p.router.sinks && Silent(p.router, source)
    ensures NoHealthySince(LogOf(p.router, source), LogOf(q.router, source))
  {
    hide TimedTo;
    assert StaysDown(p.router, q.router, source);
  }

  /** One stale and one live polling state make it healthy. */
  lemma TurnsHealthy(p: Probe) returns (es: seq<Happening>)
    requires Inv(p) && Chat in p.router.sinks && !Silent(p.router, Chat)
    ensures !NoHealthySince(LogOf(p.router, Chat), LogOf(RunOf(p, es).p.router, Chat))
  {
    hide Shape, ValidSession, GapInv, LossMemory, PendingApart, FailedNotReady;
    var stale, live := Polled(PolledStale, 0, Committed), Polled(PolledLive, 0, Committed);
    var s := p.router.sinks[Chat];
    TwoPolls(s);
    var a := Apply(s, SetPolling(PolledStale), 0, Committed).sink;
    var q := React(p, stale).p;
    assert React(p, stale).Go? && q.router.sinks[Chat] == a;
    var b := Apply(a, SetPolling(PolledLive), 0, Committed).sink;
    assert React(q, live).Go? && React(q, live).p.router.sinks[Chat] == b;
    es := [stale, live];
    assert es[1..] == [live] && es[1..][1..] == [];
    assert RunOf(q, [live]) == React(q, live) by { assert RunOf(React(q, live).p, []) == React(q, live); }
    assert RunOf(p, es) == React(q, live);
  }

  lemma TwoPolls(s: Sink)
    requires s.chat && s.transportReady && !s.processingError && !s.stopped
    ensures var a := Apply(s, SetPolling(PolledStale), 0, Committed);
            var b := Apply(a.sink, SetPolling(PolledLive), 0, Committed);
            a.error == NoError && b.error == NoError && !NoHealthySince(s.log, b.sink.log)
  {
    var a := Apply(s, SetPolling(PolledStale), 0, Committed).sink;
    var b := Apply(a, SetPolling(PolledLive), 0, Committed).sink;
    assert |s.log| <= |b.log| - 1 && b.log[|b.log| - 1].health.status == Healthy;
  }

  /** After the first failed write of a run nothing reaches the database through the router: no
      gap row, no row of raids or follows, and of chat only rows for polling states. */
  lemma NothingAfterStorageFailure(p: Probe, es: seq<Happening>)
    requires Reached(p) && p.router.storageFailed
    ensures var q := RunOf(p, es).p;
            && q.router.storageFailed && q.router.gaps == p.router.gaps && q.router.sinks.Keys == p.router.sinks.Keys
            && (forall s :: s in p.router.sinks && s != Chat ==> q.router.sinks[s] == p.router.sinks[s])
            && (Chat in p.router.sinks ==>
                  p.router.sinks[Chat].log <= q.router.sinks[Chat].log
                  && forall i :: |p.router.sinks[Chat].log| <= i < |q.router.sinks[Chat].log| ==> PollingRow(q.router.sinks[Chat].log[i].health))
  {
    hide Reached, RunOf, Shape, TimedTo, PollingRow;
    ReachedInv(p);
    RunKeeps(p, es);
  }

  /** While storage works and the clock only went forward, every sink the session reached is the
      outcome of successful calls at ordered times. */
  lemma SinkIsARun(p: Probe, source: Source)
    requires Reached(p) && source in p.router.sinks && p.monotone && !p.router.storageFailed
    ensures Replayed(p.router.sinks[source], source == Chat, p.clock)
  {
    ReachedInv(p);
  }
}
