/** The polling half of the collector as the object the source updates in place
    (scripts/collect_stream.py), refining the functions of Collector. */
module PollingCollector {
  import opened Common
  import opened EventSink
  import opened Collector
  import CollectorProgress
  import LiveStatus
  import ClockGuard

  /** Methods return None, or the error the source raises. */
  class PollingCollector {
    const guard: ClockGuard.ClockGuard
    const liveStatus: LiveStatus.LiveStatus
    /** The latest reading of the guard, a local in the source. */
    var now: Reading
    var polling: Polling
    var trackedStream: Option<string>
    var started: Reading
    var lastSuccess: Option<Reading>
    var staleReported: bool
    var discardJob: bool
    var forceValidation: bool
    var generation: nat
    var nextPoll: int
    var nextHeartbeat: int
    var jobStarted: Reading
    var busy: bool
    ghost var committed: set<string>
    ghost var jobGeneration: nat
    ghost var openGeneration: nat
    ghost var rows: seq<ChatRow>
    ghost var gapReadings: seq<Reading>

    ghost function View(): Collector
      reads this, guard, liveStatus
    {
      Collector(
        guard.previous, now, liveStatus.View(), polling, trackedStream, started, lastSuccess, staleReported, discardJob,
        forceValidation, generation, nextPoll, nextHeartbeat, jobStarted, busy, committed, jobGeneration, openGeneration, rows,
        gapReadings)
    }

    ghost predicate Valid()
      reads this, liveStatus
    {
      liveStatus.Valid()
    }

    ghost function Result(why: Option<Why>): Res
      reads this, guard, liveStatus
    {
      if why == None then Go(View()) else Halt(View(), why.value)
    }

    constructor (now: Reading)
      ensures Valid() && fresh(guard) && fresh(liveStatus) && View() == Start(now)
    {
      this.now, started, jobStarted := now, now, now;
      polling, trackedStream, lastSuccess := Awaiting, None, None;
      staleReported, discardJob, forceValidation, busy := false, false, false, false;
      generation, nextPoll, nextHeartbeat := 0, now.tick, now.tick + HEARTBEAT;
      committed, jobGeneration, openGeneration, rows, gapReadings := {}, 0, 0, [], [];
      guard := new ClockGuard.ClockGuard();
      liveStatus := new LiveStatus.LiveStatus();
      new;
      guard.previous := Some(now);
      assert liveStatus.View() == LiveStatus.Replay([]);
    }

    method SetChatPolling(p: Polling, ok: bool) returns (why: Option<Why>)
      requires Valid()
      modifies this`polling
      ensures Valid() && Result(why) == ChatPolling(old(View()), p, ok)
    {
      polling := p;
      why := if ok then None else Some(StorageFailure);
    }

    method PollFailed(ok: bool) returns (why: Option<Why>)
      requires Valid()
      modifies this`polling, liveStatus
      ensures Valid() && Result(why) == Fail(old(View()), ok)
    {
      liveStatus.PollFailed();
      why := SetChatPolling(PolledFailed, ok);
    }

    method InvalidateClock(at: Reading, ok: bool) returns (why: Option<Why>)
      requires Valid()
      modifies this, liveStatus
      ensures Valid() && Result(why) == Invalidate(old(View()), at, ok)
      ensures now == old(now)
    {
      why := PollFailed(ok);
      if why.Some? { return; }
      generation := generation + 1;
      discardJob, forceValidation := true, true;
      nextPoll := at.tick;
    }

    method NotifyGaps(gaps: seq<Reading>, ok: bool) returns (why: Option<Why>)
      requires Valid()
      modifies this, liveStatus
      ensures Valid() && Result(why) == InvalidateAll(old(View()), gaps, ok)
      ensures now == old(now)
    {
      hide Invalidate;
      ghost var before := View();
      var k := 0;
      while k < |gaps|
        invariant 0 <= k <= |gaps| && Valid() && now == before.now
        invariant InvalidateAll(View(), gaps[k..], ok) == InvalidateAll(before, gaps, ok)
      {
        assert gaps[k..][1..] == gaps[k + 1..];
        why := InvalidateClock(gaps[k], ok);
        if why.Some? { return; }
        k := k + 1;
      }
      why := None;
    }

    /** The guard's callbacks run in the order in which it reported them. */
    method TakeSample(k: Clock) returns (why: Option<Why>)
      requires Valid()
      modifies this, guard, liveStatus
      ensures Valid() && Result(why) == Sample(old(View()), k)
    {
      hide InvalidateAll, ClockGuard.SampleOf;
      var result, gaps, used := guard.Sample(k.readings);
      gapReadings := gapReadings + gaps;
      why := NotifyGaps(gaps, k.chat);
      if why.Some? { return; }
      match result
      case Raised(_) => why := Some(ClockFault);
      case Returned(reading) => now := reading;
    }

    method CheckStaleness(w: StaleInput) returns (why: Option<Why>)
      requires Valid()
      modifies this, liveStatus
      ensures Valid() && Result(why) == CheckStale(old(View()), w)
    {
      hide Age, GoStale, LiveStatus.Replay;
      var baseline := if lastSuccess.Some? then lastSuccess.value else started;
      if Age(now, baseline) < STALE { return None; }
      liveStatus.PollFailed();
      why := ReportStale(w);
    }

    method ReportStale(w: StaleInput) returns (why: Option<Why>)
      requires Valid()
      modifies this`polling, this`staleReported
      ensures Valid() && Result(why) == GoStale(old(View()), w)
    {
      hide LiveStatus.Replay;
      if staleReported { return None; }
      if !w.health { return Some(StorageFailure); }
      why := SetChatPolling(PolledStale, w.chat);
      if why.Some? { return; }
      staleReported := true;
    }

    method Abandon(chat: bool, stale: StaleInput) returns (why: Option<Why>)
      requires Valid()
      modifies this, liveStatus
      ensures Valid() && Result(why) == GiveUp(old(View()), chat, stale)
    {
      why := PollFailed(chat);
      if why.Some? { return; }
      why := CheckStaleness(stale);
    }

    method RecordPoll(stream: Option<Stream>, ok: bool) returns (why: Option<Why>)
      requires Valid()
      modifies this, liveStatus
      ensures Valid() && Result(why) == Record(old(View()), stream, ok)
    {
      why := None;
      if stream == None {
        liveStatus.PollFailed();
        if trackedStream.Some? {
          if !ok { return Some(StorageFailure); }
          trackedStream := None;
        }
      } else {
        if !ok { return Some(StorageFailure); }
        committed := committed + {stream.value.id};
        trackedStream := Some(stream.value.id);
      }
    }

    method OpenEligibility(stream: Option<Stream>, observed: Reading, ok: bool) returns (why: Option<Why>)
      requires Valid()
      modifies this, liveStatus
      ensures Valid() && Result(why) == Open(old(View()), stream, observed, ok)
    {
      if stream == None {
        why := SetChatPolling(PolledOffline, ok);
      } else {
        why := OpenStream(stream.value, observed, ok);
      }
    }

    method OpenStream(stream: Stream, observed: Reading, ok: bool) returns (why: Option<Why>)
      requires Valid()
      modifies this, liveStatus
      ensures Valid() && Result(why) == Open(old(View()), Some(stream), observed, ok)
    {
      hide LiveStatus.PollLive, CarriesOn, LiveStatus.Replay;
      ghost var carries := CarriesOn(liveStatus.View(), stream.id, observed.tick);
      var accepted := liveStatus.RecordLivePoll(stream.id, observed.utc, observed.tick);
      if !accepted { return Some(EmptyStreamId); }
      openGeneration := if carries then openGeneration else jobGeneration;
      why := SetChatPolling(PolledLive, ok);
    }

    method ConfirmPoll(pollGeneration: nat, stream: Option<Stream>, observed: Reading, i: SaveInput) returns (why: Option<Why>)
      requires Valid()
      modifies this, guard, liveStatus
      ensures Valid() && Result(why) == Confirm(old(View()), pollGeneration, stream, observed, i)
    {
      hide Sample, CheckStale, GiveUp, Reconfirm;
      why := TakeSample(i.between);
      if why.Some? { return; }
      why := CheckStaleness(i.staleBetween);
      if why.Some? { return; }
      if pollGeneration != generation || Age(now, observed) >= STALE {
        why := Abandon(i.chat, i.staleLast);
        return;
      }
      if !i.health { return Some(StorageFailure); }
      lastSuccess, staleReported := Some(observed), false;
      why := ReconfirmPoll(pollGeneration, stream, observed, i);
    }

    method ReconfirmPoll(pollGeneration: nat, stream: Option<Stream>, observed: Reading, i: SaveInput) returns (why: Option<Why>)
      requires Valid()
      modifies this, guard, liveStatus
      ensures Valid() && Result(why) == Reconfirm(old(View()), pollGeneration, stream, observed, i)
    {
      hide Sample, GiveUp, Open;
      why := TakeSample(i.last);
      if why.Some? { return; }
      if pollGeneration != generation || Age(now, observed) >= STALE {
        why := Abandon(i.chat, i.staleLast);
        return;
      }
      why := OpenEligibility(stream, observed, i.chat);
    }

    method SavePoll(observed: Option<Reading>, stream: Option<Stream>, i: SaveInput) returns (why: Option<Why>)
      requires Valid()
      modifies this, guard, liveStatus
      ensures Valid() && Result(why) == Save(old(View()), observed, stream, i)
    {
      hide Record, Confirm;
      if observed == None || observed.value.utc < jobStarted.utc || observed.value.tick < jobStarted.tick
         || observed.value.utc > now.utc || observed.value.tick > now.tick {
        why := PollFailed(i.early.chat);
        if why == None { why := Some(ObservationInvalid); }
        return;
      }
      if Age(now, observed.value) >= STALE {
        why := PollFailed(i.early.chat);
        return;
      }
      if stream.Some? && stream.value.startedAt > observed.value.utc {
        why := PollFailed(i.early.chat);
        if why == None && !i.early.health { why := Some(StorageFailure); }
        return;
      }
      var pollGeneration := generation;
      why := RecordPoll(stream, i.row);
      if why.Some? { return; }
      why := ConfirmPoll(pollGeneration, stream, observed.value, i);
    }

    method ConsumeResult(r: PollResult, w: StaleInput, save: SaveInput) returns (why: Option<Why>)
      requires Valid()
      modifies this, guard, liveStatus
      ensures Valid() && Result(why) == Consume(old(View()), r, w, save)
    {
      hide Save;
      if r.error == Some(Internal) { return Some(WorkerFailed); }
      if r.error == Some(Blocked) {
        why := PollFailed(w.chat);
        if why.Some? { return; }
        why := Some(if w.health then AuthorizationBlocked else StorageFailure);
      } else if discardJob || Age(now, jobStarted) >= STALE {
        why := PollFailed(w.chat);
      } else if r.error.Some? {
        why := PollFailed(w.chat);
        if why == None && !w.health { why := Some(StorageFailure); }
      } else {
        why := SavePoll(r.observed, r.stream, save);
      }
    }

    /** Advance past missed scheduled slots. */
    static method SkipMissed(due: int, tick: int) returns (next: int)
      requires due <= tick
      ensures next == NextSlot(due, tick) && tick < next <= tick + POLL && (next - due) % POLL == 0
    {
      var missed := (tick - due) / POLL;
      next := due + (missed + 1) * POLL;
    }

    method StartDuePoll(stop: bool)
      modifies this`jobStarted, this`jobGeneration, this`busy, this`discardJob, this`forceValidation, this`nextPoll
      ensures View() == StartPoll(old(View()), stop)
    {
      if !busy && now.tick >= nextPoll && !stop {
        var next := SkipMissed(nextPoll, now.tick);
        DispatchPoll(next);
      }
    }

    method DispatchPoll(next: int)
      modifies this`jobStarted, this`jobGeneration, this`busy, this`discardJob, this`forceValidation, this`nextPoll
      ensures View() == old(View()).(busy := true, jobStarted := now, jobGeneration := generation, discardJob := false,
                                     forceValidation := false, nextPoll := next)
    {
      hide LiveStatus.Replay, NextSlot;
      NoteJob(next);
      busy, discardJob, forceValidation := true, false, false;
    }

    method NoteJob(next: int)
      modifies this`jobStarted, this`jobGeneration, this`nextPoll
      ensures View() == old(View()).(jobStarted := now, jobGeneration := generation, nextPoll := next)
    {
      jobStarted, jobGeneration, nextPoll := now, generation, next;
    }

    method PumpMessages(ms: seq<Message>)
      requires Valid()
      modifies this, liveStatus
      ensures Valid() && View() == ReceiveAll(old(View()), ms)
      ensures Inv(old(View())) ==> rows == old(rows) + CollectorProgress.AdmittedNow(old(View()), ms)
    {
      ghost var before := View();
      if Inv(View()) { CollectorProgress.PumpStoresExactly(View(), ms); }
      hide Inv, CollectorProgress.AdmittedNow;
      var k := 0;
      while k < |ms|
        invariant 0 <= k <= |ms| && Valid()
        invariant ReceiveAll(View(), ms[k..]) == ReceiveAll(before, ms)
      {
        assert ms[k..][1..] == ms[k + 1..];
        ghost var c := View();
        var id := liveStatus.ChatStreamId(ms[k].notificationAt, ms[k].receivedAt, now.tick);
        if id.Some? && ms[k].committed {
          rows := rows + [ChatRow(id.value, ms[k].notificationAt, ms[k].receivedAt)];
        }
        assert View() == Receive(c, ms[k]);
        k := k + 1;
      }
    }

    method WriteHeartbeatIfDue(i: StepInput) returns (why: Option<Why>)
      requires Valid()
      modifies this, guard, liveStatus
      ensures Valid() && Result(why) == Heartbeat(old(View()), i)
    {
      hide Sample, CheckStale;
      why := None;
      if now.tick >= nextHeartbeat {
        if !i.heartbeat { return Some(StorageFailure); }
        nextHeartbeat := now.tick + HEARTBEAT;
        why := TakeSample(i.third);
        if why.Some? { return; }
        why := CheckStaleness(i.staleAgain);
      }
    }

    method TakeResult(i: StepInput) returns (why: Option<Why>)
      requires Valid()
      modifies this, guard, liveStatus
      ensures Valid() && Result(why) == Take(old(View()), i)
    {
      hide Sample, Consume;
      why := None;
      if busy && i.result.Some? {
        busy := false;
        why := TakeSample(i.taken);
        if why.Some? { return; }
        why := ConsumeResult(i.result.value, i.failed, i.save);
      }
    }

    method RunLead(i: StepInput) returns (why: Option<Why>)
      requires Valid()
      modifies this, guard, liveStatus
      ensures Valid() && Result(why) == Lead(old(View()), i)
    {
      hide Sample, CheckStale, Heartbeat;
      why := TakeSample(i.first);
      if why.Some? { return; }
      why := CheckStaleness(i.stale);
      if why.Some? { return; }
      why := TakeSample(i.second);
      if why.Some? { return; }
      why := WriteHeartbeatIfDue(i);
    }

    method RunPoll(i: StepInput) returns (why: Option<Why>)
      requires Valid()
      modifies this, guard, liveStatus
      ensures Valid() && Result(why) == Poll(old(View()), i)
    {
      hide Sample, CheckStale, Take, StartPoll;
      why := TakeResult(i);
      if why.Some? { return; }
      why := TakeSample(i.fourth);
      if why.Some? { return; }
      why := CheckStaleness(i.staleLast);
      if why.Some? { return; }
      StartDuePoll(i.stopAtPoll);
    }

    method PumpEventSub(k: Clock, ended: bool, ms: seq<Message>) returns (why: Option<Why>)
      requires Valid()
      modifies this, guard, liveStatus
      ensures Valid() && Result(why) == Pump(old(View()), k, ended, ms)
    {
      hide Sample, ReceiveAll;
      why := TakeSample(k);
      if why.Some? { return; }
      PumpMessages(ms);
      why := if ended then Some(ProbeEnded) else None;
    }

    /** One step: staleness, heartbeat, the finished poll, the next poll, the socket pump. */
    method RunStep(i: StepInput) returns (why: Option<Why>)
      requires Valid()
      modifies this, guard, liveStatus
      ensures Valid() && Result(why) == Step(old(View()), i)
      ensures Inv(old(View())) ==> Grows(old(View()), Result(why)) && (why == None ==> Inv(View()))
      ensures Inv(old(View())) ==> rows == old(rows) + CollectorProgress.StepStored(old(View()), i)
    {
      hide Lead, Poll, Pump, Inv, Grows, CollectorProgress.StepStored;
      if Inv(View()) {
        StepKeeps(View(), i);
        StepGrows(View(), i);
        CollectorProgress.StepStoresExactly(View(), i);
      }
      why := RunLead(i);
      if why.Some? || i.stop { return; }
      why := RunPoll(i);
      if why.Some? { return; }
      why := PumpEventSub(i.pump, i.ended, i.messages);
    }
  }
}
