/** The enhanced work as the state the collector updates in place (scripts/collect_stream.py),
    refining the functions of EnhancedWork. */
module EnhancedCollection {
  import opened Common
  import opened EventSink
  import opened EnhancedWork
  import opened EnhancedRuns
  import opened EnhancedProgress

  /** Methods return None, or the error the source raises. */
  class EnhancedCollection {
    const available: bool
    var active: Option<Active>
    var nextPresence: Option<int>
    var queue: seq<Queued>
    var inFlight: Option<Job>
    var last: Option<Kind>
    var storageFailed: bool
    /** The next key of the database's identity column. */
    var nextId: nat
    ghost var started: set<nat>
    ghost var snapshots: seq<SnapshotRow>
    ghost var intents: set<nat>
    ghost var intentRows: seq<IntentRow>
    ghost var requests: seq<Job>
    ghost var stranded: set<nat>
    /** One moment for every advance; it only numbers the looks of a snapshot. */
    var moments: seq<Moment>

    ghost function View(): Work
      reads this
    {
      Work(available, active, nextPresence, queue, inFlight, last, storageFailed, nextId, started, snapshots, intents, intentRows,
           requests, stranded, moments)
    }

    ghost function Result(why: Option<Why>): Res
      reads this
    {
      if why == None then Go(View()) else Halt(View(), why.value)
    }

    function CurrentAdvance(): nat
      reads this
      ensures CurrentAdvance() == Now(View())
    {
      if moments == [] then 0 else |moments| - 1
    }

    constructor (available: bool)
      ensures View() == NewWork(available)
    {
      this.available := available;
      active, nextPresence, queue, inFlight, last, storageFailed := None, None, [], None, None, false;
      nextId, started, snapshots, intents, intentRows, requests, stranded, moments := 0, {}, [], {}, [], [], {}, [];
    }

    method FinalizeIntentRow(row: IntentRow, s: Store) returns (why: Option<Why>)
      modifies this`intentRows
      ensures Result(why) == FinalizeIntent(old(View()), row, s)
    {
      if s.row != Failed { intentRows := intentRows + [row]; }
      why := if s.row == Committed then None else Some(StorageHalt);
    }

    /** The raid sink's callback, after the raid row is durable; the router traps its errors.
        The database keeps one intent row per message, so it knows every intent of this run. */
    method OnRaidStored(message: nat, known: bool, start: Write, full: Write, tick: int)
      requires message in intents ==> known
      modifies this
      ensures View() == RaidStored(old(View()), message, known, start, full, tick)
    {
      if known { return; }
      if start != Failed { intents := intents + {message}; }
      if start != Committed {
        storageFailed := true;
        if start == Uncertain { stranded := stranded + {message}; }
        return;
      }
      if |queue| >= QUEUE_LIMIT {
        var why := FinalizeIntentRow(IntentRow(message, QueueFull, 0), Store(full, true));
        if why.Some? {
          storageFailed := true;
          if full == Failed { stranded := stranded + {message}; }
        }
        return;
      }
      queue := queue + [Queued(RaidJob(message, 1), tick)];
    }

    method HandleRaidResult(job: RaidJob, r: Reply, tick: int, s: Store) returns (why: Option<Why>)
      modifies this`queue, this`intentRows
      ensures Result(why) == HandleRaid(old(View()), job, r, tick, s)
    {
      if r.fatal { return Some(AuthorizationHalt); }
      if r.error.Some? && job.attempt < 2 && (r.error.value == RequestFailed || r.error.value == RateLimited) {
        var retry := RaidJob(job.message, job.attempt + 1);
        queue := [Queued(retry, tick + RETRY)] + queue;
        return None;
      }
      var status := if r.error.Some? then ContextFailed else if r.notFound then NotFound else ContextComplete;
      why := FinalizeIntentRow(IntentRow(job.message, status, job.attempt), s);
    }

    method FinalizeActive(status: Ending, s: Store) returns (why: Option<Why>)
      modifies this`active, this`snapshots
      ensures Result(why) == FinalizePresence(old(View()), status, s)
    {
      if active == None { return None; }
      if s.row != Failed {
        snapshots := snapshots + [SnapshotRow(active.value, status, active.value.members, CurrentAdvance())];
      }
      if s.row != Committed || !s.health { return Some(StorageHalt); }
      active := None;
      why := None;
    }

    method HandlePresenceResult(job: PageJob, r: Reply, e: Env, now: Reading, s: Store) returns (why: Option<Why>)
      modifies this`active, this`snapshots
      ensures Result(why) == HandlePresence(old(View()), job, r, e, now, s)
      ensures old(active).Some? && job.snapshot == old(active).value.id && s.row != Failed ==>
                && (AddsRow(old(View()), snapshots, Complete) <==> CompletedBy(job, r, e))
                && (AddsRow(old(View()), snapshots, Partial) <==> CutShortBy(old(active).value, job, r, e, now))
                && (AddsRow(old(View()), snapshots, Rejected) <==> RejectedBy(job, e))
    {
      hide FinalizePresence, Elapsed, AddsRow, CompletedBy, CutShortBy, RejectedBy;
      if active.Some? && job.snapshot == active.value.id { StatusIff(View(), job, r, e, now, s); }
      if active == None || job.snapshot != active.value.id { return None; }
      if job.generation != e.generation || !e.live || e.tracked != Some(job.stream) {
        why := FinalizeActive(Rejected, s);
        return;
      }
      if r.fatal { return Some(AuthorizationHalt); }
      if r.error.Some? {
        why := FinalizeActive(Partial, s);
        return;
      }
      active := Some(TakePage(active.value, job, r, Look(CurrentAdvance(), e)));
      if r.after == None {
        why := FinalizeActive(Complete, s);
      } else if job.page >= MAX_PAGES || Elapsed(active.value, now) >= MAX_ATTEMPT {
        why := FinalizeActive(Partial, s);
      } else {
        active := Some(active.value.(nextJob := Some(NextPage(job, r.after))));
        why := None;
      }
    }

    method RecheckActive(e: Env, s: Store) returns (why: Option<Why>)
      modifies this`active, this`snapshots
      ensures Result(why) == Recheck(old(View()), e, s)
    {
      if active == None { return None; }
      if !Holds(active.value, e) {
        why := FinalizeActive(Rejected, s);
      } else {
        active := Some(active.value.(looks := active.value.looks + [Look(CurrentAdvance(), e)]));
        why := None;
      }
    }

    method BeginPresenceIfDue(e: Env, now: Reading, s: Store) returns (why: Option<Why>)
      modifies this`active, this`nextPresence, this`started, this`nextId
      ensures Result(why) == BeginIfDue(old(View()), e, now, s)
    {
      if !available || !e.live || active.Some? || e.tracked == None || nextPresence == None || now.tick < nextPresence.value
         || !e.targetKnown { return None; }
      if s.row == Failed { return Some(StorageHalt); }
      var id := nextId;
      started, nextId := started + {id}, id + 1;
      if s.row == Uncertain { return Some(StorageHalt); }
      BeginPresence(id, e, now);
      why := if s.health then None else Some(StorageHalt);
    }

    method BeginPresence(id: nat, e: Env, now: Reading)
      requires e.tracked.Some?
      modifies this`active, this`nextPresence
      ensures View() == old(View()).(active := Some(Active(id, e.tracked.value, e.generation, now, {}, None, false,
                                                           Some(PageJob(id, e.tracked.value, e.generation, 1, None)), [], [Look(Now(old(View())), e)])),
                                     nextPresence := Some(now.tick + PRESENCE))
    {
      var job := PageJob(id, e.tracked.value, e.generation, 1, None);
      active := Some(Active(id, e.tracked.value, e.generation, now, {}, None, false, Some(job), [], [Look(CurrentAdvance(), e)]));
      // Cadence follows attempt starts; missed slots are skipped.
      nextPresence := Some(now.tick + PRESENCE);
    }

    method StartRequest(job: Job)
      modifies this`inFlight, this`requests
      ensures View() == Request(old(View()), job)
    {
      inFlight := Some(job);
      requests := requests + [job];
    }

    method DispatchNext(tick: int)
      modifies this`inFlight, this`requests, this`active, this`queue
      ensures View() == Dispatch(old(View()), tick)
    {
      var raidReady := queue != [] && queue[0].due <= tick;
      var pageReady := active.Some? && active.value.nextJob.Some?;
      if pageReady && (!raidReady || last != Some(PresenceKind)) {
        var job := active.value.nextJob.value;
        active := Some(active.value.(nextJob := None));
        StartRequest(PresencePage(job));
      } else if raidReady {
        var job := queue[0].job;
        queue := queue[1..];
        StartRequest(RaidContext(job));
      }
    }

    method TakeReply(r: Reply, e: Env, now: Reading, s: Store) returns (why: Option<Why>)
      requires inFlight.Some?
      modifies this
      ensures Result(why) == Handle(old(View()), r, e, now, s)
    {
      hide HandlePresence, HandleRaid;
      var job := inFlight.value;
      inFlight := None;
      match job
      case PresencePage(page) => why := HandlePresenceResult(page, r, e, now, s);
      case RaidContext(raid) => why := HandleRaidResult(raid, r, now.tick, s);
    }

    method AdvanceWork(i: AdvanceInput) returns (why: Option<Why>)
      modifies this
      ensures Result(why) == Advance(old(View()), i)
      ensures Inv(old(View())) && why == None ==> Inv(View())
    {
      hide Handle, Continue, AddMoment, Inv;
      if Inv(View()) { AdvanceKeeps(View(), i); }
      if inFlight.Some? && i.reply.Some? {
        var kind := KindOf(inFlight.value);
        NoteMoment(i.before, i.after);
        why := TakeReply(i.reply.value, i.before, i.now, i.handled);
        if why.Some? { return; }
        last := Some(kind);
        why := ContinueWork(i.after, i.later, i);
      } else {
        NoteMoment(i.before, i.before);
        why := ContinueWork(i.before, i.now, i);
      }
    }

    method NoteMoment(before: Env, after: Env)
      modifies this`moments
      ensures View() == AddMoment(old(View()), before, after)
      ensures inFlight == old(inFlight)
    {
      moments := moments + [Moment(before, after)];
    }

    method ContinueWork(e: Env, now: Reading, i: AdvanceInput) returns (why: Option<Why>)
      modifies this
      ensures Result(why) == Continue(old(View()), e, now, i)
    {
      hide Recheck, BeginIfDue, Dispatch;
      why := RecheckActive(e, i.rechecked);
      if why.Some? { return; }
      why := BeginPresenceIfDue(e, now, i.begun);
      if why.Some? { return; }
      // Leave a small scheduling lane before the next viewer poll.
      if inFlight.Some? || i.stop || e.pollBusy || e.nextPoll - now.tick < LANE { return; }
      DispatchNext(now.tick);
    }

    method DrainRaidQueue(writes: seq<Write>) returns (why: Option<Why>)
      modifies this
      ensures Result(why) == DrainQueue(old(View()), writes)
    {
      ghost var before := View();
      var left := writes;
      while queue != []
        invariant DrainQueue(View(), left) == DrainQueue(before, writes)
        decreases |queue|
      {
        var job := queue[0].job;
        queue := queue[1..];
        why := FinalizeIntentRow(IntentRow(job.message, IntentInterrupted, if job.attempt > 0 then job.attempt - 1 else 0),
                                 Store(if left == [] then Committed else left[0], true));
        if why.Some? { return; }
        left := if left == [] then [] else left[1..];
      }
      why := None;
    }

    method ShutdownWork(i: ShutdownInput) returns (why: Option<Why>)
      modifies this
      ensures Result(why) == Shutdown(old(View()), i)
    {
      hide Handle, FinalizePresence, DrainQueue, AddMoment;
      NoteMoment(i.e, i.e);
      if inFlight.Some? {
        why := TakeReply(i.reply, i.e, i.now, i.handled);
        if why.Some? { return; }
      }
      why := FinalizeActive(Interrupted, i.active);
      if why.Some? { return; }
      why := DrainRaidQueue(i.drained);
    }
  }
}
