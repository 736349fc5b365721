/** What the enhanced work does, exactly, and when (scripts/collect_stream.py): how an attempt
    ends, what is retried, started and requested. */
module EnhancedProgress {
  import opened Common
  import opened EventSink
  import opened EnhancedWork
  import opened EnhancedRuns

  // ----- how a snapshot ends -----

  /** The attempt holds: no clock gap since it began, its stream still tracked, observed live. */
  predicate AttemptHolds(job: PageJob, e: Env) { job.generation == e.generation && e.live && e.tracked == Some(job.stream) }

  /** Page twenty was reached, or two minutes have passed on either clock. */
  predicate AtLimit(a: Active, job: PageJob, now: Reading) {
    job.page >= 20 || now.tick - a.requestedAt.tick >= 120_000_000 || now.utc - a.requestedAt.utc >= 120_000_000
  }

  predicate RejectedBy(job: PageJob, e: Env) { !AttemptHolds(job, e) }

  /** The last page came. */
  predicate CompletedBy(job: PageJob, r: Reply, e: Env) { AttemptHolds(job, e) && !r.fatal && r.error == None && r.after == None }

  /** The request failed, or there are more pages than the attempt may take. */
  predicate CutShortBy(a: Active, job: PageJob, r: Reply, e: Env, now: Reading) {
    AttemptHolds(job, e) && !r.fatal && (r.error.Some? || (r.after.Some? && AtLimit(a, job, now)))
  }

  /** There is another page, and it may be asked for. */
  predicate ContinuedBy(a: Active, job: PageJob, r: Reply, e: Env, now: Reading) {
    AttemptHolds(job, e) && !r.fatal && r.error == None && r.after.Some? && !AtLimit(a, job, now)
  }

  /** The attempt with this page's members, cursor and total counted in. */
  predicate WithPage(a: Active, job: PageJob, r: Reply, b: Active) {
    && b == a.(members := b.members, pages := b.pages, firstTotal := b.firstTotal, totalChanged := b.totalChanged, looks := b.looks, nextJob := b.nextJob)
    && b.members == a.members + r.members && b.pages == a.pages + [Page(job.after, r.members, r.after)]
    && b.firstTotal == Some(if a.firstTotal.Some? then a.firstTotal.value else r.total)
    && (b.totalChanged <==> a.totalChanged || (a.firstTotal.Some? && a.firstTotal.value != r.total))
  }

  /** The snapshot is finalised with this status and the members it has: the row is there unless
      its write failed; only if that write and the health row commit is the attempt over and
      does the run go on. */
  ghost predicate FinalisedAs(w: Work, b: Active, status: Ending, s: Store, h: Res) {
    && h.w == w.(snapshots := h.w.snapshots, active := h.w.active)
    && h.w.snapshots == w.snapshots + (if s.row == Failed then [] else [SnapshotRow(b, status, b.members, Now(w))])
    && h.w.active == (if s.row == Committed && s.health then None else Some(b))
    && (if s.row == Committed && s.health then h.Go? else h.Halt? && h.why == StorageHalt)
  }

  /** What a page's reply does to the snapshot in progress. */
  lemma PresenceVerdict(w: Work, job: PageJob, r: Reply, e: Env, now: Reading, s: Store)
    requires w.active.Some? && job.snapshot == w.active.value.id
    ensures var h, a := HandlePresence(w, job, r, e, now, s), w.active.value;
            && (RejectedBy(job, e) ==> FinalisedAs(w, a, Rejected, s, h))
            && (AttemptHolds(job, e) && r.fatal ==> h == Halt(w, AuthorizationHalt))
            && (AttemptHolds(job, e) && !r.fatal && r.error.Some? ==> FinalisedAs(w, a, Partial, s, h))
            && (CompletedBy(job, r, e) ==> exists b :: WithPage(a, job, r, b) && FinalisedAs(w, b, Complete, s, h))
            && (CutShortBy(a, job, r, e, now) && r.error == None ==> exists b :: WithPage(a, job, r, b) && FinalisedAs(w, b, Partial, s, h))
            && (ContinuedBy(a, job, r, e, now) ==>
                  h.Go? && h.w == w.(active := h.w.active) && h.w.active.Some? && WithPage(a, job, r, h.w.active.value)
                  && h.w.active.value.nextJob == Some(PageJob(job.snapshot, job.stream, job.generation, job.page + 1, r.after)))
  {
    hide FinalisedAs, FinalizePresence, TakePage, WithPage;
    var a := w.active.value;
    var b := TakePage(a, job, r, Look(Now(w), e));
    var d := w.(active := Some(b));
    FinaliseIs(w, Rejected, s);
    FinaliseIs(w, Partial, s);
    FinaliseIs(d, Complete, s);
    FinaliseIs(d, Partial, s);
    TakenIs(a, job, r, Look(Now(w), e));
    FinalisedFrom(w, d, b, s);
    LimitIs(a, b, job, now);
    WithNext(a, job, r, b, NextPage(job, r.after));
  }

  lemma FinaliseIs(w: Work, status: Ending, s: Store)
    requires w.active.Some?
    ensures FinalisedAs(w, w.active.value, status, s, FinalizePresence(w, status, s))
  {
  }

  lemma FinalisedFrom(w: Work, d: Work, b: Active, s: Store)
    requires d == w.(active := Some(b))
    ensures forall status, h :: FinalisedAs(d, b, status, s, h) ==> FinalisedAs(w, b, status, s, h)
  {
  }

  lemma TakenIs(a: Active, job: PageJob, r: Reply, l: Look)
    ensures WithPage(a, job, r, TakePage(a, job, r, l))
    ensures TakePage(a, job, r, l).requestedAt == a.requestedAt
  {
  }

  lemma WithNext(a: Active, job: PageJob, r: Reply, b: Active, next: PageJob)
    requires WithPage(a, job, r, b)
    ensures WithPage(a, job, r, b.(nextJob := Some(next)))
  {
  }

  lemma LimitIs(a: Active, b: Active, job: PageJob, now: Reading)
    requires b.requestedAt == a.requestedAt
    ensures (job.page >= MAX_PAGES || Elapsed(b, now) >= MAX_ATTEMPT) == AtLimit(a, job, now)
  {
  }

  /** The row a reply adds, as an equivalence: a complete row exactly when the last page came to
      an attempt that holds, a partial one exactly on an error or at the limit, a rejected one
      exactly when the attempt no longer holds; an uncommitted write alone leaves none. */
  lemma StatusIff(w: Work, job: PageJob, r: Reply, e: Env, now: Reading, s: Store)
    requires w.active.Some? && job.snapshot == w.active.value.id
    ensures var rows, a := HandlePresence(w, job, r, e, now, s).w.snapshots, w.active.value;
            && w.snapshots <= rows && |rows| <= |w.snapshots| + 1
            && (AddsRow(w, rows, Complete) <==> CompletedBy(job, r, e) && s.row != Failed)
            && (AddsRow(w, rows, Partial) <==> CutShortBy(a, job, r, e, now) && s.row != Failed)
            && (AddsRow(w, rows, Rejected) <==> RejectedBy(job, e) && s.row != Failed)
            && !AddsRow(w, rows, Interrupted)
  {
    hide HandlePresence, AtLimit, WithPage;
    PresenceVerdict(w, job, r, e, now, s);
    hide AttemptHolds;
  }

  predicate AddsRow(w: Work, rows: seq<SnapshotRow>, status: Ending) {
    |rows| == |w.snapshots| + 1 && rows[|w.snapshots|].status == status
  }

  // ----- the same over a whole advance -----

  lemma ContinueRows(w: Work, e: Env, now: Reading, i: AdvanceInput)
    ensures var rows := Continue(w, e, now, i).w.snapshots;
            && w.snapshots <= rows && |rows| <= |w.snapshots| + 1
            && (|rows| == |w.snapshots| + 1 <==> w.active.Some? && !Holds(w.active.value, e) && i.rechecked.row != Failed)
            && (|rows| == |w.snapshots| + 1 ==> rows[|w.snapshots|].status == Rejected && rows[|w.snapshots|].members == w.active.value.members)
  {
    hide Dispatch, Recheck, BeginIfDue, Holds;
    RecheckRows(w, e, i.rechecked);
    var d := Recheck(w, e, i.rechecked);
    BeginRows(d.w, e, now, i.begun);
    DispatchRows(BeginIfDue(d.w, e, now, i.begun).w, now.tick);
  }

  lemma RecheckRows(w: Work, e: Env, s: Store)
    ensures var rows := Recheck(w, e, s).w.snapshots;
            if w.active.Some? && !Holds(w.active.value, e) && s.row != Failed
            then rows == w.snapshots + [SnapshotRow(w.active.value, Rejected, w.active.value.members, Now(w))] else rows == w.snapshots
  {
  }

  lemma BeginRows(w: Work, e: Env, now: Reading, s: Store)
    ensures BeginIfDue(w, e, now, s).w.snapshots == w.snapshots
  {
  }

  lemma DispatchRows(w: Work, tick: int)
    ensures Dispatch(w, tick).snapshots == w.snapshots
  {
  }

  /** The row a whole advance adds when it brings the reply to the page in flight: as the reply
      decides, or rejected if the attempt goes on but no longer holds at the second reading. */
  lemma AdvanceVerdict(w: Work, i: AdvanceInput, job: PageJob, r: Reply)
    requires Inv(w) && w.inFlight == Some(PresencePage(job)) && i.reply == Some(r) && w.active.Some? && job.snapshot == w.active.value.id
    ensures var rows, a, stored := Advance(w, i).w.snapshots, w.active.value, i.handled.row != Failed;
            && w.snapshots <= rows && |rows| <= |w.snapshots| + 1
            && (AddsRow(w, rows, Complete) <==> CompletedBy(job, r, i.before) && stored)
            && (AddsRow(w, rows, Partial) <==> CutShortBy(a, job, r, i.before, i.now) && stored)
            && (AddsRow(w, rows, Rejected) <==>
                  (RejectedBy(job, i.before) && stored)
                  || (ContinuedBy(a, job, r, i.before, i.now) && RejectedBy(job, i.after) && i.rechecked.row != Failed))
            && (AddsRow(w, rows, Complete) ==> rows[|w.snapshots|].members == a.members + r.members)
  {
    hide HandlePresence, Continue, AtLimit, CompletedBy, CutShortBy, ContinuedBy, FinalisedAs, WithPage, Conserved, Counted, Bounded, SoundAttempt, PageRequests;
    var m := AddMoment(w, i.before, i.after).(inFlight := None);
    var d := HandlePresence(m, job, r, i.before, i.now, i.handled);
    StatusIff(m, job, r, i.before, i.now, i.handled);
    PresenceVerdict(m, job, r, i.before, i.now, i.handled);
    VerdictLeaves(m, job, r, i.before, i.now, i.handled);
    assert Asks(w.active.value, job);
    if d.Go? {
      var f := d.w.(last := Some(PresenceKind));
      ContinueRows(f, i.after, i.later, i);
    }
  }

  /** After a reply the run goes on with the same attempt only if it is to be continued. */
  lemma VerdictLeaves(w: Work, job: PageJob, r: Reply, e: Env, now: Reading, s: Store)
    requires w.active.Some? && job.snapshot == w.active.value.id
    ensures var h, a := HandlePresence(w, job, r, e, now, s), w.active.value;
            && (h.Go? && h.w.active.Some? <==> ContinuedBy(a, job, r, e, now))
            && (h.Go? && h.w.active.Some? ==> h.w.active.value.generation == a.generation && h.w.active.value.stream == a.stream && h.w.snapshots == w.snapshots)
            && (CompletedBy(job, r, e) && s.row != Failed ==> |h.w.snapshots| == |w.snapshots| + 1 && h.w.snapshots[|w.snapshots|].members == a.members + r.members)
            && (ContinuedBy(a, job, r, e, now) ==> !CompletedBy(job, r, e) && !CutShortBy(a, job, r, e, now) && !RejectedBy(job, e))
  {
    hide HandlePresence, AtLimit;
    PresenceVerdict(w, job, r, e, now, s);
    hide AttemptHolds;
  }

  // ----- when a snapshot begins -----

  /** Chatter presence is available, the stream observed live and tracked, the broadcaster
      known, no snapshot in progress, and the next one due. */
  predicate MayBegin(w: Work, e: Env, now: Reading) {
    && w.available && e.live && e.tracked.Some? && e.targetKnown && w.active == None
    && w.nextPresence.Some? && w.nextPresence.value <= now.tick
  }

  /** A snapshot begins exactly when it may and its row commits: with a first page to ask for,
      without a cursor, and the next snapshot five minutes after this one. */
  lemma BeginIff(w: Work, e: Env, now: Reading, s: Store)
    ensures var r := BeginIfDue(w, e, now, s);
            && (!MayBegin(w, e, now) ==> r == Go(w))
            && (MayBegin(w, e, now) && s.row != Committed ==>
                  r == Halt(if s.row == Failed then w else w.(started := w.started + {w.nextId}, nextId := w.nextId + 1), StorageHalt))
            && (MayBegin(w, e, now) && s.row == Committed ==>
                  && r.w == w.(started := w.started + {w.nextId}, nextId := w.nextId + 1, active := r.w.active, nextPresence := Some(now.tick + 300_000_000))
                  && r.w.active.Some?
                  && (var a := r.w.active.value;
                      && a.id == w.nextId && a.stream == e.tracked.value && a.generation == e.generation && a.requestedAt == now && a.members == {}
                      && a.firstTotal == None && !a.totalChanged && a.pages == []
                      && a.nextJob == Some(PageJob(w.nextId, e.tracked.value, e.generation, 1, None)))
                  && (if s.health then r.Go? else r.Halt? && r.why == StorageHalt))
  {
  }

  // ----- raid lookups -----

  /** The intent of a raid just stored: known ones change nothing; a new one is queued exactly
      while fewer than eight wait and its write committed, due at once, and otherwise final at
      once or, if its own writes failed, stranded behind a storage failure. */
  lemma RaidStoredIff(w: Work, message: nat, known: bool, start: Write, full: Write, tick: int)
    ensures var d, isNew, room := RaidStored(w, message, known, start, full, tick), !known && message !in w.intents, |w.queue| < 8;
            && (!isNew ==> d == w)
            && d == w.(intents := d.intents, queue := d.queue, intentRows := d.intentRows, stranded := d.stranded, storageFailed := d.storageFailed)
            && (isNew ==>
                  && d.intents == (if start == Failed then w.intents else w.intents + {message})
                  && d.queue == (if start == Committed && room then w.queue + [Queued(RaidJob(message, 1), tick)] else w.queue)
                  && d.intentRows == (if start == Committed && !room && full != Failed then w.intentRows + [IntentRow(message, QueueFull, 0)] else w.intentRows)
                  && d.stranded == (if start == Uncertain || (start == Committed && !room && full == Failed) then w.stranded + {message} else w.stranded)
                  && d.storageFailed == (w.storageFailed || start != Committed || (!room && full != Committed)))
  {
  }

  /** A failed or rate-limited first lookup is tried again, ahead of the queue, five seconds
      later; any other reply makes the intent final, with the number of lookups made. */
  lemma RaidVerdict(w: Work, job: RaidJob, r: Reply, tick: int, s: Store)
    ensures var d := HandleRaid(w, job, r, tick, s);
            var again := !r.fatal && job.attempt < 2 && (r.error == Some(RequestFailed) || r.error == Some(RateLimited));
            && (r.fatal ==> d == Halt(w, AuthorizationHalt))
            && (again ==> d == Go(w.(queue := [Queued(RaidJob(job.message, job.attempt + 1), tick + 5_000_000)] + w.queue)))
            && (!r.fatal && !again ==>
                  && d.w == w.(intentRows := d.w.intentRows) && (if s.row == Committed then d.Go? else d.Halt? && d.why == StorageHalt)
                  && (s.row == Failed ==> d.w.intentRows == w.intentRows)
                  && (s.row != Failed ==> exists row :: d.w.intentRows == w.intentRows + [row] && AnswersLookup(row, job, r)))
  {
    var row := IntentRow(job.message, if r.error.Some? then ContextFailed else if r.notFound then NotFound else ContextComplete, job.attempt);
    assert AnswersLookup(row, job, r);
  }

  predicate AnswersLookup(row: IntentRow, job: RaidJob, r: Reply) {
    && row.message == job.message && row.attempts == job.attempt
    && (row.status == ContextFailed <==> r.error.Some?) && (row.status == NotFound <==> r.error == None && r.notFound)
    && (row.status == ContextComplete <==> r.error == None && !r.notFound)
  }

  // ----- when a request is made -----

  /** An advance that goes on makes a request exactly when none is in flight, no stop is seen,
      the viewer poll is idle and not due within five seconds, and a page or a lookup is ready. */
  lemma RequestsIff(w: Work, e: Env, now: Reading, i: AdvanceInput)
    ensures var r := Continue(w, e, now, i);
            var d := Recheck(w, e, i.rechecked);
            var f := BeginIfDue(d.w, e, now, i.begun);
            && (r.Go? <==> d.Go? && f.Go?)
            && (r.Go? ==>
                  var free := w.inFlight == None && !i.stop && !e.pollBusy && e.nextPoll - now.tick >= 5_000_000;
                  var ready := (f.w.active.Some? && f.w.active.value.nextJob.Some?) || (|w.queue| > 0 && w.queue[0].due <= now.tick);
                  && (r.w.inFlight != w.inFlight <==> free && ready) && (!(free && ready) ==> r == f)
                  && (free && ready ==> r.w.requests == w.requests + [r.w.inFlight.value]))
  {
    hide Recheck, BeginIfDue, Dispatch;
    var d := Recheck(w, e, i.rechecked);
    if d.Go? {
      SameRequests(w, e, now, i);
      var f := BeginIfDue(d.w, e, now, i.begun);
      if f.Go? && f.w.inFlight == None { Dispatched(f.w, now.tick); }
    }
  }

  lemma SameRequests(w: Work, e: Env, now: Reading, i: AdvanceInput)
    ensures var d := Recheck(w, e, i.rechecked);
            var f := BeginIfDue(d.w, e, now, i.begun).w;
            f.inFlight == w.inFlight && f.queue == w.queue && f.requests == w.requests
  {
    hide Recheck, BeginIfDue;
    RecheckFrame(w, e, i.rechecked);
    BeginFrame(Recheck(w, e, i.rechecked).w, e, now, i.begun);
  }

  lemma RecheckFrame(w: Work, e: Env, s: Store)
    ensures var d := Recheck(w, e, s).w; d == w.(active := d.active, snapshots := d.snapshots)
  {
  }

  lemma BeginFrame(w: Work, e: Env, now: Reading, s: Store)
    ensures var d := BeginIfDue(w, e, now, s).w; d == w.(active := d.active, started := d.started, nextId := d.nextId, nextPresence := d.nextPresence)
  {
    hide Due;
  }

  lemma Dispatched(w: Work, tick: int)
    requires w.inFlight == None
    ensures var d, ready := Dispatch(w, tick), PageReady(w) || RaidReady(w, tick);
            if ready then d.inFlight.Some? && d.requests == w.requests + [d.inFlight.value] else d == w
  {
  }

  // ----- shutdown -----

  /** The rows the queue leaves at shutdown: each intent interrupted, in order, with the lookups
      already made. */
  function Interruptions(q: seq<Queued>): seq<IntentRow> {
    if q == [] then []
    else [IntentRow(q[0].job.message, IntentInterrupted, if q[0].job.attempt > 0 then q[0].job.attempt - 1 else 0)] + Interruptions(q[1..])
  }

  lemma {:induction false} DrainInterrupts(w: Work, writes: seq<Write>)
    ensures var r := DrainQueue(w, writes);
            && ((forall x <- writes :: x == Committed) ==> r.Go?)
            && (r.Go? ==> r.w == w.(queue := [], intentRows := w.intentRows + Interruptions(w.queue)))
            && (r.Halt? ==> r.why == StorageHalt)
    decreases |w.queue|
  {
    if w.queue != [] {
      var job := w.queue[0].job;
      var row := IntentRow(job.message, IntentInterrupted, if job.attempt > 0 then job.attempt - 1 else 0);
      var write := if writes == [] then Committed else writes[0];
      var d := FinalizeIntent(w.(queue := w.queue[1..]), row, Store(write, true));
      OneInterruption(w, row, write);
      hide FinalizeIntent;
      if d.Go? {
        var rest := if writes == [] then [] else writes[1..];
        assert forall x <- rest :: x in writes;
        DrainInterrupts(d.w, rest);
        assert w.intentRows + [row] + Interruptions(w.queue[1..]) == w.intentRows + Interruptions(w.queue);
      } else {
        assert writes != [] && writes[0] in writes;
      }
    }
  }

  lemma OneInterruption(w: Work, row: IntentRow, write: Write)
    requires w.queue != []
    ensures var d := FinalizeIntent(w.(queue := w.queue[1..]), row, Store(write, true));
            if write == Committed then d == Go(w.(queue := w.queue[1..], intentRows := w.intentRows + [row])) else d.Halt? && d.why == StorageHalt
  {
  }

  /** An orderly shutdown with nothing in flight leaves the snapshot in progress interrupted and
      every waiting intent interrupted; with working writes it always goes through. */
  lemma ShutdownInterrupts(w: Work, i: ShutdownInput)
    requires w.inFlight == None && i.active == Store(Committed, true) && forall x <- i.drained :: x == Committed
    ensures var r := Shutdown(w, i);
            && r.Go? && r.w.active == None && r.w.queue == []
            && r.w.intentRows == w.intentRows + Interruptions(w.queue)
            && (w.active == None ==> r.w.snapshots == w.snapshots)
            && (w.active.Some? ==> |r.w.snapshots| == |w.snapshots| + 1 && w.snapshots <= r.w.snapshots
                                   && r.w.snapshots[|w.snapshots|].status == Interrupted && r.w.snapshots[|w.snapshots|].attempt == w.active.value
                                   && r.w.snapshots[|w.snapshots|].members == w.active.value.members)
  {
    hide DrainQueue;
    var seen := AddMoment(w, i.e, i.e);
    var f := FinalizePresence(seen, Interrupted, i.active);
    DrainInterrupts(f.w, i.drained);
  }
}
