/** Every raid, advance and shutdown keeps the accounts of the enhanced work. */
module EnhancedRuns {
  import opened Common
  import opened EventSink
  import opened EnhancedWork

  // ----- multisets of ids -----

  lemma PushFront(q: seq<Queued>, x: Queued)
    ensures QueuedIds([x] + q) == multiset{x.job.message} + QueuedIds(q)
  {
  }

  lemma {:induction false} PushBack(q: seq<Queued>, x: Queued)
    ensures QueuedIds(q + [x]) == QueuedIds(q) + multiset{x.job.message}
    decreases |q|
  {
    if q == [] {
      assert q + [x] == [x] + [];
      PushFront([], x);
    } else {
      assert (q + [x])[1..] == q[1..] + [x];
      PushBack(q[1..], x);
    }
  }

  lemma {:induction false} QueuedMember(q: seq<Queued>, k: nat)
    requires k < |q|
    ensures q[k].job.message in QueuedIds(q)
    decreases k
  {
    if k > 0 { QueuedMember(q[1..], k - 1); }
  }

  lemma AddRow(rows: seq<IntentRow>, row: IntentRow)
    ensures RowIds(rows + [row]) == RowIds(rows) + multiset{row.message}
  {
  }

  lemma {:induction false} RowMember(rows: seq<IntentRow>, k: nat)
    requires k < |rows|
    ensures rows[k].message in RowIds(rows)
    decreases |rows|
  {
    if k < |rows| - 1 { RowMember(rows[..|rows| - 1], k); }
  }

  lemma AddSnapshot(rows: seq<SnapshotRow>, row: SnapshotRow)
    ensures SnapshotIds(rows + [row]) == SnapshotIds(rows) + multiset{row.attempt.id}
  {
  }

  lemma AddRequest(requests: seq<Job>, job: Job)
    ensures forall m :: IntentRequests(requests + [job], m) == IntentRequests(requests, m) + (if job.RaidContext? && job.raid.message == m then 1 else 0)
    ensures forall id :: PageRequests(requests + [job], id) == PageRequests(requests, id) + (if job.PresencePage? && job.page.snapshot == id then 1 else 0)
  {
  }

  lemma AddElement(s: set<nat>, x: nat)
    requires x !in s
    ensures multiset(s + {x}) == multiset(s) + multiset{x}
  {
  }

  // ----- the four accounts, apart -----

  ghost predicate IntentsOnce(w: Work) {
    && multiset(w.intents) == QueuedIds(w.queue) + FlyingId(w.inFlight) + RowIds(w.intentRows) + multiset(w.stranded)
    && (!w.storageFailed ==> w.stranded == {})
  }

  ghost predicate SnapshotsOnce(w: Work) {
    multiset(w.started) == SnapshotIds(w.snapshots) + ActiveId(w.active) && (forall id <- w.started :: id < w.nextId)
  }

  lemma Assemble(w: Work)
    ensures Conserved(w) <==> IntentsOnce(w) && SnapshotsOnce(w)
  {
  }

  lemma PresenceFrame(w: Work, d: Work)
    requires Presence(w)
    requires d.active == w.active && d.snapshots == w.snapshots && d.requests == w.requests && d.started == w.started
    requires d.inFlight == w.inFlight || (!PageFlies(d.inFlight) && !PageFlies(w.inFlight))
    ensures Presence(d)
  {
  }

  predicate PageFlies(j: Option<Job>) { j.Some? && j.value.PresencePage? }

  lemma CountedFrame(w: Work, d: Work)
    requires Counted(w) && d.queue == w.queue && d.intentRows == w.intentRows && d.requests == w.requests && d.intents == w.intents
    requires d.stranded == w.stranded && (d.inFlight == w.inFlight || d.inFlight == None || PageFlies(d.inFlight))
    ensures Counted(d)
  {
  }

  // ----- raid intents -----

  /** The accounts of intents, with one of them taken out of flight. */
  ghost predicate Owing(w: Work, job: RaidJob) {
    && w.inFlight == None && Inv(w.(inFlight := Some(RaidContext(job))))
  }

  lemma OwingParts(w: Work, job: RaidJob)
    requires Owing(w, job)
    ensures multiset(w.intents) == QueuedIds(w.queue) + multiset{job.message} + RowIds(w.intentRows) + multiset(w.stranded)
    ensures (!w.storageFailed ==> w.stranded == {}) && SnapshotsOnce(w) && Counted(w) && Presence(w)
    ensures 1 <= job.attempt <= 2 && IntentRequests(w.requests, job.message) == job.attempt && |w.queue| <= QUEUE_LIMIT
  {
  }

  lemma RowKeeps(w: Work, row: IntentRow)
    requires Counted(w) && IntentRequests(w.requests, row.message) == row.attempts <= 2
    requires multiset(w.intents) == QueuedIds(w.queue) + multiset{row.message} + FlyingId(w.inFlight) + RowIds(w.intentRows) + multiset(w.stranded)
    requires (!w.storageFailed ==> w.stranded == {}) && SnapshotsOnce(w) && Presence(w) && Bounded(w)
    ensures Inv(w.(intentRows := w.intentRows + [row]))
  {
    hide Presence, QueuedIds, IntentRequests;
    var d := w.(intentRows := w.intentRows + [row]);
    AddRow(w.intentRows, row);
    PresenceFrame(w, d);
    RowCounted(w, row);
    Assemble(d);
  }

  lemma RowCounted(w: Work, row: IntentRow)
    requires Counted(w) && IntentRequests(w.requests, row.message) == row.attempts <= 2
    ensures Counted(w.(intentRows := w.intentRows + [row]))
  {
  }

  lemma RetryKeeps(w: Work, job: RaidJob, due: int)
    requires Owing(w, job) && job.attempt < 2
    ensures Inv(w.(queue := [Queued(RaidJob(job.message, job.attempt + 1), due)] + w.queue))
  {
    hide Inv, Counted, Presence, IntentRequests, RowIds;
    OwingParts(w, job);
    var again := Queued(RaidJob(job.message, job.attempt + 1), due);
    var d := w.(queue := [again] + w.queue);
    PushFront(w.queue, again);
    RetryCounted(w, job, again);
    PresenceFrame(w, d);
    Assemble(d);
    InvOf(d);
  }

  lemma InvOf(w: Work)
    requires IntentsOnce(w) && SnapshotsOnce(w) && Counted(w) && Bounded(w) && Presence(w)
    ensures Inv(w)
  {
  }

  lemma PartsOf(w: Work)
    requires Inv(w)
    ensures IntentsOnce(w) && SnapshotsOnce(w) && Counted(w) && Bounded(w) && Presence(w)
  {
  }

  lemma RetryCounted(w: Work, job: RaidJob, again: Queued)
    requires Counted(w) && IntentRequests(w.requests, job.message) == job.attempt && 1 <= job.attempt < 2
    requires again.job == RaidJob(job.message, job.attempt + 1)
    ensures Counted(w.(queue := [again] + w.queue))
  {
  }

  lemma HandleRaidKeeps(w: Work, job: RaidJob, r: Reply, tick: int, s: Store)
    requires Owing(w, job)
    ensures HandleRaid(w, job, r, tick, s).Go? ==> Inv(HandleRaid(w, job, r, tick, s).w)
  {
    hide Inv, Owing;
    if job.attempt < 2 { RetryKeeps(w, job, tick + RETRY); }
    OwedRow(w, IntentRow(job.message, if r.error.Some? then ContextFailed else if r.notFound then NotFound else ContextComplete, job.attempt), job);
  }

  lemma OwedRow(w: Work, row: IntentRow, job: RaidJob)
    requires Owing(w, job) && row.message == job.message && row.attempts == job.attempt
    ensures Inv(w.(intentRows := w.intentRows + [row]))
  {
    hide Inv, Counted, Presence, SnapshotsOnce, QueuedIds, RowIds;
    OwingParts(w, job);
    RowKeeps(w, row);
  }

  lemma NewIntent(w: Work, message: nat)
    requires IntentsOnce(w) && message !in w.intents && Counted(w)
    ensures message !in w.stranded && IntentRequests(w.requests, message) == 0
    ensures multiset(w.intents + {message}) == multiset(w.intents) + multiset{message}
    ensures multiset(w.stranded + {message}) == multiset(w.stranded) + multiset{message}
  {
    assert multiset(w.intents)[message] == 0;
    assert multiset(w.stranded)[message] == 0;
    AddElement(w.intents, message);
    AddElement(w.stranded, message);
  }

  /** A new intent is stranded, finalised at once, or queued. */
  lemma StrandKeeps(w: Work, message: nat)
    requires Inv(w) && message !in w.intents
    ensures Inv(w.(intents := w.intents + {message}, stranded := w.stranded + {message}, storageFailed := true))
  {
    hide Inv, Presence, IntentRequests, QueuedIds, RowIds;
    PartsOf(w);
    NewIntent(w, message);
    var d := w.(intents := w.intents + {message}, stranded := w.stranded + {message}, storageFailed := true);
    PresenceFrame(w, d);
    InvOf(d);
  }

  lemma FullKeeps(w: Work, message: nat, failed: bool)
    requires Inv(w) && message !in w.intents
    ensures Inv(w.(intents := w.intents + {message}, intentRows := w.intentRows + [IntentRow(message, QueueFull, 0)], storageFailed := w.storageFailed || failed))
  {
    hide Inv, Presence, IntentRequests, QueuedIds, RowIds;
    PartsOf(w);
    NewIntent(w, message);
    var d := w.(intents := w.intents + {message}, storageFailed := w.storageFailed || failed);
    PresenceFrame(w, d);
    RowKeeps(d, IntentRow(message, QueueFull, 0));
  }

  lemma QueueKeeps(w: Work, message: nat, tick: int)
    requires Inv(w) && message !in w.intents && |w.queue| < QUEUE_LIMIT
    ensures Inv(w.(intents := w.intents + {message}, queue := w.queue + [Queued(RaidJob(message, 1), tick)]))
  {
    hide Inv, Presence, IntentRequests, QueuedIds, RowIds;
    PartsOf(w);
    NewIntent(w, message);
    var q := Queued(RaidJob(message, 1), tick);
    var d := w.(intents := w.intents + {message}, queue := w.queue + [q]);
    PushBack(w.queue, q);
    PresenceFrame(w, d);
    InvOf(d);
  }

  lemma LatchKeeps(w: Work)
    requires Inv(w)
    ensures Inv(w.(storageFailed := true))
  {
  }

  lemma RaidStoredKeeps(w: Work, message: nat, known: bool, start: Write, full: Write, tick: int)
    requires Inv(w)
    ensures Inv(RaidStored(w, message, known, start, full, tick))
  {
    hide Inv;
    LatchKeeps(w);
    if message !in w.intents {
      StrandKeeps(w, message);
      FullKeeps(w, message, full == Uncertain);
      if |w.queue| < QUEUE_LIMIT { QueueKeeps(w, message, tick); }
    }
  }

  // ----- dispatching -----

  /** The head of the queue is recorded nowhere else. */
  lemma HeadApart(w: Work)
    requires Conserved(w) && w.queue != []
    ensures var m := w.queue[0].job.message;
            && (forall k :: 1 <= k < |w.queue| ==> w.queue[k].job.message != m)
            && (forall k :: 0 <= k < |w.intentRows| ==> w.intentRows[k].message != m)
            && m !in w.stranded && m in w.intents && m !in FlyingId(w.inFlight)
  {
    var m := w.queue[0].job.message;
    assert multiset(w.intents)[m] <= 1;
    assert QueuedIds(w.queue)[m] == 1 + QueuedIds(w.queue[1..])[m];
    forall k | 1 <= k < |w.queue| ensures w.queue[k].job.message != m { QueuedMember(w.queue[1..], k - 1); }
    forall k | 0 <= k < |w.intentRows| ensures w.intentRows[k].message != m { RowMember(w.intentRows, k); }
  }

  lemma DispatchRaidKeeps(w: Work)
    requires Inv(w) && w.inFlight == None && w.queue != []
    ensures Inv(Request(w.(queue := w.queue[1..]), RaidContext(w.queue[0].job)))
  {
    hide Inv, IntentRequests, PageRequests, SoundRow, RowIds;
    PartsOf(w);
    HeadApart(w);
    AddRequest(w.requests, RaidContext(w.queue[0].job));
    var d := Request(w.(queue := w.queue[1..]), RaidContext(w.queue[0].job));
    HeadCounted(w, d);
    InvOf(d);
  }

  lemma HeadCounted(w: Work, d: Work)
    requires Counted(w) && w.inFlight == None && w.queue != []
    requires var m := w.queue[0].job.message;
             && (forall k :: 1 <= k < |w.queue| ==> w.queue[k].job.message != m)
             && (forall k :: 0 <= k < |w.intentRows| ==> w.intentRows[k].message != m)
             && m !in w.stranded && m in w.intents
    requires d == Request(w.(queue := w.queue[1..]), RaidContext(w.queue[0].job))
    ensures Counted(d)
  {
  }

  lemma DispatchPageKeeps(w: Work)
    requires Inv(w) && w.inFlight == None && PageReady(w)
    ensures Inv(Request(w.(active := Some(w.active.value.(nextJob := None))), PresencePage(w.active.value.nextJob.value)))
  {
    var job := w.active.value.nextJob.value;
    AddRequest(w.requests, PresencePage(job));
    assert w.active.value.id in ActiveId(w.active);
    assert multiset(w.started)[w.active.value.id] > 0;
  }

  lemma DispatchKeeps(w: Work, tick: int)
    requires Inv(w) && w.inFlight == None
    ensures Inv(Dispatch(w, tick))
  {
    hide Inv;
    if PageReady(w) { DispatchPageKeeps(w); }
    if RaidReady(w, tick) { DispatchRaidKeeps(w); }
  }

  // ----- snapshots -----

  /** Finalising takes any sound attempt, also one whose last page was just taken. */
  lemma FinalizeKeeps(w: Work, status: Ending, s: Store)
    requires IntentsOnce(w) && SnapshotsOnce(w) && Counted(w) && Bounded(w) && Presence(w.(active := None))
    requires w.active.Some? ==>
               SoundAttempt(w.active.value)
               && (status == Complete ==> w.active.value.pages != [] && w.active.value.pages[|w.active.value.pages| - 1].next == None)
    ensures FinalizePresence(w, status, s).Go? ==> Inv(FinalizePresence(w, status, s).w) && FinalizePresence(w, status, s).w.active == None
  {
    hide Inv, SoundAttempt, Counted, Presence, IntentsOnce, SnapshotsOnce, Bounded;
    if w.active.Some? {
      SoundFinal(w.active.value, status, Now(w));
      Finalized(w, SnapshotRow(w.active.value, status, w.active.value.members, Now(w)));
    } else {
      assert w.(active := None) == w;
      InvOf(w);
    }
  }

  lemma Finalized(w: Work, row: SnapshotRow)
    requires IntentsOnce(w) && SnapshotsOnce(w) && Counted(w) && Bounded(w) && Presence(w.(active := None))
    requires w.active == Some(row.attempt) && SoundRow(row)
    ensures Inv(w.(snapshots := w.snapshots + [row], active := None))
  {
    hide Inv, SoundRow, Counted, Presence, QueuedIds, RowIds;
    var d := w.(snapshots := w.snapshots + [row], active := None);
    AddSnapshot(w.snapshots, row);
    RowAdded(w.(active := None), row);
    CountedFrame(w, d);
    InvOf(d);
  }

  lemma SoundFinal(a: Active, status: Ending, at: nat)
    requires SoundAttempt(a) && (status == Complete ==> a.pages != [] && a.pages[|a.pages| - 1].next == None)
    ensures SoundRow(SnapshotRow(a, status, a.members, at))
  {
  }

  lemma RowAdded(w: Work, row: SnapshotRow)
    requires Presence(w) && SoundRow(row) && w.active == None
    ensures Presence(w.(snapshots := w.snapshots + [row]))
  {
  }

  lemma RecheckKeeps(w: Work, e: Env, s: Store)
    requires Inv(w)
    ensures Recheck(w, e, s).Go? ==> Inv(Recheck(w, e, s).w) && Recheck(w, e, s).w.inFlight == w.inFlight
  {
    hide Inv, Presence, Counted;
    if w.active.Some? {
      if Holds(w.active.value, e) {
        LookKeeps(w, e);
      } else {
        PartsOf(w);
        Idle(w);
        FinalizeKeeps(w, Rejected, s);
      }
    }
  }

  lemma Idle(w: Work)
    requires Presence(w)
    ensures Presence(w.(active := None)) && (w.active.Some? ==> SoundAttempt(w.active.value))
  {
  }

  lemma LookKeeps(w: Work, e: Env)
    requires Inv(w) && w.active.Some? && Holds(w.active.value, e)
    ensures Inv(w.(active := Some(w.active.value.(looks := w.active.value.looks + [Look(Now(w), e)]))))
  {
    hide PageRequests, MembersOf, QueuedIds, RowIds, SnapshotIds, IntentRequests, Counted;
    PartsOf(w);
    var d := w.(active := Some(w.active.value.(looks := w.active.value.looks + [Look(Now(w), e)])));
    CountedFrame(w, d);
    Assemble(d);
  }

  lemma BeginKeeps(w: Work, e: Env, now: Reading, s: Store)
    requires Inv(w)
    ensures BeginIfDue(w, e, now, s).Go? ==> Inv(BeginIfDue(w, e, now, s).w) && BeginIfDue(w, e, now, s).w.inFlight == w.inFlight
  {
    hide Inv, Counted, Presence, IntentsOnce;
    PartsOf(w);
    var r := BeginIfDue(w, e, now, s);
    if Due(w, e, now) && r.Go? {
      AddElement(w.started, w.nextId);
      CountedFrame(w, r.w);
      BegunPresence(w, r.w, e);
      BegunIntents(w, r.w);
      InvOf(r.w);
    }
  }

  lemma BegunIntents(w: Work, d: Work)
    requires IntentsOnce(w) && d.queue == w.queue && d.inFlight == w.inFlight && d.intentRows == w.intentRows && d.intents == w.intents
    requires d.stranded == w.stranded && d.storageFailed == w.storageFailed
    ensures IntentsOnce(d)
  {
  }

  lemma BegunPresence(w: Work, d: Work, e: Env)
    requires Presence(w) && (forall id <- w.started :: id < w.nextId)
    requires d.active.Some? && d.snapshots == w.snapshots && d.requests == w.requests && d.inFlight == w.inFlight && d.started == w.started + {w.nextId}
    requires e.live && e.tracked.Some?
    requires var a := d.active.value;
             && a == Active(w.nextId, e.tracked.value, e.generation, a.requestedAt, {}, None, false, Some(PageJob(w.nextId, e.tracked.value, e.generation, 1, None)), [], [Look(Now(w), e)])
    ensures Presence(d)
  {
  }

  /** A page asked for by the attempt in progress was taken. */
  lemma TakenPage(a: Active, job: PageJob, r: Reply, l: Look)
    requires SoundAttempt(a) && Asks(a, job) && Holds(a, l.env)
    ensures SoundAttempt(TakePage(a, job, r, l)) && Cursor(TakePage(a, job, r, l).pages) == r.after
  {
  }

  /** The accounts of presence with a page taken out of flight. */
  ghost predicate Landing(w: Work, job: PageJob) {
    w.inFlight == None && Inv(w.(inFlight := Some(PresencePage(job))))
  }

  lemma LandingParts(w: Work, job: PageJob)
    requires Landing(w, job)
    ensures IntentsOnce(w) && SnapshotsOnce(w) && Counted(w) && Bounded(w) && Presence(w.(active := None)) && w.inFlight == None
    ensures w.active.Some? ==> SoundAttempt(w.active.value)
    ensures w.active.Some? && w.active.value.id == job.snapshot ==>
              w.active.value.nextJob == None && Asks(w.active.value, job) && PageRequests(w.requests, job.snapshot) == |w.active.value.pages| + 1
    ensures w.active == None || w.active.value.id != job.snapshot ==> Inv(w)
  {
  }

  lemma HandlePresenceKeeps(w: Work, job: PageJob, r: Reply, e: Env, now: Reading, s: Store)
    requires Landing(w, job)
    ensures HandlePresence(w, job, r, e, now, s).Go? ==> Inv(HandlePresence(w, job, r, e, now, s).w)
  {
    hide Inv, Conserved, Counted, Presence, SoundAttempt, Bounded, TakePage, FinalizePresence;
    LandingParts(w, job);
    if w.active.Some? && job.snapshot == w.active.value.id {
      FinalizeKeeps(w, Rejected, s);
      FinalizeKeeps(w, Partial, s);
      if Holds(w.active.value, e) {
        TakenPage(w.active.value, job, r, Look(Now(w), e));
        TakenKeeps(w, job, r, e, s);
      }
    }
  }

  lemma TakenKeeps(w: Work, job: PageJob, r: Reply, e: Env, s: Store)
    requires Landing(w, job) && w.active.Some? && job.snapshot == w.active.value.id && Holds(w.active.value, e)
    ensures var a := TakePage(w.active.value, job, r, Look(Now(w), e));
            var d := w.(active := Some(a));
            && (r.after == None && FinalizePresence(d, Complete, s).Go? ==> Inv(FinalizePresence(d, Complete, s).w))
            && (FinalizePresence(d, Partial, s).Go? ==> Inv(FinalizePresence(d, Partial, s).w))
            && (r.after.Some? && job.page < MAX_PAGES ==> Inv(w.(active := Some(a.(nextJob := Some(NextPage(job, r.after)))))))
  {
    hide Inv, Counted, Presence, SoundAttempt, TakePage, FinalizePresence, Landing;
    LandingParts(w, job);
    TakenPage(w.active.value, job, r, Look(Now(w), e));
    var a := TakePage(w.active.value, job, r, Look(Now(w), e));
    TakenShape(w.active.value, job, r, Look(Now(w), e));
    var d := w.(active := Some(a));
    CountedFrame(w, d);
    FinalizeKeeps(d, Partial, s);
    if r.after == None { FinalizeKeeps(d, Complete, s); }
    if r.after.Some? && job.page < MAX_PAGES {
      var f := w.(active := Some(a.(nextJob := Some(NextPage(job, r.after)))));
      CountedFrame(w, f);
      NextPresence(w, f, a, job, r.after);
      InvOf(f);
    }
  }

  lemma TakenShape(a: Active, job: PageJob, r: Reply, l: Look)
    ensures var b := TakePage(a, job, r, l);
            b.id == a.id && b.stream == a.stream && b.generation == a.generation && |b.pages| == |a.pages| + 1 && b.pages != []
            && b.pages[|b.pages| - 1].next == r.after
  {
  }

  lemma NextPresence(w: Work, f: Work, a: Active, job: PageJob, after: Option<string>)
    requires Presence(w.(active := None)) && w.inFlight == None && f == w.(active := Some(a.(nextJob := Some(NextPage(job, after)))))
    requires SoundAttempt(a) && Cursor(a.pages) == after && after.Some? && job.page < MAX_PAGES && a.pages != []
    requires job.snapshot == a.id && job.stream == a.stream && job.generation == a.generation && job.page == |a.pages|
    requires PageRequests(w.requests, a.id) == |a.pages|
    ensures Presence(f)
  {
  }

  // ----- runs -----

  lemma HandleKeeps(w: Work, r: Reply, e: Env, now: Reading, s: Store)
    requires Inv(w) && w.inFlight.Some?
    ensures Handle(w, r, e, now, s).Go? ==> Inv(Handle(w, r, e, now, s).w)
  {
    hide Inv;
    var d := w.(inFlight := None);
    assert d.(inFlight := w.inFlight) == w;
    match w.inFlight.value {
      case PresencePage(job) => HandlePresenceKeeps(d, job, r, e, now, s);
      case RaidContext(job) => HandleRaidKeeps(d, job, r, now.tick, s);
    }
  }

  lemma LastKeeps(w: Work, last: Option<Kind>)
    requires Inv(w)
    ensures Inv(w.(last := last))
  {
  }

  lemma ContinueKeeps(w: Work, e: Env, now: Reading, i: AdvanceInput)
    requires Inv(w)
    ensures Continue(w, e, now, i).Go? ==> Inv(Continue(w, e, now, i).w)
  {
    hide Inv, Recheck, BeginIfDue, Dispatch;
    RecheckKeeps(w, e, i.rechecked);
    var d := Recheck(w, e, i.rechecked);
    if d.Go? {
      BeginKeeps(d.w, e, now, i.begun);
      var f := BeginIfDue(d.w, e, now, i.begun);
      if f.Go? && f.w.inFlight == None { DispatchKeeps(f.w, now.tick); }
    }
  }

  lemma AdvanceKeeps(w: Work, i: AdvanceInput)
    requires Inv(w)
    ensures Advance(w, i).Go? ==> Inv(Advance(w, i).w)
  {
    hide Inv, Handle, Continue;
    MomentKeeps(w, i.before, i.after);
    MomentKeeps(w, i.before, i.before);
    if w.inFlight.Some? && i.reply.Some? {
      var m := AddMoment(w, i.before, i.after);
      HandleKeeps(m, i.reply.value, i.before, i.now, i.handled);
      var d := Handle(m, i.reply.value, i.before, i.now, i.handled);
      if d.Go? {
        LastKeeps(d.w, Some(KindOf(w.inFlight.value)));
        ContinueKeeps(d.w.(last := Some(KindOf(w.inFlight.value))), i.after, i.later, i);
      }
    } else {
      ContinueKeeps(AddMoment(w, i.before, i.before), i.before, i.now, i);
    }
  }

  lemma MomentKeeps(w: Work, before: Env, after: Env)
    requires Inv(w)
    ensures Inv(AddMoment(w, before, after))
  {
    hide PageRequests, IntentRequests, SoundRow;
    PartsOf(w);
    var d := AddMoment(w, before, after);
    PresenceFrame(w, d);
    CountedFrame(w, d);
    InvOf(d);
  }

  lemma {:induction false} DrainKeeps(w: Work, writes: seq<Write>)
    requires Inv(w) && w.inFlight == None && w.active == None
    ensures var r := DrainQueue(w, writes);
            r.Go? ==> Inv(r.w) && r.w.queue == [] && r.w.inFlight == None && r.w.active == None && r.w.storageFailed == w.storageFailed
                      && r.w.intents == w.intents && r.w.started == w.started
    decreases |w.queue|
  {
    hide Inv;
    if w.queue != [] {
      DrainOneKeeps(w, if writes == [] then Committed else writes[0]);
      var job := w.queue[0].job;
      var d := FinalizeIntent(w.(queue := w.queue[1..]), IntentRow(job.message, IntentInterrupted, if job.attempt > 0 then job.attempt - 1 else 0),
                              Store(if writes == [] then Committed else writes[0], true));
      if d.Go? { DrainKeeps(d.w, if writes == [] then [] else writes[1..]); }
    }
  }

  lemma DrainOneKeeps(w: Work, write: Write)
    requires Inv(w) && w.inFlight == None && w.queue != []
    ensures var job := w.queue[0].job;
            var d := FinalizeIntent(w.(queue := w.queue[1..]), IntentRow(job.message, IntentInterrupted, if job.attempt > 0 then job.attempt - 1 else 0), Store(write, true));
            d.Go? ==> Inv(d.w) && d.w == w.(queue := w.queue[1..], intentRows := d.w.intentRows)
  {
    hide Inv, Presence, IntentRequests, RowIds;
    PartsOf(w);
    var job := w.queue[0].job;
    var rest := w.(queue := w.queue[1..]);
    PresenceFrame(w, rest);
    RowKeeps(rest, IntentRow(job.message, IntentInterrupted, job.attempt - 1));
  }

  lemma StartInv(available: bool)
    ensures Inv(NewWork(available))
  {
  }

  /** Over any run: at most one snapshot in progress, at most 20 pages and two lookups each,
      at most nine raid jobs queued or in flight, and every attempt accounted for once. */
  lemma {:induction false} RunKeeps(w: Work, es: seq<Event>)
    requires Inv(w)
    ensures RunOf(w, es).Go? ==> Inv(RunOf(w, es).w)
    decreases |es|
  {
    hide Inv, React, Advance;
    if es != [] {
      ReactKeeps(w, es[0]);
      var d := React(w, es[0]);
      if d.Go? { RunKeeps(d.w, es[1..]); }
    }
  }

  lemma DueKeeps(w: Work, next: Option<int>)
    requires Inv(w)
    ensures Inv(w.(nextPresence := next))
  {
  }

  lemma ReactKeeps(w: Work, e: Event)
    requires Inv(w)
    ensures React(w, e).Go? ==> Inv(React(w, e).w)
  {
    hide Inv, Advance, RaidStored;
    match e {
      case Raid(message, known, start, full, tick) => RaidStoredKeeps(w, message, known, start, full, tick);
      case Advanced(i) => AdvanceKeeps(w, i);
      case PresenceDue(tick) => DueKeeps(w, Some(tick));
    }
  }

  lemma ShutdownKeeps(w: Work, i: ShutdownInput)
    requires Inv(w)
    ensures var r := Shutdown(w, i);
            r.Go? ==> Inv(r.w) && r.w.queue == [] && r.w.inFlight == None && r.w.active == None && r.w.storageFailed == w.storageFailed
  {
    hide Inv, Handle, FinalizePresence, DrainQueue;
    var seen := AddMoment(w, i.e, i.e);
    MomentKeeps(w, i.e, i.e);
    if w.inFlight.Some? {
      HandleKeeps(seen, i.reply, i.e, i.now, i.handled);
      HandleFrame(seen, i.reply, i.e, i.now, i.handled);
    }
    var d := if w.inFlight.Some? then Handle(seen, i.reply, i.e, i.now, i.handled) else Go(seen);
    if d.Go? {
      InterruptKeeps(d.w, i.active);
      var f := FinalizePresence(d.w, Interrupted, i.active);
      if f.Go? { DrainKeeps(f.w, i.drained); }
    }
  }

  lemma HandleFrame(w: Work, r: Reply, e: Env, now: Reading, s: Store)
    requires w.inFlight.Some?
    ensures var d := Handle(w, r, e, now, s); d.Go? ==> d.w.inFlight == None && d.w.storageFailed == w.storageFailed
  {
  }

  lemma InterruptKeeps(w: Work, s: Store)
    requires Inv(w) && w.inFlight == None
    ensures var f := FinalizePresence(w, Interrupted, s);
            f.Go? ==> Inv(f.w) && f.w.inFlight == None && f.w.active == None && f.w.storageFailed == w.storageFailed
  {
    FinalizeKeeps(w, Interrupted, s);
  }
}
