/** What the enhanced work guarantees over every run, also one that a failed write or a blocked
    authorization halted. */
module EnhancedGuarantees {
  import opened Common
  import opened EventSink
  import opened EnhancedWork
  import opened EnhancedRuns

  /** Ready work is always taken up, and when a page and a lookup are both ready the kind that
      did not go last goes next. */
  lemma WorkTakesTurns(w: Work, tick: int)
    requires w.inFlight == None && (PageReady(w) || RaidReady(w, tick))
    ensures var d := Dispatch(w, tick);
            && d.inFlight.Some? && d.requests == w.requests + [d.inFlight.value]
            && (PageReady(w) && RaidReady(w, tick) ==> Some(KindOf(d.inFlight.value)) != w.last || w.last == None)
            && (if d.inFlight.value.PresencePage? then PageReady(w) && !PageReady(d) && d.queue == w.queue
                else RaidReady(w, tick) && [w.queue[0]] + d.queue == w.queue && d.active == w.active)
  {
  }

  // ----- the accounts, halted or not -----

  lemma {:induction false} QueuedSomewhere(q: seq<Queued>, m: nat)
    requires m in QueuedIds(q)
    ensures exists k :: 0 <= k < |q| && q[k].job.message == m
    decreases |q|
  {
    if q[0].job.message != m {
      QueuedSomewhere(q[1..], m);
      var k :| 0 <= k < |q[1..]| && q[1..][k].job.message == m;
      assert q[k + 1].job.message == m;
    }
  }

  lemma {:induction false} RowSomewhere(rows: seq<IntentRow>, m: nat)
    requires m in RowIds(rows)
    ensures exists k :: 0 <= k < |rows| && rows[k].message == m
    decreases |rows|
  {
    var last := |rows| - 1;
    if rows[last].message != m {
      RowSomewhere(rows[..last], m);
      var k :| 0 <= k < |rows[..last]| && rows[..last][k].message == m;
      assert rows[k].message == m;
    }
  }

  lemma IntentAccount(w: Work, id: nat)
    requires Inv(w)
    ensures QueuedIds(w.queue)[id] + FlyingId(w.inFlight)[id] + RowIds(w.intentRows)[id] <= 1
    ensures SnapshotIds(w.snapshots)[id] + ActiveId(w.active)[id] <= 1
    ensures IntentRequests(w.requests, id) <= 2
  {
    hide Presence, IntentRequests, QueuedIds, RowIds, SnapshotIds;
    PartsOf(w);
    assert multiset(w.intents)[id] <= 1 && multiset(w.started)[id] <= 1;
    if id in w.intents {
      assert multiset(w.intents)[id] == 1;
      if id in QueuedIds(w.queue) { QueuedSomewhere(w.queue, id); }
      if id in RowIds(w.intentRows) { RowSomewhere(w.intentRows, id); }
    }
  }

  /** No intent or snapshot has two final rows, no intent is final and still pending, requests
      are bounded, and complete rows are sound. */
  ghost predicate Safe(w: Work) {
    && (forall id :: QueuedIds(w.queue)[id] + FlyingId(w.inFlight)[id] + RowIds(w.intentRows)[id] <= 1)
    && (forall id :: SnapshotIds(w.snapshots)[id] <= 1)
    && (forall id :: IntentRequests(w.requests, id) <= 2) && (forall id :: PageRequests(w.requests, id) <= MAX_PAGES)
    && Bounded(w) && (forall r <- w.snapshots :: SoundRow(r))
  }

  lemma InvIsSafe(w: Work)
    requires Inv(w)
    ensures Safe(w)
  {
    hide Inv, SoundRow, QueuedIds, RowIds, SnapshotIds, IntentRequests, PageRequests;
    forall id
      ensures QueuedIds(w.queue)[id] + FlyingId(w.inFlight)[id] + RowIds(w.intentRows)[id] <= 1
      ensures SnapshotIds(w.snapshots)[id] <= 1 && IntentRequests(w.requests, id) <= 2
    {
      IntentAccount(w, id);
    }
    PartsOf(w);
  }

  lemma SafeFrame(w: Work, d: Work)
    requires Safe(w) && d.queue == w.queue && d.intentRows == w.intentRows && d.snapshots == w.snapshots && d.requests == w.requests
    requires d.inFlight == w.inFlight || d.inFlight == None
    ensures Safe(d)
  {
    hide SoundRow, QueuedIds, RowIds, SnapshotIds, IntentRequests, PageRequests;
  }

  lemma RaidSafe(w: Work, job: RaidJob, r: Reply, tick: int, s: Store)
    requires Owing(w, job)
    ensures Safe(HandleRaid(w, job, r, tick, s).w)
  {
    hide Safe, Inv, Owing;
    HandleRaidKeeps(w, job, r, tick, s);
    OwingSafe(w, job);
    var d := HandleRaid(w, job, r, tick, s);
    var row := IntentRow(job.message, if r.error.Some? then ContextFailed else if r.notFound then NotFound else ContextComplete, job.attempt);
    OwedRow(w, row, job);
    InvIsSafe(w.(intentRows := w.intentRows + [row]));
    if d.Go? { InvIsSafe(d.w); }
  }

  lemma OwingSafe(w: Work, job: RaidJob)
    requires Owing(w, job)
    ensures Safe(w)
  {
    hide Safe, Inv;
    InvIsSafe(w.(inFlight := Some(RaidContext(job))));
    SafeFrame(w.(inFlight := Some(RaidContext(job))), w);
  }

  /** Finalising is safe whether or not its writes succeed. */
  lemma FinalizeSafe(w: Work, status: Ending, s: Store)
    requires Safe(w) && IntentsOnce(w) && SnapshotsOnce(w) && Counted(w) && Bounded(w) && Presence(w.(active := None))
    requires w.active.Some? ==>
               SoundAttempt(w.active.value)
               && (status == Complete ==> w.active.value.pages != [] && w.active.value.pages[|w.active.value.pages| - 1].next == None)
    ensures Safe(FinalizePresence(w, status, s).w)
  {
    hide Safe, Inv, SoundAttempt, Counted, Presence, IntentsOnce, SnapshotsOnce, Bounded;
    if w.active.Some? {
      SoundFinal(w.active.value, status, Now(w));
      var row := SnapshotRow(w.active.value, status, w.active.value.members, Now(w));
      Finalized(w, row);
      var f := w.(snapshots := w.snapshots + [row], active := None);
      InvIsSafe(f);
      SafeFrame(f, w.(snapshots := w.snapshots + [row]));
    }
  }

  lemma PresenceSafe(w: Work, job: PageJob, r: Reply, e: Env, now: Reading, s: Store)
    requires Landing(w, job)
    ensures Safe(HandlePresence(w, job, r, e, now, s).w)
  {
    hide Safe, Inv, Conserved, Counted, Presence, SoundAttempt, Bounded, TakePage, FinalizePresence, IntentsOnce, SnapshotsOnce;
    LandingParts(w, job);
    LandingSafe(w, job);
    if w.active.Some? && job.snapshot == w.active.value.id {
      FinalizeSafe(w, Rejected, s);
      FinalizeSafe(w, Partial, s);
      if Holds(w.active.value, e) { TakenSafe(w, job, r, e, s); }
    }
  }

  lemma LandingSafe(w: Work, job: PageJob)
    requires Landing(w, job)
    ensures Safe(w)
  {
    hide Safe, Inv;
    InvIsSafe(w.(inFlight := Some(PresencePage(job))));
    SafeFrame(w.(inFlight := Some(PresencePage(job))), w);
  }

  lemma TakenSafe(w: Work, job: PageJob, r: Reply, e: Env, s: Store)
    requires Landing(w, job) && Safe(w) && w.active.Some? && job.snapshot == w.active.value.id && Holds(w.active.value, e)
    ensures var a := TakePage(w.active.value, job, r, Look(Now(w), e));
            var d := w.(active := Some(a));
            && (r.after == None ==> Safe(FinalizePresence(d, Complete, s).w)) && Safe(FinalizePresence(d, Partial, s).w)
            && Safe(w.(active := Some(a.(nextJob := Some(NextPage(job, r.after))))))
  {
    hide Safe, Inv, Counted, Presence, SoundAttempt, TakePage, FinalizePresence, Landing, IntentsOnce, Bounded;
    LandingParts(w, job);
    TakenPage(w.active.value, job, r, Look(Now(w), e));
    var a := TakePage(w.active.value, job, r, Look(Now(w), e));
    TakenShape(w.active.value, job, r, Look(Now(w), e));
    var d := w.(active := Some(a));
    CountedFrame(w, d);
    ActiveFrame(w, d);
    SafeFrame(w, d);
    FinalizeSafe(d, Partial, s);
    if r.after == None { FinalizeSafe(d, Complete, s); }
    SafeFrame(w, w.(active := Some(a.(nextJob := Some(NextPage(job, r.after))))));
  }

  lemma ActiveFrame(w: Work, d: Work)
    requires d == w.(active := d.active) && ActiveId(d.active) == ActiveId(w.active)
    ensures IntentsOnce(w) ==> IntentsOnce(d)
    ensures SnapshotsOnce(w) ==> SnapshotsOnce(d)
    ensures Bounded(w) ==> Bounded(d)
  {
  }

  lemma HandleSafe(w: Work, r: Reply, e: Env, now: Reading, s: Store)
    requires Inv(w) && w.inFlight.Some?
    ensures Safe(Handle(w, r, e, now, s).w)
  {
    hide Safe, Inv;
    var d := w.(inFlight := None);
    assert d.(inFlight := w.inFlight) == w;
    match w.inFlight.value {
      case PresencePage(job) => PresenceSafe(d, job, r, e, now, s);
      case RaidContext(job) => RaidSafe(d, job, r, now.tick, s);
    }
  }

  lemma RecheckSafe(w: Work, e: Env, s: Store)
    requires Inv(w)
    ensures Safe(Recheck(w, e, s).w)
  {
    hide Safe, Inv, Presence, Counted, FinalizePresence;
    InvIsSafe(w);
    PartsOf(w);
    Idle(w);
    if w.active.Some? {
      FinalizeSafe(w, Rejected, s);
      SafeFrame(w, w.(active := Some(w.active.value.(looks := w.active.value.looks + [Look(Now(w), e)]))));
    }
  }

  lemma BeginSafe(w: Work, e: Env, now: Reading, s: Store)
    requires Inv(w)
    ensures Safe(BeginIfDue(w, e, now, s).w)
  {
    hide Safe, Inv;
    InvIsSafe(w);
    SafeFrame(w, BeginIfDue(w, e, now, s).w);
  }

  lemma ContinueSafe(w: Work, e: Env, now: Reading, i: AdvanceInput)
    requires Inv(w)
    ensures Safe(Continue(w, e, now, i).w)
  {
    hide Safe, Inv, Recheck, BeginIfDue, Dispatch;
    RecheckSafe(w, e, i.rechecked);
    RecheckKeeps(w, e, i.rechecked);
    var d := Recheck(w, e, i.rechecked);
    if d.Go? {
      BeginSafe(d.w, e, now, i.begun);
      BeginKeeps(d.w, e, now, i.begun);
      var f := BeginIfDue(d.w, e, now, i.begun);
      if f.Go? && f.w.inFlight == None {
        DispatchKeeps(f.w, now.tick);
        InvIsSafe(Dispatch(f.w, now.tick));
      }
    }
  }

  lemma AdvanceSafe(w: Work, i: AdvanceInput)
    requires Inv(w)
    ensures Safe(Advance(w, i).w)
  {
    hide Safe, Inv, Handle, Continue, AddMoment;
    MomentKeeps(w, i.before, i.after);
    MomentKeeps(w, i.before, i.before);
    MomentFrame(w, i.before, i.after);
    if w.inFlight.Some? && i.reply.Some? {
      var m := AddMoment(w, i.before, i.after);
      HandleKeeps(m, i.reply.value, i.before, i.now, i.handled);
      HandleSafe(m, i.reply.value, i.before, i.now, i.handled);
      var d := Handle(m, i.reply.value, i.before, i.now, i.handled);
      if d.Go? {
        LastKeeps(d.w, Some(KindOf(w.inFlight.value)));
        ContinueSafe(d.w.(last := Some(KindOf(w.inFlight.value))), i.after, i.later, i);
      }
    } else {
      ContinueSafe(AddMoment(w, i.before, i.before), i.before, i.now, i);
    }
  }

  lemma MomentFrame(w: Work, before: Env, after: Env)
    ensures AddMoment(w, before, after) == w.(moments := w.moments + [Moment(before, after)])
  {
  }

  /** The accounts are safe after any run, and kept while it goes on. */
  lemma {:induction false} RunIsSafe(w: Work, es: seq<Event>)
    requires Inv(w)
    ensures Safe(RunOf(w, es).w)
    decreases |es|
  {
    hide Safe, Inv, React, Advance, RaidStored;
    if es == [] {
      InvIsSafe(w);
    } else {
      ReactKeeps(w, es[0]);
      var d := React(w, es[0]);
      if d.Go? { RunIsSafe(d.w, es[1..]); } else { HaltSafe(w, es[0]); }
    }
  }

  lemma HaltSafe(w: Work, e: Event)
    requires Inv(w) && React(w, e).Halt?
    ensures Safe(React(w, e).w)
  {
    hide Safe, Inv, Advance, RaidStored;
    if e.Advanced? { AdvanceSafe(w, e.input); }
  }

  /** After any run, halted or not, no intent or snapshot has two final rows, no intent is final
      and still pending, at most two lookups were made for an intent and at most 20 pages
      requested for a snapshot, and at most nine raid jobs are queued or in flight. While the
      run goes on, no snapshot is final and still in progress. */
  lemma AccountsHold(available: bool, es: seq<Event>, id: nat)
    ensures var r := RunOf(NewWork(available), es);
            && QueuedIds(r.w.queue)[id] + FlyingId(r.w.inFlight)[id] + RowIds(r.w.intentRows)[id] <= 1
            && SnapshotIds(r.w.snapshots)[id] <= 1
            && (r.Go? ==> SnapshotIds(r.w.snapshots)[id] + ActiveId(r.w.active)[id] <= 1)
            && IntentRequests(r.w.requests, id) <= 2 && PageRequests(r.w.requests, id) <= MAX_PAGES
            && |r.w.queue| + |FlyingId(r.w.inFlight)| <= QUEUE_LIMIT + 1
  {
    hide Inv, RunOf, SoundRow, QueuedIds, RowIds, SnapshotIds, IntentRequests, PageRequests;
    StartInv(available);
    RunIsSafe(NewWork(available), es);
    RunKeeps(NewWork(available), es);
    var r := RunOf(NewWork(available), es);
    if r.Go? { IntentAccount(r.w, id); }
  }

  /** An orderly shutdown leaves nothing queued, in flight or in progress: every started
      snapshot and every recorded intent was finalised exactly once, except the intents whose
      own first writes had failed, and there are none of those while storage works. */
  lemma ShutdownFinalisesAll(available: bool, es: seq<Event>, i: ShutdownInput)
    requires RunOf(NewWork(available), es).Go?
    ensures var r := Shutdown(RunOf(NewWork(available), es).w, i);
            r.Go? ==>
              && r.w.queue == [] && r.w.inFlight == None && r.w.active == None
              && RowIds(r.w.intentRows) + multiset(r.w.stranded) == multiset(r.w.intents)
              && SnapshotIds(r.w.snapshots) == multiset(r.w.started)
              && (!r.w.storageFailed ==> r.w.stranded == {})
              && Inv(r.w)
  {
    StartInv(available);
    RunKeeps(NewWork(available), es);
    ShutdownKeeps(RunOf(NewWork(available), es).w, i);
  }

  // ----- every advance looked at the snapshot -----

  /** Looks were made at one advance after the other, each at a state that advance worked with. */
  ghost predicate Watched(a: Active, moments: seq<Moment>) {
    && a.looks != []
    && (forall l <- a.looks :: l.at < |moments| && (l.env == moments[l.at].before || l.env == moments[l.at].after))
    && (forall k :: 0 < k < |a.looks| ==> a.looks[k - 1].at <= a.looks[k].at <= a.looks[k - 1].at + 1)
  }

  function LastLook(a: Active): nat { if a.looks == [] then 0 else a.looks[|a.looks| - 1].at }

  ghost predicate RowsWatched(w: Work) {
    forall r <- w.snapshots :: Watched(r.attempt, w.moments) && (r.status == Complete ==> LastLook(r.attempt) == r.at)
  }

  /** Between advances the snapshot in progress was looked at in the latest one. */
  ghost predicate Attended(w: Work, lag: nat) {
    RowsWatched(w) && (w.active.Some? ==> Watched(w.active.value, w.moments) && LastLook(w.active.value) + 1 + lag >= |w.moments|)
  }

  lemma LookedAgain(a: Active, moments: seq<Moment>, l: Look)
    requires Watched(a, moments) && LastLook(a) + 2 >= |moments| && l.at == |moments| - 1
    requires l.env == moments[l.at].before || l.env == moments[l.at].after
    ensures forall b: Active :: b.looks == a.looks + [l] ==> Watched(b, moments) && LastLook(b) == l.at
  {
    forall b: Active | b.looks == a.looks + [l] ensures Watched(b, moments) && LastLook(b) == l.at {
      forall k | 0 < k < |b.looks| ensures b.looks[k - 1].at <= b.looks[k].at <= b.looks[k - 1].at + 1 {
        assert b.looks[k - 1] == a.looks[k - 1];
        if k < |a.looks| { assert b.looks[k] == a.looks[k]; } else { assert a.looks[|a.looks| - 1] in a.looks; }
      }
    }
  }

  lemma MomentAttended(w: Work, before: Env, after: Env)
    requires Attended(w, 0)
    ensures Attended(AddMoment(w, before, after), 1)
  {
    var m := w.moments + [Moment(before, after)];
    forall a: Active | Watched(a, w.moments) ensures Watched(a, m) {
      forall l | l in a.looks ensures l.at < |m| && (l.env == m[l.at].before || l.env == m[l.at].after) {
        assert m[l.at] == w.moments[l.at];
      }
    }
  }

  lemma FinalAttended(w: Work, status: Ending, s: Store, lag: nat)
    requires Attended(w, lag) && w.moments != [] && (status == Complete && w.active.Some? ==> LastLook(w.active.value) == Now(w))
    ensures var r := FinalizePresence(w, status, s); RowsWatched(r.w) && r.w.moments == w.moments && (r.Go? ==> Attended(r.w, lag) && r.w.active == None)
  {
    hide Watched, LastLook;
  }

  lemma RaidAttended(w: Work, job: RaidJob, r: Reply, tick: int, s: Store, lag: nat)
    requires Attended(w, lag)
    ensures var d := HandleRaid(w, job, r, tick, s); Attended(d.w, lag) && d.w.moments == w.moments
  {
    hide Watched, LastLook;
  }

  lemma PresenceAttended(w: Work, job: PageJob, r: Reply, e: Env, now: Reading, s: Store)
    requires Attended(w, 1) && w.moments != [] && (e == w.moments[|w.moments| - 1].before || e == w.moments[|w.moments| - 1].after)
    ensures var d := HandlePresence(w, job, r, e, now, s); RowsWatched(d.w) && d.w.moments == w.moments && (d.Go? ==> Attended(d.w, 1))
  {
    hide Watched, LastLook, FinalizePresence, Elapsed;
    if w.active.Some? {
      FinalAttended(w, Rejected, s, 1);
      FinalAttended(w, Partial, s, 1);
      LookedAgain(w.active.value, w.moments, Look(Now(w), e));
      var a := TakePage(w.active.value, job, r, Look(Now(w), e));
      var d := w.(active := Some(a));
      assert a.looks == w.active.value.looks + [Look(Now(w), e)];
      FinalAttended(d, Complete, s, 1);
      FinalAttended(d, Partial, s, 1);
      assert a.(nextJob := Some(NextPage(job, r.after))).looks == a.looks;
    }
  }

  lemma HandleAttended(w: Work, r: Reply, e: Env, now: Reading, s: Store)
    requires w.inFlight.Some? && Attended(w, 1) && w.moments != [] && (e == w.moments[|w.moments| - 1].before || e == w.moments[|w.moments| - 1].after)
    ensures var d := Handle(w, r, e, now, s); RowsWatched(d.w) && d.w.moments == w.moments && (d.Go? ==> Attended(d.w, 1))
  {
    hide Watched, LastLook, HandlePresence, HandleRaid;
    var d := w.(inFlight := None);
    match w.inFlight.value {
      case PresencePage(job) => PresenceAttended(d, job, r, e, now, s);
      case RaidContext(job) => RaidAttended(d, job, r, now.tick, s, 1);
    }
  }

  lemma RecheckAttended(w: Work, e: Env, s: Store)
    requires Attended(w, 1) && w.moments != [] && (e == w.moments[|w.moments| - 1].before || e == w.moments[|w.moments| - 1].after)
    ensures var d := Recheck(w, e, s); RowsWatched(d.w) && d.w.moments == w.moments && (d.Go? ==> Attended(d.w, 0))
  {
    hide Watched, LastLook, FinalizePresence;
    if w.active.Some? {
      FinalAttended(w, Rejected, s, 1);
      LookedAgain(w.active.value, w.moments, Look(Now(w), e));
    }
  }

  lemma BeginAttended(w: Work, e: Env, now: Reading, s: Store)
    requires Attended(w, 0) && w.moments != [] && (e == w.moments[|w.moments| - 1].before || e == w.moments[|w.moments| - 1].after)
    ensures var d := BeginIfDue(w, e, now, s); RowsWatched(d.w) && d.w.moments == w.moments && (d.Go? ==> Attended(d.w, 0))
  {
  }

  lemma ContinueAttended(w: Work, e: Env, now: Reading, i: AdvanceInput)
    requires Attended(w, 1) && w.moments != [] && (e == w.moments[|w.moments| - 1].before || e == w.moments[|w.moments| - 1].after)
    ensures var d := Continue(w, e, now, i); RowsWatched(d.w) && d.w.moments == w.moments && (d.Go? ==> Attended(d.w, 0))
  {
    hide Watched, LastLook, Recheck, BeginIfDue;
    RecheckAttended(w, e, i.rechecked);
    var d := Recheck(w, e, i.rechecked);
    if d.Go? {
      BeginAttended(d.w, e, now, i.begun);
      var f := BeginIfDue(d.w, e, now, i.begun);
      if f.Go? { DispatchAttended(f.w, now.tick); }
    }
  }

  lemma DispatchAttended(w: Work, tick: int)
    requires Attended(w, 0)
    ensures Attended(Dispatch(w, tick), 0) && Dispatch(w, tick).moments == w.moments
  {
    hide Watched, LastLook;
    if w.active.Some? { SameLooks(w.active.value, w.active.value.(nextJob := None), w.moments); }
  }

  lemma SameLooks(a: Active, b: Active, moments: seq<Moment>)
    requires b.looks == a.looks
    ensures Watched(b, moments) == Watched(a, moments) && LastLook(b) == LastLook(a)
  {
  }

  /** One moment was added, of this advance. */
  predicate Momentary(w: Work, d: Work, i: AdvanceInput) {
    || d.moments == w.moments + [Moment(i.before, i.before)]
    || d.moments == w.moments + [Moment(i.before, i.after)]
  }

  lemma AdvanceAttended(w: Work, i: AdvanceInput)
    requires Attended(w, 0)
    ensures var d := Advance(w, i);
            && RowsWatched(d.w) && (d.Go? ==> Attended(d.w, 0))
            && Momentary(w, d.w, i)
  {
    hide Watched, LastLook, Handle, Continue, Attended, RowsWatched;
    if w.inFlight.Some? && i.reply.Some? {
      MomentAttended(w, i.before, i.after);
      var m := AddMoment(w, i.before, i.after);
      HandleAttended(m, i.reply.value, i.before, i.now, i.handled);
      var d := Handle(m, i.reply.value, i.before, i.now, i.handled);
      assert m.moments == w.moments + [Moment(i.before, i.after)];
      if d.Go? {
        var l := d.w.(last := Some(KindOf(w.inFlight.value)));
        AttendedFrame(d.w, l, 1);
        ContinueAttended(l, i.after, i.later, i);
      }
    } else {
      MomentAttended(w, i.before, i.before);
      var m := AddMoment(w, i.before, i.before);
      assert m.moments == w.moments + [Moment(i.before, i.before)];
      ContinueAttended(m, i.before, i.now, i);
    }
  }

  lemma AttendedFrame(w: Work, d: Work, lag: nat)
    requires Attended(w, lag) && d.active == w.active && d.snapshots == w.snapshots && d.moments == w.moments
    ensures Attended(d, lag) && RowsWatched(d)
  {
  }

  /** The advances among the events of a run, in order. */
  function Advances(es: seq<Event>): seq<AdvanceInput> {
    if es == [] then [] else (if es[0].Advanced? then [es[0].input] else []) + Advances(es[1..])
  }

  /** Moment k of the run is what its advance number k worked with. */
  ghost predicate Follow(moments: seq<Moment>, from: nat, inputs: seq<AdvanceInput>) {
    && from <= |moments| <= from + |inputs|
    && (forall k :: from <= k < |moments| ==>
          moments[k].before == inputs[k - from].before && (moments[k].after == inputs[k - from].before || moments[k].after == inputs[k - from].after))
  }

  lemma {:induction false} RunAttended(w: Work, es: seq<Event>)
    requires Attended(w, 0)
    ensures var r := RunOf(w, es);
            && RowsWatched(r.w) && (r.Go? ==> Attended(r.w, 0))
            && w.moments <= r.w.moments && Follow(r.w.moments, |w.moments|, Advances(es))
    decreases |es|
  {
    hide Attended, RowsWatched, Advance, RaidStored;
    if es == [] {
      AttendedFrame(w, w, 0);
    } else {
      var d := React(w, es[0]);
      match es[0] {
        case Raid(message, known, start, full, tick) =>
          StoredFrame(w, message, known, start, full, tick);
          AttendedFrame(w, d.w, 0);
        case PresenceDue(tick) => AttendedFrame(w, d.w, 0);
        case Advanced(i) => AdvanceAttended(w, i);
      }
      if d.Go? {
        RunAttended(d.w, es[1..]);
        FollowOn(w, d.w, RunOf(w, es).w, es);
      }
    }
  }

  lemma StoredFrame(w: Work, message: nat, known: bool, start: Write, full: Write, tick: int)
    ensures var d := RaidStored(w, message, known, start, full, tick);
            d.active == w.active && d.snapshots == w.snapshots && d.moments == w.moments
  {
  }

  lemma FollowOn(w: Work, d: Work, f: Work, es: seq<Event>)
    requires es != [] && d.moments <= f.moments && Follow(f.moments, |d.moments|, Advances(es[1..]))
    requires if es[0].Advanced? then Momentary(w, d, es[0].input) else d.moments == w.moments
    ensures w.moments <= f.moments && Follow(f.moments, |w.moments|, Advances(es))
  {
    hide Follow;
    if es[0].Advanced? {
      assert Advances(es) == [es[0].input] + Advances(es[1..]);
      FollowStep(w.moments, d.moments, f.moments, es[0].input, Advances(es[1..]));
    } else {
      assert Advances(es) == Advances(es[1..]);
    }
  }

  lemma FollowStep(w: seq<Moment>, d: seq<Moment>, f: seq<Moment>, i: AdvanceInput, rest: seq<AdvanceInput>)
    requires d <= f && Follow(f, |d|, rest) && (d == w + [Moment(i.before, i.before)] || d == w + [Moment(i.before, i.after)])
    ensures w <= f && Follow(f, |w|, [i] + rest)
  {
    var inputs := [i] + rest;
    assert f[|w|] == d[|w|] && inputs[0] == i;
    forall k | |w| < k < |f|
      ensures f[k].before == inputs[k - |w|].before && (f[k].after == inputs[k - |w|].before || f[k].after == inputs[k - |w|].after)
    {
      assert inputs[k - |w|] == rest[k - |d|];
    }
  }

  ghost predicate LookedAt(looks: seq<Look>, n: nat) { exists k :: 0 <= k < |looks| && looks[k].at == n }

  lemma {:induction false} NoneSkipped(a: Active, moments: seq<Moment>, n: nat)
    requires Watched(a, moments) && a.looks[0].at <= n <= LastLook(a)
    ensures LookedAt(a.looks, n)
    decreases |a.looks|
  {
    var last := |a.looks| - 1;
    if a.looks[last].at == n {
      assert LookedAt(a.looks, n);
    } else {
      assert last > 0 && a.looks[last - 1].at <= a.looks[last].at <= a.looks[last - 1].at + 1;
      var b := a.(looks := a.looks[..last]);
      NoneSkipped(b, moments, n);
      var k :| 0 <= k < |b.looks| && b.looks[k].at == n;
      assert a.looks[k].at == n;
    }
  }

  /** In advance n of the run the snapshot was found as it began: same generation, same stream
      and observed live. */
  ghost predicate FoundGood(a: Active, i: AdvanceInput, n: nat) {
    exists k :: 0 <= k < |a.looks| && a.looks[k].at == n && Holds(a, a.looks[k].env) && (a.looks[k].env == i.before || a.looks[k].env == i.after)
  }

  /** A snapshot is complete only if its pages form one unbroken cursor chain from the first
      page to the last, it stored exactly the members of those pages, and every advance of the
      run from the one that started it to the one that completed it found the same clock
      generation and stream and the stream observed live. */
  lemma CompleteSnapshot(available: bool, es: seq<Event>, r: SnapshotRow)
    requires r in RunOf(NewWork(available), es).w.snapshots && r.status == Complete
    ensures var pages := r.attempt.pages;
            && 1 <= |pages| <= MAX_PAGES && pages[0].after == None && pages[|pages| - 1].next == None
            && (forall k :: 0 < k < |pages| ==> pages[k].after.Some? && pages[k].after == pages[k - 1].next)
            && (forall m :: m in r.members <==> exists p :: p in pages && m in p.members)
    ensures r.attempt.looks != [] && r.at < |Advances(es)|
    ensures forall n :: r.attempt.looks[0].at <= n <= r.at ==> FoundGood(r.attempt, Advances(es)[n], n)
  {
    hide Inv, RunOf;
    StartInv(available);
    RunIsSafe(NewWork(available), es);
    RunAttended(NewWork(available), es);
    MembersMeaning(r.attempt.pages);
    var w := RunOf(NewWork(available), es).w;
    assert SoundRow(r) && Watched(r.attempt, w.moments);
    forall n | r.attempt.looks[0].at <= n <= r.at ensures FoundGood(r.attempt, Advances(es)[n], n) {
      NoneSkipped(r.attempt, w.moments, n);
      var k :| 0 <= k < |r.attempt.looks| && r.attempt.looks[k].at == n;
      assert r.attempt.looks[k] in r.attempt.looks;
    }
  }

  lemma {:induction false} MembersMeaning(pages: seq<Page>)
    ensures forall m :: m in MembersOf(pages) <==> exists p :: p in pages && m in p.members
  {
    if pages != [] {
      var front := pages[..|pages| - 1];
      MembersMeaning(front);
      assert pages == front + [pages[|pages| - 1]];
    }
  }
}
