/** Chatter-presence snapshots and raid-source context (scripts/collect_stream.py): one page or
    one lookup per request, one request at a time, every attempt finalised once. */
module EnhancedWork {
  import opened Common
  import opened EventSink

  const MAX_PAGES := 20
  const PRESENCE := 300_000_000
  const MAX_ATTEMPT := 120_000_000
  const QUEUE_LIMIT := 8
  const RETRY := 5_000_000
  const LANE := 5_000_000

  datatype PageJob = PageJob(snapshot: nat, stream: string, generation: nat, page: nat, after: Option<string>)

  datatype RaidJob = RaidJob(message: nat, attempt: nat)

  datatype Job = PresencePage(page: PageJob) | RaidContext(raid: RaidJob)

  datatype WorkError = AccessDenied | RateLimited | RequestFailed

  /** EnhancedResult: what the worker answers for the job in flight. */
  datatype Reply = Reply(error: Option<WorkError>, fatal: bool, members: set<string>, total: nat, after: Option<string>, notFound: bool)

  /** The collector's own state when the work is advanced. */
  datatype Env = Env(generation: nat, live: bool, tracked: Option<string>, targetKnown: bool, pollBusy: bool, nextPoll: int)

  /** A page that was taken: the cursor it was requested with and the one it returned. */
  datatype Page = Page(after: Option<string>, members: set<string>, next: Option<string>)

  /** The states of the collector one advance worked with: before and after a result was taken. */
  datatype Moment = Moment(before: Env, after: Env)

  /** The snapshot in progress was checked against env in advance number `at`. */
  datatype Look = Look(at: nat, env: Env)

  /** pages and looks are history: the pages taken and every state of the collector the
      snapshot was checked against. */
  datatype Active = Active(
    id: nat, stream: string, generation: nat, requestedAt: Reading, members: set<string>, firstTotal: Option<nat>,
    totalChanged: bool, nextJob: Option<PageJob>, pages: seq<Page>, looks: seq<Look>)

  datatype Ending = Complete | Partial | Rejected | Interrupted

  /** A finalised snapshot row, the attempt it finalised and the advance that did. */
  datatype SnapshotRow = SnapshotRow(attempt: Active, status: Ending, members: set<string>, at: nat)

  datatype IntentStatus = ContextComplete | NotFound | ContextFailed | QueueFull | IntentInterrupted

  datatype IntentRow = IntentRow(message: nat, status: IntentStatus, attempts: nat)

  datatype Queued = Queued(job: RaidJob, due: int)

  datatype Kind = PresenceKind | RaidKind

  /** nextId is the key the database gives the next snapshot row. started, snapshots,
      intentRows, intents, requests, stranded and moments are history: the snapshot ids started,
      the rows finalised, the intents recorded, the requests made, the intents left without a
      job because their own write failed, and one moment for every advance. */
  datatype Work = Work(
    available: bool, active: Option<Active>, nextPresence: Option<int>, queue: seq<Queued>, inFlight: Option<Job>, last: Option<Kind>,
    storageFailed: bool, nextId: nat,
    started: set<nat>, snapshots: seq<SnapshotRow>, intents: set<nat>, intentRows: seq<IntentRow>, requests: seq<Job>,
    stranded: set<nat>, moments: seq<Moment>)

  datatype Why = StorageHalt | AuthorizationHalt

  datatype Res = Go(w: Work) | Halt(w: Work, why: Why) {
    predicate IsFailure() { Halt? }
    function PropagateFailure(): Res
      requires Halt?
    { this }
    function Extract(): Work
      requires Go?
    { w }
  }

  /** Outcomes of the row write and of the presence health write after it. */
  datatype Store = Store(row: Write, health: bool)

  function NewWork(available: bool): Work {
    Work(available, None, None, [], None, None, false, 0, {}, [], {}, [], [], {}, [])
  }

  // ----- raid intents -----

  function FinalizeIntent(w: Work, row: IntentRow, s: Store): Res {
    var d := if s.row == Failed then w else w.(intentRows := w.intentRows + [row]);
    if s.row == Committed then Go(d) else Halt(d, StorageHalt)
  }

  /** _raid_stored, called by the raid sink once the raid row is durable; the router traps a
      storage error. known: an earlier run already recorded the intent. */
  function RaidStored(w: Work, message: nat, known: bool, start: Write, full: Write, tick: int): Work {
    if known || message in w.intents then w
    else if start == Failed then w.(storageFailed := true)
    else
      var d := w.(intents := w.intents + {message});
      if start == Uncertain then d.(storageFailed := true, stranded := d.stranded + {message})
      else if |d.queue| >= QUEUE_LIMIT then
        var r := FinalizeIntent(d, IntentRow(message, QueueFull, 0), Store(full, true));
        if r.Go? then r.w else r.w.(storageFailed := true, stranded := if full == Failed then d.stranded + {message} else d.stranded)
      else d.(queue := d.queue + [Queued(RaidJob(message, 1), tick)])
  }

  function HandleRaid(w: Work, job: RaidJob, r: Reply, tick: int, s: Store): Res {
    if r.fatal then Halt(w, AuthorizationHalt)
    else if r.error.Some? && job.attempt < 2 && (r.error.value == RequestFailed || r.error.value == RateLimited) then
      Go(w.(queue := [Queued(RaidJob(job.message, job.attempt + 1), tick + RETRY)] + w.queue))
    else
      FinalizeIntent(w, IntentRow(job.message, if r.error.Some? then ContextFailed else if r.notFound then NotFound else ContextComplete, job.attempt), s)
  }

  // ----- presence snapshots -----

  /** The snapshot may go on: no clock gap, no stream change, still observed live. */
  predicate Holds(a: Active, e: Env) { a.generation == e.generation && e.live && e.tracked == Some(a.stream) }

  /** The number of the advance under way. */
  function Now(w: Work): nat { if w.moments == [] then 0 else |w.moments| - 1 }

  function FinalizePresence(w: Work, status: Ending, s: Store): Res {
    if w.active == None then Go(w)
    else
      var a := w.active.value;
      var d := if s.row == Failed then w else w.(snapshots := w.snapshots + [SnapshotRow(a, status, a.members, Now(w))]);
      if s.row != Committed || !s.health then Halt(d, StorageHalt) else Go(d.(active := None))
  }

  function Elapsed(a: Active, now: Reading): int { Age(now, a.requestedAt) }

  /** A page was taken: first_total, members and the cursor chain. */
  function TakePage(a: Active, job: PageJob, r: Reply, l: Look): Active {
    a.(firstTotal := if a.firstTotal == None then Some(r.total) else a.firstTotal,
       totalChanged := a.totalChanged || (a.firstTotal.Some? && r.total != a.firstTotal.value),
       members := a.members + r.members,
       pages := a.pages + [Page(job.after, r.members, r.after)],
       looks := a.looks + [l])
  }

  function NextPage(job: PageJob, after: Option<string>): PageJob { job.(page := job.page + 1, after := after) }

  function HandlePresence(w: Work, job: PageJob, r: Reply, e: Env, now: Reading, s: Store): Res {
    if w.active == None || job.snapshot != w.active.value.id then Go(w)
    else if job.generation != e.generation || !e.live || e.tracked != Some(job.stream) then FinalizePresence(w, Rejected, s)
    else if r.fatal then Halt(w, AuthorizationHalt)
    else if r.error.Some? then FinalizePresence(w, Partial, s)
    else
      var a := TakePage(w.active.value, job, r, Look(Now(w), e));
      var d := w.(active := Some(a));
      if r.after == None then FinalizePresence(d, Complete, s)
      else if job.page >= MAX_PAGES || Elapsed(a, now) >= MAX_ATTEMPT then FinalizePresence(d, Partial, s)
      else Go(d.(active := Some(a.(nextJob := Some(NextPage(job, r.after))))))
  }

  /** At every advance the snapshot in progress is checked again. */
  function Recheck(w: Work, e: Env, s: Store): Res {
    if w.active == None then Go(w)
    else if !Holds(w.active.value, e) then FinalizePresence(w, Rejected, s)
    else Go(w.(active := Some(w.active.value.(looks := w.active.value.looks + [Look(Now(w), e)]))))
  }

  predicate Due(w: Work, e: Env, now: Reading) {
    w.available && e.live && w.active == None && e.tracked.Some? && w.nextPresence.Some? && now.tick >= w.nextPresence.value && e.targetKnown
  }

  function BeginIfDue(w: Work, e: Env, now: Reading, s: Store): Res {
    if !Due(w, e, now) then Go(w)
    else if s.row == Failed then Halt(w, StorageHalt)
    else
      var id := w.nextId;
      var d := w.(started := w.started + {id}, nextId := id + 1);
      if s.row == Uncertain then Halt(d, StorageHalt)
      else
        var job := PageJob(id, e.tracked.value, e.generation, 1, None);
        var f := d.(active := Some(Active(id, e.tracked.value, e.generation, now, {}, None, false, Some(job), [], [Look(Now(w), e)])),
                    nextPresence := Some(now.tick + PRESENCE));
        if s.health then Go(f) else Halt(f, StorageHalt)
  }

  // ----- one advance -----

  datatype AdvanceInput = AdvanceInput(
    before: Env, now: Reading, reply: Option<Reply>, handled: Store, after: Env, later: Reading,
    rechecked: Store, begun: Store, stop: bool)

  function Handle(w: Work, r: Reply, e: Env, now: Reading, s: Store): Res
    requires w.inFlight.Some?
  {
    var d := w.(inFlight := None);
    match w.inFlight.value
    case PresencePage(job) => HandlePresence(d, job, r, e, now, s)
    case RaidContext(job) => HandleRaid(d, job, r, now.tick, s)
  }

  function KindOf(j: Job): Kind { if j.PresencePage? then PresenceKind else RaidKind }

  function RaidReady(w: Work, tick: int): bool { w.queue != [] && w.queue[0].due <= tick }

  function PageReady(w: Work): bool { w.active.Some? && w.active.value.nextJob.Some? }

  /** worker.start(job) */
  function Request(w: Work, job: Job): Work { w.(inFlight := Some(job), requests := w.requests + [job]) }

  /** The two kinds of work take turns when both are ready. */
  function Dispatch(w: Work, tick: int): Work {
    if PageReady(w) && (!RaidReady(w, tick) || w.last != Some(PresenceKind)) then
      Request(w.(active := Some(w.active.value.(nextJob := None))), PresencePage(w.active.value.nextJob.value))
    else if RaidReady(w, tick) then
      Request(w.(queue := w.queue[1..]), RaidContext(w.queue[0].job))
    else w
  }

  function Advance(w: Work, i: AdvanceInput): Res {
    if w.inFlight.Some? && i.reply.Some? then
      var d :- Handle(AddMoment(w, i.before, i.after), i.reply.value, i.before, i.now, i.handled);
      Continue(d.(last := Some(KindOf(w.inFlight.value))), i.after, i.later, i)
    else Continue(AddMoment(w, i.before, i.before), i.before, i.now, i)
  }

  function AddMoment(w: Work, before: Env, after: Env): Work { w.(moments := w.moments + [Moment(before, after)]) }

  function Continue(w: Work, e: Env, now: Reading, i: AdvanceInput): Res {
    var d :- Recheck(w, e, i.rechecked);
    var f :- BeginIfDue(d, e, now, i.begun);
    if f.inFlight.Some? || i.stop || e.pollBusy || e.nextPoll - now.tick < LANE then Go(f) else Go(Dispatch(f, now.tick))
  }

  // ----- shutdown -----

  datatype ShutdownInput = ShutdownInput(reply: Reply, e: Env, now: Reading, handled: Store, active: Store, drained: seq<Write>)

  /** The queue is emptied; drained holds one write outcome for each entry. */
  function DrainQueue(w: Work, writes: seq<Write>): Res
    decreases |w.queue|
  {
    if w.queue == [] then Go(w)
    else
      var job := w.queue[0].job;
      var d :- FinalizeIntent(w.(queue := w.queue[1..]), IntentRow(job.message, IntentInterrupted, if job.attempt > 0 then job.attempt - 1 else 0),
                              Store(if writes == [] then Committed else writes[0], true));
      DrainQueue(d, if writes == [] then [] else writes[1..])
  }

  function Shutdown(w: Work, i: ShutdownInput): Res {
    var seen := AddMoment(w, i.e, i.e);
    var d :- if w.inFlight.Some? then Handle(seen, i.reply, i.e, i.now, i.handled) else Go(seen);
    var f :- FinalizePresence(d, Interrupted, i.active);
    DrainQueue(f, i.drained)
  }

  // ----- whole runs -----

  datatype Event =
    | Raid(message: nat, known: bool, start: Write, full: Write, tick: int)
    | Advanced(input: AdvanceInput)
    /** A saved poll of a new stream, or the first one, makes a snapshot due. */
    | PresenceDue(tick: int)

  function React(w: Work, e: Event): Res {
    match e
    case Raid(message, known, start, full, tick) => Go(RaidStored(w, message, known, start, full, tick))
    case Advanced(i) => Advance(w, i)
    case PresenceDue(tick) => Go(w.(nextPresence := Some(tick)))
  }

  function RunOf(w: Work, es: seq<Event>): Res
    decreases |es|
  {
    if es == [] then Go(w)
    else
      var d :- React(w, es[0]);
      RunOf(d, es[1..])
  }

  // ----- what is conserved -----

  function QueuedIds(q: seq<Queued>): multiset<nat> {
    if q == [] then multiset{} else multiset{q[0].job.message} + QueuedIds(q[1..])
  }

  function RowIds(rows: seq<IntentRow>): multiset<nat> {
    if rows == [] then multiset{} else RowIds(rows[..|rows| - 1]) + multiset{rows[|rows| - 1].message}
  }

  function SnapshotIds(rows: seq<SnapshotRow>): multiset<nat> {
    if rows == [] then multiset{} else SnapshotIds(rows[..|rows| - 1]) + multiset{rows[|rows| - 1].attempt.id}
  }

  function FlyingId(j: Option<Job>): multiset<nat> {
    if j.Some? && j.value.RaidContext? then multiset{j.value.raid.message} else multiset{}
  }

  function ActiveId(a: Option<Active>): multiset<nat> {
    if a.Some? then multiset{a.value.id} else multiset{}
  }

  /** Every recorded intent is queued, in flight, finalised or stranded: exactly one of them,
      exactly once. Every started snapshot is in progress or finalised, exactly once. */
  predicate Conserved(w: Work) {
    && multiset(w.intents) == QueuedIds(w.queue) + FlyingId(w.inFlight) + RowIds(w.intentRows) + multiset(w.stranded)
    && multiset(w.started) == SnapshotIds(w.snapshots) + ActiveId(w.active)
    && (!w.storageFailed ==> w.stranded == {})
    && (forall id <- w.started :: id < w.nextId)
  }

  /** Requests made for one intent, and pages requested for one snapshot. */
  function IntentRequests(requests: seq<Job>, message: nat): nat {
    if requests == [] then 0
    else IntentRequests(requests[..|requests| - 1], message)
         + (if requests[|requests| - 1].RaidContext? && requests[|requests| - 1].raid.message == message then 1 else 0)
  }

  function PageRequests(requests: seq<Job>, id: nat): nat {
    if requests == [] then 0
    else PageRequests(requests[..|requests| - 1], id)
         + (if requests[|requests| - 1].PresencePage? && requests[|requests| - 1].page.snapshot == id then 1 else 0)
  }

  /** Attempt numbers count requests; at most two are ever made, and the count recorded with a
      finalised intent is the number made. */
  ghost predicate Counted(w: Work) {
    && (forall k :: 0 <= k < |w.queue| ==> var job := w.queue[k].job; 1 <= job.attempt <= 2 && IntentRequests(w.requests, job.message) == job.attempt - 1)
    && (w.inFlight.Some? && w.inFlight.value.RaidContext? ==>
          var job := w.inFlight.value.raid; 1 <= job.attempt <= 2 && IntentRequests(w.requests, job.message) == job.attempt)
    && (forall k :: 0 <= k < |w.intentRows| ==> IntentRequests(w.requests, w.intentRows[k].message) == w.intentRows[k].attempts <= 2)
    && (forall m :: m !in w.intents ==> IntentRequests(w.requests, m) == 0)
    && (forall m <- w.stranded :: IntentRequests(w.requests, m) == 0)
  }

  predicate Bounded(w: Work) { |w.queue| + |FlyingId(w.inFlight)| <= QUEUE_LIMIT + 1 }

  // ----- what a snapshot rests on -----

  function MembersOf(pages: seq<Page>): set<string> {
    if pages == [] then {} else MembersOf(pages[..|pages| - 1]) + pages[|pages| - 1].members
  }

  /** Each page was requested with the cursor the page before it returned, from the first on. */
  ghost predicate Chained(pages: seq<Page>) {
    && (pages != [] ==> pages[0].after == None)
    && (forall k :: 0 < k < |pages| ==> pages[k].after.Some? && pages[k].after == pages[k - 1].next)
  }

  /** The cursor the next page is requested with. */
  function Cursor(pages: seq<Page>): Option<string> { if pages == [] then None else pages[|pages| - 1].next }

  ghost predicate SoundAttempt(a: Active) {
    && Chained(a.pages) && |a.pages| <= MAX_PAGES && a.members == MembersOf(a.pages)
    && (forall l <- a.looks :: Holds(a, l.env))
  }

  /** The job asks for the next page of the attempt. */
  predicate Asks(a: Active, j: PageJob) {
    && j.snapshot == a.id && j.stream == a.stream && j.generation == a.generation
    && j.page == |a.pages| + 1 <= MAX_PAGES && j.after == Cursor(a.pages) && (a.pages != [] ==> j.after.Some?)
  }

  /** The attempt in progress either has its next page ready or in flight. */
  ghost predicate InProgress(w: Work, a: Active) {
    && SoundAttempt(a)
    && (if a.nextJob.Some? then
          Asks(a, a.nextJob.value) && PageRequests(w.requests, a.id) == |a.pages|
          && (w.inFlight.Some? && w.inFlight.value.PresencePage? ==> w.inFlight.value.page.snapshot != a.id)
        else
          w.inFlight.Some? && w.inFlight.value.PresencePage? && Asks(a, w.inFlight.value.page)
          && PageRequests(w.requests, a.id) == |a.pages| + 1)
  }

  /** A complete snapshot: one unbroken cursor chain from the first page to one without a next
      cursor, no clock gap, stream change or loss of observed-live state at any look, and
      exactly the members of those pages. */
  ghost predicate SoundRow(r: SnapshotRow) {
    && SoundAttempt(r.attempt) && r.members == MembersOf(r.attempt.pages)
    && (r.status == Complete ==> r.attempt.pages != [] && r.attempt.pages[|r.attempt.pages| - 1].next == None)
  }

  ghost predicate Presence(w: Work) {
    && (w.active.Some? ==> InProgress(w, w.active.value))
    && (forall r <- w.snapshots :: SoundRow(r))
    && (w.inFlight.Some? && w.inFlight.value.PresencePage? ==> w.inFlight.value.page.snapshot in w.started)
    && (forall id :: PageRequests(w.requests, id) <= MAX_PAGES)
    && (forall id :: id !in w.started ==> PageRequests(w.requests, id) == 0)
  }

  ghost predicate Inv(w: Work) { Conserved(w) && Counted(w) && Bounded(w) && Presence(w) }
}
