/** The health-log views of sql/016: analytics_source_intervals, its healthy islands, and the
    healthy seconds of a window. */
module SourceIntervals {
  import opened Common
  import opened Intervals

  datatype HealthRow = HealthRow(healthId: int, runId: int, source: Source, observedAt: int, status: Status)

  datatype Run = Run(lastHeartbeatAt: int, stoppedAt: Option<int>) {
    /** coalesce(stopped_at, last_heartbeat_at) */
    function End(): int { match stoppedAt case Some(t) => t case None => lastHeartbeatAt }
  }

  datatype Link = Link(runId: int, streamId: int)

  datatype Stream = Stream(startedAt: int, offlineAt: Option<int>)

  datatype Tables = Tables(runs: map<int, Run>, links: set<Link>, health: set<HealthRow>, streams: map<int, Stream>)

  /** Primary and foreign keys. */
  ghost predicate ValidTables(db: Tables) {
    && (forall l <- db.links :: l.runId in db.runs && l.streamId in db.streams)
    && (forall h <- db.health :: h.runId in db.runs)
    && (forall g, h :: g in db.health && h in db.health && g.healthId == h.healthId ==> g == h)
  }

  predicate ClosedStream(db: Tables, s: int) {
    s in db.streams && db.streams[s].offlineAt.Some?
  }

  /** A row of collector_run_streams JOIN collector_runs JOIN collection_health: a health row
      occurs once for every stream its run is linked to. */
  datatype JoinRow = JoinRow(streamId: int, h: HealthRow)

  /** PARTITION BY run_id, source: the stream is not part of it. */
  predicate SamePartition(a: HealthRow, b: HealthRow) {
    a.runId == b.runId && a.source == b.source
  }

  predicate Before(a: HealthRow, b: HealthRow) {
    a.observedAt < b.observedAt || (a.observedAt == b.observedAt && a.healthId < b.healthId)
  }

  /** An order the window function may process the join in: every join row once, and inside a
      partition sorted by observed_at, health_id. Copies of one health row tie, and their
      order is left to the database. */
  ghost predicate IsWindowOrder(db: Tables, rows: seq<JoinRow>) {
    && (forall i, j :: 0 <= i < j < |rows| ==> rows[i] != rows[j])
    && (forall x :: x in rows <==> x.h in db.health && Link(x.h.runId, x.streamId) in db.links)
    && (forall i, j :: 0 <= i < j < |rows| && SamePartition(rows[i].h, rows[j].h) ==> !Before(rows[j].h, rows[i].h))
  }

  /** lead(observed_at): the next row of row i's partition at or after position k. */
  function Lead(rows: seq<JoinRow>, i: nat, k: nat): (next: Option<nat>)
    requires i < k <= |rows|
    ensures match next
            case None => forall j :: k <= j < |rows| ==> !SamePartition(rows[i].h, rows[j].h)
            case Some(n) => k <= n < |rows| && SamePartition(rows[i].h, rows[n].h)
                            && forall j :: k <= j < n ==> !SamePartition(rows[i].h, rows[j].h)
    decreases |rows| - k
  {
    if k == |rows| then None
    else if SamePartition(rows[i].h, rows[k].h) then Some(k)
    else Lead(rows, i, k + 1)
  }

  /** The bounded CTE for row i, whose stream is closed. */
  function Bounded(db: Tables, rows: seq<JoinRow>, i: nat): Interval
    requires i < |rows| && ClosedStream(db, rows[i].streamId) && rows[i].h.runId in db.runs
  {
    var x, s := rows[i], db.streams[rows[i].streamId];
    var next := Lead(rows, i, i + 1);
    var end := if next.Some? then rows[next.value].h.observedAt else db.runs[x.h.runId].End();
    Interval(Max(x.h.observedAt, s.startedAt), Min(end, s.offlineAt.value))
  }

  predicate Chosen(x: JoinRow, s: int, source: Source) {
    x.streamId == s && x.h.source == source && x.h.status == Healthy
  }

  /** analytics_source_intervals WHERE status = 'healthy', for one stream and source. */
  function HealthyRows(db: Tables, rows: seq<JoinRow>, s: int, source: Source, n: nat): (r: seq<Interval>)
    requires n <= |rows| && ClosedStream(db, s) && forall x <- rows :: x.h.runId in db.runs
    ensures AllNonEmpty(r)
  {
    if n == 0 then []
    else
      var before := HealthyRows(db, rows, s, source, n - 1);
      if Chosen(rows[n - 1], s, source) && Bounded(db, rows, n - 1).NonEmpty()
      then before + [Bounded(db, rows, n - 1)] else before
  }

  function View(db: Tables, rows: seq<JoinRow>, s: int, source: Source): seq<Interval>
    requires ClosedStream(db, s) && forall x <- rows :: x.h.runId in db.runs
  {
    HealthyRows(db, rows, s, source, |rows|)
  }

  // ----- what the log says -----

  ghost predicate HasSuccessor(db: Tables, h: HealthRow) {
    exists g :: g in db.health && SamePartition(h, g) && Before(h, g)
  }

  /** At t the latest row of h's run and source is h, and it has not ended: a later row ends
      it, and the last row ends with its run. */
  ghost predicate InForce(db: Tables, h: HealthRow, t: int)
    requires h.runId in db.runs
  {
    && h.observedAt <= t
    && (forall g :: g in db.health && SamePartition(h, g) && Before(h, g) ==> t < g.observedAt)
    && (!HasSuccessor(db, h) ==> t < db.runs[h.runId].End())
  }

  predicate During(db: Tables, s: int, t: int)
    requires ClosedStream(db, s)
  {
    db.streams[s].startedAt <= t < db.streams[s].offlineAt.value
  }

  /** Some run observing the stream was healthy for this source at instant t. */
  ghost predicate HealthyAt(db: Tables, s: int, source: Source, t: int)
    requires ValidTables(db) && ClosedStream(db, s)
  {
    During(db, s, t)
    && exists h :: h in db.health && h.source == source && h.status == Healthy
                   && Link(h.runId, s) in db.links && InForce(db, h, t)
  }

  // ----- one row -----

  /** Position i holds the last copy of its health row. */
  ghost predicate LastCopy(rows: seq<JoinRow>, i: nat)
    requires i < |rows|
  {
    forall j :: i < j < |rows| ==> rows[j].h != rows[i].h
  }

  lemma EarlierCopyIsEmpty(db: Tables, rows: seq<JoinRow>, i: nat, j: nat)
    requires ValidTables(db) && IsWindowOrder(db, rows) && i < j < |rows| && rows[j].h == rows[i].h
    requires rows[i].h in db.health && ClosedStream(db, rows[i].streamId)
    ensures !Bounded(db, rows, i).NonEmpty()
  {
  }

  lemma LastCopyLead(db: Tables, rows: seq<JoinRow>, i: nat, g: HealthRow)
    requires ValidTables(db) && IsWindowOrder(db, rows) && i < |rows| && LastCopy(rows, i)
    requires g in db.health && SamePartition(rows[i].h, g) && Before(rows[i].h, g)
    ensures var next := Lead(rows, i, i + 1);
            next.Some? && !Before(g, rows[next.value].h)
  {
    var y := JoinRow(rows[i].streamId, g);
    assert rows[i] in rows;
    assert y in rows;
    var k :| 0 <= k < |rows| && rows[k] == y;
    assert k != i;
    assert k > i;
    var next := Lead(rows, i, i + 1);
    assert next.Some? && next.value <= k;
  }

  lemma LastCopyLeadIsLater(db: Tables, rows: seq<JoinRow>, i: nat)
    requires ValidTables(db) && IsWindowOrder(db, rows) && i < |rows| && LastCopy(rows, i)
    ensures var next := Lead(rows, i, i + 1);
            next.Some? ==> var g := rows[next.value].h;
              g in db.health && SamePartition(rows[i].h, g) && Before(rows[i].h, g)
  {
  }

  /** The interval of row i is exactly the time its health row is in force during the stream,
      unless a later copy of the same health row follows; then it is empty. */
  lemma RowInterval(db: Tables, rows: seq<JoinRow>, i: nat, t: int)
    requires ValidTables(db) && IsWindowOrder(db, rows) && i < |rows|
    requires rows[i].h in db.health && ClosedStream(db, rows[i].streamId)
    ensures Bounded(db, rows, i).Has(t)
            <==> LastCopy(rows, i) && InForce(db, rows[i].h, t) && During(db, rows[i].streamId, t)
  {
    if !LastCopy(rows, i) {
      var j :| i < j < |rows| && rows[j].h == rows[i].h;
      EarlierCopyIsEmpty(db, rows, i, j);
    } else {
      var h := rows[i].h;
      var next := Lead(rows, i, i + 1);
      LastCopyLeadIsLater(db, rows, i);
      assert HasSuccessor(db, h) ==> next.Some? by {
        if HasSuccessor(db, h) {
          var g :| g in db.health && SamePartition(h, g) && Before(h, g);
          LastCopyLead(db, rows, i, g);
        }
      }
      forall g | g in db.health && SamePartition(h, g) && Before(h, g)
        ensures next.Some? && rows[next.value].h.observedAt <= g.observedAt
      {
        LastCopyLead(db, rows, i, g);
      }
    }
  }

  lemma {:induction false} HealthyRowsMembers(db: Tables, rows: seq<JoinRow>, s: int, source: Source, n: nat, t: int)
    requires n <= |rows| && ClosedStream(db, s) && forall x <- rows :: x.h.runId in db.runs
    ensures Covers(HealthyRows(db, rows, s, source, n), t)
            <==> exists i :: 0 <= i < n && Chosen(rows[i], s, source) && Bounded(db, rows, i).Has(t)
  {
    if n > 0 {
      HealthyRowsMembers(db, rows, s, source, n - 1, t);
      if Chosen(rows[n - 1], s, source) {
        CoversAppend(HealthyRows(db, rows, s, source, n - 1), Bounded(db, rows, n - 1), t);
      }
    }
  }

  /** The view covers t exactly when a healthy row of the stream is in force at t and is the
      last copy of its health row in the window order. */
  lemma ViewPoints(db: Tables, rows: seq<JoinRow>, s: int, source: Source, t: int)
    requires ValidTables(db) && IsWindowOrder(db, rows) && ClosedStream(db, s)
    ensures Covers(View(db, rows, s, source), t)
            <==> exists i :: 0 <= i < |rows| && Chosen(rows[i], s, source) && LastCopy(rows, i)
                             && InForce(db, rows[i].h, t) && During(db, s, t)
  {
    HealthyRowsMembers(db, rows, s, source, |rows|, t);
    forall i | 0 <= i < |rows| && Chosen(rows[i], s, source)
      ensures Bounded(db, rows, i).Has(t) <==> LastCopy(rows, i) && InForce(db, rows[i].h, t) && During(db, s, t)
    {
      assert rows[i] in rows;
      RowInterval(db, rows, i, t);
    }
  }

  // ----- when the view is right -----

  /** No run observing s also observes another stream. */
  ghost predicate SoleRuns(links: set<Link>, s: int) {
    forall l, m :: l in links && m in links && l.runId == m.runId && l.streamId == s ==> m.streamId == s
  }

  ghost predicate ExactFor(db: Tables, rows: seq<JoinRow>, s: int, source: Source)
    requires ValidTables(db) && IsWindowOrder(db, rows) && ClosedStream(db, s)
  {
    forall t :: Covers(View(db, rows, s, source), t) <==> HealthyAt(db, s, source, t)
  }

  /** When each run of the stream observed no other stream, the view is exactly the health
      log, whatever the order of ties. */
  lemma SoleRunsAreExact(db: Tables, rows: seq<JoinRow>, s: int, source: Source)
    requires ValidTables(db) && IsWindowOrder(db, rows) && ClosedStream(db, s) && SoleRuns(db.links, s)
    ensures ExactFor(db, rows, s, source)
  {
    forall t ensures Covers(View(db, rows, s, source), t) <==> HealthyAt(db, s, source, t) {
      ViewPoints(db, rows, s, source, t);
      if Covers(View(db, rows, s, source), t) {
        var i :| 0 <= i < |rows| && Chosen(rows[i], s, source) && LastCopy(rows, i)
                 && InForce(db, rows[i].h, t) && During(db, s, t);
        assert rows[i] in rows;
      }
      if HealthyAt(db, s, source, t) {
        var h :| h in db.health && h.source == source && h.status == Healthy
                 && Link(h.runId, s) in db.links && InForce(db, h, t);
        var i := SoleCopy(db, rows, s, h);
        assert Chosen(rows[i], s, source);
      }
    }
  }

  lemma SoleCopy(db: Tables, rows: seq<JoinRow>, s: int, h: HealthRow) returns (i: nat)
    requires ValidTables(db) && IsWindowOrder(db, rows) && SoleRuns(db.links, s)
    requires h in db.health && Link(h.runId, s) in db.links
    ensures i < |rows| && rows[i] == JoinRow(s, h) && LastCopy(rows, i)
  {
    assert JoinRow(s, h) in rows;
    i :| 0 <= i < |rows| && rows[i] == JoinRow(s, h);
    forall j | i < j < |rows| ensures rows[j].h != h {
      assert rows[j] in rows && rows[j] != rows[i];
    }
  }

  /** Every linked health row gives its time to exactly one of its run's streams: the copies
      that are not last are lost, and there is always one last copy. */
  lemma {:induction false} OneStreamPerRow(db: Tables, rows: seq<JoinRow>, h: HealthRow, i: nat) returns (last: nat)
    requires IsWindowOrder(db, rows) && i < |rows| && rows[i].h == h
    ensures i <= last < |rows| && rows[last].h == h && LastCopy(rows, last)
    ensures forall k :: 0 <= k < |rows| && rows[k].h == h && LastCopy(rows, k) ==> k == last
    decreases |rows| - i
  {
    if LastCopy(rows, i) {
      last := i;
    } else {
      var j :| i < j < |rows| && rows[j].h == rows[i].h;
      last := OneStreamPerRow(db, rows, h, j);
    }
  }

  // ----- and when it is not -----

  lemma {:induction false} Enumerate(ids: set<int>) returns (q: seq<int>)
    ensures forall x :: x in q <==> x in ids
    ensures forall i, j :: 0 <= i < j < |q| ==> q[i] != q[j]
    decreases |ids|
  {
    if ids == {} {
      q := [];
    } else {
      var x := Member(ids);
      var rest := Enumerate(ids - {x});
      q := [x] + rest;
    }
  }

  /** For these links and streams, every set of runs and health rows and every tie order give
      the stream exactly its healthy instants. */
  ghost predicate AlwaysExact(links: set<Link>, streams: map<int, Stream>, s: int, source: Source)
    requires s in streams && streams[s].offlineAt.Some?
  {
    forall db: Tables, rows: seq<JoinRow> ::
      ValidTables(db) && db.links == links && db.streams == streams && IsWindowOrder(db, rows)
      ==> ExactFor(db, rows, s, source)
  }

  /** One healthy row covering the whole stream, in a run that also observed another stream.
      With the copy for s first, the view loses all of it. */
  lemma SharedRunLosesStream(links: set<Link>, streams: map<int, Stream>, s: int, source: Source, run: int, other: int)
    returns (db: Tables, rows: seq<JoinRow>)
    requires s in streams && streams[s].offlineAt.Some? && streams[s].startedAt < streams[s].offlineAt.value
    requires forall l <- links :: l.streamId in streams
    requires Link(run, s) in links && Link(run, other) in links && other != s
    ensures ValidTables(db) && db.links == links && db.streams == streams && IsWindowOrder(db, rows)
    ensures forall t :: During(db, s, t) ==> HealthyAt(db, s, source, t)
    ensures forall t :: !Covers(View(db, rows, s, source), t)
  {
    var h := HealthRow(1, run, source, streams[s].startedAt, Healthy);
    var runs := map l | l in links :: l.runId := Run(streams[s].offlineAt.value, None);
    db := Tables(runs, links, {h}, streams);
    assert run in runs by { assert Link(run, s).runId == run; }
    var others := set l | l in links && l.runId == run && l.streamId != s :: l.streamId;
    assert Link(run, other).streamId in others;
    var q := Enumerate(others);
    rows := seq(|q| + 1, (i: int) => JoinRow(if 1 <= i <= |q| then q[i - 1] else s, h));
    WitnessOrder(db, rows, q, s, run, h);
    forall t ensures !Covers(View(db, rows, s, source), t) {
      ViewPoints(db, rows, s, source, t);
      forall i | 0 <= i < |rows| && Chosen(rows[i], s, source) ensures !LastCopy(rows, i) {
        assert rows[1].h == rows[0].h;
      }
    }
    forall t | During(db, s, t) ensures HealthyAt(db, s, source, t) {
      assert InForce(db, h, t);
    }
  }

  lemma WitnessOrder(db: Tables, rows: seq<JoinRow>, q: seq<int>, s: int, run: int, h: HealthRow)
    requires db.health == {h} && h.runId == run && Link(run, s) in db.links
    requires forall x :: x in q <==> Link(run, x) in db.links && x != s
    requires forall i, j :: 0 <= i < j < |q| ==> q[i] != q[j]
    requires |rows| == |q| + 1 && rows[0] == JoinRow(s, h)
    requires forall i :: 1 <= i < |rows| ==> rows[i] == JoinRow(q[i - 1], h)
    ensures IsWindowOrder(db, rows)
    ensures forall i :: 1 <= i < |rows| ==> rows[i].streamId != s
  {
    forall i | 1 <= i < |rows| ensures rows[i].streamId != s { assert q[i - 1] in q; }
    forall x ensures x in rows <==> x.h in db.health && Link(x.h.runId, x.streamId) in db.links {
      if x in rows {
        var i :| 0 <= i < |rows| && rows[i] == x;
        if i > 0 { assert q[i - 1] in q; }
      }
      if x.h in db.health && Link(x.h.runId, x.streamId) in db.links {
        if x.streamId == s {
          assert rows[0] == x;
        } else {
          assert x.streamId in q;
          var i :| 0 <= i < |q| && q[i] == x.streamId;
          assert rows[i + 1] == x;
        }
      }
    }
    forall i, j | 0 <= i < j < |rows| ensures rows[i] != rows[j] {
      if i == 0 { assert q[j - 1] in q; }
    }
  }

  /** The view can be trusted for a stream exactly when no run observing it observed another
      stream as well (or the stream has no instant at all). */
  lemma ViewIsExactIff(links: set<Link>, streams: map<int, Stream>, s: int, source: Source)
    requires s in streams && streams[s].offlineAt.Some?
    requires forall l <- links :: l.streamId in streams
    ensures AlwaysExact(links, streams, s, source)
            <==> SoleRuns(links, s) || streams[s].offlineAt.value <= streams[s].startedAt
  {
    if SoleRuns(links, s) {
      forall db: Tables, rows: seq<JoinRow> |
        ValidTables(db) && db.links == links && db.streams == streams && IsWindowOrder(db, rows)
          ensures ExactFor(db, rows, s, source)
      {
        SoleRunsAreExact(db, rows, s, source);
      }
    } else if streams[s].offlineAt.value <= streams[s].startedAt {
      forall db: Tables, rows: seq<JoinRow> |
        ValidTables(db) && db.links == links && db.streams == streams && IsWindowOrder(db, rows)
          ensures ExactFor(db, rows, s, source)
      {
        forall t ensures Covers(View(db, rows, s, source), t) <==> HealthyAt(db, s, source, t) {
          ViewPoints(db, rows, s, source, t);
        }
      }
    } else {
      var l, m :| l in links && m in links && l.runId == m.runId && l.streamId == s && m.streamId != s;
      assert l == Link(l.runId, s) && m == Link(l.runId, m.streamId);
      var db, rows := SharedRunLosesStream(links, streams, s, source, l.runId, m.streamId);
      var t := streams[s].startedAt;
      assert During(db, s, t);
      assert HealthyAt(db, s, source, t) && !Covers(View(db, rows, s, source), t);
      assert !ExactFor(db, rows, s, source);
    }
  }

  // ----- healthy seconds of a window -----

  ghost function HealthyInstants(db: Tables, s: int, source: Source, w: Interval): set<int>
    requires ValidTables(db) && ClosedStream(db, s)
  {
    set t | w.lo <= t < w.hi && HealthyAt(db, s, source, t)
  }

  /** healthy_seconds of a window (chat_coverage in sql/016, source_coverage in sql/017) is the
      number of its instants at which the log was healthy, and its least(...) never binds. */
  lemma WindowCoverage(db: Tables, rows: seq<JoinRow>, s: int, source: Source, w: Interval)
    requires ValidTables(db) && IsWindowOrder(db, rows) && ClosedStream(db, s) && SoleRuns(db.links, s)
    requires w.lo <= w.hi
    ensures HealthyTime(View(db, rows, s, source), w) == |HealthyInstants(db, s, source, w)|
    ensures ClippedSum(Islands(View(db, rows, s, source)), w) <= w.hi - w.lo
  {
    SoleRunsAreExact(db, rows, s, source);
    HealthyTimeIsMeasure(View(db, rows, s, source), w);
    assert Instants(View(db, rows, s, source), w) == HealthyInstants(db, s, source, w);
  }
}
