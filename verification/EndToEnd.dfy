/** From the calls made on the sinks to the seconds the views report. */
module EndToEnd {
  import opened Common
  import EventSink
  import opened Intervals
  import opened SourceIntervals
  import Recovery
  import RecoveryTheorems

  /** The rows of one run and source in collection_health are the sink's log: ids in the order
      of the writes. */
  ghost predicate Stored(db: Tables, run: int, source: Source, log: seq<EventSink.Row>, ids: seq<int>) {
    && |ids| == |log|
    && (forall i, j :: 0 <= i < j < |ids| ==> ids[i] < ids[j])
    && (forall h :: h in db.health && h.runId == run && h.source == source <==> exists k :: RowIs(h, run, source, log, ids, k))
  }

  predicate RowIs(h: HealthRow, run: int, source: Source, log: seq<EventSink.Row>, ids: seq<int>, k: int) {
    0 <= k < |log| && k < |ids| && h == HealthRow(ids[k], run, source, log[k].observedAt, log[k].health.status)
  }

  /** Row k is the last one at or before t. */
  ghost predicate Latest(log: seq<EventSink.Row>, k: int, t: int) {
    0 <= k < |log| && log[k].observedAt <= t && forall j :: k < j < |log| ==> t < log[j].observedAt
  }

  ghost predicate TimesOrdered(log: seq<EventSink.Row>) {
    forall i, j :: 0 <= i < j < |log| ==> log[i].observedAt <= log[j].observedAt
  }

  lemma {:induction false} AsOfLookup(log: seq<EventSink.Row>, t: int)
    ensures EventSink.LogAt(log, t).Some? ==> exists k :: Latest(log, k, t) && EventSink.LogAt(log, t) == Some(log[k].health)
    ensures EventSink.LogAt(log, t) == None ==> forall k :: 0 <= k < |log| ==> t < log[k].observedAt
    decreases |log|
  {
    if log != [] {
      var last := |log| - 1;
      if log[last].observedAt <= t {
        assert Latest(log, last, t);
      } else {
        var front := log[..last];
        AsOfLookup(front, t);
        if EventSink.LogAt(front, t).Some? {
          var k :| Latest(front, k, t) && EventSink.LogAt(front, t) == Some(front[k].health);
          assert Latest(log, k, t) by { forall j | k < j < |log| ensures t < log[j].observedAt { if j < last { assert log[j] == front[j]; } } }
        } else {
          forall k | 0 <= k < |log| ensures t < log[k].observedAt { if k < last { assert log[k] == front[k]; } }
        }
      }
    }
  }

  /** The last instant before which the run can say anything: its end, or its last row. */
  function Horizon(run: Run, log: seq<EventSink.Row>): int {
    if log == [] then run.End() else Max(run.End(), log[|log| - 1].observedAt)
  }

  lemma BeforeIsOrder(log: seq<EventSink.Row>, run: int, source: Source, ids: seq<int>, g: HealthRow, h: HealthRow, i: int, k: int)
    requires |ids| == |log| && TimesOrdered(log) && (forall a, b :: 0 <= a < b < |ids| ==> ids[a] < ids[b])
    requires RowIs(g, run, source, log, ids, i) && RowIs(h, run, source, log, ids, k)
    ensures Before(g, h) <==> i < k
  {
  }

  /** A stored row is in force at t exactly when it is the latest at t, and the run had not
      ended unless a later row ends it. */
  lemma InForceIsLatest(db: Tables, run: int, source: Source, log: seq<EventSink.Row>, ids: seq<int>, h: HealthRow, k: int, t: int)
    requires run in db.runs && Stored(db, run, source, log, ids) && TimesOrdered(log) && RowIs(h, run, source, log, ids, k)
    ensures InForce(db, h, t) <==> Latest(log, k, t) && t < Horizon(db.runs[run], log)
  {
    forall g | g in db.health && SamePartition(h, g)
      ensures exists j :: RowIs(g, run, source, log, ids, j) && (Before(h, g) <==> k < j)
    {
      var j :| RowIs(g, run, source, log, ids, j);
      BeforeIsOrder(log, run, source, ids, h, g, k, j);
    }
    if k < |log| - 1 {
      var g := LaterRow(db, run, source, log, ids, h, k, |log| - 1);
      assert HasSuccessor(db, h);
    }
    if InForce(db, h, t) {
      forall j | k < j < |log| ensures t < log[j].observedAt {
        var g := LaterRow(db, run, source, log, ids, h, k, j);
      }
    }
  }

  lemma LaterRow(db: Tables, run: int, source: Source, log: seq<EventSink.Row>, ids: seq<int>, h: HealthRow, k: int, j: int) returns (g: HealthRow)
    requires Stored(db, run, source, log, ids) && TimesOrdered(log) && RowIs(h, run, source, log, ids, k) && k < j < |log|
    ensures g in db.health && SamePartition(h, g) && Before(h, g) && g.observedAt == log[j].observedAt
  {
    g := HealthRow(ids[j], run, source, log[j].observedAt, log[j].health.status);
    assert RowIs(g, run, source, log, ids, j);
    BeforeIsOrder(log, run, source, ids, h, g, k, j);
  }

  predicate IsHealthy(h: Option<EventSink.Health>) { h.Some? && h.value.status == Healthy }

  /** The tables say healthy for this run at t exactly when its row log does. */
  lemma TableIsLog(db: Tables, run: int, source: Source, log: seq<EventSink.Row>, ids: seq<int>, t: int)
    requires run in db.runs && Stored(db, run, source, log, ids) && TimesOrdered(log)
    ensures (exists h :: h in db.health && h.runId == run && h.source == source && h.status == Healthy && InForce(db, h, t))
            <==> IsHealthy(EventSink.LogAt(log, t)) && t < Horizon(db.runs[run], log)
  {
    AsOfLookup(log, t);
    if h :| h in db.health && h.runId == run && h.source == source && h.status == Healthy && InForce(db, h, t) {
      var k :| RowIs(h, run, source, log, ids, k);
      InForceIsLatest(db, run, source, log, ids, h, k, t);
    }
    if IsHealthy(EventSink.LogAt(log, t)) && t < Horizon(db.runs[run], log) {
      var k :| Latest(log, k, t) && EventSink.LogAt(log, t) == Some(log[k].health);
      var h := HealthRow(ids[k], run, source, log[k].observedAt, log[k].health.status);
      assert RowIs(h, run, source, log, ids, k);
      InForceIsLatest(db, run, source, log, ids, h, k, t);
    }
  }

  // ----- whole runs -----

  /** What one run did to the sink of a source, and the ids its rows got. */
  datatype Sinking = Sinking(calls: seq<EventSink.Call>, ids: seq<int>)

  function Log(source: Source, x: Sinking): seq<EventSink.Row> {
    EventSink.RunCalls(EventSink.NewSink(source == Chat), x.calls).log
  }

  /** Every run observing the stream wrote its rows through one sink, at times that never
      decrease, and every write committed. */
  ghost predicate Recorded(db: Tables, s: int, source: Source, runs: map<int, Sinking>) {
    forall l <- db.links :: l.streamId == s ==> l.runId in runs && l.runId in db.runs && RunRecorded(db, l.runId, source, runs[l.runId])
  }

  ghost predicate RunRecorded(db: Tables, run: int, source: Source, x: Sinking) {
    && EventSink.AllSucceed(EventSink.NewSink(source == Chat), x.calls) && EventSink.TimesNondecreasing(x.calls)
    && Stored(db, run, source, Log(source, x), x.ids)
  }

  /** In memory, the sink of some run observing the stream was healthy at t. */
  ghost predicate HealthyInMemory(db: Tables, s: int, source: Source, runs: map<int, Sinking>, t: int)
    requires Recorded(db, s, source, runs) && ClosedStream(db, s)
  {
    During(db, s, t)
    && exists run :: Link(run, s) in db.links && t < Horizon(db.runs[run], Log(source, runs[run]))
                     && IsHealthy(EventSink.HealthAt(EventSink.NewSink(source == Chat), runs[run].calls, t))
  }

  lemma RunMemoryIsTable(db: Tables, run: int, source: Source, x: Sinking, t: int)
    requires run in db.runs && RunRecorded(db, run, source, x)
    ensures (exists h :: h in db.health && h.runId == run && h.source == source && h.status == Healthy && InForce(db, h, t))
            <==> IsHealthy(EventSink.HealthAt(EventSink.NewSink(source == Chat), x.calls, t)) && t < Horizon(db.runs[run], Log(source, x))
  {
    EventSink.LogIsFaithful(source == Chat, x.calls, t);
    EventSink.RowTimesOrdered(EventSink.NewSink(source == Chat), x.calls);
    TableIsLog(db, run, source, Log(source, x), x.ids, t);
  }

  lemma MemoryIsTable(db: Tables, s: int, source: Source, runs: map<int, Sinking>, t: int)
    requires ValidTables(db) && ClosedStream(db, s) && Recorded(db, s, source, runs)
    ensures HealthyAt(db, s, source, t) <==> HealthyInMemory(db, s, source, runs, t)
  {
    hide Stored, RunRecorded, InForce;
    forall run | Link(run, s) in db.links
      ensures (exists h :: h in db.health && h.runId == run && h.source == source && h.status == Healthy && InForce(db, h, t))
              <==> IsHealthy(EventSink.HealthAt(EventSink.NewSink(source == Chat), runs[run].calls, t)) && t < Horizon(db.runs[run], Log(source, runs[run]))
    {
      assert Link(run, s).streamId == s;
      RunMemoryIsTable(db, run, source, runs[run], t);
    }
    if HealthyAt(db, s, source, t) {
      var h :| h in db.health && h.source == source && h.status == Healthy && Link(h.runId, s) in db.links && InForce(db, h, t);
    }
    if HealthyInMemory(db, s, source, runs, t) {
      var run :| Link(run, s) in db.links && t < Horizon(db.runs[run], Log(source, runs[run]))
                 && IsHealthy(EventSink.HealthAt(EventSink.NewSink(source == Chat), runs[run].calls, t));
    }
  }

  /** End to end: the healthy seconds the views report for a window are the number of its
      instants at which the sink of some run observing the stream was healthy in memory. */
  lemma ReportedIsRemembered(db: Tables, rows: seq<JoinRow>, s: int, source: Source, runs: map<int, Sinking>, w: Interval)
    requires ValidTables(db) && IsWindowOrder(db, rows) && ClosedStream(db, s) && SoleRuns(db.links, s)
    requires Recorded(db, s, source, runs) && w.lo <= w.hi
    ensures HealthyTime(View(db, rows, s, source), w) == |set t | w.lo <= t < w.hi && HealthyInMemory(db, s, source, runs, t)|
  {
    WindowCoverage(db, rows, s, source, w);
    forall t ensures HealthyAt(db, s, source, t) <==> HealthyInMemory(db, s, source, runs, t) {
      MemoryIsTable(db, s, source, runs, t);
    }
    assert HealthyInstants(db, s, source, w) == (set t | w.lo <= t < w.hi && HealthyInMemory(db, s, source, runs, t));
  }

  // ----- from the capture session to the tables -----

  /** While storage works and the clock only went forward, the rows a capture session has
      written for a source are those of a run of successful calls at ordered times, so what is
      proved of such runs holds of every state the session reaches. */
  lemma ReachedRunIsRecorded(db: Tables, run: int, source: Source, p: Recovery.Probe, ids: seq<int>) returns (x: Sinking)
    requires RecoveryTheorems.Reached(p) && source in p.router.sinks && p.monotone && !p.router.storageFailed
    requires Stored(db, run, source, p.router.sinks[source].log, ids)
    ensures RunRecorded(db, run, source, x) && Log(source, x) == p.router.sinks[source].log && x.ids == ids
    ensures EventSink.RunCalls(EventSink.NewSink(source == Chat), x.calls) == p.router.sinks[source]
  {
    RecoveryTheorems.SinkIsARun(p, source);
    var calls :| EventSink.RunReaches(calls, p.router.sinks[source], source == Chat, p.clock);
    x := Sinking(calls, ids);
  }
}
