/** Five-minute windows of a closed stream, and the totals that must survive splitting a
    stream into them (sql/016 windows and chat_window, sql/017 event_counts). */
module Windows {
  import opened Common
  import opened Intervals
  import opened SourceIntervals

  const WINDOW := 300_000_000

  /** ceil(a / b) for positive b and any sign of a. */
  function CeilDiv(a: int, b: int): int
    requires b > 0
  {
    -((-a) / b)
  }

  /** generate_series(0, greatest(0, ceil(seconds / 300) - 1)) */
  function WindowCount(start: int, offline: int): nat {
    Max(0, CeilDiv(offline - start, WINDOW) - 1) + 1
  }

  function Window(start: int, offline: int, k: int): Interval {
    Interval(start + k * WINDOW, Min(start + (k + 1) * WINDOW, offline))
  }

  function WindowsOf(start: int, offline: int): seq<Interval> {
    seq(WindowCount(start, offline), k => Window(start, offline, k))
  }

  lemma CountBounds(start: int, offline: int)
    requires start < offline
    ensures var n := WindowCount(start, offline);
            start + (n - 1) * WINDOW < offline <= start + n * WINDOW
  {
  }

  /** Each window starts where the one before ended, the first at lo, the last ending at hi. */
  predicate Tiles(ws: seq<Interval>, lo: int, hi: int) {
    && ws != [] && ws[0].lo == lo && ws[|ws| - 1].hi == hi
    && (forall i :: 0 <= i < |ws| ==> ws[i].lo <= ws[i].hi)
    && (forall i :: 0 <= i < |ws| - 1 ==> ws[i].hi == ws[i + 1].lo)
  }

  /** The windows cut [start, offline) into consecutive nonempty pieces of at most five
      minutes; every piece but the last is exactly five minutes. */
  lemma WindowsTile(start: int, offline: int)
    requires start < offline
    ensures var ws := WindowsOf(start, offline);
            Tiles(ws, start, offline) && AllNonEmpty(ws)
            && forall i :: 0 <= i < |ws| ==> ws[i].hi - ws[i].lo <= WINDOW && (i < |ws| - 1 ==> ws[i].hi - ws[i].lo == WINDOW)
  {
  }

  /** An instant of the stream lies in exactly one window, an instant outside in none. */
  lemma ExactlyOneWindow(start: int, offline: int, t: int)
    requires start < offline
    ensures var ws := WindowsOf(start, offline);
            && (start <= t < offline <==> exists k :: 0 <= k < |ws| && ws[k].Has(t))
            && forall i, j :: 0 <= i < |ws| && 0 <= j < |ws| && ws[i].Has(t) && ws[j].Has(t) ==> i == j
  {
    CountBounds(start, offline);
    var ws := WindowsOf(start, offline);
    if start <= t < offline {
      var k := (t - start) / WINDOW;
      assert t - start == k * WINDOW + (t - start) % WINDOW;
      assert 0 <= k < |ws| && ws[k].Has(t);
    }
    forall i, j | 0 <= i < |ws| && 0 <= j < |ws| && ws[i].Has(t) && ws[j].Has(t) ensures i == j {
      assert i * WINDOW <= t - start < (i + 1) * WINDOW;
      assert j * WINDOW <= t - start < (j + 1) * WINDOW;
    }
  }

  // ----- totals over windows -----

  function Total(f: Interval -> int, ws: seq<Interval>): int {
    if ws == [] then 0 else Total(f, ws[..|ws| - 1]) + f(ws[|ws| - 1])
  }

  ghost predicate Additive(f: Interval -> int) {
    forall a, b, c :: a <= b <= c ==> f(Interval(a, b)) + f(Interval(b, c)) == f(Interval(a, c))
  }

  lemma {:induction false} TotalOverTiles(f: Interval -> int, ws: seq<Interval>, lo: int, hi: int)
    requires Additive(f) && Tiles(ws, lo, hi)
    ensures lo <= hi && Total(f, ws) == f(Interval(lo, hi))
  {
    var n := |ws|;
    var last := ws[n - 1];
    if n == 1 {
      assert ws[..0] == [];
      assert last == Interval(lo, hi);
    } else {
      var front := ws[..n - 1];
      assert front[n - 2].hi == last.lo;
      TotalOverTiles(f, front, lo, last.lo);
      assert f(Interval(lo, last.lo)) + f(Interval(last.lo, hi)) == f(Interval(lo, hi));
    }
  }

  /** Any additive measure of time summed over the windows is its value on the stream. */
  lemma TotalOverWindows(f: Interval -> int, start: int, offline: int)
    requires Additive(f) && start < offline
    ensures Total(f, WindowsOf(start, offline)) == f(Interval(start, offline))
  {
    WindowsTile(start, offline);
    TotalOverTiles(f, WindowsOf(start, offline), start, offline);
  }

  // ----- healthy seconds -----

  lemma HealthyTimeIsAdditive(rows: seq<Interval>)
    requires AllNonEmpty(rows)
    ensures Additive(w => HealthyTime(rows, w))
  {
    forall a, b, c | a <= b <= c
      ensures HealthyTime(rows, Interval(a, b)) + HealthyTime(rows, Interval(b, c)) == HealthyTime(rows, Interval(a, c))
    {
      HealthyTimeIsMeasure(rows, Interval(a, b));
      HealthyTimeIsMeasure(rows, Interval(b, c));
      HealthyTimeIsMeasure(rows, Interval(a, c));
      assert Instants(rows, Interval(a, c)) == Instants(rows, Interval(a, b)) + Instants(rows, Interval(b, c));
      assert Instants(rows, Interval(a, b)) !! Instants(rows, Interval(b, c));
    }
  }

  /** The windows' healthy seconds add up to the healthy instants of the whole stream. */
  lemma CoverageAddsUp(db: Tables, rows: seq<JoinRow>, s: int, source: Source)
    requires ValidTables(db) && IsWindowOrder(db, rows) && ClosedStream(db, s) && SoleRuns(db.links, s)
    requires db.streams[s].startedAt < db.streams[s].offlineAt.value
    ensures var lo, hi := db.streams[s].startedAt, db.streams[s].offlineAt.value;
            Total(w => HealthyTime(View(db, rows, s, source), w), WindowsOf(lo, hi))
            == |HealthyInstants(db, s, source, Interval(lo, hi))|
  {
    var lo, hi := db.streams[s].startedAt, db.streams[s].offlineAt.value;
    var view := View(db, rows, s, source);
    HealthyTimeIsAdditive(view);
    TotalOverWindows(w => HealthyTime(view, w), lo, hi);
    WindowCoverage(db, rows, s, source, Interval(lo, hi));
  }

  lemma WindowsForward(start: int, offline: int, w: Interval)
    requires start <= offline && w in WindowsOf(start, offline)
    ensures w.lo <= w.hi
  {
    if start < offline {
      WindowsTile(start, offline);
    } else {
      assert WindowCount(start, offline) == 1;
    }
  }

  /** A stream that went offline before it started has no healthy rows. */
  lemma {:induction false} BackwardStreamIsEmpty(db: Tables, rows: seq<JoinRow>, s: int, source: Source, n: nat)
    requires ValidTables(db) && IsWindowOrder(db, rows) && ClosedStream(db, s) && n <= |rows|
    requires db.streams[s].offlineAt.value < db.streams[s].startedAt
    ensures HealthyRows(db, rows, s, source, n) == []
  {
    if n > 0 { BackwardStreamIsEmpty(db, rows, s, source, n - 1); }
  }

  predicate CapBinds(rows: seq<Interval>, w: Interval) { HealthyTime(rows, w) != ClippedSum(Islands(rows), w) }

  /** The least(...) around a window's healthy seconds binds in some window exactly for a stream
      whose offline time is before its start. */
  lemma CapBindsIff(db: Tables, rows: seq<JoinRow>, s: int, source: Source)
    requires ValidTables(db) && IsWindowOrder(db, rows) && ClosedStream(db, s)
    ensures var start, offline := db.streams[s].startedAt, db.streams[s].offlineAt.value;
            (exists w :: w in WindowsOf(start, offline) && CapBinds(View(db, rows, s, source), w)) <==> offline < start
  {
    var start, offline, view := db.streams[s].startedAt, db.streams[s].offlineAt.value, View(db, rows, s, source);
    if offline < start {
      BackwardStreamIsEmpty(db, rows, s, source, |rows|);
      var w := WindowsOf(start, offline)[0];
      IslandsMeaning([]);
      assert CapBinds([], w);
    } else {
      forall w | w in WindowsOf(start, offline) ensures !CapBinds(view, w) {
        WindowsForward(start, offline, w);
        HealthyTimeIsMeasure(view, w);
      }
    }
  }

  // ----- rows counted by time -----

  /** count(*) of the rows whose time lies in w. */
  function CountIn(times: seq<int>, w: Interval): nat {
    if times == [] then 0 else CountIn(times[1..], w) + if w.Has(times[0]) then 1 else 0
  }

  lemma {:induction false} CountSplits(times: seq<int>, a: int, b: int, c: int)
    requires a <= b <= c
    ensures CountIn(times, Interval(a, b)) + CountIn(times, Interval(b, c)) == CountIn(times, Interval(a, c))
  {
    if times != [] { CountSplits(times[1..], a, b, c); }
  }

  lemma CountIsAdditive(times: seq<int>)
    ensures Additive(w => CountIn(times, w))
  {
    forall a, b, c | a <= b <= c
      ensures CountIn(times, Interval(a, b)) + CountIn(times, Interval(b, c)) == CountIn(times, Interval(a, c))
    {
      CountSplits(times, a, b, c);
    }
  }

  lemma {:induction false} CountAll(times: seq<int>, w: Interval)
    requires forall t <- times :: w.Has(t)
    ensures CountIn(times, w) == |times|
  {
    if times != [] { CountAll(times[1..], w); }
  }

  datatype Message = Message(streamId: int, shared: bool, notificationAt: int)

  /** The times of the messages chat_window counts for a stream: local or shared ones. */
  function MessageTimes(ms: seq<Message>, s: int, shared: bool): seq<int> {
    if ms == [] then []
    else (if ms[0].streamId == s && ms[0].shared == shared then [ms[0].notificationAt] else [])
         + MessageTimes(ms[1..], s, shared)
  }

  /** Per-window message counts add up to the stream's messages dated inside the stream: none
      lost at a boundary, none counted twice. */
  lemma MessagesAddUp(ms: seq<Message>, s: int, shared: bool, start: int, offline: int)
    requires start < offline
    ensures Total(w => CountIn(MessageTimes(ms, s, shared), w), WindowsOf(start, offline))
            == CountIn(MessageTimes(ms, s, shared), Interval(start, offline))
  {
    CountIsAdditive(MessageTimes(ms, s, shared));
    TotalOverWindows(w => CountIn(MessageTimes(ms, s, shared), w), start, offline);
  }

  /** The messages counted: those of the stream, local or shared as asked, dated in the window. */
  function MessagesIn(ms: seq<Message>, s: int, shared: bool, lo: int, hi: int): set<int> {
    set k | 0 <= k < |ms| && ms[k].streamId == s && ms[k].shared == shared && lo <= ms[k].notificationAt < hi
  }

  lemma {:induction false} MessagesCounted(ms: seq<Message>, s: int, shared: bool, w: Interval)
    ensures CountIn(MessageTimes(ms, s, shared), w) == |MessagesIn(ms, s, shared, w.lo, w.hi)|
  {
    if ms != [] {
      MessagesCounted(ms[1..], s, shared, w);
      FirstMessage(ms, s, shared, w.lo, w.hi);
      hide MessagesIn;
      var times := MessageTimes(ms[1..], s, shared);
      assert ([ms[0].notificationAt] + times)[1..] == times && [] + times == times;
    }
  }

  lemma FirstMessage(ms: seq<Message>, s: int, shared: bool, lo: int, hi: int)
    requires ms != []
    ensures |MessagesIn(ms, s, shared, lo, hi)|
            == |MessagesIn(ms[1..], s, shared, lo, hi)| + if ms[0].streamId == s && ms[0].shared == shared && lo <= ms[0].notificationAt < hi then 1 else 0
  {
    var all, rest := MessagesIn(ms, s, shared, lo, hi), MessagesIn(ms[1..], s, shared, lo, hi);
    var moved := set k | k in rest :: k + 1;
    ShiftedSize(rest, moved);
    Shifted(ms, s, shared, lo, hi, moved);
    hide MessagesIn;
    assert all == if 0 in all then moved + {0} else moved;
  }

  lemma Shifted(ms: seq<Message>, s: int, shared: bool, lo: int, hi: int, moved: set<int>)
    requires ms != [] && moved == set k | k in MessagesIn(ms[1..], s, shared, lo, hi) :: k + 1
    ensures forall k :: k in moved <==> k != 0 && k in MessagesIn(ms, s, shared, lo, hi)
    ensures 0 in MessagesIn(ms, s, shared, lo, hi) <==> ms[0].streamId == s && ms[0].shared == shared && lo <= ms[0].notificationAt < hi
  {
    var rest := MessagesIn(ms[1..], s, shared, lo, hi);
    forall k ensures k in moved <==> k - 1 in rest { assert k - 1 in rest ==> (k - 1) + 1 in moved; }
    forall k | k != 0 ensures k - 1 in rest <==> k in MessagesIn(ms, s, shared, lo, hi) { }
  }

  lemma {:induction false} ShiftedSize(a: set<int>, b: set<int>)
    requires b == set k | k in a :: k + 1
    ensures |b| == |a|
    decreases |a|
  {
    if a != {} {
      var x := Member(a);
      var less := set k | k in a - {x} :: k + 1;
      forall y | y in b ensures y in less + {x + 1} { assert y != x + 1 ==> y - 1 in a - {x}; }
      assert b == less + {x + 1} && x + 1 !in less;
      ShiftedSize(a - {x}, less);
    }
  }

  /** Summed over the windows, that is every message of the stream dated inside it. */
  lemma MessagesOfStream(ms: seq<Message>, s: int, shared: bool, start: int, offline: int)
    requires start < offline
    ensures Total(w => CountIn(MessageTimes(ms, s, shared), w), WindowsOf(start, offline)) == |MessagesIn(ms, s, shared, start, offline)|
  {
    MessagesAddUp(ms, s, shared, start, offline);
    MessagesCounted(ms, s, shared, Interval(start, offline));
  }

  // ----- event associations -----

  datatype EventType = Follow | Raid

  datatype Event = Event(eventType: EventType, capturedStreamId: Option<int>, eventAt: int)

  datatype Association = Unresolved | Ambiguous | Conflict | Resolved

  /** Streams whose half-open span holds the event; an open stream never matches. */
  function Candidates(streams: map<int, Stream>, at: int): set<int> {
    set s | s in streams && streams[s].offlineAt.Some? && streams[s].startedAt <= at < streams[s].offlineAt.value
  }

  ghost function MinId(ids: set<int>): int
    requires ids != {}
  {
    LeastExists(ids);
    var least :| least in ids && forall x :: x in ids ==> least <= x;
    least
  }

  lemma {:induction false} LeastExists(ids: set<int>)
    requires ids != {}
    ensures exists m :: m in ids && forall x :: x in ids ==> m <= x
    decreases |ids|
  {
    var a := Member(ids);
    if ids - {a} != {} {
      LeastExists(ids - {a});
      var b :| b in ids - {a} && forall x :: x in ids - {a} ==> b <= x;
      var m := Min(a, b);
      assert m in ids;
      forall x | x in ids ensures m <= x { if x != a { assert x in ids - {a}; } }
    } else {
      assert ids == {a};
    }
  }

  ghost function AssociatedStream(streams: map<int, Stream>, e: Event): Option<int> {
    var c := Candidates(streams, e.eventAt);
    if |c| == 1 && (e.capturedStreamId == None || e.capturedStreamId == Some(MinId(c))) then Some(MinId(c)) else None
  }

  ghost function AssociationStatus(streams: map<int, Stream>, e: Event): Association {
    var c := Candidates(streams, e.eventAt);
    if |c| == 0 then Unresolved
    else if |c| > 1 then Ambiguous
    else if e.capturedStreamId.Some? && e.capturedStreamId != Some(MinId(c)) then Conflict
    else Resolved
  }

  /** An event is resolved to s exactly when s is the only stream holding it and the capture
      did not name another one; only resolved events carry a stream. */
  lemma ResolvedMeaning(streams: map<int, Stream>, e: Event, s: int)
    ensures AssociatedStream(streams, e) == Some(s)
            <==> Candidates(streams, e.eventAt) == {s} && (e.capturedStreamId == None || e.capturedStreamId == Some(s))
    ensures AssociationStatus(streams, e) == Resolved <==> AssociatedStream(streams, e).Some?
  {
    var c := Candidates(streams, e.eventAt);
    if |c| == 1 {
      var m := MinId(c);
      OnlyMember(c, m);
    }
  }

  /** Stream s was live at this time and is closed. */
  predicate LiveAt(streams: map<int, Stream>, s: int, at: int) {
    s in streams && streams[s].offlineAt.Some? && streams[s].startedAt <= at && at < streams[s].offlineAt.value
  }

  /** The status, from the streams live at the event's time: none, more than one, one that is
      not the captured stream, or one and no disagreement. */
  lemma StatusMeaning(streams: map<int, Stream>, e: Event)
    ensures AssociationStatus(streams, e) == Unresolved <==> forall s :: !LiveAt(streams, s, e.eventAt)
    ensures AssociationStatus(streams, e) == Ambiguous <==> exists s, t :: s != t && LiveAt(streams, s, e.eventAt) && LiveAt(streams, t, e.eventAt)
    ensures AssociationStatus(streams, e) == Conflict <==>
              exists s :: OnlyLive(streams, s, e.eventAt) && e.capturedStreamId.Some? && e.capturedStreamId != Some(s)
    ensures forall s :: AssociationStatus(streams, e) == Resolved && AssociatedStream(streams, e) == Some(s) <==>
                        OnlyLive(streams, s, e.eventAt) && (e.capturedStreamId == None || e.capturedStreamId == Some(s))
  {
    var c := Candidates(streams, e.eventAt);
    assert forall s :: s in c <==> LiveAt(streams, s, e.eventAt);
    if |c| == 1 {
      OnlyMember(c, MinId(c));
      assert OnlyLive(streams, MinId(c), e.eventAt);
    } else if |c| > 1 {
      var s := Member(c);
      assert c - {s} == {} ==> c == {s};
      var t := Member(c - {s});
      assert LiveAt(streams, s, e.eventAt) && LiveAt(streams, t, e.eventAt);
    }
    forall s | OnlyLive(streams, s, e.eventAt) ensures c == {s} { }
  }

  ghost predicate OnlyLive(streams: map<int, Stream>, s: int, at: int) {
    LiveAt(streams, s, at) && forall t :: LiveAt(streams, t, at) ==> t == s
  }

  /** The events sql/017 joins to stream s, by time. */
  ghost function EventTimes(streams: map<int, Stream>, es: seq<Event>, s: int, kind: EventType): seq<int> {
    if es == [] then []
    else (if es[0].eventType == kind && AssociationStatus(streams, es[0]) == Resolved
             && AssociatedStream(streams, es[0]) == Some(s) then [es[0].eventAt] else [])
         + EventTimes(streams, es[1..], s, kind)
  }

  /** The events counted: those of the kind whose time only this closed stream was live at, and
      whose capture named no other stream. */
  ghost function EventsOf(streams: map<int, Stream>, es: seq<Event>, s: int, kind: EventType): set<int> {
    set k | 0 <= k < |es| && BelongsTo(streams, es[k], s, kind)
  }

  ghost predicate BelongsTo(streams: map<int, Stream>, e: Event, s: int, kind: EventType) {
    e.eventType == kind && OnlyLive(streams, s, e.eventAt) && (e.capturedStreamId == None || e.capturedStreamId == Some(s))
  }

  lemma {:induction false} EventsCounted(streams: map<int, Stream>, es: seq<Event>, s: int, kind: EventType)
    ensures |EventTimes(streams, es, s, kind)| == |EventsOf(streams, es, s, kind)|
  {
    if es != [] {
      hide BelongsTo, AssociatedStream, AssociationStatus;
      EventsCounted(streams, es[1..], s, kind);
      var all, rest := EventsOf(streams, es, s, kind), EventsOf(streams, es[1..], s, kind);
      var moved := set k | k in rest :: k + 1;
      ShiftedSize(rest, moved);
      forall k ensures k in moved <==> k != 0 && k in all { assert k - 1 in rest ==> (k - 1) + 1 in moved; }
      assert all == if 0 in all then moved + {0} else moved;
      Belongs(streams, es[0], s, kind);
    }
  }

  lemma Belongs(streams: map<int, Stream>, e: Event, s: int, kind: EventType)
    ensures BelongsTo(streams, e, s, kind) <==>
              e.eventType == kind && AssociationStatus(streams, e) == Resolved && AssociatedStream(streams, e) == Some(s)
  {
    hide AssociatedStream, AssociationStatus;
    StatusMeaning(streams, e);
  }

  lemma {:induction false} EventTimesInside(streams: map<int, Stream>, es: seq<Event>, s: int, kind: EventType)
    requires s in streams && streams[s].offlineAt.Some?
    ensures forall t <- EventTimes(streams, es, s, kind) :: streams[s].startedAt <= t < streams[s].offlineAt.value
  {
    if es != [] {
      EventTimesInside(streams, es[1..], s, kind);
      ResolvedMeaning(streams, es[0], s);
      assert AssociatedStream(streams, es[0]) == Some(s) ==> s in Candidates(streams, es[0].eventAt);
    }
  }

  /** Per-window raid or follow counts add up to all events resolved to the stream. */
  lemma EventsAddUp(streams: map<int, Stream>, es: seq<Event>, s: int, kind: EventType)
    requires s in streams && streams[s].offlineAt.Some? && streams[s].startedAt < streams[s].offlineAt.value
    ensures var times := EventTimes(streams, es, s, kind);
            Total(w => CountIn(times, w), WindowsOf(streams[s].startedAt, streams[s].offlineAt.value)) == |times|
  {
    var times := EventTimes(streams, es, s, kind);
    var whole := Interval(streams[s].startedAt, streams[s].offlineAt.value);
    CountIsAdditive(times);
    TotalOverWindows(w => CountIn(times, w), whole.lo, whole.hi);
    EventTimesInside(streams, es, s, kind);
    CountAll(times, whole);
  }

  ghost function SumOverStreams(streams: map<int, Stream>, es: seq<Event>, ids: seq<int>, kind: EventType): nat {
    if ids == [] then 0
    else |EventTimes(streams, es, ids[0], kind)| + SumOverStreams(streams, es, ids[1..], kind)
  }

  ghost function ResolvedCount(streams: map<int, Stream>, es: seq<Event>, kind: EventType): nat {
    if es == [] then 0
    else ResolvedCount(streams, es[1..], kind)
         + if es[0].eventType == kind && AssociationStatus(streams, es[0]) == Resolved then 1 else 0
  }

  lemma {:induction false} SumStep(streams: map<int, Stream>, es: seq<Event>, ids: seq<int>, kind: EventType)
    requires es != [] && forall i, j :: 0 <= i < j < |ids| ==> ids[i] != ids[j]
    ensures SumOverStreams(streams, es, ids, kind) == SumOverStreams(streams, es[1..], ids, kind)
            + if es[0].eventType == kind && AssociatedStream(streams, es[0]).Some?
                 && AssociatedStream(streams, es[0]).value in ids then 1 else 0
  {
    if ids != [] {
      SumStep(streams, es, ids[1..], kind);
      ResolvedMeaning(streams, es[0], ids[0]);
    }
  }

  /** Across all streams each resolved event is counted once, in one stream. */
  lemma {:induction false} EventsCountedOnce(streams: map<int, Stream>, es: seq<Event>, ids: seq<int>, kind: EventType)
    requires forall i, j :: 0 <= i < j < |ids| ==> ids[i] != ids[j]
    requires forall s :: s in ids <==> s in streams && streams[s].offlineAt.Some?
    ensures SumOverStreams(streams, es, ids, kind) == ResolvedCount(streams, es, kind)
  {
    if es == [] {
      NoEvents(streams, ids, kind);
    } else {
      EventsCountedOnce(streams, es[1..], ids, kind);
      SumStep(streams, es, ids, kind);
      var a := AssociatedStream(streams, es[0]);
      ResolvedMeaning(streams, es[0], if a.Some? then a.value else 0);
      assert a.Some? ==> a.value in Candidates(streams, es[0].eventAt);
    }
  }

  lemma {:induction false} NoEvents(streams: map<int, Stream>, ids: seq<int>, kind: EventType)
    ensures SumOverStreams(streams, [], ids, kind) == 0
  {
    if ids != [] { NoEvents(streams, ids[1..], kind); }
  }
}
