/** Observed-live eligibility for chat (scripts/live_status.py): three fields stand for the
    whole poll history. */
module LiveStatus {
  import opened Common

  const STALE := 90_000_000

  // ----- the three fields -----

  datatype Live = Live(streamId: Option<string>, eligibleSince: Option<int>, lastPollTick: Option<int>)

  const NotLive := Live(None, None, None)

  predicate WithinHold(tick: int, last: int) { 0 <= tick - last < STALE }

  function Expire(l: Live, tick: int): Live {
    if l.lastPollTick.Some? && !WithinHold(tick, l.lastPollTick.value) then NotLive else l
  }

  function PollLive(l: Live, id: string, observedAt: int, tick: int): Live {
    var e := Expire(l, tick);
    Live(Some(id), if e.streamId != Some(id) || e.eligibleSince == None then Some(observedAt) else e.eligibleSince, Some(tick))
  }

  /** Accepted stream, or None to discard the message. */
  function Eligible(l: Live, notificationAt: int, receivedAt: int): Option<string> {
    if l.eligibleSince.Some? && l.eligibleSince.value <= notificationAt <= receivedAt then l.streamId else None
  }

  // ----- the history they stand for -----

  datatype Event = LivePoll(id: string, observedAt: int, tick: int) | NoLivePoll | ChatCheck(tick: int)

  function ReplayFrom(l: Live, later: seq<Event>): Live {
    if later == [] then l
    else
      var before := ReplayFrom(l, later[..|later| - 1]);
      match later[|later| - 1]
      case LivePoll(id, at, tick) => PollLive(before, id, at, tick)
      case NoLivePoll => NotLive
      case ChatCheck(tick) => Expire(before, tick)
  }

  function Replay(h: seq<Event>): Live { ReplayFrom(NotLive, h) }

  /** The history without its chat checks. */
  function Polls(h: seq<Event>): seq<Event> {
    if h == [] then []
    else if h[|h| - 1].ChatCheck? then Polls(h[..|h| - 1])
    else Polls(h[..|h| - 1]) + [h[|h| - 1]]
  }

  /** Event ticks never decrease and never exceed now. */
  predicate TicksUpTo(h: seq<Event>, now: int) {
    && (forall i :: 0 <= i < |h| && !h[i].NoLivePoll? ==> h[i].tick <= now)
    && (forall i, j :: 0 <= i < j < |h| && !h[i].NoLivePoll? && !h[j].NoLivePoll? ==> h[i].tick <= h[j].tick)
  }

  /** From poll i on, every poll saw this stream live, each under 90 s after the one before. */
  ghost predicate Streak(p: seq<Event>, i: int, id: string) {
    && 0 <= i < |p|
    && (forall k :: i <= k < |p| ==> p[k].LivePoll? && p[k].id == id)
    && (forall k :: i < k < |p| ==> WithinHold(p[k].tick, p[k - 1].tick))
  }

  ghost predicate LongestStreak(p: seq<Event>, i: int, id: string) {
    Streak(p, i, id) && !Streak(p, i - 1, id)
  }

  /** The specification over the full poll history: the unbroken run of live polls that ends
      the history began no later than the notification, which is no later than its receipt,
      and the last poll is under 90 s old. */
  ghost predicate Accepts(p: seq<Event>, id: string, notificationAt: int, receivedAt: int, now: int) {
    exists i :: LongestStreak(p, i, id) && WithinHold(now, p[|p| - 1].tick)
                && p[i].observedAt <= notificationAt <= receivedAt
  }

  ghost predicate OnlyPolls(p: seq<Event>) { forall e <- p :: !e.ChatCheck? }

  /** What the fields hold after a history without chat checks. */
  ghost predicate Holds(l: Live, p: seq<Event>, i: int, id: string) {
    LongestStreak(p, i, id) && l == Live(Some(id), Some(p[i].observedAt), Some(p[|p| - 1].tick))
  }

  ghost predicate HoldsSome(l: Live, p: seq<Event>, id: string) { exists i :: Holds(l, p, i, id) }

  lemma {:induction false} ReplayHolds(p: seq<Event>)
    requires OnlyPolls(p)
    ensures Replay(p) == NotLive <==> p == [] || p[|p| - 1].NoLivePoll?
    ensures p != [] && p[|p| - 1].LivePoll? ==> HoldsSome(Replay(p), p, p[|p| - 1].id)
  {
    hide LongestStreak, Streak;
    if p != [] && p[|p| - 1].LivePoll? {
      var q, e := p[..|p| - 1], p[|p| - 1];
      ReplayHolds(q);
      if Continues(q, e) {
        var i :| Holds(Replay(q), q, i, e.id);
        HoldsGrows(Replay(q), q, e, i);
        assert q + [e] == p;
        assert Holds(Replay(p), p, i, e.id);
      } else {
        StreakIsShort(q, e);
        assert q + [e] == p;
        if q != [] && q[|q| - 1].LivePoll? {
          var last := q[|q| - 1];
          var i :| Holds(Replay(q), q, i, last.id);
        }
        assert Holds(Replay(p), p, |q|, e.id);
      }
    }
  }

  /** Live poll e carries on the streak that ends q. */
  predicate Continues(q: seq<Event>, e: Event)
    requires e.LivePoll?
  {
    q != [] && q[|q| - 1].LivePoll? && q[|q| - 1].id == e.id && WithinHold(e.tick, q[|q| - 1].tick)
  }

  lemma HoldsGrows(l: Live, q: seq<Event>, e: Event, i: int)
    requires e.LivePoll? && Continues(q, e) && Holds(l, q, i, e.id)
    ensures Holds(PollLive(l, e.id, e.observedAt, e.tick), q + [e], i, e.id)
  {
    StreakGrows(q, e, i);
    if i > 0 { StreakGrows(q, e, i - 1); }
    assert (q + [e])[i] == q[i];
  }

  lemma StreakGrows(q: seq<Event>, e: Event, i: int)
    requires e.LivePoll? && Continues(q, e) && 0 <= i < |q|
    ensures Streak(q + [e], i, e.id) <==> Streak(q, i, e.id)
  {
    var p := q + [e];
    assert forall k :: 0 <= k < |q| ==> p[k] == q[k];
    if Streak(p, i, e.id) {
      forall k | i <= k < |q| ensures q[k].LivePoll? && q[k].id == e.id { assert p[k].LivePoll?; }
      forall k | i < k < |q| ensures WithinHold(q[k].tick, q[k - 1].tick) { assert WithinHold(p[k].tick, p[k - 1].tick); }
    }
  }

  lemma StreakIsShort(q: seq<Event>, e: Event)
    requires e.LivePoll? && !Continues(q, e)
    ensures LongestStreak(q + [e], |q|, e.id)
  {
    var p := q + [e];
    assert p[|q|] == e;
    assert q != [] ==> p[|q| - 1] == q[|q| - 1];
  }

  /** The three fields answer as the full poll history does. */
  lemma FieldsAnswerHistory(p: seq<Event>, notificationAt: int, receivedAt: int, now: int, id: string)
    requires OnlyPolls(p)
    ensures Eligible(Expire(Replay(p), now), notificationAt, receivedAt) == Some(id)
            <==> Accepts(p, id, notificationAt, receivedAt, now)
  {
    ReplayHolds(p);
    if p != [] && p[|p| - 1].LivePoll? {
      var last := p[|p| - 1];
      var i :| Holds(Replay(p), p, i, last.id);
      HeldAnswer(Replay(p), p, i, last.id, notificationAt, receivedAt, now, id);
    } else {
      NoStreak(p, id);
    }
  }

  lemma NoStreak(p: seq<Event>, id: string)
    requires p == [] || p[|p| - 1].NoLivePoll?
    ensures forall i :: !Streak(p, i, id)
  {
  }

  lemma HeldAnswer(l: Live, p: seq<Event>, i: int, own: string, notificationAt: int, receivedAt: int, now: int, id: string)
    requires Holds(l, p, i, own)
    ensures Eligible(Expire(l, now), notificationAt, receivedAt) == Some(id)
            <==> Accepts(p, id, notificationAt, receivedAt, now)
  {
  }

  // ----- chat checks are unobservable -----

  /** Every check since the streak that is live at t began fell inside the hold of the poll
      before it. */
  predicate Undisturbed(h: seq<Event>, t: int)
    decreases |h|
  {
    if h == [] then true
    else
      var front, e := h[..|h| - 1], h[|h| - 1];
      match e
      case NoLivePoll => true
      case LivePoll(_, _, tick) => !WithinHold(t, tick) || !Continues(Polls(front), e) || Undisturbed(front, tick)
      case ChatCheck(tick) =>
        var l := Replay(Polls(front));
        Expire(l, t) == NotLive || (l.lastPollTick.Some? && WithinHold(tick, l.lastPollTick.value) && Undisturbed(front, t))
  }

  /** With or without its checks a history leaves the same stream and last tick, unless a check
      dropped them. */
  ghost predicate Within(r: Live, l: Live) {
    r == NotLive || (r.streamId.Some? && r.eligibleSince.Some? && r.lastPollTick.Some? && l.eligibleSince.Some?
                     && r.streamId == l.streamId && r.lastPollTick == l.lastPollTick)
  }

  ghost predicate Whole(l: Live) { l == NotLive || (l.streamId.Some? && l.eligibleSince.Some? && l.lastPollTick.Some?) }

  lemma {:induction false} ChecksOnlyDrop(h: seq<Event>)
    ensures Within(Replay(h), Replay(Polls(h))) && Whole(Replay(Polls(h)))
    decreases |h|
  {
    if h != [] {
      ChecksOnlyDrop(h[..|h| - 1]);
      PollsStep(h);
    }
  }

  /** Replaying the polls of h, one event at a time. */
  lemma PollsStep(h: seq<Event>)
    requires h != []
    ensures var front, e := h[..|h| - 1], h[|h| - 1];
            Replay(Polls(h)) == match e
                                case NoLivePoll => NotLive
                                case LivePoll(id, at, tick) => PollLive(Replay(Polls(front)), id, at, tick)
                                case ChatCheck(_) => Replay(Polls(front))
  {
    var front, e := h[..|h| - 1], h[|h| - 1];
    if !e.ChatCheck? { assert Polls(h)[..|Polls(h)| - 1] == Polls(front); }
  }

  /** A poll carries on what the polls before it left exactly when their replay is live then. */
  lemma ContinuesIsLive(p: seq<Event>, e: Event)
    requires OnlyPolls(p) && e.LivePoll?
    ensures Continues(p, e) <==> Expire(Replay(p), e.tick) != NotLive && Replay(p).streamId == Some(e.id)
  {
    hide LongestStreak;
    ReplayHolds(p);
    if p != [] && p[|p| - 1].LivePoll? {
      var i :| Holds(Replay(p), p, i, p[|p| - 1].id);
    }
  }

  lemma {:induction false} ChecksDoNotMatter(h: seq<Event>, now: int)
    requires Undisturbed(h, now)
    ensures Expire(Replay(h), now) == Expire(Replay(Polls(h)), now)
    decreases |h|
  {
    if h != [] {
      var front, e := h[..|h| - 1], h[|h| - 1];
      ChecksOnlyDrop(front);
      PollsOnly(front);
      PollsStep(h);
      match e {
        case NoLivePoll =>
        case LivePoll(id, at, tick) =>
          ContinuesIsLive(Polls(front), e);
          if Undisturbed(front, tick) { ChecksDoNotMatter(front, tick); }
        case ChatCheck(tick) =>
          if Undisturbed(front, now) { ChecksDoNotMatter(front, now); }
      }
    }
  }

  /** No two live polls of the history were observed at the same time. */
  predicate DistinctTimes(h: seq<Event>) {
    forall i, j :: 0 <= i < j < |h| && h[i].LivePoll? && h[j].LivePoll? ==> h[i].observedAt != h[j].observedAt
  }

  lemma {:induction false} SinceIsObserved(h: seq<Event>)
    ensures var l := Replay(Polls(h));
            l.eligibleSince.Some? ==> exists k :: 0 <= k < |h| && h[k].LivePoll? && h[k].observedAt == l.eligibleSince.value
    decreases |h|
  {
    if h != [] {
      var front := h[..|h| - 1];
      SinceIsObserved(front);
      PollsStep(h);
      var l := Replay(Polls(front));
      if l.eligibleSince.Some? {
        var k :| 0 <= k < |front| && front[k].LivePoll? && front[k].observedAt == l.eligibleSince.value;
        assert h[k] == front[k];
      }
      if h[|h| - 1].LivePoll? { assert h[|h| - 1].observedAt == h[|h| - 1].observedAt; }
    }
  }

  /** The polls are live at t, the fields are not, or hold a later start. */
  ghost predicate Forgotten(r: Live, l: Live, t: int) {
    Expire(l, t) != NotLive && (Expire(r, t) == NotLive || r.eligibleSince != l.eligibleSince)
  }

  lemma {:induction false} DisturbedForgets(h: seq<Event>, t: int)
    requires DistinctTimes(h) && !Undisturbed(h, t)
    ensures Forgotten(Replay(h), Replay(Polls(h)), t)
    decreases |h|
  {
    var front, e := h[..|h| - 1], h[|h| - 1];
    ChecksOnlyDrop(front);
    PollsOnly(front);
    PollsStep(h);
    match e {
      case NoLivePoll =>
      case LivePoll(id, at, tick) =>
        ContinuesIsLive(Polls(front), e);
        DisturbedForgets(front, tick);
        SinceIsObserved(front);
        var k :| 0 <= k < |front| && front[k].LivePoll? && front[k].observedAt == Replay(Polls(front)).eligibleSince.value;
        assert h[k] == front[k];
      case ChatCheck(tick) =>
        if !Undisturbed(front, t) { DisturbedForgets(front, t); }
    }
  }

  ghost predicate SameAnswers(r: Live, l: Live) {
    forall notificationAt, receivedAt :: Eligible(r, notificationAt, receivedAt) == Eligible(l, notificationAt, receivedAt)
  }

  /** The checks of a history are unobservable at t exactly when none of them disturbed the
      streak that is live then. */
  lemma ChecksUnobservableIff(h: seq<Event>, t: int)
    requires DistinctTimes(h)
    ensures SameAnswers(Expire(Replay(h), t), Expire(Replay(Polls(h)), t)) <==> Undisturbed(h, t)
  {
    if Undisturbed(h, t) {
      ChecksDoNotMatter(h, t);
    } else {
      DisturbedForgets(h, t);
      ChecksOnlyDrop(h);
      AnswersDiffer(Expire(Replay(h), t), Expire(Replay(Polls(h)), t));
    }
  }

  lemma AnswersDiffer(r: Live, l: Live)
    requires Whole(r) && Whole(l) && l != NotLive && (r == NotLive || r.eligibleSince != l.eligibleSince)
    ensures !SameAnswers(r, l)
  {
    var at := if r == NotLive || l.eligibleSince.value < r.eligibleSince.value then l.eligibleSince.value else r.eligibleSince.value;
    assert Eligible(r, at, at) != Eligible(l, at, at);
  }

  lemma {:induction false} PollsOnly(h: seq<Event>)
    ensures OnlyPolls(Polls(h))
  {
    if h != [] { PollsOnly(h[..|h| - 1]); }
  }

  /** Two histories with the same polls give every message the same answer, wherever their
      checks were made, as long as none disturbed the live streak. */
  lemma ChecksAreUnobservable(a: seq<Event>, b: seq<Event>, notificationAt: int, receivedAt: int, now: int)
    requires Polls(a) == Polls(b) && Undisturbed(a, now) && Undisturbed(b, now)
    ensures Eligible(Expire(Replay(a), now), notificationAt, receivedAt)
            == Eligible(Expire(Replay(b), now), notificationAt, receivedAt)
  {
    ChecksDoNotMatter(a, now);
    ChecksDoNotMatter(b, now);
  }

  /** Ticks that never decrease disturb nothing. */
  lemma {:induction false} OrderedIsUndisturbed(h: seq<Event>, now: int)
    requires TicksUpTo(h, now)
    ensures Undisturbed(h, now)
    ensures Replay(Polls(h)).lastPollTick.Some? ==>
              exists k :: 0 <= k < |h| && h[k].LivePoll? && h[k].tick == Replay(Polls(h)).lastPollTick.value
    decreases |h|
  {
    if h != [] {
      var front, e := h[..|h| - 1], h[|h| - 1];
      PollsStep(h);
      ChecksOnlyDrop(front);
      OrderedIsUndisturbed(front, now);
      var l := Replay(Polls(front));
      if l.lastPollTick.Some? {
        var k :| 0 <= k < |front| && front[k].LivePoll? && front[k].tick == l.lastPollTick.value;
        assert h[k] == front[k];
      }
      if e.LivePoll? {
        assert TicksUpTo(front, e.tick);
        OrderedIsUndisturbed(front, e.tick);
        assert h[|h| - 1].tick == e.tick;
      }
    }
  }

  // ----- one check -----

  predicate TicksFrom(later: seq<Event>, m: int) { forall e <- later :: e.NoLivePoll? || m <= e.tick }

  /** Whatever polls and checks follow at ticks from m on, every message gets the same answer. */
  ghost predicate SameFuture(r: Live, l: Live, m: int) {
    forall later, now :: TicksFrom(later, m) && m <= now ==> SameAnswers(Expire(ReplayFrom(r, later), now), Expire(ReplayFrom(l, later), now))
  }

  /** A check at tick is unobservable from m on exactly when it drops nothing, or nothing it
      drops is live at any tick from m on. */
  lemma CheckUnobservableIff(l: Live, tick: int, m: int)
    requires Whole(l)
    ensures SameFuture(Expire(l, tick), l, m) <==> l == NotLive || WithinHold(tick, l.lastPollTick.value) || l.lastPollTick.value + STALE <= m
  {
    if l != NotLive && !WithinHold(tick, l.lastPollTick.value) {
      var last := l.lastPollTick.value;
      if last + STALE <= m {
        forall later, now | TicksFrom(later, m) && m <= now
          ensures SameAnswers(Expire(ReplayFrom(NotLive, later), now), Expire(ReplayFrom(l, later), now))
        {
          ExpiredIsGone(l, later, m, now);
        }
      } else {
        var now := if m < last then last else m;
        AnswersDiffer(Expire(ReplayFrom(NotLive, []), now), Expire(ReplayFrom(l, []), now));
        assert TicksFrom([], m);
      }
    }
  }

  lemma {:induction false} ExpiredIsGone(l: Live, later: seq<Event>, m: int, now: int)
    requires Whole(l) && l != NotLive && l.lastPollTick.value + STALE <= m <= now && TicksFrom(later, m)
    ensures Expire(ReplayFrom(NotLive, later), now) == Expire(ReplayFrom(l, later), now)
    decreases |later|
  {
    if later != [] {
      var front, e := later[..|later| - 1], later[|later| - 1];
      assert e in later;
      assert TicksFrom(front, m);
      ExpiredIsGone(l, front, m, if e.NoLivePoll? then now else e.tick);
      ExpiredIsGone(l, front, m, now);
    }
  }

  /** With every later poll and question at ticks no earlier than the check's, that is: the
      check is not behind the last poll. */
  lemma CheckUnobservableFromItsTick(l: Live, tick: int)
    requires Whole(l) && l != NotLive
    ensures SameFuture(Expire(l, tick), l, tick) <==> l.lastPollTick.value <= tick
  {
    CheckUnobservableIff(l, tick, tick);
  }

  /** A check behind the last poll forgets a live stream that later messages would still have
      matched. */
  lemma BackwardCheckForgets()
    ensures var polls := [LivePoll("s", 0, Seconds(10))];
            var checked := polls + [ChatCheck(0)];
            && Polls(checked) == polls
            && Eligible(Expire(Replay(polls), Seconds(20)), 5, 6) == Some("s")
            && Eligible(Expire(Replay(checked), Seconds(20)), 5, 6) == None
  {
  }

  /** So does a check 90 s after the last poll, when the next poll is recorded later but was
      observed before those 90 s were over. */
  lemma LateRecordedPollIsForgotten()
    ensures var first, next := LivePoll("s", 0, 0), LivePoll("s", Seconds(89), Seconds(89));
            var checked := [first, ChatCheck(Seconds(90)), next];
            && Polls(checked) == [first, next]
            && Eligible(Expire(Replay([first, next]), Seconds(95)), 5, 6) == Some("s")
            && Eligible(Expire(Replay(checked), Seconds(95)), 5, 6) == None
  {
    hide Undisturbed;
    var first, next := LivePoll("s", 0, 0), LivePoll("s", Seconds(89), Seconds(89));
    var checked := [first, ChatCheck(Seconds(90)), next];
    assert checked[..2] == [first, ChatCheck(Seconds(90))] && checked[..2][..1] == [first] && [first][..0] == [];
    assert [first, next][..1] == [first];
    assert Polls([first]) == [first] && Polls(checked[..2]) == [first];
    assert ReplayFrom(NotLive, []) == NotLive;
    assert Replay([first]) == Live(Some("s"), Some(0), Some(0));
    assert Replay(checked[..2]) == NotLive;
    assert Replay([first, next]) == Live(Some("s"), Some(0), Some(Seconds(89)));
    assert Replay(checked) == Live(Some("s"), Some(Seconds(89)), Some(Seconds(89)));
    assert Polls(checked) == [first, next];
  }

  // ----- the class -----

  class LiveStatus {
    var streamId: Option<string>
    var eligibleSince: Option<int>
    var lastPollTick: Option<int>
    ghost var history: seq<Event>

    ghost function View(): Live
      reads this
    {
      Live(streamId, eligibleSince, lastPollTick)
    }

    ghost predicate Valid()
      reads this
    {
      View() == Replay(history)
    }

    constructor ()
      ensures Valid() && history == []
    {
      streamId, eligibleSince, lastPollTick := None, None, None;
      history := [];
    }

    /** Private: drop an eligibility whose last poll is too old (or in the future). */
    method ExpireAt(tick: int)
      modifies this`streamId, this`eligibleSince, this`lastPollTick
      ensures View() == Expire(old(View()), tick)
    {
      if lastPollTick.Some? {
        var age := tick - lastPollTick.value;
        if age < 0 || age >= STALE {
          streamId, eligibleSince, lastPollTick := None, None, None;
        }
      }
    }

    /** Returns false where the source raises ValueError for an empty stream ID. */
    method RecordLivePoll(id: string, observedAt: int, tick: int) returns (accepted: bool)
      requires Valid()
      modifies this
      ensures Valid()
      ensures accepted <==> id != ""
      ensures accepted ==> history == old(history) + [LivePoll(id, observedAt, tick)] && View() == PollLive(old(View()), id, observedAt, tick)
      ensures !accepted ==> history == old(history) && View() == old(View())
    {
      if id == "" { return false; }
      ExpireAt(tick);
      if streamId != Some(id) || eligibleSince == None {
        eligibleSince := Some(observedAt);
      }
      streamId := Some(id);
      lastPollTick := Some(tick);
      history := history + [LivePoll(id, observedAt, tick)];
      assert history[..|history| - 1] == old(history);
      accepted := true;
    }

    /** poll_failed and poll_offline. */
    method PollFailed()
      requires Valid()
      modifies this
      ensures Valid() && history == old(history) + [NoLivePoll] && View() == NotLive
    {
      streamId, eligibleSince, lastPollTick := None, None, None;
      history := history + [NoLivePoll];
    }

    /** The eligible stream of a message, decided exactly as the full poll history decides it
        unless an earlier check disturbed the streak that is live now. */
    method ChatStreamId(notificationAt: int, receivedAt: int, tick: int) returns (id: Option<string>)
      requires Valid()
      modifies this
      ensures Valid() && history == old(history) + [ChatCheck(tick)] && View() == Expire(old(View()), tick)
      ensures id == Eligible(Expire(Replay(old(history)), tick), notificationAt, receivedAt)
      ensures Undisturbed(old(history), tick) ==>
                forall s :: id == Some(s) <==> Accepts(Polls(old(history)), s, notificationAt, receivedAt, tick)
    {
      ExpireAt(tick);
      if eligibleSince == None {
        id := None;
      } else if eligibleSince.value <= notificationAt <= receivedAt {
        id := streamId;
      } else {
        id := None;
      }
      ghost var before := history;
      history := history + [ChatCheck(tick)];
      assert history[..|history| - 1] == before;
      if Undisturbed(before, tick) {
        ChecksDoNotMatter(before, tick);
        PollsOnly(before);
        forall s ensures id == Some(s) <==> Accepts(Polls(before), s, notificationAt, receivedAt, tick) {
          FieldsAnswerHistory(Polls(before), notificationAt, receivedAt, tick, s);
        }
      }
    }
  }
}
