/** Vocabulary shared by the collector and the analytics views. */
module Common {

  datatype Option<+T> = None | Some(value: T)

  /** The sources a health row can name (sql/007, sql/012). */
  datatype Source = Chat | Raids | Follows | StreamPoll | ChatterPresence

  /** The statuses a health row can carry (sql/007, sql/008). */
  datatype Status = Starting | Healthy | Paused | Errored | Stopped

  /** One reading of the two clocks, both in integer microseconds. */
  datatype Reading = Reading(utc: int, tick: int)

  function Seconds(n: int): int { n * 1_000_000 }

  /** age(): the larger of the two elapsed times (scripts/collect_stream.py:74-75). */
  function Age(now: Reading, earlier: Reading): int {
    if now.tick - earlier.tick >= now.utc - earlier.utc then now.tick - earlier.tick
    else now.utc - earlier.utc
  }

  lemma Member<T>(s: set<T>) returns (x: T)
    requires s != {}
    ensures x in s
  {
    x :| x in s;
  }

  lemma OnlyMember<T>(s: set<T>, x: T)
    requires |s| == 1 && x in s
    ensures s == {x}
  {
    assert s == {x} + (s - {x});
  }
}
