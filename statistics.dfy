/** The hourly statistics task (go-backend/service/statistics_service.go): drop records older
    than 48 hours, then write one record per user holding the traffic since the user's
    previous record. The clock is a parameter (milliseconds and the "HH:mm" label), and so
    is the table's next auto-increment id. */
module Statistics {
  import opened Wrappers
  import opened Model

  const HourMillis: int := 60 * 60 * 1000

  /** The user's counter reading. */
  function CurrentFlow(u: User): int {
    u.inFlow + u.outFlow
  }

  /** The total of the user's newest record (`Order("id desc").First`), if any; the table is
      in ascending id order, so that is the user's last row. */
  function LastTotal(stats: seq<StatisticsFlow>, userId: int): (r: Option<int>)
    ensures r.None? <==> forall k :: 0 <= k < |stats| ==> stats[k].userId != userId
  {
    if |stats| == 0 then None
    else if stats[|stats| - 1].userId == userId then Some(stats[|stats| - 1].totalFlow)
    else LastTotal(stats[..|stats| - 1], userId)
  }

  /** The increment rule: the whole reading when there is no previous record, otherwise the
      growth since it, or the whole reading again when the counter went down (it was reset). */
  function Increment(current: int, last: Option<int>): int {
    match last
    case None => current
    case Some(total) => if current - total < 0 then current else current - total
  }

  /** An increment is never negative for a non-negative reading; it is the growth when the
      counter grew, and the reading itself after a reset or without a previous record. */
  lemma IncrementFacts(current: int, last: Option<int>)
    ensures current >= 0 ==> Increment(current, last) >= 0
    ensures last.Some? && current >= last.value ==> last.value + Increment(current, last) == current
    ensures last.Some? && current < last.value ==> Increment(current, last) == current
    ensures last.None? ==> Increment(current, last) == current
  {
  }

  /** The increments written for successive readings of one counter, starting with no record. */
  function Increments(readings: seq<int>): (r: seq<int>)
    ensures |r| == |readings|
  {
    if |readings| <= 1 then
      (if |readings| == 0 then [] else [Increment(readings[0], None)])
    else
      var n := |readings|;
      Increments(readings[..n - 1]) + [Increment(readings[n - 1], Some(readings[n - 2]))]
  }

  function Sum(s: seq<int>): int {
    if |s| == 0 then 0 else Sum(s[..|s| - 1]) + s[|s| - 1]
  }

  predicate NonDecreasing(s: seq<int>) {
    forall i, j :: 0 <= i < j < |s| ==> s[i] <= s[j]
  }

  /** While a counter only grows, the hourly increments add up to its latest reading: no
      traffic is counted twice and none is lost. */
  lemma {:induction false} IncrementsAddUp(readings: seq<int>)
    requires |readings| > 0 && NonDecreasing(readings)
    ensures Sum(Increments(readings)) == readings[|readings| - 1]
    decreases |readings|
  {
    if |readings| > 1 {
      var init := readings[..|readings| - 1];
      IncrementsAddUp(init);
      assert Increments(readings)[..|readings| - 1] == Increments(init);
    }
  }

  /** The records kept by the 48-hour cleanup. */
  function Kept(stats: seq<StatisticsFlow>, cutoff: int): (r: seq<StatisticsFlow>)
    ensures forall k :: 0 <= k < |r| ==> r[k] in stats && r[k].createdTime >= cutoff
    ensures forall f :: f in stats && f.createdTime >= cutoff ==> f in r
  {
    if |stats| == 0 then []
    else
      var earlier := Kept(stats[..|stats| - 1], cutoff);
      assert forall f :: f in stats ==> f in stats[..|stats| - 1] || f == stats[|stats| - 1];
      if stats[|stats| - 1].createdTime >= cutoff then earlier + [stats[|stats| - 1]] else earlier
  }

  /** The record written for the user at position `k`. */
  function NewRecord(users: seq<User>, k: nat, kept: seq<StatisticsFlow>, nextId: int, timeStr: string, nowMillis: int): StatisticsFlow
    requires k < |users|
  {
    var u := users[k];
    StatisticsFlow(nextId + k, u.id, Increment(CurrentFlow(u), LastTotal(kept, u.id)), CurrentFlow(u), timeStr, nowMillis)
  }

  /** `RunStatistics()`: the cleanup, then one new record per user, in user order. */
  method RunStatistics(db: Db, nowMillis: int, timeStr: string, nextId: int)
    modifies db
    ensures var kept := Kept(old(db.stats), nowMillis - 48 * HourMillis);
      |db.stats| == |kept| + |old(db.users)| && db.stats[..|kept|] == kept &&
      forall k :: 0 <= k < |old(db.users)| ==>
        db.stats[|kept| + k] == NewRecord(old(db.users), k, kept, nextId, timeStr, nowMillis)
    ensures db.users == old(db.users) && db.userTunnels == old(db.userTunnels) && db.forwards == old(db.forwards)
    ensures db.tunnels == old(db.tunnels) && db.nodes == old(db.nodes)
  {
    var cutoff := nowMillis - 48 * HourMillis;
    db.stats := Kept(db.stats, cutoff);
    var kept := db.stats;
    var users := db.users;
    var newStats: seq<StatisticsFlow> := [];
    var i := 0;
    while i < |users|
      invariant 0 <= i <= |users|
      invariant |newStats| == i
      invariant forall k :: 0 <= k < i ==> newStats[k] == NewRecord(users, k, kept, nextId, timeStr, nowMillis)
    {
      var user := users[i];
      var currentFlow := user.inFlow + user.outFlow;
      var last := LastTotal(kept, user.id);
      var incrementFlow: int;
      if last.None? {
        incrementFlow := currentFlow;
      } else {
        incrementFlow := currentFlow - last.value;
        if incrementFlow < 0 {
          incrementFlow := currentFlow;
        }
      }
      newStats := newStats + [StatisticsFlow(nextId + i, user.id, incrementFlow, currentFlow, timeStr, nowMillis)];
      i := i + 1;
    }
    if |newStats| > 0 {
      db.stats := db.stats + newStats;
    }
  }

  /** Each new record carries the user's reading as its total, so the next run measures
      from it: a second run with no new traffic writes increments of 0. */
  lemma NextRunMeasuresFromTotal(stats: seq<StatisticsFlow>, r: StatisticsFlow, u: User)
    requires r.userId == u.id && r.totalFlow == CurrentFlow(u)
    ensures LastTotal(stats + [r], u.id) == Some(CurrentFlow(u))
    ensures Increment(CurrentFlow(u), LastTotal(stats + [r], u.id)) == 0
  {
  }
}
