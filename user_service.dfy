/** Parts of the user service (go-backend/service/user_service.go): the 24-slot hourly
    traffic history, hour parsing, the traffic reset of a user or user-tunnel, the
    default-credential check and the guards that protect the administrator. */
module UserService {
  import opened Wrappers
  import opened Strs
  import opened Model

  // ---------------------------------------------------------------- hour parsing

  /** `parseHour(timeStr)`: the integer before the first ':', or the current hour when the
      text is shorter than two characters or that integer does not parse. */
  function ParseHour(timeStr: string, nowHour: int): int {
    if |timeStr| < 2 then nowHour
    else
      var parts := Split(timeStr, ':');
      if |parts| == 0 then nowHour
      else Atoi(parts[0]).GetOr(nowHour)
  }

  /** `now.Format("15:04")`: the "HH:mm" label the statistics task writes. */
  function TimeLabel(hour: nat, minute: nat): string {
    Pad2(hour) + ":" + Pad2(minute)
  }

  lemma Pad2Atoi(h: nat)
    requires h < 100
    ensures Atoi(Pad2(h)) == Some(h)
  {
    var s := Pad2(h);
    Pad2Value(h);
    assert |s| == 2;
    assert s[0] != '-' && s[0] != '+' by { assert IsDigit(s[0]); }
  }

  /** Reading back an "HH:mm" label gives its hour, whatever the current hour. */
  lemma ParseHourReadsLabel(hour: nat, minute: nat, nowHour: int)
    requires hour < 24 && minute < 60
    ensures ParseHour(TimeLabel(hour, minute), nowHour) == hour
  {
    var h := Pad2(hour);
    DigitsHoldNo(h, ':');
    SplitCons(h, ':', Pad2(minute));
    assert TimeLabel(hour, minute) == h + [':'] + Pad2(minute);
    Pad2Atoi(hour);
  }

  /** Text too short to hold an hour, or whose first field is not an integer, gives the
      current hour. */
  lemma ParseHourFallsBack(timeStr: string, nowHour: int)
    requires |timeStr| < 2 || Atoi(Split(timeStr, ':')[0]).None?
    ensures ParseHour(timeStr, nowHour) == nowHour
  {
  }

  // ---------------------------------------------------------------- 24-slot history

  /** One history entry; padding entries have no id and no creation time. */
  datatype FlowEntry = FlowEntry(id: Option<int>, userId: int, flow: int, totalFlow: int, time: string, createdTime: Option<int>)

  function Reversed<T>(s: seq<T>): (r: seq<T>)
    ensures |r| == |s|
    ensures forall k :: 0 <= k < |s| ==> r[k] == s[|s| - 1 - k]
  {
    if |s| == 0 then [] else [s[|s| - 1]] + Reversed(s[..|s| - 1])
  }

  /** The user's records in table (ascending id) order. */
  function UserRecords(stats: seq<StatisticsFlow>, userId: int): (r: seq<StatisticsFlow>)
    ensures forall k :: 0 <= k < |r| ==> r[k].userId == userId && r[k] in stats
  {
    if |stats| == 0 then []
    else
      var earlier := UserRecords(stats[..|stats| - 1], userId);
      if stats[|stats| - 1].userId == userId then earlier + [stats[|stats| - 1]] else earlier
  }

  /** The user's last (at most) 24 records, oldest first. */
  function Recent(stats: seq<StatisticsFlow>, userId: int): (r: seq<StatisticsFlow>)
    ensures |r| <= 24
  {
    var rs := UserRecords(stats, userId);
    if |rs| <= 24 then rs else rs[|rs| - 24..]
  }

  /** `Where("user_id = ?").Order("id desc").Limit(24)`: the same records, newest first. */
  function NewestFirst(stats: seq<StatisticsFlow>, userId: int): seq<StatisticsFlow> {
    Reversed(Recent(stats, userId))
  }

  /** The entry for a stored record. */
  function RecordEntry(f: StatisticsFlow): FlowEntry {
    FlowEntry(Some(f.id), f.userId, f.flow, f.totalFlow, f.time, Some(f.createdTime))
  }

  /** A padding entry for hour `h`: `fmt.Sprintf("%02d:00", h)`. */
  function PadEntry(userId: int, h: nat): FlowEntry {
    FlowEntry(None, userId, 0, 0, Pad2(h) + ":00", None)
  }

  /** The padding loop's hour variable after `a` steps: each step replaces a negative value
      by 23, uses it, and decrements it. */
  function PadState(start: int, a: nat): int {
    if a == 0 then start else Wrap(PadState(start, a - 1)) - 1
  }

  function Wrap(h: int): nat {
    if h < 0 then 23 else h
  }

  /** The hour of the `a`-th padding entry. */
  function PadHour(start: int, a: nat): nat {
    Wrap(PadState(start, a))
  }

  /** Where padding starts: one hour before the newest record's hour, or the current hour
      when there is no record. */
  function PadStart(recent: seq<StatisticsFlow>, nowHour: int): int {
    if |recent| > 0 then ParseHour(recent[|recent| - 1].time, nowHour) - 1 else nowHour
  }

  /** The two-index swap loop that turns the newest-first list into chronological order. */
  method ReverseInPlace(a: array<StatisticsFlow>)
    modifies a
    ensures a[..] == Reversed(old(a[..]))
  {
    var i, j := 0, a.Length - 1;
    while i < j
      invariant 0 <= i <= j + 1 <= a.Length
      invariant i + j == a.Length - 1
      invariant forall k :: 0 <= k < i ==> a[k] == old(a[a.Length - 1 - k])
      invariant forall k :: j < k < a.Length ==> a[k] == old(a[a.Length - 1 - k])
      invariant forall k :: i <= k <= j ==> a[k] == old(a[k])
    {
      a[i], a[j] := a[j], a[i];
      i, j := i + 1, j - 1;
    }
  }

  /** The query result, newest first, put back into chronological order in an array. */
  method ChronologicalRecords(stats: seq<StatisticsFlow>, userId: int) returns (recent: seq<StatisticsFlow>)
    ensures recent == Recent(stats, userId)
  {
    var newest := NewestFirst(stats, userId);
    var flows := new StatisticsFlow[|newest|](i requires 0 <= i < |newest| => newest[i]);
    assert flows[..] == newest;
    ReverseInPlace(flows);
    recent := flows[..];
    assert recent == Recent(stats, userId) by {
      ReversedTwice(Recent(stats, userId));
    }
  }

  lemma ReversedTwice<T>(s: seq<T>)
    ensures Reversed(Reversed(s)) == s
  {
  }

  /** The padding loop: append entries for hours counting down from `start` until there are
      24 entries. */
  method PadHistory(prefix: seq<FlowEntry>, userId: int, start: int) returns (entries: seq<FlowEntry>)
    requires |prefix| <= 24
    ensures |entries| == 24
    ensures entries[..|prefix|] == prefix
    ensures forall a: nat :: |prefix| + a < 24 ==> entries[|prefix| + a] == PadEntry(userId, PadHour(start, a))
  {
    entries := prefix;
    var startHour := start;
    var n := |prefix|;
    while |entries| < 24
      invariant n <= |entries| <= 24
      invariant entries[..n] == prefix
      invariant startHour == PadState(start, |entries| - n)
      invariant forall a: nat :: n + a < |entries| ==> entries[n + a] == PadEntry(userId, PadHour(start, a))
      decreases 24 - |entries|
    {
      if startHour < 0 {
        startHour := 23;
      }
      entries := entries + [PadEntry(userId, startHour)];
      startHour := startHour - 1;
    }
  }

  /** `getLast24HoursFlowStatistics(userId)` at the current hour `nowHour`: the user's last
      records (at most 24) oldest first, then padding entries counting down from the hour
      before the newest record (or from the current hour) to fill 24 slots. */
  method Last24HoursFlowStatistics(stats: seq<StatisticsFlow>, userId: int, nowHour: int)
    returns (entries: seq<FlowEntry>)
    ensures |entries| == 24
    ensures var recent := Recent(stats, userId);
      forall k :: 0 <= k < |recent| ==> entries[k] == RecordEntry(recent[k])
    ensures var recent := Recent(stats, userId);
      forall a: nat :: |recent| + a < 24 ==>
        entries[|recent| + a] == PadEntry(userId, PadHour(PadStart(recent, nowHour), a))
  {
    var flows := ChronologicalRecords(stats, userId);
    entries := [];
    var i := 0;
    while i < |flows|
      invariant 0 <= i <= |flows|
      invariant |entries| == i
      invariant forall k :: 0 <= k < i ==> entries[k] == RecordEntry(flows[k])
    {
      entries := entries + [RecordEntry(flows[i])];
      i := i + 1;
    }
    if |entries| >= 24 {
      return;
    }
    var startHour := if |flows| > 0 then ParseHour(flows[|flows| - 1].time, nowHour) - 1 else nowHour;
    var prefix := entries;
    entries := PadHistory(prefix, userId, startHour);
    assert forall k :: 0 <= k < |prefix| ==> entries[k] == entries[..|prefix|][k];
  }

  /** The padding hours count down modulo 24: from any start in -1..23 the `a`-th padding
      hour is start − a wrapped into 0..23, so after 0 comes 23. */
  lemma {:induction false} PadHourCountsDown(start: int, a: nat)
    requires -1 <= start <= 23
    ensures PadHour(start, a) == (start - a) % 24
    ensures -1 <= PadState(start, a) <= 23
    ensures (start - a) % 24 == PadState(start, a) % 24
  {
    if a > 0 {
      PadHourCountsDown(start, a - 1);
    }
  }

  /** With fewer than 24 records, the padding starts just before the newest record's hour
      and the next entry is one hour earlier (23 after 0). */
  lemma PadHourSteps(start: int, a: nat)
    requires -1 <= start <= 23
    ensures PadHour(start, 0) == Wrap(start)
    ensures PadHour(start, a + 1) == if PadHour(start, a) == 0 then 23 else PadHour(start, a) - 1
  {
    PadHourCountsDown(start, a);
    PadHourCountsDown(start, a + 1);
  }

  // ---------------------------------------------------------------- reset

  function ZeroUserFlow(users: seq<User>, id: int): (r: seq<User>)
    ensures |r| == |users|
  {
    seq(|users|, k requires 0 <= k < |users| => if users[k].id == id then users[k].(inFlow := 0, outFlow := 0) else users[k])
  }

  function ZeroUserTunnelFlow(uts: seq<UserTunnel>, id: int): (r: seq<UserTunnel>)
    ensures |r| == |uts|
  {
    seq(|uts|, k requires 0 <= k < |uts| => if uts[k].id == id then uts[k].(inFlow := 0, outFlow := 0) else uts[k])
  }

  /** `ResetFlow(req)`: type 1 zeroes the user's counters, any other type the user-tunnel's. */
  method ResetFlow(db: Db, kind: int, id: int) returns (r: Result<string, string>)
    modifies db
    ensures kind == 1 && FindUser(old(db.users), id).None? ==>
      r == Failure("用户不存在") && db.users == old(db.users)
    ensures kind == 1 && FindUser(old(db.users), id).Some? ==>
      r == Success("账号流量已重置") && db.users == ZeroUserFlow(old(db.users), id)
    ensures kind != 1 && FindUserTunnelById(old(db.userTunnels), id).None? ==>
      r == Failure("隧道不存在") && db.userTunnels == old(db.userTunnels)
    ensures kind != 1 && FindUserTunnelById(old(db.userTunnels), id).Some? ==>
      r == Success("隧道流量已重置") && db.userTunnels == ZeroUserTunnelFlow(old(db.userTunnels), id)
    ensures kind == 1 ==> db.userTunnels == old(db.userTunnels)
    ensures kind != 1 ==> db.users == old(db.users)
    ensures db.tunnels == old(db.tunnels) && db.nodes == old(db.nodes) && db.forwards == old(db.forwards) && db.stats == old(db.stats)
  {
    if kind == 1 {
      if FindUser(db.users, id).None? {
        return Failure("用户不存在");
      }
      db.users := ZeroUserFlow(db.users, id);
      return Success("账号流量已重置");
    }
    if FindUserTunnelById(db.userTunnels, id).None? {
      return Failure("隧道不存在");
    }
    db.userTunnels := ZeroUserTunnelFlow(db.userTunnels, id);
    return Success("隧道流量已重置");
  }

  /** A reset zeroes exactly the two counters of the addressed row: every other field of
      that row, and every other row, stays as it was. */
  lemma ZeroUserFlowOnlyCounters(users: seq<User>, id: int, k: nat)
    requires k < |users|
    ensures users[k].id == id ==>
      ZeroUserFlow(users, id)[k].inFlow == 0 && ZeroUserFlow(users, id)[k].outFlow == 0 &&
      ZeroUserFlow(users, id)[k].(inFlow := users[k].inFlow, outFlow := users[k].outFlow) == users[k]
    ensures users[k].id != id ==> ZeroUserFlow(users, id)[k] == users[k]
    ensures FindUser(ZeroUserFlow(users, id), id).Some? <==> FindUser(users, id).Some?
  {
    if FindUser(users, id).Some? {
      var j :| 0 <= j < |users| && users[j].id == id;
      assert ZeroUserFlow(users, id)[j].id == id;
    } else {
      assert forall j :: 0 <= j < |users| ==> ZeroUserFlow(users, id)[j].id == users[j].id;
    }
  }

  /** Resetting twice is resetting once. */
  lemma ZeroUserFlowIdempotent(users: seq<User>, id: int)
    ensures ZeroUserFlow(ZeroUserFlow(users, id), id) == ZeroUserFlow(users, id)
  {
  }

  // ---------------------------------------------------------------- credentials and guards

  /** `isDefaultCredentials`: the login that must change its password. */
  predicate IsDefaultCredentials(username: string, password: string) {
    username == "admin_user" && password == "admin_user"
  }

  /** The changes `UpdateUser` applies; `pwdDigest` is the stored digest of a non-empty new
      password (the digest function is not part of this model). */
  datatype UserUpdate = UserUpdate(
    id: int, name: string, pwdDigest: Option<string>, status: Option<int>,
    flow: int, num: int, expTime: int, flowResetTime: int)

  /** The row an update writes. */
  function Updated(u: User, d: UserUpdate): User {
    u.(name := d.name,
       pwd := d.pwdDigest.GetOr(u.pwd),
       status := d.status.GetOr(u.status),
       flow := d.flow, num := d.num, expTime := d.expTime, flowResetTime := d.flowResetTime)
  }

  predicate NameTakenByOther(users: seq<User>, name: string, id: int) {
    exists k :: 0 <= k < |users| && users[k].name == name && users[k].id != id
  }

  /** The checks of `UpdateUser`, in order: the row exists, is not the administrator, and the
      new name is not used by another row. */
  function UpdateUserCheck(users: seq<User>, d: UserUpdate): Result<User, string> {
    match FindUser(users, d.id)
    case None => Failure("用户不存在")
    case Some(u) =>
      if u.roleId == 0 then Failure("不能修改管理员")
      else if NameTakenByOther(users, d.name, d.id) then Failure("用户名已被使用")
      else Success(u)
  }

  /** The table after an update: the addressed row rewritten, the others as they were. */
  function UpdateRows(users: seq<User>, d: UserUpdate): (r: seq<User>)
    ensures |r| == |users|
  {
    seq(|users|, k requires 0 <= k < |users| => if users[k].id == d.id then Updated(users[k], d) else users[k])
  }

  /** `UpdateUser(dto)`. */
  method UpdateUser(db: Db, d: UserUpdate) returns (r: Result<string, string>)
    modifies db
    ensures UpdateUserCheck(old(db.users), d).Failure? ==>
      r == Failure(UpdateUserCheck(old(db.users), d).error) && db.users == old(db.users)
    ensures UpdateUserCheck(old(db.users), d).Success? ==>
      r == Success("更新成功") && db.users == UpdateRows(old(db.users), d)
    ensures db.userTunnels == old(db.userTunnels) && db.tunnels == old(db.tunnels) && db.forwards == old(db.forwards)
    ensures db.nodes == old(db.nodes) && db.stats == old(db.stats)
  {
    var check := UpdateUserCheck(db.users, d);
    if check.Failure? {
      return Failure(check.error);
    }
    db.users := UpdateRows(db.users, d);
    return Success("更新成功");
  }

  /** The checks of `DeleteUser`: the row exists and is not the administrator. */
  function DeleteUserCheck(users: seq<User>, id: int): Result<User, string> {
    match FindUser(users, id)
    case None => Failure("用户不存在")
    case Some(u) => if u.roleId == 0 then Failure("不能删除管理员") else Success(u)
  }

  /** The administrator can be neither modified nor deleted, and a check that passes names
      the row it found, which is not the administrator. */
  lemma AdminIsProtected(users: seq<User>, d: UserUpdate, id: int)
    ensures FindUser(users, d.id).Some? && FindUser(users, d.id).value.roleId == 0 ==>
      UpdateUserCheck(users, d) == Failure("不能修改管理员")
    ensures FindUser(users, id).Some? && FindUser(users, id).value.roleId == 0 ==>
      DeleteUserCheck(users, id) == Failure("不能删除管理员")
    ensures UpdateUserCheck(users, d).Success? ==>
      UpdateUserCheck(users, d).value.roleId != 0 && UpdateUserCheck(users, d).value.id == d.id &&
      !NameTakenByOther(users, d.name, d.id)
    ensures DeleteUserCheck(users, id).Success? ==>
      DeleteUserCheck(users, id).value.roleId != 0 && DeleteUserCheck(users, id).value in users
  {
  }

  /** Only the one built-in login counts as default credentials. */
  lemma DefaultCredentialsOnlyBuiltIn(username: string, password: string)
    ensures IsDefaultCredentials(username, password) ==> username == password
    ensures username != "admin_user" ==> !IsDefaultCredentials(username, password)
    ensures IsDefaultCredentials("admin_user", "admin_user")
  {
  }
}
