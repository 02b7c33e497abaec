/** The daily sweep (go-backend/service/task_service.go): reset traffic counters on each
    row's reset day, and pause the forwards of expired accounts and expired tunnel
    permissions. The calendar is a parameter (today's day of the month and the month's last
    day), as is the clock in milliseconds; the agents are the `Agent` oracle. */
module TaskService {
  import opened Wrappers
  import opened Model
  import opened Seqs
  import opened GostUtil

  // ---------------------------------------------------------------- flow reset

  /** The reset-day rule for a row with reset day `resetDay`. */
  predicate ShouldReset(resetDay: int, today: int, lastDay: int) {
    resetDay == today || (today == lastDay && resetDay > lastDay)
  }

  /** A row is reset exactly once a month: on its reset day, or on the month's last day when
      the month is too short for it. A row without a reset day is never picked. */
  lemma ResetOncePerMonth(resetDay: int, today: int, lastDay: int)
    requires 1 <= today <= lastDay && resetDay >= 1
    ensures ShouldReset(resetDay, today, lastDay) <==> today == (if resetDay < lastDay then resetDay else lastDay)
  {
  }

  /** A user row after the reset: only the counters change. */
  function ResetUser(u: User, today: int, lastDay: int): (r: User)
    ensures r.inFlow == (if u.flowResetTime != 0 && ShouldReset(u.flowResetTime, today, lastDay) then 0 else u.inFlow)
    ensures r.outFlow == (if u.flowResetTime != 0 && ShouldReset(u.flowResetTime, today, lastDay) then 0 else u.outFlow)
    ensures r.(inFlow := u.inFlow, outFlow := u.outFlow) == u
  {
    if u.flowResetTime != 0 && ShouldReset(u.flowResetTime, today, lastDay) then u.(inFlow := 0, outFlow := 0) else u
  }

  function ResetUserTunnel(ut: UserTunnel, today: int, lastDay: int): (r: UserTunnel)
    ensures r.inFlow == (if ut.flowResetTime != 0 && ShouldReset(ut.flowResetTime, today, lastDay) then 0 else ut.inFlow)
    ensures r.outFlow == (if ut.flowResetTime != 0 && ShouldReset(ut.flowResetTime, today, lastDay) then 0 else ut.outFlow)
    ensures r.(inFlow := ut.inFlow, outFlow := ut.outFlow) == ut
  {
    if ut.flowResetTime != 0 && ShouldReset(ut.flowResetTime, today, lastDay) then ut.(inFlow := 0, outFlow := 0) else ut
  }

  /** `ResetFlow()`: both loops over the rows with a reset day. */
  method ResetFlow(db: Db, today: int, lastDay: int)
    modifies db
    ensures |db.users| == |old(db.users)| && |db.userTunnels| == |old(db.userTunnels)|
    ensures forall i :: 0 <= i < |db.users| ==> db.users[i] == ResetUser(old(db.users)[i], today, lastDay)
    ensures forall i :: 0 <= i < |db.userTunnels| ==> db.userTunnels[i] == ResetUserTunnel(old(db.userTunnels)[i], today, lastDay)
    ensures db.tunnels == old(db.tunnels) && db.nodes == old(db.nodes) && db.forwards == old(db.forwards) && db.stats == old(db.stats)
  {
    var i := 0;
    while i < |db.users|
      invariant 0 <= i <= |db.users| == |old(db.users)|
      invariant forall k :: 0 <= k < i ==> db.users[k] == ResetUser(old(db.users)[k], today, lastDay)
      invariant forall k :: i <= k < |db.users| ==> db.users[k] == old(db.users)[k]
      invariant db.userTunnels == old(db.userTunnels)
      invariant db.tunnels == old(db.tunnels) && db.nodes == old(db.nodes) && db.forwards == old(db.forwards) && db.stats == old(db.stats)
    {
      var user := db.users[i];
      if user.flowResetTime != 0 {
        var shouldReset := user.flowResetTime == today;
        if today == lastDay && user.flowResetTime > lastDay {
          shouldReset := true;
        }
        if shouldReset {
          db.users := db.users[i := user.(inFlow := 0, outFlow := 0)];
        }
      }
      i := i + 1;
    }
    var j := 0;
    while j < |db.userTunnels|
      invariant 0 <= j <= |db.userTunnels| == |old(db.userTunnels)|
      invariant forall k :: 0 <= k < j ==> db.userTunnels[k] == ResetUserTunnel(old(db.userTunnels)[k], today, lastDay)
      invariant forall k :: j <= k < |db.userTunnels| ==> db.userTunnels[k] == old(db.userTunnels)[k]
      invariant |db.users| == |old(db.users)|
      invariant forall k :: 0 <= k < |db.users| ==> db.users[k] == ResetUser(old(db.users)[k], today, lastDay)
      invariant db.tunnels == old(db.tunnels) && db.nodes == old(db.nodes) && db.forwards == old(db.forwards) && db.stats == old(db.stats)
    {
      var ut := db.userTunnels[j];
      if ut.flowResetTime != 0 {
        var shouldReset := ut.flowResetTime == today;
        if today == lastDay && ut.flowResetTime > lastDay {
          shouldReset := true;
        }
        if shouldReset {
          db.userTunnels := db.userTunnels[j := ut.(inFlow := 0, outFlow := 0)];
        }
      }
      j := j + 1;
    }
  }

  /** Resetting twice on the same day is the same as resetting once. */
  lemma ResetIdempotent(u: User, ut: UserTunnel, today: int, lastDay: int)
    ensures ResetUser(ResetUser(u, today, lastDay), today, lastDay) == ResetUser(u, today, lastDay)
    ensures ResetUserTunnel(ResetUserTunnel(ut, today, lastDay), today, lastDay) == ResetUserTunnel(ut, today, lastDay)
  {
  }

  // ---------------------------------------------------------------- expiry

  /** Which expiry selection a sweep applies: `exp_time < now` as written, under which an
      expiry of 0 ("never") is below any positive clock; or the corrected one, in which an
      expiry of 0 means "never" as in the forward service and the traffic checks. */
  datatype Selection = AsWritten | Corrected

  /** `role_id != 0 AND status = 1 AND exp_time < now`, and `exp_time > 0` when corrected. */
  predicate UserExpired(sel: Selection, u: User, now: int) {
    u.roleId != 0 && u.status == 1 && u.expTime < now && (sel.Corrected? ==> u.expTime > 0)
  }

  /** `status = 1 AND exp_time < now`, and `exp_time > 0` when corrected. */
  predicate UserTunnelExpired(sel: Selection, ut: UserTunnel, now: int) {
    ut.status == 1 && ut.expTime < now && (sel.Corrected? ==> ut.expTime > 0)
  }

  /** As written, the sweep disables every active regular account and every active
      permission that never expires, which the rest of the backend treats as unexpired. */
  lemma PermanentAccountSwept(u: User, ut: UserTunnel, now: int)
    requires now > 0
    ensures u.roleId != 0 && u.status == 1 && u.expTime == 0 ==>
      UserExpired(AsWritten, u, now) && Disabled(AsWritten, u, now).status == 0
    ensures ut.status == 1 && ut.expTime == 0 ==>
      UserTunnelExpired(AsWritten, ut, now) && DisabledPermission(AsWritten, ut, now).status == 0
  {
  }

  /** Corrected, an account or permission that never expires is left alone, and so is a
      forward whose owner and permission never expire; wherever an expiry is set the two
      selections agree. */
  lemma CorrectedKeepsPermanent(u: User, ut: UserTunnel, f: Forward, users: seq<User>, uts: seq<UserTunnel>, now: int)
    ensures u.expTime == 0 ==> Disabled(Corrected, u, now) == u
    ensures ut.expTime == 0 ==> DisabledPermission(Corrected, ut, now) == ut
    ensures u.expTime > 0 ==> (UserExpired(Corrected, u, now) <==> UserExpired(AsWritten, u, now))
    ensures ut.expTime > 0 ==> (UserTunnelExpired(Corrected, ut, now) <==> UserTunnelExpired(AsWritten, ut, now))
    ensures (forall k :: 0 <= k < |users| && users[k].id == f.userId ==> users[k].expTime == 0) &&
      (forall k :: 0 <= k < |uts| && uts[k].userId == f.userId && uts[k].tunnelId == f.tunnelId ==> uts[k].expTime == 0)
      ==> Swept(Corrected, f, users, uts, now) == f
  {
  }

  /** The commands `pauseForward` sends: nothing when the tunnel or the user's permission on
      it is missing; otherwise a pause of the entry service, and of the exit service for a
      tunnel forward with an exit node. */
  function PauseCalls(tunnels: seq<Tunnel>, uts: seq<UserTunnel>, f: Forward): seq<Call> {
    match FindTunnel(tunnels, f.tunnelId)
    case None => []
    case Some(t) =>
      match FindUserTunnel(uts, f.userId, f.tunnelId)
      case None => []
      case Some(ut) =>
        var name := ServiceName(f.id, f.userId, ut.id);
        [Call(t.inNodeId, PauseServiceCmd(name))] +
        (if t.kind == 2 && t.outNodeId != 0 then [Call(t.outNodeId, PauseRemoteServiceCmd(name))] else [])
  }

  /** Only pause commands. */
  predicate AllPauses(calls: seq<Call>) {
    forall k :: 0 <= k < |calls| ==> calls[k].cmd.kind == "PauseService"
  }

  /** `pauseForward(forward)` over the tunnel and permission tables: replies are ignored. */
  method PauseForward(agent: Agent, tunnels: seq<Tunnel>, uts: seq<UserTunnel>, f: Forward)
    requires agent.Valid()
    modifies agent
    ensures agent.Valid()
    ensures agent.calls == old(agent.calls) + PauseCalls(tunnels, uts, f)
  {
    var tunnel := FindTunnel(tunnels, f.tunnelId);
    if tunnel.None? {
      return;
    }
    var ut := FindUserTunnel(uts, f.userId, f.tunnelId);
    if ut.None? {
      return;
    }
    var name := ServiceName(f.id, f.userId, ut.value.id);
    var t := tunnel.value;
    var _ := agent.Send(t.inNodeId, PauseServiceCmd(name));
    if t.kind == 2 && t.outNodeId != 0 {
      var _ := agent.Send(t.outNodeId, PauseRemoteServiceCmd(name));
    }
  }

  /** The pause commands of a forward are pauses, and target exactly the artifacts the
      forward's service commands create. */
  lemma PauseCallsArePauses(tunnels: seq<Tunnel>, uts: seq<UserTunnel>, f: Forward)
    ensures AllPauses(PauseCalls(tunnels, uts, f))
    ensures |PauseCalls(tunnels, uts, f)| <= 2
    ensures PauseCalls(tunnels, uts, f) != [] <==>
      FindTunnel(tunnels, f.tunnelId).Some? && FindUserTunnel(uts, f.userId, f.tunnelId).Some?
  {
  }

  /** Permission tables that differ at most in their status columns. */
  predicate SameKeys(a: seq<UserTunnel>, b: seq<UserTunnel>) {
    |a| == |b| &&
    forall k :: 0 <= k < |a| ==> a[k].id == b[k].id && a[k].userId == b[k].userId && a[k].tunnelId == b[k].tunnelId
  }

  /** The permission lookup does not read the status column. */
  lemma {:induction false} FindIgnoresStatus(a: seq<UserTunnel>, b: seq<UserTunnel>, userId: int, tunnelId: int)
    requires SameKeys(a, b)
    ensures FindUserTunnel(a, userId, tunnelId).Some? == FindUserTunnel(b, userId, tunnelId).Some?
    ensures FindUserTunnel(a, userId, tunnelId).Some? ==>
      FindUserTunnel(a, userId, tunnelId).value.id == FindUserTunnel(b, userId, tunnelId).value.id
    decreases |a|
  {
    if |a| > 0 && !(a[0].userId == userId && a[0].tunnelId == tunnelId) {
      assert SameKeys(a[1..], b[1..]) by {
        forall k | 0 <= k < |a| - 1
          ensures a[1..][k].id == b[1..][k].id && a[1..][k].userId == b[1..][k].userId && a[1..][k].tunnelId == b[1..][k].tunnelId
        {
          assert a[1..][k] == a[k + 1] && b[1..][k] == b[k + 1];
        }
      }
      FindIgnoresStatus(a[1..], b[1..], userId, tunnelId);
    }
  }

  /** Nor do a forward's pause commands read the forward's status or the permissions'. */
  lemma PauseCallsIgnoreStatus(tunnels: seq<Tunnel>, a: seq<UserTunnel>, b: seq<UserTunnel>, f: Forward, g: Forward)
    requires SameKeys(a, b) && g.id == f.id && g.userId == f.userId && g.tunnelId == f.tunnelId
    ensures PauseCalls(tunnels, a, g) == PauseCalls(tunnels, b, f)
  {
    FindIgnoresStatus(a, b, f.userId, f.tunnelId);
  }

  /** One query of the sweep's inner loops: the forwards of account `userId`, on tunnel
      `tunnelId` when one is given. */
  datatype Pick = Pick(userId: int, tunnelId: Option<int>)

  predicate Selects(p: Pick, f: Forward) {
    f.userId == p.userId && (p.tunnelId.None? || f.tunnelId == p.tunnelId.value)
  }

  /** `Where("[tunnel_id = ? AND] user_id = ? AND status = 1")`: the active forwards selected. */
  predicate Picked(f: Forward, p: Pick) {
    Selects(p, f) && f.status == 1
  }

  function Paused(f: Forward): Forward { f.(status := 0) }

  /** The forwards table after one inner loop: every picked row saved paused. */
  function PausedWhere(fs: seq<Forward>, p: Pick): (r: seq<Forward>)
    ensures |r| == |fs|
    ensures forall k {:trigger r[k]} :: 0 <= k < |fs| ==> r[k] == if Picked(fs[k], p) then Paused(fs[k]) else fs[k]
  {
    seq(|fs|, k requires 0 <= k < |fs| => if Picked(fs[k], p) then Paused(fs[k]) else fs[k])
  }

  /** Every row's pause commands, in table order. */
  function RowPauses(tunnels: seq<Tunnel>, uts: seq<UserTunnel>, fs: seq<Forward>): (cs: seq<seq<Call>>)
    ensures |cs| == |fs|
    decreases |fs|
  {
    if |fs| == 0 then [] else RowPauses(tunnels, uts, fs[..|fs| - 1]) + [PauseCalls(tunnels, uts, fs[|fs| - 1])]
  }

  lemma {:induction false} RowPausesAt(tunnels: seq<Tunnel>, uts: seq<UserTunnel>, fs: seq<Forward>, k: nat)
    requires k < |fs|
    ensures RowPauses(tunnels, uts, fs)[k] == PauseCalls(tunnels, uts, fs[k])
    decreases |fs|
  {
    var init := fs[..|fs| - 1];
    assert RowPauses(tunnels, uts, fs) == RowPauses(tunnels, uts, init) + [PauseCalls(tunnels, uts, fs[|fs| - 1])];
    if k < |fs| - 1 {
      RowPausesAt(tunnels, uts, init, k);
      assert init[k] == fs[k];
    }
  }

  /** Forward tables that differ at most in their status columns. */
  predicate SameRows(fs: seq<Forward>, gs: seq<Forward>) {
    |fs| == |gs| &&
    forall k :: 0 <= k < |fs| ==> gs[k].id == fs[k].id && gs[k].userId == fs[k].userId && gs[k].tunnelId == fs[k].tunnelId
  }

  /** So the sweep's commands for each row are fixed before it starts: pausing rows and
      disabling permissions do not change them. */
  lemma RowPausesIgnoreStatus(tunnels: seq<Tunnel>, a: seq<UserTunnel>, b: seq<UserTunnel>, fs: seq<Forward>, gs: seq<Forward>)
    requires SameKeys(a, b) && SameRows(fs, gs)
    ensures RowPauses(tunnels, a, gs) == RowPauses(tunnels, b, fs)
  {
    forall k | 0 <= k < |fs|
      ensures RowPauses(tunnels, a, gs)[k] == RowPauses(tunnels, b, fs)[k]
    {
      RowPausesAt(tunnels, a, gs, k);
      RowPausesAt(tunnels, b, fs, k);
      PauseCallsIgnoreStatus(tunnels, a, b, fs[k], gs[k]);
    }
  }

  /** The commands of one inner loop, row by row in table order, given each row's pause
      commands `cs`. */
  function WherePer(fs: seq<Forward>, cs: seq<seq<Call>>, p: Pick): (r: seq<seq<Call>>)
    requires |cs| == |fs|
    ensures |r| == |fs|
    ensures forall k {:trigger r[k]} :: 0 <= k < |fs| ==> r[k] == if Picked(fs[k], p) then cs[k] else []
  {
    seq(|fs|, k requires 0 <= k < |fs| => if Picked(fs[k], p) then cs[k] else [])
  }

  function WhereCalls(fs: seq<Forward>, cs: seq<seq<Call>>, p: Pick): seq<Call>
    requires |cs| == |fs|
  {
    Concat(WherePer(fs, cs, p), |fs|)
  }

  /** A command of one inner loop is a pause command of a picked forward, and every pause
      command of a picked forward is sent. */
  lemma WhereCallsMember(fs: seq<Forward>, cs: seq<seq<Call>>, p: Pick, c: Call)
    requires |cs| == |fs|
    ensures c in WhereCalls(fs, cs, p) <==> exists k :: 0 <= k < |fs| && Picked(fs[k], p) && c in cs[k]
  {
    var per := WherePer(fs, cs, p);
    if c in WhereCalls(fs, cs, p) {
      ConcatMember(per, |fs|, c);
      var k :| 0 <= k < |fs| && c in per[k];
      assert Picked(fs[k], p) && c in cs[k];
    }
    if exists k :: 0 <= k < |fs| && Picked(fs[k], p) && c in cs[k] {
      var k :| 0 <= k < |fs| && Picked(fs[k], p) && c in cs[k];
      ConcatContains(per, |fs|, k, c);
    }
  }

  /** The inner loops: pause and disable every active forward the query picks. */
  method PauseForwardsWhere(db: Db, agent: Agent, p: Pick)
    requires agent.Valid()
    modifies db, agent
    ensures agent.Valid()
    ensures db.forwards == PausedWhere(old(db.forwards), p)
    ensures agent.calls == old(agent.calls) + WhereCalls(old(db.forwards), RowPauses(db.tunnels, db.userTunnels, old(db.forwards)), p)
    ensures db.users == old(db.users) && db.userTunnels == old(db.userTunnels) && db.tunnels == old(db.tunnels)
    ensures db.nodes == old(db.nodes) && db.stats == old(db.stats)
  {
    var forwards, tunnels, uts := db.forwards, db.tunnels, db.userTunnels;
    ghost var cs := RowPauses(tunnels, uts, forwards);
    ghost var rows, per := PausedWhere(forwards, p), WherePer(forwards, cs, p);
    var out := [];
    var j := 0;
    while j < |forwards|
      modifies agent
      invariant 0 <= j <= |forwards|
      invariant out == rows[..j]
      invariant agent.calls == old(agent.calls) + Concat(per, j)
      invariant agent.Valid()
    {
      RowPausesAt(tunnels, uts, forwards, j);
      var saved := PauseRowWhere(agent, tunnels, uts, forwards[j], p, cs[j]);
      Assoc(old(agent.calls), Concat(per, j), per[j]);
      Snoc(rows, j);
      out := out + [saved];
      j := j + 1;
    }
    assert rows[..j] == rows;
    db.forwards := out;
  }

  /** One row of the inner loop: a picked forward is paused, and saved paused. */
  method PauseRowWhere(agent: Agent, tunnels: seq<Tunnel>, uts: seq<UserTunnel>, f: Forward, p: Pick, ghost fc: seq<Call>) returns (saved: Forward)
    requires agent.Valid() && fc == PauseCalls(tunnels, uts, f)
    modifies agent
    ensures agent.Valid()
    ensures saved == if Picked(f, p) then Paused(f) else f
    ensures agent.calls == old(agent.calls) + if Picked(f, p) then fc else []
  {
    saved := f;
    if Picked(f, p) {
      PauseForward(agent, tunnels, uts, f);
      saved := Paused(f);
    }
  }

  /** The picks of the first pass: one per account row, a query for each account the
      selection takes. */
  function UserPicks(sel: Selection, users: seq<User>, now: int): (ps: seq<Option<Pick>>)
    ensures |ps| == |users|
    ensures forall i {:trigger ps[i]} :: 0 <= i < |users| ==>
      ps[i] == if UserExpired(sel, users[i], now) then Some(Pick(users[i].id, None)) else None
  {
    seq(|users|, i requires 0 <= i < |users| =>
      if UserExpired(sel, users[i], now) then Some(Pick(users[i].id, None)) else None)
  }

  /** The picks of the second pass: one per permission row. */
  function PermissionPicks(sel: Selection, uts: seq<UserTunnel>, now: int): (ps: seq<Option<Pick>>)
    ensures |ps| == |uts|
    ensures forall i {:trigger ps[i]} :: 0 <= i < |uts| ==>
      ps[i] == if UserTunnelExpired(sel, uts[i], now) then Some(Pick(uts[i].userId, Some(uts[i].tunnelId))) else None
  {
    seq(|uts|, i requires 0 <= i < |uts| =>
      if UserTunnelExpired(sel, uts[i], now) then Some(Pick(uts[i].userId, Some(uts[i].tunnelId))) else None)
  }

  /** Whether one of the first `n` picks selects the forward, whatever its status. */
  predicate Hit(f: Forward, ps: seq<Option<Pick>>, n: nat)
    requires n <= |ps|
  {
    exists w :: 0 <= w < n && ps[w].Some? && Selects(ps[w].value, f)
  }

  /** The forwards table after the inner loops of the first `n` picks: a row ends paused
      when it was active and one of those picks selects it. */
  function AfterPicks(fs: seq<Forward>, ps: seq<Option<Pick>>, n: nat): (r: seq<Forward>)
    requires n <= |ps|
    ensures |r| == |fs|
  {
    seq(|fs|, k requires 0 <= k < |fs| => if fs[k].status == 1 && Hit(fs[k], ps, n) then Paused(fs[k]) else fs[k])
  }

  /** Running the inner loop of pick `n` on the table the earlier loops left gives the table
      after `n + 1` picks. */
  lemma AfterPicksStep(fs: seq<Forward>, ps: seq<Option<Pick>>, n: nat)
    requires n < |ps|
    ensures AfterPicks(fs, ps, n + 1) ==
      match ps[n]
      case None => AfterPicks(fs, ps, n)
      case Some(p) => PausedWhere(AfterPicks(fs, ps, n), p)
  {
    var prev, next := AfterPicks(fs, ps, n), AfterPicks(fs, ps, n + 1);
    forall k | 0 <= k < |fs|
      ensures Hit(fs[k], ps, n + 1) == (Hit(fs[k], ps, n) || (ps[n].Some? && Selects(ps[n].value, fs[k])))
    {
      if Hit(fs[k], ps, n + 1) && !(ps[n].Some? && Selects(ps[n].value, fs[k])) {
        var w :| 0 <= w < n + 1 && ps[w].Some? && Selects(ps[w].value, fs[k]);
        assert w < n;
      }
    }
  }

  /** A forward that a pick selects is selected first by some pick. */
  lemma {:induction false} FirstHit(f: Forward, ps: seq<Option<Pick>>, n: nat) returns (w: nat)
    requires n <= |ps| && Hit(f, ps, n)
    ensures w < n && ps[w].Some? && Selects(ps[w].value, f) && !Hit(f, ps, w)
    decreases n
  {
    if Hit(f, ps, n - 1) {
      w := FirstHit(f, ps, n - 1);
    } else {
      w := n - 1;
    }
  }

  /** The commands of each pick's inner loop, run on the table the earlier loops left. */
  function PickBlocks(fs: seq<Forward>, ps: seq<Option<Pick>>, cs: seq<seq<Call>>): (r: seq<seq<Call>>)
    requires |cs| == |fs|
    ensures |r| == |ps|
  {
    seq(|ps|, i requires 0 <= i < |ps| =>
      match ps[i]
      case None => []
      case Some(p) => WhereCalls(AfterPicks(fs, ps, i), cs, p))
  }

  /** The commands of the first `n` inner loops, in order. */
  function PicksCalls(fs: seq<Forward>, ps: seq<Option<Pick>>, n: nat, cs: seq<seq<Call>>): seq<Call>
    requires n <= |ps| && |cs| == |fs|
  {
    Concat(PickBlocks(fs, ps, cs), n)
  }

  /** The loops send exactly the pause commands of the forwards they pause. */
  lemma PicksCallsExact(fs: seq<Forward>, ps: seq<Option<Pick>>, n: nat, cs: seq<seq<Call>>, c: Call)
    requires n <= |ps| && |cs| == |fs|
    ensures c in PicksCalls(fs, ps, n, cs) <==>
      exists k :: 0 <= k < |fs| && fs[k].status == 1 && Hit(fs[k], ps, n) && c in cs[k]
  {
    if c in PicksCalls(fs, ps, n, cs) {
      PicksCallsSound(fs, ps, n, cs, c);
    }
    forall k | 0 <= k < |fs| && fs[k].status == 1 && Hit(fs[k], ps, n) && c in cs[k]
      ensures c in PicksCalls(fs, ps, n, cs)
    {
      PicksCallsComplete(fs, ps, n, cs, k, c);
    }
  }

  lemma PicksCallsSound(fs: seq<Forward>, ps: seq<Option<Pick>>, n: nat, cs: seq<seq<Call>>, c: Call)
    requires n <= |ps| && |cs| == |fs| && c in PicksCalls(fs, ps, n, cs)
    ensures exists k :: 0 <= k < |fs| && fs[k].status == 1 && Hit(fs[k], ps, n) && c in cs[k]
  {
    var blocks := PickBlocks(fs, ps, cs);
    ConcatMember(blocks, n, c);
    var i :| 0 <= i < n && c in blocks[i];
    var p := ps[i].value;
    var prev := AfterPicks(fs, ps, i);
    WhereCallsMember(prev, cs, p, c);
    var k :| 0 <= k < |fs| && Picked(prev[k], p) && c in cs[k];
    assert prev[k] == fs[k];
    assert Hit(fs[k], ps, n) by {
      assert i < n && ps[i].Some? && Selects(ps[i].value, fs[k]);
    }
  }

  lemma PicksCallsComplete(fs: seq<Forward>, ps: seq<Option<Pick>>, n: nat, cs: seq<seq<Call>>, k: nat, c: Call)
    requires n <= |ps| && |cs| == |fs| && k < |fs| && fs[k].status == 1 && Hit(fs[k], ps, n) && c in cs[k]
    ensures c in PicksCalls(fs, ps, n, cs)
  {
    var w := FirstHit(fs[k], ps, n);
    var p := ps[w].value;
    var prev := AfterPicks(fs, ps, w);
    assert prev[k] == fs[k] && Picked(prev[k], p);
    WhereCallsMember(prev, cs, p, c);
    ConcatContains(PickBlocks(fs, ps, cs), n, w, c);
  }

  /** A pass run one pick at a time, as the outer loop does: the table and the commands
      after the first `n` picks. */
  function Pass(fs: seq<Forward>, ps: seq<Option<Pick>>, n: nat, cs: seq<seq<Call>>): (r: (seq<Forward>, seq<Call>))
    requires n <= |ps| && |cs| == |fs|
    ensures |r.0| == |fs|
    decreases n
  {
    if n == 0 then (fs, [])
    else
      var (table, calls) := Pass(fs, ps, n - 1, cs);
      match ps[n - 1]
      case None => (table, calls)
      case Some(p) => (PausedWhere(table, p), calls + WhereCalls(table, cs, p))
  }

  /** Running the picks one at a time gives the closed forms. */
  lemma {:induction false} PassClosed(fs: seq<Forward>, ps: seq<Option<Pick>>, n: nat, cs: seq<seq<Call>>)
    requires n <= |ps| && |cs| == |fs|
    ensures Pass(fs, ps, n, cs) == (AfterPicks(fs, ps, n), PicksCalls(fs, ps, n, cs))
    decreases n
  {
    if n > 0 {
      PassClosed(fs, ps, n - 1, cs);
      AfterPicksStep(fs, ps, n - 1);
      var blocks, prev := PickBlocks(fs, ps, cs), AfterPicks(fs, ps, n - 1);
      assert PicksCalls(fs, ps, n, cs) == PicksCalls(fs, ps, n - 1, cs) + blocks[n - 1];
      match ps[n - 1]
      case None =>
        assert blocks[n - 1] == [];
        assert PicksCalls(fs, ps, n - 1, cs) + [] == PicksCalls(fs, ps, n - 1, cs);
        assert Pass(fs, ps, n, cs) == Pass(fs, ps, n - 1, cs);
      case Some(p) =>
        assert blocks[n - 1] == WhereCalls(prev, cs, p);
    } else {
      assert forall k :: 0 <= k < |fs| ==> !Hit(fs[k], ps, 0);
      assert AfterPicks(fs, ps, 0) == fs;
    }
  }

  /** Along a pass each row keeps its commands, also read against a permission table that
      differs at most in status. */
  lemma PassKeepsRowPauses(fs: seq<Forward>, ps: seq<Option<Pick>>, n: nat, tunnels: seq<Tunnel>, uts: seq<UserTunnel>, cur: seq<UserTunnel>)
    requires n <= |ps| && SameKeys(cur, uts)
    ensures RowPauses(tunnels, cur, Pass(fs, ps, n, RowPauses(tunnels, uts, fs)).0) == RowPauses(tunnels, uts, fs)
  {
    var cs := RowPauses(tunnels, uts, fs);
    PassClosed(fs, ps, n, cs);
    RowPausesIgnoreStatus(tunnels, cur, uts, fs, AfterPicks(fs, ps, n));
  }

  /** A forward is paused by the first pass when its owner is an expired account. */
  predicate OwnerExpired(sel: Selection, f: Forward, users: seq<User>, now: int) {
    exists k :: 0 <= k < |users| && UserExpired(sel, users[k], now) && users[k].id == f.userId
  }

  /** ... and by the second pass when the owner's permission on its tunnel expired. */
  predicate PermissionExpired(sel: Selection, f: Forward, uts: seq<UserTunnel>, now: int) {
    exists k :: 0 <= k < |uts| && UserTunnelExpired(sel, uts[k], now) && uts[k].userId == f.userId && uts[k].tunnelId == f.tunnelId
  }

  lemma OwnerHit(sel: Selection, f: Forward, users: seq<User>, now: int)
    ensures Hit(f, UserPicks(sel, users, now), |users|) <==> OwnerExpired(sel, f, users, now)
  {
    var ps := UserPicks(sel, users, now);
    if Hit(f, ps, |ps|) {
      var w :| 0 <= w < |ps| && ps[w].Some? && Selects(ps[w].value, f);
      assert UserExpired(sel, users[w], now) && users[w].id == f.userId;
    }
    if OwnerExpired(sel, f, users, now) {
      var w :| 0 <= w < |users| && UserExpired(sel, users[w], now) && users[w].id == f.userId;
      assert ps[w].Some? && Selects(ps[w].value, f);
    }
  }

  lemma PermissionHit(sel: Selection, f: Forward, uts: seq<UserTunnel>, now: int)
    ensures Hit(f, PermissionPicks(sel, uts, now), |uts|) <==> PermissionExpired(sel, f, uts, now)
  {
    var ps := PermissionPicks(sel, uts, now);
    if Hit(f, ps, |ps|) {
      var w :| 0 <= w < |ps| && ps[w].Some? && Selects(ps[w].value, f);
      assert UserTunnelExpired(sel, uts[w], now) && uts[w].userId == f.userId && uts[w].tunnelId == f.tunnelId;
    }
    if PermissionExpired(sel, f, uts, now) {
      var w :| 0 <= w < |uts| && UserTunnelExpired(sel, uts[w], now) && uts[w].userId == f.userId && uts[w].tunnelId == f.tunnelId;
      assert ps[w].Some? && Selects(ps[w].value, f);
    }
  }

  /** A forward after the whole sweep: paused when it was active and its owner or its
      permission expired. */
  function Swept(sel: Selection, f: Forward, users: seq<User>, uts: seq<UserTunnel>, now: int): Forward {
    if f.status == 1 && (OwnerExpired(sel, f, users, now) || PermissionExpired(sel, f, uts, now)) then Paused(f) else f
  }

  function Disabled(sel: Selection, u: User, now: int): User {
    if UserExpired(sel, u, now) then u.(status := 0) else u
  }

  function DisabledPermission(sel: Selection, ut: UserTunnel, now: int): UserTunnel {
    if UserTunnelExpired(sel, ut, now) then ut.(status := 0) else ut
  }

  /** The commands of the whole sweep: the account pass, then the permission pass over the
      table the first one left. */
  function SweepCalls(sel: Selection, fs: seq<Forward>, users: seq<User>, uts: seq<UserTunnel>, tunnels: seq<Tunnel>, now: int): seq<Call> {
    var up, pp, cs := UserPicks(sel, users, now), PermissionPicks(sel, uts, now), RowPauses(tunnels, uts, fs);
    PicksCalls(fs, up, |up|, cs) + PicksCalls(AfterPicks(fs, up, |up|), pp, |pp|, cs)
  }

  /** The two passes leave each forward as `Swept` says. */
  lemma SweptTable(sel: Selection, fs: seq<Forward>, users: seq<User>, uts: seq<UserTunnel>, now: int)
    ensures var up, pp := UserPicks(sel, users, now), PermissionPicks(sel, uts, now);
      forall k :: 0 <= k < |fs| ==> AfterPicks(AfterPicks(fs, up, |up|), pp, |pp|)[k] == Swept(sel, fs[k], users, uts, now)
  {
    var up, pp := UserPicks(sel, users, now), PermissionPicks(sel, uts, now);
    var mid := AfterPicks(fs, up, |up|);
    forall k | 0 <= k < |fs|
      ensures AfterPicks(mid, pp, |pp|)[k] == Swept(sel, fs[k], users, uts, now)
    {
      OwnerHit(sel, fs[k], users, now);
      PermissionHit(sel, fs[k], uts, now);
      HitIgnoresStatus(fs[k], mid[k], pp, |pp|);
    }
  }

  lemma HitIgnoresStatus(f: Forward, g: Forward, ps: seq<Option<Pick>>, n: nat)
    requires n <= |ps|
    requires g.userId == f.userId && g.tunnelId == f.tunnelId
    ensures Hit(g, ps, n) == Hit(f, ps, n)
  {
    if Hit(f, ps, n) {
      var w :| 0 <= w < n && ps[w].Some? && Selects(ps[w].value, f);
      assert Selects(ps[w].value, g);
    }
    if Hit(g, ps, n) {
      var w :| 0 <= w < n && ps[w].Some? && Selects(ps[w].value, g);
      assert Selects(ps[w].value, f);
    }
  }

  /** The sweep sends exactly the pause commands of the forwards it disables. */
  lemma SweepCallsExact(sel: Selection, fs: seq<Forward>, users: seq<User>, uts: seq<UserTunnel>, tunnels: seq<Tunnel>, now: int, c: Call)
    ensures c in SweepCalls(sel, fs, users, uts, tunnels, now) <==>
      exists k :: 0 <= k < |fs| && Swept(sel, fs[k], users, uts, now) != fs[k] && c in PauseCalls(tunnels, uts, fs[k])
  {
    if c in SweepCalls(sel, fs, users, uts, tunnels, now) {
      SweepCallsSound(sel, fs, users, uts, tunnels, now, c);
    }
    forall k | 0 <= k < |fs| && Swept(sel, fs[k], users, uts, now) != fs[k] && c in PauseCalls(tunnels, uts, fs[k])
      ensures c in SweepCalls(sel, fs, users, uts, tunnels, now)
    {
      SweepCallsComplete(sel, fs, users, uts, tunnels, now, k, c);
    }
  }

  lemma SweepCallsSound(sel: Selection, fs: seq<Forward>, users: seq<User>, uts: seq<UserTunnel>, tunnels: seq<Tunnel>, now: int, c: Call)
    requires c in SweepCalls(sel, fs, users, uts, tunnels, now)
    ensures exists k :: 0 <= k < |fs| && Swept(sel, fs[k], users, uts, now) != fs[k] && c in PauseCalls(tunnels, uts, fs[k])
  {
    var up, pp, cs := UserPicks(sel, users, now), PermissionPicks(sel, uts, now), RowPauses(tunnels, uts, fs);
    var mid := AfterPicks(fs, up, |up|);
    if c in PicksCalls(fs, up, |up|, cs) {
      PicksCallsSound(fs, up, |up|, cs, c);
      var k :| 0 <= k < |fs| && fs[k].status == 1 && Hit(fs[k], up, |up|) && c in cs[k];
      RowPausesAt(tunnels, uts, fs, k);
      OwnerHit(sel, fs[k], users, now);
      assert Swept(sel, fs[k], users, uts, now) != fs[k];
    } else {
      PicksCallsSound(mid, pp, |pp|, cs, c);
      var k :| 0 <= k < |mid| && mid[k].status == 1 && Hit(mid[k], pp, |pp|) && c in cs[k];
      RowPausesAt(tunnels, uts, fs, k);
      HitIgnoresStatus(fs[k], mid[k], pp, |pp|);
      PermissionHit(sel, fs[k], uts, now);
      assert Swept(sel, fs[k], users, uts, now) != fs[k];
    }
  }

  lemma SweepCallsComplete(sel: Selection, fs: seq<Forward>, users: seq<User>, uts: seq<UserTunnel>, tunnels: seq<Tunnel>, now: int, k: nat, c: Call)
    requires k < |fs| && Swept(sel, fs[k], users, uts, now) != fs[k] && c in PauseCalls(tunnels, uts, fs[k])
    ensures c in SweepCalls(sel, fs, users, uts, tunnels, now)
  {
    var up, pp, cs := UserPicks(sel, users, now), PermissionPicks(sel, uts, now), RowPauses(tunnels, uts, fs);
    var mid := AfterPicks(fs, up, |up|);
    RowPausesAt(tunnels, uts, fs, k);
    OwnerHit(sel, fs[k], users, now);
    PermissionHit(sel, fs[k], uts, now);
    if Hit(fs[k], up, |up|) {
      PicksCallsComplete(fs, up, |up|, cs, k, c);
    } else {
      HitIgnoresStatus(fs[k], mid[k], pp, |pp|);
      PicksCallsComplete(mid, pp, |pp|, cs, k, c);
    }
  }

  /** The account table after the first pass has looked at its first `i` rows. */
  function UsersUpTo(users: seq<User>, i: nat, now: int): (r: seq<User>)
    ensures |r| == |users|
  {
    seq(|users|, k requires 0 <= k < |users| => if k < i then Disabled(AsWritten, users[k], now) else users[k])
  }

  lemma UsersUpToStep(users: seq<User>, i: nat, now: int)
    requires i < |users|
    ensures UsersUpTo(users, i + 1, now) == UsersUpTo(users, i, now)[i := Disabled(AsWritten, users[i], now)]
  {
  }

  /** First pass: expired accounts, one query per account in table order. */
  method ExpireUsers(db: Db, agent: Agent, now: int)
    requires agent.Valid()
    modifies db, agent
    ensures agent.Valid()
    ensures db.users == UsersUpTo(old(db.users), |old(db.users)|, now)
    ensures var r := Pass(old(db.forwards), UserPicks(AsWritten, old(db.users), now), |old(db.users)|, RowPauses(db.tunnels, db.userTunnels, old(db.forwards)));
      db.forwards == r.0 && agent.calls == old(agent.calls) + r.1
    ensures db.userTunnels == old(db.userTunnels) && db.tunnels == old(db.tunnels) && db.nodes == old(db.nodes) && db.stats == old(db.stats)
  {
    var users, tunnels, uts := db.users, db.tunnels, db.userTunnels;
    ghost var fs, ps := db.forwards, UserPicks(AsWritten, users, now);
    ghost var cs := RowPauses(tunnels, uts, fs);
    var i := 0;
    while i < |users|
      invariant 0 <= i <= |users|
      invariant db.users == UsersUpTo(users, i, now)
      invariant db.forwards == Pass(fs, ps, i, cs).0
      invariant agent.calls == old(agent.calls) + Pass(fs, ps, i, cs).1
      invariant db.userTunnels == uts && db.tunnels == tunnels && db.nodes == old(db.nodes) && db.stats == old(db.stats)
      invariant agent.Valid()
    {
      ExpireUserAt(db, agent, users, i, now, fs, ps, cs, old(agent.calls));
      i := i + 1;
    }
  }

  /** One row of the first pass: account `i` is disabled when expired, after its forwards are paused. */
  method ExpireUserAt(db: Db, agent: Agent, users: seq<User>, i: nat, now: int, ghost fs: seq<Forward>, ghost ps: seq<Option<Pick>>, ghost cs: seq<seq<Call>>, ghost before: seq<Call>)
    requires agent.Valid() && i < |users| && ps == UserPicks(AsWritten, users, now) && cs == RowPauses(db.tunnels, db.userTunnels, fs)
    requires db.users == UsersUpTo(users, i, now)
    requires db.forwards == Pass(fs, ps, i, cs).0 && agent.calls == before + Pass(fs, ps, i, cs).1
    modifies db, agent
    ensures agent.Valid()
    ensures db.users == UsersUpTo(users, i + 1, now)
    ensures db.forwards == Pass(fs, ps, i + 1, cs).0 && agent.calls == before + Pass(fs, ps, i + 1, cs).1
    ensures db.userTunnels == old(db.userTunnels) && db.tunnels == old(db.tunnels) && db.nodes == old(db.nodes) && db.stats == old(db.stats)
  {
    var user := users[i];
    UsersUpToStep(users, i, now);
    if UserExpired(AsWritten, user, now) {
      var p := Pick(user.id, None);
      assert ps[i] == Some(p);
      PassKeepsRowPauses(fs, ps, i, db.tunnels, db.userTunnels, db.userTunnels);
      RunPick(db, agent, p, fs, ps, i, cs, before);
      db.users := db.users[i := user.(status := 0)];
    } else {
      assert ps[i] == None;
    }
  }

  /** The inner loop of pick `i` of a pass: the table and the commands move one pick on. */
  method RunPick(db: Db, agent: Agent, p: Pick, ghost fs: seq<Forward>, ghost ps: seq<Option<Pick>>, ghost i: nat, ghost cs: seq<seq<Call>>, ghost before: seq<Call>)
    requires agent.Valid() && i < |ps| && |cs| == |fs| && ps[i] == Some(p)
    requires db.forwards == Pass(fs, ps, i, cs).0 && agent.calls == before + Pass(fs, ps, i, cs).1
    requires RowPauses(db.tunnels, db.userTunnels, db.forwards) == cs
    modifies db, agent
    ensures agent.Valid()
    ensures db.forwards == Pass(fs, ps, i + 1, cs).0 && agent.calls == before + Pass(fs, ps, i + 1, cs).1
    ensures db.users == old(db.users) && db.userTunnels == old(db.userTunnels) && db.tunnels == old(db.tunnels)
    ensures db.nodes == old(db.nodes) && db.stats == old(db.stats)
  {
    PauseForwardsWhere(db, agent, p);
    Assoc(before, Pass(fs, ps, i, cs).1, WhereCalls(Pass(fs, ps, i, cs).0, cs, p));
  }

  /** The permission table after the second pass has looked at its first `i` rows. */
  function DisabledUpTo(uts: seq<UserTunnel>, i: nat, now: int): (r: seq<UserTunnel>)
    ensures |r| == |uts|
  {
    seq(|uts|, k requires 0 <= k < |uts| => if k < i then DisabledPermission(AsWritten, uts[k], now) else uts[k])
  }

  lemma DisabledUpToStep(uts: seq<UserTunnel>, i: nat, now: int)
    requires i < |uts|
    ensures SameKeys(DisabledUpTo(uts, i, now), uts)
    ensures DisabledUpTo(uts, i + 1, now) == DisabledUpTo(uts, i, now)[i := DisabledPermission(AsWritten, uts[i], now)]
  {
  }

  /** Second pass: expired permissions, one query per permission in table order. */
  method ExpirePermissions(db: Db, agent: Agent, now: int)
    requires agent.Valid()
    modifies db, agent
    ensures agent.Valid()
    ensures db.userTunnels == DisabledUpTo(old(db.userTunnels), |old(db.userTunnels)|, now)
    ensures var r := Pass(old(db.forwards), PermissionPicks(AsWritten, old(db.userTunnels), now), |old(db.userTunnels)|, RowPauses(db.tunnels, old(db.userTunnels), old(db.forwards)));
      db.forwards == r.0 && agent.calls == old(agent.calls) + r.1
    ensures db.users == old(db.users) && db.tunnels == old(db.tunnels) && db.nodes == old(db.nodes) && db.stats == old(db.stats)
  {
    var uts, tunnels := db.userTunnels, db.tunnels;
    ghost var fs, ps := db.forwards, PermissionPicks(AsWritten, uts, now);
    ghost var cs := RowPauses(tunnels, uts, fs);
    var i := 0;
    while i < |uts|
      invariant 0 <= i <= |uts|
      invariant db.userTunnels == DisabledUpTo(uts, i, now)
      invariant db.forwards == Pass(fs, ps, i, cs).0
      invariant agent.calls == old(agent.calls) + Pass(fs, ps, i, cs).1
      invariant db.users == old(db.users) && db.tunnels == tunnels && db.nodes == old(db.nodes) && db.stats == old(db.stats)
      invariant agent.Valid()
    {
      ExpirePermissionAt(db, agent, uts, i, now, fs, ps, cs, old(agent.calls));
      i := i + 1;
    }
  }

  /** One row of the second pass: permission `i` is disabled when expired, after its forwards are paused. */
  method ExpirePermissionAt(db: Db, agent: Agent, uts: seq<UserTunnel>, i: nat, now: int, ghost fs: seq<Forward>, ghost ps: seq<Option<Pick>>, ghost cs: seq<seq<Call>>, ghost before: seq<Call>)
    requires agent.Valid() && i < |uts| && ps == PermissionPicks(AsWritten, uts, now) && cs == RowPauses(db.tunnels, uts, fs)
    requires db.userTunnels == DisabledUpTo(uts, i, now)
    requires db.forwards == Pass(fs, ps, i, cs).0 && agent.calls == before + Pass(fs, ps, i, cs).1
    modifies db, agent
    ensures agent.Valid()
    ensures db.userTunnels == DisabledUpTo(uts, i + 1, now)
    ensures db.forwards == Pass(fs, ps, i + 1, cs).0 && agent.calls == before + Pass(fs, ps, i + 1, cs).1
    ensures db.users == old(db.users) && db.tunnels == old(db.tunnels) && db.nodes == old(db.nodes) && db.stats == old(db.stats)
  {
    var ut := uts[i];
    DisabledUpToStep(uts, i, now);
    if UserTunnelExpired(AsWritten, ut, now) {
      var p := Pick(ut.userId, Some(ut.tunnelId));
      assert ps[i] == Some(p);
      PassKeepsRowPauses(fs, ps, i, db.tunnels, uts, db.userTunnels);
      RunPick(db, agent, p, fs, ps, i, cs, before);
      db.userTunnels := db.userTunnels[i := ut.(status := 0)];
    } else {
      assert ps[i] == None;
    }
  }

  /** `CheckExpiry()`: every active forward of an expired account, or under an expired
      permission, is paused and disabled; then the account or permission is disabled. The
      agents' replies are ignored. */
  method CheckExpiry(db: Db, agent: Agent, now: int)
    requires agent.Valid()
    modifies db, agent
    ensures agent.Valid()
    ensures |db.users| == |old(db.users)| && |db.userTunnels| == |old(db.userTunnels)| && |db.forwards| == |old(db.forwards)|
    ensures forall i :: 0 <= i < |db.users| ==> db.users[i] == Disabled(AsWritten, old(db.users)[i], now)
    ensures forall i :: 0 <= i < |db.userTunnels| ==> db.userTunnels[i] == DisabledPermission(AsWritten, old(db.userTunnels)[i], now)
    ensures forall k :: 0 <= k < |db.forwards| ==>
      db.forwards[k] == Swept(AsWritten, old(db.forwards)[k], old(db.users), old(db.userTunnels), now)
    ensures agent.calls == old(agent.calls) +
      SweepCalls(AsWritten, old(db.forwards), old(db.users), old(db.userTunnels), db.tunnels, now)
    ensures db.tunnels == old(db.tunnels) && db.nodes == old(db.nodes) && db.stats == old(db.stats)
  {
    ghost var fs, up, pp := db.forwards, UserPicks(AsWritten, db.users, now), PermissionPicks(AsWritten, db.userTunnels, now);
    ghost var cs := RowPauses(db.tunnels, db.userTunnels, fs);
    ExpireUsers(db, agent, now);
    ghost var calls1, mid := agent.calls, db.forwards;
    PassClosed(fs, up, |up|, cs);
    PassKeepsRowPauses(fs, up, |up|, db.tunnels, db.userTunnels, db.userTunnels);
    ExpirePermissions(db, agent, now);
    PassClosed(mid, pp, |pp|, cs);
    Assoc(old(agent.calls), calls1[|old(agent.calls)|..], agent.calls[|calls1|..]);
    SweptTable(AsWritten, fs, old(db.users), old(db.userTunnels), now);
  }

  /** After a sweep no account or permission is left expired-but-active, so a second sweep
      on the same clock changes nothing in the database. */
  lemma SweepSettles(sel: Selection, u: User, ut: UserTunnel, f: Forward, users: seq<User>, uts: seq<UserTunnel>, now: int)
    ensures !UserExpired(sel, Disabled(sel, u, now), now)
    ensures !UserTunnelExpired(sel, DisabledPermission(sel, ut, now), now)
    ensures Swept(sel, Swept(sel, f, users, uts, now), users, uts, now) == Swept(sel, f, users, uts, now)
    ensures Swept(sel, f, users, uts, now).status == 1 ==>
      f.status == 1 && !OwnerExpired(sel, f, users, now) && !PermissionExpired(sel, f, uts, now)
  {
  }
}
