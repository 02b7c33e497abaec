/** Traffic reports and the limit checks they trigger (go-backend/controller/flow_controller.go).
    A report names the service `forwardId_userId_userTunnelId` and carries the bytes the node
    counted. The report feeds the traffic buffer; then the owner's account and tunnel
    permission are held against their quota, expiry and status, and every forward in the
    scope of a failed check is paused on its nodes and marked paused. The clock is a
    parameter, the nodes are the `Agent` oracle and the buffer is `FlowBuffer.Buffer`. */
module FlowController {
  import opened Wrappers
  import opened Strs
  import opened Model
  import opened Seqs
  import opened GostUtil
  import FlowBuffer
  import TaskService
  import ForwardGost

  /** The user-tunnel part of a name that carries no permission of its own. */
  const DefaultUserTunnelId: string := "0"
  const BytesToGb: int := 1073741824

  /** One report: the service name, the bytes the client uploaded (`u`) and downloaded
      (`d`). The dial counters and the version field the node also sends are not read. */
  datatype FlowReport = FlowReport(n: string, u: int, d: int)

  // ---------------------------------------------------------------- billing

  /** Division rounding toward zero, as Go's conversion of a product to `int64` does. */
  function TruncDiv(a: int, b: int): (q: int)
    requires b > 0
    ensures a >= 0 ==> q >= 0 && q * b <= a < q * b + b
    ensures a < 0 ==> q <= 0 && q * b - b < a <= q * b
  {
    if a >= 0 then a / b else -((-a) / b)
  }

  /** Bytes scaled by a ratio in hundredths. */
  function Scale(raw: int, ratio: int): int {
    TruncDiv(raw * ratio, 100)
  }

  /** `calculateBillingFlow`: both directions are scaled by the tunnel's ratio, and a tunnel
      that bills one way (`flow` 1) bills nothing inbound. */
  function Billing(rawIn: int, rawOut: int, t: Tunnel): (b: (int, int))
    ensures t.flow == 1 ==> b.0 == 0
    ensures t.flow != 1 && rawIn == rawOut ==> b.0 == b.1
  {
    (if t.flow == 1 then 0 else Scale(rawIn, t.trafficRatio), Scale(rawOut, t.trafficRatio))
  }

  /** Raw (in 100, out 200) at ratio 2.0: billed (0, 400) one way and (200, 400) both ways. */
  lemma BillingExample(t: Tunnel)
    requires t.trafficRatio == 200
    ensures Billing(100, 200, t.(flow := 1)) == (0, 400)
    ensures Billing(100, 200, t.(flow := 2)) == (200, 400)
  {
  }

  /** At ratio 1.0 a tunnel billing both ways bills the raw bytes. */
  lemma BillingAtUnitRatio(rawIn: int, rawOut: int, t: Tunnel)
    requires t.trafficRatio == 100 && t.flow != 1
    ensures Billing(rawIn, rawOut, t) == (rawIn, rawOut)
  {
  }

  /** Scaling by a non-negative ratio keeps the order of byte counts. */
  lemma ScaleMonotone(a: int, b: int, ratio: int)
    requires a <= b && ratio >= 0
    ensures Scale(a, ratio) <= Scale(b, ratio)
  {
    assert a * ratio <= b * ratio by {
      assert (b - a) * ratio >= 0;
    }
    var x, y := a * ratio, b * ratio;
    var p, q := TruncDiv(x, 100), TruncDiv(y, 100);
    if x >= 0 {
      assert p * 100 <= y < q * 100 + 100;
    } else if y < 0 {
      assert p * 100 - 100 < y <= q * 100;
    }
  }

  /** More traffic is never billed less, in either direction. */
  lemma BillingMonotone(rawIn: int, rawOut: int, moreIn: int, moreOut: int, t: Tunnel)
    requires rawIn <= moreIn && rawOut <= moreOut && t.trafficRatio >= 0
    ensures Billing(rawIn, rawOut, t).0 <= Billing(moreIn, moreOut, t).0
    ensures Billing(rawIn, rawOut, t).1 <= Billing(moreIn, moreOut, t).1
  {
    ScaleMonotone(rawIn, moreIn, t.trafficRatio);
    ScaleMonotone(rawOut, moreOut, t.trafficRatio);
  }

  // ---------------------------------------------------------------- limits

  /** `checkUserLimits`' three conditions: the billed traffic reached a set quota (in GB),
      a set expiry has passed, or the account is not active. */
  predicate UserOverLimit(u: User, now: int) {
    (u.flow > 0 && u.inFlow + u.outFlow >= u.flow * BytesToGb) || (u.expTime > 0 && u.expTime <= now) || u.status != 1
  }

  /** `checkUserTunnelLimits`: the same three conditions on a tunnel permission. */
  predicate UserTunnelOverLimit(ut: UserTunnel, now: int) {
    (ut.flow > 0 && ut.inFlow + ut.outFlow >= ut.flow * BytesToGb) || (ut.expTime > 0 && ut.expTime <= now) || ut.status != 1
  }

  /** For an active account whose expiry is unset or ahead, the check fails exactly when a
      quota is set and reached: a quota of 0 never triggers. */
  lemma QuotaRule(u: User, ut: UserTunnel, now: int)
    requires u.status == 1 && (u.expTime == 0 || u.expTime > now)
    requires ut.status == 1 && (ut.expTime == 0 || ut.expTime > now)
    ensures UserOverLimit(u, now) <==> u.flow > 0 && u.inFlow + u.outFlow >= u.flow * BytesToGb
    ensures UserTunnelOverLimit(ut, now) <==> ut.flow > 0 && ut.inFlow + ut.outFlow >= ut.flow * BytesToGb
    ensures u.flow == 0 ==> !UserOverLimit(u, now)
    ensures ut.flow == 0 ==> !UserTunnelOverLimit(ut, now)
  {
  }

  /** Once over the limit, more traffic or a later clock keeps an account over it. */
  lemma OverLimitStays(u: User, ut: UserTunnel, now: int, later: int, moreIn: int, moreOut: int)
    requires now <= later && u.inFlow <= moreIn && u.outFlow <= moreOut
    requires ut.inFlow <= moreIn && ut.outFlow <= moreOut
    ensures UserOverLimit(u, now) ==> UserOverLimit(u.(inFlow := moreIn, outFlow := moreOut), later)
    ensures UserTunnelOverLimit(ut, now) ==> UserTunnelOverLimit(ut.(inFlow := moreIn, outFlow := moreOut), later)
  {
  }

  /** Every account the daily sweep pauses for expiry is also over the limit here. */
  lemma SweepImpliesOverLimit(u: User, ut: UserTunnel, now: int)
    ensures TaskService.UserExpired(TaskService.Corrected, u, now) ==> UserOverLimit(u, now)
    ensures TaskService.UserTunnelExpired(TaskService.Corrected, ut, now) ==> UserTunnelOverLimit(ut, now)
  {
  }

  // ---------------------------------------------------------------- pausing

  /** The forwards a failed check pauses: all of an account's (`pauseAllUserForwards`), or an
      account's on one tunnel (`pauseTunnelForwards`, whose account id is text and so may
      name no account). Paused and running forwards alike are selected. */
  datatype Scope =
    | AllOfUser(userId: int)
    | UserOnTunnel(tunnelId: int, holder: Option<int>)

  predicate InScope(f: Forward, s: Scope) {
    match s
    case AllOfUser(u) => f.userId == u
    case UserOnTunnel(t, u) => f.tunnelId == t && u == Some(f.userId)
  }

  /** The commands `pauseForwardService` sends for forward `f` addressing service `name`:
      none when the forward's tunnel is missing; a pause of the entry service, and of the
      exit service for a tunnel forward (type 2). */
  function PauseForwardCalls(tunnels: seq<Tunnel>, f: Forward, name: string): (calls: seq<Call>)
    ensures |calls| <= 2
    ensures calls != [] <==> FindTunnel(tunnels, f.tunnelId).Some?
    ensures forall k :: 0 <= k < |calls| ==> calls[k].cmd.kind == "PauseService"
  {
    match FindTunnel(tunnels, f.tunnelId)
    case None => []
    case Some(t) => TunnelPauseCalls(t, name)
  }

  /** The forward's row after `pauseForwardService`: paused, unless its tunnel is missing. */
  function Stopped(tunnels: seq<Tunnel>, f: Forward): Forward {
    if FindTunnel(tunnels, f.tunnelId).Some? then f.(status := 0) else f
  }

  /** The name the forward's own services carry, as `buildServiceName` spells it with the
      owner's permission on the tunnel (id 0 without one). */
  function OwnServiceName(uts: seq<UserTunnel>, f: Forward): string {
    ServiceName(f.id, f.userId, ForwardGost.UtId(FindUserTunnel(uts, f.userId, f.tunnelId)))
  }

  /** The agent-side artifacts a service name owns: its tcp and udp entry services and its
      exit service. */
  function Artifacts(name: string): set<string> {
    {TcpName(name), UdpName(name), TlsName(name)}
  }

  /** The name the pause commands for a forward address: as written, the name of the
      service whose report triggered the check, for every forward; corrected, the
      forward's own name. */
  datatype Naming = Reporting(name: string) | Own

  function NameFor(naming: Naming, uts: seq<UserTunnel>, f: Forward): string {
    match naming
    case Reporting(name) => name
    case Own => OwnServiceName(uts, f)
  }

  /** The commands the pause sends for one row of the table. */
  function ForwardCalls(tunnels: seq<Tunnel>, uts: seq<UserTunnel>, naming: Naming, f: Forward, s: Scope): seq<Call> {
    if InScope(f, s) then PauseForwardCalls(tunnels, f, NameFor(naming, uts, f)) else []
  }

  /** The commands a pause over `fs` sends, row by row in table order. */
  function ScopeCalls(fs: seq<Forward>, tunnels: seq<Tunnel>, uts: seq<UserTunnel>, naming: Naming, s: Scope): seq<Call> {
    Concat(PerForward(fs, tunnels, uts, naming, s), |fs|)
  }

  function PerForward(fs: seq<Forward>, tunnels: seq<Tunnel>, uts: seq<UserTunnel>, naming: Naming, s: Scope): (r: seq<seq<Call>>)
    ensures |r| == |fs|
    ensures forall k :: 0 <= k < |fs| ==> r[k] == ForwardCalls(tunnels, uts, naming, fs[k], s)
  {
    seq(|fs|, k requires 0 <= k < |fs| => ForwardCalls(tunnels, uts, naming, fs[k], s))
  }

  /** The forwards table after a pause over scope `s`. */
  function PauseRows(fs: seq<Forward>, tunnels: seq<Tunnel>, s: Scope): (r: seq<Forward>)
    ensures |r| == |fs|
    ensures forall k :: 0 <= k < |fs| ==> r[k] == PauseRow(tunnels, fs[k], s)
  {
    seq(|fs|, k requires 0 <= k < |fs| => PauseRow(tunnels, fs[k], s))
  }

  function PauseRow(tunnels: seq<Tunnel>, f: Forward, s: Scope): (g: Forward)
    ensures g.id == f.id && g.userId == f.userId && g.tunnelId == f.tunnelId
  {
    if InScope(f, s) then Stopped(tunnels, f) else f
  }

  /** A pause changes nothing but the status of forwards in scope whose tunnel exists, and
      leaves each of those paused. */
  lemma PauseRowsEffect(fs: seq<Forward>, tunnels: seq<Tunnel>, s: Scope)
    ensures forall k :: 0 <= k < |fs| ==> PauseRows(fs, tunnels, s)[k].(status := fs[k].status) == fs[k]
    ensures forall k :: 0 <= k < |fs| ==>
      (PauseRows(fs, tunnels, s)[k].status == 0 <==>
       fs[k].status == 0 || (InScope(fs[k], s) && FindTunnel(tunnels, fs[k].tunnelId).Some?))
  {
  }

  /** The two-fold case: a user whose forwards are on tunnels that exist.
      The commands sent under the reporting name address the reporting service for every
      forward: a second forward of the same account is "paused" by commands that reach
      none of its own artifacts, so it keeps running while its row says paused. */
  lemma ReportingNameReused()
    ensures
      var t := Tunnel(5, 1, "t", 10, "", 0, "", 1, 2, "tls", 100, "", "", "", 0, 0);
      var f1 := Forward(1, 1, 7, "u", "a", 5, 2001, 0, "1.1.1.1:80", "", "fifo", 0, 0);
      var f2 := Forward(2, 1, 7, "u", "b", 5, 2002, 0, "1.1.1.1:81", "", "fifo", 0, 0);
      var ut := UserTunnel(3, 7, 5, 0, 0, 0, 0, 0, 0, 0, 1);
      var calls := ScopeCalls([f1, f2], [t], [ut], Reporting(OwnServiceName([ut], f1)), AllOfUser(7));
      |calls| == 2 && calls[1] == Call(10, PauseServiceCmd(OwnServiceName([ut], f1))) &&
      Switches(calls[1].cmd) * Artifacts(OwnServiceName([ut], f2)) == {}
  {
    var t := Tunnel(5, 1, "t", 10, "", 0, "", 1, 2, "tls", 100, "", "", "", 0, 0);
    var f1 := Forward(1, 1, 7, "u", "a", 5, 2001, 0, "1.1.1.1:80", "", "fifo", 0, 0);
    var f2 := Forward(2, 1, 7, "u", "b", 5, 2002, 0, "1.1.1.1:81", "", "fifo", 0, 0);
    var ut := UserTunnel(3, 7, 5, 0, 0, 0, 0, 0, 0, 0, 1);
    var n1, n2 := OwnServiceName([ut], f1), OwnServiceName([ut], f2);
    assert n1 == "1_7_3" && n2 == "2_7_3";
    assert FindTunnel([t], 5) == Some(t);
    var per := PerForward([f1, f2], [t], [ut], Reporting(n1), AllOfUser(7));
    assert per[0] == [Call(10, PauseServiceCmd(n1))];
    assert per[1] == [Call(10, PauseServiceCmd(n1))];
    assert Concat(per, 2) == Concat(per, 1) + per[1];
    assert Switches(PauseServiceCmd(n1)) == {TcpName(n1), UdpName(n1)};
    ArtifactsDisjoint(n1, n2);
  }

  /** Each command sent for a forward switches some of the artifacts of the name it
      addresses and nothing else, and a forward in scope whose tunnel exists gets at least
      the entry pause. */
  lemma ForwardCallsNamed(tunnels: seq<Tunnel>, uts: seq<UserTunnel>, naming: Naming, f: Forward, s: Scope)
    ensures forall c :: c in ForwardCalls(tunnels, uts, naming, f, s) ==>
      Switches(c.cmd) != {} && Switches(c.cmd) <= Artifacts(NameFor(naming, uts, f))
    ensures ForwardCalls(tunnels, uts, naming, f, s) != [] <==> InScope(f, s) && FindTunnel(tunnels, f.tunnelId).Some?
  {
    var n := NameFor(naming, uts, f);
    assert Switches(PauseServiceCmd(n)) == {TcpName(n), UdpName(n)};
    assert Switches(PauseRemoteServiceCmd(n)) == {TlsName(n)};
  }

  /** Corrected: every command of a pause over a table acts only on the artifacts of a
      forward in scope. */
  lemma ScopeCallsOwn(fs: seq<Forward>, tunnels: seq<Tunnel>, uts: seq<UserTunnel>, s: Scope)
    ensures forall c :: c in ScopeCalls(fs, tunnels, uts, Own, s) ==>
      exists k :: 0 <= k < |fs| && InScope(fs[k], s) && Switches(c.cmd) <= Artifacts(OwnServiceName(uts, fs[k]))
  {
    var per := PerForward(fs, tunnels, uts, Own, s);
    forall c | c in ScopeCalls(fs, tunnels, uts, Own, s)
      ensures exists k :: 0 <= k < |fs| && InScope(fs[k], s) && Switches(c.cmd) <= Artifacts(OwnServiceName(uts, fs[k]))
    {
      ConcatMember(per, |fs|, c);
      var k :| 0 <= k < |fs| && c in per[k];
      ForwardCallsNamed(tunnels, uts, Own, fs[k], s);
    }
  }

  /** As written: every command of a pause over a table acts only on the artifacts of the
      reporting service, so a forward whose own name differs from it is never reached. */
  lemma ScopeCallsReporting(fs: seq<Forward>, tunnels: seq<Tunnel>, uts: seq<UserTunnel>, name: string, s: Scope, g: Forward)
    ensures forall c :: c in ScopeCalls(fs, tunnels, uts, Reporting(name), s) ==>
      Switches(c.cmd) != {} && Switches(c.cmd) <= Artifacts(name)
    ensures OwnServiceName(uts, g) != name ==>
      forall c :: c in ScopeCalls(fs, tunnels, uts, Reporting(name), s) ==>
        Switches(c.cmd) * Artifacts(OwnServiceName(uts, g)) == {}
  {
    var per := PerForward(fs, tunnels, uts, Reporting(name), s);
    forall c | c in ScopeCalls(fs, tunnels, uts, Reporting(name), s)
      ensures Switches(c.cmd) != {} && Switches(c.cmd) <= Artifacts(name)
    {
      ConcatMember(per, |fs|, c);
      var k :| 0 <= k < |fs| && c in per[k];
      ForwardCallsNamed(tunnels, uts, Reporting(name), fs[k], s);
    }
    if OwnServiceName(uts, g) != name {
      ArtifactsDisjoint(name, OwnServiceName(uts, g));
    }
  }

  /** Two different service names own disjoint artifacts. */
  lemma ArtifactsDisjoint(a: string, b: string)
    requires a != b
    ensures Artifacts(a) * Artifacts(b) == {}
  {
    forall x | x in Artifacts(a) && x in Artifacts(b)
      ensures false
    {
      var sa := if x == TcpName(a) then "_tcp" else if x == UdpName(a) then "_udp" else "_tls";
      var sb := if x == TcpName(b) then "_tcp" else if x == UdpName(b) then "_udp" else "_tls";
      SameStem(a, b, sa, sb);
    }
  }

  /** Names carrying suffixes of one length are equal only when their stems are. */
  lemma SameStem(a: string, b: string, sa: string, sb: string)
    requires |sa| == |sb| && a + sa == b + sb
    ensures a == b
  {
    assert a == (a + sa)[..|a|];
    assert b == (b + sb)[..|b|];
  }

  /** The commands of a pause do not depend on the status column, so a second pause after a
      first sends what it would have sent on the original table. */
  lemma ScopeCallsIgnoreStatus(fs: seq<Forward>, tunnels: seq<Tunnel>, uts: seq<UserTunnel>, naming: Naming, s1: Scope, s2: Scope)
    ensures ScopeCalls(PauseRows(fs, tunnels, s1), tunnels, uts, naming, s2) == ScopeCalls(fs, tunnels, uts, naming, s2)
  {
    var p := PauseRows(fs, tunnels, s1);
    assert PerForward(p, tunnels, uts, naming, s2) == PerForward(fs, tunnels, uts, naming, s2) by {
      forall k | 0 <= k < |fs|
        ensures ForwardCalls(tunnels, uts, naming, p[k], s2) == ForwardCalls(tunnels, uts, naming, fs[k], s2)
      {
        SameCalls(tunnels, uts, naming, fs[k], p[k], s2);
      }
    }
  }

  /** Forwards that differ at most in status get the same commands. */
  lemma SameCalls(tunnels: seq<Tunnel>, uts: seq<UserTunnel>, naming: Naming, f: Forward, g: Forward, s: Scope)
    requires g.id == f.id && g.userId == f.userId && g.tunnelId == f.tunnelId
    ensures ForwardCalls(tunnels, uts, naming, g, s) == ForwardCalls(tunnels, uts, naming, f, s)
  {
    assert NameFor(naming, uts, g) == NameFor(naming, uts, f);
  }

  /** A pause that nothing selects, and a pause repeated. */
  function PausedFor(fs: seq<Forward>, tunnels: seq<Tunnel>, s: Option<Scope>): seq<Forward> {
    if s.Some? then PauseRows(fs, tunnels, s.value) else fs
  }

  function CallsFor(fs: seq<Forward>, tunnels: seq<Tunnel>, uts: seq<UserTunnel>, naming: Naming, s: Option<Scope>): seq<Call> {
    if s.Some? then ScopeCalls(fs, tunnels, uts, naming, s.value) else []
  }

  /** Pausing twice over the same scope is pausing once. */
  lemma PauseRowsIdempotent(fs: seq<Forward>, tunnels: seq<Tunnel>, s: Scope)
    ensures PauseRows(PauseRows(fs, tunnels, s), tunnels, s) == PauseRows(fs, tunnels, s)
  {
  }

  /** The commands to the nodes of a forward's tunnel `t`. */
  function TunnelPauseCalls(t: Tunnel, name: string): seq<Call> {
    [Call(t.inNodeId, PauseServiceCmd(name))] +
    (if t.kind == 2 then [Call(t.outNodeId, PauseRemoteServiceCmd(name))] else [])
  }

  method SendPauses(agent: Agent, t: Tunnel, name: string)
    requires agent.Valid()
    modifies agent
    ensures agent.Valid()
    ensures agent.calls == old(agent.calls) + TunnelPauseCalls(t, name)
  {
    var entry, exit := Call(t.inNodeId, PauseServiceCmd(name)), Call(t.outNodeId, PauseRemoteServiceCmd(name));
    var _ := agent.Send(entry.nodeId, entry.cmd);
    if t.kind == 2 {
      var _ := agent.Send(exit.nodeId, exit.cmd);
      assert old(agent.calls) + [entry] + [exit] == old(agent.calls) + ([entry] + [exit]);
    }
  }

  /** `pauseForwardService(forward, name)`: replies are ignored, and the row it saves is
      paused whatever they are; nothing is sent or saved when the tunnel is missing. */
  method PauseForwardService(agent: Agent, tunnels: seq<Tunnel>, f: Forward, name: string) returns (saved: Forward)
    requires agent.Valid()
    modifies agent
    ensures agent.Valid()
    ensures agent.calls == old(agent.calls) + PauseForwardCalls(tunnels, f, name)
    ensures saved == Stopped(tunnels, f)
  {
    saved := f;
    var tunnel := FindTunnel(tunnels, f.tunnelId);
    if tunnel.None? {
      return;
    }
    SendPauses(agent, tunnel.value, name);
    saved := f.(status := 0);
  }

  /** `pauseAllUserForwards` / `pauseTunnelForwards`: every forward in scope, in table order,
      each addressed by the reporting service's name `name`. */
  method PauseForwards(db: Db, agent: Agent, s: Scope, name: string)
    requires agent.Valid()
    modifies db, agent
    ensures agent.Valid()
    ensures db.forwards == PauseRows(old(db.forwards), db.tunnels, s)
    ensures agent.calls == old(agent.calls) + ScopeCalls(old(db.forwards), db.tunnels, db.userTunnels, Reporting(name), s)
    ensures db.users == old(db.users) && db.userTunnels == old(db.userTunnels) && db.tunnels == old(db.tunnels)
    ensures db.nodes == old(db.nodes) && db.stats == old(db.stats)
  {
    var forwards, tunnels, uts := db.forwards, db.tunnels, db.userTunnels;
    forwards := PauseEach(agent, forwards, tunnels, uts, s, name);
    db.forwards := forwards;
  }

  /** The loop over the selected rows, each saved as `pauseForwardService` leaves it. */
  method PauseEach(agent: Agent, fs: seq<Forward>, tunnels: seq<Tunnel>, uts: seq<UserTunnel>, s: Scope, name: string) returns (out: seq<Forward>)
    requires agent.Valid()
    modifies agent
    ensures agent.Valid()
    ensures out == PauseRows(fs, tunnels, s)
    ensures agent.calls == old(agent.calls) + ScopeCalls(fs, tunnels, uts, Reporting(name), s)
  {
    ghost var per, rows := PerForward(fs, tunnels, uts, Reporting(name), s), PauseRows(fs, tunnels, s);
    out := [];
    var j := 0;
    while j < |fs|
      invariant 0 <= j <= |fs|
      invariant out == rows[..j]
      invariant agent.calls == old(agent.calls) + Concat(per, j)
      invariant agent.Valid()
    {
      var saved := PauseRowService(agent, tunnels, uts, fs[j], s, name);
      assert agent.calls == old(agent.calls) + Concat(per, j + 1) by {
        Assoc(old(agent.calls), Concat(per, j), per[j]);
      }
      assert out + [saved] == rows[..j + 1] by {
        Snoc(rows, j);
      }
      out := out + [saved];
      j := j + 1;
    }
    assert rows[..j] == rows;
  }

  /** One row of the loop: a forward the query selected is paused and saved; the others
      are not part of the query. */
  method PauseRowService(agent: Agent, tunnels: seq<Tunnel>, uts: seq<UserTunnel>, f: Forward, s: Scope, name: string) returns (saved: Forward)
    requires agent.Valid()
    modifies agent
    ensures agent.Valid()
    ensures agent.calls == old(agent.calls) + ForwardCalls(tunnels, uts, Reporting(name), f, s)
    ensures saved == PauseRow(tunnels, f, s)
  {
    saved := f;
    if InScope(f, s) {
      saved := PauseForwardService(agent, tunnels, f, name);
    }
  }

  /** The scope `checkUserLimits` pauses: the account the text id names, when it is over its
      limits. */
  function UserScope(users: seq<User>, id: int, now: int): Option<Scope> {
    match FindUser(users, id)
    case None => None
    case Some(u) => if UserOverLimit(u, now) then Some(AllOfUser(u.id)) else None
  }

  /** The scope `checkUserTunnelLimits` pauses: the permission's tunnel, for the account the
      report names (not necessarily the permission's own holder). */
  function UserTunnelScope(uts: seq<UserTunnel>, id: int, userId: string, now: int): Option<Scope> {
    match FindUserTunnelById(uts, id)
    case None => None
    case Some(ut) => if UserTunnelOverLimit(ut, now) then Some(UserOnTunnel(ut.tunnelId, Atoi(userId))) else None
  }

  /** `Where("id = ?", userId).First(&user)` with the id as text: the account the text
      spells, none for other text. */
  function UserCheck(users: seq<User>, userId: string, now: int): Option<Scope> {
    match Atoi(userId)
    case None => None
    case Some(id) => UserScope(users, id, now)
  }

  function UserTunnelCheck(uts: seq<UserTunnel>, userTunnelId: string, userId: string, now: int): Option<Scope> {
    match Atoi(userTunnelId)
    case None => None
    case Some(id) => UserTunnelScope(uts, id, userId, now)
  }

  /** `checkUserLimits(userId, serviceName)`. */
  method CheckUserLimits(db: Db, agent: Agent, userId: string, serviceName: string, now: int)
    requires agent.Valid()
    modifies db, agent
    ensures agent.Valid()
    ensures var s := UserCheck(db.users, userId, now);
      db.forwards == PausedFor(old(db.forwards), db.tunnels, s) &&
      agent.calls == old(agent.calls) + CallsFor(old(db.forwards), db.tunnels, db.userTunnels, Reporting(serviceName), s)
    ensures db.users == old(db.users) && db.userTunnels == old(db.userTunnels) && db.tunnels == old(db.tunnels)
    ensures db.nodes == old(db.nodes) && db.stats == old(db.stats)
  {
    var id := Atoi(userId);
    if id.None? {
      return;
    }
    var user := FindUser(db.users, id.value);
    if user.None? {
      return;
    }
    var u := user.value;
    var shouldPause := false;
    if u.flow > 0 && u.inFlow + u.outFlow >= u.flow * BytesToGb {
      shouldPause := true;
    }
    if u.expTime > 0 && u.expTime <= now {
      shouldPause := true;
    }
    if u.status != 1 {
      shouldPause := true;
    }
    if shouldPause {
      PauseForwards(db, agent, AllOfUser(u.id), serviceName);
    }
  }

  /** `checkUserTunnelLimits(userTunnelId, serviceName, userId)`. */
  method CheckUserTunnelLimits(db: Db, agent: Agent, userTunnelId: string, serviceName: string, userId: string, now: int)
    requires agent.Valid()
    modifies db, agent
    ensures agent.Valid()
    ensures var s := UserTunnelCheck(db.userTunnels, userTunnelId, userId, now);
      db.forwards == PausedFor(old(db.forwards), db.tunnels, s) &&
      agent.calls == old(agent.calls) + CallsFor(old(db.forwards), db.tunnels, db.userTunnels, Reporting(serviceName), s)
    ensures db.users == old(db.users) && db.userTunnels == old(db.userTunnels) && db.tunnels == old(db.tunnels)
    ensures db.nodes == old(db.nodes) && db.stats == old(db.stats)
  {
    var id := Atoi(userTunnelId);
    if id.None? {
      return;
    }
    var found := FindUserTunnelById(db.userTunnels, id.value);
    if found.None? {
      return;
    }
    var ut := found.value;
    var shouldPause := false;
    if ut.flow > 0 && ut.inFlow + ut.outFlow >= ut.flow * BytesToGb {
      shouldPause := true;
    }
    if ut.expTime > 0 && ut.expTime <= now {
      shouldPause := true;
    }
    if ut.status != 1 {
      shouldPause := true;
    }
    if shouldPause {
      PauseForwards(db, agent, UserOnTunnel(ut.tunnelId, Atoi(userId)), serviceName);
    }
  }

  // ---------------------------------------------------------------- one report

  /** The forward a report names: a name of at least three parts whose first part spells the
      forward's id. */
  function ReportedForward(forwards: seq<Forward>, n: string): (r: Option<Forward>)
    ensures r.Some? ==> |Split(n, '_')| >= 3 && Atoi(Split(n, '_')[0]) == Some(r.value.id) && r.value in forwards
  {
    var parts := Split(n, '_');
    if |parts| < 3 then None
    else
      match Atoi(parts[0])
      case None => None
      case Some(id) => FindForward(forwards, id)
  }

  /** `fmt.Sprintf("%s_%s_%s", forwardId, userId, userTunnelId)`: the name the limit checks
      pause under, the report's first three parts rejoined. */
  function CheckName(n: string): (s: string)
    requires |Split(n, '_')| >= 3
    ensures Split(s, '_') == Split(n, '_')[..3]
  {
    var parts := Split(n, '_');
    SplitThree(parts[0], parts[1], parts[2], '_');
    assert parts[0] + "_" + parts[1] + "_" + parts[2] == parts[0] + ['_'] + (parts[1] + ['_'] + parts[2]);
    assert parts[..3] == [parts[0], parts[1], parts[2]];
    parts[0] + "_" + parts[1] + "_" + parts[2]
  }

  /** A per-protocol report (`<service>_tcp`, `<service>_udp`) splits into the service
      name's three numbers and the protocol. */
  lemma ProtocolReportParts(forwardId: int, userId: int, utId: int, proto: string)
    requires InInt64(forwardId) && InInt64(userId) && InInt64(utId)
    requires '_' !in proto
    ensures Split(ServiceName(forwardId, userId, utId) + "_" + proto, '_') ==
      [IntToString(forwardId), IntToString(userId), IntToString(utId), proto]
  {
    var a, b, c := IntToString(forwardId), IntToString(userId), IntToString(utId);
    NoUnderscoreInNumber(forwardId);
    NoUnderscoreInNumber(userId);
    NoUnderscoreInNumber(utId);
    var u := b + ['_'] + (c + ['_'] + proto);
    SplitFour(a, b, c, proto, '_');
    var sn, x := ServiceName(forwardId, userId, utId), b + ['_'] + c;
    assert sn == (a + ['_']) + x;
    Assoc(sn, ['_'], proto);
    Assoc(a + ['_'], x, ['_'] + proto);
    Assoc(b + ['_'], c, ['_'] + proto);
    Assoc(c, ['_'], proto);
    Assoc(a, ['_'], u);
  }

  /** The check name of a per-protocol report, and of a bare service name, is the service
      name itself: the one `PauseService` addresses. */
  lemma ProtocolReportName(forwardId: int, userId: int, utId: int, proto: string)
    requires InInt64(forwardId) && InInt64(userId) && InInt64(utId)
    requires '_' !in proto
    ensures |Split(ServiceName(forwardId, userId, utId) + "_" + proto, '_')| == 4
    ensures |Split(ServiceName(forwardId, userId, utId), '_')| == 3
    ensures CheckName(ServiceName(forwardId, userId, utId) + "_" + proto) == ServiceName(forwardId, userId, utId)
    ensures CheckName(ServiceName(forwardId, userId, utId)) == ServiceName(forwardId, userId, utId)
  {
    var a, b, c := IntToString(forwardId), IntToString(userId), IntToString(utId);
    ProtocolReportParts(forwardId, userId, utId, proto);
    ServiceNameParts(forwardId, userId, utId);
    assert CheckName(ServiceName(forwardId, userId, utId) + "_" + proto) == a + "_" + b + "_" + c;
    assert CheckName(ServiceName(forwardId, userId, utId)) == a + "_" + b + "_" + c;
  }

  /** `First(&tunnel, id)` with the error ignored: a missing tunnel reads as the zero row
      (ratio 0, billing both ways, id 0). */
  const NoTunnel := Tunnel(0, 0, "", 0, "", 0, "", 0, 0, "", 0, "", "", "", 0, 0)

  function TunnelOrZero(tunnels: seq<Tunnel>, id: int): Tunnel {
    match FindTunnel(tunnels, id)
    case Some(t) => t
    case None => NoTunnel
  }

  /** The buffer calls a report makes, in order. Raw inbound is what the client downloaded. */
  function ReportOps(forwards: seq<Forward>, tunnels: seq<Tunnel>, r: FlowReport, nodeId: int, timeStr: string): seq<FlowBuffer.AddOp> {
    match ReportedForward(forwards, r.n)
    case None => []
    case Some(f) => ForwardOps(f, Split(r.n, '_')[2], TunnelOrZero(tunnels, f.tunnelId), r, nodeId, timeStr)
  }

  /** The buffer calls for a report that reached forward `f` on tunnel `t`, with permission
      text `utText`. */
  function ForwardOps(f: Forward, utText: string, t: Tunnel, r: FlowReport, nodeId: int, timeStr: string): seq<FlowBuffer.AddOp> {
    var b := Billing(r.d, r.u, t);
    var d := FlowBuffer.Agg(r.d, r.u, b.0, b.1);
    [FlowBuffer.AddForwardOp(f.id, d), FlowBuffer.AddUserOp(f.userId, d)] +
    (if utText != DefaultUserTunnelId then [FlowBuffer.AddUserTunnelOp(utText, d)] else []) +
    [FlowBuffer.AddNodeOp(nodeId, FlowBuffer.RawAgg(r.d, r.u)),
     FlowBuffer.AddHistoryOp(FlowBuffer.HistoryKey(timeStr, nodeId, f.id, f.userId, t.id), r.d, r.u, b.0 + b.1)]
  }

  /** The two checks a report runs: none for an unknown forward or a name without a
      permission part; otherwise the account and the permission the name spells. */
  function ReportChecks(forwards: seq<Forward>, users: seq<User>, uts: seq<UserTunnel>, r: FlowReport, now: int): (Option<Scope>, Option<Scope>) {
    if ReportedForward(forwards, r.n).None? then (None, None)
    else
      var parts := Split(r.n, '_');
      if parts[2] == DefaultUserTunnelId then (None, None)
      else (UserCheck(users, parts[1], now), UserTunnelCheck(uts, parts[2], parts[1], now))
  }

  /** The pause commands of a report's two checks, each sent under the report's check name. */
  function ReportCalls(fs: seq<Forward>, tunnels: seq<Tunnel>, uts: seq<UserTunnel>, n: string, checks: (Option<Scope>, Option<Scope>)): seq<Call> {
    if |Split(n, '_')| < 3 then []
    else CallsFor(fs, tunnels, uts, Reporting(CheckName(n)), checks.0) + CallsFor(fs, tunnels, uts, Reporting(CheckName(n)), checks.1)
  }

  lemma NoChecksNoCalls(fs: seq<Forward>, tunnels: seq<Tunnel>, uts: seq<UserTunnel>, n: string)
    ensures ReportCalls(fs, tunnels, uts, n, (None, None)) == []
  {
  }

  /** A name with fewer than three parts is dropped: no buffer call and no check. */
  lemma MalformedNameDropped(forwards: seq<Forward>, tunnels: seq<Tunnel>, users: seq<User>, uts: seq<UserTunnel>, r: FlowReport, nodeId: int, timeStr: string, now: int)
    requires |Split(r.n, '_')| < 3
    ensures ReportOps(forwards, tunnels, r, nodeId, timeStr) == []
    ensures ReportChecks(forwards, users, uts, r, now) == (None, None)
  {
  }

  /** The shape of a report's buffer calls: forward, account and node always; the
      permission exactly when the name carries one; the hour bucket billed both directions. */
  lemma ReportOpsShape(forwards: seq<Forward>, tunnels: seq<Tunnel>, r: FlowReport, nodeId: int, timeStr: string)
    requires ReportedForward(forwards, r.n).Some?
    ensures var f := ReportedForward(forwards, r.n).value;
      var t := TunnelOrZero(tunnels, f.tunnelId);
      var ops := ReportOps(forwards, tunnels, r, nodeId, timeStr);
      var hasUt := Split(r.n, '_')[2] != DefaultUserTunnelId;
      |ops| == (if hasUt then 5 else 4) &&
      ops[0].AddForwardOp? && ops[0].id == f.id && ops[0].d.rawIn == r.d && ops[0].d.rawOut == r.u &&
      ops[1] == FlowBuffer.AddUserOp(f.userId, ops[0].d) &&
      (hasUt ==> ops[2] == FlowBuffer.AddUserTunnelOp(Split(r.n, '_')[2], ops[0].d)) &&
      (forall k :: 0 <= k < |ops| ==> !ops[k].AddUserTunnelOp? || hasUt) &&
      ops[|ops| - 2] == FlowBuffer.AddNodeOp(nodeId, FlowBuffer.RawAgg(r.d, r.u)) &&
      ops[|ops| - 1].AddHistoryOp? && ops[|ops| - 1].billingFlow == ops[0].d.billingIn + ops[0].d.billingOut &&
      ops[|ops| - 1].hk == FlowBuffer.HistoryKey(timeStr, nodeId, f.id, f.userId, t.id)
  {
  }

  /** A report that carries a forward's own service name reaches that forward, credits its
      owner, names the owner's permission exactly when it has one, and checks that account
      and that permission. */
  lemma OwnNameReport(forwards: seq<Forward>, users: seq<User>, uts: seq<UserTunnel>, f: Forward, utId: int, r: FlowReport, now: int)
    requires FindForward(forwards, f.id) == Some(f)
    requires InInt64(f.id) && InInt64(f.userId) && InInt64(utId)
    requires r.n == ServiceName(f.id, f.userId, utId)
    ensures ReportedForward(forwards, r.n) == Some(f)
    ensures (Split(r.n, '_')[2] != DefaultUserTunnelId) <==> utId != 0
    ensures ReportChecks(forwards, users, uts, r, now) ==
      if utId == 0 then (None, None)
      else (UserScope(users, f.userId, now), UserTunnelScope(uts, utId, IntToString(f.userId), now))
  {
    NameParts(f.id, f.userId, utId);
    var parts := Split(r.n, '_');
    assert ReportedForward(forwards, r.n) == Some(f);
    if utId != 0 {
      assert UserCheck(users, parts[1], now) == UserScope(users, f.userId, now);
      assert UserTunnelCheck(uts, parts[2], parts[1], now) == UserTunnelScope(uts, utId, IntToString(f.userId), now);
    }
  }

  /** A service name splits back into its three numbers; its permission part is the
      default text exactly when the permission id is 0. */
  lemma NameParts(forwardId: int, userId: int, utId: int)
    requires InInt64(forwardId) && InInt64(userId) && InInt64(utId)
    ensures var parts := Split(ServiceName(forwardId, userId, utId), '_');
      parts == [IntToString(forwardId), IntToString(userId), IntToString(utId)] &&
      Atoi(parts[0]) == Some(forwardId) && Atoi(parts[1]) == Some(userId) && Atoi(parts[2]) == Some(utId) &&
      (parts[2] != DefaultUserTunnelId <==> utId != 0)
  {
    ServiceNameParts(forwardId, userId, utId);
    DefaultTextIsZero(utId);
  }

  lemma DefaultTextIsZero(v: int)
    requires InInt64(v)
    ensures IntToString(v) == DefaultUserTunnelId <==> v == 0
  {
    if v == 0 {
      assert IntToString(0) == DefaultUserTunnelId;
    } else {
      AtoiIntToString(v);
      assert Atoi(DefaultUserTunnelId) == Some(0);
    }
  }

  /** `processFlowData`, first half: the buffer calls. */
  method RecordReport(db: Db, buffer: FlowBuffer.Buffer, r: FlowReport, nodeId: int, timeStr: string)
    modifies buffer
    ensures buffer.Contents() == FlowBuffer.ApplyAll(old(buffer.Contents()), ReportOps(db.forwards, db.tunnels, r, nodeId, timeStr))
  {
    var found := ReportedForward(db.forwards, r.n);
    if found.None? {
      return;
    }
    RecordForward(buffer, found.value, Split(r.n, '_')[2], TunnelOrZero(db.tunnels, found.value.tunnelId), r, nodeId, timeStr);
  }

  /** The buffer calls for a report that reached forward `f`, in the order they are made. */
  method RecordForward(buffer: FlowBuffer.Buffer, f: Forward, userTunnelId: string, tunnel: Tunnel, r: FlowReport, nodeId: int, timeStr: string)
    modifies buffer
    ensures buffer.Contents() == FlowBuffer.ApplyAll(old(buffer.Contents()), ForwardOps(f, userTunnelId, tunnel, r, nodeId, timeStr))
  {
    var rawIn, rawOut := r.d, r.u;
    var billing := Billing(rawIn, rawOut, tunnel);
    var d := FlowBuffer.Agg(rawIn, rawOut, billing.0, billing.1);
    var hk := FlowBuffer.HistoryKey(timeStr, nodeId, f.id, f.userId, tunnel.id);
    ghost var b0 := old(buffer.Contents());
    ghost var op0, op1 := FlowBuffer.AddForwardOp(f.id, d), FlowBuffer.AddUserOp(f.userId, d);
    ghost var mid: seq<FlowBuffer.AddOp> := if userTunnelId != DefaultUserTunnelId then [FlowBuffer.AddUserTunnelOp(userTunnelId, d)] else [];
    ghost var op3 := FlowBuffer.AddNodeOp(nodeId, FlowBuffer.RawAgg(rawIn, rawOut));
    ghost var op4 := FlowBuffer.AddHistoryOp(hk, rawIn, rawOut, billing.0 + billing.1);
    assert ForwardOps(f, userTunnelId, tunnel, r, nodeId, timeStr) == [op0, op1] + mid + [op3, op4];

    buffer.AddForward(f.id, rawIn, rawOut, billing.0, billing.1);
    buffer.AddUser(f.userId, rawIn, rawOut, billing.0, billing.1);
    ghost var b1 := buffer.Contents();
    if userTunnelId != DefaultUserTunnelId {
      buffer.AddUserTunnel(userTunnelId, rawIn, rawOut, billing.0, billing.1);
      ApplyOne(b1, mid[0]);
    }
    ghost var b2 := buffer.Contents();
    buffer.AddNode(nodeId, rawIn, rawOut);
    buffer.AddHistory(timeStr, nodeId, f.id, f.userId, tunnel.id, rawIn, rawOut, billing.0 + billing.1);
    FiveCalls(b0, b1, b2, buffer.Contents(), op0, op1, mid, op3, op4);
  }

  /** The state after the report's calls, one group at a time, is the state after all of them. */
  lemma FiveCalls(b0: FlowBuffer.Buffers, b1: FlowBuffer.Buffers, b2: FlowBuffer.Buffers, b3: FlowBuffer.Buffers,
                  op0: FlowBuffer.AddOp, op1: FlowBuffer.AddOp, mid: seq<FlowBuffer.AddOp>, op3: FlowBuffer.AddOp, op4: FlowBuffer.AddOp)
    requires b1 == FlowBuffer.Apply(FlowBuffer.Apply(b0, op0), op1)
    requires b2 == FlowBuffer.ApplyAll(b1, mid)
    requires b3 == FlowBuffer.Apply(FlowBuffer.Apply(b2, op3), op4)
    ensures b3 == FlowBuffer.ApplyAll(b0, [op0, op1] + mid + [op3, op4])
  {
    ApplyPair(b0, op0, op1);
    ApplyPair(b2, op3, op4);
    FlowBuffer.ApplyAllConcat(b0, [op0, op1], mid);
    FlowBuffer.ApplyAllConcat(b0, [op0, op1] + mid, [op3, op4]);
  }

  lemma ApplyOne(b: FlowBuffer.Buffers, x: FlowBuffer.AddOp)
    ensures FlowBuffer.ApplyAll(b, [x]) == FlowBuffer.Apply(b, x)
  {
    assert [x][1..] == [];
  }

  lemma ApplyPair(b: FlowBuffer.Buffers, x: FlowBuffer.AddOp, y: FlowBuffer.AddOp)
    ensures FlowBuffer.ApplyAll(b, [x, y]) == FlowBuffer.Apply(FlowBuffer.Apply(b, x), y)
  {
    assert [x, y][1..] == [y] && [y][1..] == [];
    assert FlowBuffer.ApplyAll(b, [x, y]) == FlowBuffer.ApplyAll(FlowBuffer.Apply(b, x), [y]);
    assert FlowBuffer.ApplyAll(FlowBuffer.Apply(b, x), [y]) == FlowBuffer.ApplyAll(FlowBuffer.Apply(FlowBuffer.Apply(b, x), y), []);
  }

  /** `processFlowData`: the buffer calls, then, for a name with a permission part, the
      account check and the permission check, each pause addressed by the name rejoined
      from the report's first three parts. */
  method ProcessFlowData(db: Db, agent: Agent, buffer: FlowBuffer.Buffer, r: FlowReport, nodeId: int, now: int, timeStr: string)
    requires agent.Valid()
    modifies db, agent, buffer
    ensures agent.Valid()
    ensures buffer.Contents() == FlowBuffer.ApplyAll(old(buffer.Contents()), ReportOps(old(db.forwards), db.tunnels, r, nodeId, timeStr))
    ensures var checks := ReportChecks(old(db.forwards), db.users, db.userTunnels, r, now);
      db.forwards == PausedFor(PausedFor(old(db.forwards), db.tunnels, checks.0), db.tunnels, checks.1) &&
      agent.calls == old(agent.calls) + ReportCalls(old(db.forwards), db.tunnels, db.userTunnels, r.n, checks)
    ensures db.users == old(db.users) && db.userTunnels == old(db.userTunnels) && db.tunnels == old(db.tunnels)
    ensures db.nodes == old(db.nodes) && db.stats == old(db.stats)
  {
    RecordReport(db, buffer, r, nodeId, timeStr);
    if ReportedForward(db.forwards, r.n).None? {
      assert ReportChecks(db.forwards, db.users, db.userTunnels, r, now) == (None, None);
      NoChecksNoCalls(db.forwards, db.tunnels, db.userTunnels, r.n);
      return;
    }
    var parts := Split(r.n, '_');
    var serviceName := parts[0] + "_" + parts[1] + "_" + parts[2];
    assert serviceName == CheckName(r.n);
    if parts[2] == DefaultUserTunnelId {
      assert ReportChecks(db.forwards, db.users, db.userTunnels, r, now) == (None, None);
      NoChecksNoCalls(db.forwards, db.tunnels, db.userTunnels, r.n);
    } else {
      ghost var fs0, c0 := db.forwards, agent.calls;
      CheckUserLimits(db, agent, parts[1], serviceName, now);
      ghost var s1 := UserCheck(db.users, parts[1], now);
      ghost var fs1, c1 := db.forwards, agent.calls;
      CheckUserTunnelLimits(db, agent, parts[2], serviceName, parts[1], now);
      ghost var s2 := UserTunnelCheck(db.userTunnels, parts[2], parts[1], now);
      ghost var naming := Reporting(serviceName);
      if s1.Some? && s2.Some? {
        ScopeCallsIgnoreStatus(fs0, db.tunnels, db.userTunnels, naming, s1.value, s2.value);
      }
      ghost var x1, x2 := CallsFor(fs0, db.tunnels, db.userTunnels, naming, s1), CallsFor(fs0, db.tunnels, db.userTunnels, naming, s2);
      assert c1 == c0 + x1;
      assert agent.calls == c1 + x2;
      Assoc(c0, x1, x2);
      assert ReportChecks(fs0, db.users, db.userTunnels, r, now) == (s1, s2);
      assert ReportCalls(fs0, db.tunnels, db.userTunnels, r.n, (s1, s2)) ==
        CallsFor(fs0, db.tunnels, db.userTunnels, naming, s1) + CallsFor(fs0, db.tunnels, db.userTunnels, naming, s2);
    }
  }
}
