/** The forward service's request handlers (go-backend/service/forward_service.go):
    `CreateForward`'s admission checks, port allocation, self-loop guard and rollback when
    the agents refuse the services; `DeleteForward`; and `PauseForward`/`ResumeForward`,
    which switch the forward's services and undo the entry side when the exit side fails. */
module ForwardService {
  import opened Wrappers
  import opened Strs
  import opened Model
  import opened GostUtil
  import opened ForwardGost
  import opened ForwardPorts
  import FlowController

  const ForwardMissing: string := "转发不存在"
  const TunnelMissing: string := "隧道不存在"
  const TunnelDisabled: string := "隧道已禁用"
  const NoSuchUser: string := "指定用户不存在"
  const UserAbnormal: string := "用户异常"
  const UserDisabled: string := "用户已禁用"
  const AccountExpired: string := "账号已过期"
  const NoPermission: string := "该用户没有该隧道权限"
  const PermissionDisabled: string := "用户隧道权限已禁用"
  const SyncFailed: string := "Gost服务创建失败: "
  const CreateOk: string := "端口转发创建成功"

  /** The caller's token claims: the account id (the token subject), its name and role;
      role 0 is the administrator. */
  datatype Claims = Claims(userId: int, user: string, roleId: int)

  /** A create request. `outPort` is read by `CreateForward` but not declared on the
      request struct; 0 means "not given". */
  datatype ForwardDto = ForwardDto(
    tunnelId: int, name: string, remoteAddr: string, inPort: Option<int>,
    interfaceName: string, strategy: string, userId: Option<int>, outPort: int)

  /** What a handler answers: `result.Ok(msg)` or `result.Err(-1, msg)`. */
  datatype Outcome = Ok(msg: string) | Err(msg: string)

  /** The tables the handlers read. */
  datatype Snapshot = Snapshot(
    users: seq<User>, userTunnels: seq<UserTunnel>, tunnels: seq<Tunnel>, nodes: seq<Node>, forwards: seq<Forward>)

  function Snap(db: Db): Snapshot
    reads db
  {
    Snapshot(db.users, db.userTunnels, db.tunnels, db.nodes, db.forwards)
  }

  /** What a handler does: its answer, the forward table afterwards and the agent requests
      it sent, in order. */
  datatype Effect = Effect(out: Outcome, forwards: seq<Forward>, reqs: seq<Req>)

  // ---------------------------------------------------------------- forward rows

  /** The number of forwards a user owns (`Count` on `user_id`). */
  function CountOwned(forwards: seq<Forward>, userId: int): (n: nat)
    ensures n <= |forwards|
    ensures n == 0 <==> forall k :: 0 <= k < |forwards| ==> forwards[k].userId != userId
  {
    if |forwards| == 0 then 0
    else (if forwards[0].userId == userId then 1 else 0) + CountOwned(forwards[1..], userId)
  }

  /** The id the database gives a new forward: above every id in the table. */
  function NextId(forwards: seq<Forward>): (r: int)
    ensures forall k :: 0 <= k < |forwards| ==> forwards[k].id < r
  {
    if |forwards| == 0 then 1
    else
      var rest := NextId(forwards[1..]);
      if forwards[0].id >= rest then forwards[0].id + 1 else rest
  }

  /** `DB.Delete(&forward)`: every row with that primary key goes. */
  function Without(forwards: seq<Forward>, id: int): (r: seq<Forward>)
    ensures |r| <= |forwards|
    ensures forall g :: g in r <==> g in forwards && g.id != id
  {
    if |forwards| == 0 then []
    else if forwards[0].id == id then Without(forwards[1..], id)
    else [forwards[0]] + Without(forwards[1..], id)
  }

  /** `DB.Save(&row)`: the row with that primary key is overwritten. */
  function Saved(forwards: seq<Forward>, row: Forward): seq<Forward> {
    seq(|forwards|, k requires 0 <= k < |forwards| => if forwards[k].id == row.id then row else forwards[k])
  }

  /** Saving a row replaces the row with its id and touches no other. */
  lemma SavedTouchesOneRow(forwards: seq<Forward>, row: Forward)
    ensures |Saved(forwards, row)| == |forwards|
    ensures forall k :: 0 <= k < |forwards| && forwards[k].id != row.id ==> Saved(forwards, row)[k] == forwards[k]
    ensures FindForward(forwards, row.id).Some? ==> FindForward(Saved(forwards, row), row.id) == Some(row)
    ensures FindForward(forwards, row.id).None? ==> Saved(forwards, row) == forwards
  {
    var r := Saved(forwards, row);
    if FindForward(forwards, row.id).Some? {
      var k :| 0 <= k < |forwards| && forwards[k].id == row.id;
      assert r[k] == row;
      FirstRowSaved(forwards, row);
    } else {
      assert forall k :: 0 <= k < |forwards| ==> r[k] == forwards[k];
    }
  }

  lemma {:induction false} FirstRowSaved(forwards: seq<Forward>, row: Forward)
    requires FindForward(forwards, row.id).Some?
    ensures FindForward(Saved(forwards, row), row.id) == Some(row)
    decreases |forwards|
  {
    if forwards[0].id != row.id {
      assert Saved(forwards, row)[1..] == Saved(forwards[1..], row);
      FirstRowSaved(forwards[1..], row);
    }
  }

  /** Deleting the id of a row just appended to a table whose ids are all smaller gives the
      table back. */
  lemma {:induction false} WithoutFresh(forwards: seq<Forward>, row: Forward)
    requires forall k :: 0 <= k < |forwards| ==> forwards[k].id < row.id
    ensures Without(forwards + [row], row.id) == forwards
    decreases |forwards|
  {
    if |forwards| == 0 {
      assert forwards + [row] == [row];
      assert [row][1..] == [];
    } else {
      assert (forwards + [row])[1..] == forwards[1..] + [row];
      WithoutFresh(forwards[1..], row);
      assert [forwards[0]] + forwards[1..] == forwards;
    }
  }

  // ---------------------------------------------------------------- create: admission

  /** The account a new forward is made for. */
  datatype Owner = Owner(id: int, name: string, roleId: int)

  /** Only the administrator may name another account; anyone else creates for themself. */
  function Target(users: seq<User>, dto: ForwardDto, caller: Claims): (r: Result<Owner, string>)
    ensures caller.roleId != 0 || dto.userId.None? ==> r == Success(Owner(caller.userId, caller.user, caller.roleId))
    ensures caller.roleId == 0 && dto.userId.Some? ==>
      (r.Success? <==> FindUser(users, dto.userId.value).Some?) && (r.Success? ==> r.value.id == dto.userId.value)
  {
    if caller.roleId == 0 && dto.userId.Some? then
      match FindUser(users, dto.userId.value)
      case None => Failure(NoSuchUser)
      case Some(u) => Success(Owner(dto.userId.value, u.name, u.roleId))
    else Success(Owner(caller.userId, caller.user, caller.roleId))
  }

  function CapReached(num: int): string {
    "转发数量已达上限(" + IntToString(num) + "个)"
  }

  /** The limits a non-administrator owner must pass: the account exists, is active and not
      expired, owns fewer forwards than its cap (0 for none), and holds an active permission
      on the tunnel, whose speed limit the forward then gets. */
  function Limits(s: Snapshot, owner: Owner, tunnelId: int, now: int): Result<Option<UserTunnel>, string> {
    if owner.roleId == 0 then Success(None)
    else
      match FindUser(s.users, owner.id)
      case None => Failure(UserAbnormal)
      case Some(u) =>
        if u.status != 1 then Failure(UserDisabled)
        else if u.expTime > 0 && u.expTime <= now then Failure(AccountExpired)
        else if u.num > 0 && CountOwned(s.forwards, owner.id) >= u.num then Failure(CapReached(u.num))
        else
          match FindUserTunnel(s.userTunnels, owner.id, tunnelId)
          case None => Failure(NoPermission)
          case Some(ut) => if ut.status != 1 then Failure(PermissionDisabled) else Success(Some(ut))
  }

  /** What the checks before the allocation settle. */
  datatype Admitted = Admitted(tunnel: Tunnel, owner: Owner, ut: Option<UserTunnel>)

  /** The tunnel must exist and be active, the owner must resolve and pass the limits. */
  function Admission(s: Snapshot, dto: ForwardDto, caller: Claims, now: int): Result<Admitted, string> {
    match FindTunnel(s.tunnels, dto.tunnelId)
    case None => Failure(TunnelMissing)
    case Some(t) =>
      if t.status != 1 then Failure(TunnelDisabled)
      else
        match Target(s.users, dto, caller)
        case Failure(e) => Failure(e)
        case Success(owner) =>
          match Limits(s, owner, dto.tunnelId, now)
          case Failure(e) => Failure(e)
          case Success(ut) => Success(Admitted(t, owner, ut))
  }

  /** An account in good standing for a new forward: active, unexpired and under its cap. */
  predicate InGoodStanding(u: User, forwards: seq<Forward>, now: int) {
    u.status == 1 && (u.expTime <= 0 || u.expTime > now) && (u.num <= 0 || CountOwned(forwards, u.id) < u.num)
  }

  /** Whether `owner` may open a forward on the tunnel: an administrator always, anyone else
      with an account in good standing and an active permission on the tunnel. */
  predicate MayOpen(s: Snapshot, owner: Owner, tunnelId: int, now: int) {
    owner.roleId == 0 ||
    (FindUser(s.users, owner.id).Some? && InGoodStanding(FindUser(s.users, owner.id).value, s.forwards, now) &&
     FindUserTunnel(s.userTunnels, owner.id, tunnelId).Some? &&
     FindUserTunnel(s.userTunnels, owner.id, tunnelId).value.status == 1)
  }

  /** The checks admit a request exactly when the tunnel is active, the owner resolves and
      may open a forward there; an admitted non-administrator owner brings their permission
      on the tunnel, an administrator none. */
  lemma AdmissionIff(s: Snapshot, dto: ForwardDto, caller: Claims, now: int)
    ensures Admission(s, dto, caller, now).Success? <==>
      FindTunnel(s.tunnels, dto.tunnelId).Some? && FindTunnel(s.tunnels, dto.tunnelId).value.status == 1 &&
      Target(s.users, dto, caller).Success? && MayOpen(s, Target(s.users, dto, caller).value, dto.tunnelId, now)
    ensures Admission(s, dto, caller, now).Success? ==>
      var a := Admission(s, dto, caller, now).value;
      a.tunnel.id == dto.tunnelId &&
      (a.owner.roleId == 0 <==> a.ut.None?) &&
      (a.ut.Some? ==> a.ut.value.userId == a.owner.id && a.ut.value.tunnelId == dto.tunnelId && a.ut.value.status == 1)
  {
    if FindTunnel(s.tunnels, dto.tunnelId).Some? && Target(s.users, dto, caller).Success? {
      var owner := Target(s.users, dto, caller).value;
      if owner.roleId != 0 && FindUser(s.users, owner.id).Some? {
        assert FindUser(s.users, owner.id).value.id == owner.id;
      }
    }
  }

  /** `specifiedOutPort` is only set for a non-zero request. */
  function SpecOut(dto: ForwardDto): Option<int> {
    if dto.outPort != 0 then Some(dto.outPort) else None
  }

  /** The speed limit of the forward: its owner's permission's, none for an administrator. */
  function Limiter(ut: Option<UserTunnel>): Option<int> {
    if ut.Some? then Some(ut.value.speedId) else None
  }

  /** The new row, active from the start. */
  function NewRow(id: int, owner: Owner, dto: ForwardDto, ports: PortAlloc): Forward {
    Forward(id, 1, owner.id, owner.name, dto.name, dto.tunnelId, ports.inPort, ports.outPort,
      dto.remoteAddr, dto.interfaceName, dto.strategy, 0, 0)
  }

  /** The self-loop guard on the request's targets and the tunnel's entry addresses. */
  function LoopCheck(dto: ForwardDto, t: Tunnel, inPort: int): Option<string> {
    LoopbackError(AddressTargets(Split(dto.remoteAddr, ',')), InIpSet(Split(t.inIp, ',')), inPort)
  }

  /** How far a request gets before anything is written: refused with a message, or ready
      with its admission and its ports. */
  datatype Stage = Refused(msg: string) | Ready(a: Admitted, ports: PortAlloc)

  /** The checks, the port allocation and the self-loop guard of a create. */
  function Prepare(s: Snapshot, dto: ForwardDto, caller: Claims, now: int): Stage {
    match Admission(s, dto, caller, now)
    case Failure(e) => Refused(e)
    case Success(a) =>
      match Allocation(s.nodes, s.tunnels, s.forwards, a.tunnel, dto.inPort, SpecOut(dto), None)
      case Failure(e) => Refused(e)
      case Success(ports) =>
        match LoopCheck(dto, a.tunnel, ports.inPort)
        case Some(e) => Refused(e)
        case None => Ready(a, ports)
  }

  /** `CreateForward(dto, ctxUser)` against the tables `s`, the clock `now` and the reply
      script `rs`; `skipSync` is the service's switch that leaves the agents alone. */
  function CreateEffect(s: Snapshot, dto: ForwardDto, caller: Claims, now: int, skipSync: bool, rs: seq<string>): Effect {
    match Prepare(s, dto, caller, now)
    case Refused(e) => Effect(Err(e), s.forwards, [])
    case Ready(a, ports) => Commit(s.forwards, s.nodes, NewRow(NextId(s.forwards), a.owner, dto, ports), a, skipSync, rs)
  }

  /** The row is saved, then its services are created; when that fails the row is deleted
      again. */
  function Commit(forwards: seq<Forward>, nodes: seq<Node>, row: Forward, a: Admitted, skipSync: bool, rs: seq<string>): Effect {
    if skipSync then Effect(Ok(CreateOk), forwards + [row], [])
    else
      var run := CreateRun(nodes, row, a.tunnel, Limiter(a.ut), UtId(a.ut), rs);
      if run.err.Some? then Effect(Err(SyncFailed + run.err.value), Without(forwards + [row], row.id), run.reqs)
      else Effect(Ok(CreateOk), forwards + [row], run.reqs)
  }

  /** A successful create appends one active row with a fresh id, for the caller unless an
      administrator named another account, on the requested tunnel. */
  lemma CreateAppendsRow(s: Snapshot, dto: ForwardDto, caller: Claims, now: int, skipSync: bool, rs: seq<string>)
    requires CreateEffect(s, dto, caller, now, skipSync, rs).out.Ok?
    ensures Prepare(s, dto, caller, now).Ready?
    ensures var p := Prepare(s, dto, caller, now);
      var row := NewRow(NextId(s.forwards), p.a.owner, dto, p.ports);
      CreateEffect(s, dto, caller, now, skipSync, rs).forwards == s.forwards + [row] &&
      row.status == 1 && row.tunnelId == dto.tunnelId &&
      (forall k :: 0 <= k < |s.forwards| ==> s.forwards[k].id < row.id) &&
      row.userId == (if caller.roleId == 0 && dto.userId.Some? then dto.userId.value else caller.userId)
  {
    var p := Prepare(s, dto, caller, now);
    assert p.a.owner == Target(s.users, dto, caller).value;
    CommitKeepsRow(s.forwards, s.nodes, NewRow(NextId(s.forwards), p.a.owner, dto, p.ports), p.a, skipSync, rs);
  }

  /** A request that passes the checks gets an entry port free on the entry node, an exit
      port free on the exit node of a tunnel forward (equal to the entry port otherwise) and
      the requested entry port when it named one; no target loops back onto the entry port,
      and its owner may open a forward on the active tunnel. */
  lemma CreateRowSound(s: Snapshot, dto: ForwardDto, caller: Claims, now: int)
    requires Prepare(s, dto, caller, now).Ready?
    ensures FindTunnel(s.tunnels, dto.tunnelId).Some? && Target(s.users, dto, caller).Success?
    ensures var t, p := FindTunnel(s.tunnels, dto.tunnelId).value, Prepare(s, dto, caller, now);
      var ts := AddressTargets(Split(dto.remoteAddr, ','));
      t.status == 1 && p.a.tunnel == t && p.a.owner == Target(s.users, dto, caller).value &&
      Free(s.nodes, s.tunnels, s.forwards, t.inNodeId, p.ports.inPort, None) &&
      (t.kind == 2 ==> Free(s.nodes, s.tunnels, s.forwards, t.outNodeId, p.ports.outPort, None)) &&
      (t.kind != 2 ==> p.ports.outPort == p.ports.inPort) &&
      (dto.inPort.Some? ==> p.ports.inPort == dto.inPort.value) &&
      (forall k :: 0 <= k < |ts| ==> !Hits(ts[k], InIpSet(Split(t.inIp, ',')), p.ports.inPort)) &&
      MayOpen(s, p.a.owner, dto.tunnelId, now)
  {
    AdmissionIff(s, dto, caller, now);
    var p := Prepare(s, dto, caller, now);
    LoopbackNamesFirstHit(AddressTargets(Split(dto.remoteAddr, ',')), InIpSet(Split(p.a.tunnel.inIp, ',')), p.ports.inPort);
  }

  /** A successful commit ends with the new row. */
  lemma CommitKeepsRow(forwards: seq<Forward>, nodes: seq<Node>, row: Forward, a: Admitted, skipSync: bool, rs: seq<string>)
    requires Commit(forwards, nodes, row, a, skipSync, rs).out.Ok?
    ensures Commit(forwards, nodes, row, a, skipSync, rs).forwards == forwards + [row]
  {
  }

  /** A create that synchronised the agents installed exactly the forward's services, named
      after the new row, its owner and the owner's permission on the tunnel (0 for an
      administrator), and removed nothing. */
  lemma CreateInstallsServices(s: Snapshot, dto: ForwardDto, caller: Claims, now: int, rs: seq<string>)
    requires CreateEffect(s, dto, caller, now, false, rs).out.Ok?
    ensures Prepare(s, dto, caller, now).Ready?
    ensures var p := Prepare(s, dto, caller, now);
      var reqs := CreateEffect(s, dto, caller, now, false, rs).reqs;
      RequiredNodes(s.nodes, p.a.tunnel).Success? &&
      Created(reqs) == Installed(RequiredNodes(s.nodes, p.a.tunnel).value,
        ServiceName(NextId(s.forwards), p.a.owner.id, UtId(p.a.ut))) &&
      Removed(reqs) == {}
  {
    var p := Prepare(s, dto, caller, now);
    var row := NewRow(NextId(s.forwards), p.a.owner, dto, p.ports);
    CommitInstalls(s.forwards, s.nodes, row, p.a, rs);
  }

  /** A synchronised commit that succeeded installed the row's services and removed nothing. */
  lemma CommitInstalls(forwards: seq<Forward>, nodes: seq<Node>, row: Forward, a: Admitted, rs: seq<string>)
    requires Commit(forwards, nodes, row, a, false, rs).out.Ok?
    ensures RequiredNodes(nodes, a.tunnel).Success?
    ensures var reqs := Commit(forwards, nodes, row, a, false, rs).reqs;
      Created(reqs) == Installed(RequiredNodes(nodes, a.tunnel).value, ServiceName(row.id, row.userId, UtId(a.ut))) &&
      Removed(reqs) == {}
  {
    CreateInstalls(nodes, row, a.tunnel, Limiter(a.ut), UtId(a.ut), rs);
  }

  /** A failed commit deletes the row it saved and leaves nothing installed behind. */
  lemma CommitRollsBack(forwards: seq<Forward>, nodes: seq<Node>, row: Forward, a: Admitted, skipSync: bool, rs: seq<string>)
    requires Commit(forwards, nodes, row, a, skipSync, rs).out.Err?
    requires forall k :: 0 <= k < |forwards| ==> forwards[k].id < row.id
    ensures Commit(forwards, nodes, row, a, skipSync, rs).forwards == forwards
    ensures Compensated(Commit(forwards, nodes, row, a, skipSync, rs).reqs, rs)
  {
    WithoutFresh(forwards, row);
    var ep := RequiredNodes(nodes, a.tunnel);
    if ep.Success? {
      CreateCompensates(ep.value, ServiceName(row.id, row.userId, UtId(a.ut)), row, a.tunnel, Limiter(a.ut), rs);
    }
  }

  /** A refused or failed create leaves the forward table as it was, and whatever the agents
      installed on the way is removed again by a later request. */
  lemma CreateFailureLeavesNothing(s: Snapshot, dto: ForwardDto, caller: Claims, now: int, skipSync: bool, rs: seq<string>)
    requires CreateEffect(s, dto, caller, now, skipSync, rs).out.Err?
    ensures CreateEffect(s, dto, caller, now, skipSync, rs).forwards == s.forwards
    ensures Compensated(CreateEffect(s, dto, caller, now, skipSync, rs).reqs, rs)
  {
    var p := Prepare(s, dto, caller, now);
    if p.Ready? {
      CommitRollsBack(s.forwards, s.nodes, NewRow(NextId(s.forwards), p.a.owner, dto, p.ports), p.a, skipSync, rs);
    }
  }

  /** A non-administrator's forward count reaching the cap is refused with the cap in the
      message, before any port is allocated or any agent is asked. */
  lemma CapRefused(s: Snapshot, dto: ForwardDto, caller: Claims, now: int, skipSync: bool, rs: seq<string>, u: User)
    requires caller.roleId != 0
    requires FindTunnel(s.tunnels, dto.tunnelId).Some? && FindTunnel(s.tunnels, dto.tunnelId).value.status == 1
    requires FindUser(s.users, caller.userId) == Some(u)
    requires u.status == 1 && (u.expTime <= 0 || u.expTime > now)
    requires u.num > 0 && CountOwned(s.forwards, caller.userId) >= u.num
    ensures CreateEffect(s, dto, caller, now, skipSync, rs) == Effect(Err(CapReached(u.num)), s.forwards, [])
  {
  }

  // ---------------------------------------------------------------- create: the handler

  /** `CreateForward`. */
  method CreateForward(db: Db, agent: Agent, dto: ForwardDto, caller: Claims, now: int, skipSync: bool)
    returns (out: Outcome)
    requires agent.Valid()
    modifies db, agent
    ensures agent.Valid()
    ensures var e := CreateEffect(old(Snap(db)), dto, caller, now, skipSync, old(agent.replies));
      out == e.out && db.forwards == e.forwards &&
      agent.calls == old(agent.calls) + Sent(e.reqs) && agent.replies == Drop(old(agent.replies), |e.reqs|)
    ensures db.users == old(db.users) && db.userTunnels == old(db.userTunnels) && db.tunnels == old(db.tunnels)
    ensures db.nodes == old(db.nodes) && db.stats == old(db.stats)
  {
    NothingSent(agent.calls, agent.replies);
    var st := Check(db, dto, caller, now);
    if st.Refused? {
      return Err(st.msg);
    }
    var row := NewRow(NextId(db.forwards), st.a.owner, dto, st.ports);
    out := Insert(db, agent, row, st.a, skipSync);
  }

  /** The checks of `CreateForward` up to the row: admission, ports and the self-loop guard. */
  method Check(db: Db, dto: ForwardDto, caller: Claims, now: int) returns (st: Stage)
    ensures st == Prepare(Snap(db), dto, caller, now)
  {
    var adm := Admission(Snap(db), dto, caller, now);
    if adm.Failure? {
      return Refused(adm.error);
    }
    var a := adm.value;
    var ports := AllocatePorts(db.nodes, db.tunnels, db.forwards, a.tunnel, dto.inPort, SpecOut(dto), None);
    if ports.Failure? {
      return Refused(ports.error);
    }
    var loop := CheckLoopbackAddress(dto.remoteAddr, a.tunnel, ports.value.inPort);
    if loop.Some? {
      return Refused(loop.value);
    }
    return Ready(a, ports.value);
  }

  /** Saves the row, then creates its services and deletes the row again when that fails. */
  method Insert(db: Db, agent: Agent, row: Forward, a: Admitted, skipSync: bool) returns (out: Outcome)
    requires agent.Valid()
    modifies db, agent
    ensures agent.Valid()
    ensures var e := Commit(old(db.forwards), old(db.nodes), row, a, skipSync, old(agent.replies));
      out == e.out && db.forwards == e.forwards &&
      agent.calls == old(agent.calls) + Sent(e.reqs) && agent.replies == Drop(old(agent.replies), |e.reqs|)
    ensures db.users == old(db.users) && db.userTunnels == old(db.userTunnels) && db.tunnels == old(db.tunnels)
    ensures db.nodes == old(db.nodes) && db.stats == old(db.stats)
  {
    NothingSent(agent.calls, agent.replies);
    db.forwards := db.forwards + [row];
    if !skipSync {
      var err := CreateGostServices(agent, db.nodes, row, a.tunnel, Limiter(a.ut), UtId(a.ut));
      if err.Some? {
        db.forwards := Without(db.forwards, row.id);
        return Err(SyncFailed + err.value);
      }
    }
    return Ok(CreateOk);
  }

  lemma NothingSent(calls: seq<Call>, rs: seq<string>)
    ensures calls + Sent([]) == calls && Drop(rs, 0) == rs
  {
  }

  // ---------------------------------------------------------------- delete

  /** The service name of a forward: its permission on the tunnel is looked up by owner and
      tunnel, and a missing one counts as id 0. */
  function NameOf(uts: seq<UserTunnel>, f: Forward, t: Tunnel): string {
    ServiceName(f.id, f.userId, UtId(FindUserTunnel(uts, f.userId, t.id)))
  }

  /** Only the administrator may act on another account's forward. */
  predicate Permitted(caller: Claims, f: Forward) {
    caller.roleId == 0 || f.userId == caller.userId
  }

  /** `DeleteForward(id, ctxUser)`: a forward whose tunnel is gone is deleted without asking
      the agents; otherwise the row goes only once the entry service is deleted. */
  function DeleteEffect(s: Snapshot, id: int, caller: Claims, rs: seq<string>): Effect {
    match FindForward(s.forwards, id)
    case None => Effect(Err(ForwardMissing), s.forwards, [])
    case Some(f) =>
      if !Permitted(caller, f) then Effect(Err("无权删除此转发"), s.forwards, [])
      else
        match FindTunnel(s.tunnels, f.tunnelId)
        case None => Effect(Ok("转发已删除"), Without(s.forwards, f.id), [])
        case Some(t) =>
          var run := DeleteRun(s.nodes, f, t, UtId(FindUserTunnel(s.userTunnels, f.userId, t.id)), rs);
          if run.err.Some? then Effect(Err("Gost服务删除失败: " + run.err.value), s.forwards, run.reqs)
          else Effect(Ok("删除成功"), Without(s.forwards, f.id), run.reqs)
  }

  /** A delete succeeds exactly when the forward exists, the caller may act on it, and its
      tunnel is gone or the agents delete its entry service; then every row with that id is
      gone and nothing else, otherwise the table is unchanged. It never creates anything, and
      when both nodes are known it removes exactly what the create installed. */
  lemma DeleteRemovesRow(s: Snapshot, id: int, caller: Claims, rs: seq<string>)
    ensures var e := DeleteEffect(s, id, caller, rs);
      e.out.Ok? <==>
        FindForward(s.forwards, id).Some? && Permitted(caller, FindForward(s.forwards, id).value) &&
        (FindTunnel(s.tunnels, FindForward(s.forwards, id).value.tunnelId).None? ||
         RequiredNodes(s.nodes, FindTunnel(s.tunnels, FindForward(s.forwards, id).value.tunnelId).value).Failure? ||
         Reply(rs, 0) == "OK")
    ensures var e := DeleteEffect(s, id, caller, rs);
      (e.out.Ok? ==> e.forwards == Without(s.forwards, id)) && (e.out.Err? ==> e.forwards == s.forwards)
    ensures Created(DeleteEffect(s, id, caller, rs).reqs) == {}
    ensures var e := DeleteEffect(s, id, caller, rs);
      e.out.Ok? && e.reqs != [] ==>
        var f := FindForward(s.forwards, id).value;
        var t := FindTunnel(s.tunnels, f.tunnelId).value;
        Removed(e.reqs) == Installed(RequiredNodes(s.nodes, t).value, NameOf(s.userTunnels, f, t))
  {
    var found := FindForward(s.forwards, id);
    if found.Some? && Permitted(caller, found.value) {
      var f := found.value;
      var tunnel := FindTunnel(s.tunnels, f.tunnelId);
      if tunnel.Some? {
        var ep := RequiredNodes(s.nodes, tunnel.value);
        if ep.Success? {
          DeleteUndoesCreate(ep.value, NameOf(s.userTunnels, f, tunnel.value), rs);
        }
      }
    }
  }

  /** `DeleteForward`. */
  method DeleteForward(db: Db, agent: Agent, id: int, caller: Claims) returns (out: Outcome)
    requires agent.Valid()
    modifies db, agent
    ensures agent.Valid()
    ensures var e := DeleteEffect(old(Snap(db)), id, caller, old(agent.replies));
      out == e.out && db.forwards == e.forwards &&
      agent.calls == old(agent.calls) + Sent(e.reqs) && agent.replies == Drop(old(agent.replies), |e.reqs|)
    ensures db.users == old(db.users) && db.userTunnels == old(db.userTunnels) && db.tunnels == old(db.tunnels)
    ensures db.nodes == old(db.nodes) && db.stats == old(db.stats)
  {
    NothingSent(agent.calls, agent.replies);
    var found := FindForward(db.forwards, id);
    if found.None? {
      return Err(ForwardMissing);
    }
    var f := found.value;
    if !Permitted(caller, f) {
      return Err("无权删除此转发");
    }
    var tunnel := FindTunnel(db.tunnels, f.tunnelId);
    if tunnel.None? {
      db.forwards := Without(db.forwards, f.id);
      return Ok("转发已删除");
    }
    var t := tunnel.value;
    var err := DeleteGostServices(agent, db.nodes, f, t, UtId(FindUserTunnel(db.userTunnels, f.userId, t.id)));
    if err.Some? {
      return Err("Gost服务删除失败: " + err.value);
    }
    db.forwards := Without(db.forwards, f.id);
    return Ok("删除成功");
  }

  // ---------------------------------------------------------------- pause and resume

  /** The artifact names a pause or resume request addresses. */
  function Toggles(op: Op): set<string> {
    match op
    case PauseSvc(n) => {TcpName(n), UdpName(n)}
    case ResumeSvc(n) => {TcpName(n), UdpName(n)}
    case PauseRemote(n) => {TlsName(n)}
    case ResumeRemote(n) => {TlsName(n)}
    case _ => {}
  }

  /** The names a pause or resume request is said to address are the ones its command
      carries. */
  lemma TogglesAgree(op: Op)
    requires op.PauseSvc? || op.ResumeSvc? || op.PauseRemote? || op.ResumeRemote?
    ensures Toggles(op) == Switches(CommandOf(op))
  {
    assert op.name + "_tcp" == TcpName(op.name) && op.name + "_udp" == UdpName(op.name);
  }

  /** The paused artifacts after one request: an "OK" pause adds what it addresses, an "OK"
      resume takes it away, any other reply changes nothing. */
  function Suspend(paused: set<(int, string)>, r: Req, reply: string): set<(int, string)> {
    if reply != "OK" then paused
    else if r.op.PauseSvc? || r.op.PauseRemote? then paused + Tag(r.node, Toggles(r.op))
    else paused - Tag(r.node, Toggles(r.op))
  }

  /** The paused artifacts after a run of requests answered from the script `rs`. */
  function SuspendAll(paused: set<(int, string)>, reqs: seq<Req>, rs: seq<string>): set<(int, string)>
    decreases |reqs|
  {
    if |reqs| == 0 then paused else SuspendAll(Suspend(paused, reqs[0], Reply(rs, 0)), reqs[1..], Drop(rs, 1))
  }

  /** The entry services of a forward and, for a tunnel forward, its relay on the exit node. */
  function EntryOf(t: Tunnel, name: string): set<(int, string)> {
    {(t.inNodeId, TcpName(name)), (t.inNodeId, UdpName(name))}
  }

  function Live(t: Tunnel, name: string): set<(int, string)> {
    EntryOf(t, name) + if t.kind == 2 then {(t.outNodeId, TlsName(name))} else {}
  }

  /** `PauseForward`'s (`pause`) or `ResumeForward`'s agent steps: the entry services first,
      then the relay of a tunnel forward; when the relay refuses, the entry is switched back
      and that reply is ignored. */
  function Toggle(t: Tunnel, name: string, rs: seq<string>, pause: bool): Run {
    var entry := Req(t.inNodeId, if pause then PauseSvc(name) else ResumeSvc(name));
    var relay := Req(t.outNodeId, if pause then PauseRemote(name) else ResumeRemote(name));
    var undo := Req(t.inNodeId, if pause then ResumeSvc(name) else PauseSvc(name));
    if Reply(rs, 0) != "OK" then Run([entry], Some((if pause then "暂停服务失败: " else "恢复服务失败: ") + Reply(rs, 0)))
    else if t.kind == 2 && Reply(rs, 1) != "OK" then
      Run([entry, relay, undo], Some((if pause then "暂停远程服务失败: " else "恢复远程服务失败: ") + Reply(rs, 1)))
    else if t.kind == 2 then Run([entry, relay], None)
    else Run([entry], None)
  }

  lemma TagEntry(node: int, name: string)
    ensures Tag(node, {TcpName(name), UdpName(name)}) == {(node, TcpName(name)), (node, UdpName(name))}
    ensures Tag(node, {TlsName(name)}) == {(node, TlsName(name))}
  {
    TagPair(node, TcpName(name), UdpName(name));
    TagPair(node, TlsName(name), TlsName(name));
  }

  /** A switch succeeds exactly when the entry and, for a tunnel forward, the relay answer
      "OK", and then all of the forward's live services are paused (resumed). When the entry
      refuses, only that request went out and nothing changed. */
  lemma ToggleSwitchesAll(t: Tunnel, name: string, rs: seq<string>, pause: bool, before: set<(int, string)>)
    ensures var run := Toggle(t, name, rs, pause);
      run.err.None? <==> Reply(rs, 0) == "OK" && (t.kind == 2 ==> Reply(rs, 1) == "OK")
    ensures var run := Toggle(t, name, rs, pause);
      run.err.None? ==> SuspendAll(before, run.reqs, rs) == if pause then before + Live(t, name) else before - Live(t, name)
    ensures var run := Toggle(t, name, rs, pause);
      Reply(rs, 0) != "OK" ==> |run.reqs| == 1 && SuspendAll(before, run.reqs, rs) == before
  {
    TagEntry(t.inNodeId, name);
    TagEntry(t.outNodeId, name);
    var run := Toggle(t, name, rs, pause);
    var p1 := Suspend(before, run.reqs[0], Reply(rs, 0));
    assert SuspendAll(before, run.reqs, rs) == SuspendAll(p1, run.reqs[1..], Drop(rs, 1));
    if Reply(rs, 0) == "OK" {
      assert p1 == if pause then before + EntryOf(t, name) else before - EntryOf(t, name);
      if t.kind == 2 && Reply(rs, 1) == "OK" {
        ReplyDrop(rs, 1, 0);
        var p2 := Suspend(p1, run.reqs[1], Reply(rs, 1));
        assert p2 == if pause then p1 + {(t.outNodeId, TlsName(name))} else p1 - {(t.outNodeId, TlsName(name))};
        assert run.reqs[1..][1..] == [];
        assert SuspendAll(p1, run.reqs[1..], Drop(rs, 1)) == SuspendAll(p2, [], Drop(Drop(rs, 1), 1));
      } else if t.kind != 2 {
        assert run.reqs[1..] == [];
      }
    } else {
      assert run.reqs[1..] == [];
    }
  }

  /** When the relay refuses, the entry is switched back on the same node: if that answer is
      "OK" and the entry was in the other state before, nothing changed; if it is not, the
      entry stays switched while the row keeps its status. */
  lemma ToggleRollsBack(t: Tunnel, name: string, rs: seq<string>, pause: bool, before: set<(int, string)>)
    requires Reply(rs, 0) == "OK" && t.kind == 2 && Reply(rs, 1) != "OK"
    ensures var run := Toggle(t, name, rs, pause);
      run.err.Some? && |run.reqs| == 3 && run.reqs[2].node == run.reqs[0].node &&
      Toggles(run.reqs[2].op) == Toggles(run.reqs[0].op)
    ensures var run := Toggle(t, name, rs, pause);
      Reply(rs, 2) == "OK" && (if pause then EntryOf(t, name) !! before else EntryOf(t, name) <= before) ==>
        SuspendAll(before, run.reqs, rs) == before
    ensures var run := Toggle(t, name, rs, pause);
      Reply(rs, 2) != "OK" ==>
        SuspendAll(before, run.reqs, rs) == if pause then before + EntryOf(t, name) else before - EntryOf(t, name)
  {
    TagEntry(t.inNodeId, name);
    var run := Toggle(t, name, rs, pause);
    var p1 := Suspend(before, run.reqs[0], Reply(rs, 0));
    assert p1 == if pause then before + EntryOf(t, name) else before - EntryOf(t, name);
    ReplyDrop(rs, 1, 0);
    ReplyDrop(rs, 2, 0);
    DropDrop(rs, 1, 1);
    assert Suspend(p1, run.reqs[1], Reply(rs, 1)) == p1;
    var p3 := Suspend(p1, run.reqs[2], Reply(rs, 2));
    assert Reply(rs, 2) == "OK" ==> p3 == if pause then p1 - EntryOf(t, name) else p1 + EntryOf(t, name);
    assert run.reqs[1..][1..][1..] == [];
    assert SuspendAll(before, run.reqs, rs) == SuspendAll(p1, run.reqs[1..], Drop(rs, 1));
    assert SuspendAll(p1, run.reqs[1..], Drop(rs, 1)) == SuspendAll(p1, run.reqs[2..], Drop(rs, 2));
    assert SuspendAll(p1, run.reqs[2..], Drop(rs, 2)) == p3;
  }

  /** The agent steps of a pause or resume. */
  method ToggleServices(agent: Agent, t: Tunnel, name: string, pause: bool) returns (err: Option<string>)
    requires agent.Valid()
    modifies agent
    ensures agent.Valid()
    ensures var run := Toggle(t, name, old(agent.replies), pause);
      agent.calls == old(agent.calls) + Sent(run.reqs) && err == run.err &&
      agent.replies == Drop(old(agent.replies), |run.reqs|)
  {
    ghost var rs := agent.replies;
    ghost var calls0 := agent.calls;
    NothingSent(calls0, rs);
    var entry := Req(t.inNodeId, if pause then PauseSvc(name) else ResumeSvc(name));
    var msg := IssueNext(agent, entry, calls0, rs, []);
    if msg != "OK" {
      return Some((if pause then "暂停服务失败: " else "恢复服务失败: ") + msg);
    }
    if t.kind == 2 {
      var relay := Req(t.outNodeId, if pause then PauseRemote(name) else ResumeRemote(name));
      msg := IssueNext(agent, relay, calls0, rs, [entry]);
      if msg != "OK" {
        var undo := Req(t.inNodeId, if pause then ResumeSvc(name) else PauseSvc(name));
        var _ := IssueNext(agent, undo, calls0, rs, [entry, relay]);
        return Some((if pause then "暂停远程服务失败: " else "恢复远程服务失败: ") + msg);
      }
    }
    return None;
  }

  /** The row a `GORM` lookup that found nothing leaves behind: every column zero. */
  const ZeroUser: User := User(0, 0, "", "", 0, 0, 0, 0, 0, 0, 0)

  function UserOrZero(users: seq<User>, id: int): User {
    match FindUser(users, id)
    case None => ZeroUser
    case Some(u) => u
  }

  /** `ResumeForward`'s checks on a non-administrator caller: their account (an all-zero
      row when it is missing) must be under quota, unexpired and active, and their permission
      on the tunnel must exist and be active. */
  function ResumeRefusal(s: Snapshot, caller: Claims, t: Tunnel, now: int): Option<string> {
    if caller.roleId == 0 then None
    else
      var u := UserOrZero(s.users, caller.userId);
      if u.flow > 0 && u.inFlow + u.outFlow >= u.flow * FlowController.BytesToGb then Some("用户流量已超限")
      else if u.expTime > 0 && u.expTime <= now then Some("当前账号已到期")
      else if u.status != 1 then Some("用户账号已禁用")
      else
        match FindUserTunnel(s.userTunnels, caller.userId, t.id)
        case None => Some("你没有该隧道权限")
        case Some(ut) => if ut.status != 1 then Some("隧道权限已禁用") else None
  }

  /** The account checks refuse a non-administrator exactly when the flow controller would
      pause their forwards, so a forward paused for the account's quota, expiry or status
      cannot be resumed by its owner; a missing account is refused as disabled. */
  lemma ResumeMatchesUserLimits(s: Snapshot, caller: Claims, t: Tunnel, now: int)
    requires caller.roleId != 0
    ensures var r := ResumeRefusal(s, caller, t, now);
      (r.Some? && r.value in {"用户流量已超限", "当前账号已到期", "用户账号已禁用"}) <==>
        FlowController.UserOverLimit(UserOrZero(s.users, caller.userId), now)
    ensures ResumeRefusal(s, caller, t, now).None? ==>
      FindUserTunnel(s.userTunnels, caller.userId, t.id).Some? &&
      FindUserTunnel(s.userTunnels, caller.userId, t.id).value.status == 1
    ensures FindUser(s.users, caller.userId).None? ==> ResumeRefusal(s, caller, t, now) == Some("用户账号已禁用")
  {
  }

  /** `PauseForward(id, ctxUser)`: the row goes to status 0 only when the switch succeeds. */
  function PauseEffect(s: Snapshot, id: int, caller: Claims, rs: seq<string>): Effect {
    match FindForward(s.forwards, id)
    case None => Effect(Err(ForwardMissing), s.forwards, [])
    case Some(f) =>
      if !Permitted(caller, f) then Effect(Err("无权暂停此转发"), s.forwards, [])
      else
        match FindTunnel(s.tunnels, f.tunnelId)
        case None => Effect(Err(TunnelMissing), s.forwards, [])
        case Some(t) =>
          var run := Toggle(t, NameOf(s.userTunnels, f, t), rs, true);
          if run.err.Some? then Effect(Err(run.err.value), s.forwards, run.reqs)
          else Effect(Ok("服务已暂停"), Saved(s.forwards, f.(status := 0)), run.reqs)
  }

  /** `ResumeForward(id, ctxUser)`: an inactive tunnel and the caller checks refuse before
      any agent is asked; the row goes to status 1 only when the switch succeeds. */
  function ResumeEffect(s: Snapshot, id: int, caller: Claims, now: int, rs: seq<string>): Effect {
    match FindForward(s.forwards, id)
    case None => Effect(Err(ForwardMissing), s.forwards, [])
    case Some(f) =>
      if !Permitted(caller, f) then Effect(Err("无权恢复此转发"), s.forwards, [])
      else
        match FindTunnel(s.tunnels, f.tunnelId)
        case None => Effect(Err(TunnelMissing), s.forwards, [])
        case Some(t) =>
          if t.status != 1 then Effect(Err("隧道已禁用，无法恢复服务"), s.forwards, [])
          else
            match ResumeRefusal(s, caller, t, now)
            case Some(e) => Effect(Err(e), s.forwards, [])
            case None =>
              var run := Toggle(t, NameOf(s.userTunnels, f, t), rs, false);
              if run.err.Some? then Effect(Err(run.err.value), s.forwards, run.reqs)
              else Effect(Ok("服务已恢复"), Saved(s.forwards, f.(status := 1)), run.reqs)
  }

  /** A pause succeeds exactly when the forward and its tunnel exist, the caller may act on
      it and the switch succeeds; then the row (and only it) has status 0, otherwise the
      table is unchanged. */
  lemma PauseSetsStatus(s: Snapshot, id: int, caller: Claims, rs: seq<string>)
    ensures var e := PauseEffect(s, id, caller, rs);
      e.out.Ok? <==>
        FindForward(s.forwards, id).Some? && Permitted(caller, FindForward(s.forwards, id).value) &&
        FindTunnel(s.tunnels, FindForward(s.forwards, id).value.tunnelId).Some? &&
        Toggle(FindTunnel(s.tunnels, FindForward(s.forwards, id).value.tunnelId).value,
          NameOf(s.userTunnels, FindForward(s.forwards, id).value, FindTunnel(s.tunnels, FindForward(s.forwards, id).value.tunnelId).value),
          rs, true).err.None?
    ensures var e := PauseEffect(s, id, caller, rs);
      e.out.Ok? ==> (FindForward(e.forwards, id) == Some(FindForward(s.forwards, id).value.(status := 0)) &&
        |e.forwards| == |s.forwards| &&
        forall k :: 0 <= k < |s.forwards| && s.forwards[k].id != id ==> e.forwards[k] == s.forwards[k])
    ensures var e := PauseEffect(s, id, caller, rs);
      e.out.Err? ==> e.forwards == s.forwards
  {
    var found := FindForward(s.forwards, id);
    if found.Some? {
      SavedTouchesOneRow(s.forwards, found.value.(status := 0));
    }
  }

  /** A resume succeeds exactly when the forward exists, the caller may act on it, its tunnel
      exists and is active, the caller passes the account checks and the switch succeeds;
      then the row (and only it) has status 1, otherwise the table is unchanged. */
  lemma ResumeSetsStatus(s: Snapshot, id: int, caller: Claims, now: int, rs: seq<string>)
    ensures var e := ResumeEffect(s, id, caller, now, rs);
      e.out.Ok? <==>
        FindForward(s.forwards, id).Some? && Permitted(caller, FindForward(s.forwards, id).value) &&
        FindTunnel(s.tunnels, FindForward(s.forwards, id).value.tunnelId).Some? &&
        var f, t := FindForward(s.forwards, id).value, FindTunnel(s.tunnels, FindForward(s.forwards, id).value.tunnelId).value;
        t.status == 1 && ResumeRefusal(s, caller, t, now).None? && Toggle(t, NameOf(s.userTunnels, f, t), rs, false).err.None?
    ensures var e := ResumeEffect(s, id, caller, now, rs);
      e.out.Ok? ==> (FindForward(e.forwards, id) == Some(FindForward(s.forwards, id).value.(status := 1)) &&
        |e.forwards| == |s.forwards| &&
        forall k :: 0 <= k < |s.forwards| && s.forwards[k].id != id ==> e.forwards[k] == s.forwards[k])
    ensures var e := ResumeEffect(s, id, caller, now, rs);
      e.out.Err? ==> e.forwards == s.forwards
  {
    var found := FindForward(s.forwards, id);
    if found.Some? {
      SavedTouchesOneRow(s.forwards, found.value.(status := 1));
    }
  }

  /** A caller other than the administrator is refused on another account's forward, with
      no agent asked and no row changed, by delete, pause and resume alike. */
  lemma OthersRefused(s: Snapshot, id: int, caller: Claims, now: int, rs: seq<string>)
    requires FindForward(s.forwards, id).Some? && caller.roleId != 0
    requires FindForward(s.forwards, id).value.userId != caller.userId
    ensures DeleteEffect(s, id, caller, rs).out.Err? && DeleteEffect(s, id, caller, rs).reqs == []
    ensures PauseEffect(s, id, caller, rs).out.Err? && PauseEffect(s, id, caller, rs).reqs == []
    ensures ResumeEffect(s, id, caller, now, rs).out.Err? && ResumeEffect(s, id, caller, now, rs).reqs == []
    ensures DeleteEffect(s, id, caller, rs).forwards == PauseEffect(s, id, caller, rs).forwards == s.forwards
    ensures ResumeEffect(s, id, caller, now, rs).forwards == s.forwards
  {
  }

  /** `PauseForward`. */
  method PauseForward(db: Db, agent: Agent, id: int, caller: Claims) returns (out: Outcome)
    requires agent.Valid()
    modifies db, agent
    ensures agent.Valid()
    ensures var e := PauseEffect(old(Snap(db)), id, caller, old(agent.replies));
      out == e.out && db.forwards == e.forwards &&
      agent.calls == old(agent.calls) + Sent(e.reqs) && agent.replies == Drop(old(agent.replies), |e.reqs|)
    ensures db.users == old(db.users) && db.userTunnels == old(db.userTunnels) && db.tunnels == old(db.tunnels)
    ensures db.nodes == old(db.nodes) && db.stats == old(db.stats)
  {
    NothingSent(agent.calls, agent.replies);
    var found := FindForward(db.forwards, id);
    if found.None? {
      return Err(ForwardMissing);
    }
    var f := found.value;
    if !Permitted(caller, f) {
      return Err("无权暂停此转发");
    }
    var tunnel := FindTunnel(db.tunnels, f.tunnelId);
    if tunnel.None? {
      return Err(TunnelMissing);
    }
    var t := tunnel.value;
    var err := ToggleServices(agent, t, NameOf(db.userTunnels, f, t), true);
    if err.Some? {
      return Err(err.value);
    }
    db.forwards := Saved(db.forwards, f.(status := 0));
    return Ok("服务已暂停");
  }

  /** `ResumeForward`. */
  method ResumeForward(db: Db, agent: Agent, id: int, caller: Claims, now: int) returns (out: Outcome)
    requires agent.Valid()
    modifies db, agent
    ensures agent.Valid()
    ensures var e := ResumeEffect(old(Snap(db)), id, caller, now, old(agent.replies));
      out == e.out && db.forwards == e.forwards &&
      agent.calls == old(agent.calls) + Sent(e.reqs) && agent.replies == Drop(old(agent.replies), |e.reqs|)
    ensures db.users == old(db.users) && db.userTunnels == old(db.userTunnels) && db.tunnels == old(db.tunnels)
    ensures db.nodes == old(db.nodes) && db.stats == old(db.stats)
  {
    NothingSent(agent.calls, agent.replies);
    var found := FindForward(db.forwards, id);
    if found.None? {
      return Err(ForwardMissing);
    }
    var f := found.value;
    if !Permitted(caller, f) {
      return Err("无权恢复此转发");
    }
    var tunnel := FindTunnel(db.tunnels, f.tunnelId);
    if tunnel.None? {
      return Err(TunnelMissing);
    }
    var t := tunnel.value;
    if t.status != 1 {
      return Err("隧道已禁用，无法恢复服务");
    }
    var refusal := ResumeRefusal(Snap(db), caller, t, now);
    if refusal.Some? {
      return Err(refusal.value);
    }
    var err := ToggleServices(agent, t, NameOf(db.userTunnels, f, t), false);
    if err.Some? {
      return Err(err.value);
    }
    db.forwards := Saved(db.forwards, f.(status := 1));
    return Ok("服务已恢复");
  }

  /** A create can succeed: an administrator's forward to `8.8.8.8` on an active
      port-forwarding tunnel, at a free entry port, with the agents left alone. */
  lemma CreateCanSucceed() returns (s: Snapshot, dto: ForwardDto, caller: Claims)
    ensures CreateEffect(s, dto, caller, 0, true, []).out.Ok?
  {
    var n := Node(1, 1, "n", "10.0.0.1", "10.0.0.1", "", 1000, 1000);
    var t := Tunnel(1, 1, "t", 1, "10.0.0.1", 1, "10.0.0.1", 1, 2, "tcp", 100, "", "", "", 0, 0);
    s := Snapshot([], [], [t], [n], []);
    dto := ForwardDto(1, "f", "8.8.8.8", Some(1000), "", "fifo", None, 0);
    caller := Claims(1, "admin", 0);
    var a := WitnessAdmitted(s, dto, caller, t);
    WitnessAllocated(s, t);
    assert Trimmed(dto.remoteAddr);
    PortlessNoLoop(dto, t, 1000);
  }

  lemma WitnessAdmitted(s: Snapshot, dto: ForwardDto, caller: Claims, t: Tunnel) returns (a: Admitted)
    requires t == Tunnel(1, 1, "t", 1, "10.0.0.1", 1, "10.0.0.1", 1, 2, "tcp", 100, "", "", "", 0, 0)
    requires s.tunnels == [t] && dto.tunnelId == 1 && dto.userId.None? && caller == Claims(1, "admin", 0)
    ensures Admission(s, dto, caller, 0) == Success(a) && a.tunnel == t
  {
    assert FindTunnel(s.tunnels, 1) == Some(t);
    a := Admission(s, dto, caller, 0).value;
  }

  lemma WitnessAllocated(s: Snapshot, t: Tunnel)
    requires t == Tunnel(1, 1, "t", 1, "10.0.0.1", 1, "10.0.0.1", 1, 2, "tcp", 100, "", "", "", 0, 0)
    requires s == Snapshot([], [], [t], [Node(1, 1, "n", "10.0.0.1", "10.0.0.1", "", 1000, 1000)], [])
    ensures Allocation(s.nodes, s.tunnels, s.forwards, t, Some(1000), None, None) == Success(PortAlloc(1000, 1000))
  {
  }

  /** A single remote address without a port cannot loop back onto an entry port. */
  lemma PortlessNoLoop(dto: ForwardDto, t: Tunnel, inPort: int)
    requires ',' !in dto.remoteAddr && ':' !in dto.remoteAddr && Trimmed(dto.remoteAddr) && inPort != -1
    ensures LoopCheck(dto, t, inPort).None?
  {
    var ts := PortlessTarget(dto.remoteAddr);
    var ips := InIpSet(Split(t.inIp, ','));
    assert !Hits(ts[0], ips, inPort);
    assert LoopbackError(ts[1..], ips, inPort).None?;
  }

  lemma PortlessTarget(addr: string) returns (ts: seq<Target>)
    requires ',' !in addr && ':' !in addr
    ensures ts == AddressTargets(Split(addr, ',')) && |ts| == 1 && ts[0].port == -1
  {
    SplitNoSep(addr, ',');
    IpUtil.NoColonNoPort(addr);
    ts := AddressTargets(Split(addr, ','));
    assert ts[0] == TargetOf(addr);
  }

}
