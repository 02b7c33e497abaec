/** The tunnel service (go-backend/service/tunnel_service.go): creating a tunnel behind its
    checks, the exit port a tunnel forward shares, the chain and relay services it installs
    with their rollback, deleting a tunnel behind its guard, and the critical-change test of
    an update. The database is `Model.Db`; the agents are reached through the `Wire` below. */
module TunnelService {
  import opened Wrappers
  import opened Strs
  import opened Model
  import opened PortRanges
  import opened GostUtil
  import ForwardPorts
  import ForwardGost

  const NameExists := "隧道名称已存在"
  const NoExitGiven := "出口节点不能为空"
  const NoEntryNode := "入口节点不存在"
  const EntryOffline := "入口节点当前离线，请确保节点正常运行"
  const NoProtocol := "协议类型必选"
  const SameNode := "隧道转发模式下，入口和出口不能是同一个节点"
  const NoExitNode := "出口节点不存在"
  const ExitOffline := "出口节点当前离线，请确保节点正常运行"
  const AllocFailed := "出口端口分配失败: "
  const SharedFailed := "共享服务创建失败: "
  const TunnelCreated := "隧道创建成功"
  const BadExitRanges := "出口节点端口配置错误: "
  const NoExitPort := "出口节点无可用端口"
  const ChainFailed := "创建共享 Chain 失败: "
  const RelayFailed := "创建共享 Relay Service 失败: "
  const TunnelMissing := "隧道不存在"
  const TunnelUpdated := "隧道更新成功"
  const TunnelDeleted := "隧道删除成功"

  /** The listen address a tunnel gets when the request leaves it empty. */
  const AnyAddr := "0.0.0.0"

  function ForwardsInUse(n: int): string {
    "该隧道还有 " + IntToString(n) + " 个转发在使用，请先删除相关转发"
  }

  function PermissionsInUse(n: int): string {
    "该隧道还有 " + IntToString(n) + " 个用户权限关联，请先取消用户权限分配"
  }

  /** `dto.TunnelDto`: `outNodeId` is the optional pointer, `trafficRatio` is in hundredths
      and 0 when absent. */
  datatype TunnelDto = TunnelDto(
    name: string, inNodeId: int, outNodeId: Option<int>, kind: int, flow: int, protocol: string,
    trafficRatio: int, tcpListenAddr: string, udpListenAddr: string, interfaceName: string)

  /** `dto.TunnelUpdateDto`. */
  datatype TunnelUpdate = TunnelUpdate(
    id: int, name: string, flow: int, protocol: string, trafficRatio: int,
    tcpListenAddr: string, udpListenAddr: string, interfaceName: string)

  /** What a handler answers; `Crashed` is the nil dereference of a missing exit node. */
  datatype Outcome = Ok(msg: string) | Err(msg: string) | Crashed

  /** The tables the service reads. */
  datatype Tables = Tables(tunnels: seq<Tunnel>, nodes: seq<Node>, forwards: seq<Forward>, userTunnels: seq<UserTunnel>)

  function Snap(db: Db): Tables
    reads db
  {
    Tables(db.tunnels, db.nodes, db.forwards, db.userTunnels)
  }

  // ---------------------------------------------------------------- rows

  /** Another tunnel (any but `exclude`) already has the name. */
  predicate NameTaken(tunnels: seq<Tunnel>, name: string, exclude: Option<int>) {
    exists k :: 0 <= k < |tunnels| && tunnels[k].name == name && (exclude.None? || tunnels[k].id != exclude.value)
  }

  /** A node that exists and is online. */
  predicate Online(nodes: seq<Node>, id: int) {
    FindNode(nodes, id).Some? && FindNode(nodes, id).value.status == 1
  }

  /** The id the database gives the next row: above every id in the table. */
  function NextTunnelId(tunnels: seq<Tunnel>): (r: int)
    ensures forall k :: 0 <= k < |tunnels| ==> tunnels[k].id < r
  {
    if |tunnels| == 0 then 1
    else
      var rest := NextTunnelId(tunnels[1..]);
      if tunnels[0].id >= rest then tunnels[0].id + 1 else rest
  }

  /** `DB.Delete(&tunnel)`: every row with that primary key goes. */
  function RemoveTunnel(tunnels: seq<Tunnel>, id: int): (r: seq<Tunnel>)
    ensures forall t :: t in r <==> t in tunnels && t.id != id
  {
    if |tunnels| == 0 then []
    else if tunnels[0].id == id then RemoveTunnel(tunnels[1..], id)
    else [tunnels[0]] + RemoveTunnel(tunnels[1..], id)
  }

  /** Deleting the id of a row just appended to a table whose ids are all smaller gives the
      table back. */
  lemma {:induction false} RemoveFresh(tunnels: seq<Tunnel>, row: Tunnel)
    requires forall k :: 0 <= k < |tunnels| ==> tunnels[k].id < row.id
    ensures RemoveTunnel(tunnels + [row], row.id) == tunnels
    decreases |tunnels|
  {
    if |tunnels| == 0 {
      assert tunnels + [row] == [row];
      assert [row][1..] == [];
    } else {
      assert (tunnels + [row])[1..] == tunnels[1..] + [row];
      RemoveFresh(tunnels[1..], row);
      assert [tunnels[0]] + tunnels[1..] == tunnels;
    }
  }

  /** `DB.Save(&tunnel)`: the row with that primary key is overwritten. */
  function SaveTunnel(tunnels: seq<Tunnel>, row: Tunnel): seq<Tunnel> {
    seq(|tunnels|, k requires 0 <= k < |tunnels| => if tunnels[k].id == row.id then row else tunnels[k])
  }

  /** `CountForwardsByTunnelId`. */
  function ForwardsOn(forwards: seq<Forward>, tunnelId: int): (n: nat)
    ensures n <= |forwards|
    ensures n == 0 <==> forall k :: 0 <= k < |forwards| ==> forwards[k].tunnelId != tunnelId
  {
    if |forwards| == 0 then 0
    else (if forwards[0].tunnelId == tunnelId then 1 else 0) + ForwardsOn(forwards[1..], tunnelId)
  }

  /** `CountUserTunnelsByTunnelId`. */
  function PermissionsOn(uts: seq<UserTunnel>, tunnelId: int): (n: nat)
    ensures n <= |uts|
    ensures n == 0 <==> forall k :: 0 <= k < |uts| ==> uts[k].tunnelId != tunnelId
  {
    if |uts| == 0 then 0
    else (if uts[0].tunnelId == tunnelId then 1 else 0) + PermissionsOn(uts[1..], tunnelId)
  }

  // ---------------------------------------------------------------- the shared exit port

  /** A tunnel forward leaving by the node that holds a shared exit port and is not the
      excluded tunnel. */
  predicate SharesExit(t: Tunnel, nodeId: int, exclude: Option<int>) {
    t.outNodeId == nodeId && t.kind == 2 && (exclude.None? || t.id != exclude.value) && t.outPort != 0
  }

  /** The exit ports the tunnels leaving by the node hold. */
  function SharedPortsUsed(tunnels: seq<Tunnel>, nodeId: int, exclude: Option<int>): (used: set<int>)
    ensures forall p :: p in used <==>
      exists k :: 0 <= k < |tunnels| && SharesExit(tunnels[k], nodeId, exclude) && tunnels[k].outPort == p
  {
    if |tunnels| == 0 then {}
    else
      var t := tunnels[|tunnels| - 1];
      var earlier := SharedPortsUsed(tunnels[..|tunnels| - 1], nodeId, exclude);
      assert forall k :: 0 <= k < |tunnels| - 1 ==> tunnels[..|tunnels| - 1][k] == tunnels[k];
      earlier + if SharesExit(t, nodeId, exclude) then {t.outPort} else {}
  }

  /** `getUsedTunnelOutPorts(outNodeId, excludeTunnelId)`: the tunnels' shared exit ports,
      and the non-zero exit ports of the forwards whose tunnel leaves by the node. */
  function TunnelOutPortsUsed(tunnels: seq<Tunnel>, forwards: seq<Forward>, nodeId: int, exclude: Option<int>): set<int> {
    SharedPortsUsed(tunnels, nodeId, exclude) +
    ForwardPorts.OutPortsUsed(forwards, ForwardPorts.TunnelIds(tunnels, nodeId, false), None)
  }

  /** The used set holds exactly the other tunnels' shared ports on the node and the exit
      ports of the forwards leaving by it. */
  lemma UsedOutPortsAre(tunnels: seq<Tunnel>, forwards: seq<Forward>, nodeId: int, exclude: Option<int>, p: int)
    ensures p in TunnelOutPortsUsed(tunnels, forwards, nodeId, exclude) <==>
      p != 0 &&
      ((exists k :: 0 <= k < |tunnels| && SharesExit(tunnels[k], nodeId, exclude) && tunnels[k].outPort == p) ||
       (exists i, j :: 0 <= i < |forwards| && 0 <= j < |tunnels| && tunnels[j].outNodeId == nodeId &&
          forwards[i].tunnelId == tunnels[j].id && forwards[i].outPort == p))
  {
    var ids := ForwardPorts.TunnelIds(tunnels, nodeId, false);
    if p in ForwardPorts.OutPortsUsed(forwards, ids, None) {
      var i :| 0 <= i < |forwards| && forwards[i].tunnelId in ids && ForwardPorts.Counted(forwards[i], None) &&
        forwards[i].outPort != 0 && forwards[i].outPort == p;
      var j :| 0 <= j < |tunnels| && tunnels[j].id == forwards[i].tunnelId && ForwardPorts.Endpoint(tunnels[j], false) == nodeId;
    }
    if p != 0 && (exists i, j :: 0 <= i < |forwards| && 0 <= j < |tunnels| && tunnels[j].outNodeId == nodeId &&
                                 forwards[i].tunnelId == tunnels[j].id && forwards[i].outPort == p) {
      var i, j :| 0 <= i < |forwards| && 0 <= j < |tunnels| && tunnels[j].outNodeId == nodeId &&
        forwards[i].tunnelId == tunnels[j].id && forwards[i].outPort == p;
      assert ForwardPorts.Endpoint(tunnels[j], false) == nodeId;
      assert forwards[i].tunnelId in ids;
    }
  }

  /** `getUsedTunnelOutPorts`: the tunnels first, then the forwards on the tunnels leaving by
      the node (the join of the query). */
  method GetUsedTunnelOutPorts(tunnels: seq<Tunnel>, forwards: seq<Forward>, nodeId: int, exclude: Option<int>)
    returns (used: set<int>)
    ensures used == TunnelOutPortsUsed(tunnels, forwards, nodeId, exclude)
  {
    used := {};
    var i := 0;
    while i < |tunnels|
      invariant 0 <= i <= |tunnels|
      invariant used == SharedPortsUsed(tunnels[..i], nodeId, exclude)
    {
      assert tunnels[..i + 1][..i] == tunnels[..i];
      if tunnels[i].outNodeId == nodeId && tunnels[i].kind == 2 && (exclude.None? || tunnels[i].id != exclude.value) {
        if tunnels[i].outPort != 0 {
          used := used + {tunnels[i].outPort};
        }
      }
      i := i + 1;
    }
    assert tunnels[..i] == tunnels;
    var exits := ForwardPorts.TunnelIds(tunnels, nodeId, false);
    var fromForwards: set<int> := {};
    var j := 0;
    while j < |forwards|
      invariant 0 <= j <= |forwards|
      invariant fromForwards == ForwardPorts.OutPortsUsed(forwards[..j], exits, None)
    {
      assert forwards[..j + 1][..j] == forwards[..j];
      if forwards[j].tunnelId in exits && forwards[j].outPort != 0 {
        fromForwards := fromForwards + {forwards[j].outPort};
      }
      j := j + 1;
    }
    assert forwards[..j] == forwards;
    used := used + fromForwards;
  }

  /** The smaller of two optional ports. */
  function MinPort(a: Option<int>, b: Option<int>): (r: Option<int>)
    ensures r == a || r == b
    ensures r.None? <==> a.None? && b.None?
    ensures r.Some? && a.Some? ==> r.value <= a.value
    ensures r.Some? && b.Some? ==> r.value <= b.value
  {
    if a.None? then b else if b.None? then a else if a.value <= b.value then a else b
  }

  /** The lowest port some range holds that is not in `used`: the lowest free port of each
      range, the least of them. */
  function FirstFree(ranges: seq<PortRange>, used: set<int>): Option<int> {
    if |ranges| == 0 then None
    else MinPort(ForwardPorts.LowestFree(ranges[0].start, ranges[0].end, used), FirstFree(ranges[1..], used))
  }

  /** `p` is held by a range, not used, and every lower port a range holds is used. */
  ghost predicate LowestUnused(ranges: seq<PortRange>, used: set<int>, p: int) {
    Covers(ranges, p) && p !in used && forall q :: Covers(ranges, q) && q < p ==> q in used
  }

  lemma CoversCons(ranges: seq<PortRange>, q: int)
    requires |ranges| > 0
    ensures Covers(ranges, q) <==> ranges[0].start <= q <= ranges[0].end || Covers(ranges[1..], q)
  {
    if Covers(ranges, q) {
      var k :| 0 <= k < |ranges| && ranges[k].start <= q <= ranges[k].end;
      if k > 0 {
        assert ranges[1..][k - 1] == ranges[k];
      }
    }
    if Covers(ranges[1..], q) {
      var k :| 0 <= k < |ranges| - 1 && ranges[1..][k].start <= q <= ranges[1..][k].end;
      assert ranges[k + 1] == ranges[1..][k];
    }
    if ranges[0].start <= q <= ranges[0].end {
      assert 0 < |ranges| && ranges[0].start <= q <= ranges[0].end;
    }
  }

  /** The search finds the lowest unused port the ranges hold, and finds none only when
      every port they hold is used. */
  lemma {:induction false} FirstFreeIsLowest(ranges: seq<PortRange>, used: set<int>)
    ensures FirstFree(ranges, used).Some? ==> LowestUnused(ranges, used, FirstFree(ranges, used).value)
    ensures FirstFree(ranges, used).None? ==> forall q :: Covers(ranges, q) ==> q in used
    decreases |ranges|
  {
    if |ranges| > 0 {
      var r0 := ranges[0];
      ForwardPorts.LowestFreeIsLowest(r0.start, r0.end, used);
      FirstFreeIsLowest(ranges[1..], used);
      forall q ensures Covers(ranges, q) <==> r0.start <= q <= r0.end || Covers(ranges[1..], q) {
        CoversCons(ranges, q);
      }
    }
  }

  /** The lowest unused port is unique, so any port with that property is the search's. */
  lemma LowestIsFirstFree(ranges: seq<PortRange>, used: set<int>, p: int)
    requires LowestUnused(ranges, used, p)
    ensures FirstFree(ranges, used) == Some(p)
  {
    FirstFreeIsLowest(ranges, used);
  }

  /** `allocateTunnelOutPort(outNodeId, excludeTunnelId)`. */
  function OutPortAllocation(nodes: seq<Node>, tunnels: seq<Tunnel>, forwards: seq<Forward>, nodeId: int, exclude: Option<int>)
    : Result<int, string>
  {
    match FindNode(nodes, nodeId)
    case None => Failure(NoExitNode)
    case Some(node) =>
      match Parse(node.portRanges)
      case Failure(e) => Failure(BadExitRanges + Message(e))
      case Success(ranges) =>
        match FirstFree(ranges, TunnelOutPortsUsed(tunnels, forwards, nodeId, exclude))
        case None => Failure(NoExitPort)
        case Some(p) => Success(p)
  }

  /** The allocated port is the lowest port of the exit node's ranges that no other tunnel
      forward leaving by the node shares and no forward leaving by it uses; the node runs
      out only when every port of its ranges is taken. */
  lemma OutPortIsLowestFree(nodes: seq<Node>, tunnels: seq<Tunnel>, forwards: seq<Forward>, nodeId: int, exclude: Option<int>)
    ensures var r := OutPortAllocation(nodes, tunnels, forwards, nodeId, exclude);
      var used := TunnelOutPortsUsed(tunnels, forwards, nodeId, exclude);
      (r.Success? ==>
         FindNode(nodes, nodeId).Some? && Parse(FindNode(nodes, nodeId).value.portRanges).Success? &&
         LowestUnused(Parse(FindNode(nodes, nodeId).value.portRanges).value, used, r.value)) &&
      (r == Failure(NoExitPort) <==>
         FindNode(nodes, nodeId).Some? && Parse(FindNode(nodes, nodeId).value.portRanges).Success? &&
         forall q :: Covers(Parse(FindNode(nodes, nodeId).value.portRanges).value, q) ==> q in used)
  {
    var node := FindNode(nodes, nodeId);
    if node.Some? && Parse(node.value.portRanges).Success? {
      var ranges := Parse(node.value.portRanges).value;
      var used := TunnelOutPortsUsed(tunnels, forwards, nodeId, exclude);
      FirstFreeIsLowest(ranges, used);
      if FirstFree(ranges, used).Some? {
        assert !forall q :: Covers(ranges, q) ==> q in used;
      }
    } else if node.Some? {
      var e := Parse(node.value.portRanges).error;
      assert BadExitRanges + Message(e) != NoExitPort by {
        assert (BadExitRanges + Message(e))[0] == BadExitRanges[0];
      }
    }
  }

  /** The allocated port collides with no other tunnel forward's shared port on the node and
      no exit port of a forward leaving by it. */
  lemma OutPortAvoidsCollisions(nodes: seq<Node>, tunnels: seq<Tunnel>, forwards: seq<Forward>, nodeId: int, exclude: Option<int>)
    requires OutPortAllocation(nodes, tunnels, forwards, nodeId, exclude).Success?
    ensures var p := OutPortAllocation(nodes, tunnels, forwards, nodeId, exclude).value;
      (forall k :: 0 <= k < |tunnels| && SharesExit(tunnels[k], nodeId, exclude) ==> tunnels[k].outPort != p) &&
      (forall i, j ::
         (0 <= i < |forwards| && 0 <= j < |tunnels| && tunnels[j].outNodeId == nodeId &&
          forwards[i].tunnelId == tunnels[j].id && forwards[i].outPort != 0) ==> forwards[i].outPort != p)
  {
    OutPortIsLowestFree(nodes, tunnels, forwards, nodeId, exclude);
    var p := OutPortAllocation(nodes, tunnels, forwards, nodeId, exclude).value;
    UsedOutPortsAre(tunnels, forwards, nodeId, exclude, p);
  }

  /** `allocateTunnelOutPort`: the node's ports in ascending order, the first one not used. */
  method AllocateTunnelOutPort(nodes: seq<Node>, tunnels: seq<Tunnel>, forwards: seq<Forward>, nodeId: int, exclude: Option<int>)
    returns (r: Result<int, string>)
    ensures r == OutPortAllocation(nodes, tunnels, forwards, nodeId, exclude)
  {
    var node := FindNode(nodes, nodeId);
    if node.None? {
      return Failure(NoExitNode);
    }
    var ranges := ParsePortRanges(node.value.portRanges);
    if ranges.Failure? {
      return Failure(BadExitRanges + Message(ranges.error));
    }
    var allPorts := GetAllPorts(ranges.value);
    var used := GetUsedTunnelOutPorts(tunnels, forwards, nodeId, exclude);
    var p := FirstUnused(ranges.value, allPorts, used);
    if p.None? {
      return Failure(NoExitPort);
    }
    return Success(p.value);
  }

  /** The scan of `allocateTunnelOutPort` over the node's ports in ascending order. */
  method FirstUnused(ranges: seq<PortRange>, ports: seq<int>, used: set<int>) returns (r: Option<int>)
    requires StrictlyIncreasing(ports) && forall p :: p in ports <==> Covers(ranges, p)
    ensures r == FirstFree(ranges, used)
  {
    var i := 0;
    while i < |ports|
      invariant 0 <= i <= |ports|
      invariant forall k :: 0 <= k < i ==> ports[k] in used
    {
      if ports[i] !in used {
        FirstInOrder(ranges, ports, used, i);
        return Some(ports[i]);
      }
      i := i + 1;
    }
    FirstFreeIsLowest(ranges, used);
    return None;
  }

  /** In an ascending list, a smaller element sits earlier. */
  lemma IncreasingBelow(ports: seq<int>, i: int, k: int)
    requires StrictlyIncreasing(ports) && 0 <= i < |ports| && 0 <= k < |ports| && ports[k] < ports[i]
    ensures k < i
  {
  }

  /** In the ascending list of the ports the ranges hold, the first unused one is the lowest
      unused port. */
  lemma FirstInOrder(ranges: seq<PortRange>, ports: seq<int>, used: set<int>, i: int)
    requires StrictlyIncreasing(ports) && forall p :: p in ports <==> Covers(ranges, p)
    requires 0 <= i < |ports| && ports[i] !in used && forall k :: 0 <= k < i ==> ports[k] in used
    ensures FirstFree(ranges, used) == Some(ports[i])
  {
    forall q | Covers(ranges, q) && q < ports[i] ensures q in used {
      var k :| 0 <= k < |ports| && ports[k] == q;
      IncreasingBelow(ports, i, k);
    }
    LowestIsFirstFree(ranges, used, ports[i]);
  }

  // ---------------------------------------------------------------- shared services

  /** The tunnel-level wrappers: the chain on the entry node that dials the exit node and the
      relay service on the exit node, shared by all forwards of a tunnel forward. */
  datatype SharedOp =
    | AddChain(tunnelId: int, remoteAddr: string, protocol: string, iface: string)
    | AddRelay(tunnelId: int, outPort: int, protocol: string, iface: string)
    | DeleteChain(tunnelId: int)
    | DeleteRelay(tunnelId: int)

  /** A wrapper call addressed to a node. */
  datatype SharedReq = SharedReq(node: int, op: SharedOp)

  /** An artifact a wrapper installs or removes, and where. */
  datatype Artifact = Chain(tunnelId: int) | Relay(tunnelId: int)
  datatype Placed = Placed(node: int, artifact: Artifact)

  function PlacedBy(r: SharedReq): Placed {
    match r.op
    case AddChain(id, _, _, _) => Placed(r.node, Chain(id))
    case DeleteChain(id) => Placed(r.node, Chain(id))
    case AddRelay(id, _, _, _) => Placed(r.node, Relay(id))
    case DeleteRelay(id) => Placed(r.node, Relay(id))
  }

  /** What the agents hold after one request: an add answered "OK" installs its artifact,
      a delete answered "OK" removes it, any other answer changes nothing. */
  function Step(st: set<Placed>, r: SharedReq, reply: string): set<Placed> {
    if reply != "OK" then st
    else if r.op.AddChain? || r.op.AddRelay? then st + {PlacedBy(r)}
    else st - {PlacedBy(r)}
  }

  /** What the agents hold after the requests, answered by the script in order. */
  function Apply(st: set<Placed>, reqs: seq<SharedReq>, rs: seq<string>): set<Placed>
    decreases |reqs|
  {
    if |reqs| == 0 then st
    else Apply(Step(st, reqs[0], Reply(rs, 0)), reqs[1..], Drop(rs, 1))
  }

  lemma ApplyTwo(st: set<Placed>, a: SharedReq, b: SharedReq, rs: seq<string>)
    ensures Apply(st, [a, b], rs) == Step(Step(st, a, Reply(rs, 0)), b, Reply(rs, 1))
  {
    assert [a, b][1..] == [b];
    ReplyDrop(rs, 1, 0);
    assert Apply(Step(st, a, Reply(rs, 0)), [b], Drop(rs, 1)) == Step(Step(st, a, Reply(rs, 0)), b, Reply(rs, 1)) by {
      assert [b][1..] == [];
    }
  }

  lemma ApplyThree(st: set<Placed>, a: SharedReq, b: SharedReq, c: SharedReq, rs: seq<string>)
    ensures Apply(st, [a, b, c], rs) == Step(Step(Step(st, a, Reply(rs, 0)), b, Reply(rs, 1)), c, Reply(rs, 2))
  {
    assert [a, b, c][1..] == [b, c];
    ApplyTwo(Step(st, a, Reply(rs, 0)), b, c, Drop(rs, 1));
    ReplyDrop(rs, 1, 0);
    ReplyDrop(rs, 1, 1);
  }

  /** The address the entry node's chain dials: the exit address and the shared exit port,
      the address in brackets when it holds a colon. */
  function RelayAddr(t: Tunnel): string {
    if ':' in t.outIp then "[" + t.outIp + "]:" + IntToString(t.outPort)
    else t.outIp + ":" + IntToString(t.outPort)
  }

  /** The requests a wrapper routine sent and the error it returned. */
  datatype SharedRun = SharedRun(reqs: seq<SharedReq>, err: Option<string>)

  /** `createTunnelSharedServices(tunnel)` against the reply script `rs`: both nodes must
      exist; the chain goes first and a failure stops there; a failed relay deletes the
      chain again, whatever that delete is answered. */
  function SharedCreateRun(nodes: seq<Node>, t: Tunnel, rs: seq<string>): SharedRun {
    match FindNode(nodes, t.inNodeId)
    case None => SharedRun([], Some(NoEntryNode))
    case Some(inNode) =>
      match FindNode(nodes, t.outNodeId)
      case None => SharedRun([], Some(NoExitNode))
      case Some(outNode) =>
        var chain := SharedReq(inNode.id, AddChain(t.id, RelayAddr(t), t.protocol, t.interfaceName));
        var relay := SharedReq(outNode.id, AddRelay(t.id, t.outPort, t.protocol, t.interfaceName));
        if Reply(rs, 0) != "OK" then SharedRun([chain], Some(ChainFailed + Reply(rs, 0)))
        else if Reply(rs, 1) != "OK" then
          SharedRun([chain, relay, SharedReq(inNode.id, DeleteChain(t.id))], Some(RelayFailed + Reply(rs, 1)))
        else SharedRun([chain, relay], None)
  }

  /** A successful run leaves the tunnel's chain on the entry node and its relay on the exit
      node; a failed one leaves nothing, except the chain when its compensating delete was
      itself refused. */
  lemma SharedCreateOutcome(nodes: seq<Node>, t: Tunnel, rs: seq<string>)
    ensures var run := SharedCreateRun(nodes, t, rs);
      (run.err.None? <==>
         FindNode(nodes, t.inNodeId).Some? && FindNode(nodes, t.outNodeId).Some? &&
         Reply(rs, 0) == "OK" && Reply(rs, 1) == "OK") &&
      (run.err.None? ==> Apply({}, run.reqs, rs) == {Placed(t.inNodeId, Chain(t.id)), Placed(t.outNodeId, Relay(t.id))}) &&
      (run.err.Some? ==>
         Apply({}, run.reqs, rs) == if |run.reqs| == 3 && Reply(rs, 2) != "OK" then {Placed(t.inNodeId, Chain(t.id))} else {})
  {
    var run := SharedCreateRun(nodes, t, rs);
    if FindNode(nodes, t.inNodeId).Some? && FindNode(nodes, t.outNodeId).Some? {
      if |run.reqs| == 1 {
        assert [run.reqs[0]][1..] == [];
      } else if |run.reqs| == 2 {
        ApplyTwo({}, run.reqs[0], run.reqs[1], rs);
      } else {
        ApplyThree({}, run.reqs[0], run.reqs[1], run.reqs[2], rs);
      }
    }
  }

  /** `deleteTunnelSharedServices(tunnel)`: the chain on the entry node and the relay on the
      exit node, each only when its node is found (a missing node leaves the id 0); the
      answers are ignored. */
  function DeleteShared(nodes: seq<Node>, t: Tunnel): seq<SharedReq> {
    (if FindNode(nodes, t.inNodeId).Some? && t.inNodeId != 0 then [SharedReq(t.inNodeId, DeleteChain(t.id))] else []) +
    (if FindNode(nodes, t.outNodeId).Some? && t.outNodeId != 0 then [SharedReq(t.outNodeId, DeleteRelay(t.id))] else [])
  }

  /** Deleting the shared services of a tunnel whose creation succeeded, with both deletes
      answered "OK", leaves nothing installed. */
  lemma DeleteUndoesShared(nodes: seq<Node>, t: Tunnel, rs: seq<string>, rs2: seq<string>)
    requires SharedCreateRun(nodes, t, rs).err.None?
    requires t.inNodeId != 0 && t.outNodeId != 0
    requires Reply(rs2, 0) == "OK" && Reply(rs2, 1) == "OK"
    ensures Apply(Apply({}, SharedCreateRun(nodes, t, rs).reqs, rs), DeleteShared(nodes, t), rs2) == {}
  {
    SharedCreateOutcome(nodes, t, rs);
    var del := DeleteShared(nodes, t);
    assert del == [SharedReq(t.inNodeId, DeleteChain(t.id)), SharedReq(t.outNodeId, DeleteRelay(t.id))];
    ApplyTwo({Placed(t.inNodeId, Chain(t.id)), Placed(t.outNodeId, Relay(t.id))}, del[0], del[1], rs2);
  }

  /** The agents as the tunnel wrappers reach them: `sent` is every request so far and
      `replies` what the agents will answer next ("Timeout" once it runs out). */
  class Wire {
    var sent: seq<SharedReq>
    var replies: seq<string>

    constructor(script: seq<string>)
      ensures sent == [] && replies == script
    {
      sent := [];
      replies := script;
    }

    method Send(r: SharedReq) returns (msg: string)
      modifies this
      ensures msg == Reply(old(replies), 0)
      ensures sent == old(sent) + [r] && replies == Drop(old(replies), 1)
    {
      msg := Reply(replies, 0);
      sent := sent + [r];
      replies := Drop(replies, 1);
    }
  }

  /** `createTunnelSharedServices`. */
  method CreateSharedServices(wire: Wire, nodes: seq<Node>, t: Tunnel) returns (err: Option<string>)
    modifies wire
    ensures var run := SharedCreateRun(nodes, t, old(wire.replies));
      err == run.err && wire.sent == old(wire.sent) + run.reqs && wire.replies == Drop(old(wire.replies), |run.reqs|)
  {
    ghost var rs := wire.replies;
    assert Drop(rs, 0) == rs;
    var inNode := FindNode(nodes, t.inNodeId);
    if inNode.None? {
      return Some(NoEntryNode);
    }
    var outNode := FindNode(nodes, t.outNodeId);
    if outNode.None? {
      return Some(NoExitNode);
    }
    var chain := SharedReq(inNode.value.id, AddChain(t.id, RelayAddr(t), t.protocol, t.interfaceName));
    var m := wire.Send(chain);
    if m != "OK" {
      return Some(ChainFailed + m);
    }
    var relay := SharedReq(outNode.value.id, AddRelay(t.id, t.outPort, t.protocol, t.interfaceName));
    m := wire.Send(relay);
    ReplyDrop(rs, 1, 0);
    DropDrop(rs, 1, 1);
    if m != "OK" {
      var _ := wire.Send(SharedReq(inNode.value.id, DeleteChain(t.id)));
      DropDrop(rs, 2, 1);
      return Some(RelayFailed + m);
    }
    return None;
  }

  /** `deleteTunnelSharedServices`. */
  method DeleteSharedServices(wire: Wire, nodes: seq<Node>, t: Tunnel)
    modifies wire
    ensures wire.sent == old(wire.sent) + DeleteShared(nodes, t)
    ensures wire.replies == Drop(old(wire.replies), |DeleteShared(nodes, t)|)
  {
    ghost var rs := wire.replies;
    assert Drop(rs, 0) == rs;
    ghost var n := 0;
    if FindNode(nodes, t.inNodeId).Some? && t.inNodeId != 0 {
      var _ := wire.Send(SharedReq(t.inNodeId, DeleteChain(t.id)));
      n := 1;
    }
    if FindNode(nodes, t.outNodeId).Some? && t.outNodeId != 0 {
      var _ := wire.Send(SharedReq(t.outNodeId, DeleteRelay(t.id)));
      DropDrop(rs, n, 1);
    }
  }

  // ---------------------------------------------------------------- create

  /** How far a request gets before a port is allocated: refused with a message, the nil
      dereference of a missing exit node, or a drafted row (id and exit port still 0). */
  datatype Draft = Rejected(msg: string) | NilOutNode | Drafted(t: Tunnel)

  /** The fields taken from the request and the entry node: active, listening on any
      address unless told otherwise, a zero ratio standing for 1.0, and a protocol only for
      a tunnel forward. */
  function Base(dto: TunnelDto, inNode: Node): Tunnel {
    Tunnel(0, 1, dto.name, dto.inNodeId, inNode.ip, 0, "", dto.kind, dto.flow,
      if dto.kind == 2 then dto.protocol else "",
      if dto.trafficRatio == 0 then 100 else dto.trafficRatio,
      if dto.tcpListenAddr != "" then dto.tcpListenAddr else AnyAddr,
      if dto.udpListenAddr != "" then dto.udpListenAddr else AnyAddr,
      dto.interfaceName, 0, 0)
  }

  /** The checks of `CreateTunnel` in their order, and the row they build. */
  function DraftTunnel(s: Tables, dto: TunnelDto): Draft {
    if NameTaken(s.tunnels, dto.name, None) then Rejected(NameExists)
    else if dto.kind == 2 && dto.outNodeId.None? then Rejected(NoExitGiven)
    else
      match FindNode(s.nodes, dto.inNodeId)
      case None => Rejected(NoEntryNode)
      case Some(inNode) =>
        if inNode.status != 1 then Rejected(EntryOffline)
        else if dto.kind == 2 && dto.protocol == "" then Rejected(NoProtocol)
        else if dto.kind == 1 then Drafted(Base(dto, inNode).(outNodeId := dto.inNodeId, outIp := inNode.serverIp))
        else
          match dto.outNodeId
          case None => NilOutNode
          case Some(outId) =>
            if dto.inNodeId == outId then Rejected(SameNode)
            else
              match FindNode(s.nodes, outId)
              case None => Rejected(NoExitNode)
              case Some(outNode) =>
                if outNode.status != 1 then Rejected(ExitOffline)
                else Drafted(Base(dto, inNode).(outNodeId := outId, outIp := outNode.serverIp))
  }

  /** A request is drafted exactly when its name is free, its entry node is online, a
      tunnel forward names a protocol, and any tunnel other than a port forward names an
      online exit node distinct from the entry node; only a tunnel of another type without
      an exit node reaches the nil dereference. */
  lemma DraftAccepts(s: Tables, dto: TunnelDto)
    ensures DraftTunnel(s, dto).Drafted? <==>
      !NameTaken(s.tunnels, dto.name, None) && Online(s.nodes, dto.inNodeId) &&
      (dto.kind == 2 ==> dto.protocol != "") &&
      (dto.kind != 1 ==> dto.outNodeId.Some? && dto.outNodeId.value != dto.inNodeId && Online(s.nodes, dto.outNodeId.value))
    ensures DraftTunnel(s, dto).NilOutNode? <==>
      !NameTaken(s.tunnels, dto.name, None) && Online(s.nodes, dto.inNodeId) &&
      dto.kind != 1 && dto.kind != 2 && dto.outNodeId.None?
  {
  }

  /** A drafted row is active, enters where the request says with the entry node's address
      list, and leaves by the entry node itself for a port forward or by the named exit node
      otherwise, dialling that node's server address. */
  lemma DraftFields(s: Tables, dto: TunnelDto)
    requires DraftTunnel(s, dto).Drafted?
    ensures FindNode(s.nodes, dto.inNodeId).Some?
    ensures var t, inNode := DraftTunnel(s, dto).t, FindNode(s.nodes, dto.inNodeId).value;
      t.status == 1 && t.name == dto.name && t.kind == dto.kind && t.flow == dto.flow &&
      t.inNodeId == dto.inNodeId && t.inIp == inNode.ip &&
      (dto.kind == 1 ==> t.outNodeId == dto.inNodeId && t.outIp == inNode.serverIp) &&
      (dto.kind != 1 ==>
         dto.outNodeId == Some(t.outNodeId) && t.outNodeId != t.inNodeId &&
         FindNode(s.nodes, t.outNodeId).Some? && t.outIp == FindNode(s.nodes, t.outNodeId).value.serverIp) &&
      t.protocol == (if dto.kind == 2 then dto.protocol else "") &&
      (dto.trafficRatio == 0 ==> t.trafficRatio == 100) && (dto.trafficRatio != 0 ==> t.trafficRatio == dto.trafficRatio) &&
      (dto.tcpListenAddr == "" ==> t.tcpListenAddr == AnyAddr) && (dto.tcpListenAddr != "" ==> t.tcpListenAddr == dto.tcpListenAddr) &&
      (dto.udpListenAddr == "" ==> t.udpListenAddr == AnyAddr) && (dto.udpListenAddr != "" ==> t.udpListenAddr == dto.udpListenAddr) &&
      t.interfaceName == dto.interfaceName
  {
  }

  /** The row to insert: a tunnel forward gets its shared exit port first; the database
      gives the id. */
  function RowFor(s: Tables, t: Tunnel): Result<Tunnel, string> {
    if t.kind != 2 then Success(t.(id := NextTunnelId(s.tunnels)))
    else
      match OutPortAllocation(s.nodes, s.tunnels, s.forwards, t.outNodeId, None)
      case Failure(e) => Failure(AllocFailed + e)
      case Success(p) => Success(t.(outPort := p, id := NextTunnelId(s.tunnels)))
  }

  /** The effect of a handler: its answer, the tunnel table after it, and what it sent. */
  datatype TunnelEffect = TunnelEffect(out: Outcome, tunnels: seq<Tunnel>, reqs: seq<SharedReq>)

  /** The row is inserted; a tunnel forward then gets its shared services, and the row is
      deleted again when they fail. */
  function Store(tunnels: seq<Tunnel>, nodes: seq<Node>, row: Tunnel, rs: seq<string>): TunnelEffect {
    if row.kind != 2 then TunnelEffect(Ok(TunnelCreated), tunnels + [row], [])
    else
      var run := SharedCreateRun(nodes, row, rs);
      if run.err.Some? then TunnelEffect(Err(SharedFailed + run.err.value), RemoveTunnel(tunnels + [row], row.id), run.reqs)
      else TunnelEffect(Ok(TunnelCreated), tunnels + [row], run.reqs)
  }

  /** `CreateTunnel(dto)` against the tables `s` and the reply script `rs`. */
  function CreateTunnelEffect(s: Tables, dto: TunnelDto, rs: seq<string>): TunnelEffect {
    match DraftTunnel(s, dto)
    case Rejected(m) => TunnelEffect(Err(m), s.tunnels, [])
    case NilOutNode => TunnelEffect(Crashed, s.tunnels, [])
    case Drafted(t) =>
      match RowFor(s, t)
      case Failure(e) => TunnelEffect(Err(e), s.tunnels, [])
      case Success(row) => Store(s.tunnels, s.nodes, row, rs)
  }

  /** The row to insert is the draft with a fresh id; a tunnel forward's exit port is the
      lowest free one of its exit node, any other keeps exit port 0. */
  lemma RowForSound(s: Tables, t: Tunnel)
    requires RowFor(s, t).Success?
    ensures var row := RowFor(s, t).value;
      row == t.(id := row.id, outPort := row.outPort) &&
      (forall k :: 0 <= k < |s.tunnels| ==> s.tunnels[k].id < row.id) &&
      (t.kind == 2 ==> Success(row.outPort) == OutPortAllocation(s.nodes, s.tunnels, s.forwards, t.outNodeId, None)) &&
      (t.kind != 2 ==> row.outPort == t.outPort)
  {
  }

  /** A successful create appends the drafted row, with a fresh id and its exit port, and
      for a tunnel forward leaves its chain on the entry node and its relay on the exit
      node; a port forward sends nothing. */
  lemma CreateTunnelAppends(s: Tables, dto: TunnelDto, rs: seq<string>)
    requires CreateTunnelEffect(s, dto, rs).out.Ok?
    ensures DraftTunnel(s, dto).Drafted? && RowFor(s, DraftTunnel(s, dto).t).Success?
    ensures var row, e := RowFor(s, DraftTunnel(s, dto).t).value, CreateTunnelEffect(s, dto, rs);
      e.tunnels == s.tunnels + [row] &&
      (row.kind == 2 ==> Apply({}, e.reqs, rs) == {Placed(row.inNodeId, Chain(row.id)), Placed(row.outNodeId, Relay(row.id))}) &&
      (row.kind != 2 ==> e.reqs == [])
  {
    var row := RowFor(s, DraftTunnel(s, dto).t).value;
    SharedCreateOutcome(s.nodes, row, rs);
  }

  /** A refused or failed create leaves the tunnel table as it was, and the agents hold
      nothing of it, except the chain when its compensating delete was refused. */
  lemma CreateTunnelFailure(s: Tables, dto: TunnelDto, rs: seq<string>)
    requires !CreateTunnelEffect(s, dto, rs).out.Ok?
    ensures var e := CreateTunnelEffect(s, dto, rs);
      e.tunnels == s.tunnels &&
      (Apply({}, e.reqs, rs) == {} || (|e.reqs| == 3 && Reply(rs, 2) != "OK"))
  {
    var d := DraftTunnel(s, dto);
    if d.Drafted? && RowFor(s, d.t).Success? {
      var row := RowFor(s, d.t).value;
      SharedCreateOutcome(s.nodes, row, rs);
      RemoveFresh(s.tunnels, row);
    }
  }

  /** `CreateTunnel`. */
  method CreateTunnel(db: Db, wire: Wire, dto: TunnelDto) returns (out: Outcome)
    modifies db, wire
    ensures var e := CreateTunnelEffect(old(Snap(db)), dto, old(wire.replies));
      out == e.out && db.tunnels == e.tunnels &&
      wire.sent == old(wire.sent) + e.reqs && wire.replies == Drop(old(wire.replies), |e.reqs|)
    ensures db.users == old(db.users) && db.userTunnels == old(db.userTunnels) && db.nodes == old(db.nodes)
    ensures db.forwards == old(db.forwards) && db.stats == old(db.stats)
  {
    assert old(wire.sent) + [] == old(wire.sent) && Drop(wire.replies, 0) == wire.replies;
    var draft := DraftTunnel(Snap(db), dto);
    if draft.Rejected? {
      return Err(draft.msg);
    }
    if draft.NilOutNode? {
      return Crashed;
    }
    var row := draft.t;
    if row.kind == 2 {
      var port := AllocateTunnelOutPort(db.nodes, db.tunnels, db.forwards, row.outNodeId, None);
      if port.Failure? {
        return Err(AllocFailed + port.error);
      }
      row := row.(outPort := port.value);
    }
    row := row.(id := NextTunnelId(db.tunnels));
    out := Insert(db, wire, row);
  }

  /** Inserts the row and, for a tunnel forward, creates its shared services, deleting the
      row again when they fail. */
  method Insert(db: Db, wire: Wire, row: Tunnel) returns (out: Outcome)
    modifies db, wire
    ensures var e := Store(old(db.tunnels), old(db.nodes), row, old(wire.replies));
      out == e.out && db.tunnels == e.tunnels &&
      wire.sent == old(wire.sent) + e.reqs && wire.replies == Drop(old(wire.replies), |e.reqs|)
    ensures db.users == old(db.users) && db.userTunnels == old(db.userTunnels) && db.nodes == old(db.nodes)
    ensures db.forwards == old(db.forwards) && db.stats == old(db.stats)
  {
    assert old(wire.sent) + [] == old(wire.sent) && Drop(wire.replies, 0) == wire.replies;
    db.tunnels := db.tunnels + [row];
    if row.kind == 2 {
      var err := CreateSharedServices(wire, db.nodes, row);
      if err.Some? {
        db.tunnels := RemoveTunnel(db.tunnels, row.id);
        return Err(SharedFailed + err.value);
      }
    }
    return Ok(TunnelCreated);
  }

  // ---------------------------------------------------------------- delete

  /** `DeleteTunnel(id)`: refused while forwards or permissions reference the tunnel; a
      tunnel forward's shared services are deleted (answers ignored) before the row. */
  function DeleteTunnelEffect(s: Tables, id: int): TunnelEffect {
    match FindTunnel(s.tunnels, id)
    case None => TunnelEffect(Err(TunnelMissing), s.tunnels, [])
    case Some(t) =>
      var nf := ForwardsOn(s.forwards, id);
      if nf > 0 then TunnelEffect(Err(ForwardsInUse(nf)), s.tunnels, [])
      else
        var np := PermissionsOn(s.userTunnels, id);
        if np > 0 then TunnelEffect(Err(PermissionsInUse(np)), s.tunnels, [])
        else TunnelEffect(Ok(TunnelDeleted), RemoveTunnel(s.tunnels, id), if t.kind == 2 then DeleteShared(s.nodes, t) else [])
  }

  /** A tunnel is deleted exactly when it exists and no forward and no permission references
      it; a refusal changes nothing and sends nothing; a deletion removes that tunnel's rows
      and no other. */
  lemma DeleteTunnelGuard(s: Tables, id: int)
    ensures DeleteTunnelEffect(s, id).out.Ok? <==>
      FindTunnel(s.tunnels, id).Some? &&
      (forall k :: 0 <= k < |s.forwards| ==> s.forwards[k].tunnelId != id) &&
      (forall k :: 0 <= k < |s.userTunnels| ==> s.userTunnels[k].tunnelId != id)
    ensures var e := DeleteTunnelEffect(s, id);
      (e.out.Ok? ==> forall t :: t in e.tunnels <==> t in s.tunnels && t.id != id) &&
      (!e.out.Ok? ==> e.tunnels == s.tunnels && e.reqs == [])
  {
  }

  /** `DeleteTunnel`. */
  method DeleteTunnel(db: Db, wire: Wire, id: int) returns (out: Outcome)
    modifies db, wire
    ensures var e := DeleteTunnelEffect(old(Snap(db)), id);
      out == e.out && db.tunnels == e.tunnels &&
      wire.sent == old(wire.sent) + e.reqs && wire.replies == Drop(old(wire.replies), |e.reqs|)
    ensures db.users == old(db.users) && db.userTunnels == old(db.userTunnels) && db.nodes == old(db.nodes)
    ensures db.forwards == old(db.forwards) && db.stats == old(db.stats)
  {
    assert old(wire.sent) + [] == old(wire.sent) && Drop(wire.replies, 0) == wire.replies;
    var t := FindTunnel(db.tunnels, id);
    if t.None? {
      return Err(TunnelMissing);
    }
    var nf := ForwardsOn(db.forwards, id);
    if nf > 0 {
      return Err(ForwardsInUse(nf));
    }
    var np := PermissionsOn(db.userTunnels, id);
    if np > 0 {
      return Err(PermissionsInUse(np));
    }
    if t.value.kind == 2 {
      DeleteSharedServices(wire, db.nodes, t.value);
    }
    db.tunnels := RemoveTunnel(db.tunnels, id);
    return Ok(TunnelDeleted);
  }

  // ---------------------------------------------------------------- update

  /** The fields the forwards' services are built from changed: either listen address, the
      protocol or the interface. */
  predicate CriticalChange(t: Tunnel, req: TunnelUpdate) {
    t.tcpListenAddr != req.tcpListenAddr || t.udpListenAddr != req.udpListenAddr ||
    t.protocol != req.protocol || t.interfaceName != req.interfaceName
  }

  /** The row after an update: the request's fields, the ratio only when non-zero. */
  function Revised(t: Tunnel, req: TunnelUpdate): Tunnel {
    t.(name := req.name, flow := req.flow, protocol := req.protocol, interfaceName := req.interfaceName,
       tcpListenAddr := req.tcpListenAddr, udpListenAddr := req.udpListenAddr,
       trafficRatio := if req.trafficRatio != 0 then req.trafficRatio else t.trafficRatio)
  }

  /** The forwards on a tunnel, in table order. */
  function OnTunnel(forwards: seq<Forward>, id: int): (r: seq<Forward>)
    ensures forall f :: f in r <==> f in forwards && f.tunnelId == id
  {
    if |forwards| == 0 then []
    else (if forwards[0].tunnelId == id then [forwards[0]] else []) + OnTunnel(forwards[1..], id)
  }

  /** The effect of an update: the answer, the tunnel table, and the forwards whose services
      must be rebuilt. */
  datatype UpdateEffect = UpdateEffect(out: Outcome, tunnels: seq<Tunnel>, resync: seq<Forward>)

  /** `UpdateTunnel(req)` up to the synchronisation of the forwards. */
  function UpdateTunnelEffect(s: Tables, req: TunnelUpdate): UpdateEffect {
    match FindTunnel(s.tunnels, req.id)
    case None => UpdateEffect(Err(TunnelMissing), s.tunnels, [])
    case Some(t) =>
      if NameTaken(s.tunnels, req.name, Some(req.id)) then UpdateEffect(Err(NameExists), s.tunnels, [])
      else UpdateEffect(Ok(TunnelUpdated), SaveTunnel(s.tunnels, Revised(t, req)),
        if CriticalChange(t, req) then OnTunnel(s.forwards, req.id) else [])
  }

  /** An update overwrites the tunnel's row and no other; it hands every forward of the
      tunnel to the synchronisation when a critical field changed and none otherwise; a
      refusal changes nothing. */
  lemma UpdateTunnelSaves(s: Tables, req: TunnelUpdate)
    ensures var e := UpdateTunnelEffect(s, req);
      (e.out.Ok? <==> FindTunnel(s.tunnels, req.id).Some? && !NameTaken(s.tunnels, req.name, Some(req.id))) &&
      (!e.out.Ok? ==> e.tunnels == s.tunnels && e.resync == []) &&
      (e.out.Ok? ==>
        var t := FindTunnel(s.tunnels, req.id).value;
        |e.tunnels| == |s.tunnels| &&
        (forall k :: 0 <= k < |s.tunnels| ==> e.tunnels[k] == if s.tunnels[k].id == req.id then Revised(t, req) else s.tunnels[k]) &&
        (CriticalChange(t, req) ==> forall f :: f in e.resync <==> f in s.forwards && f.tunnelId == req.id) &&
        (!CriticalChange(t, req) ==> e.resync == []))
  {
  }

  /** Without a critical change, every request that builds a forward's services on the
      tunnel puts the same commands on the wire before and after the update: there is
      nothing to resynchronise. */
  lemma NonCriticalKeepsCommands(t: Tunnel, req: TunnelUpdate, ep: ForwardGost.Endpoints, name: string, f: Forward, limiter: Option<int>)
    requires !CriticalChange(t, req)
    ensures ForwardGost.Sent(ForwardGost.CreatePlan(ep, name, f, Revised(t, req), limiter)) ==
      ForwardGost.Sent(ForwardGost.CreatePlan(ep, name, f, t, limiter))
  {
    var t2 := Revised(t, req);
    assert ForwardGost.ChainTarget(t2) == ForwardGost.ChainTarget(t);
    assert GostUtil.ServicePair(name, f.inPort, limiter, f.remoteAddr, t.kind, t2, f.strategy, ForwardGost.EntryIface(f, t)) ==
      GostUtil.ServicePair(name, f.inPort, limiter, f.remoteAddr, t.kind, t, f.strategy, ForwardGost.EntryIface(f, t));
    assert ForwardGost.CallOf(ForwardGost.EntryReq(ep, name, f, t2, limiter)) == ForwardGost.CallOf(ForwardGost.EntryReq(ep, name, f, t, limiter));
  }

  /** `UpdateTunnel` up to the synchronisation of the forwards, which it returns. */
  method UpdateTunnel(db: Db, req: TunnelUpdate) returns (out: Outcome, resync: seq<Forward>)
    modifies db
    ensures var e := UpdateTunnelEffect(old(Snap(db)), req);
      out == e.out && db.tunnels == e.tunnels && resync == e.resync
    ensures db.users == old(db.users) && db.userTunnels == old(db.userTunnels) && db.nodes == old(db.nodes)
    ensures db.forwards == old(db.forwards) && db.stats == old(db.stats)
  {
    resync := [];
    var found := FindTunnel(db.tunnels, req.id);
    if found.None? {
      return Err(TunnelMissing), [];
    }
    if NameTaken(db.tunnels, req.name, Some(req.id)) {
      return Err(NameExists), [];
    }
    var tunnel := found.value;
    var critical := tunnel.tcpListenAddr != req.tcpListenAddr || tunnel.udpListenAddr != req.udpListenAddr ||
      tunnel.protocol != req.protocol || tunnel.interfaceName != req.interfaceName;
    tunnel := tunnel.(name := req.name);
    tunnel := tunnel.(flow := req.flow);
    tunnel := tunnel.(protocol := req.protocol);
    tunnel := tunnel.(interfaceName := req.interfaceName);
    tunnel := tunnel.(tcpListenAddr := req.tcpListenAddr);
    tunnel := tunnel.(udpListenAddr := req.udpListenAddr);
    if req.trafficRatio != 0 {
      tunnel := tunnel.(trafficRatio := req.trafficRatio);
    }
    db.tunnels := SaveTunnel(db.tunnels, tunnel);
    if critical {
      resync := OnTunnel(db.forwards, tunnel.id);
    }
    return Ok(TunnelUpdated), resync;
  }
}
