/** Port bookkeeping of the forward service (go-backend/service/forward_service.go): which
    ports of a node are taken by forwards, the lowest free port of a node's range, the
    availability check for a requested port, the entry/exit port allocation of a forward,
    and the guard against a forward whose target is its own entry port. */
module ForwardPorts {
  import opened Wrappers
  import opened Strs
  import opened Model
  import opened IpUtil

  const NoNode: string := "节点不存在"
  const OutOfRange: string := "端口不在允许范围内"
  const NoFreePort: string := "无可用端口"
  const NoInPort: string := "入口节点无可用端口"
  const NoOutPort: string := "出口节点无可用端口"
  /** The text of the ORM's missing-row error, which `findFreePort` passes on. */
  const RecordNotFound: string := "record not found"

  function PortTaken(port: int): string {
    "端口 " + IntToString(port) + " 已被占用"
  }

  function OutPortUnusable(e: string): string {
    "出口端口不可用: " + e
  }

  // ---------------------------------------------------------------- used ports

  /** The node a tunnel enters by (`entry`) or leaves by. */
  function Endpoint(t: Tunnel, entry: bool): int {
    if entry then t.inNodeId else t.outNodeId
  }

  /** The ids of the tunnels entering (or leaving) by the node. */
  function TunnelIds(tunnels: seq<Tunnel>, nodeId: int, entry: bool): (ids: set<int>)
    ensures forall id :: id in ids <==>
      exists k :: 0 <= k < |tunnels| && tunnels[k].id == id && Endpoint(tunnels[k], entry) == nodeId
  {
    if |tunnels| == 0 then {}
    else
      var t := tunnels[|tunnels| - 1];
      var earlier := TunnelIds(tunnels[..|tunnels| - 1], nodeId, entry);
      assert forall k :: 0 <= k < |tunnels| - 1 ==> tunnels[..|tunnels| - 1][k] == tunnels[k];
      earlier + if Endpoint(t, entry) == nodeId then {t.id} else {}
  }

  /** Whether a forward takes part, when the caller excludes one forward (the one being
      updated) from the count. */
  predicate Counted(f: Forward, exclude: Option<int>) {
    exclude.None? || f.id != exclude.value
  }

  /** The entry ports of the counted forwards on the given tunnels. */
  function InPortsUsed(forwards: seq<Forward>, ids: set<int>, exclude: Option<int>): (used: set<int>)
    ensures forall p :: p in used <==>
      exists k :: 0 <= k < |forwards| && forwards[k].tunnelId in ids && Counted(forwards[k], exclude) && forwards[k].inPort == p
  {
    if |forwards| == 0 then {}
    else
      var f := forwards[|forwards| - 1];
      var earlier := InPortsUsed(forwards[..|forwards| - 1], ids, exclude);
      assert forall k :: 0 <= k < |forwards| - 1 ==> forwards[..|forwards| - 1][k] == forwards[k];
      earlier + if f.tunnelId in ids && Counted(f, exclude) then {f.inPort} else {}
  }

  /** The non-zero exit ports of the counted forwards on the given tunnels. */
  function OutPortsUsed(forwards: seq<Forward>, ids: set<int>, exclude: Option<int>): (used: set<int>)
    ensures forall p :: p in used <==>
      exists k :: 0 <= k < |forwards| && forwards[k].tunnelId in ids && Counted(forwards[k], exclude) &&
        forwards[k].outPort != 0 && forwards[k].outPort == p
  {
    if |forwards| == 0 then {}
    else
      var f := forwards[|forwards| - 1];
      var earlier := OutPortsUsed(forwards[..|forwards| - 1], ids, exclude);
      assert forall k :: 0 <= k < |forwards| - 1 ==> forwards[..|forwards| - 1][k] == forwards[k];
      earlier + if f.tunnelId in ids && Counted(f, exclude) && f.outPort != 0 then {f.outPort} else {}
  }

  /** The ports of a node taken by forwards: entry ports of forwards on tunnels entering
      by it, and exit ports of forwards on tunnels leaving by it. */
  function UsedPorts(tunnels: seq<Tunnel>, forwards: seq<Forward>, nodeId: int, exclude: Option<int>): set<int> {
    InPortsUsed(forwards, TunnelIds(tunnels, nodeId, true), exclude) +
    OutPortsUsed(forwards, TunnelIds(tunnels, nodeId, false), exclude)
  }

  /** A forward's entry port is taken on its tunnel's entry node, and its non-zero exit port
      on the exit node, unless that forward is the excluded one. */
  lemma ForwardHoldsItsPorts(tunnels: seq<Tunnel>, forwards: seq<Forward>, i: int, j: int, exclude: Option<int>)
    requires 0 <= i < |forwards| && 0 <= j < |tunnels| && tunnels[j].id == forwards[i].tunnelId
    requires Counted(forwards[i], exclude)
    ensures forwards[i].inPort in UsedPorts(tunnels, forwards, tunnels[j].inNodeId, exclude)
    ensures forwards[i].outPort != 0 ==> forwards[i].outPort in UsedPorts(tunnels, forwards, tunnels[j].outNodeId, exclude)
  {
    assert tunnels[j].id in TunnelIds(tunnels, tunnels[j].inNodeId, true);
    assert tunnels[j].id in TunnelIds(tunnels, tunnels[j].outNodeId, false);
  }

  /** Excluding a forward only ever frees ports. */
  lemma ExcludingFrees(tunnels: seq<Tunnel>, forwards: seq<Forward>, nodeId: int, id: int)
    ensures UsedPorts(tunnels, forwards, nodeId, Some(id)) <= UsedPorts(tunnels, forwards, nodeId, None)
  {
    var inIds := TunnelIds(tunnels, nodeId, true);
    var outIds := TunnelIds(tunnels, nodeId, false);
    forall p | p in UsedPorts(tunnels, forwards, nodeId, Some(id))
      ensures p in UsedPorts(tunnels, forwards, nodeId, None)
    {
      if p in InPortsUsed(forwards, inIds, Some(id)) {
        var k :| 0 <= k < |forwards| && forwards[k].tunnelId in inIds && Counted(forwards[k], Some(id)) && forwards[k].inPort == p;
        assert Counted(forwards[k], None);
      } else {
        var k :| 0 <= k < |forwards| && forwards[k].tunnelId in outIds && Counted(forwards[k], Some(id)) &&
          forwards[k].outPort != 0 && forwards[k].outPort == p;
        assert Counted(forwards[k], None);
      }
    }
  }

  /** `getUsedPorts(nodeId, excludeForwardId)`: the tunnel ids first, then the forwards. */
  method GetUsedPorts(tunnels: seq<Tunnel>, forwards: seq<Forward>, nodeId: int, exclude: Option<int>) returns (used: set<int>)
    ensures used == UsedPorts(tunnels, forwards, nodeId, exclude)
  {
    used := {};
    var inTunnels: set<int> := {};
    var outTunnels: set<int> := {};
    var i := 0;
    while i < |tunnels|
      invariant 0 <= i <= |tunnels|
      invariant inTunnels == TunnelIds(tunnels[..i], nodeId, true)
      invariant outTunnels == TunnelIds(tunnels[..i], nodeId, false)
    {
      assert tunnels[..i + 1][..i] == tunnels[..i];
      if tunnels[i].inNodeId == nodeId {
        inTunnels := inTunnels + {tunnels[i].id};
      }
      if tunnels[i].outNodeId == nodeId {
        outTunnels := outTunnels + {tunnels[i].id};
      }
      i := i + 1;
    }
    assert tunnels[..i] == tunnels;
    var usedIn: set<int> := {};
    var usedOut: set<int> := {};
    var j := 0;
    while j < |forwards|
      invariant 0 <= j <= |forwards|
      invariant usedIn == InPortsUsed(forwards[..j], inTunnels, exclude)
      invariant usedOut == OutPortsUsed(forwards[..j], outTunnels, exclude)
    {
      assert forwards[..j + 1][..j] == forwards[..j];
      var f := forwards[j];
      if f.tunnelId in inTunnels && Counted(f, exclude) {
        usedIn := usedIn + {f.inPort};
      }
      if f.tunnelId in outTunnels && Counted(f, exclude) && f.outPort != 0 {
        usedOut := usedOut + {f.outPort};
      }
      j := j + 1;
    }
    assert forwards[..j] == forwards;
    used := usedIn + usedOut;
  }

  // ---------------------------------------------------------------- free ports

  /** The lowest port of `[lo, hi]` not in `used`, if any. */
  function LowestFree(lo: int, hi: int, used: set<int>): Option<int>
    decreases if lo <= hi then hi - lo + 1 else 0
  {
    if lo > hi then None
    else if lo !in used then Some(lo)
    else LowestFree(lo + 1, hi, used)
  }

  /** The scan finds a port of the range not in `used` below which every port is taken,
      and finds none only when the whole range is taken. */
  lemma {:induction false} LowestFreeIsLowest(lo: int, hi: int, used: set<int>)
    ensures var r := LowestFree(lo, hi, used);
      (r.Some? ==> lo <= r.value <= hi && r.value !in used && forall q :: lo <= q < r.value ==> q in used) &&
      (r.None? ==> forall q :: lo <= q <= hi ==> q in used)
    decreases if lo <= hi then hi - lo + 1 else 0
  {
    if lo <= hi && lo in used {
      LowestFreeIsLowest(lo + 1, hi, used);
    }
  }

  /** The outcome of `findFreePort(nodeId, excludeForwardId)`. */
  function FreePort(nodes: seq<Node>, tunnels: seq<Tunnel>, forwards: seq<Forward>, nodeId: int, exclude: Option<int>): Result<int, string> {
    match FindNode(nodes, nodeId)
    case None => Failure(RecordNotFound)
    case Some(node) =>
      match LowestFree(node.portSta, node.portEnd, UsedPorts(tunnels, forwards, nodeId, exclude))
      case None => Failure(NoFreePort)
      case Some(p) => Success(p)
  }

  /** `findFreePort`: scans the node's range upwards. */
  method FindFreePort(nodes: seq<Node>, tunnels: seq<Tunnel>, forwards: seq<Forward>, nodeId: int, exclude: Option<int>)
    returns (r: Result<int, string>)
    ensures r == FreePort(nodes, tunnels, forwards, nodeId, exclude)
  {
    var node := FindNode(nodes, nodeId);
    if node.None? {
      return Failure(RecordNotFound);
    }
    var used := GetUsedPorts(tunnels, forwards, nodeId, exclude);
    var p := ScanFree(node.value.portSta, node.value.portEnd, used);
    if p.None? {
      return Failure(NoFreePort);
    }
    return Success(p.value);
  }

  /** The upward scan of `findFreePort` over `[lo, hi]`. */
  method ScanFree(lo: int, hi: int, used: set<int>) returns (r: Option<int>)
    ensures r == LowestFree(lo, hi, used)
  {
    var p := lo;
    while p <= hi
      invariant LowestFree(p, hi, used) == LowestFree(lo, hi, used)
      decreases hi - p
    {
      if p !in used {
        return Some(p);
      }
      p := p + 1;
    }
    return None;
  }

  /** With ports 10000, 10001 and 10050 taken in the range 10000-10100, the next
      automatic port is 10002. */
  lemma SkipsTakenPorts()
    ensures LowestFree(10000, 10100, {10000, 10001, 10050}) == Some(10002)
  {
    var used := {10000, 10001, 10050};
    assert 10000 in used && 10001 in used && 10002 !in used;
  }

  /** The port is free on the node: the node exists, the port lies in its range and no
      counted forward holds it. */
  predicate Free(nodes: seq<Node>, tunnels: seq<Tunnel>, forwards: seq<Forward>, nodeId: int, port: int, exclude: Option<int>) {
    FindNode(nodes, nodeId).Some? &&
    FindNode(nodes, nodeId).value.portSta <= port <= FindNode(nodes, nodeId).value.portEnd &&
    port !in UsedPorts(tunnels, forwards, nodeId, exclude)
  }

  /** A found free port is free, and is the lowest free one. */
  lemma FreePortIsFree(nodes: seq<Node>, tunnels: seq<Tunnel>, forwards: seq<Forward>, nodeId: int, exclude: Option<int>)
    ensures FreePort(nodes, tunnels, forwards, nodeId, exclude).Success? ==>
      var p := FreePort(nodes, tunnels, forwards, nodeId, exclude).value;
      Free(nodes, tunnels, forwards, nodeId, p, exclude) &&
      forall q :: FindNode(nodes, nodeId).value.portSta <= q < p ==> !Free(nodes, tunnels, forwards, nodeId, q, exclude)
    ensures FreePort(nodes, tunnels, forwards, nodeId, exclude) == Failure(NoFreePort) <==>
      FindNode(nodes, nodeId).Some? &&
      forall q :: FindNode(nodes, nodeId).value.portSta <= q <= FindNode(nodes, nodeId).value.portEnd ==>
        !Free(nodes, tunnels, forwards, nodeId, q, exclude)
  {
    match FindNode(nodes, nodeId)
    case None =>
      assert RecordNotFound[0] != NoFreePort[0];
    case Some(node) =>
      LowestFreeIsLowest(node.portSta, node.portEnd, UsedPorts(tunnels, forwards, nodeId, exclude));
  }

  // ---------------------------------------------------------------- requested ports

  /** The outcome of `checkPortAvailable(nodeId, port, excludeForwardId)`. */
  function PortCheck(nodes: seq<Node>, tunnels: seq<Tunnel>, forwards: seq<Forward>, nodeId: int, port: int, exclude: Option<int>)
    : (e: Option<string>)
    ensures e.None? <==> Free(nodes, tunnels, forwards, nodeId, port, exclude)
    ensures FindNode(nodes, nodeId).None? ==> e == Some(NoNode)
    ensures e == Some(PortTaken(port)) ==> e.value[|e.value| - 2..] == "占用"
  {
    match FindNode(nodes, nodeId)
    case None => Some(NoNode)
    case Some(node) =>
      if port < node.portSta || port > node.portEnd then Some(OutOfRange)
      else if port in UsedPorts(tunnels, forwards, nodeId, exclude) then Some(PortTaken(port))
      else None
  }

  /** `isPortUsed`. */
  method IsPortUsed(tunnels: seq<Tunnel>, forwards: seq<Forward>, nodeId: int, port: int, exclude: Option<int>) returns (b: bool)
    ensures b <==> port in UsedPorts(tunnels, forwards, nodeId, exclude)
  {
    var used := GetUsedPorts(tunnels, forwards, nodeId, exclude);
    b := port in used;
  }

  /** `checkPortAvailable`. */
  method CheckPortAvailable(nodes: seq<Node>, tunnels: seq<Tunnel>, forwards: seq<Forward>, nodeId: int, port: int, exclude: Option<int>)
    returns (e: Option<string>)
    ensures e == PortCheck(nodes, tunnels, forwards, nodeId, port, exclude)
  {
    var node := FindNode(nodes, nodeId);
    if node.None? {
      return Some(NoNode);
    }
    if port < node.value.portSta || port > node.value.portEnd {
      return Some(OutOfRange);
    }
    var used := IsPortUsed(tunnels, forwards, nodeId, port, exclude);
    if used {
      return Some(PortTaken(port));
    }
    return None;
  }

  // ---------------------------------------------------------------- allocation

  datatype PortAlloc = PortAlloc(inPort: int, outPort: int)

  /** The outcome of `allocatePorts(tunnel, specifiedInPort, specifiedOutPort,
      excludeForwardId)`: a requested entry port is checked, a missing one is the lowest
      free port of the entry node; a tunnel forward (type 2) gets its exit port the same
      way on the exit node (a requested 0 counts as missing); any other forward's exit
      port is its entry port. */
  function Allocation(
    nodes: seq<Node>, tunnels: seq<Tunnel>, forwards: seq<Forward>, t: Tunnel,
    specIn: Option<int>, specOut: Option<int>, exclude: Option<int>): (r: Result<PortAlloc, string>)
    ensures r.Success? ==> Free(nodes, tunnels, forwards, t.inNodeId, r.value.inPort, exclude)
    ensures r.Success? && specIn.Some? ==> r.value.inPort == specIn.value
    ensures r.Success? && t.kind == 2 ==> Free(nodes, tunnels, forwards, t.outNodeId, r.value.outPort, exclude)
    ensures r.Success? && t.kind == 2 && specOut.Some? && specOut.value != 0 ==> r.value.outPort == specOut.value
    ensures r.Success? && t.kind != 2 ==> r.value.outPort == r.value.inPort
    ensures specIn.Some? && !Free(nodes, tunnels, forwards, t.inNodeId, specIn.value, exclude) ==> r.Failure?
    ensures specIn.None? && FreePort(nodes, tunnels, forwards, t.inNodeId, exclude).Failure? ==> r == Failure(NoInPort)
  {
    FreePortIsFree(nodes, tunnels, forwards, t.inNodeId, exclude);
    FreePortIsFree(nodes, tunnels, forwards, t.outNodeId, exclude);
    var inPort :=
      if specIn.Some? then
        match PortCheck(nodes, tunnels, forwards, t.inNodeId, specIn.value, exclude)
        case Some(e) => Failure(e)
        case None => Success(specIn.value)
      else
        match FreePort(nodes, tunnels, forwards, t.inNodeId, exclude)
        case Failure(_) => Failure(NoInPort)
        case Success(p) => Success(p);
    if inPort.Failure? then Failure(inPort.error)
    else if t.kind == 2 then
      if specOut.Some? && specOut.value != 0 then
        match PortCheck(nodes, tunnels, forwards, t.outNodeId, specOut.value, exclude)
        case Some(e) => Failure(OutPortUnusable(e))
        case None => Success(PortAlloc(inPort.value, specOut.value))
      else
        match FreePort(nodes, tunnels, forwards, t.outNodeId, exclude)
        case Failure(_) => Failure(NoOutPort)
        case Success(p) => Success(PortAlloc(inPort.value, p))
    else Success(PortAlloc(inPort.value, inPort.value))
  }

  /** `allocatePorts`. */
  method AllocatePorts(
    nodes: seq<Node>, tunnels: seq<Tunnel>, forwards: seq<Forward>, t: Tunnel,
    specIn: Option<int>, specOut: Option<int>, exclude: Option<int>) returns (r: Result<PortAlloc, string>)
    ensures r == Allocation(nodes, tunnels, forwards, t, specIn, specOut, exclude)
  {
    var inPort: int;
    if specIn.Some? {
      var e := CheckPortAvailable(nodes, tunnels, forwards, t.inNodeId, specIn.value, exclude);
      if e.Some? {
        return Failure(e.value);
      }
      inPort := specIn.value;
    } else {
      var p := FindFreePort(nodes, tunnels, forwards, t.inNodeId, exclude);
      if p.Failure? {
        return Failure(NoInPort);
      }
      inPort := p.value;
    }
    var outPort: int;
    if t.kind == 2 {
      if specOut.Some? && specOut.value != 0 {
        var e := CheckPortAvailable(nodes, tunnels, forwards, t.outNodeId, specOut.value, exclude);
        if e.Some? {
          return Failure(OutPortUnusable(e.value));
        }
        outPort := specOut.value;
      } else {
        var p := FindFreePort(nodes, tunnels, forwards, t.outNodeId, exclude);
        if p.Failure? {
          return Failure(NoOutPort);
        }
        outPort := p.value;
      }
    } else {
      outPort := inPort;
    }
    return Success(PortAlloc(inPort, outPort));
  }

  /** An allocated entry port collides with no counted forward entering by the same node,
      and an allocated exit port of a tunnel forward with no counted forward's exit port on
      the exit node. */
  lemma AllocationAvoidsCollisions(
    nodes: seq<Node>, tunnels: seq<Tunnel>, forwards: seq<Forward>, t: Tunnel,
    specIn: Option<int>, specOut: Option<int>, exclude: Option<int>, i: int, j: int)
    requires Allocation(nodes, tunnels, forwards, t, specIn, specOut, exclude).Success?
    requires 0 <= i < |forwards| && Counted(forwards[i], exclude)
    requires 0 <= j < |tunnels| && tunnels[j].id == forwards[i].tunnelId
    ensures tunnels[j].inNodeId == t.inNodeId ==>
      forwards[i].inPort != Allocation(nodes, tunnels, forwards, t, specIn, specOut, exclude).value.inPort
    ensures t.kind == 2 && tunnels[j].outNodeId == t.outNodeId && forwards[i].outPort != 0 ==>
      forwards[i].outPort != Allocation(nodes, tunnels, forwards, t, specIn, specOut, exclude).value.outPort
  {
    ForwardHoldsItsPorts(tunnels, forwards, i, j, exclude);
  }

  // ---------------------------------------------------------------- self-loop guard

  /** The trimmed entry addresses of a tunnel (its `InIp` is a comma-separated list). */
  function InIpSet(parts: seq<string>): set<string> {
    if |parts| == 0 then {} else InIpSet(parts[..|parts| - 1]) + {TrimSpace(parts[|parts| - 1])}
  }

  /** The set holds exactly the trimmed pieces. */
  lemma {:induction false} InIpSetMembers(parts: seq<string>, ip: string)
    ensures ip in InIpSet(parts) <==> exists k :: 0 <= k < |parts| && TrimSpace(parts[k]) == ip
    decreases |parts|
  {
    if |parts| > 0 {
      var init := parts[..|parts| - 1];
      InIpSetMembers(init, ip);
      if ip in InIpSet(init) {
        var k :| 0 <= k < |init| && TrimSpace(init[k]) == ip;
        assert parts[k] == init[k];
      }
      if exists k :: 0 <= k < |parts| && TrimSpace(parts[k]) == ip {
        var k :| 0 <= k < |parts| && TrimSpace(parts[k]) == ip;
        if k < |parts| - 1 {
          assert init[k] == parts[k];
        }
      }
    }
  }

  /** The host and port a target address names. */
  datatype Target = Target(ip: string, port: int)

  function TargetOf(addr: string): Target {
    Target(ExtractIp(TrimSpace(addr)), ExtractPort(TrimSpace(addr)))
  }

  /** One target per address, in order. */
  function AddressTargets(addrs: seq<string>): (ts: seq<Target>)
    ensures |ts| == |addrs|
  {
    seq(|addrs|, i requires 0 <= i < |addrs| => TargetOf(addrs[i]))
  }

  /** A target that points at an entry address on the entry port. */
  predicate Hits(t: Target, ips: set<string>, inPort: int) {
    t.ip in ips && t.port == inPort
  }

  function LoopMessage(ip: string, port: int): string {
    "远端地址不能指向入口节点的监听端口(" + ip + ":" + IntToString(port) + ")，会导致自环"
  }

  /** The complaint about the first target that loops back, if any. */
  function LoopbackError(ts: seq<Target>, ips: set<string>, inPort: int): Option<string> {
    if |ts| == 0 then None
    else if Hits(ts[0], ips, inPort) then Some(LoopMessage(ts[0].ip, inPort))
    else LoopbackError(ts[1..], ips, inPort)
  }

  /** The guard refuses exactly when some target loops back, and then names the host of
      the first such target. */
  lemma {:induction false} LoopbackNamesFirstHit(ts: seq<Target>, ips: set<string>, inPort: int)
    ensures LoopbackError(ts, ips, inPort).None? <==> forall k :: 0 <= k < |ts| ==> !Hits(ts[k], ips, inPort)
    ensures LoopbackError(ts, ips, inPort).Some? ==>
      exists k :: 0 <= k < |ts| && Hits(ts[k], ips, inPort) &&
        LoopbackError(ts, ips, inPort).value == LoopMessage(ts[k].ip, inPort) &&
        forall j :: 0 <= j < k ==> !Hits(ts[j], ips, inPort)
    decreases |ts|
  {
    if |ts| > 0 && !Hits(ts[0], ips, inPort) {
      var rest := ts[1..];
      LoopbackNamesFirstHit(rest, ips, inPort);
      assert forall k :: 1 <= k < |ts| ==> ts[k] == rest[k - 1];
      if LoopbackError(ts, ips, inPort).Some? {
        var k :| 0 <= k < |rest| && Hits(rest[k], ips, inPort) &&
          LoopbackError(rest, ips, inPort).value == LoopMessage(rest[k].ip, inPort) &&
          forall j :: 0 <= j < k ==> !Hits(rest[j], ips, inPort);
        assert ts[k + 1] == rest[k];
      }
    }
  }

  /** The set of trimmed entry addresses `checkLoopbackAddress` builds first. */
  method EntryIps(inIp: string) returns (inIps: set<string>)
    ensures inIps == InIpSet(Split(inIp, ','))
  {
    var parts := Split(inIp, ',');
    inIps := {};
    var i := 0;
    while i < |parts|
      invariant 0 <= i <= |parts|
      invariant inIps == InIpSet(parts[..i])
    {
      assert parts[..i + 1][..i] == parts[..i];
      inIps := inIps + {TrimSpace(parts[i])};
      i := i + 1;
    }
    assert parts[..i] == parts;
  }

  /** `checkLoopbackAddress(remoteAddr, tunnel, inPort)`: the set of entry addresses first,
      then each target address in order. */
  method CheckLoopbackAddress(remoteAddr: string, t: Tunnel, inPort: int) returns (err: Option<string>)
    ensures err == LoopbackError(AddressTargets(Split(remoteAddr, ',')), InIpSet(Split(t.inIp, ',')), inPort)
  {
    var inIps := EntryIps(t.inIp);
    var addrs := Split(remoteAddr, ',');
    ghost var ts := AddressTargets(addrs);
    var j := 0;
    while j < |addrs|
      invariant 0 <= j <= |addrs|
      invariant LoopbackError(ts, inIps, inPort) == LoopbackError(ts[j..], inIps, inPort)
    {
      var ip := ExtractIp(TrimSpace(addrs[j]));
      var port := ExtractPort(TrimSpace(addrs[j]));
      assert ts[j..][0] == Target(ip, port) && ts[j..][1..] == ts[j + 1..];
      if ip in inIps && port == inPort {
        return Some(LoopMessage(ip, port));
      }
      j := j + 1;
    }
    return None;
  }

  /** A target written as one of the tunnel's entry addresses and the entry port is
      refused. */
  lemma SelfTargetRefused(inIp: string, k: int, inPort: int)
    requires 0 <= k < |Split(inIp, ',')|
    requires var host := TrimSpace(Split(inIp, ',')[k]);
      host != "" && ':' !in host && host[0] != '['
    requires InInt64(inPort)
    ensures var host := TrimSpace(Split(inIp, ',')[k]);
      LoopbackError(AddressTargets(Split(host + ":" + IntToString(inPort), ',')), InIpSet(Split(inIp, ',')), inPort).Some?
  {
    var host := TrimSpace(Split(inIp, ',')[k]);
    var addr := host + ":" + IntToString(inPort);
    assert ',' !in Split(inIp, ',')[k];
    SingleTarget(host, inPort);
    InIpSetMembers(Split(inIp, ','), host);
    assert AddressTargets(Split(addr, ','))[0] == Target(host, inPort);
  }

  /** "host:port" alone is one target, naming that host and port. */
  lemma SingleTarget(host: string, port: int)
    requires host != "" && ':' !in host && ',' !in host && host[0] != '['
    requires !IsSpace(host[0])
    requires InInt64(port)
    ensures var addr := host + ":" + IntToString(port);
      Split(addr, ',') == [addr] && TargetOf(addr) == Target(host, port)
  {
    var addr := host + ":" + IntToString(port);
    NoCommaInNumber(port);
    assert ',' !in addr;
    SplitNoSep(addr, ',');
    SignedDigitsEnd(port);
    assert addr[|addr| - 1] == IntToString(port)[|IntToString(port)| - 1];
    assert Trimmed(addr);
    PlainRoundTrip(host, port);
  }

  lemma NoCommaInNumber(v: int)
    ensures ',' !in IntToString(v)
  {
    if v < 0 {
      DigitsHoldNo(NatToString(-v), ',');
    } else {
      DigitsHoldNo(NatToString(v), ',');
    }
  }
}
