/** The remote-configuration descriptors the panel sends to its agents, and the commands
    that carry them (go-backend/utils/gost_util.go). Each descriptor is a datatype in place of
    the JSON map the Go code fills key by key; an optional key is an `Option`. The agent
    round trip itself (`websocket.SendMsg`) is the `Agent` oracle: it records every command
    sent and answers with the next scripted reply, "Timeout" once the script runs out. */
module GostUtil {
  import opened Wrappers
  import opened Strs
  import opened Model

  // ---------------------------------------------------------------- descriptors

  datatype Selector = Selector(strategy: string, maxFails: int, failTimeout: string)
  datatype GostNode = GostNode(name: string, addr: string)
  datatype Forwarder = Forwarder(nodes: seq<GostNode>, selector: Selector)
  /** `handler`: its `type`, and the `chain` key when present. */
  datatype Handler = Handler(kind: string, chain: Option<string>)
  /** `listener`: its `type`, and whether `metadata.keepAlive` is set. */
  datatype Listener = Listener(kind: string, keepAlive: bool)
  /** A service: `metadata.interface` and `limiter` are optional keys. */
  datatype ServiceConfig = ServiceConfig(
    name: string, addr: string, iface: Option<string>, limiter: Option<string>,
    handler: Handler, listener: Listener, forwarder: Option<Forwarder>)
  /** The dialer's `metadata` (`keepAlive`, `ttl`), present for QUIC only. */
  datatype DialerMeta = DialerMeta(keepAlive: bool, ttl: string)
  datatype Dialer = Dialer(kind: string, meta: Option<DialerMeta>)
  datatype ChainNode = ChainNode(name: string, addr: string, connector: string, dialer: Dialer, iface: Option<string>)
  datatype Hop = Hop(name: string, nodes: seq<ChainNode>)
  datatype ChainConfig = ChainConfig(name: string, hops: seq<Hop>)
  datatype LimiterData = LimiterData(name: string, limits: seq<string>)

  /** The `data` of a command. */
  datatype Payload =
    | Services(configs: seq<ServiceConfig>)
    | Targets(services: seq<string>)
    | ChainData(chain: ChainConfig)
    | ChainUpdate(chainName: string, update: ChainConfig)
    | ChainRef(ref: string)
    | LimiterAdd(limiter: LimiterData)
    | LimiterUpdate(limiterName: string, data: LimiterData)
    | LimiterRef(limiterRef: string)

  /** A command: the message `type` and its `data`. */
  datatype Command = Command(kind: string, data: Payload)

  // ---------------------------------------------------------------- artifact names

  function TcpName(name: string): string { name + "_tcp" }
  function UdpName(name: string): string { name + "_udp" }
  function TlsName(name: string): string { name + "_tls" }
  function ChainsName(name: string): string { name + "_chains" }

  /** The four artifacts of one service name never share a name. */
  lemma ArtifactNamesDistinct(name: string)
    ensures |{TcpName(name), UdpName(name), TlsName(name), ChainsName(name)}| == 4
  {
    var n := |name|;
    assert TcpName(name)[n + 1] == 't' && UdpName(name)[n + 1] == 'u';
    assert TlsName(name)[n + 2] == 'l' && ChainsName(name)[n + 2] == 'h';
    assert TcpName(name)[n + 2] == 'c';
    assert TcpName(name) != UdpName(name) && TcpName(name) != TlsName(name);
    assert UdpName(name) != TlsName(name);
    assert |ChainsName(name)| != |TcpName(name)|;
  }

  /** `fmt.Sprintf("%d_%d_%d", forwardId, userId, userTunnelId)`: the name under which a
      forward's artifacts live, and which traffic reports carry back. */
  function ServiceName(forwardId: int, userId: int, userTunnelId: int): string {
    IntToString(forwardId) + "_" + IntToString(userId) + "_" + IntToString(userTunnelId)
  }

  lemma NoUnderscoreInNumber(v: int)
    ensures '_' !in IntToString(v)
  {
    if v < 0 {
      DigitsHoldNo(NatToString(-v), '_');
    } else {
      DigitsHoldNo(NatToString(v), '_');
    }
  }

  /** Splitting a service name at '_' gives back the three numbers. */
  lemma ServiceNameParts(forwardId: int, userId: int, userTunnelId: int)
    requires InInt64(forwardId) && InInt64(userId) && InInt64(userTunnelId)
    ensures var parts := Split(ServiceName(forwardId, userId, userTunnelId), '_');
      parts == [IntToString(forwardId), IntToString(userId), IntToString(userTunnelId)] && Atoi(parts[0]) == Some(forwardId) && Atoi(parts[1]) == Some(userId) &&
      Atoi(parts[2]) == Some(userTunnelId)
  {
    var a, b, c := IntToString(forwardId), IntToString(userId), IntToString(userTunnelId);
    NoUnderscoreInNumber(forwardId);
    NoUnderscoreInNumber(userId);
    NoUnderscoreInNumber(userTunnelId);
    assert ServiceName(forwardId, userId, userTunnelId) == a + ['_'] + (b + ['_'] + c);
    SplitThree(a, b, c, '_');
    AtoiIntToString(forwardId);
    AtoiIntToString(userId);
    AtoiIntToString(userTunnelId);
  }

  // ---------------------------------------------------------------- builders

  /** `strategyStr`: the empty strategy means "fifo". */
  function StrategyStr(s: string): (r: string)
    ensures r == (if s == "" then "fifo" else s)
    ensures r != ""
  {
    if s == "" then "fifo" else s
  }

  /** `fmt.Sprintf("node_%d", k)`. */
  function NodeName(k: int): string {
    "node_" + IntToString(k)
  }

  /** The reference reading of `createNodes`: one node per address, named from 1. */
  function Nodes(addrs: seq<string>): (nodes: seq<GostNode>)
    ensures |nodes| == |addrs|
    ensures forall i :: 0 <= i < |nodes| ==> nodes[i] == GostNode(NodeName(i + 1), addrs[i])
  {
    seq(|addrs|, i requires 0 <= i < |addrs| => GostNode(NodeName(i + 1), addrs[i]))
  }

  /** `createNodes(remoteAddr)`: the loop with its `num` counter. */
  method CreateNodes(remoteAddr: string) returns (nodes: seq<GostNode>)
    ensures nodes == Nodes(Split(remoteAddr, ','))
  {
    nodes := [];
    var split := Split(remoteAddr, ',');
    var num := 1;
    var i := 0;
    while i < |split|
      invariant 0 <= i <= |split|
      invariant num == i + 1
      invariant nodes == Nodes(split[..i])
    {
      assert split[..i + 1][..i] == split[..i];
      nodes := nodes + [GostNode(NodeName(num), split[i])];
      num := num + 1;
      i := i + 1;
    }
    assert split[..i] == split;
  }

  function NodeAddrs(nodes: seq<GostNode>): (r: seq<string>)
    ensures |r| == |nodes|
    ensures forall i :: 0 <= i < |r| ==> r[i] == nodes[i].addr
  {
    if |nodes| == 0 then [] else NodeAddrs(nodes[..|nodes| - 1]) + [nodes[|nodes| - 1].addr]
  }

  /** The nodes carry the comma-separated elements back: joining their addresses with ','
      gives the remote address again. */
  lemma NodesJoinBack(remoteAddr: string)
    ensures Join(NodeAddrs(Nodes(Split(remoteAddr, ','))), ',') == remoteAddr
  {
    var split := Split(remoteAddr, ',');
    assert NodeAddrs(Nodes(split)) == split;
    JoinSplit(remoteAddr, ',');
  }

  lemma {:induction false} NatToStringInjective(a: nat, b: nat)
    requires NatToString(a) == NatToString(b)
    ensures a == b
  {
    DigitsOfNat(a);
    DigitsOfNat(b);
  }

  /** Node names are pairwise distinct. */
  lemma NodeNamesDistinct(addrs: seq<string>, i: int, j: int)
    requires 0 <= i < j < |addrs|
    ensures Nodes(addrs)[i].name != Nodes(addrs)[j].name
  {
    var nodes := Nodes(addrs);
    assert nodes[i] == GostNode(NodeName(i + 1), addrs[i]);
    assert nodes[j] == GostNode(NodeName(j + 1), addrs[j]);
    NodeNamesDiffer(i + 1, j + 1);
  }

  lemma NodeNamesDiffer(m: nat, n: nat)
    requires m != n
    ensures NodeName(m) != NodeName(n)
  {
    if NodeName(m) == NodeName(n) {
      NodeNameInjective(m, n);
    }
  }

  lemma NodeNameInjective(m: nat, n: nat)
    requires NodeName(m) == NodeName(n)
    ensures m == n
  {
    assert NodeName(m)[5..] == IntToString(m);
    assert NodeName(n)[5..] == IntToString(n);
    NatToStringInjective(m, n);
  }

  function ForwarderFor(remoteAddr: string, strategy: string): Forwarder {
    Forwarder(Nodes(Split(remoteAddr, ',')), Selector(StrategyStr(strategy), 1, "20s"))
  }

  function IfaceMeta(interfaceName: string): Option<string> {
    if interfaceName != "" then Some(interfaceName) else None
  }

  /** `createServiceConfig`: `fowType` 1 is a direct port forward (with a forwarder to the
      remote addresses); any other type hands the traffic to the chain `name_chains`. */
  function CreateServiceConfig(
    name: string, inPort: int, limiter: Option<int>, remoteAddr: string, protocol: string,
    fowType: int, tunnel: Tunnel, strategy: string, interfaceName: string): ServiceConfig
  {
    var listen := if protocol == "udp" then tunnel.udpListenAddr else tunnel.tcpListenAddr;
    ServiceConfig(
      name + "_" + protocol,
      listen + ":" + IntToString(inPort),
      IfaceMeta(interfaceName),
      if limiter.Some? then Some(IntToString(limiter.value)) else None,
      Handler(protocol, if fowType != 1 then Some(ChainsName(name)) else None),
      Listener(protocol, protocol == "udp"),
      if fowType == 1 then Some(ForwarderFor(remoteAddr, strategy)) else None)
  }

  /** `createRemoteServiceConfig`: the exit-side relay listening on `outPort`. */
  function CreateRemoteServiceConfig(
    name: string, outPort: int, remoteAddr: string, protocol: string, strategy: string,
    interfaceName: string): ServiceConfig
  {
    ServiceConfig(
      TlsName(name), ":" + IntToString(outPort), IfaceMeta(interfaceName), None,
      Handler("relay", None), Listener(protocol, false), Some(ForwarderFor(remoteAddr, strategy)))
  }

  /** `createChainConfig`: one hop with one relay node dialling `remoteAddr`. */
  function CreateChainConfig(name: string, remoteAddr: string, protocol: string, interfaceName: string): ChainConfig {
    var dialer := Dialer(protocol, if protocol == "quic" then Some(DialerMeta(true, "10s")) else None);
    var node := ChainNode("node-" + name, remoteAddr, "relay", dialer, IfaceMeta(interfaceName));
    ChainConfig(ChainsName(name), [Hop("hop-" + name, [node])])
  }

  /** `createLimiterData`: one limit rule, the speed in MB both ways. */
  function CreateLimiterData(name: string, speed: string): LimiterData {
    LimiterData(name, ["$ " + speed + "MB " + speed + "MB"])
  }

  // ---------------------------------------------------------------- commands

  function AddLimitersCmd(name: int, speed: string): Command {
    Command("AddLimiters", LimiterAdd(CreateLimiterData(IntToString(name), speed)))
  }

  function UpdateLimitersCmd(name: int, speed: string): Command {
    Command("UpdateLimiters", LimiterUpdate(IntToString(name), CreateLimiterData(IntToString(name), speed)))
  }

  function DeleteLimitersCmd(name: int): Command {
    Command("DeleteLimiters", LimiterRef(IntToString(name)))
  }

  /** The tcp and udp services of one forward. */
  function ServicePair(
    name: string, inPort: int, limiter: Option<int>, remoteAddr: string, fowType: int,
    tunnel: Tunnel, strategy: string, interfaceName: string): seq<ServiceConfig>
  {
    [CreateServiceConfig(name, inPort, limiter, remoteAddr, "tcp", fowType, tunnel, strategy, interfaceName),
     CreateServiceConfig(name, inPort, limiter, remoteAddr, "udp", fowType, tunnel, strategy, interfaceName)]
  }

  function AddServiceCmd(
    name: string, inPort: int, limiter: Option<int>, remoteAddr: string, fowType: int,
    tunnel: Tunnel, strategy: string, interfaceName: string): Command
  {
    Command("AddService", Services(ServicePair(name, inPort, limiter, remoteAddr, fowType, tunnel, strategy, interfaceName)))
  }

  function UpdateServiceCmd(
    name: string, inPort: int, limiter: Option<int>, remoteAddr: string, fowType: int,
    tunnel: Tunnel, strategy: string, interfaceName: string): Command
  {
    Command("UpdateService", Services(ServicePair(name, inPort, limiter, remoteAddr, fowType, tunnel, strategy, interfaceName)))
  }

  function ServiceTargets(name: string): seq<string> { [TcpName(name), UdpName(name)] }

  function DeleteServiceCmd(name: string): Command { Command("DeleteService", Targets(ServiceTargets(name))) }
  function PauseServiceCmd(name: string): Command { Command("PauseService", Targets(ServiceTargets(name))) }
  function ResumeServiceCmd(name: string): Command { Command("ResumeService", Targets(ServiceTargets(name))) }

  /** The remote service travels as a one-element `AddService`/`UpdateService` list. */
  function AddRemoteServiceCmd(name: string, outPort: int, remoteAddr: string, protocol: string, strategy: string, interfaceName: string): Command {
    Command("AddService", Services([CreateRemoteServiceConfig(name, outPort, remoteAddr, protocol, strategy, interfaceName)]))
  }

  function UpdateRemoteServiceCmd(name: string, outPort: int, remoteAddr: string, protocol: string, strategy: string, interfaceName: string): Command {
    Command("UpdateService", Services([CreateRemoteServiceConfig(name, outPort, remoteAddr, protocol, strategy, interfaceName)]))
  }

  function DeleteRemoteServiceCmd(name: string): Command { Command("DeleteService", Targets([TlsName(name)])) }
  function PauseRemoteServiceCmd(name: string): Command { Command("PauseService", Targets([TlsName(name)])) }
  function ResumeRemoteServiceCmd(name: string): Command { Command("ResumeService", Targets([TlsName(name)])) }

  function AddChainsCmd(name: string, remoteAddr: string, protocol: string, interfaceName: string): Command {
    Command("AddChains", ChainData(CreateChainConfig(name, remoteAddr, protocol, interfaceName)))
  }

  function UpdateChainsCmd(name: string, remoteAddr: string, protocol: string, interfaceName: string): Command {
    Command("UpdateChains", ChainUpdate(ChainsName(name), CreateChainConfig(name, remoteAddr, protocol, interfaceName)))
  }

  function DeleteChainsCmd(name: string): Command { Command("DeleteChains", ChainRef(ChainsName(name))) }

  // ---------------------------------------------------------------- effects

  function ConfigNames(configs: seq<ServiceConfig>): (r: seq<string>)
    ensures |r| == |configs|
    ensures forall i :: 0 <= i < |r| ==> r[i] == configs[i].name
  {
    if |configs| == 0 then [] else ConfigNames(configs[..|configs| - 1]) + [configs[|configs| - 1].name]
  }

  /** The artifact names a command creates or replaces on its node when it succeeds. */
  function Creates(cmd: Command): set<string> {
    match cmd.data
    case Services(configs) =>
      if cmd.kind == "AddService" || cmd.kind == "UpdateService" then set n | n in ConfigNames(configs) else {}
    case ChainData(chain) => if cmd.kind == "AddChains" then {chain.name} else {}
    case ChainUpdate(chainName, update) => if cmd.kind == "UpdateChains" then {chainName} else {}
    case _ => {}
  }

  /** The artifact names a command removes from its node when it succeeds. */
  function Removes(cmd: Command): set<string> {
    match cmd.data
    case Targets(services) => if cmd.kind == "DeleteService" then set n | n in services else {}
    case ChainRef(ref) => if cmd.kind == "DeleteChains" then {ref} else {}
    case _ => {}
  }

  /** The artifact names a pause or resume command acts on. */
  function Switches(cmd: Command): set<string> {
    match cmd.data
    case Targets(services) => if cmd.kind == "PauseService" || cmd.kind == "ResumeService" then set n | n in services else {}
    case _ => {}
  }

  /** Names line up across the wrappers: a delete, pause or resume reaches exactly what the
      matching add created, the service handler names the chain the chain command creates,
      and an update replaces what the add created. */
  lemma NamesLineUp(
    name: string, inPort: int, limiter: Option<int>, remoteAddr: string, fowType: int,
    tunnel: Tunnel, strategy: string, interfaceName: string, outPort: int, protocol: string)
    ensures Removes(DeleteServiceCmd(name)) == Creates(AddServiceCmd(name, inPort, limiter, remoteAddr, fowType, tunnel, strategy, interfaceName))
    ensures Creates(UpdateServiceCmd(name, inPort, limiter, remoteAddr, fowType, tunnel, strategy, interfaceName)) ==
      Creates(AddServiceCmd(name, inPort, limiter, remoteAddr, fowType, tunnel, strategy, interfaceName))
    ensures Switches(PauseServiceCmd(name)) == Switches(ResumeServiceCmd(name)) == Removes(DeleteServiceCmd(name))
    ensures Removes(DeleteRemoteServiceCmd(name)) == Creates(AddRemoteServiceCmd(name, outPort, remoteAddr, protocol, strategy, interfaceName))
    ensures Switches(PauseRemoteServiceCmd(name)) == Switches(ResumeRemoteServiceCmd(name)) == Removes(DeleteRemoteServiceCmd(name))
    ensures Removes(DeleteChainsCmd(name)) == Creates(AddChainsCmd(name, remoteAddr, protocol, interfaceName))
    ensures Creates(UpdateChainsCmd(name, remoteAddr, protocol, interfaceName)) == Creates(AddChainsCmd(name, remoteAddr, protocol, interfaceName))
    ensures fowType != 1 ==>
      forall c :: c in ServicePair(name, inPort, limiter, remoteAddr, fowType, tunnel, strategy, interfaceName) ==>
        c.handler.chain == Some(CreateChainConfig(name, remoteAddr, protocol, interfaceName).name)
  {
    ServiceNames(name, inPort, limiter, remoteAddr, fowType, tunnel, strategy, interfaceName);
    RemoteNames(name, outPort, remoteAddr, protocol, strategy, interfaceName);
  }

  lemma ServiceNames(
    name: string, inPort: int, limiter: Option<int>, remoteAddr: string, fowType: int,
    tunnel: Tunnel, strategy: string, interfaceName: string)
    ensures ConfigNames(ServicePair(name, inPort, limiter, remoteAddr, fowType, tunnel, strategy, interfaceName)) == [TcpName(name), UdpName(name)]
  {
    assert name + "_" + "tcp" == TcpName(name) && name + "_" + "udp" == UdpName(name);
  }

  lemma RemoteNames(name: string, outPort: int, remoteAddr: string, protocol: string, strategy: string, interfaceName: string)
    ensures ConfigNames([CreateRemoteServiceConfig(name, outPort, remoteAddr, protocol, strategy, interfaceName)]) == [TlsName(name)]
  {
  }

  /** A forward's direct service gets a forwarder exactly when the type is 1, and the chain
      handler exactly otherwise; the udp listener alone keeps idle sessions alive. */
  lemma ServiceShape(
    name: string, inPort: int, limiter: Option<int>, remoteAddr: string, protocol: string,
    fowType: int, tunnel: Tunnel, strategy: string, interfaceName: string)
    ensures var c := CreateServiceConfig(name, inPort, limiter, remoteAddr, protocol, fowType, tunnel, strategy, interfaceName);
      c.forwarder.Some? != c.handler.chain.Some? &&
      (c.forwarder.Some? ==> |c.forwarder.value.nodes| == |Split(remoteAddr, ',')| && c.forwarder.value.selector.strategy != "") &&
      c.listener.keepAlive == (protocol == "udp") &&
      c.limiter.Some? == limiter.Some? && c.iface.Some? == (interfaceName != "") &&
      c.addr[..|c.addr| - |IntToString(inPort)| - 1] == (if protocol == "udp" then tunnel.udpListenAddr else tunnel.tcpListenAddr)
  {
  }

  /** The exit-side relay is named `name_tls`, listens on `:outPort` with a relay handler,
      never keeps udp sessions alive, and forwards to the remote addresses in order. */
  lemma RemoteShape(name: string, outPort: int, remoteAddr: string, protocol: string, strategy: string, interfaceName: string)
    ensures var c := CreateRemoteServiceConfig(name, outPort, remoteAddr, protocol, strategy, interfaceName);
      c.name == TlsName(name) && c.addr == ":" + IntToString(outPort) &&
      c.handler == Handler("relay", None) && c.listener == Listener(protocol, false) &&
      c.limiter.None? && c.iface.Some? == (interfaceName != "") &&
      c.forwarder.Some? && c.forwarder.value.selector.strategy != "" &&
      Join(NodeAddrs(c.forwarder.value.nodes), ',') == remoteAddr
  {
    NodesJoinBack(remoteAddr);
  }

  /** The chain is named `name_chains` and has one hop with one relay node dialling
      `remoteAddr`; only a QUIC dialer carries keep-alive metadata. */
  lemma ChainShape(name: string, remoteAddr: string, protocol: string, interfaceName: string)
    ensures var c := CreateChainConfig(name, remoteAddr, protocol, interfaceName);
      c.name == ChainsName(name) && |c.hops| == 1 && |c.hops[0].nodes| == 1 &&
      c.hops[0].nodes[0].addr == remoteAddr && c.hops[0].nodes[0].connector == "relay" &&
      c.hops[0].nodes[0].dialer.kind == protocol &&
      (c.hops[0].nodes[0].dialer.meta.Some? <==> protocol == "quic") &&
      c.hops[0].nodes[0].iface.Some? == (interfaceName != "")
  {
  }

  /** The three limiter commands address the same limiter, named by the decimal id, and the
      rule caps both directions at the same speed. */
  lemma LimiterNamesLineUp(name: int, speed: string)
    ensures AddLimitersCmd(name, speed).data.limiter.name == IntToString(name)
    ensures UpdateLimitersCmd(name, speed).data.limiterName == IntToString(name)
    ensures UpdateLimitersCmd(name, speed).data.data == AddLimitersCmd(name, speed).data.limiter
    ensures DeleteLimitersCmd(name).data.limiterRef == IntToString(name)
    ensures AddLimitersCmd(name, speed).data.limiter.limits == ["$ " + speed + "MB " + speed + "MB"]
  {
  }

  // ---------------------------------------------------------------- the agent oracle

  /** One command sent to one node. */
  datatype Call = Call(nodeId: int, cmd: Command)

  /** The reply the `k`-th command gets from a reply script: "Timeout" once it runs out. */
  function Reply(script: seq<string>, k: nat): string {
    if k < |script| then script[k] else "Timeout"
  }

  /** The script left after `n` commands. */
  function Drop(script: seq<string>, n: nat): seq<string>
  {
    if n <= |script| then script[n..] else []
  }

  lemma ReplyDrop(script: seq<string>, n: nat, k: nat)
    ensures Reply(Drop(script, n), k) == Reply(script, n + k)
  {
  }

  lemma DropDrop(script: seq<string>, a: nat, b: nat)
    ensures Drop(Drop(script, a), b) == Drop(script, a + b)
  {
  }

  /** The agents as the services see them through `websocket.SendMsg`: `calls` is every
      command sent so far, in order, and `answers` the reply each got; `replies` is what the
      agents will answer next ("OK", a message holding "not found", "Timeout", "节点不在线",
      or any other text). */
  class Agent {
    var calls: seq<Call>
    var answers: seq<string>
    var replies: seq<string>

    predicate Valid()
      reads this
    {
      |answers| == |calls|
    }

    constructor(script: seq<string>)
      ensures Valid() && calls == [] && replies == script
    {
      calls := [];
      answers := [];
      replies := script;
    }

    /** The answer the next command will get. */
    function NextReply(): string
      reads this
    {
      Reply(replies, 0)
    }

    method Send(nodeId: int, cmd: Command) returns (msg: string)
      requires Valid()
      modifies this
      ensures Valid()
      ensures msg == old(NextReply())
      ensures calls == old(calls) + [Call(nodeId, cmd)]
      ensures answers == old(answers) + [msg]
      ensures replies == Drop(old(replies), 1)
    {
      msg := NextReply();
      calls := calls + [Call(nodeId, cmd)];
      answers := answers + [msg];
      replies := Drop(replies, 1);
    }
  }
}
