/** How the forward service drives the agents (go-backend/service/forward_service.go): the
    command sequences of `createGostServices`, `updateGostServices` and `deleteGostServices`,
    the compensating commands sent when a step fails, and the ordering `UpdateForward` uses
    when a forward moves to another tunnel. Each sequence is a function of the replies the
    agents give (a `Run`), and each method is proved to send exactly that run. */
module ForwardGost {
  import opened Wrappers
  import opened Strs
  import opened Model
  import opened GostUtil

  const NoEntryNode: string := "入口节点不存在"
  const NoExitNode: string := "出口节点不存在"
  const NotFound: string := "not found"

  // ---------------------------------------------------------------- requests

  /** The `utils` wrapper a service routine calls, with its arguments. */
  datatype Op =
    | AddChains(name: string, target: string, protocol: string, iface: string)
    | UpdateChains(name: string, target: string, protocol: string, iface: string)
    | DeleteChains(name: string)
    | AddRemote(name: string, outPort: int, remoteAddr: string, protocol: string, strategy: string, iface: string)
    | UpdateRemote(name: string, outPort: int, remoteAddr: string, protocol: string, strategy: string, iface: string)
    | DeleteRemote(name: string)
    | AddSvc(name: string, inPort: int, limiter: Option<int>, remoteAddr: string, fowType: int, tunnel: Tunnel, strategy: string, iface: string)
    | UpdateSvc(name: string, inPort: int, limiter: Option<int>, remoteAddr: string, fowType: int, tunnel: Tunnel, strategy: string, iface: string)
    | DeleteSvc(name: string)
    | PauseSvc(name: string)
    | ResumeSvc(name: string)
    | PauseRemote(name: string)
    | ResumeRemote(name: string)

  /** A wrapper call addressed to a node. */
  datatype Req = Req(node: int, op: Op)

  /** The command each wrapper puts on the wire. */
  function CommandOf(op: Op): Command {
    match op
    case AddChains(n, tg, p, i) => AddChainsCmd(n, tg, p, i)
    case UpdateChains(n, tg, p, i) => UpdateChainsCmd(n, tg, p, i)
    case DeleteChains(n) => DeleteChainsCmd(n)
    case AddRemote(n, o, r, p, s, i) => AddRemoteServiceCmd(n, o, r, p, s, i)
    case UpdateRemote(n, o, r, p, s, i) => UpdateRemoteServiceCmd(n, o, r, p, s, i)
    case DeleteRemote(n) => DeleteRemoteServiceCmd(n)
    case AddSvc(n, ip, l, r, ft, t, s, i) => AddServiceCmd(n, ip, l, r, ft, t, s, i)
    case UpdateSvc(n, ip, l, r, ft, t, s, i) => UpdateServiceCmd(n, ip, l, r, ft, t, s, i)
    case DeleteSvc(n) => DeleteServiceCmd(n)
    case PauseSvc(n) => PauseServiceCmd(n)
    case ResumeSvc(n) => ResumeServiceCmd(n)
    case PauseRemote(n) => PauseRemoteServiceCmd(n)
    case ResumeRemote(n) => ResumeRemoteServiceCmd(n)
  }

  /** The call a request puts on the wire. */
  function CallOf(r: Req): Call {
    Call(r.node, CommandOf(r.op))
  }

  /** The calls a sequence of requests puts on the wire. */
  function Sent(reqs: seq<Req>): (calls: seq<Call>)
    ensures |calls| == |reqs|
  {
    seq(|reqs|, i requires 0 <= i < |reqs| => CallOf(reqs[i]))
  }

  lemma SentAppend(a: seq<Req>, b: seq<Req>)
    ensures Sent(a + b) == Sent(a) + Sent(b)
  {
    assert forall i :: 0 <= i < |b| ==> Sent(a + b)[|a| + i] == CallOf(b[i]);
  }

  /** The artifact names a request creates or replaces when it succeeds. */
  function OpCreates(op: Op): set<string> {
    match op
    case AddChains(n, _, _, _) => {ChainsName(n)}
    case UpdateChains(n, _, _, _) => {ChainsName(n)}
    case AddRemote(n, _, _, _, _, _) => {TlsName(n)}
    case UpdateRemote(n, _, _, _, _, _) => {TlsName(n)}
    case AddSvc(n, _, _, _, _, _, _, _) => {TcpName(n), UdpName(n)}
    case UpdateSvc(n, _, _, _, _, _, _, _) => {TcpName(n), UdpName(n)}
    case _ => {}
  }

  /** The artifact names a request removes when it succeeds. */
  function OpRemoves(op: Op): set<string> {
    match op
    case DeleteChains(n) => {ChainsName(n)}
    case DeleteRemote(n) => {TlsName(n)}
    case DeleteSvc(n) => {TcpName(n), UdpName(n)}
    case _ => {}
  }

  /** The names a request is said to create or remove are the ones its command carries. */
  lemma OpNamesAgree(op: Op)
    ensures OpCreates(op) == Creates(CommandOf(op))
    ensures OpRemoves(op) == Removes(CommandOf(op))
  {
    if op.AddChains? || op.UpdateChains? {
      ChainOpNamesAgree(op);
    } else if op.AddRemote? || op.UpdateRemote? {
      RemoteOpNamesAgree(op);
    } else if op.AddSvc? || op.UpdateSvc? {
      SvcOpNamesAgree(op);
    }
  }

  lemma ChainOpNamesAgree(op: Op)
    requires op.AddChains? || op.UpdateChains?
    ensures OpCreates(op) == Creates(CommandOf(op)) && OpRemoves(op) == Removes(CommandOf(op))
  {
    NamesLineUp(op.name, 0, None, op.target, 1, Tunnel(0, 0, "", 0, "", 0, "", 0, 0, "", 0, "", "", "", 0, 0), "", op.iface, 0, op.protocol);
  }

  lemma RemoteOpNamesAgree(op: Op)
    requires op.AddRemote? || op.UpdateRemote?
    ensures OpCreates(op) == Creates(CommandOf(op)) && OpRemoves(op) == Removes(CommandOf(op))
  {
    if op.AddRemote? {
      NamesLineUp(op.name, 0, None, op.remoteAddr, 1, Tunnel(0, 0, "", 0, "", 0, "", 0, 0, "", 0, "", "", "", 0, 0), op.strategy, op.iface, op.outPort, op.protocol);
    } else {
      assert ConfigNames([CreateRemoteServiceConfig(op.name, op.outPort, op.remoteAddr, op.protocol, op.strategy, op.iface)]) == [TlsName(op.name)];
    }
  }

  lemma SvcOpNamesAgree(op: Op)
    requires op.AddSvc? || op.UpdateSvc?
    ensures OpCreates(op) == Creates(CommandOf(op)) && OpRemoves(op) == Removes(CommandOf(op))
  {
    NamesLineUp(op.name, op.inPort, op.limiter, op.remoteAddr, op.fowType, op.tunnel, op.strategy, op.iface, 0, "");
  }

  // ---------------------------------------------------------------- what requests reach

  /** Names on one node. */
  function Tag(node: int, names: set<string>): set<(int, string)> {
    set a | a in names :: (node, a)
  }

  /** What the requests create (or replace), node by node, if they succeed. */
  function Created(reqs: seq<Req>): set<(int, string)> {
    if |reqs| == 0 then {} else Tag(reqs[0].node, OpCreates(reqs[0].op)) + Created(reqs[1..])
  }

  /** What the requests remove, node by node, if they succeed. */
  function Removed(reqs: seq<Req>): set<(int, string)> {
    if |reqs| == 0 then {} else Tag(reqs[0].node, OpRemoves(reqs[0].op)) + Removed(reqs[1..])
  }

  lemma {:induction false} ReachAppend(a: seq<Req>, b: seq<Req>)
    ensures Created(a + b) == Created(a) + Created(b)
    ensures Removed(a + b) == Removed(a) + Removed(b)
    decreases |a|
  {
    if |a| > 0 {
      assert (a + b)[1..] == a[1..] + b;
      ReachAppend(a[1..], b);
    } else {
      assert a + b == b;
    }
  }

  lemma TagPair(node: int, x: string, y: string)
    ensures Tag(node, {x, y}) == {(node, x), (node, y)}
    ensures Tag(node, {x}) == {(node, x)}
  {
  }

  // ---------------------------------------------------------------- nodes and names

  /** The nodes a tunnel's services live on: the entry node, and the exit node of a tunnel
      forward (type 2). */
  datatype Endpoints = Endpoints(inNode: int, outNode: Option<int>)

  /** `getRequiredNodes(tunnel)`: both lookups must succeed, and on any failure neither
      node is returned. */
  function RequiredNodes(nodes: seq<Node>, t: Tunnel): (r: Result<Endpoints, string>)
    ensures r.Success? <==> FindNode(nodes, t.inNodeId).Some? && (t.kind == 2 ==> FindNode(nodes, t.outNodeId).Some?)
    ensures r.Success? ==> r.value.inNode == t.inNodeId && (r.value.outNode.Some? <==> t.kind == 2)
    ensures r.Success? && t.kind == 2 ==> r.value.outNode.value == t.outNodeId
    ensures FindNode(nodes, t.inNodeId).None? ==> r == Failure(NoEntryNode)
  {
    match FindNode(nodes, t.inNodeId)
    case None => Failure(NoEntryNode)
    case Some(inNode) =>
      if t.kind == 2 then
        match FindNode(nodes, t.outNodeId)
        case None => Failure(NoExitNode)
        case Some(outNode) => Success(Endpoints(inNode.id, Some(outNode.id)))
      else Success(Endpoints(inNode.id, None))
  }

  /** The address the entry node's chain dials: the exit address and the tunnel's chain
      port, the address in brackets when it is an IPv6 literal. */
  function ChainTarget(t: Tunnel): string {
    if ':' in t.outIp then "[" + t.outIp + "]:" + IntToString(t.chainPort)
    else t.outIp + ":" + IntToString(t.chainPort)
  }

  /** `buildServiceName` takes the permission's id, 0 without one. */
  function UtId(ut: Option<UserTunnel>): int {
    if ut.Some? then ut.value.id else 0
  }

  /** Only a port forward (type 1) binds its entry service to the forward's interface. */
  function EntryIface(f: Forward, t: Tunnel): string {
    if t.kind == 1 then f.interfaceName else ""
  }

  /** What a forward's services consist of once created: the tcp and udp entry services,
      and for a tunnel forward the chain on the entry node and the relay on the exit node. */
  function Installed(ep: Endpoints, name: string): set<(int, string)> {
    {(ep.inNode, TcpName(name)), (ep.inNode, UdpName(name))} +
    if ep.outNode.Some? then {(ep.inNode, ChainsName(name)), (ep.outNode.value, TlsName(name))} else {}
  }

  // ---------------------------------------------------------------- create

  /** The requests a routine sent, in order, and the error it returned. */
  datatype Run = Run(reqs: seq<Req>, err: Option<string>)

  /** Whatever a request of the run created (it was answered "OK") is removed again by a
      later request of the run on the same node. */
  predicate Compensated(reqs: seq<Req>, rs: seq<string>) {
    forall i, a :: 0 <= i < |reqs| && Reply(rs, i) == "OK" && a in OpCreates(reqs[i].op) ==>
      exists j :: i < j < |reqs| && reqs[j].node == reqs[i].node && a in OpRemoves(reqs[j].op)
  }

  /** The chain a tunnel forward's entry node dials the exit node through. */
  function ChainReq(ep: Endpoints, name: string, t: Tunnel): Req {
    Req(ep.inNode, AddChains(name, ChainTarget(t), t.protocol, t.interfaceName))
  }

  /** The relay on the exit node of a tunnel forward. */
  function RelayReq(ep: Endpoints, name: string, f: Forward, t: Tunnel): Req
    requires ep.outNode.Some?
  {
    Req(ep.outNode.value, AddRemote(name, t.chainPort, f.remoteAddr, t.protocol, f.strategy, f.interfaceName))
  }

  /** The tcp and udp services on the entry node. */
  function EntryReq(ep: Endpoints, name: string, f: Forward, t: Tunnel, limiter: Option<int>): Req {
    Req(ep.inNode, AddSvc(name, f.inPort, limiter, f.remoteAddr, t.kind, t, f.strategy, EntryIface(f, t)))
  }

  /** The requests of a successful `createGostServices`: for a tunnel forward the chain on
      the entry node and the relay on the exit node first, then the entry service. */
  function CreatePlan(ep: Endpoints, name: string, f: Forward, t: Tunnel, limiter: Option<int>): seq<Req> {
    if ep.outNode.Some? then [ChainReq(ep, name, t), RelayReq(ep, name, f, t), EntryReq(ep, name, f, t, limiter)]
    else [EntryReq(ep, name, f, t, limiter)]
  }

  /** `createGostServices(forward, tunnel, limiter, userTunnel)` against the reply script
      `rs`: the services are named after the forward, its owner and the permission. */
  function CreateRun(nodes: seq<Node>, f: Forward, t: Tunnel, limiter: Option<int>, utId: int, rs: seq<string>): Run {
    match RequiredNodes(nodes, t)
    case Failure(e) => Run([], Some(e))
    case Success(ep) => CreateOn(ep, ServiceName(f.id, f.userId, utId), f, t, limiter, rs)
  }

  /** `createGostServices` once both nodes are known: a failed chain stops at once; a
      failed relay deletes the chain; a failed entry service deletes the chain and, when
      there is an exit node, the relay. */
  function CreateOn(ep: Endpoints, name: string, f: Forward, t: Tunnel, limiter: Option<int>, rs: seq<string>): Run
    requires ep.outNode.Some? <==> t.kind == 2
  {
    var entry := EntryReq(ep, name, f, t, limiter);
    var delChain := Req(ep.inNode, DeleteChains(name));
    if t.kind == 2 then
      var chain, relay := ChainReq(ep, name, t), RelayReq(ep, name, f, t);
      var delRelay := Req(ep.outNode.value, DeleteRemote(name));
      if Reply(rs, 0) != "OK" then Run([chain], Some("Chain Error: " + Reply(rs, 0)))
      else if Reply(rs, 1) != "OK" then Run([chain, relay, delChain], Some("Remote Error: " + Reply(rs, 1)))
      else if Reply(rs, 2) != "OK" then Run([chain, relay, entry, delChain, delRelay], Some("Service Error: " + Reply(rs, 2)))
      else Run([chain, relay, entry], None)
    else if Reply(rs, 0) != "OK" then Run([entry, delChain], Some("Service Error: " + Reply(rs, 0)))
    else Run([entry], None)
  }

  lemma PlanInstalls(ep: Endpoints, name: string, f: Forward, t: Tunnel, limiter: Option<int>)
    ensures Created(CreatePlan(ep, name, f, t, limiter)) == Installed(ep, name)
    ensures Removed(CreatePlan(ep, name, f, t, limiter)) == {}
  {
    var plan := CreatePlan(ep, name, f, t, limiter);
    var last := [EntryReq(ep, name, f, t, limiter)];
    assert Created(last) == {(ep.inNode, TcpName(name)), (ep.inNode, UdpName(name))} by {
      assert last[1..] == [];
      TagPair(ep.inNode, TcpName(name), UdpName(name));
    }
    assert Removed(last) == {} by {
      assert last[1..] == [];
    }
    if ep.outNode.Some? {
      var chain, relay := [ChainReq(ep, name, t)], [RelayReq(ep, name, f, t)];
      assert plan == chain + relay + last;
      ReachAppend(chain + relay, last);
      ReachAppend(chain, relay);
      assert chain[1..] == [] && relay[1..] == [];
      TagPair(ep.inNode, ChainsName(name), ChainsName(name));
      TagPair(ep.outNode.value, TlsName(name), TlsName(name));
      assert Created(chain) == {(ep.inNode, ChainsName(name))};
      assert Created(relay) == {(ep.outNode.value, TlsName(name))};
    } else {
      assert plan == last;
    }
  }

  /** A create succeeds exactly when the nodes exist and every request of the plan is
      answered "OK"; it then sends just the plan. */
  lemma CreateSucceeds(ep: Endpoints, name: string, f: Forward, t: Tunnel, limiter: Option<int>, rs: seq<string>)
    requires ep.outNode.Some? <==> t.kind == 2
    ensures var run := CreateOn(ep, name, f, t, limiter, rs);
      run.err.None? <==> forall i :: 0 <= i < |CreatePlan(ep, name, f, t, limiter)| ==> Reply(rs, i) == "OK"
    ensures var run := CreateOn(ep, name, f, t, limiter, rs);
      run.err.None? ==> run.reqs == CreatePlan(ep, name, f, t, limiter)
  {
  }

  /** A successful create installs the forward's services and removes nothing. */
  lemma CreateInstalls(nodes: seq<Node>, f: Forward, t: Tunnel, limiter: Option<int>, utId: int, rs: seq<string>)
    requires CreateRun(nodes, f, t, limiter, utId, rs).err.None?
    ensures RequiredNodes(nodes, t).Success?
    ensures var run := CreateRun(nodes, f, t, limiter, utId, rs);
      Created(run.reqs) == Installed(RequiredNodes(nodes, t).value, ServiceName(f.id, f.userId, utId)) &&
      Removed(run.reqs) == {}
  {
    var ep := RequiredNodes(nodes, t).value;
    var name := ServiceName(f.id, f.userId, utId);
    CreateSucceeds(ep, name, f, t, limiter, rs);
    PlanInstalls(ep, name, f, t, limiter);
  }

  /** A failed create leaves nothing of its own behind: whatever one of its requests
      created is removed by a later request of the run. */
  lemma CreateCompensates(ep: Endpoints, name: string, f: Forward, t: Tunnel, limiter: Option<int>, rs: seq<string>)
    requires ep.outNode.Some? <==> t.kind == 2
    ensures var run := CreateOn(ep, name, f, t, limiter, rs);
      run.err.Some? ==> Compensated(run.reqs, rs)
  {
    var run := CreateOn(ep, name, f, t, limiter, rs);
    if run.err.Some? {
      var reqs := run.reqs;
      forall i, a | 0 <= i < |reqs| && Reply(rs, i) == "OK" && a in OpCreates(reqs[i].op)
        ensures exists j :: i < j < |reqs| && reqs[j].node == reqs[i].node && a in OpRemoves(reqs[j].op)
      {
        if t.kind == 2 {
          if i == 0 {
            var j := if Reply(rs, 1) != "OK" then 2 else 3;
            assert reqs[j] == Req(ep.inNode, DeleteChains(name));
          } else {
            assert i == 1;
            assert reqs[4] == Req(ep.outNode.value, DeleteRemote(name));
          }
        }
      }
    }
  }

  // ---------------------------------------------------------------- delete

  /** `deleteGostServices(forward, tunnel, userTunnel)`: when a node cannot be found
      nothing is sent and no error is reported. */
  function DeleteRun(nodes: seq<Node>, f: Forward, t: Tunnel, utId: int, rs: seq<string>): Run {
    match RequiredNodes(nodes, t)
    case Failure(_) => Run([], None)
    case Success(ep) => DeleteOn(ep, ServiceName(f.id, f.userId, utId), rs)
  }

  /** The entry service goes first and its failure is the error; the chain and the relay
      of a tunnel forward follow, their replies ignored. */
  function DeleteOn(ep: Endpoints, name: string, rs: seq<string>): Run {
    var del := Req(ep.inNode, DeleteSvc(name));
    if Reply(rs, 0) != "OK" then Run([del], Some(Reply(rs, 0)))
    else if ep.outNode.Some? then Run([del, Req(ep.inNode, DeleteChains(name)), Req(ep.outNode.value, DeleteRemote(name))], None)
    else Run([del], None)
  }

  /** A delete removes exactly what a create of the same forward installs, and creates
      nothing; when the entry service cannot be deleted it stops there and reports the
      agent's reply. */
  lemma DeleteUndoesCreate(ep: Endpoints, name: string, rs: seq<string>)
    ensures var run := DeleteOn(ep, name, rs);
      (run.err.None? <==> Reply(rs, 0) == "OK") && Created(run.reqs) == {} &&
      (run.err.None? ==> Removed(run.reqs) == Installed(ep, name)) &&
      (run.err.Some? ==> (run.err.value == Reply(rs, 0) &&
        Removed(run.reqs) == {(ep.inNode, TcpName(name)), (ep.inNode, UdpName(name))}))
  {
    var run := DeleteOn(ep, name, rs);
    var del := [Req(ep.inNode, DeleteSvc(name))];
    assert del[1..] == [];
    TagPair(ep.inNode, TcpName(name), UdpName(name));
    assert Removed(del) == {(ep.inNode, TcpName(name)), (ep.inNode, UdpName(name))};
    if ep.outNode.Some? && Reply(rs, 0) == "OK" {
      var chain, relay := [Req(ep.inNode, DeleteChains(name))], [Req(ep.outNode.value, DeleteRemote(name))];
      assert run.reqs == del + chain + relay;
      ReachAppend(del + chain, relay);
      ReachAppend(del, chain);
      assert chain[1..] == [] && relay[1..] == [];
      TagPair(ep.inNode, ChainsName(name), ChainsName(name));
      TagPair(ep.outNode.value, TlsName(name), TlsName(name));
    }
  }

  // ---------------------------------------------------------------- update

  /** The update a creating request is replaced by; other requests are unchanged. */
  function AsUpdate(op: Op): (u: Op)
    ensures OpCreates(u) == OpCreates(op) && OpRemoves(u) == OpRemoves(op)
  {
    match op
    case AddChains(n, tg, p, i) => UpdateChains(n, tg, p, i)
    case AddRemote(n, o, r, p, s, i) => UpdateRemote(n, o, r, p, s, i)
    case AddSvc(n, ip, l, r, ft, t, s, i) => UpdateSvc(n, ip, l, r, ft, t, s, i)
    case _ => op
  }

  predicate IsAdd(op: Op) {
    op.AddChains? || op.AddRemote? || op.AddSvc?
  }

  /** One step of `updateGostServices`: the update of `r`'s artifact; a reply containing
      "not found" sends `r` itself (its reply ignored); any other failure is the error. */
  function UpdateStep(r: Req, reply: string, prefix: string): Run {
    var upd := Req(r.node, AsUpdate(r.op));
    if reply == "OK" then Run([upd], None)
    else if Contains(reply, NotFound) then Run([upd, r], None)
    else Run([upd], Some(prefix + reply))
  }

  /** `updateGostServices(forward, tunnel, limiter, userTunnel)`. */
  function UpdateRun(nodes: seq<Node>, f: Forward, t: Tunnel, limiter: Option<int>, utId: int, rs: seq<string>): Run {
    match RequiredNodes(nodes, t)
    case Failure(e) => Run([], Some(e))
    case Success(ep) => UpdateOn(ep, ServiceName(f.id, f.userId, utId), f, t, limiter, rs)
  }

  /** The plan's requests as updates, in the plan's order, stopping at the first error;
      each step's error carries the prefix naming its artifact. */
  function UpdateOn(ep: Endpoints, name: string, f: Forward, t: Tunnel, limiter: Option<int>, rs: seq<string>): Run {
    UpdateAll(CreatePlan(ep, name, f, t, limiter), UpdatePrefixes(ep), rs)
  }

  function UpdatePrefixes(ep: Endpoints): seq<string> {
    if ep.outNode.Some? then ["Update Chain Error: ", "Update Remote Service Error: ", "Update Service Error: "]
    else ["Update Service Error: "]
  }

  function UpdateAll(plan: seq<Req>, prefixes: seq<string>, rs: seq<string>): Run
    requires |prefixes| == |plan|
    decreases |plan|
  {
    if |plan| == 0 then Run([], None)
    else
      var s := UpdateStep(plan[0], Reply(rs, 0), prefixes[0]);
      if s.err.Some? then s
      else
        var rest := UpdateAll(plan[1..], prefixes[1..], Drop(rs, |s.reqs|));
        Run(s.reqs + rest.reqs, rest.err)
  }

  /** Every creating request of a run comes straight after the update of the same artifact,
      and only when that update was answered with "not found". */
  predicate AddsFollowNotFound(reqs: seq<Req>, rs: seq<string>) {
    forall i :: 0 <= i < |reqs| && IsAdd(reqs[i].op) ==>
      0 < i && Contains(Reply(rs, i - 1), NotFound) && reqs[i - 1] == Req(reqs[i].node, AsUpdate(reqs[i].op))
  }

  /** What one step reaches, and how it can fail. */
  lemma StepFacts(r: Req, rs: seq<string>, prefix: string)
    requires IsAdd(r.op)
    ensures var s := UpdateStep(r, Reply(rs, 0), prefix);
      Created(s.reqs) == Tag(r.node, OpCreates(r.op)) && Removed(s.reqs) == {} &&
      AddsFollowNotFound(s.reqs, rs) && 0 < |s.reqs| && !IsAdd(s.reqs[0].op) &&
      (s.err.Some? ==> var m := Reply(rs, |s.reqs| - 1);
        m != "OK" && !Contains(m, NotFound) && s.err.value == prefix + m)
  {
    var s := UpdateStep(r, Reply(rs, 0), prefix);
    var upd := [Req(r.node, AsUpdate(r.op))];
    assert upd[1..] == [];
    if |s.reqs| == 2 {
      assert s.reqs == upd + [r];
      ReachAppend(upd, [r]);
      assert [r][1..] == [];
    }
  }

  lemma {:induction false} FollowAppend(a: seq<Req>, b: seq<Req>, rs: seq<string>)
    requires AddsFollowNotFound(a, rs) && AddsFollowNotFound(b, Drop(rs, |a|))
    requires 0 < |b| ==> !IsAdd(b[0].op)
    ensures AddsFollowNotFound(a + b, rs)
  {
    var ab := a + b;
    forall i | 0 <= i < |ab| && IsAdd(ab[i].op)
      ensures 0 < i && Contains(Reply(rs, i - 1), NotFound) && ab[i - 1] == Req(ab[i].node, AsUpdate(ab[i].op))
    {
      if i >= |a| {
        var k := i - |a|;
        assert b[k] == ab[i];
        assert Reply(Drop(rs, |a|), k - 1) == Reply(rs, i - 1);
      }
    }
  }

  lemma UpdateAllFacts(plan: seq<Req>, prefixes: seq<string>, rs: seq<string>)
    requires |prefixes| == |plan| && forall i :: 0 <= i < |plan| ==> IsAdd(plan[i].op)
    ensures var run := UpdateAll(plan, prefixes, rs);
      AddsFollowNotFound(run.reqs, rs) && Removed(run.reqs) == {} &&
      (0 < |run.reqs| ==> !IsAdd(run.reqs[0].op)) &&
      (run.err.None? ==> Created(run.reqs) == Created(plan)) &&
      (run.err.Some? ==> (var m := Reply(rs, |run.reqs| - 1);
        0 < |run.reqs| && m != "OK" && !Contains(m, NotFound) &&
        exists k :: 0 <= k < |prefixes| && run.err.value == prefixes[k] + m))
  {
    UpdateAllShape(plan, prefixes, rs);
    UpdateAllCreated(plan, prefixes, rs);
    UpdateAllError(plan, prefixes, rs);
  }

  /** The requests of an update run: adds only after "not found", nothing removed, and an
      update first. */
  lemma {:induction false} UpdateAllShape(plan: seq<Req>, prefixes: seq<string>, rs: seq<string>)
    requires |prefixes| == |plan| && forall i :: 0 <= i < |plan| ==> IsAdd(plan[i].op)
    ensures var run := UpdateAll(plan, prefixes, rs);
      AddsFollowNotFound(run.reqs, rs) && Removed(run.reqs) == {} &&
      (0 < |run.reqs| ==> !IsAdd(run.reqs[0].op))
    decreases |plan|
  {
    if |plan| > 0 {
      StepFacts(plan[0], rs, prefixes[0]);
      var s := UpdateStep(plan[0], Reply(rs, 0), prefixes[0]);
      if s.err.None? {
        var rs' := Drop(rs, |s.reqs|);
        UpdateAllShape(plan[1..], prefixes[1..], rs');
        var rest := UpdateAll(plan[1..], prefixes[1..], rs');
        assert UpdateAll(plan, prefixes, rs) == Run(s.reqs + rest.reqs, rest.err);
        FollowAppend(s.reqs, rest.reqs, rs);
        ReachAppend(s.reqs, rest.reqs);
      }
    }
  }

  /** A run that reports no error reached the whole plan. */
  lemma {:induction false} UpdateAllCreated(plan: seq<Req>, prefixes: seq<string>, rs: seq<string>)
    requires |prefixes| == |plan| && forall i :: 0 <= i < |plan| ==> IsAdd(plan[i].op)
    ensures var run := UpdateAll(plan, prefixes, rs);
      run.err.None? ==> Created(run.reqs) == Created(plan)
    decreases |plan|
  {
    if |plan| > 0 {
      StepFacts(plan[0], rs, prefixes[0]);
      var s := UpdateStep(plan[0], Reply(rs, 0), prefixes[0]);
      if s.err.None? {
        var rs' := Drop(rs, |s.reqs|);
        UpdateAllCreated(plan[1..], prefixes[1..], rs');
        var rest := UpdateAll(plan[1..], prefixes[1..], rs');
        assert UpdateAll(plan, prefixes, rs) == Run(s.reqs + rest.reqs, rest.err);
        ReachAppend(s.reqs, rest.reqs);
        assert Created(plan) == Tag(plan[0].node, OpCreates(plan[0].op)) + Created(plan[1..]);
      }
    }
  }

  /** A run that reports an error stopped at a reply that was neither "OK" nor "not found",
      and names it under one of the prefixes. */
  lemma {:induction false} UpdateAllError(plan: seq<Req>, prefixes: seq<string>, rs: seq<string>)
    requires |prefixes| == |plan| && forall i :: 0 <= i < |plan| ==> IsAdd(plan[i].op)
    ensures var run := UpdateAll(plan, prefixes, rs);
      run.err.Some? ==> (var m := Reply(rs, |run.reqs| - 1);
        0 < |run.reqs| && m != "OK" && !Contains(m, NotFound) &&
        exists k :: 0 <= k < |prefixes| && run.err.value == prefixes[k] + m)
    decreases |plan|
  {
    if |plan| > 0 {
      StepFacts(plan[0], rs, prefixes[0]);
      var s := UpdateStep(plan[0], Reply(rs, 0), prefixes[0]);
      if s.err.None? {
        var rs' := Drop(rs, |s.reqs|);
        UpdateAllError(plan[1..], prefixes[1..], rs');
        var rest := UpdateAll(plan[1..], prefixes[1..], rs');
        var run := UpdateAll(plan, prefixes, rs);
        assert run == Run(s.reqs + rest.reqs, rest.err);
        if rest.err.Some? {
          ReplyDrop(rs, |s.reqs|, |rest.reqs| - 1);
          var k :| 0 <= k < |prefixes[1..]| && rest.err.value == prefixes[1..][k] + Reply(rs', |rest.reqs| - 1);
          assert prefixes[k + 1] == prefixes[1..][k];
        }
      }
    }
  }

  /** A successful update leaves the forward's services as a create would, removing nothing;
      an add is sent only as the fallback for an update answered "not found"; a failed
      update reports the last reply, which was neither "OK" nor "not found". */
  lemma UpdateReachesPlan(ep: Endpoints, name: string, f: Forward, t: Tunnel, limiter: Option<int>, rs: seq<string>)
    ensures var run := UpdateOn(ep, name, f, t, limiter, rs);
      AddsFollowNotFound(run.reqs, rs) && Removed(run.reqs) == {} &&
      (run.err.None? ==> Created(run.reqs) == Installed(ep, name)) &&
      (run.err.Some? ==> (var m := Reply(rs, |run.reqs| - 1);
        0 < |run.reqs| && m != "OK" && !Contains(m, NotFound) &&
        run.err.value in {"Update Chain Error: " + m, "Update Remote Service Error: " + m, "Update Service Error: " + m}))
  {
    var plan := CreatePlan(ep, name, f, t, limiter);
    PlanAdds(ep, name, f, t, limiter);
    UpdateAllFacts(plan, UpdatePrefixes(ep), rs);
    PlanInstalls(ep, name, f, t, limiter);
    var run := UpdateOn(ep, name, f, t, limiter, rs);
    if run.err.Some? {
      var m := Reply(rs, |run.reqs| - 1);
      var k :| 0 <= k < |UpdatePrefixes(ep)| && run.err.value == UpdatePrefixes(ep)[k] + m;
      PrefixNamed(ep, k, m);
    }
  }

  /** Every request of a create plan is an add. */
  lemma PlanAdds(ep: Endpoints, name: string, f: Forward, t: Tunnel, limiter: Option<int>)
    ensures forall i :: 0 <= i < |CreatePlan(ep, name, f, t, limiter)| ==> IsAdd(CreatePlan(ep, name, f, t, limiter)[i].op)
  {
  }

  lemma PrefixNamed(ep: Endpoints, k: int, m: string)
    requires 0 <= k < |UpdatePrefixes(ep)|
    ensures UpdatePrefixes(ep)[k] + m in {"Update Chain Error: " + m, "Update Remote Service Error: " + m, "Update Service Error: " + m}
  {
  }

  // ---------------------------------------------------------------- moving to another tunnel

  /** The commands `UpdateForward` sends when a forward moves from tunnel `tOld` to `tNew`.
      On the same entry node the old services are deleted first (both would listen on the
      same port), the new ones created, and on failure the old ones re-created; on another
      entry node the new services are created first and the old ones deleted only after that
      succeeded. Errors of the deletes are ignored. */
  function MoveRun(nodes: seq<Node>, fOld: Forward, tOld: Tunnel, limOld: Option<int>, utOld: int,
                   fNew: Forward, tNew: Tunnel, limNew: Option<int>, utNew: int, rs: seq<string>): Run
  {
    if tOld.inNodeId == tNew.inNodeId then MoveWithin(nodes, fOld, tOld, limOld, utOld, fNew, tNew, limNew, utNew, rs)
    else MoveAcross(nodes, fOld, tOld, utOld, fNew, tNew, limNew, utNew, rs)
  }

  /** Delete, create, and re-create the old services if the create failed. */
  function MoveWithin(nodes: seq<Node>, fOld: Forward, tOld: Tunnel, limOld: Option<int>, utOld: int,
                      fNew: Forward, tNew: Tunnel, limNew: Option<int>, utNew: int, rs: seq<string>): Run
  {
    var d := DeleteRun(nodes, fOld, tOld, utOld, rs);
    var c := CreateRun(nodes, fNew, tNew, limNew, utNew, Drop(rs, |d.reqs|));
    if c.err.None? then Run(d.reqs + c.reqs, None)
    else
      var r := CreateRun(nodes, fOld, tOld, limOld, utOld, Drop(rs, |d.reqs + c.reqs|));
      Run(d.reqs + c.reqs + r.reqs,
        Some(if r.err.Some? then "新服务创建失败且无法恢复旧服务: " + c.err.value + "; 恢复错误: " + r.err.value
             else "新服务创建失败(已恢复旧服务): " + c.err.value))
  }

  /** Create, and delete the old services only once the create succeeded. */
  function MoveAcross(nodes: seq<Node>, fOld: Forward, tOld: Tunnel, utOld: int,
                      fNew: Forward, tNew: Tunnel, limNew: Option<int>, utNew: int, rs: seq<string>): Run
  {
    var c := CreateRun(nodes, fNew, tNew, limNew, utNew, rs);
    if c.err.Some? then Run(c.reqs, Some("新隧道服务创建失败: " + c.err.value))
    else
      var d := DeleteRun(nodes, fOld, tOld, utOld, Drop(rs, |c.reqs|));
      Run(c.reqs + d.reqs, None)
  }

  /** Entry service names end in 'p', chain and relay names in 's'. */
  lemma NameEndings(a: string, b: string)
    ensures TcpName(a) != ChainsName(b) && TcpName(a) != TlsName(b)
    ensures UdpName(a) != ChainsName(b) && UdpName(a) != TlsName(b)
  {
    assert TcpName(a)[|TcpName(a)| - 1] == 'p' && UdpName(a)[|UdpName(a)| - 1] == 'p';
    assert ChainsName(b)[|ChainsName(b)| - 1] == 's' && TlsName(b)[|TlsName(b)| - 1] == 's';
  }

  /** No create run removes an entry service. */
  lemma CreateKeepsEntries(nodes: seq<Node>, f: Forward, t: Tunnel, limiter: Option<int>, utId: int, rs: seq<string>, node: int, name: string)
    ensures (node, TcpName(name)) !in Removed(CreateRun(nodes, f, t, limiter, utId, rs).reqs)
    ensures (node, UdpName(name)) !in Removed(CreateRun(nodes, f, t, limiter, utId, rs).reqs)
  {
    CreateDeletesNoService(nodes, f, t, limiter, utId, rs);
    EntriesNeedServiceDelete(CreateRun(nodes, f, t, limiter, utId, rs).reqs, node, name);
  }

  /** Only a service delete removes an entry service. */
  lemma EntriesNeedServiceDelete(reqs: seq<Req>, node: int, name: string)
    requires forall i :: 0 <= i < |reqs| ==> !reqs[i].op.DeleteSvc?
    ensures (node, TcpName(name)) !in Removed(reqs) && (node, UdpName(name)) !in Removed(reqs)
  {
    assert TcpName(name)[|TcpName(name)| - 1] == 'p' && UdpName(name)[|UdpName(name)| - 1] == 'p';
    EntryNeedsServiceDelete(reqs, node, TcpName(name));
    EntryNeedsServiceDelete(reqs, node, UdpName(name));
  }

  lemma EntryNeedsServiceDelete(reqs: seq<Req>, node: int, entry: string)
    requires forall i :: 0 <= i < |reqs| ==> !reqs[i].op.DeleteSvc?
    requires |entry| > 0 && entry[|entry| - 1] == 'p'
    ensures (node, entry) !in Removed(reqs)
  {
    RemovedOnlyBy(reqs, (node, entry));
    forall i | 0 <= i < |reqs|
      ensures entry !in OpRemoves(reqs[i].op)
    {
      RemovalsEndInS(reqs[i].op);
    }
  }

  /** Every name a request other than a service delete removes ends in 's'. */
  lemma RemovalsEndInS(op: Op)
    requires !op.DeleteSvc?
    ensures forall x :: x in OpRemoves(op) ==> |x| > 0 && x[|x| - 1] == 's'
  {
    if op.DeleteChains? {
      assert ChainsName(op.name)[|ChainsName(op.name)| - 1] == 's';
    } else if op.DeleteRemote? {
      assert TlsName(op.name)[|TlsName(op.name)| - 1] == 's';
    }
  }

  /** The only deletes a create run sends are compensating chain and relay deletes. */
  lemma CreateDeletesNoService(nodes: seq<Node>, f: Forward, t: Tunnel, limiter: Option<int>, utId: int, rs: seq<string>)
    ensures var reqs := CreateRun(nodes, f, t, limiter, utId, rs).reqs;
      forall i :: 0 <= i < |reqs| ==> !reqs[i].op.DeleteSvc?
  {
    match RequiredNodes(nodes, t)
    case Failure(_) =>
    case Success(ep) =>
      CreateOnDeletesNoService(ep, ServiceName(f.id, f.userId, utId), f, t, limiter, rs);
  }

  lemma CreateOnDeletesNoService(ep: Endpoints, name: string, f: Forward, t: Tunnel, limiter: Option<int>, rs: seq<string>)
    requires ep.outNode.Some? <==> t.kind == 2
    ensures var reqs := CreateOn(ep, name, f, t, limiter, rs).reqs;
      forall i :: 0 <= i < |reqs| ==> !reqs[i].op.DeleteSvc?
  {
    var reqs := CreateOn(ep, name, f, t, limiter, rs).reqs;
    var entry := EntryReq(ep, name, f, t, limiter);
    var delChain := Req(ep.inNode, DeleteChains(name));
    assert !entry.op.DeleteSvc?;
    if t.kind == 2 {
      var chain, relay := ChainReq(ep, name, t), RelayReq(ep, name, f, t);
      var delRelay := Req(ep.outNode.value, DeleteRemote(name));
      assert forall i :: 0 <= i < |reqs| ==> reqs[i] in [chain, relay, entry, delChain, delRelay];
    } else {
      assert forall i :: 0 <= i < |reqs| ==> reqs[i] in [entry, delChain];
    }
  }

  /** An artifact is removed only by a request that names it. */
  lemma {:induction false} RemovedOnlyBy(reqs: seq<Req>, a: (int, string))
    ensures a in Removed(reqs) ==> exists i :: 0 <= i < |reqs| && reqs[i].node == a.0 && a.1 in OpRemoves(reqs[i].op)
    decreases |reqs|
  {
    if |reqs| > 0 && a in Removed(reqs) && a !in Tag(reqs[0].node, OpRemoves(reqs[0].op)) {
      RemovedOnlyBy(reqs[1..], a);
      var i :| 0 <= i < |reqs[1..]| && reqs[1..][i].node == a.0 && a.1 in OpRemoves(reqs[1..][i].op);
      assert reqs[i + 1] == reqs[1..][i];
    }
  }

  /** Moving to another entry node: if creating the new services fails the old entry
      services are untouched; if it succeeds the run is the new plan, then deletes only. */
  lemma MoveToOtherEntry(nodes: seq<Node>, fOld: Forward, tOld: Tunnel, limOld: Option<int>, utOld: int,
                         fNew: Forward, tNew: Tunnel, limNew: Option<int>, utNew: int, rs: seq<string>)
    requires tOld.inNodeId != tNew.inNodeId
    ensures var run := MoveRun(nodes, fOld, tOld, limOld, utOld, fNew, tNew, limNew, utNew, rs);
      var oldName := ServiceName(fOld.id, fOld.userId, utOld);
      (run.err.Some? ==> (tOld.inNodeId, TcpName(oldName)) !in Removed(run.reqs) &&
                         (tOld.inNodeId, UdpName(oldName)) !in Removed(run.reqs)) &&
      (run.err.None? ==> (RequiredNodes(nodes, tNew).Success? &&
        var plan := CreatePlan(RequiredNodes(nodes, tNew).value, ServiceName(fNew.id, fNew.userId, utNew), fNew, tNew, limNew);
        plan <= run.reqs && Created(run.reqs[|plan|..]) == {}))
  {
    var oldName := ServiceName(fOld.id, fOld.userId, utOld);
    var c := CreateRun(nodes, fNew, tNew, limNew, utNew, rs);
    CreateKeepsEntries(nodes, fNew, tNew, limNew, utNew, rs, tOld.inNodeId, oldName);
    if c.err.None? {
      var ep := RequiredNodes(nodes, tNew).value;
      CreateSucceeds(ep, ServiceName(fNew.id, fNew.userId, utNew), fNew, tNew, limNew, rs);
      var d := DeleteRun(nodes, fOld, tOld, utOld, Drop(rs, |c.reqs|));
      assert (c.reqs + d.reqs)[|c.reqs|..] == d.reqs;
      if RequiredNodes(nodes, tOld).Success? {
        DeleteUndoesCreate(RequiredNodes(nodes, tOld).value, oldName, Drop(rs, |c.reqs|));
      }
    }
  }

  /** Moving on the same entry node: the first request deletes the old entry service, and
      when creating the new services fails the run ends by re-creating the old ones. */
  lemma MoveOnSameEntry(nodes: seq<Node>, fOld: Forward, tOld: Tunnel, limOld: Option<int>, utOld: int,
                        fNew: Forward, tNew: Tunnel, limNew: Option<int>, utNew: int, rs: seq<string>)
    requires tOld.inNodeId == tNew.inNodeId
    ensures var run := MoveRun(nodes, fOld, tOld, limOld, utOld, fNew, tNew, limNew, utNew, rs);
      (RequiredNodes(nodes, tOld).Success? ==>
        0 < |run.reqs| && run.reqs[0] == Req(tOld.inNodeId, DeleteSvc(ServiceName(fOld.id, fOld.userId, utOld)))) &&
      (run.err.Some? ==> exists n :: (0 <= n <= |run.reqs| &&
        run.reqs[n..] == CreateRun(nodes, fOld, tOld, limOld, utOld, Drop(rs, n)).reqs))
  {
    var run := MoveRun(nodes, fOld, tOld, limOld, utOld, fNew, tNew, limNew, utNew, rs);
    var d := DeleteRun(nodes, fOld, tOld, utOld, rs);
    var c := CreateRun(nodes, fNew, tNew, limNew, utNew, Drop(rs, |d.reqs|));
    if c.err.Some? {
      var n := |d.reqs + c.reqs|;
      var r := CreateRun(nodes, fOld, tOld, limOld, utOld, Drop(rs, n));
      assert run.reqs == (d.reqs + c.reqs) + r.reqs;
      assert run.reqs[n..] == r.reqs;
    }
  }

  /** One wrapper call: the request goes out and its reply comes back. */
  method Issue(agent: Agent, r: Req) returns (msg: string)
    requires agent.Valid()
    modifies agent
    ensures agent.Valid()
    ensures msg == Reply(old(agent.replies), 0)
    ensures agent.calls == old(agent.calls) + Sent([r])
    ensures agent.replies == Drop(old(agent.replies), 1)
  {
    msg := agent.Send(r.node, CommandOf(r.op));
  }

  /** Issues `r` after the requests `sent`, keeping the agent's log equal to what was sent. */
  method IssueNext(agent: Agent, r: Req, ghost calls0: seq<Call>, ghost rs: seq<string>, ghost sent: seq<Req>)
    returns (msg: string)
    requires agent.Valid() && agent.calls == calls0 + Sent(sent) && agent.replies == Drop(rs, |sent|)
    modifies agent
    ensures agent.Valid() && agent.calls == calls0 + Sent(sent + [r]) && agent.replies == Drop(rs, |sent| + 1)
    ensures msg == Reply(rs, |sent|)
  {
    msg := Issue(agent, r);
    SentAppend(sent, [r]);
    assert calls0 + Sent(sent) + Sent([r]) == calls0 + (Sent(sent) + Sent([r]));
    DropDrop(rs, |sent|, 1);
  }

  /** `createGostServices`. */
  method CreateGostServices(agent: Agent, nodes: seq<Node>, f: Forward, t: Tunnel, limiter: Option<int>, utId: int)
    returns (err: Option<string>)
    requires agent.Valid()
    modifies agent
    ensures agent.Valid()
    ensures var run := CreateRun(nodes, f, t, limiter, utId, old(agent.replies));
      agent.calls == old(agent.calls) + Sent(run.reqs) && err == run.err &&
      agent.replies == Drop(old(agent.replies), |run.reqs|)
  {
    var nodesOf := RequiredNodes(nodes, t);
    if nodesOf.Failure? {
      assert agent.calls == agent.calls + Sent([]) && agent.replies == Drop(agent.replies, 0);
      return Some(nodesOf.error);
    }
    err := CreateOnNodes(agent, nodesOf.value, ServiceName(f.id, f.userId, utId), f, t, limiter);
  }

  /** The commands of `createGostServices` once both nodes are known. */
  method CreateOnNodes(agent: Agent, ep: Endpoints, name: string, f: Forward, t: Tunnel, limiter: Option<int>)
    returns (err: Option<string>)
    requires agent.Valid() && (ep.outNode.Some? <==> t.kind == 2)
    modifies agent
    ensures agent.Valid()
    ensures var run := CreateOn(ep, name, f, t, limiter, old(agent.replies));
      agent.calls == old(agent.calls) + Sent(run.reqs) && err == run.err &&
      agent.replies == Drop(old(agent.replies), |run.reqs|)
  {
    var entry := EntryReq(ep, name, f, t, limiter);
    var delChain := Req(ep.inNode, DeleteChains(name));
    if t.kind == 2 {
      var chain, relay := ChainReq(ep, name, t), RelayReq(ep, name, f, t);
      var delRelay := Req(ep.outNode.value, DeleteRemote(name));
      err := CreateRelayed(agent, chain, relay, entry, delChain, delRelay);
    } else {
      err := CreateDirect(agent, entry, delChain);
    }
  }

  /** Chain, relay and entry service, each failure undoing what came before. */
  method CreateRelayed(agent: Agent, chain: Req, relay: Req, entry: Req, delChain: Req, delRelay: Req)
    returns (err: Option<string>)
    requires agent.Valid()
    modifies agent
    ensures agent.Valid()
    ensures var rs := old(agent.replies);
      var run :=
        if Reply(rs, 0) != "OK" then Run([chain], Some("Chain Error: " + Reply(rs, 0)))
        else if Reply(rs, 1) != "OK" then Run([chain, relay, delChain], Some("Remote Error: " + Reply(rs, 1)))
        else if Reply(rs, 2) != "OK" then Run([chain, relay, entry, delChain, delRelay], Some("Service Error: " + Reply(rs, 2)))
        else Run([chain, relay, entry], None);
      agent.calls == old(agent.calls) + Sent(run.reqs) && err == run.err &&
      agent.replies == Drop(rs, |run.reqs|)
  {
    ghost var rs := agent.replies;
    ghost var calls0 := agent.calls;
    assert agent.calls == calls0 + Sent([]) && agent.replies == Drop(rs, 0);
    var msg := IssueNext(agent, chain, calls0, rs, []);
    if msg != "OK" {
      return Some("Chain Error: " + msg);
    }
    msg := IssueNext(agent, relay, calls0, rs, [chain]);
    if msg != "OK" {
      var _ := IssueNext(agent, delChain, calls0, rs, [chain, relay]);
      return Some("Remote Error: " + msg);
    }
    msg := IssueNext(agent, entry, calls0, rs, [chain, relay]);
    if msg != "OK" {
      var _ := IssueNext(agent, delChain, calls0, rs, [chain, relay, entry]);
      var _ := IssueNext(agent, delRelay, calls0, rs, [chain, relay, entry, delChain]);
      return Some("Service Error: " + msg);
    }
    return None;
  }

  /** The entry service alone; its failure deletes the (absent) chain. */
  method CreateDirect(agent: Agent, entry: Req, delChain: Req) returns (err: Option<string>)
    requires agent.Valid()
    modifies agent
    ensures agent.Valid()
    ensures var rs := old(agent.replies);
      var run :=
        if Reply(rs, 0) != "OK" then Run([entry, delChain], Some("Service Error: " + Reply(rs, 0)))
        else Run([entry], None);
      agent.calls == old(agent.calls) + Sent(run.reqs) && err == run.err &&
      agent.replies == Drop(rs, |run.reqs|)
  {
    ghost var rs := agent.replies;
    ghost var calls0 := agent.calls;
    assert agent.calls == calls0 + Sent([]) && agent.replies == Drop(rs, 0);
    var msg := IssueNext(agent, entry, calls0, rs, []);
    if msg != "OK" {
      var _ := IssueNext(agent, delChain, calls0, rs, [entry]);
      return Some("Service Error: " + msg);
    }
    return None;
  }

  /** `deleteGostServices`. */
  method DeleteGostServices(agent: Agent, nodes: seq<Node>, f: Forward, t: Tunnel, utId: int)
    returns (err: Option<string>)
    requires agent.Valid()
    modifies agent
    ensures agent.Valid()
    ensures var run := DeleteRun(nodes, f, t, utId, old(agent.replies));
      agent.calls == old(agent.calls) + Sent(run.reqs) && err == run.err &&
      agent.replies == Drop(old(agent.replies), |run.reqs|)
  {
    var nodesOf := RequiredNodes(nodes, t);
    if nodesOf.Failure? {
      assert agent.calls == agent.calls + Sent([]) && agent.replies == Drop(agent.replies, 0);
      return None;
    }
    err := DeleteOnNodes(agent, nodesOf.value, ServiceName(f.id, f.userId, utId));
  }

  /** The commands of `deleteGostServices` once both nodes are known. */
  method DeleteOnNodes(agent: Agent, ep: Endpoints, name: string) returns (err: Option<string>)
    requires agent.Valid()
    modifies agent
    ensures agent.Valid()
    ensures var run := DeleteOn(ep, name, old(agent.replies));
      agent.calls == old(agent.calls) + Sent(run.reqs) && err == run.err &&
      agent.replies == Drop(old(agent.replies), |run.reqs|)
  {
    ghost var rs := agent.replies;
    ghost var calls0 := agent.calls;
    assert agent.calls == calls0 + Sent([]) && agent.replies == Drop(rs, 0);
    var del := Req(ep.inNode, DeleteSvc(name));
    var msg := IssueNext(agent, del, calls0, rs, []);
    if msg != "OK" {
      return Some(msg);
    }
    if ep.outNode.Some? {
      var delChain := Req(ep.inNode, DeleteChains(name));
      var _ := IssueNext(agent, delChain, calls0, rs, [del]);
      var _ := IssueNext(agent, Req(ep.outNode.value, DeleteRemote(name)), calls0, rs, [del, delChain]);
    }
    return None;
  }

  /** The requests `sent` so far followed by the update of what is left of the plan. */
  function Continue(sent: seq<Req>, plan: seq<Req>, prefixes: seq<string>, rs: seq<string>): Run
    requires |plan| == |prefixes|
  {
    var rest := UpdateAll(plan, prefixes, Drop(rs, |sent|));
    Run(sent + rest.reqs, rest.err)
  }

  lemma ContinueStep(sent: seq<Req>, plan: seq<Req>, prefixes: seq<string>, rs: seq<string>)
    requires |plan| == |prefixes| && 0 < |plan|
    ensures var s := UpdateStep(plan[0], Reply(rs, |sent|), prefixes[0]);
      Continue(sent, plan, prefixes, rs) ==
        if s.err.Some? then Run(sent + s.reqs, s.err) else Continue(sent + s.reqs, plan[1..], prefixes[1..], rs)
  {
    var s := UpdateStep(plan[0], Reply(rs, |sent|), prefixes[0]);
    assert Reply(Drop(rs, |sent|), 0) == Reply(rs, |sent|);
    DropDrop(rs, |sent|, |s.reqs|);
    var rest := UpdateAll(plan[1..], prefixes[1..], Drop(rs, |sent + s.reqs|));
    assert sent + s.reqs + rest.reqs == sent + (s.reqs + rest.reqs);
  }

  /** One step of `updateGostServices`, issued after the requests `sent`: the first
      request of the plan still to go. */
  method UpdateNext(agent: Agent, r: Req, prefix: string, ghost plan: seq<Req>, ghost prefixes: seq<string>,
                    ghost calls0: seq<Call>, ghost rs: seq<string>, ghost sent: seq<Req>, ghost full: Run)
    returns (err: Option<string>)
    requires |plan| == |prefixes| && 0 < |plan| && plan[0] == r && prefixes[0] == prefix
    requires full == Continue(sent, plan, prefixes, rs)
    requires agent.Valid() && agent.calls == calls0 + Sent(sent) && agent.replies == Drop(rs, |sent|)
    modifies agent
    ensures var s := UpdateStep(r, Reply(rs, |sent|), prefix);
      agent.Valid() && agent.calls == calls0 + Sent(sent + s.reqs) && agent.replies == Drop(rs, |sent + s.reqs|) &&
      err == s.err &&
      full == if s.err.Some? then Run(sent + s.reqs, s.err) else Continue(sent + s.reqs, plan[1..], prefixes[1..], rs)
  {
    ContinueStep(sent, plan, prefixes, rs);
    err := UpdateIssue(agent, r, prefix, calls0, rs, sent);
  }

  /** The commands of one update step. */
  method UpdateIssue(agent: Agent, r: Req, prefix: string, ghost calls0: seq<Call>, ghost rs: seq<string>, ghost sent: seq<Req>)
    returns (err: Option<string>)
    requires agent.Valid() && agent.calls == calls0 + Sent(sent) && agent.replies == Drop(rs, |sent|)
    modifies agent
    ensures var s := UpdateStep(r, Reply(rs, |sent|), prefix);
      agent.Valid() && agent.calls == calls0 + Sent(sent + s.reqs) && agent.replies == Drop(rs, |sent + s.reqs|) &&
      err == s.err
  {
    var upd := Req(r.node, AsUpdate(r.op));
    var msg := IssueNext(agent, upd, calls0, rs, sent);
    if msg == "OK" {
      return None;
    }
    if Contains(msg, NotFound) {
      var _ := IssueNext(agent, r, calls0, rs, sent + [upd]);
      assert sent + [upd] + [r] == sent + [upd, r];
      return None;
    }
    return Some(prefix + msg);
  }

  /** `updateGostServices`. */
  method UpdateGostServices(agent: Agent, nodes: seq<Node>, f: Forward, t: Tunnel, limiter: Option<int>, utId: int)
    returns (err: Option<string>)
    requires agent.Valid()
    modifies agent
    ensures agent.Valid()
    ensures var run := UpdateRun(nodes, f, t, limiter, utId, old(agent.replies));
      agent.calls == old(agent.calls) + Sent(run.reqs) && err == run.err &&
      agent.replies == Drop(old(agent.replies), |run.reqs|)
  {
    var nodesOf := RequiredNodes(nodes, t);
    if nodesOf.Failure? {
      assert agent.calls == agent.calls + Sent([]) && agent.replies == Drop(agent.replies, 0);
      return Some(nodesOf.error);
    }
    err := UpdateOnNodes(agent, nodesOf.value, ServiceName(f.id, f.userId, utId), f, t, limiter);
  }

  /** The commands of `updateGostServices` once both nodes are known. */
  method UpdateOnNodes(agent: Agent, ep: Endpoints, name: string, f: Forward, t: Tunnel, limiter: Option<int>)
    returns (err: Option<string>)
    requires agent.Valid() && (ep.outNode.Some? <==> t.kind == 2)
    modifies agent
    ensures agent.Valid()
    ensures var run := UpdateOn(ep, name, f, t, limiter, old(agent.replies));
      agent.calls == old(agent.calls) + Sent(run.reqs) && err == run.err &&
      agent.replies == Drop(old(agent.replies), |run.reqs|)
  {
    ghost var rs := agent.replies;
    ghost var calls0 := agent.calls;
    ghost var full := UpdateOn(ep, name, f, t, limiter, rs);
    ghost var plan := CreatePlan(ep, name, f, t, limiter);
    ghost var prefixes := UpdatePrefixes(ep);
    assert agent.calls == calls0 + Sent([]) && agent.replies == Drop(rs, 0);
    assert full == Continue([], plan, prefixes, rs) by {
      assert Drop(rs, 0) == rs;
      assert [] + full.reqs == full.reqs;
    }
    var entry := EntryReq(ep, name, f, t, limiter);
    if t.kind == 2 {
      var chain, relay := ChainReq(ep, name, t), RelayReq(ep, name, f, t);
      err := UpdateRelayed(agent, chain, relay, entry, calls0, rs, full);
    } else {
      err := UpdateLast(agent, entry, "Update Service Error: ", calls0, rs, [], full);
    }
  }

  /** The three steps of an update through a tunnel: chain, relay, entry service. */
  method UpdateRelayed(agent: Agent, chain: Req, relay: Req, entry: Req, ghost calls0: seq<Call>, ghost rs: seq<string>, ghost full: Run)
    returns (err: Option<string>)
    requires full == Continue([], [chain, relay, entry], ["Update Chain Error: ", "Update Remote Service Error: ", "Update Service Error: "], rs)
    requires agent.Valid() && agent.calls == calls0 + Sent([]) && agent.replies == Drop(rs, 0)
    modifies agent
    ensures agent.Valid() && agent.calls == calls0 + Sent(full.reqs) && err == full.err &&
      agent.replies == Drop(rs, |full.reqs|)
  {
    ghost var plan: seq<Req> := [chain, relay, entry];
    ghost var prefixes: seq<string> := ["Update Chain Error: ", "Update Remote Service Error: ", "Update Service Error: "];
    ghost var sent: seq<Req> := [];
    ghost var s := UpdateStep(chain, Reply(rs, 0), "Update Chain Error: ");
    err := UpdateNext(agent, chain, "Update Chain Error: ", plan, prefixes, calls0, rs, sent, full);
    if err.Some? {
      return;
    }
    sent, plan, prefixes := sent + s.reqs, plan[1..], prefixes[1..];
    s := UpdateStep(relay, Reply(rs, |sent|), "Update Remote Service Error: ");
    err := UpdateNext(agent, relay, "Update Remote Service Error: ", plan, prefixes, calls0, rs, sent, full);
    if err.Some? {
      return;
    }
    sent, plan, prefixes := sent + s.reqs, plan[1..], prefixes[1..];
    assert plan == [entry] && prefixes == ["Update Service Error: "];
    err := UpdateLast(agent, entry, "Update Service Error: ", calls0, rs, sent, full);
  }

  /** The last step of an update: the entry service. */
  method UpdateLast(agent: Agent, entry: Req, prefix: string, ghost calls0: seq<Call>, ghost rs: seq<string>, ghost sent: seq<Req>, ghost full: Run)
    returns (err: Option<string>)
    requires full == Continue(sent, [entry], [prefix], rs)
    requires agent.Valid() && agent.calls == calls0 + Sent(sent) && agent.replies == Drop(rs, |sent|)
    modifies agent
    ensures agent.Valid() && agent.calls == calls0 + Sent(full.reqs) && err == full.err &&
      agent.replies == Drop(rs, |full.reqs|)
  {
    ghost var s := UpdateStep(entry, Reply(rs, |sent|), prefix);
    err := UpdateNext(agent, entry, prefix, [entry], [prefix], calls0, rs, sent, full);
    if err.None? {
      assert UpdateAll([], [], Drop(rs, |sent + s.reqs|)) == Run([], None);
      assert sent + s.reqs + [] == sent + s.reqs;
    }
  }

  /** The commands `UpdateForward` sends when the forward changes tunnel. */
  method MoveGostServices(agent: Agent, nodes: seq<Node>, fOld: Forward, tOld: Tunnel, limOld: Option<int>, utOld: int,
                          fNew: Forward, tNew: Tunnel, limNew: Option<int>, utNew: int)
    returns (err: Option<string>)
    requires agent.Valid()
    modifies agent
    ensures agent.Valid()
    ensures var run := MoveRun(nodes, fOld, tOld, limOld, utOld, fNew, tNew, limNew, utNew, old(agent.replies));
      agent.calls == old(agent.calls) + Sent(run.reqs) && err == run.err &&
      agent.replies == Drop(old(agent.replies), |run.reqs|)
  {
    if tOld.inNodeId == tNew.inNodeId {
      err := MoveWithinNode(agent, nodes, fOld, tOld, limOld, utOld, fNew, tNew, limNew, utNew);
    } else {
      err := MoveAcrossNodes(agent, nodes, fOld, tOld, utOld, fNew, tNew, limNew, utNew);
    }
  }

  method MoveWithinNode(agent: Agent, nodes: seq<Node>, fOld: Forward, tOld: Tunnel, limOld: Option<int>, utOld: int,
                        fNew: Forward, tNew: Tunnel, limNew: Option<int>, utNew: int)
    returns (err: Option<string>)
    requires agent.Valid()
    modifies agent
    ensures agent.Valid()
    ensures var run := MoveWithin(nodes, fOld, tOld, limOld, utOld, fNew, tNew, limNew, utNew, old(agent.replies));
      agent.calls == old(agent.calls) + Sent(run.reqs) && err == run.err &&
      agent.replies == Drop(old(agent.replies), |run.reqs|)
  {
    ghost var rs := agent.replies;
    ghost var calls0 := agent.calls;
    assert agent.calls == calls0 + Sent([]) && agent.replies == Drop(rs, 0);
    ghost var d := DeleteRun(nodes, fOld, tOld, utOld, rs);
    DeleteAfter(agent, nodes, fOld, tOld, utOld, calls0, rs, []);
    assert [] + d.reqs == d.reqs;
    ghost var c := CreateRun(nodes, fNew, tNew, limNew, utNew, Drop(rs, |d.reqs|));
    var e := CreateAfter(agent, nodes, fNew, tNew, limNew, utNew, calls0, rs, d.reqs);
    if e.None? {
      return None;
    }
    ghost var r := CreateRun(nodes, fOld, tOld, limOld, utOld, Drop(rs, |d.reqs + c.reqs|));
    var re := CreateAfter(agent, nodes, fOld, tOld, limOld, utOld, calls0, rs, d.reqs + c.reqs);
    assert MoveWithin(nodes, fOld, tOld, limOld, utOld, fNew, tNew, limNew, utNew, rs).reqs == d.reqs + c.reqs + r.reqs;
    if re.Some? {
      return Some("新服务创建失败且无法恢复旧服务: " + e.value + "; 恢复错误: " + re.value);
    }
    return Some("新服务创建失败(已恢复旧服务): " + e.value);
  }

  lemma AppendAssoc(a: seq<Call>, b: seq<Call>, c: seq<Call>)
    ensures (a + b) + c == a + (b + c)
  {
  }

  /** The script left after `a` and then `b`, stated with the length of `a + b`. */
  lemma DropAfter(rs: seq<string>, a: seq<Req>, b: seq<Req>)
    ensures Drop(Drop(rs, |a|), |b|) == Drop(rs, |a + b|)
  {
    DropDrop(rs, |a|, |b|);
  }

  /** `createGostServices` issued after the requests `sent`. */
  method CreateAfter(agent: Agent, nodes: seq<Node>, f: Forward, t: Tunnel, limiter: Option<int>, utId: int,
                     ghost calls0: seq<Call>, ghost rs: seq<string>, ghost sent: seq<Req>)
    returns (err: Option<string>)
    requires agent.Valid() && agent.calls == calls0 + Sent(sent) && agent.replies == Drop(rs, |sent|)
    modifies agent
    ensures var c := CreateRun(nodes, f, t, limiter, utId, Drop(rs, |sent|));
      agent.Valid() && agent.calls == calls0 + Sent(sent + c.reqs) && agent.replies == Drop(rs, |sent + c.reqs|) &&
      err == c.err
  {
    ghost var rest := Drop(rs, |sent|);
    ghost var c := CreateRun(nodes, f, t, limiter, utId, rest);
    err := CreateGostServices(agent, nodes, f, t, limiter, utId);
    assert agent.replies == Drop(rest, |c.reqs|);
    DropAfter(rs, sent, c.reqs);
    assert agent.calls == (calls0 + Sent(sent)) + Sent(c.reqs);
    SentAppend(sent, c.reqs);
    AppendAssoc(calls0, Sent(sent), Sent(c.reqs));
  }

  method MoveAcrossNodes(agent: Agent, nodes: seq<Node>, fOld: Forward, tOld: Tunnel, utOld: int,
                         fNew: Forward, tNew: Tunnel, limNew: Option<int>, utNew: int)
    returns (err: Option<string>)
    requires agent.Valid()
    modifies agent
    ensures agent.Valid()
    ensures var run := MoveAcross(nodes, fOld, tOld, utOld, fNew, tNew, limNew, utNew, old(agent.replies));
      agent.calls == old(agent.calls) + Sent(run.reqs) && err == run.err &&
      agent.replies == Drop(old(agent.replies), |run.reqs|)
  {
    ghost var rs := agent.replies;
    ghost var calls0 := agent.calls;
    ghost var c := CreateRun(nodes, fNew, tNew, limNew, utNew, rs);
    var e := CreateGostServices(agent, nodes, fNew, tNew, limNew, utNew);
    if e.Some? {
      return Some("新隧道服务创建失败: " + e.value);
    }
    DeleteAfter(agent, nodes, fOld, tOld, utOld, calls0, rs, c.reqs);
    return None;
  }

  /** `deleteGostServices` issued after the requests `sent`. */
  method DeleteAfter(agent: Agent, nodes: seq<Node>, f: Forward, t: Tunnel, utId: int,
                     ghost calls0: seq<Call>, ghost rs: seq<string>, ghost sent: seq<Req>)
    requires agent.Valid() && agent.calls == calls0 + Sent(sent) && agent.replies == Drop(rs, |sent|)
    modifies agent
    ensures var d := DeleteRun(nodes, f, t, utId, Drop(rs, |sent|));
      agent.Valid() && agent.calls == calls0 + Sent(sent + d.reqs) && agent.replies == Drop(rs, |sent + d.reqs|)
  {
    ghost var rest := Drop(rs, |sent|);
    ghost var d := DeleteRun(nodes, f, t, utId, rest);
    var _ := DeleteGostServices(agent, nodes, f, t, utId);
    assert agent.replies == Drop(rest, |d.reqs|);
    DropAfter(rs, sent, d.reqs);
    assert agent.calls == (calls0 + Sent(sent)) + Sent(d.reqs);
    SentAppend(sent, d.reqs);
    AppendAssoc(calls0, Sent(sent), Sent(d.reqs));
  }
}
