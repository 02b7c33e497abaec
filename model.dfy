/** The database rows the control plane works on (the records under go-backend/model), with the columns
    the modelled services read or write, and the database itself as a set of in-memory
    tables. Creation and update timestamps are not modelled. */
module Model {
  import opened Wrappers

  /** A panel account. `roleId` 0 is the administrator; `flow` is the quota in GB, 0 for
      none; `expTime` is in milliseconds, 0 for never; `flowResetTime` is the day of the
      month on which the counters reset, 0 for never. */
  datatype User = User(
    id: int, status: int, name: string, pwd: string, roleId: int, expTime: int,
    flow: int, inFlow: int, outFlow: int, num: int, flowResetTime: int)

  /** A user's permission on a tunnel, with its own quota, expiry, counters and speed limit. */
  datatype UserTunnel = UserTunnel(
    id: int, userId: int, tunnelId: int, flow: int, inFlow: int, outFlow: int,
    flowResetTime: int, expTime: int, speedId: int, num: int, status: int)

  /** A tunnel: `kind` is the Type column (1 port forward, 2 tunnel forward through an exit
      node); `flow` 1 bills upload only; `trafficRatio` is in hundredths (decimal(10,2));
      `chainPort` is the exit port the chain dials (read by the forward service, not
      declared on the Go struct). */
  datatype Tunnel = Tunnel(
    id: int, status: int, name: string, inNodeId: int, inIp: string, outNodeId: int,
    outIp: string, kind: int, flow: int, protocol: string, trafficRatio: int,
    tcpListenAddr: string, udpListenAddr: string, interfaceName: string, outPort: int,
    chainPort: int)

  /** An agent node: `status` 1 is online; `ip` is the entry address list a tunnel copies,
      `serverIp` the address other nodes dial; `portSta`/`portEnd` bound the ports the
      forward service allocates (read by the forward service, not declared on the Go struct). */
  datatype Node = Node(
    id: int, status: int, name: string, ip: string, serverIp: string, portRanges: string,
    portSta: int, portEnd: int)

  /** A user's forwarding rule. */
  datatype Forward = Forward(
    id: int, status: int, userId: int, userName: string, name: string, tunnelId: int,
    inPort: int, outPort: int, remoteAddr: string, interfaceName: string, strategy: string,
    inFlow: int, outFlow: int)

  /** An hourly traffic record of a user. */
  datatype StatisticsFlow = StatisticsFlow(id: int, userId: int, flow: int, totalFlow: int, time: string, createdTime: int)

  /** The database: one sequence per table, rows in insertion (= ascending id) order. */
  class Db {
    var users: seq<User>
    var userTunnels: seq<UserTunnel>
    var tunnels: seq<Tunnel>
    var nodes: seq<Node>
    var forwards: seq<Forward>
    var stats: seq<StatisticsFlow>
  }

  /** `DB.First(&row, id)` on each table: the first row with that primary key. */
  function FindUser(users: seq<User>, id: int): (r: Option<User>)
    ensures r.Some? ==> r.value in users && r.value.id == id
    ensures r.None? <==> forall k :: 0 <= k < |users| ==> users[k].id != id
  {
    if |users| == 0 then None
    else if users[0].id == id then Some(users[0])
    else FindUser(users[1..], id)
  }

  function FindTunnel(tunnels: seq<Tunnel>, id: int): (r: Option<Tunnel>)
    ensures r.Some? ==> r.value in tunnels && r.value.id == id
    ensures r.None? <==> forall k :: 0 <= k < |tunnels| ==> tunnels[k].id != id
  {
    if |tunnels| == 0 then None
    else if tunnels[0].id == id then Some(tunnels[0])
    else FindTunnel(tunnels[1..], id)
  }

  function FindNode(nodes: seq<Node>, id: int): (r: Option<Node>)
    ensures r.Some? ==> r.value in nodes && r.value.id == id
    ensures r.None? <==> forall k :: 0 <= k < |nodes| ==> nodes[k].id != id
  {
    if |nodes| == 0 then None
    else if nodes[0].id == id then Some(nodes[0])
    else FindNode(nodes[1..], id)
  }

  function FindUserTunnelById(uts: seq<UserTunnel>, id: int): (r: Option<UserTunnel>)
    ensures r.Some? ==> r.value in uts && r.value.id == id
    ensures r.None? <==> forall k :: 0 <= k < |uts| ==> uts[k].id != id
  {
    if |uts| == 0 then None
    else if uts[0].id == id then Some(uts[0])
    else FindUserTunnelById(uts[1..], id)
  }

  function FindForward(forwards: seq<Forward>, id: int): (r: Option<Forward>)
    ensures r.Some? ==> r.value in forwards && r.value.id == id
    ensures r.None? <==> forall k :: 0 <= k < |forwards| ==> forwards[k].id != id
  {
    if |forwards| == 0 then None
    else if forwards[0].id == id then Some(forwards[0])
    else FindForward(forwards[1..], id)
  }

  /** `Where("user_id = ? AND tunnel_id = ?").First(&ut)`. */
  function FindUserTunnel(uts: seq<UserTunnel>, userId: int, tunnelId: int): (r: Option<UserTunnel>)
    ensures r.Some? ==> r.value in uts && r.value.userId == userId && r.value.tunnelId == tunnelId
    ensures r.None? <==> forall k :: 0 <= k < |uts| ==> !(uts[k].userId == userId && uts[k].tunnelId == tunnelId)
  {
    if |uts| == 0 then None
    else if uts[0].userId == userId && uts[0].tunnelId == tunnelId then Some(uts[0])
    else FindUserTunnel(uts[1..], userId, tunnelId)
  }
}
