/** The agent session registry and the request/reply correlation over it
    (go-backend/websocket/server.go). A `Manager` holds one session per node id, the set of
    admin (observer) sessions and the table of pending request ids; a `Client` is one
    connection, with the frames written to it so far. Encryption is abstract: a sealed
    frame stands for the AES-GCM envelope around its text. JSON decoding is a parameter
    (the fields a received payload was found to carry), as are the request id `uuid` draws
    and the frame a node sends back before the 10-second deadline. The admin fan-out runs on
    goroutines; the model records each fan-out as the event and the sessions it was handed
    to. */
module WsServer {
  import opened Wrappers
  import opened Strs

  const NodeOffline: string := "节点不在线"
  const Timeout: string := "Timeout"
  const ConnectionClosed: string := "connection closed"
  /** `Client.Type` of an agent node; any other value is an admin session. */
  const NodeKind: string := "1"

  /** A frame written to a connection: plain text, or the encrypted envelope sealing a text. */
  datatype Frame = Plain(text: string) | Sealed(text: string)

  /** What the admin sessions are told: a node came online (1) or went offline (0), or a
      node's unsolicited report. */
  datatype Event = Status(id: string, status: int) | Info(id: string, data: string)

  /** One fan-out: the event and the admin sessions registered when it was sent. */
  datatype Broadcast = Broadcast(to: set<Client>, event: Event)

  /** `dto.GostDto`: the answer a call returns; `data` "" stands for a nil payload. */
  datatype GostReply = GostReply(msg: string, data: string)

  /** A received payload: its text, and what `json.Unmarshal` into a map found in it (None
      when it is not a JSON object); `requestId` and `message` are present only when they
      are strings. */
  datatype Decoded = Decoded(requestId: Option<string>, message: Option<string>, data: string)
  datatype Inbound = Inbound(text: string, decoded: Option<Decoded>)

  /** A node's answer to a command: the payload text and its `message` and `data` fields;
      it echoes the command's request id. */
  datatype Answer = Answer(text: string, message: Option<string>, data: string)

  /** The payload an answer arrives as. */
  function AnswerTo(requestId: string, a: Answer): Inbound {
    Inbound(a.text, Some(Decoded(Some(requestId), a.message, a.data)))
  }

  /** The request id a payload carries, when it carries a non-empty one. */
  function RequestIdOf(p: Inbound): Option<string> {
    if p.decoded.Some? && p.decoded.value.requestId.Some? && p.decoded.value.requestId.value != ""
    then p.decoded.value.requestId else None
  }

  /** The answer a reply is turned into: its message, "OK" when it has none. */
  function ReplyOf(d: Decoded): GostReply {
    GostReply(d.message.GetOr("OK"), d.data)
  }

  /** The text of a command, as `json.Marshal` writes the map (keys in sorted order); the
      payload is already JSON text, and escaping is not modelled. */
  function CommandText(msgType: string, data: string, requestId: string): string {
    "{\"data\":" + data + ",\"requestId\":\"" + requestId + "\",\"type\":\"" + msgType + "\"}"
  }

  /** The command the agent is asked for when it reports its resource usage. */
  const CallCommand: string := "{\"type\":\"call\"}"

  /** One connection. */
  class Client {
    const id: string
    const kind: string
    /** Whether the connection has an AES key (`secret` non-empty and the key derived). */
    const hasAes: bool
    var valid: bool
    var closed: bool
    var frames: seq<Frame>

    constructor(id: string, kind: string, hasAes: bool)
      ensures this.id == id && this.kind == kind && this.hasAes == hasAes
      ensures valid && !closed && frames == []
    {
      this.id := id;
      this.kind := kind;
      this.hasAes := hasAes;
      valid := true;
      closed := false;
      frames := [];
    }

    /** `SendText`: an invalid connection is refused and nothing is written. */
    method SendText(f: Frame) returns (err: Option<string>)
      modifies this
      ensures valid == old(valid) && closed == old(closed)
      ensures !valid ==> err == Some(ConnectionClosed) && frames == old(frames)
      ensures valid ==> err == None && frames == old(frames) + [f]
    {
      if !valid {
        return Some(ConnectionClosed);
      }
      frames := frames + [f];
      return None;
    }

    /** `SendEncrypted`: sealed when the connection has a key, plain text otherwise. */
    method SendEncrypted(msg: string) returns (err: Option<string>)
      modifies this
      ensures valid == old(valid) && closed == old(closed)
      ensures !valid ==> err == Some(ConnectionClosed) && frames == old(frames)
      ensures valid ==> err == None && frames == old(frames) + [if hasAes then Sealed(msg) else Plain(msg)]
    {
      if !hasAes {
        err := SendText(Plain(msg));
        return;
      }
      err := SendText(Sealed(msg));
    }
  }

  /** `WSManager`. `delivered` holds the replies put on a waiting caller's channel, by
      request id; `statusWrites` the node status updates started (`updateNodeStatus`). */
  class Manager {
    var nodeSessions: map<int, Client>
    var adminSessions: set<Client>
    var pending: set<string>
    var delivered: map<string, GostReply>
    var broadcasts: seq<Broadcast>
    var statusWrites: seq<(int, int)>

    /** Every node session is a node connection filed under the id its text names. */
    predicate Valid()
      reads this
    {
      forall n :: n in nodeSessions ==> nodeSessions[n].kind == NodeKind && ParseIntLoose(nodeSessions[n].id) == n
    }

    constructor()
      ensures Valid()
      ensures nodeSessions == map[] && adminSessions == {} && pending == {} && delivered == map[]
      ensures broadcasts == [] && statusWrites == []
    {
      nodeSessions := map[];
      adminSessions := {};
      pending := {};
      delivered := map[];
      broadcasts := [];
      statusWrites := [];
    }

    /** The session a node registration displaces. */
    function Displaced(client: Client): set<Client>
      reads this
    {
      var n := ParseIntLoose(client.id);
      if client.kind == NodeKind && n in nodeSessions then {nodeSessions[n]} else {}
    }

    /** `Register`: a node connection replaces (invalidates and closes) any session held
        for its id and is announced online; any other connection joins the admins. */
    method Register(client: Client)
      requires Valid()
      modifies this, Displaced(client)
      ensures Valid()
      ensures pending == old(pending) && delivered == old(delivered) && statusWrites == old(statusWrites)
      ensures client.kind == NodeKind ==>
        var n := ParseIntLoose(client.id);
        nodeSessions == old(nodeSessions)[n := client] && adminSessions == old(adminSessions) &&
        broadcasts == old(broadcasts) + [Broadcast(adminSessions, Status(client.id, 1))] &&
        (n in old(nodeSessions) ==> !old(nodeSessions)[n].valid && old(nodeSessions)[n].closed)
      ensures client.kind != NodeKind ==>
        adminSessions == old(adminSessions) + {client} && nodeSessions == old(nodeSessions) && broadcasts == old(broadcasts)
    {
      if client.kind == NodeKind {
        var n := ParseIntLoose(client.id);
        if n in nodeSessions {
          var prev := nodeSessions[n];
          prev.valid := false;
          prev.closed := true;
        }
        nodeSessions := nodeSessions[n := client];
        broadcasts := broadcasts + [Broadcast(adminSessions, Status(client.id, 1))];
      } else {
        adminSessions := adminSessions + {client};
      }
    }

    /** Whether `client` is the session currently filed for its node id. */
    predicate Current(client: Client)
      reads this
    {
      client.kind == NodeKind && ParseIntLoose(client.id) in nodeSessions && nodeSessions[ParseIntLoose(client.id)] == client
    }

    /** `Unregister`: a node session is removed, announced offline and marked offline in
        the database only while it is still the one filed for its id (a replaced session
        going away leaves its successor alone); an admin session just leaves. The
        connection is invalidated and closed in every case. */
    method Unregister(client: Client)
      requires Valid()
      modifies this, client
      ensures Valid()
      ensures !client.valid && client.closed && client.frames == old(client.frames)
      ensures pending == old(pending) && delivered == old(delivered)
      ensures old(Current(client)) ==>
        var n := ParseIntLoose(client.id);
        nodeSessions == old(nodeSessions) - {n} && adminSessions == old(adminSessions) &&
        broadcasts == old(broadcasts) + [Broadcast(adminSessions, Status(client.id, 0))] &&
        statusWrites == old(statusWrites) + [(n, 0)]
      ensures client.kind == NodeKind && !old(Current(client)) ==>
        nodeSessions == old(nodeSessions) && adminSessions == old(adminSessions) &&
        broadcasts == old(broadcasts) && statusWrites == old(statusWrites)
      ensures client.kind != NodeKind ==>
        adminSessions == old(adminSessions) - {client} && nodeSessions == old(nodeSessions) &&
        broadcasts == old(broadcasts) && statusWrites == old(statusWrites)
    {
      if client.kind == NodeKind {
        var n := ParseIntLoose(client.id);
        if n in nodeSessions && nodeSessions[n] == client {
          nodeSessions := nodeSessions - {n};
          broadcasts := broadcasts + [Broadcast(adminSessions, Status(client.id, 0))];
          statusWrites := statusWrites + [(n, 0)];
        }
      } else {
        adminSessions := adminSessions - {client};
      }
      client.valid := false;
      client.closed := true;
    }

    /** `handleMessage` on a payload received from `c`: a payload with a non-empty request
        id is consumed here (its pending entry, if any, removed and the reply handed to the
        waiting caller); any other payload from a node is broadcast to the admins as an
        info event, after asking the node for a call when it reports memory usage. */
    method HandleMessage(c: Client, p: Inbound) returns (consumed: bool)
      modifies this, c
      ensures consumed <==> RequestIdOf(p).Some?
      ensures nodeSessions == old(nodeSessions) && adminSessions == old(adminSessions) && statusWrites == old(statusWrites)
      ensures c.valid == old(c.valid) && c.closed == old(c.closed)
      ensures consumed ==>
        var rid := RequestIdOf(p).value;
        broadcasts == old(broadcasts) && c.frames == old(c.frames) &&
        pending == old(pending) - {rid} &&
        delivered == if rid in old(pending) then old(delivered)[rid := ReplyOf(p.decoded.value)] else old(delivered)
      ensures !consumed ==> pending == old(pending) && delivered == old(delivered)
      ensures !consumed && c.kind == NodeKind ==>
        broadcasts == old(broadcasts) + [Broadcast(adminSessions, Info(c.id, p.text))] &&
        c.frames == old(c.frames) +
          (if c.valid && Contains(p.text, "memory_usage") then [if c.hasAes then Sealed(CallCommand) else Plain(CallCommand)] else [])
      ensures !consumed && c.kind != NodeKind ==> broadcasts == old(broadcasts) && c.frames == old(c.frames)
    {
      var rid := RequestIdOf(p);
      if rid.Some? {
        if rid.value in pending {
          pending := pending - {rid.value};
          delivered := delivered[rid.value := ReplyOf(p.decoded.value)];
        }
        return true;
      }
      if c.kind == NodeKind {
        if |p.text| > 0 && Contains(p.text, "memory_usage") {
          var _ := c.SendEncrypted(CallCommand);
        }
        broadcasts := broadcasts + [Broadcast(adminSessions, Info(c.id, p.text))];
      }
      return false;
    }

    /** Whether node `nodeId` has a live session. */
    predicate Online(nodeId: int)
      reads this, nodeSessions.Values
    {
      nodeId in nodeSessions && nodeSessions[nodeId].valid
    }

    /** The first half of `SendMsg`: the request id is entered in the pending table, and
        only then the command is written to the node's connection. */
    method Post(client: Client, msgType: string, data: string, requestId: string)
      requires client.valid
      modifies this, client
      ensures pending == old(pending) + {requestId}
      ensures client.frames == old(client.frames) + [if client.hasAes then Sealed(CommandText(msgType, data, requestId)) else Plain(CommandText(msgType, data, requestId))]
      ensures client.valid && client.closed == old(client.closed)
      ensures nodeSessions == old(nodeSessions) && adminSessions == old(adminSessions) && delivered == old(delivered)
      ensures broadcasts == old(broadcasts) && statusWrites == old(statusWrites)
    {
      pending := pending + {requestId};
      var _ := client.SendEncrypted(CommandText(msgType, data, requestId));
    }

    /** `SendMsg(nodeId, data, msgType)`. `requestId` is the fresh id `uuid` draws; `reply`
        is the node's answer when it arrives before the deadline. A node without a live
        session gets "节点不在线" and nothing is touched. Otherwise the id is pending while
        the command is out; a reply carrying it is the answer; without one the call times
        out. Either way the id is no longer pending afterwards. */
    method SendMsg(nodeId: int, data: string, msgType: string, requestId: string, reply: Option<Answer>)
      returns (r: GostReply)
      requires Valid()
      requires requestId != "" && requestId !in pending && requestId !in delivered
      modifies this, nodeSessions.Values
      ensures Valid()
      ensures nodeSessions == old(nodeSessions) && adminSessions == old(adminSessions) && statusWrites == old(statusWrites)
      ensures broadcasts == old(broadcasts)
      ensures !old(Online(nodeId)) ==>
        r == GostReply(NodeOffline, "") && pending == old(pending) && delivered == old(delivered) &&
        forall n :: n in nodeSessions ==> nodeSessions[n].frames == old(nodeSessions[n].frames)
      ensures old(Online(nodeId)) ==>
        var c := old(nodeSessions[nodeId]);
        var cmd := CommandText(msgType, data, requestId);
        c.frames == old(c.frames) + [if c.hasAes then Sealed(cmd) else Plain(cmd)] &&
        (reply.Some? ==> r == GostReply(reply.value.message.GetOr("OK"), reply.value.data)) &&
        (reply.None? ==> r == GostReply(Timeout, "")) &&
        pending == old(pending) && delivered == old(delivered)
      ensures forall n :: n in nodeSessions && n != nodeId ==> nodeSessions[n].frames == old(nodeSessions[n].frames)
      ensures forall n :: n in nodeSessions ==>
        nodeSessions[n].valid == old(nodeSessions[n].valid) && nodeSessions[n].closed == old(nodeSessions[n].closed)
    {
      if !(nodeId in nodeSessions) || !nodeSessions[nodeId].valid {
        return GostReply(NodeOffline, "");
      }
      var client := nodeSessions[nodeId];
      Post(client, msgType, data, requestId);
      r := Await(client, requestId, reply);
    }

    /** The second half of `SendMsg`: wait for the reply, or give up and drop the id. */
    method Await(client: Client, requestId: string, reply: Option<Answer>) returns (r: GostReply)
      requires requestId != "" && requestId in pending && requestId !in delivered
      modifies this, client
      ensures client.frames == old(client.frames)
      ensures reply.Some? ==> r == GostReply(reply.value.message.GetOr("OK"), reply.value.data)
      ensures reply.None? ==> r == GostReply(Timeout, "")
      ensures pending == old(pending) - {requestId} && delivered == old(delivered)
      ensures nodeSessions == old(nodeSessions) && adminSessions == old(adminSessions) && statusWrites == old(statusWrites)
      ensures broadcasts == old(broadcasts)
      ensures client.valid == old(client.valid) && client.closed == old(client.closed)
    {
      if reply.Some? {
        var _ := HandleMessage(client, AnswerTo(requestId, reply.value));
      }
      if requestId in delivered {
        r := delivered[requestId];
        delivered := delivered - {requestId};
        return;
      }
      pending := pending - {requestId};
      r := GostReply(Timeout, "");
    }
  }

  /** Node sessions are filed under distinct ids: no connection serves two nodes, so a
      node has at most one session and a session belongs to at most one node. */
  lemma OneSessionPerNode(m: Manager, a: int, b: int)
    requires m.Valid() && a in m.nodeSessions && b in m.nodeSessions && a != b
    ensures m.nodeSessions[a] != m.nodeSessions[b]
  {
  }
}
