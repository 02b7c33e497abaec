/** The in-memory traffic accumulator (go-backend/controller/flow_buffer.go): five maps of
    deltas, keyed by forward, user, user-tunnel (the id as text), node and hour bucket,
    filled by the Add operations and swapped out by Flush, which writes the snapshot as
    relative increments to the database. The database is the `Store` below: per table, the
    traffic counters of the rows that exist. The clock is a parameter (the hour-bucket text
    and the creation time of history rows). */
module FlowBuffer {
  import opened Wrappers
  import opened Strs

  /** `FlowAggregator`: raw and billed bytes in both directions. */
  datatype Agg = Agg(rawIn: int, rawOut: int, billingIn: int, billingOut: int)

  /** `RawFlowAggregator`: a node's raw bytes. */
  datatype RawAgg = RawAgg(rawIn: int, rawOut: int)

  /** The hour-bucket key "TimeStr|NodeId|ForwardId|UserId|TunnelId" as the tuple it spells. */
  datatype HistoryKey = HistoryKey(timeStr: string, nodeId: int, forwardId: int, userId: int, tunnelId: int)

  /** `HistoryAggregator`: the identity fields and the three accumulated counters. */
  datatype HistoryAgg = HistoryAgg(
    timeStr: string, nodeId: int, forwardId: int, userId: int, tunnelId: int,
    rawIn: int, rawOut: int, billingFlow: int)

  const Zero := Agg(0, 0, 0, 0)

  function Plus(a: Agg, b: Agg): Agg {
    Agg(a.rawIn + b.rawIn, a.rawOut + b.rawOut, a.billingIn + b.billingIn, a.billingOut + b.billingOut)
  }

  function PlusRaw(a: RawAgg, b: RawAgg): RawAgg {
    RawAgg(a.rawIn + b.rawIn, a.rawOut + b.rawOut)
  }

  /** The entry a key starts from: the zero aggregate, and for an hour bucket the identity
      fields spelled by the key. */
  function Fresh(k: HistoryKey): HistoryAgg {
    HistoryAgg(k.timeStr, k.nodeId, k.forwardId, k.userId, k.tunnelId, 0, 0, 0)
  }

  function Get<K>(m: map<K, Agg>, k: K): Agg {
    if k in m then m[k] else Zero
  }

  function GetRaw(m: map<int, RawAgg>, k: int): RawAgg {
    if k in m then m[k] else RawAgg(0, 0)
  }

  function GetHistory(m: map<HistoryKey, HistoryAgg>, k: HistoryKey): HistoryAgg {
    if k in m then m[k] else Fresh(k)
  }

  // ---------------------------------------------------------------- the buffer contents

  /** The five maps at one moment. */
  datatype Buffers = Buffers(
    forwards: map<int, Agg>, users: map<int, Agg>, userTunnels: map<string, Agg>,
    nodes: map<int, RawAgg>, history: map<HistoryKey, HistoryAgg>)

  const Empty := Buffers(map[], map[], map[], map[], map[])

  /** One call of an Add operation, with its arguments. */
  datatype AddOp =
    | AddForwardOp(id: int, d: Agg)
    | AddUserOp(id: int, d: Agg)
    | AddUserTunnelOp(key: string, d: Agg)
    | AddNodeOp(id: int, r: RawAgg)
    | AddHistoryOp(hk: HistoryKey, rawIn: int, rawOut: int, billingFlow: int)

  /** A keyed entry, created at zero when missing, gains the deltas. */
  function Bump<K>(m: map<K, Agg>, k: K, d: Agg): map<K, Agg> {
    m[k := Plus(Get(m, k), d)]
  }

  function BumpRaw(m: map<int, RawAgg>, k: int, d: RawAgg): map<int, RawAgg> {
    m[k := PlusRaw(GetRaw(m, k), d)]
  }

  function BumpHistory(m: map<HistoryKey, HistoryAgg>, k: HistoryKey, ri: int, ro: int, bf: int): map<HistoryKey, HistoryAgg> {
    var h := GetHistory(m, k);
    m[k := h.(rawIn := h.rawIn + ri, rawOut := h.rawOut + ro, billingFlow := h.billingFlow + bf)]
  }

  /** The contents after one Add call. */
  function Apply(b: Buffers, op: AddOp): Buffers {
    match op
    case AddForwardOp(id, d) => b.(forwards := Bump(b.forwards, id, d))
    case AddUserOp(id, d) => b.(users := Bump(b.users, id, d))
    case AddUserTunnelOp(key, d) => b.(userTunnels := Bump(b.userTunnels, key, d))
    case AddNodeOp(id, r) => b.(nodes := BumpRaw(b.nodes, id, r))
    case AddHistoryOp(hk, ri, ro, bf) => b.(history := BumpHistory(b.history, hk, ri, ro, bf))
  }

  /** The contents after a sequence of Add calls, in order. */
  function ApplyAll(b: Buffers, ops: seq<AddOp>): Buffers
    decreases |ops|
  {
    if |ops| == 0 then b else ApplyAll(Apply(b, ops[0]), ops[1..])
  }

  /** Applying a sequence of calls and then one more is applying the longer sequence. */
  lemma {:induction false} ApplyAllAppend(b: Buffers, ops: seq<AddOp>, op: AddOp)
    ensures ApplyAll(b, ops + [op]) == Apply(ApplyAll(b, ops), op)
    decreases |ops|
  {
    if |ops| > 0 {
      assert (ops + [op])[1..] == ops[1..] + [op];
      ApplyAllAppend(Apply(b, ops[0]), ops[1..], op);
    }
  }

  /** Applying two sequences of calls one after the other is applying their concatenation. */
  lemma {:induction false} ApplyAllConcat(b: Buffers, xs: seq<AddOp>, ys: seq<AddOp>)
    ensures ApplyAll(b, xs + ys) == ApplyAll(ApplyAll(b, xs), ys)
    decreases |xs|
  {
    if |xs| > 0 {
      assert (xs + ys)[1..] == xs[1..] + ys;
      ApplyAllConcat(Apply(b, xs[0]), xs[1..], ys);
    } else {
      assert xs + ys == ys;
    }
  }

  /** Every hour-bucket entry carries the identity fields its key spells. */
  predicate HistoryKeyed(b: Buffers) {
    forall k :: k in b.history ==>
      b.history[k].(rawIn := 0, rawOut := 0, billingFlow := 0) == Fresh(k)
  }

  /** One Add call: the keyed entry is the old entry (or zero) plus the deltas, every other
      key and every other map is unchanged, and the hour-bucket entries keep the identity
      fields of their keys. */
  lemma ApplyEntry(b: Buffers, op: AddOp)
    ensures op.AddForwardOp? ==> (
      Apply(b, op).forwards == b.forwards[op.id := Plus(Get(b.forwards, op.id), op.d)] &&
      Apply(b, op).(forwards := b.forwards) == b)
    ensures op.AddUserOp? ==> (
      Apply(b, op).users == b.users[op.id := Plus(Get(b.users, op.id), op.d)] &&
      Apply(b, op).(users := b.users) == b)
    ensures op.AddUserTunnelOp? ==> (
      Apply(b, op).userTunnels == b.userTunnels[op.key := Plus(Get(b.userTunnels, op.key), op.d)] &&
      Apply(b, op).(userTunnels := b.userTunnels) == b)
    ensures op.AddNodeOp? ==> (
      Apply(b, op).nodes == b.nodes[op.id := RawAgg(GetRaw(b.nodes, op.id).rawIn + op.r.rawIn, GetRaw(b.nodes, op.id).rawOut + op.r.rawOut)] &&
      Apply(b, op).(nodes := b.nodes) == b)
    ensures op.AddHistoryOp? ==> (
      op.hk in Apply(b, op).history &&
      Apply(b, op).history[op.hk].rawIn == GetHistory(b.history, op.hk).rawIn + op.rawIn &&
      Apply(b, op).history[op.hk].rawOut == GetHistory(b.history, op.hk).rawOut + op.rawOut &&
      Apply(b, op).history[op.hk].billingFlow == GetHistory(b.history, op.hk).billingFlow + op.billingFlow &&
      (forall k :: k != op.hk ==> (k in Apply(b, op).history <==> k in b.history)) &&
      Apply(b, op).(history := b.history) == b)
    ensures HistoryKeyed(b) ==> HistoryKeyed(Apply(b, op))
  {
  }

  lemma BumpCommutes<K>(m: map<K, Agg>, i: K, d: Agg, j: K, e: Agg)
    ensures Bump(Bump(m, i, d), j, e) == Bump(Bump(m, j, e), i, d)
  {
    if i == j {
      assert Plus(Plus(Get(m, i), d), e) == Plus(Plus(Get(m, i), e), d);
    }
  }

  lemma BumpRawCommutes(m: map<int, RawAgg>, i: int, d: RawAgg, j: int, e: RawAgg)
    ensures BumpRaw(BumpRaw(m, i, d), j, e) == BumpRaw(BumpRaw(m, j, e), i, d)
  {
  }

  lemma BumpHistoryCommutes(m: map<HistoryKey, HistoryAgg>, i: HistoryKey, a: (int, int, int), j: HistoryKey, c: (int, int, int))
    ensures BumpHistory(BumpHistory(m, i, a.0, a.1, a.2), j, c.0, c.1, c.2) == BumpHistory(BumpHistory(m, j, c.0, c.1, c.2), i, a.0, a.1, a.2)
  {
  }

  /** Two Add calls give the same contents in either order. */
  lemma ApplyCommutes(b: Buffers, x: AddOp, y: AddOp)
    ensures Apply(Apply(b, x), y) == Apply(Apply(b, y), x)
  {
    match x
    case AddForwardOp(i, d) =>
      if y.AddForwardOp? { BumpCommutes(b.forwards, i, d, y.id, y.d); }
    case AddUserOp(i, d) =>
      if y.AddUserOp? { BumpCommutes(b.users, i, d, y.id, y.d); }
    case AddUserTunnelOp(k, d) =>
      if y.AddUserTunnelOp? { BumpCommutes(b.userTunnels, k, d, y.key, y.d); }
    case AddNodeOp(i, r) =>
      if y.AddNodeOp? { BumpRawCommutes(b.nodes, i, r, y.id, y.r); }
    case AddHistoryOp(k, ri, ro, bf) =>
      if y.AddHistoryOp? { BumpHistoryCommutes(b.history, k, (ri, ro, bf), y.hk, (y.rawIn, y.rawOut, y.billingFlow)); }
  }

  lemma MultisetCancel<T>(m: multiset<T>, n: multiset<T>, x: T)
    requires m + multiset{x} == n + multiset{x}
    ensures m == n
  {
    assert forall y :: m[y] == (m + multiset{x})[y] - multiset{x}[y];
    assert forall y :: n[y] == (n + multiset{x})[y] - multiset{x}[y];
  }

  /** Moving one call from the middle of a sequence to its front does not change the result. */
  lemma {:induction false} MoveToFront(b: Buffers, a: seq<AddOp>, x: AddOp, c: seq<AddOp>)
    ensures ApplyAll(b, a + [x] + c) == ApplyAll(Apply(b, x), a + c)
    decreases |a|
  {
    if |a| == 0 {
      assert a + c == c;
      assert a + [x] + c == [x] + c;
      assert ([x] + c)[0] == x;
      assert ([x] + c)[1..] == c;
    } else {
      assert (a + [x] + c)[0] == a[0];
      assert (a + [x] + c)[1..] == a[1..] + [x] + c;
      assert (a + c)[0] == a[0];
      assert (a + c)[1..] == a[1..] + c;
      MoveToFront(Apply(b, a[0]), a[1..], x, c);
      ApplyCommutes(b, a[0], x);
    }
  }

  /** Add calls commute: any reordering of the same calls leaves the same contents. */
  lemma {:induction false} AddsCommute(b: Buffers, ops: seq<AddOp>, ops2: seq<AddOp>)
    requires multiset(ops) == multiset(ops2)
    ensures ApplyAll(b, ops) == ApplyAll(b, ops2)
    decreases |ops|
  {
    if |ops| == 0 {
      assert |ops2| == |multiset(ops2)| == 0;
    } else {
      var x := ops[0];
      assert x in multiset(ops2);
      var j :| 0 <= j < |ops2| && ops2[j] == x;
      var a, c := ops2[..j], ops2[j + 1..];
      assert ops2 == a + [x] + c;
      assert ops == [x] + ops[1..];
      assert multiset(ops[1..]) + multiset{x} == multiset(ops);
      assert multiset(a + c) + multiset{x} == multiset(ops2) by {
        assert multiset(a + [x] + c) == multiset(a) + multiset([x]) + multiset(c);
        assert multiset(a + c) == multiset(a) + multiset(c);
      }
      MultisetCancel(multiset(ops[1..]), multiset(a + c), x);
      AddsCommute(Apply(b, x), ops[1..], a + c);
      MoveToFront(b, a, x, c);
    }
  }

  // ---------------------------------------------------------------- the database side

  /** The counters a user row receives: the four traffic counters and the `flow` column. */
  datatype UserCounters = UserCounters(counts: Agg, flow: int)

  /** A `traffic_record` row's accumulated counters and creation time. */
  datatype HistoryRow = HistoryRow(rawIn: int, rawOut: int, billingFlow: int, createdTime: int)

  /** The counters of the database rows that exist, per table. */
  datatype Tables = Tables(
    forwards: map<int, Agg>, users: map<int, UserCounters>, userTunnels: map<int, Agg>,
    nodes: map<int, RawAgg>, history: map<HistoryKey, HistoryRow>)

  /** `UPDATE … SET col = col + ? WHERE id = ?` for every delta: rows without a delta, and
      deltas without a row, change nothing. */
  function Incremented<V, D>(rows: map<int, V>, ds: map<int, D>, add: (V, D) -> V): (r: map<int, V>)
    ensures r.Keys == rows.Keys
  {
    map id | id in rows :: if id in ds then add(rows[id], ds[id]) else rows[id]
  }

  /** The user row as flow_buffer.go:216-222 writes it, and as `Buffer.Flush` does: besides
      the traffic counters, `flow` (the quota in GB) gains the billed bytes. */
  function AddUserAsWritten(u: UserCounters, d: Agg): UserCounters {
    UserCounters(Plus(u.counts, d), u.flow + d.billingIn + d.billingOut)
  }

  /** The user row as the flush is meant to write it: the traffic counters gain the deltas
      and `flow`, the account's quota in GB, is left alone. */
  function AddUser(u: UserCounters, d: Agg): UserCounters {
    UserCounters(Plus(u.counts, d), u.flow)
  }

  /** How a flush writes one user row: `AddUserAsWritten` or the corrected `AddUser`. */
  type UserWrite = (UserCounters, Agg) -> UserCounters

  function AddRaw(a: RawAgg, b: RawAgg): RawAgg { PlusRaw(a, b) }

  /** What a user-tunnel key contributes to row `id`. */
  function Share(ds: map<string, Agg>, k: string, id: int): Agg
    requires k in ds
  {
    if ParseIntLoose(k) == id then ds[k] else Zero
  }

  /** The sum of the deltas whose key text names row `id` (several texts, like "7" and
      "07", name the same row). */
  ghost function TunnelTotal(ds: map<string, Agg>, id: int): Agg
    decreases |ds.Keys|
  {
    if ds.Keys == {} then Zero
    else
      var k :| k in ds.Keys;
      Plus(TunnelTotal(ds - {k}, id), Share(ds, k, id))
  }

  lemma PlusSwap(a: Agg, b: Agg, c: Agg)
    ensures Plus(Plus(a, b), c) == Plus(Plus(a, c), b)
  {
  }

  lemma RemoveTwo(ds: map<string, Agg>, k0: string, k: string)
    requires k0 in ds && k in ds && k0 != k
    ensures |(ds - {k0}).Keys| < |ds.Keys| && |(ds - {k}).Keys| < |ds.Keys|
    ensures k in ds - {k0} && k0 in ds - {k}
    ensures ds - {k} - {k0} == ds - {k0} - {k}
    ensures forall id :: Share(ds - {k0}, k, id) == Share(ds, k, id) && Share(ds - {k}, k0, id) == Share(ds, k0, id)
  {
    assert (ds - {k0}).Keys == ds.Keys - {k0};
    assert (ds - {k}).Keys == ds.Keys - {k};
  }

  /** The sum does not depend on the key taken out first. */
  lemma {:induction false} TunnelTotalRemove(ds: map<string, Agg>, k: string, id: int)
    requires k in ds
    ensures TunnelTotal(ds, id) == Plus(TunnelTotal(ds - {k}, id), Share(ds, k, id))
    decreases |ds.Keys|
  {
    var k0 :| k0 in ds.Keys && TunnelTotal(ds, id) == Plus(TunnelTotal(ds - {k0}, id), Share(ds, k0, id));
    if k0 != k {
      var both := ds - {k0} - {k};
      RemoveTwo(ds, k0, k);
      TunnelTotalRemove(ds - {k0}, k, id);
      TunnelTotalRemove(ds - {k}, k0, id);
      PlusSwap(TunnelTotal(both, id), Share(ds, k, id), Share(ds, k0, id));
    }
  }

  ghost function TunnelIncremented(rows: map<int, Agg>, ds: map<string, Agg>): (r: map<int, Agg>)
    ensures r.Keys == rows.Keys
  {
    map id | id in rows :: Plus(rows[id], TunnelTotal(ds, id))
  }

  /** One bucket's row after its upsert: inserted with the bucket's counters, or the
      existing row with the counters added. */
  function Merged(rows: map<HistoryKey, HistoryRow>, h: HistoryAgg, k: HistoryKey, now: int): HistoryRow {
    if k in rows then HistoryRow(rows[k].rawIn + h.rawIn, rows[k].rawOut + h.rawOut, rows[k].billingFlow + h.billingFlow, rows[k].createdTime)
    else HistoryRow(h.rawIn, h.rawOut, h.billingFlow, now)
  }

  /** `INSERT … ON CONFLICT(key) DO UPDATE SET col = col + excluded.col` for every bucket. */
  function Upserted(rows: map<HistoryKey, HistoryRow>, hs: map<HistoryKey, HistoryAgg>, now: int): (r: map<HistoryKey, HistoryRow>)
    ensures r.Keys == rows.Keys + hs.Keys
  {
    map k | k in rows.Keys + hs.Keys :: if k in hs then Merged(rows, hs[k], k, now) else rows[k]
  }

  /** The four counter tables after the transaction; it leaves them alone when it does not
      commit. */
  ghost function Transaction(t: Tables, b: Buffers, commits: bool, write: UserWrite): Tables {
    if !commits then t
    else t.(
      forwards := Incremented(t.forwards, b.forwards, Plus),
      users := Incremented(t.users, b.users, write),
      userTunnels := TunnelIncremented(t.userTunnels, b.userTunnels),
      nodes := Incremented(t.nodes, b.nodes, AddRaw))
  }

  /** The database after flushing snapshot `b`: nothing when the forward and user maps are
      both empty; otherwise the transaction, then the history upserts. */
  ghost function Flushed(t: Tables, b: Buffers, commits: bool, now: int, write: UserWrite): Tables {
    if |b.forwards| == 0 && |b.users| == 0 then t
    else
      var t1 := Transaction(t, b, commits, write);
      t1.(history := Upserted(t1.history, b.history, now))
  }

  /** Flushing an empty buffer writes nothing: a delta reaches the database once. */
  lemma FlushEmptyWritesNothing(t: Tables, commits: bool, now: int, write: UserWrite)
    ensures Flushed(t, Empty, commits, now, write) == t
  {
  }

  /** A snapshot without forward or user deltas is dropped, whatever else it holds. */
  lemma FlushDropsWithoutForwards(t: Tables, b: Buffers, commits: bool, now: int, write: UserWrite)
    requires |b.forwards| == 0 && |b.users| == 0
    ensures Flushed(t, b, commits, now, write) == t
  {
  }

  /** A committed flush, as written, adds each forward, user and node delta to its row
      exactly once, never overwrites, adds every bucket's counters to its history row, and
      raises the user's quota by the billed bytes. */
  lemma FlushAddsDeltas(t: Tables, b: Buffers, now: int, id: int, k: HistoryKey)
    requires |b.forwards| > 0 || |b.users| > 0
    ensures var t2 := Flushed(t, b, true, now, AddUserAsWritten);
      t2.forwards.Keys == t.forwards.Keys && t2.users.Keys == t.users.Keys && t2.nodes.Keys == t.nodes.Keys &&
      (id in t.forwards ==> t2.forwards[id] == Plus(t.forwards[id], Get(b.forwards, id))) &&
      (id in t.users ==> t2.users[id] == UserCounters(Plus(t.users[id].counts, Get(b.users, id)),
        t.users[id].flow + Get(b.users, id).billingIn + Get(b.users, id).billingOut)) &&
      (id in t.nodes ==> t2.nodes[id] == PlusRaw(t.nodes[id], GetRaw(b.nodes, id))) &&
      (id in t.userTunnels ==> t2.userTunnels[id] == Plus(t.userTunnels[id], TunnelTotal(b.userTunnels, id))) &&
      (k in b.history && k in t.history ==> (
        t2.history[k].rawIn == t.history[k].rawIn + b.history[k].rawIn &&
        t2.history[k].billingFlow == t.history[k].billingFlow + b.history[k].billingFlow)) &&
      (k in b.history && k !in t.history ==> t2.history[k].rawOut == b.history[k].rawOut) &&
      (k !in b.history ==> (k in t2.history <==> k in t.history))
  {
  }

  /** A failed transaction loses the counter deltas but still writes the history. */
  lemma FailedTransactionKeepsHistory(t: Tables, b: Buffers, now: int, write: UserWrite)
    requires |b.forwards| > 0 || |b.users| > 0
    ensures Flushed(t, b, false, now, write) == t.(history := Upserted(t.history, b.history, now))
  {
  }

  /** The quota test the traffic checks apply to a user row: a quota of `flow` GB is used up. */
  predicate OverQuota(u: UserCounters) {
    u.flow > 0 && u.counts.billingIn + u.counts.billingOut >= u.flow * 1073741824
  }

  const ShortUser := UserCounters(Agg(0, 0, 0, 1073741823), 1)
  const Burst := Agg(100, 100, 0, 100)

  /** A user a byte short of quota is over it after the flush adds the bytes; as written,
      the same flush also raises the quota by the billed bytes, so the account reads as
      under quota again. */
  lemma QuotaGrowsWithTraffic()
    ensures !OverQuota(AddUserAsWritten(ShortUser, Burst)) && OverQuota(AddUser(ShortUser, Burst))
  {
    assert AddUserAsWritten(ShortUser, Burst) == UserCounters(Agg(100, 100, 0, 1073741923), 101);
    assert AddUser(ShortUser, Burst) == UserCounters(Agg(100, 100, 0, 1073741923), 1);
  }

  /** Without the extra term the quota is never touched by a flush. */
  lemma FlushKeepsQuota(u: UserCounters, d: Agg)
    ensures AddUser(u, d).flow == u.flow
    ensures AddUser(u, d).counts == AddUserAsWritten(u, d).counts
    ensures AddUserAsWritten(u, d).flow - u.flow == d.billingIn + d.billingOut
  {
  }

  /** The corrected flush writes the same tables as the flush as written, except that every
      user's quota keeps the value it had before the flush. */
  lemma CorrectedFlushKeepsQuotas(t: Tables, b: Buffers, commits: bool, now: int, id: int)
    ensures var w := Flushed(t, b, commits, now, AddUserAsWritten);
      var c := Flushed(t, b, commits, now, AddUser);
      c.forwards == w.forwards && c.userTunnels == w.userTunnels && c.nodes == w.nodes &&
      c.history == w.history && c.users.Keys == w.users.Keys &&
      (id in t.users ==> c.users[id] == w.users[id].(flow := t.users[id].flow))
  {
    if (|b.forwards| > 0 || |b.users| > 0) && commits {
      var w1 := Transaction(t, b, true, AddUserAsWritten);
      var c1 := Transaction(t, b, true, AddUser);
      assert c1 == w1.(users := c1.users);
      if id in t.users && id in b.users {
        assert c1.users[id] == AddUser(t.users[id], b.users[id]);
        assert w1.users[id] == AddUserAsWritten(t.users[id], b.users[id]);
      }
    }
  }

  // ---------------------------------------------------------------- the imperative objects

  /** The database tables the flush writes to. */
  class Store {
    var forwards: map<int, Agg>
    var users: map<int, UserCounters>
    var userTunnels: map<int, Agg>
    var nodes: map<int, RawAgg>
    var history: map<HistoryKey, HistoryRow>

    function State(): Tables
      reads this
    {
      Tables(forwards, users, userTunnels, nodes, history)
    }

    constructor(t: Tables)
      ensures State() == t
    {
      forwards := t.forwards;
      users := t.users;
      userTunnels := t.userTunnels;
      nodes := t.nodes;
      history := t.history;
    }
  }

  /** A set that is not empty has an element (the loops below take their next key so). */
  lemma HasIntElement(s: set<int>)
    ensures s == {} || exists x :: x in s
  {
    if forall x :: x !in s {
      assert s == {};
    }
  }

  lemma HasElement<T>(s: set<T>)
    ensures s == {} || exists x :: x in s
  {
    if forall x :: x !in s {
      assert s == {};
    }
  }

  /** One `for id, agg := range snapshot { Updates(col + delta) }` loop. */
  method IncrementRows<V, D>(rows: map<int, V>, ds: map<int, D>, add: (V, D) -> V) returns (r: map<int, V>)
    ensures r == Incremented(rows, ds, add)
  {
    r := rows;
    var rest := ds.Keys;
    while |rest| > 0
      invariant rest <= ds.Keys
      invariant r.Keys == rows.Keys
      invariant forall id :: id in rows ==> r[id] == if id in ds && id !in rest then add(rows[id], ds[id]) else rows[id]
      decreases |rest|
    {
      HasIntElement(rest);
      var id :| id in rest;
      if id in r {
        r := r[id := add(r[id], ds[id])];
      }
      rest := rest - {id};
    }
    assert forall id :: id in rows ==> r[id] == Incremented(rows, ds, add)[id];
  }

  /** How far the user-tunnel loop has got: the keys not in `rest` have been added. */
  ghost predicate TunnelInv(rows: map<int, Agg>, ds: map<string, Agg>, rest: set<string>, r: map<int, Agg>) {
    rest <= ds.Keys && r.Keys == rows.Keys &&
    forall id :: id in rows ==> r[id] == Plus(rows[id], TunnelTotal(ds - rest, id))
  }

  lemma TunnelStart(rows: map<int, Agg>, ds: map<string, Agg>)
    ensures TunnelInv(rows, ds, ds.Keys, rows)
  {
    assert (ds - ds.Keys).Keys == {};
  }

  /** One step of the user-tunnel loop keeps its invariant. */
  lemma TunnelStep(rows: map<int, Agg>, ds: map<string, Agg>, rest: set<string>, key: string, r: map<int, Agg>)
    requires TunnelInv(rows, ds, rest, r) && key in rest
    ensures TunnelInv(rows, ds, rest - {key}, if ParseIntLoose(key) in r then r[ParseIntLoose(key) := Plus(r[ParseIntLoose(key)], ds[key])] else r)
  {
    forall i | i in rows
      ensures (if ParseIntLoose(key) in r then r[ParseIntLoose(key) := Plus(r[ParseIntLoose(key)], ds[key])] else r)[i]
        == Plus(rows[i], TunnelTotal(ds - (rest - {key}), i))
    {
      TunnelRowStep(rows, ds, rest, key, r, i);
    }
  }

  lemma TunnelRowStep(rows: map<int, Agg>, ds: map<string, Agg>, rest: set<string>, key: string, r: map<int, Agg>, i: int)
    requires TunnelInv(rows, ds, rest, r) && key in rest && i in rows
    ensures (if ParseIntLoose(key) in r then r[ParseIntLoose(key) := Plus(r[ParseIntLoose(key)], ds[key])] else r)[i]
      == Plus(rows[i], TunnelTotal(ds - (rest - {key}), i))
  {
    var t0 := TunnelTotal(ds - rest, i);
    var share := Share(ds - (rest - {key}), key, i);
    TotalStep(ds, rest, key, i);
    RowUpdate(r, ParseIntLoose(key), ds[key], i, share);
    PlusAssoc(rows[i], t0, share);
  }

  /** Adding `d` to row `id` adds `share` to row `i`. */
  lemma RowUpdate(r: map<int, Agg>, id: int, d: Agg, i: int, share: Agg)
    requires i in r && share == (if id == i then d else Zero)
    ensures (if id in r then r[id := Plus(r[id], d)] else r)[i] == Plus(r[i], share)
  {
  }

  /** The sum over the keys done after a step is the sum before it plus the step's share. */
  lemma TotalStep(ds: map<string, Agg>, rest: set<string>, key: string, i: int)
    requires rest <= ds.Keys && key in rest
    ensures key in ds - (rest - {key})
    ensures TunnelTotal(ds - (rest - {key}), i) == Plus(TunnelTotal(ds - rest, i), Share(ds - (rest - {key}), key, i))
  {
    DoneSplit(ds, rest, key);
    TunnelTotalRemove(ds - (rest - {key}), key, i);
  }

  /** The keys done after the step are those done before it and the step's key. */
  lemma DoneSplit(ds: map<string, Agg>, rest: set<string>, key: string)
    requires rest <= ds.Keys && key in rest
    ensures key in ds - (rest - {key})
    ensures (ds - (rest - {key})) - {key} == ds - rest
    ensures (ds - (rest - {key}))[key] == ds[key]
  {
  }

  lemma PlusAssoc(a: Agg, b: Agg, c: Agg)
    ensures Plus(Plus(a, b), c) == Plus(a, Plus(b, c))
    ensures Plus(a, Zero) == a
  {
  }

  lemma TunnelDone(rows: map<int, Agg>, ds: map<string, Agg>, r: map<int, Agg>)
    requires TunnelInv(rows, ds, {}, r)
    ensures r == TunnelIncremented(rows, ds)
  {
    assert ds - {} == ds;
  }

  /** The user-tunnel loop: each key text is converted to a row id, and several texts may
      name the same row. */
  method IncrementTunnelRows(rows: map<int, Agg>, ds: map<string, Agg>) returns (r: map<int, Agg>)
    ensures r == TunnelIncremented(rows, ds)
  {
    r := rows;
    var rest := ds.Keys;
    TunnelStart(rows, ds);
    while |rest| > 0
      invariant TunnelInv(rows, ds, rest, r)
      decreases |rest|
    {
      HasElement(rest);
      var key :| key in rest;
      var id := ParseIntLoose(key);
      TunnelStep(rows, ds, rest, key, r);
      if id in r {
        r := r[id := Plus(r[id], ds[key])];
      }
      rest := rest - {key};
    }
    assert rest == {};
    TunnelDone(rows, ds, r);
  }

  /** How far the history loop has got: the buckets not in `rest` have been upserted. */
  predicate UpsertInv(rows: map<HistoryKey, HistoryRow>, hs: map<HistoryKey, HistoryAgg>, now: int, rest: set<HistoryKey>, r: map<HistoryKey, HistoryRow>) {
    rest <= hs.Keys && r.Keys == rows.Keys + (hs.Keys - rest) &&
    forall k :: k in r ==> r[k] == if k in hs && k !in rest then Merged(rows, hs[k], k, now) else rows[k]
  }

  lemma UpsertStart(rows: map<HistoryKey, HistoryRow>, hs: map<HistoryKey, HistoryAgg>, now: int)
    ensures UpsertInv(rows, hs, now, hs.Keys, rows)
  {
  }

  lemma UpsertStep(rows: map<HistoryKey, HistoryRow>, hs: map<HistoryKey, HistoryAgg>, now: int, rest: set<HistoryKey>, r: map<HistoryKey, HistoryRow>, k: HistoryKey)
    requires UpsertInv(rows, hs, now, rest, r) && k in rest
    ensures UpsertInv(rows, hs, now, rest - {k}, r[k := Merged(r, hs[k], k, now)])
  {
    assert k in r <==> k in rows;
  }

  lemma UpsertDone(rows: map<HistoryKey, HistoryRow>, hs: map<HistoryKey, HistoryAgg>, now: int, r: map<HistoryKey, HistoryRow>)
    requires UpsertInv(rows, hs, now, {}, r)
    ensures r == Upserted(rows, hs, now)
  {
  }

  /** The history loop: every bucket is upserted. */
  method UpsertHistory(rows: map<HistoryKey, HistoryRow>, hs: map<HistoryKey, HistoryAgg>, now: int) returns (r: map<HistoryKey, HistoryRow>)
    ensures r == Upserted(rows, hs, now)
  {
    r := rows;
    var rest := hs.Keys;
    UpsertStart(rows, hs, now);
    while |rest| > 0
      invariant UpsertInv(rows, hs, now, rest, r)
      decreases |rest|
    {
      HasElement(rest);
      var k :| k in rest;
      UpsertStep(rows, hs, now, rest, r, k);
      r := r[k := Merged(r, hs[k], k, now)];
      rest := rest - {k};
    }
    assert rest == {};
    UpsertDone(rows, hs, now, r);
  }

  /** The transaction: the four increment loops. */
  method Commit(store: Store, b: Buffers)
    modifies store
    ensures store.State() == Transaction(old(store.State()), b, true, AddUserAsWritten)
  {
    store.forwards := IncrementRows(store.forwards, b.forwards, Plus);
    store.users := IncrementRows(store.users, b.users, AddUserAsWritten);
    store.userTunnels := IncrementTunnelRows(store.userTunnels, b.userTunnels);
    store.nodes := IncrementRows(store.nodes, b.nodes, AddRaw);
  }

  /** `FlowBuffer`: the five accumulation maps. */
  class Buffer {
    var forwardMap: map<int, Agg>
    var userMap: map<int, Agg>
    var userTunnelMap: map<string, Agg>
    var nodeMap: map<int, RawAgg>
    var historyMap: map<HistoryKey, HistoryAgg>

    function Contents(): Buffers
      reads this
    {
      Buffers(forwardMap, userMap, userTunnelMap, nodeMap, historyMap)
    }

    /** `InitFlowBuffer`: all five maps empty. */
    constructor()
      ensures Contents() == Empty
    {
      forwardMap := map[];
      userMap := map[];
      userTunnelMap := map[];
      nodeMap := map[];
      historyMap := map[];
    }

    method AddForward(id: int, rawIn: int, rawOut: int, billIn: int, billOut: int)
      modifies this
      ensures Contents() == Apply(old(Contents()), AddForwardOp(id, Agg(rawIn, rawOut, billIn, billOut)))
    {
      if id !in forwardMap {
        forwardMap := forwardMap[id := Zero];
      }
      var agg := forwardMap[id];
      forwardMap := forwardMap[id := Agg(agg.rawIn + rawIn, agg.rawOut + rawOut, agg.billingIn + billIn, agg.billingOut + billOut)];
    }

    method AddUser(id: int, rawIn: int, rawOut: int, billIn: int, billOut: int)
      modifies this
      ensures Contents() == Apply(old(Contents()), AddUserOp(id, Agg(rawIn, rawOut, billIn, billOut)))
    {
      if id !in userMap {
        userMap := userMap[id := Zero];
      }
      var agg := userMap[id];
      userMap := userMap[id := Agg(agg.rawIn + rawIn, agg.rawOut + rawOut, agg.billingIn + billIn, agg.billingOut + billOut)];
    }

    method AddUserTunnel(id: string, rawIn: int, rawOut: int, billIn: int, billOut: int)
      modifies this
      ensures Contents() == Apply(old(Contents()), AddUserTunnelOp(id, Agg(rawIn, rawOut, billIn, billOut)))
    {
      if id !in userTunnelMap {
        userTunnelMap := userTunnelMap[id := Zero];
      }
      var agg := userTunnelMap[id];
      userTunnelMap := userTunnelMap[id := Agg(agg.rawIn + rawIn, agg.rawOut + rawOut, agg.billingIn + billIn, agg.billingOut + billOut)];
    }

    method AddNode(id: int, rawIn: int, rawOut: int)
      modifies this
      ensures Contents() == Apply(old(Contents()), AddNodeOp(id, RawAgg(rawIn, rawOut)))
    {
      if id !in nodeMap {
        nodeMap := nodeMap[id := RawAgg(0, 0)];
      }
      var agg := nodeMap[id];
      nodeMap := nodeMap[id := RawAgg(agg.rawIn + rawIn, agg.rawOut + rawOut)];
    }

    /** `timeStr` is the current hour as "2006-01-02 15:00:00" text. */
    method AddHistory(timeStr: string, nodeId: int, forwardId: int, userId: int, tunnelId: int, rawIn: int, rawOut: int, billFlow: int)
      modifies this
      ensures Contents() == Apply(old(Contents()), AddHistoryOp(HistoryKey(timeStr, nodeId, forwardId, userId, tunnelId), rawIn, rawOut, billFlow))
    {
      var key := HistoryKey(timeStr, nodeId, forwardId, userId, tunnelId);
      if key !in historyMap {
        historyMap := historyMap[key := HistoryAgg(timeStr, nodeId, forwardId, userId, tunnelId, 0, 0, 0)];
      }
      var agg := historyMap[key];
      historyMap := historyMap[key := agg.(rawIn := agg.rawIn + rawIn, rawOut := agg.rawOut + rawOut, billingFlow := agg.billingFlow + billFlow)];
    }

    /** `Flush()`: swap the maps for empty ones, then write the snapshot. `commits` is
        whether the transaction commits; `now` is the creation time of new history rows. */
    method Flush(store: Store, commits: bool, now: int)
      modifies this, store
      ensures Contents() == Empty
      ensures store.State() == Flushed(old(store.State()), old(Contents()), commits, now, AddUserAsWritten)
    {
      var currForward := forwardMap;
      var currUser := userMap;
      var currUserTunnel := userTunnelMap;
      var currNode := nodeMap;
      var currHistory := historyMap;
      var snap := Buffers(currForward, currUser, currUserTunnel, currNode, currHistory);

      forwardMap := map[];
      userMap := map[];
      userTunnelMap := map[];
      nodeMap := map[];
      historyMap := map[];

      if |currForward| == 0 && |currUser| == 0 {
        return;
      }
      if commits {
        Commit(store, snap);
      }
      store.history := UpsertHistory(store.history, currHistory, now);
    }
  }
}
