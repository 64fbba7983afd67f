/**
 The provisioning database: one record holds the rows of every table that belong to one
 credential, and each transaction is a function from the rows before to the rows after.
 The node table is shared by all credentials.
 */
module Provisioning {
  import opened Common

  datatype OpState = Pending | Processing | Retry | Succeeded | Failed | Superseded

  datatype AllocState = Unapplied | Active | Broken | Revoked

  datatype Op = Op(kind: Kind, rev: nat, seqNo: nat, state: OpState,
                   attempts: nat, maxAttempts: nat, allocRev: nat)

  /** An allocation row; credential and role form its key. */
  datatype Alloc = Alloc(op: OpId, node: NodeId, rev: nat, want: Presence,
                         allocRev: nat, state: AllocState)

  datatype Outcome =
    | ProvisionSucceeded(op: OpId, rev: nat, status: ReadyStatus,
                         placed: set<NodeId>, endpoints: seq<Endpoint>)
    | ProvisionFailed(op: OpId, rev: nat)
    | RevokeSucceeded(op: OpId, rev: nat, allocRev: nat, nodes: set<NodeId>)
    | RevokeFailed(op: OpId, rev: nat)

  datatype Publish = Waiting | Leased | Published

  datatype OutboxRow = OutboxRow(seqNo: nat, outcome: Outcome, publish: Publish, attempts: nat)

  /** A decoded command; digest stands for the remaining recorded envelope fields. */
  datatype Command = Command(op: OpId, kind: Kind, seqNo: nat, rev: nat, digest: nat)

  datatype Tables = Tables(
    inbox: map<EventId, Command>,
    lastSeq: nat, lastRev: nat,
    ops: map<OpId, Op>,
    allocs: map<Role, Alloc>,
    outcomeSeq: nat,
    outbox: seq<OutboxRow>)

  const NO_ROWS := Tables(map[], 0, 0, map[], map[], 0, [])

  datatype NodeStatus = Serving | Draining | Offline

  datatype Node = Node(status: NodeStatus, region: nat, limit: nat, reserve: nat,
                       clients: nat, lastSeen: Option<Time>)

  datatype Placement = Placement(region: nat, primaryNodes: nat, failoverNodes: nat, validUntil: Time)

  /** The copy of an operation row that a worker holds after claiming it. */
  datatype Claim = Claim(id: OpId, kind: Kind, rev: nat, attempts: nat, maxAttempts: nat)

  datatype Listed = Listed(role: Role, alloc: Alloc)

  datatype Ensured = Ensured(tables: Tables, nodes: map<NodeId, Node>, rows: seq<Listed>)

  predicate Terminal(s: OpState) {
    s == Succeeded || s == Failed || s == Superseded
  }

  // ---- commands -----------------------------------------------------------------------

  function Supersede(o: Op, rev: nat): Op {
    if o.rev < rev && !Terminal(o.state) then o.(state := Superseded) else o
  }

  function Advance(a: Alloc, op: OpId, kind: Kind, rev: nat): Alloc {
    if a.rev < rev then
      a.(op := op, rev := rev, want := Want(kind),
         allocRev := if kind == Provision then rev else a.allocRev,
         state := if kind == Provision && a.state != Revoked then Unapplied else a.state)
    else a
  }

  function RecordCommand(t: Tables, event: EventId, c: Command, maxAttempts: nat): Result<Tables> {
    if event in t.inbox then
      if t.inbox[event] == c then Ok(t) else Err(Conflict)
    else if c.seqNo > t.lastSeq + 1 then Err(Gap)
    else if c.seqNo <= t.lastSeq || c.rev <= t.lastRev then Err(Conflict)
    else if c.op in t.ops then Err(Conflict)
    else
      Ok(t.(inbox := t.inbox[event := c],
            ops := (map id | id in t.ops :: Supersede(t.ops[id], c.rev))
                   [c.op := Op(c.kind, c.rev, c.seqNo, Pending, 0, maxAttempts, 0)],
            allocs := map r | r in t.allocs :: Advance(t.allocs[r], c.op, c.kind, c.rev),
            lastSeq := c.seqNo,
            lastRev := c.rev))
  }

  /** The service accepts a command only when its sequence equals its revision. */
  function ProcessCommand(t: Tables, event: EventId, c: Command, maxAttempts: nat): Result<Tables> {
    if c.rev < 1 || c.seqNo != c.rev then Err(Conflict) else RecordCommand(t, event, c, maxAttempts)
  }

  // ---- operation lease ----------------------------------------------------------------

  predicate Claimable(t: Tables, id: OpId) {
    && id in t.ops
    && !Terminal(t.ops[id].state)
    && forall p | p in t.ops && t.ops[p].seqNo < t.ops[id].seqNo :: Terminal(t.ops[p].state)
  }

  function ClaimOf(id: OpId, o: Op): Claim {
    Claim(id, o.kind, o.rev, o.attempts + 1, o.maxAttempts)
  }

  function ClaimOperation(t: Tables, id: OpId): Tables
    requires Claimable(t, id)
  {
    t.(ops := t.ops[id := t.ops[id].(state := Processing, attempts := t.ops[id].attempts + 1)])
  }

  function SetOpState(t: Tables, id: OpId, s: OpState): Tables
    requires id in t.ops
  {
    t.(ops := t.ops[id := t.ops[id].(state := s)])
  }

  function RetryOperation(t: Tables, id: OpId): Result<Tables> {
    if id in t.ops && t.ops[id].state == Processing
    then Ok(SetOpState(t, id, Retry)) else Err(Conflict)
  }

  // ---- capacity -----------------------------------------------------------------------

  /** Usable slots, as the Go code computes them with integer division. */
  function Ceiling(n: Node): int {
    n.limit * (100 - n.reserve) / 100
  }

  /** Usable slots, as the SQL query computes them in exact decimals. */
  function SqlCeiling(n: Node): int {
    ((n.limit * (100 - n.reserve)) as real / 100.0).Floor
  }

  predicate Fresh(n: Node, now: Time) {
    n.lastSeen.Some? && n.lastSeen.value >= now - 45
  }

  /** The node passes the check made before reactivating a revoked allocation. */
  predicate Reservable(n: Node, region: nat, now: Time) {
    n.status == Serving && n.region == region && Fresh(n, now) && n.clients < Ceiling(n)
  }

  /** The node passes the WHERE clause of the placement query. */
  predicate Placeable(n: Node, region: nat, now: Time) {
    n.region == region && n.status == Serving && Fresh(n, now) && n.clients < SqlCeiling(n)
  }

  function Reserve(nodes: map<NodeId, Node>, id: NodeId): map<NodeId, Node>
    requires id in nodes
  {
    nodes[id := nodes[id].(clients := nodes[id].clients + 1)]
  }

  function Release(nodes: map<NodeId, Node>, id: NodeId): map<NodeId, Node> {
    if id in nodes
    then nodes[id := nodes[id].(clients := if nodes[id].clients > 0 then nodes[id].clients - 1 else 0)]
    else nodes
  }

  // ---- allocation ---------------------------------------------------------------------

  /** Rows in the order of the listing query: primary first. */
  function List(t: Tables): seq<Listed> {
    (if Primary in t.allocs then [Listed(Primary, t.allocs[Primary])] else []) +
    (if Failover in t.allocs then [Listed(Failover, t.allocs[Failover])] else [])
  }

  /** The node row can be read; one that was never seen has no time to compare. */
  predicate Readable(nodes: map<NodeId, Node>, id: NodeId) {
    id in nodes && nodes[id].lastSeen.Some?
  }

  /** Checks every retained row against the claim and reserves a slot for each revoked one. */
  function ReserveRetained(rows: seq<Listed>, c: Claim, nodes: map<NodeId, Node>, region: nat, now: Time)
    : Result<map<NodeId, Node>>
  {
    if rows == [] then Ok(nodes) else
      var a := rows[0].alloc;
      if a.op != c.id || a.rev != c.rev || a.want != Present then Err(Conflict)
      else if a.state != Revoked then ReserveRetained(rows[1..], c, nodes, region, now)
      else if !Readable(nodes, a.node) then Err(Internal)
      else if !Reservable(nodes[a.node], region, now) then Err(Capacity)
      else ReserveRetained(rows[1..], c, Reserve(nodes, a.node), region, now)
  }

  function Rebind(a: Alloc, c: Claim): Alloc {
    if a.op == c.id && a.rev == c.rev
    then a.(want := Present, allocRev := c.rev, state := Unapplied) else a
  }

  function BindAllocRev(t: Tables, c: Claim): map<OpId, Op>
    requires c.id in t.ops
  {
    t.ops[c.id := t.ops[c.id].(allocRev := c.rev)]
  }

  /** Nodes returned by the placement query; the choice among eligible nodes is the caller's. */
  predicate ValidPick(nodes: map<NodeId, Node>, region: nat, now: Time, picked: seq<NodeId>) {
    && |picked| <= 2
    && (forall i | 0 <= i < |picked| :: picked[i] in nodes && Placeable(nodes[picked[i]], region, now))
    && (|picked| == 2 ==> picked[0] != picked[1])
  }

  function NewAlloc(c: Claim, node: NodeId): Alloc {
    Alloc(c.id, node, c.rev, Present, c.rev, Unapplied)
  }

  function EnsureAllocations(t: Tables, nodes: map<NodeId, Node>, c: Claim, p: Placement,
                             now: Time, picked: seq<NodeId>): Result<Ensured>
    requires ValidPick(nodes, p.region, now, picked)
  {
    if p.primaryNodes != 1 || p.failoverNodes != 1 then Err(Conflict)
    else if c.id !in t.ops || t.ops[c.id].rev != c.rev then Err(Internal)
    else if t.ops[c.id].state != Processing then Err(Conflict)
    else if p.validUntil <= now then Err(Conflict)
    else if t.allocs != map[] then
      if |t.allocs| != 2 then Err(Conflict) else
        var reserved := ReserveRetained(List(t), c, nodes, p.region, now);
        if reserved.Err? then Err(reserved.error) else
          var t' := t.(ops := BindAllocRev(t, c),
                       allocs := map r | r in t.allocs :: Rebind(t.allocs[r], c));
          Ok(Ensured(t', reserved.value, List(t')))
    else if |picked| != 2 then Err(Capacity)
    else
      var t' := t.(ops := BindAllocRev(t, c),
                   allocs := map[Primary := NewAlloc(c, picked[0]), Failover := NewAlloc(c, picked[1])]);
      Ok(Ensured(t', Reserve(Reserve(nodes, picked[0]), picked[1]), List(t')))
  }

  // ---- allocation marks ---------------------------------------------------------------

  /** The allocation of this node that is still bound to the operation. */
  predicate BoundTo(t: Tables, r: Role, id: OpId, node: NodeId) {
    && r in t.allocs && id in t.ops
    && t.allocs[r].op == id
    && t.allocs[r].rev == t.ops[id].rev
    && t.allocs[r].node == node
  }

  function SetAllocState(t: Tables, r: Role, s: AllocState): Tables
    requires r in t.allocs
  {
    t.(allocs := t.allocs[r := t.allocs[r].(state := s)])
  }

  predicate CanMarkApplied(t: Tables, r: Role, id: OpId, node: NodeId) {
    && BoundTo(t, r, id, node)
    && (t.ops[id].state == Processing || t.ops[id].state == Succeeded)
    && t.allocs[r].want == Present
    && t.allocs[r].state != Revoked
  }

  predicate CanMarkRevoked(t: Tables, r: Role, id: OpId, node: NodeId) {
    && BoundTo(t, r, id, node)
    && (t.ops[id].state == Processing || t.ops[id].state == Succeeded || t.ops[id].state == Failed)
    && t.allocs[r].want == Absent
  }

  predicate CanMarkFailed(t: Tables, r: Role, id: OpId, node: NodeId) {
    && BoundTo(t, r, id, node)
    && t.ops[id].state == Processing
    && t.allocs[r].state != Revoked
  }

  // ---- completion ---------------------------------------------------------------------

  function NodesOf(rows: seq<Listed>): set<NodeId> {
    set i | 0 <= i < |rows| :: rows[i].alloc.node
  }

  /** Endpoints of the active rows, primary first as the listing orders them. */
  function ActiveEndpoints(rows: seq<Listed>): seq<Endpoint> {
    if rows == [] then []
    else
      (if rows[0].alloc.state == Active then [Endpoint(rows[0].alloc.node, rows[0].role)] else [])
      + ActiveEndpoints(rows[1..])
  }

  predicate PrimaryActive(rows: seq<Listed>) {
    exists i :: 0 <= i < |rows| && rows[i].role == Primary && rows[i].alloc.state == Active
  }

  predicate RowsBound(rows: seq<Listed>, c: Claim, want: Presence) {
    forall i | 0 <= i < |rows| ::
      rows[i].alloc.op == c.id && rows[i].alloc.rev == c.rev && rows[i].alloc.want == want
  }

  /** The success event, when the rows that the worker read justify one. */
  function ProvisionEvent(c: Claim, status: ReadyStatus, rows: seq<Listed>): Result<Outcome> {
    if !RowsBound(rows, c, Present) || exists i :: 0 <= i < |rows| && rows[i].alloc.allocRev != c.rev
    then Err(Conflict)
    else if |rows| != 2 || rows[0].alloc.node == rows[1].alloc.node || !PrimaryActive(rows)
            || (status == FullyReady && |ActiveEndpoints(rows)| != 2)
            || (status == DegradedReady && |ActiveEndpoints(rows)| != 1)
    then Err(Conflict)
    else Ok(ProvisionSucceeded(c.id, c.rev, status, NodesOf(rows), ActiveEndpoints(rows)))
  }

  function MaxAllocRev(rows: seq<Listed>): nat {
    if rows == [] then 0
    else
      var rest := MaxAllocRev(rows[..|rows| - 1]);
      var last := rows[|rows| - 1].alloc.allocRev;
      if last > rest then last else rest
  }

  function RevokeEvent(c: Claim, rows: seq<Listed>): Result<Outcome> {
    if !RowsBound(rows, c, Absent) || exists i :: 0 <= i < |rows| && rows[i].alloc.state != Revoked
    then Err(Conflict)
    else Ok(RevokeSucceeded(c.id, c.rev, MaxAllocRev(rows), NodesOf(rows)))
  }

  predicate Success(o: Outcome) {
    o.ProvisionSucceeded? || o.RevokeSucceeded?
  }

  /** Two outcomes share a dedupe key when topic and operation agree. */
  predicate SameDedupeKey(a: Outcome, b: Outcome) {
    && a.op == b.op
    && a.ProvisionSucceeded? == b.ProvisionSucceeded?
    && a.ProvisionFailed? == b.ProvisionFailed?
    && a.RevokeSucceeded? == b.RevokeSucceeded?
  }

  /** Closes the operation and appends its outcome, or rejects a stale completion. */
  function Complete(t: Tables, c: Claim, o: Outcome): Result<Tables> {
    if c.id !in t.ops then Err(NotFound)
    else if t.ops[c.id].state == Succeeded || t.ops[c.id].state == Failed then Ok(t)
    else if t.ops[c.id].state != Processing then Err(Conflict)
    else if t.lastRev != c.rev then Err(Conflict)
    else if exists i :: 0 <= i < |t.outbox| && SameDedupeKey(t.outbox[i].outcome, o) then Err(Conflict)
    else
      Ok(SetOpState(t, c.id, if Success(o) then Succeeded else Failed)
         .(outcomeSeq := t.outcomeSeq + 1,
           outbox := t.outbox + [OutboxRow(t.outcomeSeq + 1, o, Waiting, 0)]))
  }

  function CompleteProvision(t: Tables, c: Claim, status: ReadyStatus, rows: seq<Listed>): Result<Tables> {
    var e := ProvisionEvent(c, status, rows);
    if e.Err? then Err(e.error) else Complete(t, c, e.value)
  }

  function CompleteRevoke(t: Tables, c: Claim, rows: seq<Listed>): Result<Tables> {
    var e := RevokeEvent(c, rows);
    if e.Err? then Err(e.error) else Complete(t, c, e.value)
  }

  // ---- publication --------------------------------------------------------------------

  /** The row may be leased: its turn has come and every lower sequence is published. */
  predicate Publishable(t: Tables, i: nat) {
    && i < |t.outbox|
    && t.outbox[i].publish != Published
    && forall j | 0 <= j < |t.outbox| && t.outbox[j].seqNo < t.outbox[i].seqNo :: t.outbox[j].publish == Published
  }

  function SetPublish(t: Tables, i: nat, p: Publish, attempts: nat): Tables
    requires i < |t.outbox|
  {
    t.(outbox := t.outbox[i := t.outbox[i].(publish := p, attempts := attempts)])
  }

  /** A row that reconciliation may pick up, given the state of its node. */
  predicate Reconcilable(t: Tables, r: Role, nodes: map<NodeId, Node>) {
    && r in t.allocs
    && t.allocs[r].op in t.ops
    && t.allocs[r].node in nodes
    && nodes[t.allocs[r].node].status != Offline
    && (t.allocs[r].want == Absent || t.ops[t.allocs[r].op].state == Succeeded)
  }

  // ---- seeding ------------------------------------------------------------------------

  datatype NodeSeed = NodeSeed(id: NodeId, region: nat, limit: nat, reserve: nat)

  /** Column checks of the node table. */
  predicate ValidSeed(s: NodeSeed) {
    1 <= s.limit <= 1000000 && 20 <= s.reserve <= 90
  }

  function SeedNode(nodes: map<NodeId, Node>, s: NodeSeed): map<NodeId, Node> {
    if s.id !in nodes then nodes[s.id := Node(Serving, s.region, s.limit, s.reserve, 0, None)]
    else if nodes[s.id].clients == 0 then
      nodes[s.id := nodes[s.id].(region := s.region, limit := s.limit, reserve := s.reserve)]
    else nodes
  }

  /** All seeds in order; one invalid seed aborts the transaction. */
  function SeedNodes(nodes: map<NodeId, Node>, seeds: seq<NodeSeed>): Result<map<NodeId, Node>>
    decreases |seeds|
  {
    if seeds == [] then Ok(nodes)
    else if !ValidSeed(seeds[0]) then Err(Conflict)
    else SeedNodes(SeedNode(nodes, seeds[0]), seeds[1..])
  }

  // ---- facts --------------------------------------------------------------------------

  /** The Go check and the SQL filter admit a node in exactly the same cases. */
  lemma CeilingsAgree(n: Node, region: nat, now: Time)
    requires n.reserve <= 100
    ensures Ceiling(n) == SqlCeiling(n)
    ensures Reservable(n, region, now) <==> Placeable(n, region, now)
  {
    var x := n.limit * (100 - n.reserve);
    var q := x / 100;
    assert q * 100 <= x < q * 100 + 100;
    assert q as real <= x as real / 100.0 < q as real + 1.0;
  }

  lemma ListShape(t: Tables)
    ensures |List(t)| <= 2
    ensures forall i | 0 <= i < |List(t)| :: List(t)[i].role in t.allocs && List(t)[i].alloc == t.allocs[List(t)[i].role]
    ensures forall r | r in t.allocs :: exists i :: 0 <= i < |List(t)| && List(t)[i].role == r
    ensures t.allocs.Keys == {Primary, Failover} ==> List(t) == [Listed(Primary, t.allocs[Primary]), Listed(Failover, t.allocs[Failover])]
    ensures t.allocs == map[] ==> List(t) == []
  {
    if Primary in t.allocs { assert List(t)[0].role == Primary; }
    if Failover in t.allocs { assert List(t)[|List(t)| - 1].role == Failover; }
    forall r | r in t.allocs
      ensures exists i :: 0 <= i < |List(t)| && List(t)[i].role == r
    {
      if r == Primary { assert List(t)[0].role == r; } else { assert List(t)[|List(t)| - 1].role == r; }
    }
  }
}
