/**
 What each provisioning transaction leaves of the rows, stated field by field: when it is
 refused, the values of the rows that change, and everything that stays.
 */
module ProvisioningEffects {
  import opened Common
  import opened Provisioning

  // ---- commands -----------------------------------------------------------------------------------

  ghost predicate Unfinished(s: OpState) {
    s == Pending || s == Processing || s == Retry
  }

  /** Older unfinished operations are superseded; no other column of an operation changes. */
  ghost predicate SupersededOps(t: Tables, t': Tables, rev: nat) {
    forall id | id in t.ops ::
      id in t'.ops && t'.ops[id] == t.ops[id].(state := if t.ops[id].rev < rev && Unfinished(t.ops[id].state) then Superseded else t.ops[id].state)
  }

  /**
   An allocation of an older revision belongs to the new command: the agents must provision it
   again, or remove it; a provisioning also starts a new generation, and what is revoked stays so.
   */
  ghost predicate AdvancedAlloc(a: Alloc, b: Alloc, c: Command) {
    if a.rev >= c.rev then b == a
    else
      && b.op == c.op && b.node == a.node && b.rev == c.rev
      && (b.want == Present <==> c.kind == Provision)
      && b.allocRev == (if c.kind == Provision then c.rev else a.allocRev)
      && b.state == (if c.kind == Provision && a.state != Revoked then Unapplied else a.state)
  }

  ghost predicate CommandEffect(t: Tables, event: EventId, c: Command, maxAttempts: nat, r: Result<Tables>) {
    if event in t.inbox then r == if t.inbox[event] == c then Ok(t) else Err(Conflict)
    else if c.seqNo > t.lastSeq + 1 then r == Err(Gap)
    else if !(c.seqNo == t.lastSeq + 1 && c.rev > t.lastRev && c.op !in t.ops) then r == Err(Conflict)
    else
      && r.Ok?
      && var d := r.value;
         && d == t.(inbox := t.inbox[event := c], lastSeq := c.seqNo, lastRev := c.rev, ops := d.ops, allocs := d.allocs)
         && d.ops.Keys == t.ops.Keys + {c.op} && d.ops[c.op] == Op(c.kind, c.rev, c.seqNo, Pending, 0, maxAttempts, 0)
         && SupersededOps(t, d, c.rev)
         && d.allocs.Keys == t.allocs.Keys && forall x | x in t.allocs :: AdvancedAlloc(t.allocs[x], d.allocs[x], c)
  }

  lemma CommandHas(t: Tables, event: EventId, c: Command, maxAttempts: nat)
    ensures CommandEffect(t, event, c, maxAttempts, RecordCommand(t, event, c, maxAttempts))
  {
  }

  // ---- allocation -----------------------------------------------------------------------------------

  /** A node in service in the region, seen within 45 seconds, with room for so many more clients. */
  predicate TakesClients(n: Node, region: nat, now: Time, more: nat) {
    && n.status == Serving && n.region == region
    && n.lastSeen.Some? && now - n.lastSeen.value <= 45
    && (n.clients + more) * 100 <= n.limit * (100 - n.reserve)
  }

  /** One more client fits below the ceiling exactly when its share of the limit is not used up. */
  lemma RoomForOne(n: Node)
    ensures n.clients < SqlCeiling(n) <==> (n.clients + 1) * 100 <= n.limit * (100 - n.reserve)
    ensures n.clients < Ceiling(n) <==> (n.clients + 1) * 100 <= n.limit * (100 - n.reserve)
  {
    var x := n.limit * (100 - n.reserve);
    var q := x / 100;
    assert q * 100 <= x < q * 100 + 100;
    assert q as real <= x as real / 100.0 < q as real + 1.0;
  }

  /** Slots that reactivating these rows takes on a node: one for each revoked row. */
  function Slots(rows: seq<Listed>, n: NodeId): nat {
    if rows == [] then 0
    else (if rows[0].alloc.state == Revoked && rows[0].alloc.node == n then 1 else 0) + Slots(rows[1..], n)
  }

  /** The row is bound to the claim, and the node of a revoked one takes all clients it has to. */
  predicate Retainable(rows: seq<Listed>, i: nat, c: Claim, nodes: map<NodeId, Node>, region: nat, now: Time)
    requires i < |rows|
  {
    var a := rows[i].alloc;
    && a.op == c.id && a.rev == c.rev && a.want == Present
    && (a.state == Revoked ==> a.node in nodes && TakesClients(nodes[a.node], region, now, Slots(rows, a.node)))
  }

  /** Reservation succeeds exactly when every row is retainable, and then takes exactly those slots. */
  lemma {:induction false} ReservedMeans(rows: seq<Listed>, c: Claim, nodes: map<NodeId, Node>, region: nat, now: Time)
    ensures ReserveRetained(rows, c, nodes, region, now).Ok? <==>
            forall i | 0 <= i < |rows| :: Retainable(rows, i, c, nodes, region, now)
    ensures ReserveRetained(rows, c, nodes, region, now).Ok? ==>
              Took(rows, nodes, ReserveRetained(rows, c, nodes, region, now).value)
  {
    if rows != [] {
      var a, rest := rows[0].alloc, rows[1..];
      var bound := a.op == c.id && a.rev == c.rev && a.want == Present;
      if bound && a.state != Revoked {
        ReservedMeans(rest, c, nodes, region, now);
        RestRetainable(rows, c, nodes, nodes, region, now);
      } else if bound && a.node in nodes && TakesClients(nodes[a.node], region, now, 1) {
        RoomForOne(nodes[a.node]);
        ReservedMeans(rest, c, Reserve(nodes, a.node), region, now);
        RestRetainable(rows, c, nodes, Reserve(nodes, a.node), region, now);
      } else {
        assert !Retainable(rows, 0, c, nodes, region, now);
        if a.node in nodes { RoomForOne(nodes[a.node]); }
      }
    }
  }

  /** Every node has as many clients more as rows were reactivated on it, and nothing else changed. */
  predicate Took(rows: seq<Listed>, nodes: map<NodeId, Node>, nodes': map<NodeId, Node>) {
    nodes'.Keys == nodes.Keys && forall n | n in nodes :: nodes'[n] == nodes[n].(clients := nodes[n].clients + Slots(rows, n))
  }

  /** After the first row, the rest is retainable with the slot already taken. */
  lemma RestRetainable(rows: seq<Listed>, c: Claim, nodes: map<NodeId, Node>, nodes': map<NodeId, Node>, region: nat, now: Time)
    requires rows != [] && Took([rows[0]], nodes, nodes')
    requires rows[0].alloc.op == c.id && rows[0].alloc.rev == c.rev && rows[0].alloc.want == Present
    requires rows[0].alloc.state == Revoked ==> rows[0].alloc.node in nodes && TakesClients(nodes[rows[0].alloc.node], region, now, 1)
    ensures (forall i | 0 <= i < |rows| :: Retainable(rows, i, c, nodes, region, now)) <==>
            (forall i | 0 <= i < |rows| - 1 :: Retainable(rows[1..], i, c, nodes', region, now))
  {
    var rest, a := rows[1..], rows[0].alloc;
    assert [rows[0]][1..] == [];
    forall i: nat | i < |rest| ensures Retainable(rows, i + 1, c, nodes, region, now) <==> Retainable(rest, i, c, nodes', region, now) {
      assert rest[i] == rows[i + 1];
      assert Slots(rows, rest[i].alloc.node) == Slots([rows[0]], rest[i].alloc.node) + Slots(rest, rest[i].alloc.node);
    }
    if forall i | 0 <= i < |rest| :: Retainable(rest, i, c, nodes', region, now) {
      forall i | 0 <= i < |rows| ensures Retainable(rows, i, c, nodes, region, now) {
        if i > 0 {
          assert Retainable(rest, i - 1, c, nodes', region, now);
        } else if a.state == Revoked && Slots(rest, a.node) > 0 {
          var k := SomeRow(rest, a.node);
          assert Retainable(rest, k, c, nodes', region, now);
        }
      }
    }
  }

  lemma {:induction false} SomeRow(rows: seq<Listed>, n: NodeId) returns (k: nat)
    requires Slots(rows, n) > 0
    ensures k < |rows| && rows[k].alloc.state == Revoked && rows[k].alloc.node == n
  {
    if rows[0].alloc.state == Revoked && rows[0].alloc.node == n {
      k := 0;
    } else {
      k := SomeRow(rows[1..], n);
      k := k + 1;
    }
  }

  lemma BothRoles(t: Tables)
    requires |t.allocs| == 2
    ensures t.allocs.Keys == {Primary, Failover}
    ensures (set i | 0 <= i < |List(t)| :: List(t)[i].role) == {Primary, Failover}
  {
    var all: set<Role> := {Primary, Failover};
    forall r: Role ensures r in all { match r case Primary => case Failover => }
    if t.allocs.Keys != all {
      var missing :| missing in all && missing !in t.allocs.Keys;
      assert t.allocs.Keys <= all - {missing};
      SubsetSize(t.allocs.Keys, all - {missing});
    }
    assert List(t)[0].role == Primary && List(t)[1].role == Failover;
  }

  /** The operation is being processed and the placement asks for the two nodes it supports in time. */
  predicate MayPlace(t: Tables, c: Claim, p: Placement, now: Time) {
    && p.primaryNodes == 1 && p.failoverNodes == 1 && now < p.validUntil
    && c.id in t.ops && t.ops[c.id].rev == c.rev && t.ops[c.id].state == Processing
  }

  /** Two nodes were found for a new credential, or both rows of an old one can be kept. */
  predicate Holds(t: Tables, picked: seq<NodeId>, c: Claim, nodes: map<NodeId, Node>, region: nat, now: Time) {
    if t.allocs == map[] then |picked| == 2
    else |t.allocs| == 2 && forall i | 0 <= i < |List(t)| :: Retainable(List(t), i, c, nodes, region, now)
  }

  /**
   Both rows are bound to the claim's generation and wait for their agents; a new credential
   takes one slot on each of its two nodes, an old one keeps its nodes and takes a slot for each
   row that was revoked.  Of the other tables only the operation's allocation revision changes.
   */
  predicate Bound(t: Tables, nodes: map<NodeId, Node>, c: Claim, picked: seq<NodeId>, e: Ensured) {
    && c.id in t.ops
    && e.tables == t.(ops := t.ops[c.id := t.ops[c.id].(allocRev := c.rev)], allocs := e.tables.allocs)
    && e.rows == List(e.tables) && e.tables.allocs.Keys == {Primary, Failover} && e.nodes.Keys == nodes.Keys
    && (forall x | x in e.tables.allocs ::
          var a := e.tables.allocs[x];
          a.op == c.id && a.rev == c.rev && a.want == Present && a.allocRev == c.rev && a.state == Unapplied)
    && (if t.allocs == map[] then
          && |picked| == 2 && picked[0] != picked[1]
          && e.tables.allocs[Primary].node == picked[0] && e.tables.allocs[Failover].node == picked[1]
          && forall n | n in nodes :: e.nodes[n] == nodes[n].(clients := nodes[n].clients + (if n in picked then 1 else 0))
        else
          && t.allocs.Keys == {Primary, Failover} && Took(List(t), nodes, e.nodes)
          && forall x | x in t.allocs :: e.tables.allocs[x].node == t.allocs[x].node)
  }

  lemma EnsuredMeans(t: Tables, nodes: map<NodeId, Node>, c: Claim, p: Placement, now: Time, picked: seq<NodeId>)
    requires ValidPick(nodes, p.region, now, picked)
    ensures var r := EnsureAllocations(t, nodes, c, p, now, picked);
            && (r.Ok? <==> MayPlace(t, c, p, now) && Holds(t, picked, c, nodes, p.region, now))
            && (r.Ok? ==> Bound(t, nodes, c, picked, r.value))
  {
    ReservedMeans(List(t), c, nodes, p.region, now);
    if MayPlace(t, c, p, now) {
      if t.allocs == map[] {
        if |picked| == 2 { PlacedMeans(t, nodes, c, p, now, picked); }
      } else if |t.allocs| == 2 {
        RetainedMeans(t, nodes, c, p, now, picked);
      }
    }
  }

  lemma PlacedMeans(t: Tables, nodes: map<NodeId, Node>, c: Claim, p: Placement, now: Time, picked: seq<NodeId>)
    requires ValidPick(nodes, p.region, now, picked) && MayPlace(t, c, p, now) && t.allocs == map[] && |picked| == 2
    ensures var r := EnsureAllocations(t, nodes, c, p, now, picked); r.Ok? && Bound(t, nodes, c, picked, r.value)
  {
    assert picked[0] in picked && picked[1] in picked;
  }

  lemma RetainedMeans(t: Tables, nodes: map<NodeId, Node>, c: Claim, p: Placement, now: Time, picked: seq<NodeId>)
    requires ValidPick(nodes, p.region, now, picked) && MayPlace(t, c, p, now) && |t.allocs| == 2
    ensures var r := EnsureAllocations(t, nodes, c, p, now, picked);
            && (r.Ok? <==> ReserveRetained(List(t), c, nodes, p.region, now).Ok?)
            && (r.Ok? ==> Bound(t, nodes, c, picked, r.value))
  {
    BothRoles(t);
    ListShape(t);
    ReservedMeans(List(t), c, nodes, p.region, now);
    if ReserveRetained(List(t), c, nodes, p.region, now).Ok? {
      assert Retainable(List(t), 0, c, nodes, p.region, now) && Retainable(List(t), 1, c, nodes, p.region, now);
    }
  }

  /** The query returns at most two different nodes that take one more client. */
  lemma PickMeans(nodes: map<NodeId, Node>, region: nat, now: Time, picked: seq<NodeId>)
    ensures ValidPick(nodes, region, now, picked) <==>
            && |picked| <= 2 && (|picked| == 2 ==> picked[0] != picked[1])
            && forall i | 0 <= i < |picked| :: picked[i] in nodes && TakesClients(nodes[picked[i]], region, now, 1)
  {
    forall i | 0 <= i < |picked| && picked[i] in nodes
      ensures Placeable(nodes[picked[i]], region, now) <==> TakesClients(nodes[picked[i]], region, now, 1)
    {
      RoomForOne(nodes[picked[i]]);
    }
  }

  // ---- leases ---------------------------------------------------------------------------------------

  /** The operation is unfinished and every earlier one of the credential is finished. */
  ghost predicate Due(t: Tables, id: OpId) {
    id in t.ops && Unfinished(t.ops[id].state) && forall p | p in t.ops && t.ops[p].seqNo < t.ops[id].seqNo :: !Unfinished(t.ops[p].state)
  }

  /** One attempt more, and the operation is being processed. */
  ghost predicate LeaseEffect(t: Tables, id: OpId, t': Tables) {
    && id in t.ops && t' == t.(ops := t'.ops) && t'.ops.Keys == t.ops.Keys
    && t'.ops[id] == t.ops[id].(state := Processing, attempts := t.ops[id].attempts + 1)
    && forall p | p in t.ops && p != id :: t'.ops[p] == t.ops[p]
  }

  lemma LeaseHas(t: Tables, id: OpId)
    ensures Claimable(t, id) <==> Due(t, id)
    ensures Due(t, id) ==> LeaseEffect(t, id, ClaimOperation(t, id))
    ensures Due(t, id) ==> ClaimOf(id, t.ops[id]) == Claim(id, t.ops[id].kind, t.ops[id].rev, t.ops[id].attempts + 1, t.ops[id].maxAttempts)
  {
  }

  /** Only an operation being processed is put back for another attempt, and only its state changes. */
  lemma RetryMeans(t: Tables, id: OpId)
    ensures RetryOperation(t, id).Ok? <==> id in t.ops && t.ops[id].state == Processing
    ensures RetryOperation(t, id).Ok? ==> RetryOperation(t, id).value == t.(ops := t.ops[id := t.ops[id].(state := Retry)])
  {
  }

  // ---- marks ----------------------------------------------------------------------------------------

  /** The row of this node belongs to the operation at the operation's own revision. */
  ghost predicate Belongs(t: Tables, r: Role, id: OpId, node: NodeId) {
    r in t.allocs && id in t.ops && t.allocs[r].op == id && t.allocs[r].node == node && t.allocs[r].rev == t.ops[id].rev
  }

  /** When a row may be marked applied, revoked or failed for an operation. */
  lemma MarksMean(t: Tables, r: Role, id: OpId, node: NodeId)
    ensures CanMarkApplied(t, r, id, node) <==>
            Belongs(t, r, id, node) && t.ops[id].state in {Processing, Succeeded} && t.allocs[r].want == Present && t.allocs[r].state != Revoked
    ensures CanMarkRevoked(t, r, id, node) <==>
            Belongs(t, r, id, node) && t.ops[id].state in {Processing, Succeeded, Failed} && t.allocs[r].want == Absent
    ensures CanMarkFailed(t, r, id, node) <==>
            Belongs(t, r, id, node) && t.ops[id].state == Processing && t.allocs[r].state != Revoked
  {
  }

  /** Only the state of this row changes. */
  ghost predicate MarkEffect(t: Tables, r: Role, s: AllocState, t': Tables) {
    && r in t.allocs && t' == t.(allocs := t'.allocs) && t'.allocs.Keys == t.allocs.Keys
    && t'.allocs[r] == t.allocs[r].(state := s) && forall x | x in t.allocs && x != r :: t'.allocs[x] == t.allocs[x]
  }

  /** One client less on the node, never below zero, and nothing else. */
  ghost predicate ReleaseEffect(nodes: map<NodeId, Node>, n: NodeId, nodes': map<NodeId, Node>) {
    && nodes'.Keys == nodes.Keys
    && (forall x | x in nodes && x != n :: nodes'[x] == nodes[x])
    && (n in nodes ==> nodes'[n] == nodes[n].(clients := if nodes[n].clients == 0 then 0 else nodes[n].clients - 1))
  }

  // ---- completion -------------------------------------------------------------------------------------

  /** Operation and topic of the event were reported before. */
  ghost predicate Reported(t: Tables, o: Outcome) {
    exists i :: 0 <= i < |t.outbox| && t.outbox[i].outcome.op == o.op && SameTopic(t.outbox[i].outcome, o)
  }

  ghost predicate SameTopic(a: Outcome, b: Outcome) {
    match a
    case ProvisionSucceeded(_, _, _, _, _) => b.ProvisionSucceeded?
    case ProvisionFailed(_, _) => b.ProvisionFailed?
    case RevokeSucceeded(_, _, _, _) => b.RevokeSucceeded?
    case RevokeFailed(_, _) => b.RevokeFailed?
  }

  /** A closed operation stays; a processing one of the newest revision is closed with its one event. */
  ghost predicate CompletionEffect(t: Tables, c: Claim, o: Outcome, r: Result<Tables>) {
    if c.id !in t.ops then r.Err?
    else if t.ops[c.id].state == Succeeded || t.ops[c.id].state == Failed then r == Ok(t)
    else if t.ops[c.id].state != Processing || c.rev != t.lastRev || Reported(t, o) then r.Err?
    else
      && r.Ok?
      && var d := r.value;
         && d == t.(ops := d.ops, outcomeSeq := t.outcomeSeq + 1, outbox := t.outbox + [OutboxRow(t.outcomeSeq + 1, o, Waiting, 0)])
         && d.ops.Keys == t.ops.Keys
         && d.ops[c.id] == t.ops[c.id].(state := if o.ProvisionSucceeded? || o.RevokeSucceeded? then Succeeded else Failed)
         && forall id | id in t.ops && id != c.id :: d.ops[id] == t.ops[id]
  }

  lemma CompletionHas(t: Tables, c: Claim, o: Outcome)
    ensures CompletionEffect(t, c, o, Complete(t, c, o))
  {
    forall i | 0 <= i < |t.outbox|
      ensures SameDedupeKey(t.outbox[i].outcome, o) <==> t.outbox[i].outcome.op == o.op && SameTopic(t.outbox[i].outcome, o)
    {
    }
    if i :| 0 <= i < |t.outbox| && SameDedupeKey(t.outbox[i].outcome, o) { assert Reported(t, o); }
  }

  ghost predicate RowOk(x: Listed, c: Claim) {
    x.alloc.op == c.id && x.alloc.rev == c.rev && x.alloc.want == Present && x.alloc.allocRev == c.rev
  }

  /** Two rows of the claim on different nodes: both active with a primary, or for a degraded success the primary alone. */
  ghost predicate ProvisionDue(c: Claim, status: ReadyStatus, rows: seq<Listed>) {
    && |rows| == 2 && RowOk(rows[0], c) && RowOk(rows[1], c) && rows[0].alloc.node != rows[1].alloc.node
    && var first, second := rows[0].alloc.state == Active, rows[1].alloc.state == Active;
       match status
       case FullyReady => first && second && (rows[0].role == Primary || rows[1].role == Primary)
       case DegradedReady => first != second && (if first then rows[0].role else rows[1].role) == Primary
  }

  function EndpointOf(x: Listed): Endpoint {
    Endpoint(x.alloc.node, x.role)
  }

  /** The event names both nodes and the active endpoints, in the order of the rows. */
  function ProvisionReport(c: Claim, status: ReadyStatus, rows: seq<Listed>): Outcome
    requires |rows| == 2
  {
    ProvisionSucceeded(c.id, c.rev, status, {rows[0].alloc.node, rows[1].alloc.node},
      if status == FullyReady then [EndpointOf(rows[0]), EndpointOf(rows[1])]
      else [EndpointOf(if rows[0].alloc.state == Active then rows[0] else rows[1])])
  }

  lemma ProvisionEventMeans(c: Claim, status: ReadyStatus, rows: seq<Listed>)
    ensures ProvisionEvent(c, status, rows).Ok? <==> ProvisionDue(c, status, rows)
    ensures ProvisionDue(c, status, rows) ==> ProvisionEvent(c, status, rows).value == ProvisionReport(c, status, rows)
  {
    if |rows| == 2 {
      assert rows[1..][1..] == [];
      assert ActiveEndpoints(rows[1..][1..]) == [];
      assert ActiveEndpoints(rows[1..]) == if rows[1].alloc.state == Active then [EndpointOf(rows[1])] else [];
      assert NodesOf(rows) == {rows[0].alloc.node, rows[1].alloc.node};
    }
  }

  /** Every row is of the claim and revoked. */
  ghost predicate RevokeDue(c: Claim, rows: seq<Listed>) {
    forall i | 0 <= i < |rows| ::
      rows[i].alloc.op == c.id && rows[i].alloc.rev == c.rev && rows[i].alloc.want == Absent && rows[i].alloc.state == Revoked
  }

  /** The event names exactly the nodes of the rows and their highest allocation revision, 0 without rows. */
  ghost predicate IsRevokeReport(c: Claim, rows: seq<Listed>, o: Outcome) {
    && o.RevokeSucceeded? && o.op == c.id && o.rev == c.rev
    && (forall n :: n in o.nodes <==> exists i :: 0 <= i < |rows| && rows[i].alloc.node == n)
    && (forall i | 0 <= i < |rows| :: rows[i].alloc.allocRev <= o.allocRev)
    && (o.allocRev == 0 || exists i :: 0 <= i < |rows| && rows[i].alloc.allocRev == o.allocRev)
  }

  lemma {:induction false} HighestRevision(rows: seq<Listed>)
    ensures forall i | 0 <= i < |rows| :: rows[i].alloc.allocRev <= MaxAllocRev(rows)
    ensures MaxAllocRev(rows) == 0 || exists i :: 0 <= i < |rows| && rows[i].alloc.allocRev == MaxAllocRev(rows)
  {
    if rows != [] {
      var init := rows[..|rows| - 1];
      HighestRevision(init);
      assert forall i | 0 <= i < |init| :: init[i] == rows[i];
      if MaxAllocRev(rows) != rows[|rows| - 1].alloc.allocRev && MaxAllocRev(rows) != 0 {
        var i :| 0 <= i < |init| && init[i].alloc.allocRev == MaxAllocRev(init);
        assert rows[i].alloc.allocRev == MaxAllocRev(rows);
      }
    }
  }

  lemma RevokeEventMeans(c: Claim, rows: seq<Listed>)
    ensures RevokeEvent(c, rows).Ok? <==> RevokeDue(c, rows)
    ensures RevokeDue(c, rows) ==> IsRevokeReport(c, rows, RevokeEvent(c, rows).value)
  {
    HighestRevision(rows);
    if !RevokeDue(c, rows) {
      var i :| 0 <= i < |rows| && !(rows[i].alloc.op == c.id && rows[i].alloc.rev == c.rev && rows[i].alloc.want == Absent && rows[i].alloc.state == Revoked);
    }
  }

  // ---- publication and reconciliation -------------------------------------------------------------------

  /** A row may be leased while it is unpublished and all rows with a lower number are published. */
  lemma PublishableMeans(t: Tables, i: nat)
    ensures Publishable(t, i) <==>
            i < |t.outbox| && t.outbox[i].publish != Published
            && forall j | 0 <= j < |t.outbox| :: t.outbox[j].seqNo < t.outbox[i].seqNo ==> t.outbox[j].publish == Published
  {
  }

  /** A row is reconciled on a node that is not offline: a removal always, a provisioning once it succeeded. */
  lemma ReconcilableMeans(t: Tables, r: Role, nodes: map<NodeId, Node>)
    ensures Reconcilable(t, r, nodes) <==>
            && r in t.allocs && t.allocs[r].op in t.ops && t.allocs[r].node in nodes
            && nodes[t.allocs[r].node].status in {Serving, Draining}
            && (t.allocs[r].want == Present ==> t.ops[t.allocs[r].op].state == Succeeded)
  {
  }

  // ---- seeding ------------------------------------------------------------------------------------------

  ghost predicate SeedOk(s: NodeSeed) {
    s.limit >= 1 && s.limit <= 1000000 && s.reserve >= 20 && s.reserve <= 90
  }

  /** No later seed is for the same node. */
  ghost predicate LastFor(seeds: seq<NodeSeed>, i: nat)
    requires i < |seeds|
  {
    forall j | i < j < |seeds| :: seeds[j].id != seeds[i].id
  }

  /**
   A node without clients has the region and limits of its last seed, a new one is in service and
   was never seen; a node with clients and one without a seed stay as they are.
   */
  ghost predicate SeedEffect(nodes: map<NodeId, Node>, seeds: seq<NodeSeed>, nodes': map<NodeId, Node>) {
    && (forall n :: n in nodes' <==> n in nodes || exists i :: 0 <= i < |seeds| && seeds[i].id == n)
    && (forall n | n in nodes && (nodes[n].clients > 0 || forall i | 0 <= i < |seeds| :: seeds[i].id != n) :: nodes'[n] == nodes[n])
    && (forall i | 0 <= i < |seeds| && LastFor(seeds, i) && (seeds[i].id in nodes ==> nodes[seeds[i].id].clients == 0) ::
          nodes'[seeds[i].id] ==
            if seeds[i].id in nodes
            then nodes[seeds[i].id].(region := seeds[i].region, limit := seeds[i].limit, reserve := seeds[i].reserve)
            else Node(Serving, seeds[i].region, seeds[i].limit, seeds[i].reserve, 0, None))
  }

  lemma SeedOneHas(nodes: map<NodeId, Node>, seeds: seq<NodeSeed>, nodes': map<NodeId, Node>)
    requires seeds != [] && SeedEffect(SeedNode(nodes, seeds[0]), seeds[1..], nodes')
    ensures SeedEffect(nodes, seeds, nodes')
  {
    var s, rest, mid := seeds[0], seeds[1..], SeedNode(nodes, seeds[0]);
    assert forall i: nat | i < |rest| :: rest[i] == seeds[i + 1];
    forall n ensures n in nodes' <==> n in nodes || exists i :: 0 <= i < |seeds| && seeds[i].id == n {
      if n in nodes' && n !in nodes && n != s.id {
        var i :| 0 <= i < |rest| && rest[i].id == n;
        assert seeds[i + 1].id == n;
      }
      if i :| 0 <= i < |seeds| && seeds[i].id == n {
        if i > 0 { assert rest[i - 1].id == n; }
      }
    }
    forall n | n in nodes && (nodes[n].clients > 0 || forall i | 0 <= i < |seeds| :: seeds[i].id != n)
      ensures nodes'[n] == nodes[n]
    {
      assert n in mid && mid[n] == nodes[n];
      if nodes[n].clients == 0 { forall i | 0 <= i < |rest| ensures rest[i].id != n { assert seeds[i + 1].id != n; } }
    }
    forall i | 0 <= i < |seeds| && LastFor(seeds, i) && (seeds[i].id in nodes ==> nodes[seeds[i].id].clients == 0)
      ensures nodes'[seeds[i].id] ==
              if seeds[i].id in nodes
              then nodes[seeds[i].id].(region := seeds[i].region, limit := seeds[i].limit, reserve := seeds[i].reserve)
              else Node(Serving, seeds[i].region, seeds[i].limit, seeds[i].reserve, 0, None)
    {
      if i == 0 {
        forall k | 0 <= k < |rest| ensures rest[k].id != s.id { assert seeds[k + 1].id != seeds[0].id; }
      } else {
        forall j | i - 1 < j < |rest| ensures rest[j].id != rest[i - 1].id { assert seeds[j + 1].id != seeds[i].id; }
        assert LastFor(rest, i - 1) && rest[i - 1] == seeds[i];
      }
    }
  }

  lemma {:induction false} SeedsHave(nodes: map<NodeId, Node>, seeds: seq<NodeSeed>)
    ensures SeedNodes(nodes, seeds).Ok? <==> forall i | 0 <= i < |seeds| :: SeedOk(seeds[i])
    ensures SeedNodes(nodes, seeds).Ok? ==> SeedEffect(nodes, seeds, SeedNodes(nodes, seeds).value)
    decreases |seeds|
  {
    if seeds != [] {
      SeedsHave(SeedNode(nodes, seeds[0]), seeds[1..]);
      assert forall i | 0 <= i < |seeds| - 1 :: seeds[1..][i] == seeds[i + 1];
      if SeedNodes(nodes, seeds).Ok? {
        SeedOneHas(nodes, seeds, SeedNodes(nodes, seeds).value);
        forall i | 0 <= i < |seeds| ensures SeedOk(seeds[i]) { if i > 0 { assert SeedOk(seeds[1..][i - 1]); } }
      } else if ValidSeed(seeds[0]) {
        var i :| 0 <= i < |seeds| - 1 && !SeedOk(seeds[1..][i]);
        assert !SeedOk(seeds[i + 1]);
      } else {
        assert !SeedOk(seeds[0]);
      }
    }
  }
}
