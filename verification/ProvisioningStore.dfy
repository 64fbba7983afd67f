/**
 The provisioning store as it runs: each method is one transaction that reads rows into
 locals, checks and changes them step by step, and writes them back when it commits.
 */
module ProvisioningStore {
  import opened Common
  import opened Provisioning
  import opened ProvisioningEffects

  // ---- commands -----------------------------------------------------------------------------------

  method RecordCommandRows(before: Tables, event: EventId, c: Command, maxAttempts: nat) returns (r: Result<Tables>)
    ensures r == RecordCommand(before, event, c, maxAttempts)
    ensures CommandEffect(before, event, c, maxAttempts, r)
  {
    CommandHas(before, event, c, maxAttempts);
    var t := before;
    if event in t.inbox {
      return if t.inbox[event] == c then Ok(t) else Err(Conflict);
    }
    if c.seqNo > t.lastSeq + 1 {
      return Err(Gap);
    }
    if c.seqNo <= t.lastSeq || c.rev <= t.lastRev {
      return Err(Conflict);
    }
    t := t.(inbox := t.inbox[event := c]);
    if c.op in t.ops {
      return Err(Conflict);
    }
    t := t.(ops := t.ops[c.op := Op(c.kind, c.rev, c.seqNo, Pending, 0, maxAttempts, 0)]);
    t := t.(ops := map id | id in t.ops :: if id != c.op then Supersede(t.ops[id], c.rev) else t.ops[id]);
    t := t.(allocs := map x | x in t.allocs :: Advance(t.allocs[x], c.op, c.kind, c.rev));
    t := t.(lastSeq := c.seqNo, lastRev := c.rev);
    assert t.ops == (map id | id in before.ops :: Supersede(before.ops[id], c.rev))
                    [c.op := Op(c.kind, c.rev, c.seqNo, Pending, 0, maxAttempts, 0)];
    return Ok(t);
  }

  // ---- placement ----------------------------------------------------------------------------------

  function Load(n: Node): real {
    if n.limit == 0 then 0.0 else n.clients as real / n.limit as real
  }

  /** The order of the placement query: lighter load first, then smaller id. */
  predicate Before(nodes: map<NodeId, Node>, a: NodeId, b: NodeId)
    requires a in nodes && b in nodes
  {
    Load(nodes[a]) < Load(nodes[b]) || (Load(nodes[a]) == Load(nodes[b]) && a < b)
  }

  /** Nodes the query may return: eligible and not locked by another transaction. */
  function Candidates(nodes: map<NodeId, Node>, locked: set<NodeId>, region: nat, now: Time): set<NodeId> {
    set id | id in nodes && id !in locked && Placeable(nodes[id], region, now)
  }

  method First(nodes: map<NodeId, Node>, ids: set<NodeId>) returns (best: NodeId)
    requires ids != {} && ids <= nodes.Keys
    ensures best in ids && forall id | id in ids && id != best :: Before(nodes, best, id)
  {
    best :| best in ids;
    var rest := ids - {best};
    while rest != {}
      invariant rest <= ids && best in ids - rest
      invariant forall id | id in ids - rest && id != best :: Before(nodes, best, id)
    {
      var id :| id in rest;
      ghost var old_best, done := best, ids - rest;
      if Before(nodes, id, best) { best := id; }
      rest := rest - {id};
      assert ids - rest == done + {id};
      forall x | x in done && x != old_best ensures Before(nodes, old_best, x) { }
    }
  }

  lemma CandidatesTakeClients(nodes: map<NodeId, Node>, locked: set<NodeId>, region: nat, now: Time)
    ensures forall id :: id in Candidates(nodes, locked, region, now) <==>
              id in nodes && id !in locked && TakesClients(nodes[id], region, now, 1)
  {
    forall id | id in nodes ensures Placeable(nodes[id], region, now) <==> TakesClients(nodes[id], region, now, 1) {
      RoomForOne(nodes[id]);
    }
  }

  /**
   At most two nodes, all of them unlocked, in service in the region, seen within 45 seconds and
   with room; in load order, none of which could be replaced by an earlier one, and both whenever
   there are two.
   */
  method SelectNodes(nodes: map<NodeId, Node>, locked: set<NodeId>, region: nat, now: Time) returns (picked: seq<NodeId>)
    ensures ValidPick(nodes, region, now, picked)
    ensures forall i | 0 <= i < |picked| ::
              && picked[i] in nodes && picked[i] !in locked
              && nodes[picked[i]].status == Serving && nodes[picked[i]].region == region
              && nodes[picked[i]].lastSeen.Some? && nodes[picked[i]].lastSeen.value >= now - 45
              && (nodes[picked[i]].clients + 1) * 100 <= nodes[picked[i]].limit * (100 - nodes[picked[i]].reserve)
    ensures |picked| == 2 ==> Before(nodes, picked[0], picked[1])
    ensures forall id, i | id in nodes && id !in locked && TakesClients(nodes[id], region, now, 1) && id !in picked && 0 <= i < |picked| ::
              Before(nodes, picked[i], id)
    ensures |picked| < 2 ==> forall id | id in nodes && id !in locked && id !in picked ::
              || nodes[id].status != Serving || nodes[id].region != region
              || nodes[id].lastSeen.None? || nodes[id].lastSeen.value < now - 45
              || (nodes[id].clients + 1) * 100 > nodes[id].limit * (100 - nodes[id].reserve)
  {
    CandidatesTakeClients(nodes, locked, region, now);
    var all := Candidates(nodes, locked, region, now);
    if all == {} {
      return [];
    }
    var a := First(nodes, all);
    var rest := all - {a};
    assert all == rest + {a};
    if rest == {} {
      return [a];
    }
    var b := First(nodes, rest);
    return [a, b];
  }

  // ---- allocation ---------------------------------------------------------------------------------

  /** Checks retained rows one by one and reserves a slot for each revoked one. */
  method ReserveRows(rows: seq<Listed>, c: Claim, before: map<NodeId, Node>, region: nat, now: Time)
    returns (r: Result<map<NodeId, Node>>, roles: set<Role>)
    ensures r == ReserveRetained(rows, c, before, region, now)
    ensures r.Ok? ==> roles == set i | 0 <= i < |rows| :: rows[i].role
    ensures r.Ok? <==> forall i | 0 <= i < |rows| :: Retainable(rows, i, c, before, region, now)
    ensures r.Ok? ==> Took(rows, before, r.value)
  {
    ReservedMeans(rows, c, before, region, now);
    var nodes: map<NodeId, Node> := before;
    roles := {};
    assert rows[0..] == rows;
    for i := 0 to |rows|
      invariant ReserveRetained(rows, c, before, region, now) == ReserveRetained(rows[i..], c, nodes, region, now)
      invariant roles == set k | 0 <= k < i :: rows[k].role
    {
      var a := rows[i].alloc;
      assert rows[i..][1..] == rows[i + 1..];
      if a.op != c.id || a.rev != c.rev || a.want != Present {
        return Err(Conflict), roles;
      }
      roles := roles + {rows[i].role};
      if a.state == Revoked {
        if a.node !in nodes || nodes[a.node].lastSeen.None? {
          return Err(Internal), roles;
        }
        if !Reservable(nodes[a.node], region, now) {
          return Err(Capacity), roles;
        }
        nodes := nodes[a.node := nodes[a.node].(clients := nodes[a.node].clients + 1)];
      }
    }
    r := Ok(nodes);
  }

  /** Inserts the two new rows and reserves their slots, one after the other. */
  method PlaceRows(t: Tables, before: map<NodeId, Node>, c: Claim, picked: seq<NodeId>)
    returns (allocs: map<Role, Alloc>, nodes: map<NodeId, Node>)
    requires |picked| == 2 && picked[0] in before && picked[1] in before && picked[0] != picked[1] && t.allocs == map[]
    ensures allocs == map[Primary := NewAlloc(c, picked[0]), Failover := NewAlloc(c, picked[1])]
    ensures nodes == Reserve(Reserve(before, picked[0]), picked[1])
  {
    var roles := [Primary, Failover];
    allocs, nodes := t.allocs, before;
    for i := 0 to |picked|
      invariant nodes.Keys == before.Keys
      invariant allocs == if i == 0 then map[] else if i == 1 then map[Primary := NewAlloc(c, picked[0])]
                          else map[Primary := NewAlloc(c, picked[0]), Failover := NewAlloc(c, picked[1])]
      invariant nodes == if i == 0 then before else if i == 1 then Reserve(before, picked[0])
                         else Reserve(Reserve(before, picked[0]), picked[1])
    {
      allocs := allocs[roles[i] := NewAlloc(c, picked[i])];
      nodes := nodes[picked[i] := nodes[picked[i]].(clients := nodes[picked[i]].clients + 1)];
    }
  }

  /** The transaction step by step; without rows it may place on the nodes it selected. */
  method EnsureSteps(before: Tables, nodes: map<NodeId, Node>, locked: set<NodeId>, c: Claim, p: Placement, now: Time)
    returns (r: Result<Ensured>, picked: seq<NodeId>)
    ensures ValidPick(nodes, p.region, now, picked)
    ensures r == EnsureAllocations(before, nodes, c, p, now, picked)
    ensures forall i | 0 <= i < |picked| :: picked[i] !in locked
    ensures MayPlace(before, c, p, now) && before.allocs == map[] && |picked| < 2 ==>
              forall id | id in nodes && id !in locked && TakesClients(nodes[id], p.region, now, 1) :: id in picked
  {
    var t := before;
    picked := [];
    if p.primaryNodes != 1 || p.failoverNodes != 1 {
      return Err(Conflict), picked;
    }
    if c.id !in t.ops || t.ops[c.id].rev != c.rev {
      return Err(Internal), picked;
    }
    if t.ops[c.id].state != Processing || p.validUntil <= now {
      return Err(Conflict), picked;
    }
    if t.allocs != map[] {
      if |t.allocs| != 2 {
        return Err(Conflict), picked;
      }
      BothRoles(t);
      var reserved, roles := ReserveRows(List(t), c, nodes, p.region, now);
      if reserved.Err? {
        return Err(reserved.error), picked;
      }
      if Primary !in roles || Failover !in roles {
        assert false;
      }
      t := t.(allocs := map x | x in t.allocs :: Rebind(t.allocs[x], c));
      t := t.(ops := t.ops[c.id := t.ops[c.id].(allocRev := c.rev)]);
      return Ok(Ensured(t, reserved.value, List(t))), picked;
    }
    picked := SelectNodes(nodes, locked, p.region, now);
    if |picked| != 2 {
      return Err(Capacity), picked;
    }
    var allocs, nodes' := PlaceRows(t, nodes, c, picked);
    t := t.(allocs := allocs);
    t := t.(ops := t.ops[c.id := t.ops[c.id].(allocRev := c.rev)]);
    return Ok(Ensured(t, nodes', List(t))), picked;
  }

  /**
   The allocation transaction: it succeeds exactly when the operation may be placed and there are
   two nodes for it, and then both rows are bound and the slots taken.
   */
  method EnsureRows(before: Tables, nodes: map<NodeId, Node>, locked: set<NodeId>, c: Claim, p: Placement, now: Time)
    returns (r: Result<Ensured>, picked: seq<NodeId>)
    ensures ValidPick(nodes, p.region, now, picked)
    ensures r == EnsureAllocations(before, nodes, c, p, now, picked)
    ensures r.Ok? <==> MayPlace(before, c, p, now) && Holds(before, picked, c, nodes, p.region, now)
    ensures r.Ok? ==> Bound(before, nodes, c, picked, r.value)
    ensures forall i | 0 <= i < |picked| :: picked[i] !in locked && TakesClients(nodes[picked[i]], p.region, now, 1)
    ensures MayPlace(before, c, p, now) && before.allocs == map[] ==>
              forall a, b | a in nodes && b in nodes && a != b && a !in locked && b !in locked
                            && TakesClients(nodes[a], p.region, now, 1) && TakesClients(nodes[b], p.region, now, 1) :: r.Ok?
  {
    r, picked := EnsureSteps(before, nodes, locked, c, p, now);
    EnsuredMeans(before, nodes, c, p, now, picked);
    CandidatesTakeClients(nodes, locked, p.region, now);
  }

  // ---- completion ---------------------------------------------------------------------------------

  lemma FirstEndpoint(rows: seq<Listed>)
    requires rows != []
    ensures ActiveEndpoints(rows) ==
            (if rows[0].alloc.state == Active then [Endpoint(rows[0].alloc.node, rows[0].role)] else []) + ActiveEndpoints(rows[1..])
  {
  }

  lemma {:induction false} EndpointsAppend(rows: seq<Listed>, x: Listed)
    ensures ActiveEndpoints(rows + [x]) ==
            ActiveEndpoints(rows) + (if x.alloc.state == Active then [Endpoint(x.alloc.node, x.role)] else [])
  {
    var all := rows + [x];
    FirstEndpoint(all);
    if rows == [] {
      assert all[1..] == [];
    } else {
      FirstEndpoint(rows);
      EndpointsAppend(rows[1..], x);
      assert all[0] == rows[0] && all[1..] == rows[1..] + [x];
    }
  }

  /** At most one event per operation and topic. */
  predicate OneEventEach(t: Tables) {
    forall i, j | 0 <= i < j < |t.outbox| :: !SameDedupeKey(t.outbox[i].outcome, t.outbox[j].outcome)
  }

  /**
   Closes the claimed operation with its event.  A closed operation stays as it is; a claim that
   is not processing, not of the newest revision or would repeat an event is refused; otherwise
   exactly one event is appended with the next number, the operation is closed as the event says,
   and nothing else changes.
   */
  method CompleteOperation(before: Tables, c: Claim, o: Outcome) returns (r: Result<Tables>)
    ensures r == Complete(before, c, o)
    ensures CompletionEffect(before, c, o, r)
    ensures r.Ok? && OneEventEach(before) ==> OneEventEach(r.value)
  {
    CompletionHas(before, c, o);
    var t := before;
    if c.id !in t.ops {
      return Err(NotFound);
    }
    var state := t.ops[c.id].state;
    if state == Succeeded || state == Failed {
      return Ok(t);
    }
    if state != Processing || t.lastRev != c.rev {
      return Err(Conflict);
    }
    var next := t.outcomeSeq + 1;
    t := t.(outcomeSeq := next);
    if exists i :: 0 <= i < |t.outbox| && SameDedupeKey(t.outbox[i].outcome, o) {
      return Err(Conflict);
    }
    t := t.(outbox := t.outbox + [OutboxRow(next, o, Waiting, 0)]);
    t := t.(ops := t.ops[c.id := t.ops[c.id].(state := if Success(o) then Succeeded else Failed)]);
    return Ok(t);
  }

  /** Scans the rows the worker read: assigned nodes, active endpoints, primary readiness. */
  method ScanProvisioned(rows: seq<Listed>, c: Claim)
    returns (ok: bool, placed: seq<NodeId>, endpoints: seq<Endpoint>, primaryActive: bool)
    ensures ok == (RowsBound(rows, c, Present) && forall i | 0 <= i < |rows| :: rows[i].alloc.allocRev == c.rev)
    ensures ok ==> |placed| == |rows| && forall i | 0 <= i < |rows| :: placed[i] == rows[i].alloc.node
    ensures ok ==> endpoints == ActiveEndpoints(rows) && primaryActive == PrimaryActive(rows)
  {
    placed, endpoints, primaryActive := [], [], false;
    for i := 0 to |rows|
      invariant RowsBound(rows[..i], c, Present) && forall k | 0 <= k < i :: rows[k].alloc.allocRev == c.rev
      invariant |placed| == i && forall k | 0 <= k < i :: placed[k] == rows[k].alloc.node
      invariant endpoints == ActiveEndpoints(rows[..i]) && primaryActive == PrimaryActive(rows[..i])
    {
      var a := rows[i].alloc;
      assert rows[..i + 1] == rows[..i] + [rows[i]];
      if a.op != c.id || a.rev != c.rev || a.want != Present || a.allocRev != c.rev {
        return false, placed, endpoints, primaryActive;
      }
      placed := placed + [a.node];
      EndpointsAppend(rows[..i], rows[i]);
      PrimaryAppend(rows[..i], rows[i]);
      if a.state == Active {
        if rows[i].role == Primary { primaryActive := true; }
        endpoints := endpoints + [Endpoint(a.node, rows[i].role)];
      }
    }
    assert rows[..|rows|] == rows;
    ok := true;
  }

  lemma PrimaryAppend(rows: seq<Listed>, x: Listed)
    ensures PrimaryActive(rows + [x]) <==> PrimaryActive(rows) || (x.role == Primary && x.alloc.state == Active)
  {
    var longer := rows + [x];
    assert longer[|rows|] == x;
    if i :| 0 <= i < |rows| && rows[i].role == Primary && rows[i].alloc.state == Active { assert longer[i] == rows[i]; }
  }

  method CompleteProvisionRows(t: Tables, c: Claim, status: ReadyStatus, rows: seq<Listed>) returns (r: Result<Tables>)
    ensures r == CompleteProvision(t, c, status, rows)
    ensures if ProvisionDue(c, status, rows) then CompletionEffect(t, c, ProvisionReport(c, status, rows), r) else r.Err?
  {
    ProvisionEventMeans(c, status, rows);
    var ok, placed, endpoints, primaryActive := ScanProvisioned(rows, c);
    if !ok {
      return Err(Conflict);
    }
    if |placed| != 2 || placed[0] == placed[1] || !primaryActive
       || (status == FullyReady && |endpoints| != 2) || (status == DegradedReady && |endpoints| != 1) {
      return Err(Conflict);
    }
    assert NodesOf(rows) == set i | 0 <= i < |placed| :: placed[i];
    r := CompleteOperation(t, c, ProvisionSucceeded(c.id, c.rev, status, set i | 0 <= i < |placed| :: placed[i], endpoints));
  }

  method CompleteRevokeRows(t: Tables, c: Claim, rows: seq<Listed>) returns (r: Result<Tables>)
    ensures r == CompleteRevoke(t, c, rows)
    ensures if RevokeDue(c, rows) then exists o :: IsRevokeReport(c, rows, o) && CompletionEffect(t, c, o, r) else r.Err?
  {
    RevokeEventMeans(c, rows);
    var nodes: set<NodeId>, allocRev: nat := {}, 0;
    for i := 0 to |rows|
      invariant RowsBound(rows[..i], c, Absent) && forall k | 0 <= k < i :: rows[k].alloc.state == Revoked
      invariant nodes == NodesOf(rows[..i]) && allocRev == MaxAllocRev(rows[..i])
    {
      var a := rows[i].alloc;
      assert rows[..i + 1][..i] == rows[..i] && rows[..i + 1] == rows[..i] + [rows[i]];
      if a.op != c.id || a.rev != c.rev || a.want != Absent || a.state != Revoked {
        return Err(Conflict);
      }
      nodes := nodes + {a.node};
      if a.allocRev > allocRev { allocRev := a.allocRev; }
    }
    assert rows[..|rows|] == rows;
    r := CompleteOperation(t, c, RevokeSucceeded(c.id, c.rev, allocRev, nodes));
  }

  method SeedRows(before: map<NodeId, Node>, seeds: seq<NodeSeed>) returns (r: Result<map<NodeId, Node>>)
    ensures r == SeedNodes(before, seeds)
    ensures r.Ok? <==> forall i | 0 <= i < |seeds| :: SeedOk(seeds[i])
    ensures r.Ok? ==> SeedEffect(before, seeds, r.value)
  {
    SeedsHave(before, seeds);
    var nodes := before;
    assert seeds[0..] == seeds;
    for i := 0 to |seeds|
      invariant SeedNodes(before, seeds) == SeedNodes(nodes, seeds[i..])
    {
      assert seeds[i..][1..] == seeds[i + 1..];
      if !ValidSeed(seeds[i]) {
        return Err(Conflict);
      }
      nodes := SeedNode(nodes, seeds[i]);
    }
    r := Ok(nodes);
  }

  // ---- the store ----------------------------------------------------------------------------------

  /** The operation is being processed or has succeeded, and the row is to be present and was not revoked. */
  ghost predicate AppliesTo(t: Tables, r: Role, id: OpId) {
    r in t.allocs && id in t.ops && t.ops[id].state in {Processing, Succeeded} && t.allocs[r].want == Present && t.allocs[r].state != Revoked
  }

  /** The operation is being processed or is closed, and the row is to be removed. */
  ghost predicate RemovesFrom(t: Tables, r: Role, id: OpId) {
    r in t.allocs && id in t.ops && t.ops[id].state in {Processing, Succeeded, Failed} && t.allocs[r].want == Absent
  }

  class Store {
    var tables: map<CredId, Tables>
    var nodes: map<NodeId, Node>

    function RowsOf(cred: CredId): Tables
      reads this
    {
      if cred in tables then tables[cred] else NO_ROWS
    }

    constructor ()
      ensures tables == map[] && nodes == map[]
    {
      tables, nodes := map[], map[];
    }

    /** Writes back one credential's rows; a failed transaction writes nothing. */
    method Commit(cred: CredId, r: Result<Tables>)
      modifies this`tables
      ensures tables == if r.Ok? then old(tables)[cred := r.value] else old(tables)
    {
      if r.Ok? { tables := tables[cred := r.value]; }
    }

    method ProcessCommand(cred: CredId, event: EventId, c: Command, maxAttempts: nat) returns (r: Result<Tables>)
      modifies this`tables
      ensures r == Provisioning.ProcessCommand(old(RowsOf(cred)), event, c, maxAttempts)
      ensures tables == if r.Ok? then old(tables)[cred := r.value] else old(tables)
      ensures if c.rev >= 1 && c.seqNo == c.rev then CommandEffect(old(RowsOf(cred)), event, c, maxAttempts, r) else r == Err(Conflict)
    {
      if c.rev < 1 || c.seqNo != c.rev {
        return Err(Conflict);
      }
      r := RecordCommandRows(RowsOf(cred), event, c, maxAttempts);
      Commit(cred, r);
    }

    /** Leases the operation if the query can return it, and hands out a copy of its row. */
    method ClaimOperation(cred: CredId, id: OpId) returns (claim: Option<Claim>)
      modifies this`tables
      ensures claim.Some? == Claimable(old(RowsOf(cred)), id)
      ensures claim.Some? ==>
                && claim.value == ClaimOf(id, old(RowsOf(cred)).ops[id])
                && tables == old(tables)[cred := Provisioning.ClaimOperation(old(RowsOf(cred)), id)]
      ensures claim.None? ==> tables == old(tables)
      ensures claim.Some? <==> Due(old(RowsOf(cred)), id)
      ensures claim.Some? ==> cred in tables && LeaseEffect(old(RowsOf(cred)), id, tables[cred])
      ensures claim.Some? ==>
                var o := tables[cred].ops[id];
                claim.value == Claim(id, o.kind, o.rev, o.attempts, o.maxAttempts)
    {
      LeaseHas(RowsOf(cred), id);
      var t := RowsOf(cred);
      if !Claimable(t, id) {
        return None;
      }
      var o := t.ops[id].(attempts := t.ops[id].attempts + 1);
      claim := Some(Claim(id, o.kind, o.rev, o.attempts, o.maxAttempts));
      tables := tables[cred := t.(ops := t.ops[id := o.(state := Processing)])];
    }

    /** Places the credential or reserves its retained slots; nodes change only on success. */
    method EnsureAllocations(cred: CredId, locked: set<NodeId>, c: Claim, p: Placement, now: Time)
      returns (r: Result<Ensured>, picked: seq<NodeId>)
      modifies this
      ensures ValidPick(old(nodes), p.region, now, picked)
      ensures r == Provisioning.EnsureAllocations(old(RowsOf(cred)), old(nodes), c, p, now, picked)
      ensures r.Ok? ==> tables == old(tables)[cred := r.value.tables] && nodes == r.value.nodes
      ensures r.Ok? ==> Bound(old(RowsOf(cred)), old(nodes), c, picked, r.value)
      ensures r.Err? ==> tables == old(tables) && nodes == old(nodes)
    {
      r, picked := EnsureRows(RowsOf(cred), nodes, locked, c, p, now);
      if r.Ok? {
        tables, nodes := tables[cred := r.value.tables], r.value.nodes;
      }
    }

    method MarkApplied(cred: CredId, id: OpId, node: NodeId) returns (marked: Option<Role>)
      modifies this`tables
      ensures marked.None? ==> tables == old(tables) && forall r: Role :: !CanMarkApplied(old(RowsOf(cred)), r, id, node)
      ensures marked.Some? ==>
                && CanMarkApplied(old(RowsOf(cred)), marked.value, id, node)
                && tables == old(tables)[cred := SetAllocState(old(RowsOf(cred)), marked.value, Active)]
                && MarkEffect(old(RowsOf(cred)), marked.value, Active, tables[cred])
      ensures marked.Some? <==> exists r :: Belongs(old(RowsOf(cred)), r, id, node) && AppliesTo(old(RowsOf(cred)), r, id)
    {
      forall r: Role ensures CanMarkApplied(RowsOf(cred), r, id, node) <==> Belongs(RowsOf(cred), r, id, node) && AppliesTo(RowsOf(cred), r, id) {
        MarksMean(RowsOf(cred), r, id, node);
      }
      var t := RowsOf(cred);
      if r :| r in t.allocs && CanMarkApplied(t, r, id, node) {
        marked := Some(r);
        tables := tables[cred := t.(allocs := t.allocs[r := t.allocs[r].(state := Active)])];
      } else {
        marked := None;
      }
    }

    /** Marks the row revoked and releases its slot, once. */
    method MarkRevoked(cred: CredId, id: OpId, node: NodeId) returns (marked: Option<Role>)
      modifies this
      ensures marked.None? ==>
                && tables == old(tables) && nodes == old(nodes)
                && forall r: Role :: !CanMarkRevoked(old(RowsOf(cred)), r, id, node)
      ensures marked.Some? ==> CanMarkRevoked(old(RowsOf(cred)), marked.value, id, node)
      ensures marked.Some? && old(RowsOf(cred)).allocs[marked.value].state == Revoked ==> tables == old(tables) && nodes == old(nodes)
      ensures marked.Some? && old(RowsOf(cred)).allocs[marked.value].state != Revoked ==>
                && tables == old(tables)[cred := SetAllocState(old(RowsOf(cred)), marked.value, Revoked)]
                && nodes == Release(old(nodes), node)
                && MarkEffect(old(RowsOf(cred)), marked.value, Revoked, tables[cred]) && ReleaseEffect(old(nodes), node, nodes)
      ensures marked.Some? <==> exists r :: Belongs(old(RowsOf(cred)), r, id, node) && RemovesFrom(old(RowsOf(cred)), r, id)
    {
      forall r: Role ensures CanMarkRevoked(RowsOf(cred), r, id, node) <==> Belongs(RowsOf(cred), r, id, node) && RemovesFrom(RowsOf(cred), r, id) {
        MarksMean(RowsOf(cred), r, id, node);
      }
      var t := RowsOf(cred);
      if r :| r in t.allocs && CanMarkRevoked(t, r, id, node) {
        marked := Some(r);
        if t.allocs[r].state != Revoked {
          tables := tables[cred := t.(allocs := t.allocs[r := t.allocs[r].(state := Revoked)])];
          if node in nodes {
            var left := if nodes[node].clients - 1 >= 0 then nodes[node].clients - 1 else 0;
            nodes := nodes[node := nodes[node].(clients := left)];
          }
        }
      } else {
        marked := None;
      }
    }

    method CompleteProvision(cred: CredId, c: Claim, status: ReadyStatus, rows: seq<Listed>) returns (r: Result<Tables>)
      modifies this`tables
      ensures r == Provisioning.CompleteProvision(old(RowsOf(cred)), c, status, rows)
      ensures tables == if r.Ok? then old(tables)[cred := r.value] else old(tables)
    {
      r := CompleteProvisionRows(RowsOf(cred), c, status, rows);
      Commit(cred, r);
    }

    method CompleteRevoke(cred: CredId, c: Claim, rows: seq<Listed>) returns (r: Result<Tables>)
      modifies this`tables
      ensures r == Provisioning.CompleteRevoke(old(RowsOf(cred)), c, rows)
      ensures tables == if r.Ok? then old(tables)[cred := r.value] else old(tables)
    {
      r := CompleteRevokeRows(RowsOf(cred), c, rows);
      Commit(cred, r);
    }

    method SeedNodes(seeds: seq<NodeSeed>) returns (r: Result<map<NodeId, Node>>)
      modifies this`nodes
      ensures r == Provisioning.SeedNodes(old(nodes), seeds)
      ensures nodes == if r.Ok? then r.value else old(nodes)
    {
      r := SeedRows(nodes, seeds);
      if r.Ok? { nodes := r.value; }
    }
  }
}
