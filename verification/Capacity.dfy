/** Conservation of node capacity across all credentials. */
module Capacity {
  import opened Common
  import opened Provisioning
  import opened Protocol
  import opened ProtocolInvariant
  import opened ProtocolRows
  import opened Fleet

  /** The credential keeps a slot of this node for the given role. */
  predicate Keeps(t: Tables, r: Role, n: NodeId) {
    r in t.allocs && t.allocs[r].node == n && t.allocs[r].state != Revoked
  }

  /** All allocations on the node that are not revoked. */
  ghost function Occupants(worlds: map<CredId, World>, n: NodeId): set<(CredId, Role)> {
    set c, r | c in worlds && r in worlds[c].t.allocs && Keeps(worlds[c].t, r, n) :: (c, r)
  }

  function Load(t: Tables, n: NodeId): nat {
    (if Keeps(t, Primary, n) then 1 else 0) + (if Keeps(t, Failover, n) then 1 else 0)
  }

  predicate NodeOk(x: Node) {
    x.reserve <= 100 && x.clients <= Ceiling(x)
  }

  ghost predicate Balanced(f: Fleet) {
    && (forall n | n in f.nodes :: NodeOk(f.nodes[n]) && f.nodes[n].clients == |Occupants(f.worlds, n)|)
    && (forall c, r | c in f.worlds && r in f.worlds[c].t.allocs :: f.worlds[c].t.allocs[r].node in f.nodes)
  }

  // ---- counting ---------------------------------------------------------------------------

  lemma InOccupants(worlds: map<CredId, World>, n: NodeId, c: CredId, r: Role)
    ensures (c, r) in Occupants(worlds, n) <==> c in worlds && Keeps(worlds[c].t, r, n)
  {
  }

  /** The slots one credential keeps on the node. */
  function Slots(c: CredId, t: Tables, n: NodeId): set<(CredId, Role)> {
    (if Keeps(t, Primary, n) then {(c, Primary)} else {}) + (if Keeps(t, Failover, n) then {(c, Failover)} else {})
  }

  lemma SlotsSize(c: CredId, t: Tables, n: NodeId)
    ensures |Slots(c, t, n)| == Load(t, n)
  {
  }

  lemma SlotsMember(c: CredId, t: Tables, n: NodeId)
    ensures forall k: CredId, r: Role :: (k, r) in Slots(c, t, n) <==> k == c && Keeps(t, r, n)
  {
    forall k: CredId, r: Role ensures (k, r) in Slots(c, t, n) <==> k == c && Keeps(t, r, n) {
      if r == Primary { } else { assert r == Failover; }
    }
  }

  /** Replacing one credential changes the count by the change of its own load. */
  lemma CountChange(worlds: map<CredId, World>, c: CredId, w: World, w': World, n: NodeId)
    requires w == (if c in worlds then worlds[c] else START)
    ensures |Occupants(worlds[c := w'], n)| == |Occupants(worlds, n)| - Load(w.t, n) + Load(w'.t, n)
  {
    SlotsSize(c, w.t, n);
    SlotsSize(c, w'.t, n);
    OccupantChange(worlds, c, w, w', n);
    ExchangeSize(Occupants(worlds, n), Slots(c, w.t, n), Slots(c, w'.t, n));
  }

  lemma ExchangeSize(all: set<(CredId, Role)>, leaving: set<(CredId, Role)>, entering: set<(CredId, Role)>)
    requires leaving <= all && entering !! (all - leaving)
    ensures |all - leaving + entering| == |all| - |leaving| + |entering|
  {
    assert all == (all - leaving) + leaving;
  }

  lemma OccupantChange(worlds: map<CredId, World>, c: CredId, w: World, w': World, n: NodeId)
    requires w == (if c in worlds then worlds[c] else START)
    ensures Slots(c, w.t, n) <= Occupants(worlds, n)
    ensures Occupants(worlds[c := w'], n) == Occupants(worlds, n) - Slots(c, w.t, n) + Slots(c, w'.t, n)
    ensures Slots(c, w'.t, n) !! (Occupants(worlds, n) - Slots(c, w.t, n))
  {
    var before, after := Slots(c, w.t, n), Slots(c, w'.t, n);
    SlotsMember(c, w.t, n);
    SlotsMember(c, w'.t, n);
    forall k: CredId, r: Role
      ensures (k, r) in before ==> (k, r) in Occupants(worlds, n)
      ensures (k, r) in Occupants(worlds[c := w'], n) <==> (k, r) in Occupants(worlds, n) - before + after
      ensures (k, r) in after ==> (k, r) !in Occupants(worlds, n) - before
    {
      InOccupants(worlds, n, k, r);
      InOccupants(worlds[c := w'], n, k, r);
    }
    SameElements(Occupants(worlds[c := w'], n), Occupants(worlds, n) - before + after);
  }

  lemma SameElements(a: set<(CredId, Role)>, b: set<(CredId, Role)>)
    requires forall k: CredId, r: Role :: (k, r) in a <==> (k, r) in b
    ensures a == b
  {
    forall x ensures x in a <==> x in b { assert x == (x.0, x.1); }
  }

  // ---- one credential ---------------------------------------------------------------------

  /** The step changed node counters exactly as it changed the credential's slots. */
  predicate Accounted(t: Tables, nodes: map<NodeId, Node>, t': Tables, nodes': map<NodeId, Node>) {
    && nodes'.Keys == nodes.Keys
    && (forall n | n in nodes ::
          && nodes'[n] == nodes[n].(clients := nodes'[n].clients)
          && nodes'[n].clients - nodes[n].clients == Load(t', n) - Load(t, n)
          && (nodes'[n].clients > nodes[n].clients ==> nodes'[n].clients <= Ceiling(nodes[n])))
    && (forall r | r in t'.allocs :: t'.allocs[r].node in nodes)
  }

  /** No slot was taken or given back. */
  predicate SameSlots(t: Tables, t': Tables) {
    && t'.allocs.Keys == t.allocs.Keys
    && forall r | r in t.allocs ::
         t'.allocs[r].node == t.allocs[r].node && (t'.allocs[r].state == Revoked <==> t.allocs[r].state == Revoked)
  }

  lemma QuietStep(w: World, nodes: map<NodeId, Node>, l: Label)
    requires !l.Ensure? && !l.MarkRevoked?
    ensures SameSlots(w.t, Step(w, nodes, l).w.t) && Step(w, nodes, l).nodes == nodes
  {
    if IsMessageStep(l) {
      MessageStepKeepsTables(w, nodes, l);
    } else if IsFinishStep(l) || IsPublishStep(l) {
      OutboxStep(w, nodes, l);
    } else {
      RowStep(w, nodes, l);
    }
  }

  lemma OutboxStep(w: World, nodes: map<NodeId, Node>, l: Label)
    requires IsFinishStep(l) || IsPublishStep(l)
    ensures Step(w, nodes, l).w.t.allocs == w.t.allocs && Step(w, nodes, l).nodes == nodes
  {
  }

  lemma RowStep(w: World, nodes: map<NodeId, Node>, l: Label)
    requires l.Record? || l.ClaimOp? || l.RetryOp? || l.MarkApplied? || l.MarkFailed?
    ensures SameSlots(w.t, Step(w, nodes, l).w.t) && Step(w, nodes, l).nodes == nodes
  {
  }

  lemma SameSlotsAccounted(t: Tables, nodes: map<NodeId, Node>, t': Tables)
    requires SameSlots(t, t') && forall r | r in t.allocs :: t.allocs[r].node in nodes
    ensures Accounted(t, nodes, t', nodes)
  {
    forall n ensures Load(t', n) == Load(t, n) {
      assert forall r :: Keeps(t', r, n) <==> Keeps(t, r, n);
    }
  }

  lemma ReservedCeiling(nodes: map<NodeId, Node>, n: NodeId, region: nat, now: Time)
    requires n in nodes && nodes[n].reserve <= 100
    requires Reservable(nodes[n], region, now) || Placeable(nodes[n], region, now)
    ensures Reserve(nodes, n)[n].clients <= Ceiling(nodes[n])
  {
    CeilingsAgree(nodes[n], region, now);
  }

  lemma FreshAccounted(t: Tables, nodes: map<NodeId, Node>, c: Claim, p: Placement, now: Time, picked: seq<NodeId>)
    requires ValidPick(nodes, p.region, now, picked) && EnsureAllocations(t, nodes, c, p, now, picked).Ok?
    requires t.allocs == map[] && forall n | n in nodes :: nodes[n].reserve <= 100
    ensures var e := EnsureAllocations(t, nodes, c, p, now, picked).value;
            Accounted(t, nodes, e.tables, e.nodes)
  {
    var e := EnsureAllocations(t, nodes, c, p, now, picked).value;
    ReservedCeiling(nodes, picked[0], p.region, now);
    ReservedCeiling(nodes, picked[1], p.region, now);
    forall n | n in nodes ensures Load(e.tables, n) == (if n == picked[0] || n == picked[1] then 1 else 0) && Load(t, n) == 0 {
    }
  }

  lemma RetainedAccounted(t: Tables, nodes: map<NodeId, Node>, c: Claim, p: Placement, now: Time, picked: seq<NodeId>)
    requires Rows(t) && ValidPick(nodes, p.region, now, picked) && EnsureAllocations(t, nodes, c, p, now, picked).Ok?
    requires t.allocs != map[] && forall n | n in nodes :: nodes[n].reserve <= 100
    requires forall r | r in t.allocs :: t.allocs[r].node in nodes
    ensures var e := EnsureAllocations(t, nodes, c, p, now, picked).value;
            Accounted(t, nodes, e.tables, e.nodes)
  {
    var e := EnsureAllocations(t, nodes, c, p, now, picked).value;
    EnsureShape(t, nodes, c, p, now, picked);
    ListShape(t);
    RetainedNodes(List(t), c, nodes, p.region, now);
    RebuiltAccounted(t, nodes, e.tables, e.nodes);
  }

  predicate WasRevoked(t: Tables, r: Role, n: NodeId) {
    r in t.allocs && t.allocs[r].node == n && t.allocs[r].state == Revoked
  }

  lemma RebuiltAccounted(t: Tables, nodes: map<NodeId, Node>, t': Tables, nodes': map<NodeId, Node>)
    requires t.allocs.Keys == {Primary, Failover} && t'.allocs.Keys == {Primary, Failover}
    requires t.allocs[Primary].node != t.allocs[Failover].node
    requires forall r | r in t.allocs :: t.allocs[r].node in nodes
    requires forall r | r in t.allocs :: t'.allocs[r].node == t.allocs[r].node && t'.allocs[r].state != Revoked
    requires nodes'.Keys == nodes.Keys
    requires forall n | n in nodes ::
               && nodes'[n] == nodes[n].(clients := nodes'[n].clients)
               && nodes'[n].clients == nodes[n].clients + (if WasRevoked(t, Primary, n) || WasRevoked(t, Failover, n) then 1 else 0)
               && (nodes'[n].clients > nodes[n].clients ==> nodes'[n].clients <= Ceiling(nodes[n]))
    ensures Accounted(t, nodes, t', nodes')
  {
    RebuiltLoad(t, t');
  }

  /** Rebuilding a pair takes a slot exactly where the old row was revoked. */
  lemma RebuiltLoad(t: Tables, t': Tables)
    requires t.allocs.Keys == {Primary, Failover} && t'.allocs.Keys == {Primary, Failover}
    requires t.allocs[Primary].node != t.allocs[Failover].node
    requires forall r | r in t.allocs :: t'.allocs[r].node == t.allocs[r].node && t'.allocs[r].state != Revoked
    ensures forall n :: Load(t', n) == Load(t, n) +
              (if (n == t.allocs[Primary].node && t.allocs[Primary].state == Revoked)
                  || (n == t.allocs[Failover].node && t.allocs[Failover].state == Revoked) then 1 else 0)
  {
  }

  /** Reserving for two retained rows on different nodes. */
  lemma RetainedNodes(rows: seq<Listed>, c: Claim, nodes: map<NodeId, Node>, region: nat, now: Time)
    requires |rows| == 2 && rows[0].alloc.node != rows[1].alloc.node
    requires ReserveRetained(rows, c, nodes, region, now).Ok?
    requires forall n | n in nodes :: nodes[n].reserve <= 100
    ensures var nodes' := ReserveRetained(rows, c, nodes, region, now).value;
            && nodes'.Keys == nodes.Keys
            && forall n | n in nodes ::
                 && nodes'[n] == nodes[n].(clients := nodes'[n].clients)
                 && nodes'[n].clients == nodes[n].clients +
                      (if (n == rows[0].alloc.node && rows[0].alloc.state == Revoked)
                          || (n == rows[1].alloc.node && rows[1].alloc.state == Revoked) then 1 else 0)
                 && (nodes'[n].clients > nodes[n].clients ==> nodes'[n].clients <= Ceiling(nodes[n]))
  {
    var a, b := rows[0].alloc, rows[1].alloc;
    var mid := if a.state != Revoked then nodes else Reserve(nodes, a.node);
    assert rows[1..] == [rows[1]];
    var end := if b.state != Revoked then mid else Reserve(mid, b.node);
    assert ReserveRetained(rows[1..], c, mid, region, now) == Ok(end) by {
      assert rows[1..][1..] == [];
    }
    assert ReserveRetained(rows, c, nodes, region, now) == Ok(end);
    if a.state == Revoked { ReservedCeiling(nodes, a.node, region, now); }
    if b.state == Revoked { ReservedCeiling(mid, b.node, region, now); }
  }

  /** A slot is given back only when one is counted, so the clamp at zero never acts. */
  lemma ReleaseAccounted(w: World, nodes: map<NodeId, Node>, q: Request, r: Role)
    requires Rows(w.t) && DoMarkRevoked(w, nodes, q, r).w != w
    requires forall k | k in w.t.allocs :: w.t.allocs[k].node in nodes
    requires nodes[w.t.allocs[r].node].clients >= Load(w.t, w.t.allocs[r].node)
    ensures nodes[q.node].clients > 0
    ensures Accounted(w.t, nodes, DoMarkRevoked(w, nodes, q, r).w.t, DoMarkRevoked(w, nodes, q, r).nodes)
  {
    var t' := DoMarkRevoked(w, nodes, q, r).w.t;
    assert Keeps(w.t, r, q.node);
    forall n | n in nodes
      ensures Load(t', n) == Load(w.t, n) - (if n == q.node then 1 else 0)
    {
      assert forall k | k != r :: Keeps(t', k, n) <==> Keeps(w.t, k, n);
    }
  }

  // ---- the whole fleet ----------------------------------------------------------------------

  lemma StepAccounted(f: Fleet, c: CredId, l: Label)
    requires Balanced(f) && Inv(WorldOf(f, c))
    ensures var after := Step(WorldOf(f, c), f.nodes, l);
            Accounted(WorldOf(f, c).t, f.nodes, after.w.t, after.nodes)
  {
    var w := WorldOf(f, c);
    if l.Ensure? {
      EnsureAccounted(w, f.nodes, l);
    } else if l.MarkRevoked? {
      RevokeAccounted(f, c, l.q, l.role);
    } else {
      QuietStep(w, f.nodes, l);
      SameSlotsAccounted(w.t, f.nodes, Step(w, f.nodes, l).w.t);
    }
  }

  lemma RevokeAccounted(f: Fleet, c: CredId, q: Request, r: Role)
    requires Balanced(f) && Inv(WorldOf(f, c))
    ensures var after := DoMarkRevoked(WorldOf(f, c), f.nodes, q, r);
            Accounted(WorldOf(f, c).t, f.nodes, after.w.t, after.nodes)
  {
    var w := WorldOf(f, c);
    if DoMarkRevoked(w, f.nodes, q, r).w != w {
      CountChange(f.worlds, c, w, START, w.t.allocs[r].node);
      ReleaseAccounted(w, f.nodes, q, r);
    } else {
      assert SameSlots(w.t, w.t);
      SameSlotsAccounted(w.t, f.nodes, w.t);
    }
  }

  lemma EnsureAccounted(w: World, nodes: map<NodeId, Node>, l: Label)
    requires Inv(w) && l.Ensure? && forall n | n in nodes :: nodes[n].reserve <= 100
    requires forall r | r in w.t.allocs :: w.t.allocs[r].node in nodes
    ensures var after := Step(w, nodes, l); Accounted(w.t, nodes, after.w.t, after.nodes)
  {
    var c, p, now, picked := l.claim, l.placement, l.now, l.picked;
    if c in w.claims && c.kind == Provision && ValidPick(nodes, p.region, now, picked)
       && EnsureAllocations(w.t, nodes, c, p, now, picked).Ok? {
      if w.t.allocs == map[] {
        FreshAccounted(w.t, nodes, c, p, now, picked);
      } else {
        RetainedAccounted(w.t, nodes, c, p, now, picked);
      }
    } else {
      assert Step(w, nodes, l) == After(w, nodes);
      SameSlotsAccounted(w.t, nodes, w.t);
    }
  }

  lemma AccountedBalance(f: Fleet, c: CredId, w': World, nodes': map<NodeId, Node>)
    requires Balanced(f) && Accounted(WorldOf(f, c).t, f.nodes, w'.t, nodes')
    ensures Balanced(Fleet(f.worlds[c := w'], nodes'))
  {
    forall n | n in nodes'
      ensures NodeOk(nodes'[n])
      ensures nodes'[n].clients == |Occupants(f.worlds[c := w'], n)|
    {
      CountChange(f.worlds, c, WorldOf(f, c), w', n);
      assert NodeOk(f.nodes[n]);
    }
  }

  lemma CredentialKeepsBalance(f: Fleet, c: CredId, l: Label)
    requires Balanced(f) && Inv(WorldOf(f, c))
    ensures Balanced(FleetStep(f, OnCredential(c, l)))
  {
    var after := Step(WorldOf(f, c), f.nodes, l);
    StepAccounted(f, c, l);
    AccountedBalance(f, c, after.w, after.nodes);
  }

  lemma CeilingNonNegative(x: Node)
    ensures x.reserve <= 100 ==> 0 <= Ceiling(x)
  {
  }

  /** Reseeding changes the limits of a node only while nothing is allocated on it. */
  lemma SeedOneKeepsBalance(f: Fleet, s: NodeSeed)
    requires Balanced(f) && ValidSeed(s)
    ensures Balanced(f.(nodes := SeedNode(f.nodes, s)))
  {
    var nodes' := SeedNode(f.nodes, s);
    CeilingNonNegative(nodes'[s.id]);
    forall n | n in nodes' && n != s.id ensures NodeOk(nodes'[n]) && nodes'[n] == f.nodes[n] {
      assert NodeOk(f.nodes[n]);
    }
    assert s.id in f.nodes ==> NodeOk(f.nodes[s.id]);
    if s.id !in f.nodes {
      forall x | x in Occupants(f.worlds, s.id) ensures false {
        InOccupants(f.worlds, s.id, x.0, x.1);
      }
      assert Occupants(f.worlds, s.id) == {};
    }
  }

  lemma {:induction false} SeedKeepsBalance(f: Fleet, seeds: seq<NodeSeed>)
    requires Balanced(f) && SeedNodes(f.nodes, seeds).Ok?
    ensures Balanced(f.(nodes := SeedNodes(f.nodes, seeds).value))
    decreases |seeds|
  {
    if seeds != [] {
      SeedOneKeepsBalance(f, seeds[0]);
      SeedKeepsBalance(f.(nodes := SeedNode(f.nodes, seeds[0])), seeds[1..]);
    }
  }

  /** Health reports do not touch limits or counters. */
  lemma ReportKeepsBalance(f: Fleet, l: FleetLabel)
    requires Balanced(f) && (l.Health? || l.GoOffline?)
    ensures Balanced(FleetStep(f, l))
  {
    var f' := FleetStep(f, l);
    assert f'.nodes.Keys == f.nodes.Keys;
    forall n | n in f'.nodes ensures NodeOk(f'.nodes[n]) && f'.nodes[n].clients == f.nodes[n].clients {
      assert NodeOk(f.nodes[n]);
    }
  }

  lemma FleetKeepsBalance(f: Fleet, l: FleetLabel)
    requires Balanced(f) && (l.OnCredential? ==> Inv(WorldOf(f, l.cred)))
    ensures Balanced(FleetStep(f, l))
  {
    match l
    case OnCredential(c, step) => CredentialKeepsBalance(f, c, step);
    case Seed(seeds) => if SeedNodes(f.nodes, seeds).Ok? { SeedKeepsBalance(f, seeds); }
    case Health(_, _, _, _) => ReportKeepsBalance(f, l);
    case GoOffline(_) => ReportKeepsBalance(f, l);
  }

  /**
   Conservation.  In any run every node's client counter equals the number of allocations on
   it that are not revoked, and never exceeds the usable part of its capacity.
   */
  lemma {:induction false} CapacityConserved(labels: seq<FleetLabel>)
    ensures Balanced(Run(labels))
  {
    if labels != [] {
      var l := labels[|labels| - 1];
      CapacityConserved(labels[..|labels| - 1]);
      if l.OnCredential? { RunInv(labels[..|labels| - 1], l.cred); }
      FleetKeepsBalance(Run(labels[..|labels| - 1]), l);
    }
  }

  /** The clamp that keeps the counter from going below zero never acts in any run. */
  lemma ClampNeverActs(labels: seq<FleetLabel>, c: CredId, q: Request, r: Role)
    requires var f := Run(labels); DoMarkRevoked(WorldOf(f, c), f.nodes, q, r).w != WorldOf(f, c)
    ensures q.node in Run(labels).nodes && Run(labels).nodes[q.node].clients > 0
  {
    var f := Run(labels);
    var w := WorldOf(f, c);
    CapacityConserved(labels);
    RunInv(labels, c);
    CountChange(f.worlds, c, w, START, w.t.allocs[r].node);
    ReleaseAccounted(w, f.nodes, q, r);
  }
}
