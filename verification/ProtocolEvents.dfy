/** What the outcome events say: their node sets and endpoints, in every reachable state. */
module ProtocolEvents {
  import opened Common
  import opened Provisioning
  import opened Protocol
  import opened ProtocolInvariant
  import opened ProtocolRows
  import opened ProtocolNet
  import opened ProtocolSafety
  import opened Fleet

  /** Rows as the listing query returns them. */
  predicate RowsShape(rows: seq<Listed>) {
    && (rows != [] ==> |rows| == 2 && rows[0].role == Primary && rows[1].role == Failover)
    && forall i | 0 <= i < |rows| :: rows[i].alloc.allocRev >= 1
  }

  function AllocNodes(t: Tables): set<NodeId> {
    set r | r in t.allocs :: t.allocs[r].node
  }

  predicate OutcomeShape(t: Tables, o: Outcome) {
    && o.rev >= 1
    && (o.ProvisionSucceeded? ==>
          && t.allocs.Keys == {Primary, Failover}
          && o.placed == AllocNodes(t)
          && o.endpoints == if o.status == FullyReady
                            then [Endpoint(t.allocs[Primary].node, Primary), Endpoint(t.allocs[Failover].node, Failover)]
                            else [Endpoint(t.allocs[Primary].node, Primary)])
    && (o.RevokeSucceeded? ==>
          || (o.allocRev == 0 && o.nodes == {})
          || (o.allocRev >= 1 && t.allocs.Keys == {Primary, Failover} && o.nodes == AllocNodes(t)))
  }

  predicate OutcomesShape(t: Tables) {
    forall i | 0 <= i < |t.outbox| :: OutcomeShape(t, t.outbox[i].outcome)
  }

  predicate ListingsShape(w: World) {
    forall l | l in w.listings :: RowsShape(l.rows)
  }

  predicate Shape(w: World) {
    OutcomesShape(w.t) && ListingsShape(w)
  }

  // ---- allocations stay on their nodes ----------------------------------------------------------

  /** Once placed, a credential keeps its two nodes. */
  predicate NodesFixed(t: Tables, t': Tables) {
    t.allocs != map[] ==>
      t'.allocs.Keys == t.allocs.Keys && forall r | r in t.allocs :: t'.allocs[r].node == t.allocs[r].node
  }

  lemma StepNodesFixed(w: World, nodes: map<NodeId, Node>, l: Label)
    ensures NodesFixed(w.t, Step(w, nodes, l).w.t)
  {
    if IsMessageStep(l) {
      MessageStepKeepsTables(w, nodes, l);
    } else if IsFinishStep(l) || IsPublishStep(l) {
      OutboxNodesFixed(w, nodes, l);
    } else {
      StoreNodesFixed(w, nodes, l);
    }
  }

  lemma OutboxNodesFixed(w: World, nodes: map<NodeId, Node>, l: Label)
    requires IsFinishStep(l) || IsPublishStep(l)
    ensures Step(w, nodes, l).w.t.allocs == w.t.allocs
  {
  }

  lemma StoreNodesFixed(w: World, nodes: map<NodeId, Node>, l: Label)
    requires !IsMessageStep(l) && !IsFinishStep(l) && !IsPublishStep(l)
    ensures NodesFixed(w.t, Step(w, nodes, l).w.t)
  {
  }

  lemma OutcomeFrame(t: Tables, t': Tables, o: Outcome)
    requires OutcomeShape(t, o) && NodesFixed(t, t')
    ensures OutcomeShape(t', o)
  {
    if t.allocs != map[] { assert AllocNodes(t') == AllocNodes(t); }
  }

  // ---- new listings and events --------------------------------------------------------------------

  lemma ListShaped(t: Tables)
    requires AllocsOk(t)
    ensures RowsShape(List(t))
  {
    ListShape(t);
    forall i | 0 <= i < |List(t)| ensures List(t)[i].alloc.allocRev >= 1 {
      assert AllocOk(t, List(t)[i].alloc);
    }
  }

  /** Rows a worker read name the nodes that are still allocated. */
  lemma RowsAreCurrent(w: World, l: Listing)
    requires AllocsOk(w.t) && ListingOk(w, l) && RowsShape(l.rows) && l.rows != []
    ensures w.t.allocs.Keys == {Primary, Failover}
    ensures l.rows[0].alloc.node == w.t.allocs[Primary].node && l.rows[1].alloc.node == w.t.allocs[Failover].node
    ensures NodesOf(l.rows) == AllocNodes(w.t)
  {
    assert RowOk(w, l, l.rows[0]) && RowOk(w, l, l.rows[1]);
    assert AllocNodes(w.t) == {w.t.allocs[Primary].node, w.t.allocs[Failover].node};
    assert NodesOf(l.rows) == {l.rows[0].alloc.node, l.rows[1].alloc.node};
  }

  lemma ProvisionEventShape(w: World, l: Listing, status: ReadyStatus)
    requires AllocsOk(w.t) && ListingOk(w, l) && RowsShape(l.rows) && l.claim.rev >= 1
    requires ProvisionEvent(l.claim, status, l.rows).Ok?
    ensures OutcomeShape(w.t, ProvisionEvent(l.claim, status, l.rows).value)
  {
    RowsAreCurrent(w, l);
    TwoEndpoints(l.rows);
  }

  lemma TwoEndpoints(rows: seq<Listed>)
    requires |rows| == 2
    ensures ActiveEndpoints(rows) ==
            (if rows[0].alloc.state == Active then [Endpoint(rows[0].alloc.node, rows[0].role)] else [])
            + (if rows[1].alloc.state == Active then [Endpoint(rows[1].alloc.node, rows[1].role)] else [])
  {
    assert rows[1..][1..] == [] && rows[1..][0] == rows[1];
    assert ActiveEndpoints(rows[1..][1..]) == [];
  }

  lemma RevokeEventShape(w: World, l: Listing)
    requires AllocsOk(w.t) && ListingOk(w, l) && RowsShape(l.rows) && l.claim.rev >= 1
    requires RevokeEvent(l.claim, l.rows).Ok?
    ensures OutcomeShape(w.t, RevokeEvent(l.claim, l.rows).value)
  {
    if l.rows != [] {
      RowsAreCurrent(w, l);
    }
  }

  lemma CompleteShape(t: Tables, c: Claim, o: Outcome)
    requires OutcomesShape(t) && OutcomeShape(t, o) && Complete(t, c, o).Ok?
    ensures OutcomesShape(Complete(t, c, o).value)
  {
    var t' := Complete(t, c, o).value;
    forall i | 0 <= i < |t'.outbox| ensures OutcomeShape(t', t'.outbox[i].outcome) {
      if i < |t.outbox| { OutcomeFrame(t, t', t.outbox[i].outcome); } else { OutcomeFrame(t, t', o); }
    }
  }

  // ---- every step and run ---------------------------------------------------------------------------

  lemma ClaimRevision(w: World, c: Claim)
    requires Inv(w) && c in w.claims
    ensures c.rev >= 1
  {
    assert ClaimOk(w.t, c) && OpOk(w.t, w.t.ops[c.id]);
  }

  lemma FinishProvisionShape(w: World, l: Listing, status: ReadyStatus)
    requires Inv(w) && Shape(w)
    ensures OutcomesShape(DoFinishProvision(w, l, status).t)
  {
    if l in w.listings && ProvisionEvent(l.claim, status, l.rows).Ok? {
      assert ListingOk(w, l);
      ClaimRevision(w, l.claim);
      ProvisionEventShape(w, l, status);
      var o := ProvisionEvent(l.claim, status, l.rows).value;
      if Complete(w.t, l.claim, o).Ok? { CompleteShape(w.t, l.claim, o); }
    }
  }

  lemma FinishRevokeShape(w: World, l: Listing)
    requires Inv(w) && Shape(w)
    ensures OutcomesShape(DoFinishRevoke(w, l).t)
  {
    if l in w.listings && RevokeEvent(l.claim, l.rows).Ok? {
      assert ListingOk(w, l);
      ClaimRevision(w, l.claim);
      RevokeEventShape(w, l);
      var o := RevokeEvent(l.claim, l.rows).value;
      if Complete(w.t, l.claim, o).Ok? { CompleteShape(w.t, l.claim, o); }
    }
  }

  lemma GiveUpShape(w: World, c: Claim)
    requires Inv(w) && Shape(w)
    ensures OutcomesShape(DoGiveUp(w, c).t)
  {
    if c in w.claims {
      ClaimRevision(w, c);
      var o := if c.kind == Provision then ProvisionFailed(c.id, c.rev) else RevokeFailed(c.id, c.rev);
      if Complete(w.t, c, o).Ok? { CompleteShape(w.t, c, o); }
    }
  }

  lemma QuietOutbox(w: World, nodes: map<NodeId, Node>, l: Label)
    requires !IsFinishStep(l)
    ensures |Step(w, nodes, l).w.t.outbox| == |w.t.outbox|
  {
  }

  lemma StepOutcomesShape(w: World, nodes: map<NodeId, Node>, l: Label)
    requires Inv(w) && Shape(w)
    ensures OutcomesShape(Step(w, nodes, l).w.t)
  {
    if l.FinishProvision? {
      FinishProvisionShape(w, l.listing, l.status);
    } else if l.FinishRevoke? {
      FinishRevokeShape(w, l.listing);
    } else if l.GiveUp? {
      GiveUpShape(w, l.claim);
    } else {
      QuietOutbox(w, nodes, l);
      StepExtends(w, nodes, l);
      StepNodesFixed(w, nodes, l);
      var t' := Step(w, nodes, l).w.t;
      forall i | 0 <= i < |t'.outbox| ensures OutcomeShape(t', t'.outbox[i].outcome) {
        OutcomeFrame(w.t, t', w.t.outbox[i].outcome);
      }
    }
  }

  lemma StepListings(w: World, nodes: map<NodeId, Node>, l: Label)
    ensures Step(w, nodes, l).w.listings <= w.listings + (if l.ListRows? then {Listing(l.claim, List(w.t))} else {})
  {
  }

  lemma StepShape(w: World, nodes: map<NodeId, Node>, l: Label)
    requires Inv(w) && Shape(w)
    ensures Shape(Step(w, nodes, l).w)
  {
    StepOutcomesShape(w, nodes, l);
    StepListings(w, nodes, l);
    ListShaped(w.t);
  }
}
