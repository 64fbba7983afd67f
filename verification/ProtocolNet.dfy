/** Every step keeps the invariant that ties messages, agents and rows together. */
module ProtocolNet {
  import opened Common
  import opened Provisioning
  import opened Protocol
  import opened ProtocolInvariant
  import opened ProtocolRows

  /** The rows changed only in operation states, publication states and appended outcomes. */
  predicate SameShape(t: Tables, t': Tables) {
    && t'.allocs == t.allocs && t'.lastRev == t.lastRev
    && t'.ops.Keys == t.ops.Keys
    && forall id | id in t.ops :: t'.ops[id].kind == t.ops[id].kind && t'.ops[id].rev == t.ops[id].rev
  }

  lemma FrameNet(w: World, t': Tables)
    requires Net(w) && SameShape(w.t, t')
    requires forall i | 0 <= i < |t'.outbox| :: EventBacked(w, t'.outbox[i].outcome)
    ensures Net(w.(t := t'))
  {
    var w' := w.(t := t');
    forall q | q in w'.requests ensures RequestOk(w'.t, q) { FrameRequest(w.t, t', q); }
    forall l | l in w'.listings ensures ListingOk(w', l) {
      assert ListingOk(w, l);
      assert forall i | 0 <= i < |l.rows| :: RowOk(w, l, l.rows[i]) ==> RowOk(w', l, l.rows[i]);
    }
    forall r | r in t'.allocs && t'.allocs[r].state == Revoked ensures Sealed(w', t'.allocs[r].node) {
      assert Sealed(w, t'.allocs[r].node);
    }
  }

  lemma FrameRequest(t: Tables, t': Tables, q: Request)
    requires SameShape(t, t') && RequestOk(t, q)
    ensures RequestOk(t', q)
  {
    var r :| r in t.allocs && t.allocs[r].node == q.node;
    assert r in t'.allocs;
  }

  // ---- recording a command --------------------------------------------------------------

  lemma RecordNet(w: World, event: EventId, c: Command, maxAttempts: nat)
    requires Inv(w) && ProcessCommand(w.t, event, c, maxAttempts).Ok?
    ensures Net(w.(t := ProcessCommand(w.t, event, c, maxAttempts).value))
  {
    if event !in w.t.inbox {
      RecordMessages(w, event, c, maxAttempts);
      RecordAllocStates(w, event, c, maxAttempts);
      RecordListings(w, event, c, maxAttempts);
    }
  }

  lemma RecordMessages(w: World, event: EventId, c: Command, maxAttempts: nat)
    requires OpsOk(w.t) && Messages(w) && RecordCommand(w.t, event, c, maxAttempts).Ok? && event !in w.t.inbox
    ensures Messages(w.(t := Recorded(w.t, event, c, maxAttempts)))
  {
    var t' := Recorded(w.t, event, c, maxAttempts);
    forall q | q in w.requests ensures RequestOk(t', q) {
      assert RequestOk(w.t, q) && OpOk(w.t, w.t.ops[q.op]);
      var r :| r in w.t.allocs && w.t.allocs[r].node == q.node;
      assert r in t'.allocs && t'.allocs[r].node == q.node;
    }
  }

  lemma RecordAllocStates(w: World, event: EventId, c: Command, maxAttempts: nat)
    requires AllocsOk(w.t) && AllocStatesOk(w) && RecordCommand(w.t, event, c, maxAttempts).Ok? && event !in w.t.inbox
    ensures AllocStatesOk(w.(t := Recorded(w.t, event, c, maxAttempts)))
  {
    var t' := Recorded(w.t, event, c, maxAttempts);
    forall r | r in t'.allocs
      ensures !(t'.allocs[r].state == Active && t'.allocs[r].want == Present)
      ensures t'.allocs[r].state == Revoked ==> Sealed(w.(t := t'), t'.allocs[r].node)
    {
      assert AllocOk(w.t, w.t.allocs[r]);
      if t'.allocs[r].state == Revoked { assert Sealed(w, w.t.allocs[r].node); }
    }
  }

  /** Listings and success events of earlier revisions stop claiming anything. */
  lemma RecordListings(w: World, event: EventId, c: Command, maxAttempts: nat)
    requires OpsOk(w.t) && OutboxOk(w.t) && Messages(w) && ListingsOk(w)
    requires RecordCommand(w.t, event, c, maxAttempts).Ok? && event !in w.t.inbox
    ensures ListingsOk(w.(t := Recorded(w.t, event, c, maxAttempts)))
    ensures EventsOk(w.(t := Recorded(w.t, event, c, maxAttempts)))
  {
    var t' := Recorded(w.t, event, c, maxAttempts);
    var w' := w.(t := t');
    forall l | l in w'.listings ensures ListingOk(w', l) {
      assert ListingOk(w, l) && ClaimOk(w.t, l.claim) && OpOk(w.t, w.t.ops[l.claim.id]);
      forall i | 0 <= i < |l.rows| ensures RowOk(w', l, l.rows[i]) { assert RowOk(w, l, l.rows[i]); }
    }
    forall i | 0 <= i < |t'.outbox| ensures EventBacked(w', t'.outbox[i].outcome) {
      var o := w.t.outbox[i].outcome;
      assert OutcomeOk(w.t, o) && OpOk(w.t, w.t.ops[o.op]);
    }
  }

  // ---- allocation -----------------------------------------------------------------------

  /** At most one operation holds the newest revision. */
  lemma NewestUnique(t: Tables, c: Claim, id: OpId)
    requires OpsOk(t) && ClaimOk(t, c) && id in t.ops && t.ops[id].rev == t.lastRev == c.rev
    ensures c.id == id
  {
  }

  /** Both rows were rebuilt for the claimed provisioning operation. */
  predicate Rebuilt(t: Tables, c: Claim, t': Tables) {
    && ClaimOk(t, c) && c.kind == Provision && c.rev == t.lastRev
    && t'.allocs.Keys == {Primary, Failover}
    && t' == t.(ops := BindAllocRev(t, c), allocs := t'.allocs)
    && (forall r | r in t'.allocs :: t'.allocs[r] == NewAlloc(c, t'.allocs[r].node))
    && (forall r | r in t.allocs :: r in t'.allocs && t'.allocs[r].node == t.allocs[r].node)
  }

  lemma EnsureMessages(w: World, c: Claim, t': Tables)
    requires Messages(w) && Rebuilt(w.t, c, t')
    ensures Messages(w.(t := t', requests := w.requests + RequestsFor(c, List(t'), Present)))
  {
    var rows := List(t');
    ListShape(t');
    forall q | q in w.requests + RequestsFor(c, rows, Present) ensures RequestOk(t', q) {
      if q in w.requests {
        assert RequestOk(w.t, q);
        var r :| r in w.t.allocs && w.t.allocs[r].node == q.node;
        assert r in t'.allocs && t'.allocs[r].node == q.node;
      } else {
        var i :| 0 <= i < |rows| && q == Request(c.id, rows[i].alloc.node, c.rev, Present);
        assert rows[i].role in t'.allocs && t'.allocs[rows[i].role].node == q.node;
      }
    }
  }

  lemma EnsureListings(w: World, c: Claim, t': Tables, requests: set<Request>)
    requires OpsOk(w.t) && Messages(w) && ListingsOk(w) && EventsOk(w) && Rebuilt(w.t, c, t')
    ensures ListingsOk(w.(t := t', requests := requests)) && EventsOk(w.(t := t', requests := requests))
  {
    var w' := w.(t := t', requests := requests);
    forall l | l in w'.listings ensures ListingOk(w', l) {
      assert ListingOk(w, l) && ClaimOk(w.t, l.claim);
      if l.claim.rev == w.t.lastRev { NewestUnique(w.t, l.claim, c.id); }
      forall i | 0 <= i < |l.rows| ensures RowOk(w', l, l.rows[i]) { assert RowOk(w, l, l.rows[i]); }
    }
    forall i | 0 <= i < |t'.outbox| ensures EventBacked(w', t'.outbox[i].outcome) {
      assert EventBacked(w, w.t.outbox[i].outcome);
    }
  }

  lemma EnsureNet(w: World, c: Claim, t': Tables)
    requires Inv(w) && Rebuilt(w.t, c, t')
    ensures Net(w.(t := t', requests := w.requests + RequestsFor(c, List(t'), Present)))
  {
    EnsureMessages(w, c, t');
    EnsureListings(w, c, t', w.requests + RequestsFor(c, List(t'), Present));
  }

  // ---- worker copies ----------------------------------------------------------------------

  lemma AddRequests(w: World, extra: set<Request>)
    requires Net(w)
    requires forall q | q in extra :: RequestOk(w.t, q)
    requires forall q, r | q in extra && r in w.t.allocs && w.t.allocs[r].node == q.node
                       && w.t.allocs[r].state == Revoked :: q.want == Absent
    ensures Net(w.(requests := w.requests + extra))
  {
    var w' := w.(requests := w.requests + extra);
    forall l | l in w'.listings ensures ListingOk(w', l) {
      assert ListingOk(w, l);
      assert forall i | 0 <= i < |l.rows| :: RowOk(w, l, l.rows[i]) ==> RowOk(w', l, l.rows[i]);
    }
    forall r | r in w.t.allocs && w.t.allocs[r].state == Revoked ensures Sealed(w', w.t.allocs[r].node) {
      assert Sealed(w, w.t.allocs[r].node);
    }
    assert forall i | 0 <= i < |w.t.outbox| :: EventBacked(w, w.t.outbox[i].outcome) ==> EventBacked(w', w.t.outbox[i].outcome);
  }

  lemma AddListing(w: World, c: Claim)
    requires AllocStatesOk(w) && ListingsOk(w) && c in w.claims
    ensures ListingsOk(w.(listings := w.listings + {Listing(c, List(w.t))}))
  {
    var l := Listing(c, List(w.t));
    var w' := w.(listings := w.listings + {l});
    ListShape(w.t);
    forall i | 0 <= i < |l.rows| ensures RowOk(w', l, l.rows[i]) {
      var row := l.rows[i];
      assert row.role in w.t.allocs && row.alloc == w.t.allocs[row.role];
    }
    forall k | k in w.listings ensures ListingOk(w', k) {
      assert ListingOk(w, k);
      forall i | 0 <= i < |k.rows| ensures RowOk(w', k, k.rows[i]) { assert RowOk(w, k, k.rows[i]); }
    }
  }

  /** Only listings mention the set of listings. */
  lemma ListingsFrame(w: World, listings: set<Listing>)
    requires Messages(w) && AgentsOk(w) && AllocStatesOk(w) && EventsOk(w)
    ensures Messages(w.(listings := listings)) && AgentsOk(w.(listings := listings))
    ensures AllocStatesOk(w.(listings := listings)) && EventsOk(w.(listings := listings))
  {
    var w' := w.(listings := listings);
    forall r | r in w.t.allocs && w.t.allocs[r].state == Revoked ensures Sealed(w', w.t.allocs[r].node) {
      assert Sealed(w, w.t.allocs[r].node);
    }
    forall i | 0 <= i < |w.t.outbox| ensures EventBacked(w', w.t.outbox[i].outcome) {
      assert EventBacked(w, w.t.outbox[i].outcome);
    }
  }

  lemma ListNet(w: World, c: Claim)
    requires Inv(w)
    ensures Net(DoList(w, c))
  {
    if c in w.claims {
      AddListing(w, c);
      ListingsFrame(w, w.listings + {Listing(c, List(w.t))});
      var w1 := w.(listings := w.listings + {Listing(c, List(w.t))});
      if c.kind == Revoke && RowsBound(List(w.t), c, Absent) {
        var extra := RequestsFor(c, List(w.t), Absent);
        ListShape(w.t);
        forall q | q in extra ensures RequestOk(w.t, q) {
          var i :| 0 <= i < |List(w.t)| && q == Request(c.id, List(w.t)[i].alloc.node, c.rev, Absent);
          assert List(w.t)[i].role in w.t.allocs;
        }
        AddRequests(w1, extra);
        assert DoList(w, c) == w1.(requests := w1.requests + extra);
      } else {
        assert DoList(w, c) == w1;
      }
    }
  }

  lemma ReconcileNet(w: World, nodes: map<NodeId, Node>, r: Role)
    requires Inv(w)
    ensures Net(DoReconcile(w, nodes, r))
  {
    if Reconcilable(w.t, r, nodes) {
      var a := w.t.allocs[r];
      assert AllocOk(w.t, a);
      var q := Request(a.op, a.node, a.rev, a.want);
      assert RequestOk(w.t, q);
      AddRequests(w, {q});
    }
  }

  // ---- agents ---------------------------------------------------------------------------

  /** Stored revisions only grow, so everything that was reached stays reached. */
  predicate Grown(w: World, w': World) {
    && w'.t == w.t && w'.requests == w.requests && w'.claims == w.claims && w'.listings == w.listings
    && forall n | n in w.agents :: n in w'.agents && w'.agents[n].rev >= w.agents[n].rev
  }

  lemma GrownFacts(w: World, w': World)
    requires Grown(w, w') && ListingsOk(w) && EventsOk(w)
    ensures ListingsOk(w') && EventsOk(w')
  {
    forall l | l in w'.listings ensures ListingOk(w', l) {
      assert ListingOk(w, l);
      forall i | 0 <= i < |l.rows| ensures RowOk(w', l, l.rows[i]) { assert RowOk(w, l, l.rows[i]); }
    }
    forall i | 0 <= i < |w.t.outbox| ensures EventBacked(w', w.t.outbox[i].outcome) {
      assert EventBacked(w, w.t.outbox[i].outcome);
    }
  }

  /** On a sealed node an accepted request can only be a revocation. */
  lemma GrownAllocStates(w: World, w': World)
    requires Grown(w, w') && AllocStatesOk(w) && AgentsOk(w')
    requires forall r | r in w.t.allocs :: AllocOk(w.t, w.t.allocs[r])
    requires forall n | n in w'.agents && !(n in w.agents && w'.agents[n] == w.agents[n]) ::
               w'.agents[n] in w.requests && w'.agents[n].node == n && !Reached(w, n, w'.agents[n].rev)
    ensures AllocStatesOk(w')
  {
    forall r | r in w.t.allocs && w.t.allocs[r].state == Revoked ensures Sealed(w', w.t.allocs[r].node) {
      var n := w.t.allocs[r].node;
      assert Sealed(w, n);
    }
  }

  /** Request and claim checks look at the rows only. */
  lemma GrownMessages(w: World, w': World)
    requires Grown(w, w') && Messages(w) && w'.journal <= w.requests && w'.acks <= w.requests
    ensures Messages(w')
  {
  }

  /** Storing a request that the agent has not reached yet. */
  lemma StoreAgents(w: World, q: Request)
    requires AgentsOk(w) && q in w.requests && !Reached(w, q.node, q.rev)
    ensures AgentsOk(w.(agents := w.agents[q.node := q], running := w.running[q.node := q]))
    ensures AgentsOk(w.(running := w.running[q.node := q]))
  {
  }

  /** Confirming a request that the agent has reached. */
  lemma ConfirmAgents(w: World, q: Request)
    requires AgentsOk(w) && q in w.requests && Reached(w, q.node, q.rev)
    ensures AgentsOk(w.(acks := w.acks + {q}))
    ensures AgentsOk(w.(journal := w.journal + {q}, acks := w.acks + {q}))
  {
  }

  lemma AgentStored(w: World, q: Request, e: Effect)
    requires AgentsOk(w)
    ensures AgentsOk(DoAgentApply(w, q, e))
  {
    var n := q.node;
    if q in w.requests && q !in w.journal && !(exists j :: j in w.journal && j.node == n && j.op == q.op) {
      if Reached(w, n, q.rev) {
        ConfirmAgents(w, q);
      } else {
        StoreAgents(w, q);
        if e == Persisted(true) {
          var w1 := w.(agents := w.agents[n := q], running := w.running[n := q]);
          ConfirmAgents(w1, q);
        }
      }
    } else if q in w.requests && q in w.journal {
      ConfirmAgents(w, q);
    }
  }

  /** An agent only ever replaces its entry by a request above everything it reached. */
  lemma AgentChange(w: World, q: Request, e: Effect)
    requires w.journal <= w.requests && w.acks <= w.requests
    ensures Grown(w, DoAgentApply(w, q, e))
    ensures DoAgentApply(w, q, e).journal <= w.requests && DoAgentApply(w, q, e).acks <= w.requests
    ensures var w' := DoAgentApply(w, q, e);
            forall n | n in w'.agents && !(n in w.agents && w'.agents[n] == w.agents[n]) ::
              w'.agents[n] in w.requests && w'.agents[n].node == n && !Reached(w, n, w'.agents[n].rev)
  {
  }

  lemma AgentNet(w: World, q: Request, e: Effect)
    requires Inv(w)
    ensures Net(DoAgentApply(w, q, e))
  {
    var w' := DoAgentApply(w, q, e);
    AgentStored(w, q, e);
    AgentChange(w, q, e);
    GrownMessages(w, w');
    GrownFacts(w, w');
    GrownAllocStates(w, w');
  }

  lemma ReloadAgents(w: World, n: NodeId, up: bool)
    requires AgentsOk(w)
    ensures AgentsOk(DoReload(w, n, up))
  {
  }

  lemma ReloadNet(w: World, n: NodeId, up: bool)
    requires Inv(w)
    ensures Net(DoReload(w, n, up))
  {
    var w' := DoReload(w, n, up);
    ReloadAgents(w, n, up);
    GrownMessages(w, w');
    GrownFacts(w, w');
    GrownAllocStates(w, w');
  }

  lemma ObserveNet(w: World, q: Request)
    requires Inv(w)
    ensures Net(DoObserve(w, q))
  {
    var w' := DoObserve(w, q);
    if w' != w { ConfirmAgents(w, q); }
    GrownMessages(w, w');
    GrownFacts(w, w');
    GrownAllocStates(w, w');
  }

  lemma EvictNet(w: World, q: Request)
    requires Inv(w)
    ensures Net(w.(journal := w.journal - {q}))
  {
    var w' := w.(journal := w.journal - {q});
    GrownFacts(w, w');
    GrownAllocStates(w, w');
  }

  // ---- marks ------------------------------------------------------------------------------

  lemma MarkMessages(w: World, r: Role, s: AllocState)
    requires Messages(w) && r in w.t.allocs
    requires s == Revoked ==> forall q | q in w.requests && q.want == Present :: q.rev != w.t.lastRev
    ensures Messages(w.(t := SetAllocState(w.t, r, s)))
  {
    var t' := SetAllocState(w.t, r, s);
    forall q | q in w.requests ensures RequestOk(t', q) {
      assert RequestOk(w.t, q);
      var k :| k in w.t.allocs && w.t.allocs[k].node == q.node;
      assert k in t'.allocs && t'.allocs[k].node == q.node;
    }
  }

  lemma MarkListings(w: World, r: Role, s: AllocState)
    requires ListingsOk(w) && EventsOk(w) && r in w.t.allocs
    requires s != Revoked ==> w.t.allocs[r].state != Revoked
    ensures ListingsOk(w.(t := SetAllocState(w.t, r, s))) && EventsOk(w.(t := SetAllocState(w.t, r, s)))
  {
    var w' := w.(t := SetAllocState(w.t, r, s));
    forall l | l in w'.listings ensures ListingOk(w', l) {
      assert ListingOk(w, l);
      forall i | 0 <= i < |l.rows| ensures RowOk(w', l, l.rows[i]) { assert RowOk(w, l, l.rows[i]); }
    }
    forall i | 0 <= i < |w.t.outbox| ensures EventBacked(w', w.t.outbox[i].outcome) {
      assert EventBacked(w, w.t.outbox[i].outcome);
    }
  }

  lemma MarkNet(w: World, r: Role, s: AllocState)
    requires Inv(w) && r in w.t.allocs
    requires s != Revoked ==> w.t.allocs[r].state != Revoked
    requires s == Active && w.t.allocs[r].want == Present ==> Reached(w, w.t.allocs[r].node, w.t.lastRev)
    requires s == Revoked ==> w.t.allocs[r].want == Absent && Reached(w, w.t.allocs[r].node, w.t.lastRev)
    ensures Net(w.(t := SetAllocState(w.t, r, s)))
  {
    var w' := w.(t := SetAllocState(w.t, r, s));
    assert AllocOk(w.t, w.t.allocs[r]);
    if s == Revoked { RevokeCurrent(w, r); }
    MarkMessages(w, r, s);
    MarkListings(w, r, s);
    MarkAllocStates(w, r, s);
  }

  lemma MarkAllocStates(w: World, r: Role, s: AllocState)
    requires AllocStatesOk(w) && r in w.t.allocs
    requires s == Active && w.t.allocs[r].want == Present ==> Reached(w, w.t.allocs[r].node, w.t.lastRev)
    requires s == Revoked ==> Sealed(w, w.t.allocs[r].node)
    ensures AllocStatesOk(w.(t := SetAllocState(w.t, r, s)))
  {
    var w' := w.(t := SetAllocState(w.t, r, s));
    forall k | k in w.t.allocs && w'.t.allocs[k].state == Revoked ensures Sealed(w', w.t.allocs[k].node) {
      assert Sealed(w, w.t.allocs[k].node);
    }
  }

  /** Once the agent stores the newest revision of a revoked generation, its node is sealed. */
  lemma RevokeCurrent(w: World, r: Role)
    requires OpsOk(w.t) && Messages(w) && AgentsOk(w) && r in w.t.allocs && AllocOk(w.t, w.t.allocs[r])
    requires w.t.allocs[r].want == Absent && Reached(w, w.t.allocs[r].node, w.t.lastRev)
    ensures forall q | q in w.requests && q.want == Present :: q.rev != w.t.lastRev
    ensures Sealed(w, w.t.allocs[r].node)
  {
    var n := w.t.allocs[r].node;
    forall q | q in w.requests
      ensures q.rev <= w.t.lastRev && (q.rev == w.t.lastRev ==> q.op == w.t.allocs[r].op && q.want == Absent)
    {
      assert RequestOk(w.t, q) && OpOk(w.t, w.t.ops[q.op]);
    }
    assert w.agents[n] in w.requests;
  }
}
