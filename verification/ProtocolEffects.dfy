/**
 What each protocol step changes, stated by the rows, agents and messages it may touch; a step
 whose conditions fail changes nothing.
 */
module ProtocolEffects {
  import opened Common
  import opened Provisioning
  import opened ProvisioningEffects
  import opened Protocol

  /** Only the database rows change. */
  ghost predicate RowsOnly(w: World, w': World) {
    w' == w.(t := w'.t)
  }

  /** A refused transaction changes nothing. */
  ghost predicate Outcomes(w: World, r: Result<Tables>, w': World) {
    RowsOnly(w, w') && w'.t == if r.Ok? then r.value else w.t
  }

  // ---- the store ------------------------------------------------------------------------------------

  lemma RecordStep(w: World, nodes: map<NodeId, Node>, event: EventId, k: Command, maxAttempts: nat)
    ensures var x := Step(w, nodes, Record(event, k, maxAttempts));
            && x.nodes == nodes
            && if k.rev < 1 || k.seqNo != k.rev then x.w == w
               else exists r :: CommandEffect(w.t, event, k, maxAttempts, r) && Outcomes(w, r, x.w)
  {
    CommandHas(w.t, event, k, maxAttempts);
  }

  /** A lease hands out a copy of the row with its attempt counted. */
  lemma ClaimStep(w: World, nodes: map<NodeId, Node>, id: OpId)
    ensures var x := Step(w, nodes, ClaimOp(id));
            && x.nodes == nodes
            && if !Due(w.t, id) then x.w == w
               else
                 && LeaseEffect(w.t, id, x.w.t)
                 && x.w == w.(t := x.w.t, claims := w.claims + {Claim(id, w.t.ops[id].kind, w.t.ops[id].rev, w.t.ops[id].attempts + 1, w.t.ops[id].maxAttempts)})
  {
    LeaseHas(w.t, id);
  }

  lemma RetryStep(w: World, nodes: map<NodeId, Node>, c: Claim)
    ensures var x := Step(w, nodes, RetryOp(c));
            && x.nodes == nodes
            && if c in w.claims && c.id in w.t.ops && w.t.ops[c.id].state == Processing
               then RowsOnly(w, x.w) && x.w.t == w.t.(ops := w.t.ops[c.id := w.t.ops[c.id].(state := Retry)])
               else x.w == w
  {
    RetryMeans(w.t, c.id);
  }

  /** A worker completes with the rows it listed; a degraded success needs the last attempt. */
  lemma FinishSteps(w: World, nodes: map<NodeId, Node>, l: Listing, status: ReadyStatus)
    ensures var x := Step(w, nodes, FinishProvision(l, status));
            && x.nodes == nodes
            && if l in w.listings && l.claim.kind == Provision && ProvisionDue(l.claim, status, l.rows)
                  && (status == FullyReady || l.claim.attempts >= l.claim.maxAttempts)
               then exists r :: CompletionEffect(w.t, l.claim, ProvisionReport(l.claim, status, l.rows), r) && Outcomes(w, r, x.w)
               else x.w == w
    ensures var x := Step(w, nodes, FinishRevoke(l));
            && x.nodes == nodes
            && if l in w.listings && l.claim.kind == Revoke && RevokeDue(l.claim, l.rows)
               then exists o, r :: IsRevokeReport(l.claim, l.rows, o) && CompletionEffect(w.t, l.claim, o, r) && Outcomes(w, r, x.w)
               else x.w == w
  {
    ProvisionEventMeans(l.claim, status, l.rows);
    RevokeEventMeans(l.claim, l.rows);
    if ProvisionDue(l.claim, status, l.rows) {
      var o := ProvisionReport(l.claim, status, l.rows);
      CompletionHas(w.t, l.claim, o);
      assert CompleteProvision(w.t, l.claim, status, l.rows) == Complete(w.t, l.claim, o);
    }
    if RevokeDue(l.claim, l.rows) {
      var o := RevokeEvent(l.claim, l.rows).value;
      CompletionHas(w.t, l.claim, o);
      assert CompleteRevoke(w.t, l.claim, l.rows) == Complete(w.t, l.claim, o);
    }
  }

  /** A worker gives up only on its last attempt, and reports the failure of its own operation. */
  lemma GiveUpStep(w: World, nodes: map<NodeId, Node>, c: Claim)
    ensures var x := Step(w, nodes, GiveUp(c));
            && x.nodes == nodes
            && if c in w.claims && c.attempts >= c.maxAttempts
               then exists o, r :: IsFailure(c, o) && CompletionEffect(w.t, c, o, r) && Outcomes(w, r, x.w)
               else x.w == w
  {
    var o := if c.kind == Provision then ProvisionFailed(c.id, c.rev) else RevokeFailed(c.id, c.rev);
    CompletionHas(w.t, c, o);
    assert IsFailure(c, o);
  }

  ghost predicate IsFailure(c: Claim, o: Outcome) {
    o.op == c.id && o.rev == c.rev && match c.kind case Provision => o.ProvisionFailed? case Revoke => o.RevokeFailed?
  }

  /**
   The allocation transaction of a worker that holds the operation, for the nodes the query picked:
   it binds both rows and takes their slots, or changes nothing; each row may then be asked for.
   */
  lemma EnsureStep(w: World, nodes: map<NodeId, Node>, c: Claim, p: Placement, now: Time, picked: seq<NodeId>)
    ensures var x := Step(w, nodes, Ensure(c, p, now, picked));
            if c in w.claims && c.kind == Provision && |picked| <= 2 && (|picked| == 2 ==> picked[0] != picked[1])
               && (forall i | 0 <= i < |picked| :: picked[i] in nodes && TakesClients(nodes[picked[i]], p.region, now, 1))
               && MayPlace(w.t, c, p, now) && Holds(w.t, picked, c, nodes, p.region, now)
            then
              && x.w == w.(t := x.w.t, requests := x.w.requests)
              && Bound(w.t, nodes, c, picked, Ensured(x.w.t, x.nodes, List(x.w.t)))
              && forall q: Request :: q in x.w.requests <==>
                   q in w.requests || exists r :: r in x.w.t.allocs && q == Request(c.id, x.w.t.allocs[r].node, c.rev, Present)
            else x.w == w && x.nodes == nodes
  {
    PickMeans(nodes, p.region, now, picked);
    if ValidPick(nodes, p.region, now, picked) {
      EnsuredMeans(w.t, nodes, c, p, now, picked);
      var x := Step(w, nodes, Ensure(c, p, now, picked));
      if c in w.claims && c.kind == Provision && MayPlace(w.t, c, p, now) && Holds(w.t, picked, c, nodes, p.region, now) {
        RequestsOfRows(c, x.w.t);
      }
    }
  }

  lemma RequestsOfRows(c: Claim, t: Tables)
    ensures forall q: Request :: q in RequestsFor(c, List(t), Present) <==>
              exists r :: r in t.allocs && q == Request(c.id, t.allocs[r].node, c.rev, Present)
  {
    ListShape(t);
    forall q: Request ensures q in RequestsFor(c, List(t), Present) <==> exists r :: r in t.allocs && q == Request(c.id, t.allocs[r].node, c.rev, Present) {
      if r :| r in t.allocs && q == Request(c.id, t.allocs[r].node, c.rev, Present) {
        var i :| 0 <= i < |List(t)| && List(t)[i].role == r;
        assert List(t)[i].alloc.node == q.node;
      }
    }
  }

  // ---- marks ----------------------------------------------------------------------------------------

  /** A confirmed request marks its row; a revoked row gives its slot back once. */
  lemma MarkSteps(w: World, nodes: map<NodeId, Node>, q: Request, r: Role)
    ensures var x := Step(w, nodes, MarkApplied(q, r));
            && x.nodes == nodes
            && if q in w.acks && q.want == Present && Belongs(w.t, r, q.op, q.node) && w.t.ops[q.op].state in {Processing, Succeeded}
                  && w.t.allocs[r].want == Present && w.t.allocs[r].state != Revoked
               then RowsOnly(w, x.w) && MarkEffect(w.t, r, Active, x.w.t)
               else x.w == w
    ensures var x := Step(w, nodes, MarkRevoked(q, r));
            if q in w.acks && q.want == Absent && Belongs(w.t, r, q.op, q.node) && w.t.ops[q.op].state in {Processing, Succeeded, Failed}
               && w.t.allocs[r].want == Absent && w.t.allocs[r].state != Revoked
            then RowsOnly(w, x.w) && MarkEffect(w.t, r, Revoked, x.w.t) && ReleaseEffect(nodes, q.node, x.nodes)
            else x.w == w && x.nodes == nodes
  {
    MarksMean(w.t, r, q.op, q.node);
  }

  lemma MarkFailedStep(w: World, nodes: map<NodeId, Node>, c: Claim, n: NodeId, r: Role)
    ensures var x := Step(w, nodes, MarkFailed(c, n, r));
            && x.nodes == nodes
            && if c in w.claims && Belongs(w.t, r, c.id, n) && w.t.ops[c.id].state == Processing && w.t.allocs[r].state != Revoked
               then RowsOnly(w, x.w) && MarkEffect(w.t, r, Broken, x.w.t)
               else x.w == w
  {
    MarksMean(w.t, r, c.id, n);
  }

  // ---- agents and messages ----------------------------------------------------------------------------

  /** Another request of the same operation to the same node is journalled. */
  ghost predicate Clashes(w: World, q: Request) {
    exists j :: j in w.journal && j.op == q.op && j.node == q.node
  }

  /**
   An agent confirms a journalled request again, refuses a clash and a stale revision, confirms
   what it stores already, and otherwise changes as the effect says.
   */
  lemma AgentStep(w: World, nodes: map<NodeId, Node>, q: Request, e: Effect)
    ensures var x := Step(w, nodes, AgentApply(q, e));
            && x.nodes == nodes
            && x.w == w.(agents := x.w.agents, running := x.w.running, journal := x.w.journal, acks := x.w.acks)
            && if q !in w.requests then x.w == w
               else if q in w.journal then x.w == w.(acks := w.acks + {q})
               else if Clashes(w, q) then x.w == w
               else if q.node in w.agents && w.agents[q.node].rev > q.rev then x.w == w
               else if q.node in w.agents && w.agents[q.node].rev == q.rev then
                 x.w == if w.agents[q.node].want == q.want && e == Persisted(true)
                        then w.(journal := w.journal + {q}, acks := w.acks + {q}) else w
               else
                 && (q.node in x.w.agents && x.w.agents[q.node] == q <==> e.Persisted? || (q.node in w.agents && w.agents[q.node] == q))
                 && (!e.Persisted? ==> x.w.agents == w.agents)
                 && (e.Refused? ==> x.w == w)
                 && (e.RunOnly? || e.Persisted? ==> q.node in x.w.running && x.w.running[q.node] == q)
                 && (e.Down? ==> q.node !in x.w.running)
                 && (e == Persisted(true) ==> x.w.journal == w.journal + {q} && x.w.acks == w.acks + {q})
                 && (e != Persisted(true) ==> x.w.journal == w.journal && x.w.acks == w.acks)
  {
    if j :| j in w.journal && j.node == q.node && j.op == q.op { assert Clashes(w, q); }
  }

  /** A request changes nothing on another node. */
  lemma AgentElsewhere(w: World, nodes: map<NodeId, Node>, q: Request, e: Effect, n: NodeId)
    requires n != q.node
    ensures var w' := Step(w, nodes, AgentApply(q, e)).w;
            && (n in w'.agents <==> n in w.agents) && (n in w.agents ==> w'.agents[n] == w.agents[n])
            && (n in w'.running <==> n in w.running) && (n in w.running ==> w'.running[n] == w.running[n])
  {
  }

  /** A reload runs what is stored, or nothing. */
  lemma ReloadStep(w: World, nodes: map<NodeId, Node>, n: NodeId, up: bool)
    ensures var x := Step(w, nodes, AgentReload(n, up));
            && x.nodes == nodes && x.w == w.(running := x.w.running)
            && (if up && n in w.agents then n in x.w.running && x.w.running[n] == w.agents[n] else n !in x.w.running)
            && forall m | m != n :: (m in x.w.running <==> m in w.running) && (m in w.running ==> x.w.running[m] == w.running[m])
  {
  }

  /** A read confirms a request that was sent and is exactly what the node stores. */
  lemma ObserveStep(w: World, nodes: map<NodeId, Node>, q: Request)
    ensures var x := Step(w, nodes, Observe(q));
            && x.nodes == nodes && x.w == w.(acks := x.w.acks)
            && x.w.acks == if q in w.requests && q.node in w.agents && w.agents[q.node].rev == q.rev && w.agents[q.node].want == q.want
                           then w.acks + {q} else w.acks
  {
  }

  /** Listing a claim's rows keeps a copy, primary first; a revoke may then ask every node not yet revoked. */
  lemma ListStep(w: World, nodes: map<NodeId, Node>, c: Claim)
    ensures var x := Step(w, nodes, ListRows(c));
            var rows := (if Primary in w.t.allocs then [Listed(Primary, w.t.allocs[Primary])] else [])
                        + (if Failover in w.t.allocs then [Listed(Failover, w.t.allocs[Failover])] else []);
            var bound := forall i | 0 <= i < |rows| :: rows[i].alloc.op == c.id && rows[i].alloc.rev == c.rev && rows[i].alloc.want == Absent;
            && x.nodes == nodes && x.w == w.(listings := x.w.listings, requests := x.w.requests)
            && x.w.listings == (if c in w.claims then w.listings + {Listing(c, rows)} else w.listings)
            && forall q: Request :: q in x.w.requests <==>
                 || q in w.requests
                 || (c in w.claims && c.kind == Revoke && bound
                     && exists i :: 0 <= i < |rows| && rows[i].alloc.state != Revoked && q == Request(c.id, rows[i].alloc.node, c.rev, Absent))
  {
  }

  /** Reconciliation asks for the desired state of the row. */
  lemma ReconcileStep(w: World, nodes: map<NodeId, Node>, r: Role)
    ensures var x := Step(w, nodes, Reconcile(r));
            && x.nodes == nodes
            && x.w == if r in w.t.allocs && w.t.allocs[r].op in w.t.ops && w.t.allocs[r].node in nodes
                         && nodes[w.t.allocs[r].node].status in {Serving, Draining}
                         && (w.t.allocs[r].want == Present ==> w.t.ops[w.t.allocs[r].op].state == Succeeded)
                      then w.(requests := w.requests + {Request(w.t.allocs[r].op, w.t.allocs[r].node, w.t.allocs[r].rev, w.t.allocs[r].want)})
                      else w
  {
    ReconcilableMeans(w.t, r, nodes);
  }

  /** A row is leased in its turn, and a leased one published or put back; only its state and attempts change. */
  lemma LeaseRowStep(w: World, nodes: map<NodeId, Node>, i: nat)
    ensures var x := Step(w, nodes, PublishClaim(i));
            && x.nodes == nodes
            && if i < |w.t.outbox| && w.t.outbox[i].publish != Published
                  && forall j | 0 <= j < |w.t.outbox| :: w.t.outbox[j].seqNo < w.t.outbox[i].seqNo ==> w.t.outbox[j].publish == Published
               then RowsOnly(w, x.w) && PublishEffect(w.t, i, Leased, w.t.outbox[i].attempts + 1, x.w.t) else x.w == w
  {
    PublishableMeans(w.t, i);
  }

  lemma CloseRowSteps(w: World, nodes: map<NodeId, Node>, i: nat)
    ensures var x := Step(w, nodes, PublishDone(i));
            && x.nodes == nodes
            && if i < |w.t.outbox| && w.t.outbox[i].publish == Leased
               then RowsOnly(w, x.w) && PublishEffect(w.t, i, Published, w.t.outbox[i].attempts, x.w.t) else x.w == w
    ensures var x := Step(w, nodes, PublishRetry(i));
            && x.nodes == nodes
            && if i < |w.t.outbox| && w.t.outbox[i].publish == Leased
               then RowsOnly(w, x.w) && PublishEffect(w.t, i, Waiting, w.t.outbox[i].attempts, x.w.t) else x.w == w
  {
  }

  ghost predicate PublishEffect(t: Tables, i: nat, p: Publish, attempts: nat, t': Tables) {
    && i < |t.outbox| && t' == t.(outbox := t'.outbox) && |t'.outbox| == |t.outbox|
    && t'.outbox[i] == OutboxRow(t.outbox[i].seqNo, t.outbox[i].outcome, p, attempts)
    && forall j | 0 <= j < |t.outbox| && j != i :: t'.outbox[j] == t.outbox[j]
  }
}
