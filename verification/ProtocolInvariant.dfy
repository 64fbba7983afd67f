/** What every reachable state of the provisioning protocol satisfies. */
module ProtocolInvariant {
  import opened Common
  import opened Provisioning
  import opened Protocol

  // ---- database rows ------------------------------------------------------------------

  predicate OpOk(t: Tables, o: Op) {
    && 1 <= o.rev <= t.lastRev
    && o.seqNo == o.rev
    && (o.rev < t.lastRev ==> Terminal(o.state))
    && (o.rev == t.lastRev ==> o.state != Superseded)
  }

  predicate OpsOk(t: Tables) {
    && t.lastSeq == t.lastRev
    && (forall id | id in t.ops :: OpOk(t, t.ops[id]))
    && (forall i, j | i in t.ops && j in t.ops && t.ops[i].rev == t.ops[j].rev :: i == j)
  }

  predicate AllocOk(t: Tables, a: Alloc) {
    && a.op in t.ops
    && t.ops[a.op].rev == a.rev == t.lastRev
    && a.want == Want(t.ops[a.op].kind)
    && 1 <= a.allocRev <= t.lastRev
    && (a.want == Present ==> a.allocRev == t.lastRev)
  }

  /** No allocation at all, or one per role on two nodes, all bound to the newest operation. */
  predicate AllocsOk(t: Tables) {
    && (t.allocs != map[] ==>
          && t.allocs.Keys == {Primary, Failover}
          && t.allocs[Primary].node != t.allocs[Failover].node
          && t.allocs[Primary].allocRev == t.allocs[Failover].allocRev)
    && forall r | r in t.allocs :: AllocOk(t, t.allocs[r])
  }

  predicate OutcomeOk(t: Tables, o: Outcome) {
    && o.op in t.ops
    && t.ops[o.op].rev == o.rev
    && t.ops[o.op].state == (if Success(o) then Succeeded else Failed)
    && t.ops[o.op].kind == (if o.ProvisionSucceeded? || o.ProvisionFailed? then Provision else Revoke)
  }

  /** Outcomes are numbered 1, 2, 3, ... and carry strictly increasing revisions. */
  predicate OutboxOk(t: Tables) {
    && t.outcomeSeq == |t.outbox|
    && (forall i | 0 <= i < |t.outbox| :: t.outbox[i].seqNo == i + 1 && OutcomeOk(t, t.outbox[i].outcome))
    && (forall i, j | 0 <= i < j < |t.outbox| :: t.outbox[i].outcome.rev < t.outbox[j].outcome.rev)
  }

  /** Nothing leaves the outbox before its predecessors were published. */
  predicate PublishOk(t: Tables) {
    forall i, j | 0 <= j < i < |t.outbox| && (t.outbox[i].publish != Waiting || t.outbox[i].attempts > 0) ::
      t.outbox[j].publish == Published
  }

  predicate NoneRevoked(t: Tables) {
    forall r | r in t.allocs :: t.allocs[r].state != Revoked
  }

  predicate AllRevoked(t: Tables) {
    forall r | r in t.allocs :: t.allocs[r].state == Revoked
  }

  /** No provisioning command above this revision was recorded. */
  predicate Quiet(t: Tables, rev: nat) {
    forall id | id in t.ops && t.ops[id].rev > rev :: t.ops[id].kind == Revoke
  }

  predicate RevokeProofOk(t: Tables) {
    forall i | 0 <= i < |t.outbox| && t.outbox[i].outcome.RevokeSucceeded? && Quiet(t, t.outbox[i].outcome.rev) ::
      AllRevoked(t)
  }

  /** A successful newest provisioning operation left no allocation revoked. */
  predicate SuccessOk(t: Tables) {
    forall id | id in t.ops && t.ops[id].kind == Provision && t.ops[id].state == Succeeded
                && t.ops[id].rev == t.lastRev :: NoneRevoked(t)
  }

  predicate Rows(t: Tables) {
    OpsOk(t) && AllocsOk(t) && OutboxOk(t) && PublishOk(t) && RevokeProofOk(t) && SuccessOk(t)
  }

  // ---- messages and agents ------------------------------------------------------------

  predicate Assigned(t: Tables, n: NodeId) {
    exists r :: r in t.allocs && t.allocs[r].node == n
  }

  predicate RequestOk(t: Tables, q: Request) {
    && q.op in t.ops
    && t.ops[q.op].rev == q.rev
    && q.want == Want(t.ops[q.op].kind)
    && Assigned(t, q.node)
    && (q.want == Present && q.rev == t.lastRev ==> NoneRevoked(t))
  }

  predicate ClaimOk(t: Tables, c: Claim) {
    c.id in t.ops && t.ops[c.id].rev == c.rev && t.ops[c.id].kind == c.kind
  }

  predicate Messages(w: World) {
    && (forall q | q in w.requests :: RequestOk(w.t, q))
    && (forall c | c in w.claims :: ClaimOk(w.t, c))
    && w.journal <= w.requests
    && w.acks <= w.requests
  }

  /** The agent of this node has stored the given revision or a later one. */
  predicate Reached(w: World, n: NodeId, rev: nat) {
    n in w.agents && w.agents[n].rev >= rev
  }

  predicate AgentsOk(w: World) {
    && (forall n | n in w.agents :: w.agents[n] in w.requests && w.agents[n].node == n)
    && (forall n | n in w.running ::
          && w.running[n] in w.requests && w.running[n].node == n
          && (n in w.agents ==> w.running[n] == w.agents[n] || w.running[n].rev > w.agents[n].rev))
    && (forall q | q in w.acks :: Reached(w, q.node, q.rev))
    && (forall q | q in w.journal :: Reached(w, q.node, q.rev))
  }

  /** No request still in flight can make the credential present on this node. */
  predicate Sealed(w: World, n: NodeId) {
    && (forall q | q in w.requests && q.node == n && q.want == Present :: Reached(w, n, q.rev))
    && (n in w.agents ==> w.agents[n].want == Absent)
  }

  predicate AllocStatesOk(w: World) {
    forall r | r in w.t.allocs ::
      && (w.t.allocs[r].state == Active && w.t.allocs[r].want == Present ==>
            Reached(w, w.t.allocs[r].node, w.t.lastRev))
      && (w.t.allocs[r].state == Revoked ==> Sealed(w, w.t.allocs[r].node))
  }

  predicate RowOk(w: World, l: Listing, row: Listed) {
    && row.role in w.t.allocs
    && w.t.allocs[row.role].node == row.alloc.node
    && (l.claim.rev == w.t.lastRev ==>
          && (l.claim.kind == Revoke && row.alloc.state == Revoked ==> w.t.allocs[row.role].state == Revoked)
          && (l.claim.kind == Provision && row.alloc.want == Present && row.alloc.state == Active ==>
                Reached(w, row.alloc.node, w.t.lastRev)))
  }

  /** Rows a worker read stay meaningful as long as its operation is the newest. */
  predicate ListingOk(w: World, l: Listing) {
    && l.claim in w.claims
    && (forall i | 0 <= i < |l.rows| :: RowOk(w, l, l.rows[i]))
    && (l.claim.kind == Revoke && l.claim.rev == w.t.lastRev ==>
          forall r | r in w.t.allocs :: exists i :: 0 <= i < |l.rows| && l.rows[i].role == r)
  }

  predicate ListingsOk(w: World) {
    forall l | l in w.listings :: ListingOk(w, l)
  }

  /** A success event of the newest revision names only nodes that store that revision. */
  predicate EventBacked(w: World, o: Outcome) {
    o.ProvisionSucceeded? && o.rev == w.t.lastRev ==>
      forall k | 0 <= k < |o.endpoints| :: Reached(w, o.endpoints[k].node, o.rev)
  }

  predicate EventsOk(w: World) {
    forall i | 0 <= i < |w.t.outbox| :: EventBacked(w, w.t.outbox[i].outcome)
  }

  predicate Net(w: World) {
    Messages(w) && AgentsOk(w) && AllocStatesOk(w) && ListingsOk(w) && EventsOk(w)
  }

  predicate Inv(w: World) {
    Rows(w.t) && Net(w)
  }
}
