/** Safety of the provisioning protocol over all runs. */
module ProtocolSafety {
  import opened Common
  import opened Provisioning
  import opened Protocol
  import opened ProtocolInvariant
  import opened ProtocolRows
  import opened ProtocolNet

  // ---- one lemma per kind of step -----------------------------------------------------

  lemma RecordKeepsInv(w: World, event: EventId, c: Command, maxAttempts: nat)
    requires Inv(w)
    ensures Inv(OrKeep(w, ProcessCommand(w.t, event, c, maxAttempts)))
  {
    if ProcessCommand(w.t, event, c, maxAttempts).Ok? {
      RecordRows(w.t, event, c, maxAttempts);
      RecordNet(w, event, c, maxAttempts);
    }
  }

  /** A lease or retry of an unfinished operation, optionally handing a claim to a worker. */
  lemma LeaseKeepsInv(w: World, id: OpId, o: Op)
    requires Inv(w) && id in w.t.ops && !Terminal(w.t.ops[id].state) && !Terminal(o.state)
    requires o.kind == w.t.ops[id].kind && o.rev == w.t.ops[id].rev && o.seqNo == w.t.ops[id].seqNo
    ensures Inv(w.(t := w.t.(ops := w.t.ops[id := o])))
  {
    OpUpdateRows(w.t, id, o);
    FrameNet(w, w.t.(ops := w.t.ops[id := o]));
  }

  lemma AddClaim(w: World, c: Claim)
    requires Net(w) && ClaimOk(w.t, c)
    ensures Net(w.(claims := w.claims + {c}))
  {
    var w' := w.(claims := w.claims + {c});
    forall l | l in w'.listings ensures ListingOk(w', l) {
      assert ListingOk(w, l);
      forall i | 0 <= i < |l.rows| ensures RowOk(w', l, l.rows[i]) { assert RowOk(w, l, l.rows[i]); }
    }
    ClaimsFrame(w, c);
  }

  lemma ClaimsFrame(w: World, c: Claim)
    requires Messages(w) && AgentsOk(w) && AllocStatesOk(w) && EventsOk(w) && ClaimOk(w.t, c)
    ensures Messages(w.(claims := w.claims + {c})) && AgentsOk(w.(claims := w.claims + {c}))
    ensures AllocStatesOk(w.(claims := w.claims + {c})) && EventsOk(w.(claims := w.claims + {c}))
  {
    var w' := w.(claims := w.claims + {c});
    forall r | r in w.t.allocs && w.t.allocs[r].state == Revoked ensures Sealed(w', w.t.allocs[r].node) {
      assert Sealed(w, w.t.allocs[r].node);
    }
    forall i | 0 <= i < |w.t.outbox| ensures EventBacked(w', w.t.outbox[i].outcome) {
      assert EventBacked(w, w.t.outbox[i].outcome);
    }
  }

  lemma ClaimKeepsInv(w: World, id: OpId)
    requires Inv(w)
    ensures Inv(DoClaim(w, id))
  {
    if Claimable(w.t, id) {
      var t' := ClaimOperation(w.t, id);
      LeaseKeepsInv(w, id, t'.ops[id]);
      AddClaim(w.(t := t'), ClaimOf(id, w.t.ops[id]));
    }
  }

  lemma EnsureRebuilds(t: Tables, nodes: map<NodeId, Node>, c: Claim, p: Placement, now: Time, picked: seq<NodeId>)
    requires Rows(t) && ClaimOk(t, c) && c.kind == Provision && ValidPick(nodes, p.region, now, picked)
    requires EnsureAllocations(t, nodes, c, p, now, picked).Ok?
    ensures Rebuilt(t, c, EnsureAllocations(t, nodes, c, p, now, picked).value.tables)
    ensures Rows(EnsureAllocations(t, nodes, c, p, now, picked).value.tables)
  {
    var t' := EnsureAllocations(t, nodes, c, p, now, picked).value.tables;
    EnsureShape(t, nodes, c, p, now, picked);
    assert OpOk(t, t.ops[c.id]);
    NewAllocsRows(t, c, t'.allocs);
  }

  lemma EnsureKeepsInv(w: World, nodes: map<NodeId, Node>, c: Claim, p: Placement, now: Time, picked: seq<NodeId>)
    requires Inv(w)
    ensures Inv(DoEnsure(w, nodes, c, p, now, picked).w)
  {
    if c in w.claims && c.kind == Provision && ValidPick(nodes, p.region, now, picked) {
      var e := EnsureAllocations(w.t, nodes, c, p, now, picked);
      if e.Ok? {
        EnsureRebuilds(w.t, nodes, c, p, now, picked);
        EnsureRows(w.t, nodes, c, p, now, picked);
        EnsureNet(w, c, e.value.tables);
      }
    }
  }

  lemma EnsureRows(t: Tables, nodes: map<NodeId, Node>, c: Claim, p: Placement, now: Time, picked: seq<NodeId>)
    requires ValidPick(nodes, p.region, now, picked)
    ensures var e := EnsureAllocations(t, nodes, c, p, now, picked);
            e.Ok? ==> e.value.rows == List(e.value.tables)
  {
  }

  lemma MarkAppliedKeepsInv(w: World, q: Request, r: Role)
    requires Inv(w)
    ensures Inv(DoMarkApplied(w, q, r))
  {
    if DoMarkApplied(w, q, r) != w {
      assert RequestOk(w.t, q) && AllocOk(w.t, w.t.allocs[r]);
      AllocStateRows(w.t, r, Active);
      MarkNet(w, r, Active);
    }
  }

  lemma MarkRevokedKeepsInv(w: World, nodes: map<NodeId, Node>, q: Request, r: Role)
    requires Inv(w)
    ensures Inv(DoMarkRevoked(w, nodes, q, r).w)
  {
    if DoMarkRevoked(w, nodes, q, r).w != w {
      assert RequestOk(w.t, q) && AllocOk(w.t, w.t.allocs[r]);
      AllocStateRows(w.t, r, Revoked);
      MarkNet(w, r, Revoked);
    }
  }

  lemma MarkFailedKeepsInv(w: World, c: Claim, n: NodeId, r: Role)
    requires Inv(w)
    ensures Inv(DoMarkFailed(w, c, n, r))
  {
    if DoMarkFailed(w, c, n, r) != w {
      AllocStateRows(w.t, r, Broken);
      MarkNet(w, r, Broken);
    }
  }

  lemma CompleteKeepsInv(w: World, c: Claim, o: Outcome)
    requires Inv(w) && c in w.claims && o.op == c.id && o.rev == c.rev
    requires (c.kind == Provision) == (o.ProvisionSucceeded? || o.ProvisionFailed?)
    requires c.rev == w.t.lastRev && o.ProvisionSucceeded? ==> EventBacked(w, o) && NoneRevoked(w.t)
    requires c.rev == w.t.lastRev && o.RevokeSucceeded? ==> AllRevoked(w.t)
    ensures Inv(OrKeep(w, Complete(w.t, c, o)))
  {
    if Complete(w.t, c, o).Ok? && Complete(w.t, c, o).value != w.t {
      var t' := Complete(w.t, c, o).value;
      CompleteRows(w.t, c, o);
      forall i | 0 <= i < |t'.outbox| ensures EventBacked(w, t'.outbox[i].outcome) {
        if i < |w.t.outbox| { assert t'.outbox[i] == w.t.outbox[i]; }
      }
      FrameNet(w, t');
    }
  }

  /** An active row of the newest provisioning generation proves its node, and unseals all rows. */
  lemma ActiveRowBacked(w: World, l: Listing, i: nat)
    requires Inv(w) && l in w.listings && l.claim.kind == Provision && l.claim.rev == w.t.lastRev
    requires i < |l.rows| && l.rows[i].alloc.state == Active && l.rows[i].alloc.want == Present
    ensures Reached(w, l.rows[i].alloc.node, w.t.lastRev)
    ensures NoneRevoked(w.t)
  {
    var n := l.rows[i].alloc.node;
    assert ListingOk(w, l) && RowOk(w, l, l.rows[i]);
    var q := w.agents[n];
    assert RequestOk(w.t, q) && OpOk(w.t, w.t.ops[q.op]) && ClaimOk(w.t, l.claim);
    NewestUnique(w.t, l.claim, q.op);
  }

  /** Each endpoint of a success event comes from an active row. */
  lemma {:induction false} EndpointRow(rows: seq<Listed>, k: nat) returns (i: nat)
    requires k < |ActiveEndpoints(rows)|
    ensures i < |rows| && rows[i].alloc.state == Active
    ensures ActiveEndpoints(rows)[k] == Endpoint(rows[i].alloc.node, rows[i].role)
  {
    var head := if rows[0].alloc.state == Active then 1 else 0;
    if k < head {
      i := 0;
    } else {
      i := EndpointRow(rows[1..], k - head);
      i := i + 1;
    }
  }

  lemma FinishProvisionKeepsInv(w: World, l: Listing, status: ReadyStatus)
    requires Inv(w)
    ensures Inv(DoFinishProvision(w, l, status))
  {
    if l in w.listings && l.claim.kind == Provision && ProvisionEvent(l.claim, status, l.rows).Ok? {
      var o := ProvisionEvent(l.claim, status, l.rows).value;
      assert ListingOk(w, l);
      if l.claim.rev == w.t.lastRev {
        forall k | 0 <= k < |o.endpoints| ensures Reached(w, o.endpoints[k].node, o.rev) {
          var i := EndpointRow(l.rows, k);
          ActiveRowBacked(w, l, i);
        }
        var p :| 0 <= p < |l.rows| && l.rows[p].role == Primary && l.rows[p].alloc.state == Active;
        ActiveRowBacked(w, l, p);
      }
      CompleteKeepsInv(w, l.claim, o);
    }
  }

  lemma FinishRevokeKeepsInv(w: World, l: Listing)
    requires Inv(w)
    ensures Inv(DoFinishRevoke(w, l))
  {
    if l in w.listings && l.claim.kind == Revoke && RevokeEvent(l.claim, l.rows).Ok? {
      var o := RevokeEvent(l.claim, l.rows).value;
      assert ListingOk(w, l);
      if l.claim.rev == w.t.lastRev {
        forall r | r in w.t.allocs ensures w.t.allocs[r].state == Revoked {
          var i :| 0 <= i < |l.rows| && l.rows[i].role == r;
          assert RowOk(w, l, l.rows[i]) && l.rows[i].alloc.state == Revoked;
        }
      }
      CompleteKeepsInv(w, l.claim, o);
    }
  }

  lemma PublishKeepsInv(w: World, l: Label)
    requires Inv(w)
    requires l.PublishClaim? || l.PublishDone? || l.PublishRetry?
    ensures Inv(DoPublish(w, l))
  {
    var t' := DoPublish(w, l).t;
    if t' != w.t {
      PublishRows(w.t, l.row, t'.outbox[l.row].publish, t'.outbox[l.row].attempts);
      forall i | 0 <= i < |t'.outbox| ensures EventBacked(w, t'.outbox[i].outcome) {
        assert t'.outbox[i].outcome == w.t.outbox[i].outcome;
      }
      FrameNet(w, t');
    }
  }
}
