/** Every transaction keeps the invariant of the database rows. */
module ProtocolRows {
  import opened Common
  import opened Provisioning
  import opened ProtocolInvariant

  // ---- recording a command ------------------------------------------------------------

  function Recorded(t: Tables, event: EventId, c: Command, maxAttempts: nat): Tables
    requires RecordCommand(t, event, c, maxAttempts).Ok?
  {
    RecordCommand(t, event, c, maxAttempts).value
  }

  lemma RecordOps(t: Tables, event: EventId, c: Command, maxAttempts: nat)
    requires OpsOk(t) && c.seqNo == c.rev && event !in t.inbox
    requires RecordCommand(t, event, c, maxAttempts).Ok?
    ensures OpsOk(Recorded(t, event, c, maxAttempts))
  {
    var t' := Recorded(t, event, c, maxAttempts);
    forall id | id in t'.ops ensures OpOk(t', t'.ops[id]) {
      if id != c.op { assert OpOk(t, t.ops[id]); }
    }
  }

  lemma RecordAllocs(t: Tables, event: EventId, c: Command, maxAttempts: nat)
    requires AllocsOk(t) && event !in t.inbox
    requires RecordCommand(t, event, c, maxAttempts).Ok?
    ensures AllocsOk(Recorded(t, event, c, maxAttempts))
  {
    var t' := Recorded(t, event, c, maxAttempts);
    assert t'.allocs.Keys == t.allocs.Keys;
    forall r | r in t'.allocs ensures AllocOk(t', t'.allocs[r]) {
      assert AllocOk(t, t.allocs[r]);
    }
  }

  lemma RecordOutbox(t: Tables, event: EventId, c: Command, maxAttempts: nat)
    requires OpsOk(t) && OutboxOk(t) && PublishOk(t) && RevokeProofOk(t) && event !in t.inbox
    requires RecordCommand(t, event, c, maxAttempts).Ok?
    ensures OutboxOk(Recorded(t, event, c, maxAttempts))
    ensures PublishOk(Recorded(t, event, c, maxAttempts))
    ensures RevokeProofOk(Recorded(t, event, c, maxAttempts))
  {
    var t' := Recorded(t, event, c, maxAttempts);
    forall i | 0 <= i < |t'.outbox|
      ensures OutcomeOk(t', t'.outbox[i].outcome)
      ensures t'.outbox[i].outcome.RevokeSucceeded? && Quiet(t', t'.outbox[i].outcome.rev) ==> AllRevoked(t')
    {
      var o := t.outbox[i].outcome;
      assert OutcomeOk(t, o) && OpOk(t, t.ops[o.op]);
      if o.RevokeSucceeded? && Quiet(t', o.rev) {
        assert t'.ops[c.op].kind == Revoke;
        assert forall id | id in t.ops :: t'.ops[id].kind == t.ops[id].kind && t'.ops[id].rev == t.ops[id].rev;
        assert Quiet(t, o.rev);
      }
    }
  }

  lemma RecordRows(t: Tables, event: EventId, c: Command, maxAttempts: nat)
    requires Rows(t)
    requires ProcessCommand(t, event, c, maxAttempts).Ok?
    ensures Rows(ProcessCommand(t, event, c, maxAttempts).value)
  {
    if event !in t.inbox {
      RecordOps(t, event, c, maxAttempts);
      RecordAllocs(t, event, c, maxAttempts);
      RecordOutbox(t, event, c, maxAttempts);
    }
  }

  // ---- changes to one operation row -----------------------------------------------------

  /** Lease, retry and allocation-binding updates of an unfinished operation. */
  lemma OpUpdateRows(t: Tables, id: OpId, o: Op)
    requires Rows(t) && id in t.ops && !Terminal(t.ops[id].state) && !Terminal(o.state)
    requires o.kind == t.ops[id].kind && o.rev == t.ops[id].rev && o.seqNo == t.ops[id].seqNo
    ensures Rows(t.(ops := t.ops[id := o]))
  {
    var t' := t.(ops := t.ops[id := o]);
    forall k | k in t'.ops ensures OpOk(t', t'.ops[k]) { assert OpOk(t, t.ops[k]); }
    forall r | r in t'.allocs ensures AllocOk(t', t'.allocs[r]) { assert AllocOk(t, t.allocs[r]); }
    forall i | 0 <= i < |t'.outbox| ensures OutcomeOk(t', t'.outbox[i].outcome) {
      assert OutcomeOk(t, t.outbox[i].outcome);
    }
    QuietFrame(t, t');
  }

  /** Quietness depends only on the kinds and revisions of operations. */
  lemma QuietFrame(t: Tables, t': Tables)
    requires t'.ops.Keys == t.ops.Keys
    requires forall id | id in t.ops :: t'.ops[id].kind == t.ops[id].kind && t'.ops[id].rev == t.ops[id].rev
    ensures forall rev: nat :: Quiet(t', rev) ==> Quiet(t, rev)
  {
  }

  // ---- allocation rows ------------------------------------------------------------------

  lemma AllocStateRows(t: Tables, r: Role, s: AllocState)
    requires Rows(t) && r in t.allocs
    requires if s == Revoked then t.allocs[r].want == Absent else t.allocs[r].state != Revoked
    ensures Rows(SetAllocState(t, r, s))
  {
    var t' := SetAllocState(t, r, s);
    assert AllocOk(t, t.allocs[r]);
    AllocStateAllocs(t, r, s);
    forall i | 0 <= i < |t'.outbox| ensures OutcomeOk(t', t'.outbox[i].outcome) {
      assert OutcomeOk(t, t.outbox[i].outcome);
    }
    QuietFrame(t, t');
  }

  lemma AllocStateAllocs(t: Tables, r: Role, s: AllocState)
    requires AllocsOk(t) && r in t.allocs
    ensures AllocsOk(SetAllocState(t, r, s))
  {
    var t' := SetAllocState(t, r, s);
    assert t'.allocs.Keys == t.allocs.Keys;
    forall k | k in t'.allocs ensures AllocOk(t', t'.allocs[k]) { assert AllocOk(t, t.allocs[k]); }
  }

  /** While a provisioning operation is the newest, no revoke proof is current. */
  lemma NotQuiet(t: Tables, id: OpId, i: nat)
    requires OpsOk(t) && OutboxOk(t) && id in t.ops && t.ops[id].kind == Provision
    requires t.ops[id].rev == t.lastRev && i < |t.outbox| && t.outbox[i].outcome.RevokeSucceeded?
    ensures !Quiet(t, t.outbox[i].outcome.rev)
  {
    var o := t.outbox[i].outcome;
    assert OutcomeOk(t, o) && OpOk(t, t.ops[o.op]);
  }

  lemma NewAllocsRows(t: Tables, c: Claim, allocs: map<Role, Alloc>)
    requires Rows(t) && ClaimOk(t, c) && c.kind == Provision && t.ops[c.id].state == Processing
    requires allocs.Keys == {Primary, Failover} && allocs[Primary].node != allocs[Failover].node
    requires forall r | r in allocs :: allocs[r] == NewAlloc(c, allocs[r].node)
    ensures Rows(t.(ops := BindAllocRev(t, c), allocs := allocs))
  {
    var t1 := t.(ops := BindAllocRev(t, c));
    OpUpdateRows(t, c.id, t1.ops[c.id]);
    var t' := t1.(allocs := allocs);
    assert OpOk(t, t.ops[c.id]);
    forall i | 0 <= i < |t'.outbox|
      ensures OutcomeOk(t', t'.outbox[i].outcome)
      ensures t'.outbox[i].outcome.RevokeSucceeded? ==> !Quiet(t', t'.outbox[i].outcome.rev)
    {
      assert OutcomeOk(t1, t1.outbox[i].outcome);
      if t'.outbox[i].outcome.RevokeSucceeded? {
        NotQuiet(t1, c.id, i);
        QuietFrame(t1, t');
      }
    }
    forall k | k in t'.ops ensures OpOk(t', t'.ops[k]) { assert OpOk(t1, t1.ops[k]); }
  }

  /** Either branch of the allocation transaction rebuilds both rows for the claimed operation. */
  lemma EnsureShape(t: Tables, nodes: map<NodeId, Node>, c: Claim, p: Placement, now: Time, picked: seq<NodeId>)
    requires Rows(t) && ValidPick(nodes, p.region, now, picked)
    requires EnsureAllocations(t, nodes, c, p, now, picked).Ok?
    ensures c.id in t.ops && t.ops[c.id].state == Processing && t.ops[c.id].rev == c.rev
    ensures var t' := EnsureAllocations(t, nodes, c, p, now, picked).value.tables;
            && t' == t.(ops := BindAllocRev(t, c), allocs := t'.allocs)
            && t'.allocs.Keys == {Primary, Failover} && t'.allocs[Primary].node != t'.allocs[Failover].node
            && (forall r | r in t'.allocs :: t'.allocs[r] == NewAlloc(c, t'.allocs[r].node))
            && (forall r | r in t.allocs :: t'.allocs[r].node == t.allocs[r].node)
  {
    if t.allocs != map[] {
      ListShape(t);
      RetainedBound(List(t), c, nodes, p.region, now);
      var t' := EnsureAllocations(t, nodes, c, p, now, picked).value.tables;
      assert t'.allocs.Keys == t.allocs.Keys;
      forall r | r in t.allocs
        ensures t'.allocs[r] == NewAlloc(c, t.allocs[r].node)
      {
        assert Listed(r, t.allocs[r]) in List(t);
      }
    }
  }

  lemma {:induction false} RetainedBound(rows: seq<Listed>, c: Claim, nodes: map<NodeId, Node>, region: nat, now: Time)
    requires ReserveRetained(rows, c, nodes, region, now).Ok?
    ensures RowsBound(rows, c, Present)
  {
    if rows != [] {
      var a := rows[0].alloc;
      var nodes' := if a.state != Revoked then nodes else Reserve(nodes, a.node);
      RetainedBound(rows[1..], c, nodes', region, now);
      forall i | 0 <= i < |rows|
        ensures rows[i].alloc.op == c.id && rows[i].alloc.rev == c.rev && rows[i].alloc.want == Present
      {
        if i > 0 { assert rows[i] == rows[1..][i - 1]; }
      }
    }
  }

  // ---- completion -----------------------------------------------------------------------

  lemma CompleteRows(t: Tables, c: Claim, o: Outcome)
    requires Rows(t) && ClaimOk(t, c) && o.op == c.id && o.rev == c.rev
    requires (c.kind == Provision) == (o.ProvisionSucceeded? || o.ProvisionFailed?)
    requires o.RevokeSucceeded? && c.rev == t.lastRev ==> AllRevoked(t)
    requires o.ProvisionSucceeded? && c.rev == t.lastRev ==> NoneRevoked(t)
    requires Complete(t, c, o).Ok?
    ensures Rows(Complete(t, c, o).value)
  {
    var t' := Complete(t, c, o).value;
    if t' != t {
      assert OpOk(t, t.ops[c.id]);
      forall k | k in t'.ops ensures OpOk(t', t'.ops[k]) { assert OpOk(t, t.ops[k]); }
      forall r | r in t'.allocs ensures AllocOk(t', t'.allocs[r]) { assert AllocOk(t, t.allocs[r]); }
      CompleteOutbox(t, c, o);
      QuietFrame(t, t');
      var last := |t.outbox|;
      forall i | 0 <= i < |t'.outbox| && t'.outbox[i].outcome.RevokeSucceeded? && Quiet(t', t'.outbox[i].outcome.rev)
        ensures AllRevoked(t')
      {
        if i < last { assert t'.outbox[i] == t.outbox[i]; }
      }
    }
  }

  lemma CompleteOutbox(t: Tables, c: Claim, o: Outcome)
    requires OpsOk(t) && OutboxOk(t) && PublishOk(t) && ClaimOk(t, c) && o.op == c.id && o.rev == c.rev
    requires (c.kind == Provision) == (o.ProvisionSucceeded? || o.ProvisionFailed?)
    requires Complete(t, c, o).Ok? && Complete(t, c, o).value != t
    ensures OutboxOk(Complete(t, c, o).value) && PublishOk(Complete(t, c, o).value)
  {
    var t' := Complete(t, c, o).value;
    var last := |t.outbox|;
    forall i | 0 <= i < last
      ensures t'.outbox[i] == t.outbox[i]
      ensures OutcomeOk(t', t.outbox[i].outcome) && t.outbox[i].outcome.rev < o.rev
    {
      var e := t.outbox[i].outcome;
      assert OutcomeOk(t, e) && OpOk(t, t.ops[e.op]);
      assert e.op != c.id;
    }
  }

  lemma PublishRows(t: Tables, i: nat, p: Publish, attempts: nat)
    requires Rows(t) && i < |t.outbox|
    requires p == Leased ==> Publishable(t, i)
    requires p != Leased ==> t.outbox[i].publish == Leased && attempts == t.outbox[i].attempts
    ensures Rows(SetPublish(t, i, p, attempts))
  {
    var t' := SetPublish(t, i, p, attempts);
    forall k | 0 <= k < |t'.outbox| ensures OutcomeOk(t', t'.outbox[k].outcome) {
      assert OutcomeOk(t, t.outbox[k].outcome);
    }
    assert forall k | k in t'.ops :: OpOk(t, t.ops[k]) ==> OpOk(t', t'.ops[k]);
    assert forall r | r in t'.allocs :: AllocOk(t, t.allocs[r]) ==> AllocOk(t', t'.allocs[r]);
    QuietFrame(t, t');
  }
}
