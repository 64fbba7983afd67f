/** The access guarantees, for every run of one credential. */
module AccessTheorems {
  import opened Common
  import opened Access
  import opened AccessSafety

  /**
   Coupling.  A credential at version v has exactly one operation and one command per revision
   1, ..., v, and its status is the one that operation v determines.
   */
  lemma StatusFollowsNewestOperation(op: OpId, until: Time, labels: seq<Label>, k: nat, i: OpId, j: OpId)
    ensures var c := Run(op, until, labels);
            && |c.sent| == c.version
            && (k < c.version ==>
                  && c.sent[k].op in c.ops
                  && c.ops[c.sent[k].op].rev == c.sent[k].rev == k + 1
                  && c.ops[c.sent[k].op].kind == c.sent[k].kind)
            && (i in c.ops && j in c.ops && c.ops[i].rev == c.ops[j].rev ==> i == j)
            && (i in c.ops && c.ops[i].rev == c.version ==> Matches(c.status, c.ops[i]))
  {
    var c := Run(op, until, labels);
    RunInv(op, until, labels);
    if k < c.version { CommandAt(c.ops, c.sent, k); }
    if i in c.ops {
      OpIsAt(c.ops, c.sent, i);
      if j in c.ops && c.ops[i].rev == c.ops[j].rev { OneOperation(c.ops, c.sent, i, j); }
    }
  }

  lemma CommandAt(ops: Ops, sent: seq<Sent>, k: nat)
    requires HistoryOk(ops, sent) && k < |sent|
    ensures CommandOk(ops, sent, k)
  {
  }

  lemma OneOperation(ops: Ops, sent: seq<Sent>, i: OpId, j: OpId)
    requires HistoryOk(ops, sent) && i in ops && j in ops && ops[i].rev == ops[j].rev
    ensures i == j
  {
    assert OperationOk(ops, sent, i) && OperationOk(ops, sent, j);
  }

  /**
   Allocation binding.  The allocation revision is 0 before any success, the version while
   serving, and the one the newest revoke operation must prove removed while revoking.
   */
  lemma AllocationBinding(op: OpId, until: Time, labels: seq<Label>, id: OpId)
    requires id in Run(op, until, labels).ops
    ensures var c := Run(op, until, labels);
            && (c.status == Provisioning || c.status == Failed ==> c.allocRev == 0)
            && (Serving(c) ==> c.allocRev == c.version)
            && (c.status == Revoking && c.ops[id].rev == c.version ==> c.ops[id].allocRev == Some(c.allocRev))
            && (c.allocRev != 0 ==> c.allocRev in c.snapshots && |c.snapshots[c.allocRev]| == 2)
            && (c.allocRev != 0 && c.ops[id].rev == c.allocRev ==> c.ops[id].kind == Provision && c.ops[id].status == Done)
  {
    var c := Run(op, until, labels);
    RunInv(op, until, labels);
    OpIsAt(c.ops, c.sent, id);
  }

  /**
   Profile.  A credential that a token lookup can return has endpoints to show: a primary, a
   failover exactly when active, all on assigned nodes and stamped with the current allocation.
   */
  lemma ProfileNeverEmpty(op: OpId, until: Time, labels: seq<Label>)
    requires Serving(Run(op, until, labels))
    ensures var c := Run(op, until, labels);
            && c.endpoints != map[]
            && |c.endpoints.Keys| == (if c.status == Active then 2 else 1)
            && c.allocRev == c.version && c.version in c.snapshots && c.endpoints.Keys <= c.snapshots[c.version]
            && (exists p: NodeId :: RowOf(c.endpoints, p, Primary, c.version))
            && ((exists f: NodeId :: RowOf(c.endpoints, f, Failover, c.version)) <==> c.status == Active)
  {
    RunInv(op, until, labels);
  }

  /** Tokens.  At most one live token, only while serving, expiring with the entitlement. */
  lemma OneLiveToken(op: OpId, until: Time, labels: seq<Label>, j: TokenId, k: TokenId)
    requires LiveToken(Run(op, until, labels), j)
    ensures var c := Run(op, until, labels);
            && Serving(c) && c.tokens[j].expires == c.entitlement
            && (LiveToken(c, k) ==> j == k)
  {
    RunInv(op, until, labels);
    assert IsLive(Run(op, until, labels).tokens, j);
    assert LiveToken(Run(op, until, labels), k) ==> IsLive(Run(op, until, labels).tokens, k);
  }

  // ---- what steps may and may not do -------------------------------------------------------------

  lemma EntitlementNeverDecreases(c: Credential, l: Label)
    ensures Step(c, l).entitlement >= c.entitlement
    ensures Step(c, l).entitlement > c.entitlement ==> l.OnPeriod? && Step(c, l).entitlement == l.until
  {
    if l.OnOutcome? { OutcomeKeeps(c, l.event, l.now, l.revokeOp); }
  }

  lemma BodyKeeps(c: Credential, b: Body, now: Time, revokeOp: OpId)
    requires ApplyBody(c, b, now, revokeOp).Ok?
    ensures var d := ApplyBody(c, b, now, revokeOp).value;
            d.entitlement == c.entitlement && c.sent <= d.sent && |d.sent| <= |c.sent| + 1
  {
  }

  /** An outcome leaves the entitlement alone and sends at most one command. */
  lemma OutcomeKeeps(c: Credential, e: OutcomeEvent, now: Time, revokeOp: OpId)
    ensures var d := Step(c, OnOutcome(e, now, revokeOp));
            d.entitlement == c.entitlement && c.sent <= d.sent && |d.sent| <= |c.sent| + 1
  {
    var d := c.(cursor := e.seqNo, inbox := c.inbox[e.id := e]);
    if ApplyBody(d, e.payload, now, revokeOp).Ok? { BodyKeeps(d, e.payload, now, revokeOp); }
  }

  /** Versions and commands only grow, one at a time. */
  lemma CommandsOnlyAppended(c: Credential, l: Label)
    ensures c.sent <= Step(c, l).sent
    ensures |Step(c, l).sent| <= |c.sent| + 1
  {
    if l.OnOutcome? { OutcomeKeeps(c, l.event, l.now, l.revokeOp); }
  }

  /** Everything but the outcome bookkeeping. */
  predicate SameService(c: Credential, d: Credential) {
    d == c.(cursor := d.cursor, inbox := d.inbox)
  }

  /** Once revoked, no step touches the credential, its operations, tokens or commands. */
  lemma RevokedStep(c: Credential, l: Label)
    requires Inv(c) && c.status == Revoked
    ensures SameService(c, Step(c, l))
  {
    if l.OnOutcome? && l.event.payload.op in c.ops { OpIsAt(c.ops, c.sent, l.event.payload.op); }
  }

  /** Revoked is absorbing: whatever follows, the credential stays as it is. */
  lemma {:induction false} RevokedForever(op: OpId, until: Time, before: seq<Label>, after: seq<Label>)
    requires Run(op, until, before).status == Revoked
    ensures SameService(Run(op, until, before), Run(op, until, before + after))
  {
    if after == [] {
      assert before + after == before;
    } else {
      var init := after[..|after| - 1];
      RevokedForever(op, until, before, init);
      RunInv(op, until, before + init);
      RevokedStep(Run(op, until, before + init), after[|after| - 1]);
      assert (before + after)[..|before + after| - 1] == before + init;
    }
  }

  lemma {:induction false} ElementsCard(s: seq<NodeId>)
    requires NoDuplicates(s)
    ensures |Elements(s)| == |s|
  {
    if s != [] {
      var init := s[..|s| - 1];
      ElementsCard(init);
      assert Elements(s) == Elements(init) + {s[|s| - 1]};
    }
  }

  /** Two sets of equal size, one inside the other, are equal. */
  lemma SubsetOfSameSize(a: set<NodeId>, b: set<NodeId>)
    requires a <= b && |a| == |b|
    ensures a == b
  {
    assert |b - a| == |b| - |a|;
    assert b == a + (b - a);
  }

  /** The node-set comparison accepts exactly the duplicate-free listings of the recorded set. */
  lemma SameNodeSetMeaning(expected: set<NodeId>, reported: seq<NodeId>)
    ensures SameNodeSet(expected, reported) <==> NoDuplicates(reported) && Elements(reported) == expected
  {
    if NoDuplicates(reported) {
      ElementsCard(reported);
      if SameNodeSet(expected, reported) { SubsetOfSameSize(expected, Elements(reported)); }
    }
  }

  /**
   Accepted revoke proof.  A credential becomes revoked only through a revoke-done outcome of
   its current version that reports exactly the nodes of the current allocation.
   */
  lemma RevokedOnlyWithProof(c: Credential, l: Label)
    requires Inv(c) && c.status != Revoked && Step(c, l).status == Revoked
    ensures && l.OnOutcome? && l.event.payload.RevokeDone?
            && l.event.payload.rev == c.version == Step(c, l).version
            && c.status == Revoking
            && l.event.payload.allocRev == c.allocRev
            && Elements(l.event.payload.nodes) == SnapshotAt(c, c.allocRev)
            && (c.allocRev != 0 ==> |l.event.payload.nodes| == 2)
  {
    var b := l.event.payload;
    SameNodeSetMeaning(SnapshotAt(c, b.allocRev), b.nodes);
    OpIsAt(c.ops, c.sent, b.op);
  }
}
