/**
 When access accepts the revoke proof that provisioning offers: exactly when both name the
 same allocation revision.  A run shows that they can differ.
 */
module RevokeAcceptance {
  import opened Common
  import P = Provisioning
  import Pr = Protocol
  import PI = ProtocolInvariant
  import opened ProtocolEvents
  import opened F = Fleet
  import opened Access
  import opened AccessSafety
  import opened AccessTheorems
  import opened EndToEnd

  predicate PlacedRow(o: P.Outcome, rev: nat, nodes: set<NodeId>) {
    o.ProvisionSucceeded? && o.rev == rev && o.placed == nodes
  }

  predicate SnapshotBacked(t: P.Tables, rev: nat, nodes: set<NodeId>) {
    rev >= 1 && exists i :: 0 <= i < |t.outbox| && PlacedRow(t.outbox[i].outcome, rev, nodes)
  }

  /** Assignment snapshots repeat what success events said. */
  predicate SnapshotsBacked(a: Credential, t: P.Tables) {
    forall rev | rev in a.snapshots :: SnapshotBacked(t, rev, a.snapshots[rev])
  }

  predicate SettledOp(o: AccessOp, t: P.Tables, id: OpId) {
    && (o.status == Done ==> id in t.ops && t.ops[id].state == P.Succeeded)
    && (o.status == Broken ==> id in t.ops && t.ops[id].state == P.Failed)
  }

  /** Operations that access closed are closed the same way in provisioning. */
  predicate Settled(a: Credential, t: P.Tables) {
    forall id | id in a.ops :: SettledOp(a.ops[id], t, id)
  }

  ghost predicate Agreed(j: Joint) {
    JointInv(j) && Shape(j.w) && SnapshotsBacked(j.a, j.w.t) && Settled(j.a, j.w.t)
  }

  // ---- access steps -----------------------------------------------------------------------------

  predicate SnapshotFrom(a: Credential, d: Credential, l: Access.Label, rev: nat) {
    rev in d.snapshots ==>
      || (rev in a.snapshots && d.snapshots[rev] == a.snapshots[rev])
      || (l.OnOutcome? && l.event.payload.ProvisionDone? && rev == l.event.payload.rev >= 1
          && d.snapshots[rev] == Elements(l.event.payload.placed))
  }

  lemma SnapshotSource(a: Credential, l: Access.Label, rev: nat)
    ensures SnapshotFrom(a, Access.Step(a, l), l, rev)
  {
    if l.OnOutcome? {
      var c := a.(cursor := l.event.seqNo, inbox := a.inbox[l.event.id := l.event]);
      if ApplyBody(c, l.event.payload, l.now, l.revokeOp).Ok? { BodySnapshots(c, l.event.payload, l.now, l.revokeOp); }
    }
  }

  lemma BodySnapshots(c: Credential, b: Body, now: Time, spare: OpId)
    requires ApplyBody(c, b, now, spare).Ok?
    ensures var d := ApplyBody(c, b, now, spare).value;
            d.snapshots == c.snapshots || (b.ProvisionDone? && d.snapshots == c.snapshots[b.rev := Elements(b.placed)])
  {
    if b.ProvisionDone? && b.op in c.ops && LateProvision(c, b).Ok? {
      var d := LateProvision(c, b).value;
      assert d.snapshots == c.snapshots || d.snapshots == c.snapshots[b.rev := Elements(b.placed)];
    }
  }

  predicate ClosedFrom(a: Credential, d: Credential, l: Access.Label, id: OpId) {
    id in d.ops && d.ops[id].status != Open ==>
      || (id in a.ops && d.ops[id].status == a.ops[id].status)
      || (l.OnOutcome? && l.event.payload.op == id && id in a.ops
          && d.ops[id].status == if l.event.payload.OperationFailed? then Broken else Done)
  }

  lemma ClosedSource(a: Credential, l: Access.Label, id: OpId)
    ensures ClosedFrom(a, Access.Step(a, l), l, id)
  {
    if l.OnOutcome? {
      var c := a.(cursor := l.event.seqNo, inbox := a.inbox[l.event.id := l.event]);
      if ApplyBody(c, l.event.payload, l.now, l.revokeOp).Ok? { BodyCloses(c, l.event.payload, l.now, l.revokeOp, id); }
    }
  }

  predicate ClosedBy(c: Credential, d: Credential, b: Body, id: OpId) {
    id in d.ops && d.ops[id].status != Open ==>
      || (id in c.ops && d.ops[id].status == c.ops[id].status)
      || (b.op == id && id in c.ops && d.ops[id].status == if b.OperationFailed? then Broken else Done)
  }

  lemma BodyCloses(c: Credential, b: Body, now: Time, spare: OpId, id: OpId)
    requires ApplyBody(c, b, now, spare).Ok?
    ensures ClosedBy(c, ApplyBody(c, b, now, spare).value, b, id)
  {
    if b.ProvisionDone? && b.op in c.ops && LateProvision(c, b).Ok? {
      assert ClosedBy(c, LateProvision(c, b).value, b, id);
    }
  }

  lemma AccessSnapshots(j: Joint, l: Access.Label, row: nat)
    requires SnapshotsBacked(j.a, j.w.t) && Enabled(j, OnAccess(l, row))
    ensures SnapshotsBacked(Access.Step(j.a, l), j.w.t)
  {
    var d, t := Access.Step(j.a, l), j.w.t;
    forall rev | rev in d.snapshots ensures SnapshotBacked(t, rev, d.snapshots[rev]) {
      SnapshotSource(j.a, l, rev);
      if !(rev in j.a.snapshots && d.snapshots[rev] == j.a.snapshots[rev]) {
        assert PlacedRow(t.outbox[row].outcome, rev, d.snapshots[rev]);
      }
    }
  }

  lemma AccessSettled(j: Joint, l: Access.Label, row: nat)
    requires PI.OutboxOk(j.w.t) && Settled(j.a, j.w.t) && Enabled(j, OnAccess(l, row))
    ensures Settled(Access.Step(j.a, l), j.w.t)
  {
    var d, t := Access.Step(j.a, l), j.w.t;
    forall id | id in d.ops ensures SettledOp(d.ops[id], t, id) {
      ClosedSource(j.a, l, id);
      if id in j.a.ops { assert SettledOp(j.a.ops[id], t, id); }
      if l.OnOutcome? { assert PI.OutcomeOk(t, t.outbox[row].outcome); }
    }
  }

  // ---- protocol steps ---------------------------------------------------------------------------

  /** A succeeded or failed operation stays that way. */
  lemma ClosedStays(w: Pr.World, nodes: map<NodeId, P.Node>, l: Pr.Label, id: OpId)
    requires id in w.t.ops && (w.t.ops[id].state == P.Succeeded || w.t.ops[id].state == P.Failed)
    ensures var t' := Pr.Step(w, nodes, l).w.t; id in t'.ops && t'.ops[id].state == w.t.ops[id].state
  {
    if Pr.IsMessageStep(l) {
      Pr.MessageStepKeepsTables(w, nodes, l);
    } else if Pr.IsFinishStep(l) {
      ClosedFinish(w, nodes, l, id);
    } else {
      ClosedStore(w, nodes, l, id);
    }
  }

  lemma ClosedFinish(w: Pr.World, nodes: map<NodeId, P.Node>, l: Pr.Label, id: OpId)
    requires Pr.IsFinishStep(l)
    requires id in w.t.ops && (w.t.ops[id].state == P.Succeeded || w.t.ops[id].state == P.Failed)
    ensures var t' := Pr.Step(w, nodes, l).w.t; id in t'.ops && t'.ops[id].state == w.t.ops[id].state
  {
  }

  lemma ClosedStore(w: Pr.World, nodes: map<NodeId, P.Node>, l: Pr.Label, id: OpId)
    requires !Pr.IsMessageStep(l) && !Pr.IsFinishStep(l)
    requires id in w.t.ops && (w.t.ops[id].state == P.Succeeded || w.t.ops[id].state == P.Failed)
    ensures var t' := Pr.Step(w, nodes, l).w.t; id in t'.ops && t'.ops[id].state == w.t.ops[id].state
  {
  }

  lemma ProtocolAgreed(j: Joint, nodes: map<NodeId, P.Node>, l: Pr.Label)
    requires SnapshotsBacked(j.a, j.w.t) && Settled(j.a, j.w.t)
    ensures SnapshotsBacked(j.a, Pr.Step(j.w, nodes, l).w.t)
    ensures Settled(j.a, Pr.Step(j.w, nodes, l).w.t)
  {
    var t, t' := j.w.t, Pr.Step(j.w, nodes, l).w.t;
    StepExtends(j.w, nodes, l);
    forall rev | rev in j.a.snapshots ensures SnapshotBacked(t', rev, j.a.snapshots[rev]) {
      var i :| 0 <= i < |t.outbox| && PlacedRow(t.outbox[i].outcome, rev, j.a.snapshots[rev]);
      assert PlacedRow(t'.outbox[i].outcome, rev, j.a.snapshots[rev]);
    }
    forall id | id in j.a.ops ensures SettledOp(j.a.ops[id], t', id) {
      assert SettledOp(j.a.ops[id], t, id);
      if j.a.ops[id].status != Open { ClosedStays(j.w, nodes, l, id); }
    }
  }

  // ---- every run --------------------------------------------------------------------------------

  lemma {:induction false} RunAgreed(op: OpId, until: Time, labels: seq<JointLabel>)
    ensures Agreed(JointRun(op, until, labels))
  {
    JointRunInv(op, until, labels);
    if labels != [] {
      var j, l := JointRun(op, until, labels[..|labels| - 1]), labels[|labels| - 1];
      RunAgreed(op, until, labels[..|labels| - 1]);
      if Enabled(j, l) {
        match l
        case OnAccess(s, row) =>
          AccessSnapshots(j, s, row);
          AccessSettled(j, s, row);
        case OnProtocol(nodes, s) =>
          StepShape(j.w, nodes, s);
          ProtocolAgreed(j, nodes, s);
      }
    }
  }

  // ---- main results -----------------------------------------------------------------------------

  /** Every outcome that provisioning writes passes the contract checks of access. */
  lemma OutcomesPassChecks(op: OpId, until: Time, labels: seq<JointLabel>, row: nat, e: OutcomeEvent)
    requires row < |JointRun(op, until, labels).w.t.outbox|
    requires Reports(e, JointRun(op, until, labels).w.t.outbox[row])
    ensures ValidBody(e.payload)
  {
    RunAgreed(op, until, labels);
    var t := JointRun(op, until, labels).w.t;
    assert OutcomeShape(t, t.outbox[row].outcome);
    if e.payload.ProvisionDone? {
      ElementsCard(e.payload.placed);
      var p, f := t.allocs[Primary].node, t.allocs[Failover].node;
      assert AllocNodes(t) == {p, f};
      assert p in Elements(e.payload.placed) && f in Elements(e.payload.placed);
      CountTwo(e.payload.endpoints);
    }
  }

  lemma CountTwo(es: seq<Endpoint>)
    requires 1 <= |es| <= 2 && es[0].role == Primary && (|es| == 2 ==> es[1].role == Failover)
    ensures CountRole(es, Primary) == 1 && CountRole(es, Failover) == |es| - 1
  {
    assert es[..|es| - 1][..0] == [];
    assert CountRole([], Primary) == 0 && CountRole([], Failover) == 0;
    assert |es| == 2 ==> es[..1] == [es[0]];
    assert CountRole([es[0]], Primary) == 1;
  }

  /** Nodes recorded for an allocation are the nodes that hold the credential's rows. */
  lemma SnapshotIsAllocation(j: Joint, rev: nat)
    requires Agreed(j) && rev in j.a.snapshots
    ensures j.a.snapshots[rev] == AllocNodes(j.w.t) && rev >= 1
  {
    assert SnapshotBacked(j.w.t, rev, j.a.snapshots[rev]);
    var i :| 0 <= i < |j.w.t.outbox| && PlacedRow(j.w.t.outbox[i].outcome, rev, j.a.snapshots[rev]);
    assert OutcomeShape(j.w.t, j.w.t.outbox[i].outcome);
  }

  lemma SnapshotMatches(j: Joint, row: nat)
    requires Agreed(j) && row < |j.w.t.outbox| && j.w.t.outbox[row].outcome.RevokeSucceeded?
    requires j.w.t.outbox[row].outcome.allocRev == j.a.allocRev
    ensures SnapshotAt(j.a, j.a.allocRev) == j.w.t.outbox[row].outcome.nodes
  {
    assert OutcomeShape(j.w.t, j.w.t.outbox[row].outcome);
    if j.a.allocRev in j.a.snapshots { SnapshotIsAllocation(j, j.a.allocRev); }
  }

  /** The revoke operation a success event answers is still open in access. */
  lemma RevokeStillOpen(j: Joint, row: nat)
    requires Agreed(j) && row < |j.w.t.outbox| && j.w.t.outbox[row].outcome.RevokeSucceeded?
    requires j.w.t.outbox[row].outcome.rev == j.a.version && j.a.status != Revoked
    ensures var id := j.w.t.outbox[row].outcome.op;
            && id in j.a.ops && j.a.ops[id] == AccessOp(Revoke, j.a.version, Open, Some(j.a.allocRev))
            && j.a.status == Revoking
  {
    var o := j.w.t.outbox[row].outcome;
    assert PI.OutcomeOk(j.w.t, o) && KnownOp(j.a, j.w.t, o.op);
    OpIsAt(j.a.ops, j.a.sent, o.op);
    assert SettledOp(j.a.ops[o.op], j.w.t, o.op);
  }

  /**
   Acceptance.  In every run, when the revoke success of the current version arrives in order,
   access marks the credential revoked if and only if the allocation revision that provisioning
   reports is the one access recorded.
   */
  lemma RevokeAcceptedIff(op: OpId, until: Time, labels: seq<JointLabel>, row: nat, e: OutcomeEvent, now: Time, spare: OpId)
    requires var j := JointRun(op, until, labels);
             && row < |j.w.t.outbox| && Reports(e, j.w.t.outbox[row]) && e.payload.RevokeDone?
             && e.payload.rev == j.a.version && j.a.status != Revoked
             && e.seqNo == j.a.cursor + 1 && e.id !in j.a.inbox
    ensures var a := JointRun(op, until, labels).a;
            Access.Step(a, OnOutcome(e, now, spare)).status == Revoked <==> e.payload.allocRev == a.allocRev
  {
    var j := JointRun(op, until, labels);
    RunAgreed(op, until, labels);
    OutcomesPassChecks(op, until, labels, row, e);
    RevokeStillOpen(j, row);
    if e.payload.allocRev == j.a.allocRev {
      SnapshotMatches(j, row);
      SameNodeSetMeaning(SnapshotAt(j.a, e.payload.allocRev), e.payload.nodes);
    }
  }

  // ---- failures -----------------------------------------------------------------------------------

  predicate IsFailure(o: P.Outcome) {
    o.ProvisionFailed? || o.RevokeFailed?
  }

  /** The operation a failure event reports is known, and access did not close it otherwise. */
  lemma FailedOperation(j: Joint, row: nat)
    requires Agreed(j) && row < |j.w.t.outbox| && IsFailure(j.w.t.outbox[row].outcome) && j.w.t.outbox[row].outcome.rev == j.a.version
    ensures var o := j.w.t.outbox[row].outcome;
            && o.op in j.a.ops && j.a.ops[o.op].rev == o.rev && j.a.ops[o.op].status != Done
            && j.a.ops[o.op].kind == (if o.ProvisionFailed? then Provision else Revoke)
            && Matches(j.a.status, j.a.ops[o.op])
  {
    var o := j.w.t.outbox[row].outcome;
    assert PI.OutcomeOk(j.w.t, o) && KnownOp(j.a, j.w.t, o.op);
    OpIsAt(j.a.ops, j.a.sent, o.op);
    assert SettledOp(j.a.ops[o.op], j.w.t, o.op);
  }

  /**
   In every joint run, when the failure of the current version arrives in order, access records it:
   the operation is broken, and the credential has failed or keeps being revoked.
   */
  lemma FailureArrives(op: OpId, until: Time, labels: seq<JointLabel>, row: nat, e: OutcomeEvent, now: Time, spare: OpId)
    requires var j := JointRun(op, until, labels);
             && row < |j.w.t.outbox| && Reports(e, j.w.t.outbox[row]) && IsFailure(j.w.t.outbox[row].outcome)
             && j.w.t.outbox[row].outcome.rev == j.a.version
             && e.seqNo == j.a.cursor + 1 && e.id !in j.a.inbox
    ensures var o := JointRun(op, until, labels).w.t.outbox[row].outcome;
            var d := Access.Step(JointRun(op, until, labels).a, OnOutcome(e, now, spare));
            && d.cursor == e.seqNo && o.op in d.ops && d.ops[o.op].status == Broken
            && d.status == if o.ProvisionFailed? then Failed else Revoking
  {
    var j := JointRun(op, until, labels);
    RunAgreed(op, until, labels);
    OutcomesPassChecks(op, until, labels, row, e);
    FailedOperation(j, row);
    FailureRecorded(j.a, e, now, spare);
  }

  lemma FailureRecorded(a: Credential, e: OutcomeEvent, now: Time, spare: OpId)
    requires e.payload.OperationFailed? && e.payload.terminal && ValidBody(e.payload) && e.payload.rev == a.version
    requires e.seqNo == a.cursor + 1 && e.id !in a.inbox
    requires e.payload.op in a.ops && a.ops[e.payload.op].kind == e.payload.kind && a.ops[e.payload.op].rev == e.payload.rev
    requires a.ops[e.payload.op].status != Done && Matches(a.status, a.ops[e.payload.op])
    ensures var d := Access.Step(a, OnOutcome(e, now, spare));
            && d.cursor == e.seqNo && e.payload.op in d.ops && d.ops[e.payload.op].status == Broken
            && d.status == if e.payload.kind == Provision then Failed else Revoking
  {
  }
}
