/**
 Access and provisioning together, for one credential.  Provisioning records only commands
 that access sent, access applies only outcomes that provisioning wrote; either may happen
 late, repeatedly, out of order or never.
 */
module EndToEnd {
  import opened Common
  import P = Provisioning
  import Pr = Protocol
  import PI = ProtocolInvariant
  import opened F = Fleet
  import opened Access
  import opened AccessSafety
  import opened AccessTheorems
  import opened Subscriptions

  datatype Joint = Joint(a: Credential, w: Pr.World)

  datatype JointLabel =
    | OnAccess(change: Access.Label, row: nat)
    | OnProtocol(nodes: map<NodeId, P.Node>, action: Pr.Label)

  /** The event carries the content of the outbox row. */
  predicate Reports(e: OutcomeEvent, row: P.OutboxRow) {
    && e.seqNo == row.seqNo
    && match row.outcome
       case ProvisionSucceeded(op, rev, status, placed, endpoints) =>
         e.payload.ProvisionDone? && e.payload.op == op && e.payload.rev == rev && e.payload.status == status
         && NoDuplicates(e.payload.placed) && Elements(e.payload.placed) == placed && e.payload.endpoints == endpoints
       case ProvisionFailed(op, rev) => e.payload == OperationFailed(Provision, op, rev, true)
       case RevokeSucceeded(op, rev, allocRev, nodes) =>
         e.payload.RevokeDone? && e.payload.op == op && e.payload.rev == rev && e.payload.allocRev == allocRev
         && NoDuplicates(e.payload.nodes) && Elements(e.payload.nodes) == nodes
       case RevokeFailed(op, rev) => e.payload == OperationFailed(Revoke, op, rev, true)
  }

  predicate WasSent(sent: seq<Sent>, k: P.Command) {
    exists i :: 0 <= i < |sent| && sent[i] == Sent(k.op, k.kind, k.rev)
  }

  predicate Enabled(j: Joint, l: JointLabel) {
    match l
    case OnAccess(s, row) => s.OnOutcome? ==> row < |j.w.t.outbox| && Reports(s.event, j.w.t.outbox[row])
    case OnProtocol(_, s) => s.Record? ==> WasSent(j.a.sent, s.command)
  }

  function JointStep(j: Joint, l: JointLabel): Joint {
    if !Enabled(j, l) then j
    else match l
      case OnAccess(s, _) => j.(a := Access.Step(j.a, s))
      case OnProtocol(nodes, s) => j.(w := Pr.Step(j.w, nodes, s).w)
  }

  function JointRun(op: OpId, until: Time, labels: seq<JointLabel>): Joint {
    if labels == [] then Joint(NewCredential(op, until), Pr.START)
    else JointStep(JointRun(op, until, labels[..|labels| - 1]), labels[|labels| - 1])
  }

  // ---- what links the two databases -------------------------------------------------------------

  predicate KnownOp(a: Credential, t: P.Tables, id: OpId) {
    id in t.ops ==> id in a.ops && a.ops[id].kind == t.ops[id].kind && a.ops[id].rev == t.ops[id].rev
  }

  /** Provisioning never runs ahead of access. */
  predicate Behind(a: Credential, t: P.Tables) {
    t.lastRev <= a.version && forall id | id in t.ops :: KnownOp(a, t, id)
  }

  predicate RevokeRow(o: P.Outcome, rev: nat) {
    o.RevokeSucceeded? && o.rev == rev
  }

  predicate ProfileRow(o: P.Outcome, rev: nat, endpoints: map<NodeId, EndpointRow>) {
    o.ProvisionSucceeded? && o.rev == rev && endpoints == EndpointRows(o.endpoints, rev)
  }

  /** A revoked credential is backed by a revoke-succeeded event of its version. */
  predicate RevokeBacked(a: Credential, t: P.Tables) {
    a.status == Revoked ==> exists i :: 0 <= i < |t.outbox| && RevokeRow(t.outbox[i].outcome, a.version)
  }

  /** A served profile is the content of a provision-succeeded event of its version. */
  predicate ProfileBacked(a: Credential, t: P.Tables) {
    Serving(a) ==> exists i :: 0 <= i < |t.outbox| && ProfileRow(t.outbox[i].outcome, a.version, a.endpoints)
  }

  ghost predicate JointInv(j: Joint) {
    && AccessSafety.Inv(j.a) && PI.Inv(j.w)
    && Behind(j.a, j.w.t) && RevokeBacked(j.a, j.w.t) && ProfileBacked(j.a, j.w.t)
  }

  // ---- access steps -----------------------------------------------------------------------------

  lemma AccessBehind(a: Credential, t: P.Tables, l: Access.Label)
    requires AccessSafety.Inv(a) && Behind(a, t)
    ensures Behind(Access.Step(a, l), t)
  {
    StepInv(a, l);
    CommandsOnlyAppended(a, l);
    forall id | id in t.ops ensures KnownOp(Access.Step(a, l), t, id) {
      assert KnownOp(a, t, id);
      OperationsKept(a, l, id);
    }
  }

  /** A step either leaves a served profile as it is or installs the one it was told. */
  predicate ServesFrom(a: Credential, d: Credential, l: Access.Label) {
    Serving(d) ==>
      || (Serving(a) && d.version == a.version && d.endpoints == a.endpoints)
      || (l.OnOutcome? && l.event.payload.ProvisionDone? && l.event.payload.rev == d.version
          && d.endpoints == EndpointRows(l.event.payload.endpoints, d.version))
  }

  lemma StepServesFrom(a: Credential, l: Access.Label)
    ensures ServesFrom(a, Access.Step(a, l), l)
  {
    if l.OnOutcome? {
      var c := a.(cursor := l.event.seqNo, inbox := a.inbox[l.event.id := l.event]);
      if ApplyBody(c, l.event.payload, l.now, l.revokeOp).Ok? { BodyServesFrom(c, l.event.payload, l.now, l.revokeOp); }
    }
  }

  lemma BodyServesFrom(c: Credential, b: Body, now: Time, revokeOp: OpId)
    requires ApplyBody(c, b, now, revokeOp).Ok?
    ensures var d := ApplyBody(c, b, now, revokeOp).value;
            Serving(d) ==>
              || (Serving(c) && d.version == c.version && d.endpoints == c.endpoints)
              || (b.ProvisionDone? && b.rev == d.version && d.endpoints == EndpointRows(b.endpoints, d.version))
  {
    if b.ProvisionDone? && b.op in c.ops && c.status == Revoking && LateProvision(c, b).Ok? {
      assert LateProvision(c, b).value.status == Revoking;
    }
  }

  lemma AccessBacked(j: Joint, l: Access.Label, row: nat)
    requires JointInv(j) && Enabled(j, OnAccess(l, row))
    ensures RevokeBacked(Access.Step(j.a, l), j.w.t)
    ensures ProfileBacked(Access.Step(j.a, l), j.w.t)
  {
    var d, t := Access.Step(j.a, l), j.w.t;
    StepServesFrom(j.a, l);
    if d.status == Revoked {
      if j.a.status == Revoked {
        RevokedStep(j.a, l);
        assert d.version == j.a.version;
      } else {
        RevokedOnlyWithProof(j.a, l);
        assert RevokeRow(t.outbox[row].outcome, d.version);
      }
    }
    if Serving(d) && !(Serving(j.a) && d.version == j.a.version && d.endpoints == j.a.endpoints) {
      assert ProfileRow(t.outbox[row].outcome, d.version, d.endpoints);
    }
  }

  // ---- protocol steps ---------------------------------------------------------------------------

  /** Only a recorded command adds an operation. */
  lemma NewOperation(w: Pr.World, nodes: map<NodeId, P.Node>, l: Pr.Label, id: OpId)
    requires id in Pr.Step(w, nodes, l).w.t.ops && id !in w.t.ops
    ensures l.Record? && id == l.command.op
    ensures Pr.Step(w, nodes, l).w.t.ops[id].kind == l.command.kind
    ensures Pr.Step(w, nodes, l).w.t.ops[id].rev == l.command.rev
  {
  }

  lemma ProtocolBehind(a: Credential, w: Pr.World, nodes: map<NodeId, P.Node>, l: Pr.Label)
    requires AccessSafety.Inv(a) && w.t.lastSeq == w.t.lastRev && Behind(a, w.t)
    requires l.Record? ==> WasSent(a.sent, l.command)
    ensures Behind(a, Pr.Step(w, nodes, l).w.t)
  {
    var t' := Pr.Step(w, nodes, l).w.t;
    StepExtends(w, nodes, l);
    NewRevision(w, nodes, l);
    if l.Record? {
      var i :| 0 <= i < |a.sent| && a.sent[i] == Sent(l.command.op, l.command.kind, l.command.rev);
      assert CommandOk(a.ops, a.sent, i);
    }
    forall id | id in t'.ops ensures KnownOp(a, t', id) {
      if id in w.t.ops { assert KnownOp(a, w.t, id); } else { NewOperation(w, nodes, l, id); }
    }
  }

  lemma ProtocolBacked(a: Credential, t: P.Tables, t': P.Tables)
    requires Extends(t, t') && RevokeBacked(a, t) && ProfileBacked(a, t)
    ensures RevokeBacked(a, t') && ProfileBacked(a, t')
  {
    if a.status == Revoked {
      var i :| 0 <= i < |t.outbox| && RevokeRow(t.outbox[i].outcome, a.version);
      assert RevokeRow(t'.outbox[i].outcome, a.version);
    }
    if Serving(a) {
      var i :| 0 <= i < |t.outbox| && ProfileRow(t.outbox[i].outcome, a.version, a.endpoints);
      assert ProfileRow(t'.outbox[i].outcome, a.version, a.endpoints);
    }
  }

  // ---- every run --------------------------------------------------------------------------------

  lemma JointStepInv(j: Joint, l: JointLabel)
    requires JointInv(j)
    ensures JointInv(JointStep(j, l))
  {
    if Enabled(j, l) {
      match l
      case OnAccess(s, row) =>
        StepInv(j.a, s);
        AccessBehind(j.a, j.w.t, s);
        AccessBacked(j, s, row);
      case OnProtocol(nodes, s) =>
        StepKeepsInv(j.w, nodes, s);
        ProtocolBehind(j.a, j.w, nodes, s);
        StepExtends(j.w, nodes, s);
        ProtocolBacked(j.a, j.w.t, Pr.Step(j.w, nodes, s).w.t);
    }
  }

  lemma {:induction false} JointRunInv(op: OpId, until: Time, labels: seq<JointLabel>)
    ensures JointInv(JointRun(op, until, labels))
  {
    if labels == [] {
      AccessSafety.RunInv(op, until, []);
      F.RunInv([], 0);
    } else {
      JointRunInv(op, until, labels[..|labels| - 1]);
      JointStepInv(JointRun(op, until, labels[..|labels| - 1]), labels[|labels| - 1]);
    }
  }

  // ---- main results -----------------------------------------------------------------------------

  /**
   Revocation holds on the nodes.  In every run, whenever access shows the credential as
   revoked, no node stores it as present or runs it.
   */
  lemma RevokedMeansGone(op: OpId, until: Time, labels: seq<JointLabel>, n: NodeId)
    requires JointRun(op, until, labels).a.status == Revoked
    ensures var w := JointRun(op, until, labels).w;
            && (n in w.agents ==> w.agents[n].want == Absent)
            && (n in w.running ==> w.running[n].want == Absent)
  {
    JointRunInv(op, until, labels);
    var j := JointRun(op, until, labels);
    var i :| 0 <= i < |j.w.t.outbox| && RevokeRow(j.w.t.outbox[i].outcome, j.a.version);
    NewestIsVersion(j, i);
    assert forall id | id in j.w.t.ops :: PI.OpOk(j.w.t, j.w.t.ops[id]);
    assert PI.Quiet(j.w.t, j.a.version);
    AllRevokedAbsent(j.w, n);
  }

  lemma NewestIsVersion(j: Joint, i: nat)
    requires JointInv(j) && i < |j.w.t.outbox| && j.w.t.outbox[i].outcome.rev == j.a.version
    ensures j.w.t.lastRev == j.a.version
  {
    var o := j.w.t.outbox[i].outcome;
    assert PI.OutcomeOk(j.w.t, o) && PI.OpOk(j.w.t, j.w.t.ops[o.op]);
  }

  /**
   Served profiles are real.  In every run, while access serves the credential, every endpoint
   of its profile is on a node whose agent stores it as present at exactly the current version.
   */
  lemma ServedMeansInstalled(op: OpId, until: Time, labels: seq<JointLabel>, n: NodeId)
    requires Serving(JointRun(op, until, labels).a) && n in JointRun(op, until, labels).a.endpoints
    ensures var j := JointRun(op, until, labels);
            && n in j.w.agents && j.w.agents[n].want == Present && j.w.agents[n].rev == j.a.version
  {
    JointRunInv(op, until, labels);
    var j := JointRun(op, until, labels);
    var i :| 0 <= i < |j.w.t.outbox| && ProfileRow(j.w.t.outbox[i].outcome, j.a.version, j.a.endpoints);
    NewestIsVersion(j, i);
    var es := j.w.t.outbox[i].outcome.endpoints;
    RowKeys(es, j.a.version, n);
    var k :| 0 <= k < |es| && es[k].node == n;
    BackedPresent(j.w, i, k);
  }

  lemma {:induction false} RowKeys(es: seq<Endpoint>, rev: nat, n: NodeId)
    requires n in EndpointRows(es, rev)
    ensures exists k :: 0 <= k < |es| && es[k].node == n
  {
    if es[|es| - 1].node != n {
      RowKeys(es[..|es| - 1], rev, n);
      var k :| 0 <= k < |es| - 1 && es[..|es| - 1][k].node == n;
      assert es[k].node == n;
    }
  }
}
