/** Between access and provisioning, each side has applied a prefix of what the other wrote. */
module JointStreams {
  import opened Common
  import opened OrderedInbox
  import opened StoreInboxes
  import A = Access
  import AccessSafety
  import AccessTheorems
  import P = Provisioning
  import Pr = Protocol
  import PI = ProtocolInvariant
  import Fleet
  import opened EndToEnd

  /** A recorded outcome is the outbox row of its sequence. */
  predicate OutcomeFrom(t: P.Tables, e: A.OutcomeEvent) {
    1 <= e.seqNo <= |t.outbox| && Reports(e, t.outbox[e.seqNo - 1])
  }

  /** A recorded command is the one access sent under its sequence. */
  predicate CommandFrom(a: A.Credential, k: P.Command) {
    1 <= k.seqNo <= |a.sent| && a.sent[k.seqNo - 1] == A.Sent(k.op, k.kind, k.rev)
  }

  ghost predicate Streams(j: Joint) {
    && OutcomesOk(j.a) && CommandsOk(j.w.t)
    && (forall id | id in j.a.inbox :: OutcomeFrom(j.w.t, j.a.inbox[id]))
    && (forall id | id in j.w.t.inbox :: CommandFrom(j.a, j.w.t.inbox[id]))
  }

  lemma OutcomeStays(t: P.Tables, t': P.Tables, e: A.OutcomeEvent)
    requires OutcomeFrom(t, e) && Fleet.Extends(t, t') && PI.OutboxOk(t) && PI.OutboxOk(t')
    ensures OutcomeFrom(t', e)
  {
    assert t'.outbox[e.seqNo - 1].outcome == t.outbox[e.seqNo - 1].outcome;
  }

  lemma AccessStreams(j: Joint, l: A.Label, row: nat)
    requires PI.OutboxOk(j.w.t) && Streams(j) && Enabled(j, OnAccess(l, row))
    ensures Streams(j.(a := A.Step(j.a, l)))
  {
    var d := A.Step(j.a, l);
    StepOutcomesOk(j.a, l);
    OutcomeStep(j.a, l);
    AccessTheorems.CommandsOnlyAppended(j.a, l);
    forall id | id in d.inbox ensures OutcomeFrom(j.w.t, d.inbox[id]) {
      if id in j.a.inbox && d.inbox[id] == j.a.inbox[id] { assert OutcomeFrom(j.w.t, j.a.inbox[id]); }
    }
    forall id | id in j.w.t.inbox ensures CommandFrom(d, j.w.t.inbox[id]) {
      SentStays(j.a, d, j.w.t.inbox[id]);
    }
  }

  lemma SentStays(a: A.Credential, d: A.Credential, k: P.Command)
    requires CommandFrom(a, k) && a.sent <= d.sent
    ensures CommandFrom(d, k)
  {
  }

  lemma ProtocolStreams(j: Joint, nodes: map<NodeId, P.Node>, l: Pr.Label)
    requires JointInv(j) && Streams(j) && Enabled(j, OnProtocol(nodes, l))
    ensures Streams(j.(w := Pr.Step(j.w, nodes, l).w))
  {
    var t, t' := j.w.t, Pr.Step(j.w, nodes, l).w.t;
    StepCommandsOk(j.w, nodes, l);
    CommandStep(j.w, nodes, l);
    Fleet.StepExtends(j.w, nodes, l);
    Fleet.StepKeepsInv(j.w, nodes, l);
    forall id | id in j.a.inbox ensures OutcomeFrom(t', j.a.inbox[id]) { OutcomeStays(t, t', j.a.inbox[id]); }
    forall id | id in t'.inbox ensures CommandFrom(j.a, t'.inbox[id]) {
      if id !in t.inbox { NewCommandSent(j.a, l.command); }
    }
  }

  /** Commands carry their revision as sequence, so a sent command sits at its own position. */
  lemma NewCommandSent(a: A.Credential, k: P.Command)
    requires AccessSafety.Inv(a) && WasSent(a.sent, k) && k.seqNo == k.rev
    ensures CommandFrom(a, k)
  {
    var i :| 0 <= i < |a.sent| && a.sent[i] == A.Sent(k.op, k.kind, k.rev);
    assert AccessSafety.CommandOk(a.ops, a.sent, i);
  }

  /**
   In every joint run, access applied exactly the first rows of the provisioning outbox and
   provisioning recorded exactly the first commands of access, one each and in order.
   */
  lemma {:induction false} RunStreams(op: OpId, until: Time, labels: seq<JointLabel>)
    ensures Streams(JointRun(op, until, labels))
    ensures var j := JointRun(op, until, labels);
            j.a.cursor <= |j.w.t.outbox| && j.w.t.lastSeq <= |j.a.sent|
  {
    if labels != [] {
      var init, l := labels[..|labels| - 1], labels[|labels| - 1];
      var j := JointRun(op, until, init);
      RunStreams(op, until, init);
      JointRunInv(op, until, init);
      if Enabled(j, l) {
        match l
        case OnAccess(s, row) => AccessStreams(j, s, row);
        case OnProtocol(nodes, s) => ProtocolStreams(j, nodes, s);
      }
    }
    Bounds(JointRun(op, until, labels));
  }

  lemma Bounds(j: Joint)
    requires Streams(j)
    ensures j.a.cursor <= |j.w.t.outbox| && j.w.t.lastSeq <= |j.a.sent|
  {
    if j.a.cursor >= 1 {
      assert Held(j.a.inbox, j.a.cursor);
      var id :| id in j.a.inbox && j.a.inbox[id].seqNo == j.a.cursor;
      assert OutcomeFrom(j.w.t, j.a.inbox[id]);
    }
    if j.w.t.lastSeq >= 1 {
      assert Held(Commands(j.w.t), j.w.t.lastSeq);
      var id :| id in Commands(j.w.t) && Commands(j.w.t)[id].seqNo == j.w.t.lastSeq;
      assert CommandFrom(j.a, j.w.t.inbox[id]);
    }
  }
}
