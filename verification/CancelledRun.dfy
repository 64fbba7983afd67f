/**
 A run in which access rejects a correct revoke proof: the subscription is cancelled after
 provisioning placed the credential but before any success event was written.
 */
module CancelledRun {
  import opened Common
  import opened Provisioning
  import Pr = Protocol
  import PI = ProtocolInvariant
  import Fleet
  import Access
  import opened EndToEnd
  import opened RevokeAcceptance

  const UNTIL: Time := 100
  const FIRST := Claim(10, Provision, 1, 1, 3)
  const SECOND := Claim(20, Revoke, 2, 1, 3)
  const IDLE := Node(Serving, 0, 10, 20, 0, Some(0))
  const NODES: map<NodeId, Node> := map[1 := IDLE, 2 := IDLE]

  function Removal(n: NodeId): Pr.Request {
    Pr.Request(20, n, 2, Absent)
  }

  function Row(n: NodeId, s: AllocState): Alloc {
    Alloc(20, n, 2, Absent, 1, s)
  }

  lemma Extend(labels: seq<JointLabel>, l: JointLabel)
    ensures JointRun(10, UNTIL, labels + [l]) == JointStep(JointRun(10, UNTIL, labels), l)
  {
    assert (labels + [l])[..|labels|] == labels;
  }

  predicate Placed(j: Joint) {
    && j.a == Access.NewCredential(10, UNTIL)
    && j.w.t.inbox.Keys == {1} && j.w.t.lastSeq == 1 && j.w.t.lastRev == 1
    && j.w.t.ops == map[10 := Op(Provision, 1, 1, Processing, 1, 3, 1)] && FIRST in j.w.claims
    && Pr.Request(10, 1, 1, Present) in j.w.requests && Pr.Request(10, 2, 1, Present) in j.w.requests
    && j.w.t.allocs == map[Primary := NewAlloc(FIRST, 1), Failover := NewAlloc(FIRST, 2)]
    && j.w.t.outcomeSeq == 0 && j.w.t.outbox == [] && j.w.agents == map[] && j.w.journal == {}
  }

  predicate Claimed(j: Joint) {
    && j.a == Access.NewCredential(10, UNTIL)
    && j.w.t.inbox.Keys == {1} && j.w.t.lastSeq == 1 && j.w.t.lastRev == 1
    && j.w.t.ops == map[10 := Op(Provision, 1, 1, Processing, 1, 3, 0)] && FIRST in j.w.claims
    && j.w.t.allocs == map[] && j.w.t.outcomeSeq == 0 && j.w.t.outbox == [] && j.w.agents == map[] && j.w.journal == {}
  }

  lemma ClaimFirst() returns (labels: seq<JointLabel>)
    ensures Claimed(JointRun(10, UNTIL, labels))
  {
    var l1 := OnProtocol(NODES, Pr.Record(1, Command(10, Provision, 1, 1, 0), 3));
    var l2 := OnProtocol(NODES, Pr.ClaimOp(10));
    Extend([], l1);
    var j1 := JointRun(10, UNTIL, [] + [l1]);
    assert Access.NewCredential(10, UNTIL).sent[0] == Access.Sent(10, Provision, 1);
    assert j1.w.t.ops == map[10 := Op(Provision, 1, 1, Pending, 0, 3, 0)];
    Extend([] + [l1], l2);
    labels := [] + [l1] + [l2];
  }

  lemma PlaceFirst() returns (labels: seq<JointLabel>)
    ensures Placed(JointRun(10, UNTIL, labels))
  {
    var first := ClaimFirst();
    var l := OnProtocol(NODES, Pr.Ensure(FIRST, Placement(0, 1, 1, 50), 0, [1, 2]));
    CeilingsAgree(IDLE, 0, 0);
    assert ValidPick(NODES, 0, 0, [1, 2]);
    labels := first + [l];
    Extend(first, l);
    var rows := List(JointRun(10, UNTIL, labels).w.t);
    assert rows[0].alloc.node == 1 && rows[1].alloc.node == 2;
  }

  predicate Cancelled(j: Joint) {
    && j.a.status == Access.Revoking && j.a.version == 2 && j.a.allocRev == 0 && j.a.cursor == 0 && j.a.ops.Keys == {10, 20}
    && j.w.t.lastRev == 2
    && j.w.t.ops.Keys == {10, 20} && j.w.t.ops[10].state == Superseded
    && j.w.t.ops[20] == Op(Revoke, 2, 2, Pending, 0, 3, 0)
    && j.w.t.allocs == map[Primary := Row(1, Unapplied), Failover := Row(2, Unapplied)]
    && j.w.t.outbox == [] && j.w.agents == map[] && j.w.journal == {}
  }

  lemma Cancel(labels: seq<JointLabel>) returns (longer: seq<JointLabel>)
    requires Placed(JointRun(10, UNTIL, labels))
    ensures Cancelled(JointRun(10, UNTIL, longer))
  {
    var l1 := OnAccess(Access.OnTerminal(20, false, 0), 0);
    var l2 := OnProtocol(NODES, Pr.Record(2, Command(20, Revoke, 2, 2, 0), 3));
    Extend(labels, l1);
    var j := JointRun(10, UNTIL, labels + [l1]);
    assert j.a.sent[1] == Access.Sent(20, Revoke, 2);
    longer := labels + [l1] + [l2];
    Extend(labels + [l1], l2);
    RecordCancel(j);
  }

  lemma RecordCancel(j: Joint)
    requires j.a.status == Access.Revoking && j.a.version == 2 && j.a.allocRev == 0 && j.a.cursor == 0 && j.a.ops.Keys == {10, 20}
    requires |j.a.sent| == 2 && j.a.sent[1] == Access.Sent(20, Revoke, 2)
    requires Placed(Joint(Access.NewCredential(10, UNTIL), j.w))
    ensures Cancelled(JointStep(j, OnProtocol(NODES, Pr.Record(2, Command(20, Revoke, 2, 2, 0), 3))))
  {
  }

  predicate Removing(j: Joint) {
    && j.a.status == Access.Revoking && j.a.version == 2 && j.a.allocRev == 0 && j.a.cursor == 0 && j.a.ops.Keys == {10, 20}
    && j.w.t.lastRev == 2 && 20 in j.w.t.ops
    && j.w.t.ops[20] == Op(Revoke, 2, 2, Processing, 1, 3, 0)
    && j.w.t.outbox == [] && SECOND in j.w.claims
  }

  lemma Claim20(labels: seq<JointLabel>) returns (longer: seq<JointLabel>)
    requires Cancelled(JointRun(10, UNTIL, labels))
    ensures var j := JointRun(10, UNTIL, longer);
            && Removing(j) && j.w.t.allocs == map[Primary := Row(1, Unapplied), Failover := Row(2, Unapplied)]
            && Removal(1) in j.w.requests && Removal(2) in j.w.requests
            && j.w.agents == map[] && j.w.journal == {}
  {
    var l1 := OnProtocol(NODES, Pr.ClaimOp(20));
    var l2 := OnProtocol(NODES, Pr.ListRows(SECOND));
    Extend(labels, l1);
    var j := JointRun(10, UNTIL, labels + [l1]);
    assert SECOND in j.w.claims;
    var rows := List(j.w.t);
    assert rows == [Listed(Primary, Row(1, Unapplied)), Listed(Failover, Row(2, Unapplied))];
    longer := labels + [l1] + [l2];
    Extend(labels + [l1], l2);
    assert rows[0].alloc.node == 1 && rows[1].alloc.node == 2;
  }

  lemma Confirm(labels: seq<JointLabel>) returns (longer: seq<JointLabel>)
    requires var j := JointRun(10, UNTIL, labels);
             && Removing(j) && j.w.t.allocs == map[Primary := Row(1, Unapplied), Failover := Row(2, Unapplied)]
             && Removal(1) in j.w.requests && Removal(2) in j.w.requests
             && j.w.agents == map[] && j.w.journal == {}
    ensures var j := JointRun(10, UNTIL, longer);
            && Removing(j) && j.w.t.allocs == map[Primary := Row(1, Revoked), Failover := Row(2, Revoked)]
  {
    var l1 := OnProtocol(NODES, Pr.AgentApply(Removal(1), Pr.Persisted(true)));
    var l2 := OnProtocol(NODES, Pr.AgentApply(Removal(2), Pr.Persisted(true)));
    Extend(labels, l1);
    Extend(labels + [l1], l2);
    var j := JointRun(10, UNTIL, labels + [l1] + [l2]);
    assert Removal(1) in j.w.acks && Removal(2) in j.w.acks;
    longer := MarkBoth(labels + [l1] + [l2]);
  }

  lemma Mark(j: Joint, r: Role, n: NodeId)
    requires Removing(j) && Removal(n) in j.w.acks && r in j.w.t.allocs && j.w.t.allocs[r] == Row(n, Unapplied)
    ensures var j' := JointStep(j, OnProtocol(NODES, Pr.MarkRevoked(Removal(n), r)));
            Removing(j') && j'.w.acks == j.w.acks && j'.w.t.allocs == j.w.t.allocs[r := Row(n, Revoked)]
  {
  }

  lemma MarkBoth(labels: seq<JointLabel>) returns (longer: seq<JointLabel>)
    requires var j := JointRun(10, UNTIL, labels);
             && Removing(j) && j.w.t.allocs == map[Primary := Row(1, Unapplied), Failover := Row(2, Unapplied)]
             && Removal(1) in j.w.acks && Removal(2) in j.w.acks
    ensures var j := JointRun(10, UNTIL, longer);
            && Removing(j) && j.w.t.allocs == map[Primary := Row(1, Revoked), Failover := Row(2, Revoked)]
  {
    var l1 := OnProtocol(NODES, Pr.MarkRevoked(Removal(1), Primary));
    var l2 := OnProtocol(NODES, Pr.MarkRevoked(Removal(2), Failover));
    var j := JointRun(10, UNTIL, labels);
    Extend(labels, l1);
    Mark(j, Primary, 1);
    Extend(labels + [l1], l2);
    Mark(JointRun(10, UNTIL, labels + [l1]), Failover, 2);
    longer := labels + [l1] + [l2];
    assert JointRun(10, UNTIL, longer).w.t.allocs.Keys == {Primary, Failover};
  }

  const ROWS := [Listed(Primary, Row(1, Revoked)), Listed(Failover, Row(2, Revoked))]

  lemma ReportedEvent()
    ensures RevokeEvent(SECOND, ROWS) == Ok(RevokeSucceeded(20, 2, 1, {1, 2}))
  {
    assert ROWS[..1][..0] == [] && ROWS[..1][0] == ROWS[0];
    assert MaxAllocRev(ROWS[..1][..0]) == 0 && MaxAllocRev(ROWS[..1]) == 1 && MaxAllocRev(ROWS) == 1;
    assert ROWS[0].alloc.node == 1 && ROWS[1].alloc.node == 2;
    assert NodesOf(ROWS) == {1, 2};
  }

  predicate Reported(j: Joint) {
    && j.a.status == Access.Revoking && j.a.version == 2 && j.a.allocRev == 0 && j.a.cursor == 0 && j.a.ops.Keys == {10, 20}
    && j.w.t.lastRev == 2
    && |j.w.t.outbox| == 1 && j.w.t.outbox[0].outcome == RevokeSucceeded(20, 2, 1, {1, 2})
  }

  lemma Finish(j: Joint)
    requires Removing(j) && Pr.Listing(SECOND, ROWS) in j.w.listings
    ensures Reported(JointStep(j, OnProtocol(NODES, Pr.FinishRevoke(Pr.Listing(SECOND, ROWS)))))
  {
    ReportedEvent();
  }

  lemma Report(labels: seq<JointLabel>) returns (longer: seq<JointLabel>)
    requires Removing(JointRun(10, UNTIL, labels))
    requires JointRun(10, UNTIL, labels).w.t.allocs == map[Primary := Row(1, Revoked), Failover := Row(2, Revoked)]
    ensures Reported(JointRun(10, UNTIL, longer))
  {
    var l1 := OnProtocol(NODES, Pr.ListRows(SECOND));
    var l2 := OnProtocol(NODES, Pr.FinishRevoke(Pr.Listing(SECOND, ROWS)));
    assert List(JointRun(10, UNTIL, labels).w.t) == ROWS;
    Extend(labels, l1);
    Finish(JointRun(10, UNTIL, labels + [l1]));
    Extend(labels + [l1], l2);
    longer := labels + [l1] + [l2];
  }

  lemma ReportedRun() returns (labels: seq<JointLabel>)
    ensures Reported(JointRun(10, UNTIL, labels))
  {
    labels := PlaceFirst();
    labels := Cancel(labels);
    labels := Claim20(labels);
    labels := Confirm(labels);
    labels := Report(labels);
  }

  /** The node neither stores the credential as present nor runs it. */
  predicate Clean(w: Pr.World, n: NodeId) {
    (n in w.agents ==> w.agents[n].want == Absent) && (n in w.running ==> w.running[n].want == Absent)
  }

  lemma ReportedMeansClean(labels: seq<JointLabel>, n: NodeId)
    requires Reported(JointRun(10, UNTIL, labels))
    ensures Clean(JointRun(10, UNTIL, labels).w, n)
  {
    var j := JointRun(10, UNTIL, labels);
    JointRunInv(10, UNTIL, labels);
    assert forall id | id in j.w.t.ops :: PI.OpOk(j.w.t, j.w.t.ops[id]);
    assert PI.Quiet(j.w.t, 2);
    Fleet.AllRevokedAbsent(j.w, n);
  }

  /**
   The nodes are clean and provisioning says so, yet access cannot mark the credential
   revoked: it recorded no allocation, while provisioning reports allocation revision 1.
   */
  lemma RejectedProof(e: Access.OutcomeEvent, now: Time, spare: OpId) returns (labels: seq<JointLabel>)
    ensures var j := JointRun(10, UNTIL, labels);
            && |j.w.t.outbox| == 1 && j.w.t.outbox[0].outcome == RevokeSucceeded(20, 2, 1, {1, 2})
            && (forall n: NodeId :: Clean(j.w, n))
            && j.a.status == Access.Revoking && j.a.version == 2 && j.w.t.lastRev == 2
            && (Reports(e, j.w.t.outbox[0]) ==> Access.Step(j.a, Access.OnOutcome(e, now, spare)).status == Access.Revoking)
  {
    labels := ReportedRun();
    forall n: NodeId ensures Clean(JointRun(10, UNTIL, labels).w, n) { ReportedMeansClean(labels, n); }
  }
}
