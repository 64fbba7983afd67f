/**
 A whole life of a credential between access and provisioning: placed, installed on both nodes,
 served, cancelled, removed from both nodes and revoked.
 */
module ServedRun {
  import opened Common
  import opened Provisioning
  import opened ProvisioningEffects
  import Pr = Protocol
  import Access
  import OI = OrderedInbox
  import opened EndToEnd
  import opened CancelledRun
  import RevokeAcceptance

  function Addition(n: NodeId): Pr.Request {
    Pr.Request(10, n, 1, Present)
  }

  function Bound(n: NodeId, s: AllocState): Alloc {
    Alloc(10, n, 1, Present, 1, s)
  }

  // ---- provisioning ---------------------------------------------------------------------------------

  /** The first operation is being processed, and nothing was reported yet. */
  predicate Working(j: Joint) {
    && j.a == Access.NewCredential(10, UNTIL)
    && j.w.t.inbox.Keys == {1} && j.w.t.lastSeq == 1 && j.w.t.lastRev == 1 && j.w.t.outcomeSeq == 0 && j.w.t.outbox == []
    && j.w.t.ops == map[10 := Op(Provision, 1, 1, Processing, 1, 3, 1)] && FIRST in j.w.claims
  }

  predicate Rows(j: Joint, r: Role, n: NodeId, s: AllocState) {
    r in j.w.t.allocs && j.w.t.allocs[r] == Bound(n, s)
  }

  lemma Added(j: Joint, n: NodeId)
    requires Working(j) && Addition(n) in j.w.requests && n !in j.w.agents && forall q | q in j.w.journal :: q.node != n
    ensures var j' := JointStep(j, OnProtocol(NODES, Pr.AgentApply(Addition(n), Pr.Persisted(true))));
            && Working(j') && j'.w.t == j.w.t && j'.w.acks == j.w.acks + {Addition(n)} && j'.w.requests == j.w.requests
            && j'.w.agents == j.w.agents[n := Addition(n)] && j'.w.journal == j.w.journal + {Addition(n)}
            && j'.w.listings == j.w.listings
  {
  }

  lemma Applied(j: Joint, r: Role, n: NodeId)
    requires Working(j) && Addition(n) in j.w.acks && Rows(j, r, n, Unapplied)
    ensures var j' := JointStep(j, OnProtocol(NODES, Pr.MarkApplied(Addition(n), r)));
            && Working(j') && j'.w.t.allocs == j.w.t.allocs[r := Bound(n, Active)] && j'.w.acks == j.w.acks
            && j'.w.agents == j.w.agents && j'.w.journal == j.w.journal
  {
  }

  predicate OnNodes(j: Joint) {
    j.w.agents == map[1 := Addition(1), 2 := Addition(2)] && j.w.journal == {Addition(1), Addition(2)}
  }

  lemma InstallBoth() returns (labels: seq<JointLabel>)
    ensures var j := JointRun(10, UNTIL, labels);
            && Working(j) && OnNodes(j) && Addition(1) in j.w.acks && Addition(2) in j.w.acks
            && j.w.t.allocs == map[Primary := Bound(1, Unapplied), Failover := Bound(2, Unapplied)]
  {
    var first := PlaceFirst();
    var l1 := OnProtocol(NODES, Pr.AgentApply(Addition(1), Pr.Persisted(true)));
    var l2 := OnProtocol(NODES, Pr.AgentApply(Addition(2), Pr.Persisted(true)));
    Extend(first, l1);
    Added(JointRun(10, UNTIL, first), 1);
    Extend(first + [l1], l2);
    Added(JointRun(10, UNTIL, first + [l1]), 2);
    labels := first + [l1] + [l2];
  }

  lemma ApplyBoth() returns (labels: seq<JointLabel>)
    ensures var j := JointRun(10, UNTIL, labels);
            && Working(j) && OnNodes(j) && j.w.t.allocs == map[Primary := Bound(1, Active), Failover := Bound(2, Active)]
  {
    var first := InstallBoth();
    var l1 := OnProtocol(NODES, Pr.MarkApplied(Addition(1), Primary));
    var l2 := OnProtocol(NODES, Pr.MarkApplied(Addition(2), Failover));
    Extend(first, l1);
    Applied(JointRun(10, UNTIL, first), Primary, 1);
    Extend(first + [l1], l2);
    Applied(JointRun(10, UNTIL, first + [l1]), Failover, 2);
    labels := first + [l1] + [l2];
    assert JointRun(10, UNTIL, labels).w.t.allocs.Keys == {Primary, Failover};
  }

  const ACTIVE := [Listed(Primary, Bound(1, Active)), Listed(Failover, Bound(2, Active))]
  const ENDPOINTS := [Endpoint(1, Primary), Endpoint(2, Failover)]
  const READY := ProvisionSucceeded(10, 1, FullyReady, {1, 2}, ENDPOINTS)

  lemma ReadyEvent()
    ensures ProvisionEvent(FIRST, FullyReady, ACTIVE) == Ok(READY)
  {
    ProvisionEventMeans(FIRST, FullyReady, ACTIVE);
  }

  /** The success is written and access has not seen it yet. */
  predicate Announced(j: Joint) {
    && j.a == Access.NewCredential(10, UNTIL) && OnNodes(j)
    && j.w.t.inbox.Keys == {1} && j.w.t.lastSeq == 1 && j.w.t.lastRev == 1
    && j.w.t.ops == map[10 := Op(Provision, 1, 1, Succeeded, 1, 3, 1)]
    && j.w.t.outcomeSeq == 1 && j.w.t.outbox == [OutboxRow(1, READY, Waiting, 0)]
    && j.w.t.allocs == map[Primary := Bound(1, Active), Failover := Bound(2, Active)]
  }

  lemma Announce() returns (labels: seq<JointLabel>)
    ensures Announced(JointRun(10, UNTIL, labels))
  {
    var first := ApplyBoth();
    var l1 := OnProtocol(NODES, Pr.ListRows(FIRST));
    var l2 := OnProtocol(NODES, Pr.FinishProvision(Pr.Listing(FIRST, ACTIVE), FullyReady));
    Extend(first, l1);
    assert List(JointRun(10, UNTIL, first).w.t) == ACTIVE;
    Extend(first + [l1], l2);
    ReadyEvent();
    labels := first + [l1] + [l2];
  }

  // ---- served ---------------------------------------------------------------------------------------

  const DONE := Access.ProvisionDone(10, 1, FullyReady, [1, 2], ENDPOINTS)
  const ARRIVES: Access.OutcomeEvent := OI.Event(50, 1, DONE)

  lemma DoneReportsReady()
    ensures Access.ValidBody(DONE) && Reports(ARRIVES, OutboxRow(1, READY, Waiting, 0))
  {
    assert [1, 2][0] == 1 && [1, 2][1] == 2;
    assert Access.Elements([1, 2]) == {1, 2};
    RevokeAcceptance.CountTwo(ENDPOINTS);
  }

  predicate ServedNow(a: Access.Credential) {
    && a.status == Access.Active && a.version == 1 && a.allocRev == 1 && a.cursor == 1 && a.inbox.Keys == {50}
    && a.ops == map[10 := Access.AccessOp(Provision, 1, Access.Done, None)] && a.sent == [Access.Sent(10, Provision, 1)]
    && a.snapshots == map[1 := {1, 2}] && a.endpoints.Keys == {1, 2}
  }

  lemma EndpointKeys()
    ensures Access.EndpointRows(ENDPOINTS, 1).Keys == {1, 2} && Access.Elements([1, 2]) == {1, 2}
  {
    assert [1, 2][0] == 1 && [1, 2][1] == 2;
    assert ENDPOINTS[..1][..0] == [] && ENDPOINTS[..1] == [Endpoint(1, Primary)];
    assert Access.EndpointRows(ENDPOINTS[..1], 1).Keys == {1};
  }

  /** What the success leaves of the rows, with the event noted. */
  lemma SuccessRows(c: Access.Credential)
    requires c == Access.NewCredential(10, UNTIL).(cursor := 1, inbox := map[50 := ARRIVES])
    ensures var r := Access.ApplyProvisionDone(c, DONE, 0, 30); r.Ok? && ServedNow(r.value)
  {
    EndpointKeys();
  }

  lemma Served(a: Access.Credential)
    requires a == Access.NewCredential(10, UNTIL)
    ensures ServedNow(Access.Step(a, Access.OnOutcome(ARRIVES, 0, 30)))
  {
    DoneReportsReady();
    SuccessRows(a.(cursor := 1, inbox := map[50 := ARRIVES]));
    assert a.inbox[50 := ARRIVES] == map[50 := ARRIVES];
  }

  predicate StillAnnounced(w: Pr.World) {
    && w.agents == map[1 := Addition(1), 2 := Addition(2)] && w.journal == {Addition(1), Addition(2)}
    && w.t.inbox.Keys == {1} && w.t.lastSeq == 1 && w.t.lastRev == 1
    && w.t.ops == map[10 := Op(Provision, 1, 1, Succeeded, 1, 3, 1)]
    && w.t.outcomeSeq == 1 && w.t.outbox == [OutboxRow(1, READY, Waiting, 0)]
    && w.t.allocs == map[Primary := Bound(1, Active), Failover := Bound(2, Active)]
  }

  lemma Serve() returns (labels: seq<JointLabel>)
    ensures ServedNow(JointRun(10, UNTIL, labels).a) && StillAnnounced(JointRun(10, UNTIL, labels).w)
  {
    var first := Announce();
    var l := OnAccess(Access.OnOutcome(ARRIVES, 0, 30), 0);
    Extend(first, l);
    DoneReportsReady();
    Served(JointRun(10, UNTIL, first).a);
    labels := first + [l];
  }

  // ---- revoked --------------------------------------------------------------------------------------

  /** Access waits for the proof of the cancelled credential. */
  predicate Ending(a: Access.Credential) {
    && a.status == Access.Revoking && a.version == 2 && a.allocRev == 1 && a.cursor == 1 && a.inbox.Keys == {50}
    && a.ops == map[10 := Access.AccessOp(Provision, 1, Access.Done, None), 20 := Access.AccessOp(Revoke, 2, Access.Open, Some(1))]
    && a.sent == [Access.Sent(10, Provision, 1), Access.Sent(20, Revoke, 2)] && a.snapshots == map[1 := {1, 2}]
  }

  /** The revoke is being processed, and its rows are in these states. */
  predicate BothRemoving(j: Joint, s: AllocState, s': AllocState) {
    && Ending(j.a)
    && j.w.t.lastRev == 2 && 20 in j.w.t.ops && j.w.t.ops[20] == Op(Revoke, 2, 2, Processing, 1, 3, 0)
    && j.w.t.outcomeSeq == 1 && j.w.t.outbox == [OutboxRow(1, READY, Waiting, 0)] && SECOND in j.w.claims
    && j.w.t.allocs == map[Primary := Row(1, s), Failover := Row(2, s')]
  }

  lemma End() returns (labels: seq<JointLabel>)
    ensures var j := JointRun(10, UNTIL, labels);
            Ending(j.a) && StillAnnounced(j.w)
  {
    var first := Serve();
    var l := OnAccess(Access.OnTerminal(20, false, 0), 0);
    Extend(first, l);
    labels := first + [l];
  }

  lemma RecordEnd() returns (labels: seq<JointLabel>)
    ensures var j := JointRun(10, UNTIL, labels);
            && Ending(j.a) && OnNodes(j) && j.w.t.lastRev == 2 && j.w.t.outcomeSeq == 1 && j.w.t.outbox == [OutboxRow(1, READY, Waiting, 0)]
            && j.w.t.ops == map[10 := Op(Provision, 1, 1, Succeeded, 1, 3, 1), 20 := Op(Revoke, 2, 2, Pending, 0, 3, 0)]
            && j.w.t.allocs == map[Primary := Row(1, Active), Failover := Row(2, Active)]
  {
    var first := End();
    var l := OnProtocol(NODES, Pr.Record(2, Command(20, Revoke, 2, 2, 0), 3));
    Extend(first, l);
    RecordedEnd(JointRun(10, UNTIL, first));
    labels := first + [l];
  }

  lemma RecordedEnd(j: Joint)
    requires Ending(j.a) && StillAnnounced(j.w)
    ensures var j' := JointStep(j, OnProtocol(NODES, Pr.Record(2, Command(20, Revoke, 2, 2, 0), 3)));
            && j'.a == j.a && OnNodes(j') && j'.w.t.lastRev == 2 && j'.w.t.outcomeSeq == 1 && j'.w.t.outbox == j.w.t.outbox
            && j'.w.t.ops == map[10 := Op(Provision, 1, 1, Succeeded, 1, 3, 1), 20 := Op(Revoke, 2, 2, Pending, 0, 3, 0)]
            && j'.w.t.allocs == map[Primary := Row(1, Active), Failover := Row(2, Active)]
  {
    assert j.a.sent[1] == Access.Sent(20, Revoke, 2);
    RecordedRows(j.w.t);
  }

  lemma RecordedRows(t: Tables)
    requires t.inbox.Keys == {1} && t.lastSeq == 1 && t.lastRev == 1 && t.ops == map[10 := Op(Provision, 1, 1, Succeeded, 1, 3, 1)]
    requires t.allocs == map[Primary := Bound(1, Active), Failover := Bound(2, Active)]
    ensures var r := ProcessCommand(t, 2, Command(20, Revoke, 2, 2, 0), 3);
            && r.Ok? && r.value.lastRev == 2 && r.value.outcomeSeq == t.outcomeSeq && r.value.outbox == t.outbox
            && r.value.ops == map[10 := Op(Provision, 1, 1, Succeeded, 1, 3, 1), 20 := Op(Revoke, 2, 2, Pending, 0, 3, 0)]
            && r.value.allocs == map[Primary := Row(1, Active), Failover := Row(2, Active)]
  {
  }

  lemma StartRemoval() returns (labels: seq<JointLabel>)
    ensures var j := JointRun(10, UNTIL, labels);
            && BothRemoving(j, Active, Active) && OnNodes(j) && Removal(1) in j.w.requests && Removal(2) in j.w.requests
  {
    var first := RecordEnd();
    var l1 := OnProtocol(NODES, Pr.ClaimOp(20));
    var l2 := OnProtocol(NODES, Pr.ListRows(SECOND));
    Extend(first, l1);
    var j := JointRun(10, UNTIL, first + [l1]);
    assert SECOND in j.w.claims;
    var rows := List(j.w.t);
    assert rows == [Listed(Primary, Row(1, Active)), Listed(Failover, Row(2, Active))];
    Extend(first + [l1], l2);
    assert rows[0].alloc.node == 1 && rows[1].alloc.node == 2;
    labels := first + [l1] + [l2];
  }

  lemma RemoveBoth() returns (labels: seq<JointLabel>)
    ensures var j := JointRun(10, UNTIL, labels);
            BothRemoving(j, Active, Active) && Removal(1) in j.w.acks && Removal(2) in j.w.acks
  {
    var first := StartRemoval();
    var l1 := OnProtocol(NODES, Pr.AgentApply(Removal(1), Pr.Persisted(true)));
    var l2 := OnProtocol(NODES, Pr.AgentApply(Removal(2), Pr.Persisted(true)));
    Extend(first, l1);
    Extend(first + [l1], l2);
    labels := first + [l1] + [l2];
  }

  lemma Gone(j: Joint, r: Role, n: NodeId)
    requires Removal(n) in j.w.acks && r in j.w.t.allocs && j.w.t.allocs[r] == Row(n, Active)
    requires 20 in j.w.t.ops && j.w.t.ops[20] == Op(Revoke, 2, 2, Processing, 1, 3, 0)
    ensures var j' := JointStep(j, OnProtocol(NODES, Pr.MarkRevoked(Removal(n), r)));
            j'.a == j.a && j'.w == j.w.(t := j.w.t.(allocs := j.w.t.allocs[r := Row(n, Revoked)]))
  {
  }

  lemma MarkGone() returns (labels: seq<JointLabel>)
    ensures BothRemoving(JointRun(10, UNTIL, labels), Revoked, Revoked)
  {
    var first := RemoveBoth();
    var l1 := OnProtocol(NODES, Pr.MarkRevoked(Removal(1), Primary));
    var l2 := OnProtocol(NODES, Pr.MarkRevoked(Removal(2), Failover));
    Extend(first, l1);
    Gone(JointRun(10, UNTIL, first), Primary, 1);
    Extend(first + [l1], l2);
    Gone(JointRun(10, UNTIL, first + [l1]), Failover, 2);
    labels := first + [l1] + [l2];
    assert JointRun(10, UNTIL, labels).w.t.allocs.Keys == {Primary, Failover};
  }

  lemma ReportGone() returns (labels: seq<JointLabel>)
    ensures var j := JointRun(10, UNTIL, labels);
            Ending(j.a) && j.w.t.outbox == [OutboxRow(1, READY, Waiting, 0), OutboxRow(2, RevokeSucceeded(20, 2, 1, {1, 2}), Waiting, 0)]
  {
    var first := MarkGone();
    var l1 := OnProtocol(NODES, Pr.ListRows(SECOND));
    var l2 := OnProtocol(NODES, Pr.FinishRevoke(Pr.Listing(SECOND, ROWS)));
    assert List(JointRun(10, UNTIL, first).w.t) == ROWS;
    Extend(first, l1);
    Extend(first + [l1], l2);
    ReportedAfter(JointRun(10, UNTIL, first + [l1]));
    labels := first + [l1] + [l2];
  }

  lemma ReportedAfter(j: Joint)
    requires BothRemoving(j, Revoked, Revoked) && Pr.Listing(SECOND, ROWS) in j.w.listings
    ensures var j' := JointStep(j, OnProtocol(NODES, Pr.FinishRevoke(Pr.Listing(SECOND, ROWS))));
            && j'.a == j.a
            && j'.w.t.outbox == [OutboxRow(1, READY, Waiting, 0), OutboxRow(2, RevokeSucceeded(20, 2, 1, {1, 2}), Waiting, 0)]
  {
    ReportedEvent();
  }

  const PROOF: Access.OutcomeEvent := OI.Event(51, 2, Access.RevokeDone(20, 2, 1, [1, 2]))

  lemma ProofAccepted(a: Access.Credential)
    requires Ending(a)
    ensures Access.Step(a, Access.OnOutcome(PROOF, 0, 30)).status == Access.Revoked
  {
    assert [1, 2][0] == 1 && [1, 2][1] == 2;
    assert Access.Elements([1, 2]) == {1, 2};
  }

  /**
   The guarantees are about runs that happen: in one run access serves the credential on both
   nodes, and in a continuation it shows it as revoked.
   */
  lemma WholeLife() returns (served: seq<JointLabel>, revoked: seq<JointLabel>)
    ensures var j := JointRun(10, UNTIL, served); j.a.status == Access.Active && j.a.endpoints.Keys == {1, 2} && j.w.agents.Keys == {1, 2}
    ensures JointRun(10, UNTIL, revoked).a.status == Access.Revoked
  {
    served := Serve();
    var first := ReportGone();
    var l := OnAccess(Access.OnOutcome(PROOF, 0, 30), 1);
    Extend(first, l);
    var j := JointRun(10, UNTIL, first);
    ProofAccepted(j.a);
    assert [1, 2][0] == 1 && [1, 2][1] == 2;
    assert Access.Elements([1, 2]) == {1, 2};
    assert Reports(PROOF, j.w.t.outbox[1]);
    revoked := first + [l];
  }
}
