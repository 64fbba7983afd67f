/**
 A revoke success that arrives late.  Access reads the operation together with the revocation
 reason, which a credential has only while it is revoking or revoked; without it the delivery
 fails, is not a rejection, and holds back every later outcome of the credential.
 */
module StaleRevoke {
  import opened Common
  import P = Provisioning
  import Pr = Protocol
  import PI = ProtocolInvariant
  import Fleet
  import opened Access
  import opened AccessSafety
  import opened StoreInboxes
  import opened EndToEnd
  import opened RevokeAcceptance
  import CancelledRun

  /** The event reports a revoke success and is the next outcome of the credential. */
  predicate NextProof(j: Joint, row: nat, e: OutcomeEvent) {
    && row < |j.w.t.outbox| && Reports(e, j.w.t.outbox[row]) && e.payload.RevokeDone?
    && e.seqNo == j.a.cursor + 1 && e.id !in j.a.inbox
  }

  /** The credential with the event recorded and nothing else changed. */
  function Noted(a: Credential, e: OutcomeEvent): Credential {
    a.(cursor := e.seqNo, inbox := a.inbox[e.id := e])
  }

  /** The operation of a revoke success is known to access. */
  lemma OperationKnown(j: Joint, row: nat)
    requires JointInv(j) && row < |j.w.t.outbox| && j.w.t.outbox[row].outcome.RevokeSucceeded?
    ensures var o := j.w.t.outbox[row].outcome;
            && o.op in j.a.ops && j.a.ops[o.op].kind == Revoke && j.a.ops[o.op].rev == o.rev
  {
    var o := j.w.t.outbox[row].outcome;
    assert PI.OutcomeOk(j.w.t, o) && KnownOp(j.a, j.w.t, o.op);
  }

  /** Nothing but a missing reason fails a proof that is not of the current version. */
  lemma StaleBody(a: Credential, e: OutcomeEvent)
    requires e.payload.RevokeDone? && e.payload.op in a.ops
    requires a.ops[e.payload.op].kind == Revoke && a.ops[e.payload.op].rev == e.payload.rev
    ensures !HasReason(a) ==> ApplyRevokeDone(Noted(a, e), e.payload) == Err(Internal)
    ensures HasReason(a) && e.payload.rev != a.version ==> ApplyRevokeDone(Noted(a, e), e.payload) == Ok(Noted(a, e))
  {
  }

  /**
   In every joint run, when a revoke success of an older version is the next outcome, it is
   recorded, changing nothing else, if and only if the credential is revoking or revoked;
   otherwise the delivery fails without being a rejection.
   */
  lemma StaleRecordedIff(op: OpId, until: Time, labels: seq<JointLabel>, row: nat, e: OutcomeEvent, now: Time, spare: OpId)
    requires NextProof(JointRun(op, until, labels), row, e) && e.payload.rev != JointRun(op, until, labels).a.version
    ensures var a := JointRun(op, until, labels).a;
            && (Access.Attempt(a, OnOutcome(e, now, spare)).Ok? <==> a.status == Revoking || a.status == Revoked)
            && Access.Attempt(a, OnOutcome(e, now, spare)) == if HasReason(a) then Ok(Noted(a, e)) else Err(Internal)
  {
    OutcomesPassChecks(op, until, labels, row, e);
    JointRunInv(op, until, labels);
    OperationKnown(JointRun(op, until, labels), row);
    StaleBody(JointRun(op, until, labels).a, e);
  }

  // ---- later outcomes wait --------------------------------------------------------------------------

  /** The next outcome of the credential is a revoke success, and there is no revocation reason. */
  predicate Stuck(j: Joint) {
    j.a.cursor < |j.w.t.outbox| && j.w.t.outbox[j.a.cursor].outcome.RevokeSucceeded? && !HasReason(j.a)
  }

  /** Whatever outcome is delivered, none is applied. */
  lemma StuckAccess(j: Joint, l: Access.Label, row: nat)
    requires JointInv(j) && Stuck(j) && Enabled(j, OnAccess(l, row))
    ensures !AppliesOutcome(j.a, l)
  {
    OutcomeStep(j.a, l);
    if AppliesOutcome(j.a, l) {
      assert PI.OutboxOk(j.w.t) && row == j.a.cursor;
      OperationKnown(j, row);
      StaleBody(j.a, l.event);
      assert false;
    }
  }

  /** Without outcomes a credential that waits for its provisioning keeps waiting or is cancelled. */
  lemma WaitingStep(a: Credential, l: Access.Label)
    requires !AppliesOutcome(a, l) && a.status == Provisioning
    ensures Access.Step(a, l).status == Provisioning || Access.Step(a, l).status == Revoking
  {
    OutcomeStep(a, l);
  }

  /** No outcome was applied, and the credential still waits unless it is revoking by now. */
  predicate NothingApplied(j: Joint, j': Joint) {
    && j'.a.cursor == j.a.cursor && j'.a.inbox == j.a.inbox
    && (Stuck(j') || HasReason(j'.a))
    && (j.a.status == Provisioning ==> j'.a.status == Provisioning || j'.a.status == Revoking)
  }

  /** The credential is neither revoking nor revoked before each of the further steps. */
  ghost predicate NoReason(op: OpId, until: Time, labels: seq<JointLabel>, more: seq<JointLabel>) {
    forall k: nat | k < |more| :: !HasReason(JointRun(op, until, labels + more[..k]).a)
  }

  lemma NoReasonPrefix(op: OpId, until: Time, labels: seq<JointLabel>, more: seq<JointLabel>)
    requires more != [] && NoReason(op, until, labels, more)
    ensures NoReason(op, until, labels, more[..|more| - 1]) && !HasReason(JointRun(op, until, labels + more[..|more| - 1]).a)
  {
    var init := more[..|more| - 1];
    forall k: nat | k < |init| ensures !HasReason(JointRun(op, until, labels + init[..k]).a) { assert init[..k] == more[..k]; }
  }

  lemma LastStep(op: OpId, until: Time, labels: seq<JointLabel>, more: seq<JointLabel>)
    requires more != []
    ensures JointRun(op, until, labels + more) == JointStep(JointRun(op, until, labels + more[..|more| - 1]), more[|more| - 1])
  {
    assert (labels + more)[..|labels + more| - 1] == labels + more[..|more| - 1];
  }

  lemma StuckStep(j: Joint, l: JointLabel)
    requires JointInv(j) && Stuck(j)
    ensures NothingApplied(j, JointStep(j, l))
  {
    if Enabled(j, l) {
      match l
      case OnAccess(s, row) =>
        StuckAccess(j, s, row);
        OutcomeStep(j.a, s);
        if j.a.status == Provisioning { WaitingStep(j.a, s); }
      case OnProtocol(nodes, s) => Fleet.StepExtends(j.w, nodes, s);
    }
  }

  /**
   While a revoke success that lacks its reason is next, no outcome of the credential is applied
   in any continuation, until the credential is revoking again; a restarted credential is not
   served in the meantime.
   */
  lemma {:induction false} HeldBack(op: OpId, until: Time, labels: seq<JointLabel>, more: seq<JointLabel>)
    requires Stuck(JointRun(op, until, labels))
    requires NoReason(op, until, labels, more)
    ensures NothingApplied(JointRun(op, until, labels), JointRun(op, until, labels + more))
  {
    if more == [] {
      assert labels + more == labels;
    } else {
      var init, l := more[..|more| - 1], more[|more| - 1];
      NoReasonPrefix(op, until, labels, more);
      HeldBack(op, until, labels, init);
      LastStep(op, until, labels, more);
      JointRunInv(op, until, labels + init);
      StuckStep(JointRun(op, until, labels + init), l);
    }
  }

  // ---- a run that gets there --------------------------------------------------------------------------

  /**
   The subscription is cancelled, the nodes are cleaned and provisioning reports it; then a new
   period is paid before the report arrives.  Every delivery of the report fails, so the new
   provisioning cannot be reported either.
   */
  lemma RenewedBeforeProof(e: OutcomeEvent, now: Time, spare: OpId) returns (labels: seq<JointLabel>)
    ensures var j := JointRun(10, CancelledRun.UNTIL, labels);
            && Stuck(j) && j.a.status == Provisioning && j.a.version == 3
            && j.w.t.outbox[0].outcome == P.RevokeSucceeded(20, 2, 1, {1, 2})
            && (Reports(e, j.w.t.outbox[0]) && e.id !in j.a.inbox ==>
                  Access.Attempt(j.a, OnOutcome(e, now, spare)) == Err(Internal))
  {
    var first := CancelledRun.ReportedRun();
    var l := OnAccess(OnPeriod(30, 200, 0), 0);
    CancelledRun.Extend(first, l);
    labels := first + [l];
    var j := JointRun(10, CancelledRun.UNTIL, labels);
    JointRunInv(10, CancelledRun.UNTIL, labels);
    assert PI.OutboxOk(j.w.t);
    if Reports(e, j.w.t.outbox[0]) && e.id !in j.a.inbox {
      StaleRecordedIff(10, CancelledRun.UNTIL, labels, 0, e, now, spare);
    }
  }
}
