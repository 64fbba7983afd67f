/**
 Acceptance of a revoke proof in terms of history: access accepts it if and only if the
 credential was never placed or the success of its newest provisioning was applied.
 */
module RevokeHistory {
  import opened Common
  import P = Provisioning
  import Pr = Protocol
  import PI = ProtocolInvariant
  import PR = ProtocolRows
  import opened ProtocolEvents
  import opened F = Fleet
  import opened Access
  import opened AccessSafety
  import opened EndToEnd
  import opened RevokeAcceptance

  // ---- allocations belong to the newest provisioning --------------------------------------------------

  predicate ProvisionAt(t: P.Tables, rev: nat) {
    exists id :: id in t.ops && t.ops[id].rev == rev && t.ops[id].kind == Provision
  }

  /** The newest provisioning up to a revision is the one of the allocation revision. */
  predicate SincePlaced(t: P.Tables, allocRev: nat, rev: nat) {
    && 1 <= allocRev <= rev <= t.lastRev
    && ProvisionAt(t, allocRev)
    && forall id | id in t.ops && allocRev < t.ops[id].rev <= rev :: t.ops[id].kind == Revoke
  }

  predicate AllocsSince(t: P.Tables) {
    forall r | r in t.allocs :: SincePlaced(t, t.allocs[r].allocRev, t.allocs[r].rev)
  }

  predicate RowsSince(t: P.Tables, rows: seq<P.Listed>) {
    forall i | 0 <= i < |rows| :: SincePlaced(t, rows[i].alloc.allocRev, rows[i].alloc.rev)
  }

  predicate ListingsSince(w: Pr.World) {
    forall l | l in w.listings :: RowsSince(w.t, l.rows)
  }

  /** A revoke success reports the newest provisioning, or that the credential was never placed. */
  predicate OutcomeSince(t: P.Tables, o: P.Outcome) {
    o.RevokeSucceeded? ==>
      && (o.allocRev >= 1 ==> SincePlaced(t, o.allocRev, o.rev))
      && (o.allocRev == 0 && o.rev == t.lastRev ==> t.allocs == map[])
  }

  predicate OutcomesSince(t: P.Tables) {
    forall i | 0 <= i < |t.outbox| :: OutcomeSince(t, t.outbox[i].outcome)
  }

  predicate PlacedHistory(w: Pr.World) {
    AllocsSince(w.t) && ListingsSince(w) && OutcomesSince(w.t)
  }

  /** Later operations have higher revisions, so what held of older revisions still holds. */
  lemma SinceStays(w: Pr.World, nodes: map<NodeId, P.Node>, l: Pr.Label, allocRev: nat, rev: nat)
    requires PI.OpsOk(w.t) && SincePlaced(w.t, allocRev, rev)
    ensures SincePlaced(Pr.Step(w, nodes, l).w.t, allocRev, rev)
  {
    var t, t' := w.t, Pr.Step(w, nodes, l).w.t;
    StepExtends(w, nodes, l);
    NewRevision(w, nodes, l);
    var id :| id in t.ops && t.ops[id].rev == allocRev && t.ops[id].kind == Provision;
    assert t'.ops[id].rev == allocRev && t'.ops[id].kind == Provision;
    forall k | k in t'.ops && allocRev < t'.ops[k].rev <= rev ensures t'.ops[k].kind == Revoke {
      if k !in t.ops { NewOperation(w, nodes, l, k); }
    }
  }

  lemma RecordAllocsSince(t: P.Tables, event: EventId, c: P.Command, maxAttempts: nat)
    requires PI.OpsOk(t) && PI.AllocsOk(t) && AllocsSince(t) && P.ProcessCommand(t, event, c, maxAttempts).Ok?
    ensures AllocsSince(P.ProcessCommand(t, event, c, maxAttempts).value)
  {
    var t' := P.ProcessCommand(t, event, c, maxAttempts).value;
    if event !in t.inbox {
      RecordShape(t, event, c, maxAttempts);
      forall r | r in t'.allocs ensures SincePlaced(t', t'.allocs[r].allocRev, t'.allocs[r].rev) {
        assert PI.AllocOk(t, t.allocs[r]) && SincePlaced(t, t.allocs[r].allocRev, t.allocs[r].rev);
        AdvanceSince(t, t', c, t.allocs[r]);
      }
    }
  }

  lemma RecordShape(t: P.Tables, event: EventId, c: P.Command, maxAttempts: nat)
    requires t.lastSeq == t.lastRev && event !in t.inbox && P.ProcessCommand(t, event, c, maxAttempts).Ok?
    ensures var t' := P.ProcessCommand(t, event, c, maxAttempts).value;
            && c.rev == t.lastRev + 1 == t'.lastRev
            && t'.ops.Keys == t.ops.Keys + {c.op} && c.op !in t.ops && t'.ops[c.op].rev == c.rev && t'.ops[c.op].kind == c.kind
            && (forall id | id in t.ops :: t'.ops[id].rev == t.ops[id].rev && t'.ops[id].kind == t.ops[id].kind)
            && t'.allocs.Keys == t.allocs.Keys
            && forall r | r in t.allocs :: t'.allocs[r] == P.Advance(t.allocs[r], c.op, c.kind, c.rev)
  {
  }

  /** A new command moves a row to its own generation, or extends the time since it was placed. */
  lemma AdvanceSince(t: P.Tables, t': P.Tables, c: P.Command, a: P.Alloc)
    requires PI.OpsOk(t) && SincePlaced(t, a.allocRev, a.rev) && a.rev == t.lastRev && c.rev == t.lastRev + 1 == t'.lastRev
    requires t'.ops.Keys == t.ops.Keys + {c.op} && c.op !in t.ops && t'.ops[c.op].rev == c.rev && t'.ops[c.op].kind == c.kind
    requires forall id | id in t.ops :: t'.ops[id].rev == t.ops[id].rev && t'.ops[id].kind == t.ops[id].kind
    ensures var b := P.Advance(a, c.op, c.kind, c.rev); SincePlaced(t', b.allocRev, b.rev)
  {
    var id :| id in t.ops && t.ops[id].rev == a.allocRev && t.ops[id].kind == Provision;
    assert t'.ops[id].rev == a.allocRev && t'.ops[id].kind == Provision;
    forall k | k in t'.ops ensures t'.ops[k].rev <= c.rev && (k in t.ops ==> t'.ops[k].rev <= t.lastRev) {
      if k in t.ops { assert PI.OpOk(t, t.ops[k]); }
    }
  }

  lemma EnsureAllocsSince(w: Pr.World, nodes: map<NodeId, P.Node>, c: P.Claim, p: P.Placement, now: Time, picked: seq<NodeId>)
    requires PI.Inv(w) && AllocsSince(w.t)
    ensures AllocsSince(Pr.DoEnsure(w, nodes, c, p, now, picked).w.t)
  {
    if c in w.claims && c.kind == Provision && P.ValidPick(nodes, p.region, now, picked)
       && P.EnsureAllocations(w.t, nodes, c, p, now, picked).Ok? {
      PR.EnsureShape(w.t, nodes, c, p, now, picked);
      assert PI.ClaimOk(w.t, c) && PI.OpOk(w.t, w.t.ops[c.id]);
      var t' := P.EnsureAllocations(w.t, nodes, c, p, now, picked).value.tables;
      assert c.id in t'.ops && t'.ops[c.id].rev == c.rev && t'.ops[c.id].kind == Provision;
      assert SincePlaced(t', c.rev, c.rev);
    }
  }

  lemma OtherAllocs(w: Pr.World, nodes: map<NodeId, P.Node>, l: Pr.Label)
    requires !l.Record? && !l.Ensure?
    ensures var t' := Pr.Step(w, nodes, l).w.t;
            && t'.allocs.Keys == w.t.allocs.Keys
            && forall r | r in w.t.allocs :: t'.allocs[r].allocRev == w.t.allocs[r].allocRev && t'.allocs[r].rev == w.t.allocs[r].rev
  {
    if Pr.IsMessageStep(l) { Pr.MessageStepKeepsTables(w, nodes, l); }
    else if Pr.IsFinishStep(l) || Pr.IsPublishStep(l) { OutboxNodesFixed(w, nodes, l); }
    else { RowAllocs(w, nodes, l); }
  }

  lemma RowAllocs(w: Pr.World, nodes: map<NodeId, P.Node>, l: Pr.Label)
    requires l.ClaimOp? || l.RetryOp? || Pr.IsMarkStep(l)
    ensures var t' := Pr.Step(w, nodes, l).w.t;
            && t'.allocs.Keys == w.t.allocs.Keys
            && forall r | r in w.t.allocs :: t'.allocs[r].allocRev == w.t.allocs[r].allocRev && t'.allocs[r].rev == w.t.allocs[r].rev
  {
  }

  lemma StepAllocsSince(w: Pr.World, nodes: map<NodeId, P.Node>, l: Pr.Label)
    requires PI.Inv(w) && AllocsSince(w.t)
    ensures AllocsSince(Pr.Step(w, nodes, l).w.t)
  {
    if l.Record? {
      if P.ProcessCommand(w.t, l.event, l.command, l.maxAttempts).Ok? {
        RecordAllocsSince(w.t, l.event, l.command, l.maxAttempts);
      }
    } else if l.Ensure? {
      EnsureAllocsSince(w, nodes, l.claim, l.placement, l.now, l.picked);
    } else {
      OtherAllocs(w, nodes, l);
      forall r | r in w.t.allocs ensures SincePlaced(Pr.Step(w, nodes, l).w.t, w.t.allocs[r].allocRev, w.t.allocs[r].rev) {
        SinceStays(w, nodes, l, w.t.allocs[r].allocRev, w.t.allocs[r].rev);
      }
    }
  }

  lemma StepListingsSince(w: Pr.World, nodes: map<NodeId, P.Node>, l: Pr.Label)
    requires PI.Inv(w) && AllocsSince(w.t) && ListingsSince(w)
    ensures ListingsSince(Pr.Step(w, nodes, l).w)
  {
    var w' := Pr.Step(w, nodes, l).w;
    StepListings(w, nodes, l);
    P.ListShape(w.t);
    forall li | li in w'.listings ensures RowsSince(w'.t, li.rows) {
      if li in w.listings { assert RowsSince(w.t, li.rows); } else { assert li.rows == P.List(w.t); }
      forall i | 0 <= i < |li.rows| ensures SincePlaced(w'.t, li.rows[i].alloc.allocRev, li.rows[i].alloc.rev) {
        SinceStays(w, nodes, l, li.rows[i].alloc.allocRev, li.rows[i].alloc.rev);
      }
    }
  }

  // ---- outcomes -----------------------------------------------------------------------------------------

  lemma {:induction false} MaxIsARow(rows: seq<P.Listed>) returns (i: nat)
    requires P.MaxAllocRev(rows) >= 1
    ensures i < |rows| && rows[i].alloc.allocRev == P.MaxAllocRev(rows)
  {
    if rows[|rows| - 1].alloc.allocRev == P.MaxAllocRev(rows) {
      i := |rows| - 1;
    } else {
      i := MaxIsARow(rows[..|rows| - 1]);
    }
  }

  lemma {:induction false} MaxPositive(rows: seq<P.Listed>)
    requires rows != [] && forall i | 0 <= i < |rows| :: rows[i].alloc.allocRev >= 1
    ensures P.MaxAllocRev(rows) >= 1
  {
  }

  /** The event a worker may write from its rows. */
  lemma RevokeEventSince(w: Pr.World, l: Pr.Listing)
    requires PI.Inv(w) && l in w.listings && RowsSince(w.t, l.rows) && l.claim.kind == Revoke
    requires P.RevokeEvent(l.claim, l.rows).Ok? && l.claim.rev == w.t.lastRev
    ensures OutcomeSince(w.t, P.RevokeEvent(l.claim, l.rows).value)
  {
    var o := P.RevokeEvent(l.claim, l.rows).value;
    assert PI.ListingOk(w, l);
    if o.allocRev >= 1 {
      var i := MaxIsARow(l.rows);
      assert SincePlaced(w.t, l.rows[i].alloc.allocRev, l.rows[i].alloc.rev);
    } else {
      if l.rows != [] {
        assert forall i | 0 <= i < |l.rows| :: SincePlaced(w.t, l.rows[i].alloc.allocRev, l.rows[i].alloc.rev);
        MaxPositive(l.rows);
      }
      assert w.t.allocs.Keys == {};
    }
  }

  /** Written events keep their meaning: allocations appear only for a newer provisioning. */
  lemma OutcomeSinceStays(w: Pr.World, nodes: map<NodeId, P.Node>, l: Pr.Label, i: nat)
    requires PI.Inv(w) && i < |w.t.outbox| && OutcomeSince(w.t, w.t.outbox[i].outcome)
    ensures var t' := Pr.Step(w, nodes, l).w.t; i < |t'.outbox| && OutcomeSince(t', t'.outbox[i].outcome)
  {
    SameOutcome(w, nodes, l, i);
    var o, t' := w.t.outbox[i].outcome, Pr.Step(w, nodes, l).w.t;
    assert PI.OutcomeOk(w.t, o) && PI.OpOk(w.t, w.t.ops[o.op]);
    if o.RevokeSucceeded? {
      if o.allocRev >= 1 {
        SinceStays(w, nodes, l, o.allocRev, o.rev);
      } else {
        StepExtends(w, nodes, l);
        if o.rev == t'.lastRev { StillUnplaced(w, nodes, l, o.op); }
      }
    }
  }

  lemma SameOutcome(w: Pr.World, nodes: map<NodeId, P.Node>, l: Pr.Label, i: nat)
    requires i < |w.t.outbox|
    ensures var t' := Pr.Step(w, nodes, l).w.t; i < |t'.outbox| && t'.outbox[i].outcome == w.t.outbox[i].outcome
  {
    StepExtends(w, nodes, l);
  }

  lemma AtMostOneMore(w: Pr.World, nodes: map<NodeId, P.Node>, l: Pr.Label)
    ensures |Pr.Step(w, nodes, l).w.t.outbox| <= |w.t.outbox| + 1
  {
    StepExtends(w, nodes, l);
  }

  lemma StillUnplaced(w: Pr.World, nodes: map<NodeId, P.Node>, l: Pr.Label, op: OpId)
    requires PI.Inv(w) && op in w.t.ops && w.t.ops[op].state == P.Succeeded && w.t.ops[op].rev == w.t.lastRev
    requires w.t.allocs == map[]
    ensures Pr.Step(w, nodes, l).w.t.allocs == map[]
  {
    forall id | id in w.t.ops ensures w.t.ops[id].state != P.Processing {
      assert PI.OpOk(w.t, w.t.ops[id]);
    }
    if !l.Record? && !l.Ensure? {
      OtherAllocs(w, nodes, l);
    }
  }

  /** The only new event is the one of a finishing step. */
  lemma NewOutcomeSince(w: Pr.World, nodes: map<NodeId, P.Node>, l: Pr.Label)
    requires PI.Inv(w) && PlacedHistory(w) && |Pr.Step(w, nodes, l).w.t.outbox| > |w.t.outbox|
    ensures var t' := Pr.Step(w, nodes, l).w.t; OutcomeSince(t', t'.outbox[|w.t.outbox|].outcome)
  {
    if !Pr.IsFinishStep(l) {
      QuietOutbox(w, nodes, l);
    } else if l.FinishRevoke? {
      FinishRevokeWrites(w, l.listing);
      RevokeEventSince(w, l.listing);
      var o := P.RevokeEvent(l.listing.claim, l.listing.rows).value;
      if o.allocRev >= 1 { SinceStays(w, nodes, l, o.allocRev, o.rev); }
    } else {
      NotRevokeSuccess(w, nodes, l);
    }
  }

  lemma FinishRevokeWrites(w: Pr.World, l: Pr.Listing)
    requires |Pr.DoFinishRevoke(w, l).t.outbox| > |w.t.outbox|
    ensures l in w.listings && l.claim.kind == Revoke && l.claim.rev == w.t.lastRev && P.RevokeEvent(l.claim, l.rows).Ok?
    ensures var t' := Pr.DoFinishRevoke(w, l).t;
            && t'.outbox[|w.t.outbox|].outcome == P.RevokeEvent(l.claim, l.rows).value
            && t'.allocs == w.t.allocs && t'.lastRev == w.t.lastRev
  {
  }

  lemma NotRevokeSuccess(w: Pr.World, nodes: map<NodeId, P.Node>, l: Pr.Label)
    requires (l.FinishProvision? || l.GiveUp?) && |Pr.Step(w, nodes, l).w.t.outbox| > |w.t.outbox|
    ensures !Pr.Step(w, nodes, l).w.t.outbox[|w.t.outbox|].outcome.RevokeSucceeded?
  {
  }

  lemma StepPlacedHistory(w: Pr.World, nodes: map<NodeId, P.Node>, l: Pr.Label)
    requires PI.Inv(w) && PlacedHistory(w)
    ensures PlacedHistory(Pr.Step(w, nodes, l).w)
  {
    StepAllocsSince(w, nodes, l);
    StepListingsSince(w, nodes, l);
    StepOutcomesSince(w, nodes, l);
  }

  lemma StepOutcomesSince(w: Pr.World, nodes: map<NodeId, P.Node>, l: Pr.Label)
    requires PI.Inv(w) && PlacedHistory(w)
    ensures OutcomesSince(Pr.Step(w, nodes, l).w.t)
  {
    AtMostOneMore(w, nodes, l);
    OldOutcomesSince(w, nodes, l);
    if |Pr.Step(w, nodes, l).w.t.outbox| > |w.t.outbox| { NewOutcomeSince(w, nodes, l); }
    AllOutcomes(Pr.Step(w, nodes, l).w.t, |w.t.outbox|);
  }

  lemma OldOutcomesSince(w: Pr.World, nodes: map<NodeId, P.Node>, l: Pr.Label)
    requires PI.Inv(w) && OutcomesSince(w.t)
    ensures var t' := Pr.Step(w, nodes, l).w.t;
            |w.t.outbox| <= |t'.outbox| && forall i | 0 <= i < |w.t.outbox| :: OutcomeSince(t', t'.outbox[i].outcome)
  {
    var t' := Pr.Step(w, nodes, l).w.t;
    StepExtends(w, nodes, l);
    forall i | 0 <= i < |w.t.outbox| ensures OutcomeSince(t', t'.outbox[i].outcome) {
      assert OutcomeSince(w.t, w.t.outbox[i].outcome);
      OutcomeSinceStays(w, nodes, l, i);
    }
  }

  lemma AllOutcomes(t: P.Tables, n: nat)
    requires n <= |t.outbox| <= n + 1 && forall i | 0 <= i < n :: OutcomeSince(t, t.outbox[i].outcome)
    requires n < |t.outbox| ==> OutcomeSince(t, t.outbox[n].outcome)
    ensures OutcomesSince(t)
  {
  }

  // ---- what access knows about the provisioning before a revoke -----------------------------------------

  /** A revoke follows a provisioning, whose success is applied exactly when it is the allocation. */
  predicate PreviousOk(c: Credential)
    requires HistoryOk(c.ops, c.sent) && c.version == |c.sent|
  {
    c.status == Revoking || c.status == Revoked ==>
      && c.version >= 2
      && OpAt(c.ops, c.sent, c.version - 1).kind == Provision
      && (OpAt(c.ops, c.sent, c.version - 1).status == Done <==> c.allocRev == c.version - 1)
  }

  ghost predicate Remembers(c: Credential) {
    AccessSafety.Inv(c) && PreviousOk(c)
  }

  lemma TerminalPrevious(c: Credential, op: OpId, expired: bool, effective: Time)
    requires Remembers(c) && Terminal(c, op, expired, effective).Ok?
    ensures Remembers(Terminal(c, op, expired, effective).value)
  {
    TerminalInv(c, op, expired, effective);
    if Terminal(c, op, expired, effective).value != c {
      IssueHistory(c.ops, c.sent, op, AccessOp(Revoke, c.version + 1, Open, Some(c.allocRev)));
    }
  }

  lemma LatePrevious(c: Credential, b: Body)
    requires Remembers(c) && c.status == Revoking && ValidProvisionDone(b)
    requires b.op in c.ops && c.ops[b.op].kind == Provision && c.ops[b.op].rev == b.rev && c.ops[b.op].status == Open
    requires LateProvision(c, b).Ok?
    ensures Remembers(LateProvision(c, b).value)
  {
    LateInv(c, b);
    OpIsAt(c.ops, c.sent, b.op);
    if b.rev < c.version {
      StatusHistory(c.ops, c.sent, b.op, Done);
      if c.allocRev < b.rev { BindHistory(SetOp(c, b.op, Done).ops, c.sent, b.rev); }
    }
  }

  lemma ProvisionDonePrevious(c: Credential, b: Body, now: Time, revokeOp: OpId)
    requires Remembers(c) && ValidProvisionDone(b) && ApplyProvisionDone(c, b, now, revokeOp).Ok?
    ensures Remembers(ApplyProvisionDone(c, b, now, revokeOp).value)
  {
    ProvisionDoneInv(c, b, now, revokeOp);
    if c.ops[b.op].status == Open && c.status != Revoked {
      OpIsAt(c.ops, c.sent, b.op);
      if c.status == Revoking {
        LatePrevious(c, b);
      } else if c.version == b.rev {
        ReadyPrevious(c, b, now, revokeOp);
      }
    }
  }

  lemma ReadyPrevious(c: Credential, b: Body, now: Time, revokeOp: OpId)
    requires Remembers(c) && b.ProvisionDone? && ApplyProvisionDone(c, b, now, revokeOp).Ok? && b.op in c.ops
    requires c.ops[b.op].status == Open && c.status != Revoked && c.status != Revoking && c.version == b.rev
    requires AccessSafety.Inv(ApplyProvisionDone(c, b, now, revokeOp).value)
    ensures Remembers(ApplyProvisionDone(c, b, now, revokeOp).value)
  {
    StatusHistory(c.ops, c.sent, b.op, Done);
    if c.entitlement <= now {
      IssueHistory(SetOp(c, b.op, Done).ops, c.sent, revokeOp, AccessOp(Revoke, b.rev + 1, Open, Some(b.rev)));
    }
  }

  lemma ClosePrevious(c: Credential, op: OpId, s: OpStatus)
    requires Remembers(c) && op in c.ops && c.ops[op].rev == c.version
    ensures HistoryOk(SetOp(c, op, s).ops, c.sent)
    ensures c.version >= 2 ==> OpAt(SetOp(c, op, s).ops, c.sent, c.version - 1) == OpAt(c.ops, c.sent, c.version - 1)
  {
    StatusHistory(c.ops, c.sent, op, s);
  }

  lemma BodyPrevious(c: Credential, b: Body, now: Time, revokeOp: OpId)
    requires Remembers(c) && ValidBody(b) && ApplyBody(c, b, now, revokeOp).Ok?
    ensures Remembers(ApplyBody(c, b, now, revokeOp).value)
  {
    match b
    case ProvisionDone(_, _, _, _, _) => ProvisionDonePrevious(c, b, now, revokeOp);
    case OperationFailed(_, _, _, _) =>
      OperationFailedInv(c, b);
      if c.version == b.rev { ClosePrevious(c, b.op, Broken); }
    case RevokeDone(_, _, _, _) =>
      RevokeDoneInv(c, b);
      if c.version == b.rev { OpIsAt(c.ops, c.sent, b.op); ClosePrevious(c, b.op, Done); }
  }

  lemma StepPrevious(c: Credential, l: Access.Label)
    requires Remembers(c)
    ensures Remembers(Access.Step(c, l))
  {
    if Access.Attempt(c, l).Ok? {
      StepInv(c, l);
      match l
      case OnTerminal(op, expired, effective) => TerminalPrevious(c, op, expired, effective);
      case OnOutcome(e, now, revokeOp) =>
        if e.id !in c.inbox { BodyPrevious(c.(cursor := e.seqNo, inbox := c.inbox[e.id := e]), e.payload, now, revokeOp); }
      case _ =>
    }
  }

  // ---- every joint run ------------------------------------------------------------------------------------

  ghost predicate JointHistory(j: Joint) {
    PlacedHistory(j.w) && Contiguous(j.w.t) && PreviousKnown(j.a)
  }

  ghost predicate PreviousKnown(a: Credential) {
    AccessSafety.Inv(a) ==> PreviousOk(a)
  }

  lemma {:induction false} RunHistory(op: OpId, until: Time, labels: seq<JointLabel>)
    ensures JointHistory(JointRun(op, until, labels))
  {
    if labels != [] {
      var init, l := labels[..|labels| - 1], labels[|labels| - 1];
      var j := JointRun(op, until, init);
      RunHistory(op, until, init);
      JointRunInv(op, until, init);
      if Enabled(j, l) {
        match l
        case OnAccess(s, row) => StepPrevious(j.a, s);
        case OnProtocol(nodes, s) =>
          StepPlacedHistory(j.w, nodes, s);
          StepKeepsContiguous(j.w, nodes, s);
      }
    }
  }

  /** The allocation revision a current revoke success reports: the revision before it, or none. */
  lemma ReportedRevision(a: Credential, t: P.Tables, o: P.Outcome)
    requires o.RevokeSucceeded? && OutcomeShape(t, o) && OutcomeSince(t, o) && o.rev == a.version == t.lastRev
    requires HistoryOk(a.ops, a.sent) && a.version == |a.sent| && PreviousOk(a) && a.status == Revoking
    requires OpAt(a.ops, a.sent, a.version).kind == Revoke && Behind(a, t) && Contiguous(t)
    ensures o.allocRev == if o.nodes == {} then 0 else a.version - 1
  {
    if o.allocRev >= 1 {
      assert t.allocs[Primary].node in AllocNodes(t);
      PlacedByPrevious(a, t, o.allocRev);
    }
  }

  /** The newest provisioning before a revoke is the one of the revision before it. */
  lemma PlacedByPrevious(a: Credential, t: P.Tables, allocRev: nat)
    requires HistoryOk(a.ops, a.sent) && a.version == |a.sent| == t.lastRev && PreviousOk(a) && a.status == Revoking
    requires OpAt(a.ops, a.sent, a.version).kind == Revoke
    requires Behind(a, t) && Contiguous(t) && SincePlaced(t, allocRev, a.version)
    ensures allocRev == a.version - 1
  {
    assert Issued(t, a.version - 1);
    var id :| id in t.ops && t.ops[id].rev == a.version - 1;
    assert KnownOp(a, t, id);
    OpIsAt(a.ops, a.sent, id);
    var p :| p in t.ops && t.ops[p].rev == allocRev && t.ops[p].kind == Provision;
    assert KnownOp(a, t, p);
    OpIsAt(a.ops, a.sent, p);
  }

  /** A credential that was never placed has no allocation recorded in access. */
  lemma NeverPlaced(j: Joint, row: nat)
    requires Agreed(j) && JointHistory(j) && row < |j.w.t.outbox| && j.w.t.outbox[row].outcome.RevokeSucceeded?
    requires j.w.t.outbox[row].outcome.rev == j.a.version && j.w.t.outbox[row].outcome.nodes == {}
    requires j.w.t.outbox[row].outcome.allocRev == 0
    ensures j.a.allocRev == 0
  {
    assert OutcomeSince(j.w.t, j.w.t.outbox[row].outcome);
    NewestIsVersion(j, row);
    if j.a.allocRev != 0 { PlacedOnce(j, j.a.allocRev); }
  }

  /** A recorded allocation means that the credential is placed. */
  lemma PlacedOnce(j: Joint, rev: nat)
    requires Agreed(j) && rev in j.a.snapshots
    ensures j.w.t.allocs != map[]
  {
    assert SnapshotBacked(j.w.t, rev, j.a.snapshots[rev]);
    var i :| 0 <= i < |j.w.t.outbox| && PlacedRow(j.w.t.outbox[i].outcome, rev, j.a.snapshots[rev]);
    assert OutcomeShape(j.w.t, j.w.t.outbox[i].outcome);
    assert Primary in j.w.t.allocs.Keys;
  }

  /**
   In every joint run, a revoke success of the current version that arrives in order is accepted
   if and only if the credential was never placed on nodes, or access applied the success of the
   provisioning that the revoke ends.
   */
  lemma RevokeAcceptedIffApplied(op: OpId, until: Time, labels: seq<JointLabel>, row: nat, e: OutcomeEvent, now: Time, spare: OpId)
    requires var j := JointRun(op, until, labels);
             && row < |j.w.t.outbox| && Reports(e, j.w.t.outbox[row]) && e.payload.RevokeDone?
             && e.payload.rev == j.a.version && j.a.status != Revoked
             && e.seqNo == j.a.cursor + 1 && e.id !in j.a.inbox
    ensures var a := JointRun(op, until, labels).a;
            && HistoryOk(a.ops, a.sent) && 2 <= a.version == |a.sent|
            && (Access.Step(a, OnOutcome(e, now, spare)).status == Revoked <==>
                  e.payload.nodes == [] || OpAt(a.ops, a.sent, a.version - 1).status == Done)
  {
    RevokeAcceptedIff(op, until, labels, row, e, now, spare);
    BeforeRevoke(op, until, labels, row);
    Reported(op, until, labels, row);
    Unplaced(op, until, labels, row);
    NoNodes(e.payload.nodes);
  }

  predicate CurrentProof(j: Joint, row: nat) {
    && row < |j.w.t.outbox| && j.w.t.outbox[row].outcome.RevokeSucceeded?
    && j.w.t.outbox[row].outcome.rev == j.a.version && j.a.status != Revoked
  }

  lemma BeforeRevoke(op: OpId, until: Time, labels: seq<JointLabel>, row: nat)
    requires CurrentProof(JointRun(op, until, labels), row)
    ensures var a := JointRun(op, until, labels).a;
            && a.status == Revoking && HistoryOk(a.ops, a.sent) && a.version == |a.sent| && PreviousOk(a)
  {
    RunAgreed(op, until, labels);
    RunHistory(op, until, labels);
    RevokeStillOpen(JointRun(op, until, labels), row);
  }

  lemma Reported(op: OpId, until: Time, labels: seq<JointLabel>, row: nat)
    requires CurrentProof(JointRun(op, until, labels), row)
    ensures var j := JointRun(op, until, labels);
            var o := j.w.t.outbox[row].outcome;
            o.allocRev == if o.nodes == {} then 0 else j.a.version - 1
  {
    var j := JointRun(op, until, labels);
    BeforeRevoke(op, until, labels, row);
    Written(op, until, labels, row);
    Linked(op, until, labels);
    ReportedRevision(j.a, j.w.t, j.w.t.outbox[row].outcome);
  }

  lemma Written(op: OpId, until: Time, labels: seq<JointLabel>, row: nat)
    requires CurrentProof(JointRun(op, until, labels), row)
    ensures var j := JointRun(op, until, labels);
            var o := j.w.t.outbox[row].outcome;
            OutcomeShape(j.w.t, o) && OutcomeSince(j.w.t, o) && j.w.t.lastRev == j.a.version
  {
    RunAgreed(op, until, labels);
    RunHistory(op, until, labels);
    NewestIsVersion(JointRun(op, until, labels), row);
  }

  lemma Linked(op: OpId, until: Time, labels: seq<JointLabel>)
    ensures var j := JointRun(op, until, labels);
            && HistoryOk(j.a.ops, j.a.sent) && 1 <= j.a.version <= |j.a.sent|
            && Behind(j.a, j.w.t) && Contiguous(j.w.t) && Matches(j.a.status, OpAt(j.a.ops, j.a.sent, j.a.version))
  {
    JointRunInv(op, until, labels);
    RunHistory(op, until, labels);
  }

  lemma Unplaced(op: OpId, until: Time, labels: seq<JointLabel>, row: nat)
    requires CurrentProof(JointRun(op, until, labels), row)
    ensures var j := JointRun(op, until, labels);
            j.w.t.outbox[row].outcome.nodes == {} ==> j.a.allocRev == 0
  {
    var j := JointRun(op, until, labels);
    Reported(op, until, labels, row);
    RunAgreed(op, until, labels);
    RunHistory(op, until, labels);
    if j.w.t.outbox[row].outcome.nodes == {} { NeverPlaced(j, row); }
  }

  lemma NoNodes(nodes: seq<NodeId>)
    ensures nodes == [] <==> Elements(nodes) == {}
  {
    if nodes != [] { assert nodes[0] in Elements(nodes); }
  }
}
