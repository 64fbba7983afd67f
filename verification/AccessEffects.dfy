/**
 What each access transaction leaves of a credential, stated field by field: the rows that
 change, the values they get, when it is refused, and everything that stays.
 */
module AccessEffects {
  import opened Common
  import opened Access
  import opened AccessSafety
  import opened AccessTheorems

  /** The operation exists with this kind and revision. */
  ghost predicate Names(c: Credential, op: OpId, kind: Kind, rev: nat) {
    op in c.ops && c.ops[op].kind == kind && c.ops[op].rev == rev
  }

  /** One operation more, open, with its command. */
  ghost predicate Sends(c: Credential, d: Credential, op: OpId, kind: Kind, rev: nat, allocRev: Option<nat>) {
    op !in c.ops && d.ops.Keys == c.ops.Keys + {op} && d.ops[op] == AccessOp(kind, rev, Open, allocRev)
    && d.sent == c.sent + [Sent(op, kind, rev)]
  }

  /** All operations but one are as before. */
  ghost predicate OthersKept(c: Credential, d: Credential, op: OpId) {
    forall id | id in c.ops && id != op :: id in d.ops && d.ops[id] == c.ops[id]
  }

  /** This operation is closed and all others are as before. */
  ghost predicate Closes(c: Credential, d: Credential, op: OpId, s: OpStatus) {
    && op in c.ops && d.ops.Keys == c.ops.Keys && d.sent == c.sent && OthersKept(c, d, op)
    && d.ops[op].status == s && d.ops[op].kind == c.ops[op].kind && d.ops[op].rev == c.ops[op].rev && d.ops[op].allocRev == c.ops[op].allocRev
  }

  /** Live tokens get this status, and no other token changes. */
  ghost predicate Retires(c: Credential, d: Credential, s: TokenStatus) {
    && d.tokens.Keys == c.tokens.Keys
    && forall k | k in c.tokens ::
         d.tokens[k].expires == c.tokens[k].expires
         && d.tokens[k].status == if c.tokens[k].status == Live then s else c.tokens[k].status
  }

  ghost predicate KeepsTokens(c: Credential, d: Credential) {
    d.tokens == c.tokens
  }

  ghost predicate KeepsProfile(c: Credential, d: Credential) {
    d.snapshots == c.snapshots && d.endpoints == c.endpoints
  }

  ghost predicate KeepsOps(c: Credential, d: Credential) {
    d.ops == c.ops && d.sent == c.sent
  }

  ghost predicate KeepsInbox(c: Credential, d: Credential) {
    d.cursor == c.cursor && d.inbox == c.inbox
  }

  // ---- period ---------------------------------------------------------------------------------------

  /** A period starts provisioning again while the credential is being revoked or has failed. */
  ghost predicate PeriodEffect(c: Credential, op: OpId, until: Time, r: Result<Credential>) {
    var restart := c.status == Revoking || c.status == Failed;
    && (r.Err? <==> restart && op in c.ops)
    && (r.Ok? ==>
          var d := r.value;
          && d.entitlement == (if until >= c.entitlement then until else c.entitlement)
          && d.snapshots == c.snapshots && KeepsInbox(c, d)
          && if restart then
               && d.status == Provisioning && d.version == c.version + 1 && d.allocRev == 0 && d.endpoints == map[]
               && Sends(c, d, op, Provision, c.version + 1, None) && OthersKept(c, d, op) && KeepsTokens(c, d)
             else
               && d.status == c.status && d.version == c.version && d.allocRev == c.allocRev && d.endpoints == c.endpoints
               && KeepsOps(c, d) && d.tokens.Keys == c.tokens.Keys
               && forall k | k in c.tokens ::
                    d.tokens[k].status == c.tokens[k].status
                    && d.tokens[k].expires == if c.tokens[k].status == Live && until > c.tokens[k].expires then until else c.tokens[k].expires)
  }

  lemma PeriodHas(c: Credential, op: OpId, until: Time, now: Time)
    ensures until > now && c.status != Revoked ==> PeriodEffect(c, op, until, Period(c, op, until, now))
    ensures until <= now || c.status == Revoked ==> Period(c, op, until, now) == Ok(c)
  {
  }

  // ---- end of a subscription ------------------------------------------------------------------------

  /** The end of the subscription reaches a credential that is not being revoked yet. */
  ghost predicate TerminalEffect(c: Credential, op: OpId, expired: bool, effective: Time, r: Result<Credential>) {
    var ends := c.status != Revoking && (expired ==> effective >= c.entitlement);
    && (!ends ==> r == Ok(c))
    && (ends ==> (r.Err? <==> op in c.ops))
    && (ends && r.Ok? ==>
          var d := r.value;
          && d.status == Revoking && d.version == c.version + 1 && d.allocRev == c.allocRev && d.entitlement == c.entitlement
          && Sends(c, d, op, Revoke, c.version + 1, Some(c.allocRev)) && OthersKept(c, d, op)
          && Retires(c, d, Withdrawn) && KeepsProfile(c, d) && KeepsInbox(c, d))
  }

  lemma TerminalHas(c: Credential, op: OpId, expired: bool, effective: Time)
    ensures c.status != Revoked ==> TerminalEffect(c, op, expired, effective, Terminal(c, op, expired, effective))
    ensures c.status == Revoked ==> Terminal(c, op, expired, effective) == Ok(c)
  {
  }

  // ---- provisioning success -------------------------------------------------------------------------

  /** The assigned nodes of the revision and exactly the listed endpoints, the last one of a node counting. */
  ghost predicate Replaces(c: Credential, d: Credential, b: Body)
    requires b.ProvisionDone?
  {
    && d.snapshots.Keys == c.snapshots.Keys + {b.rev}
    && (forall n :: n in d.snapshots[b.rev] <==> n in b.placed)
    && (forall k | k in c.snapshots && k != b.rev :: d.snapshots[k] == c.snapshots[k])
    && (forall n :: n in d.endpoints <==> IsListed(b.endpoints, n))
    && (forall i | 0 <= i < |b.endpoints| && Counts(b.endpoints, i) ::
          b.endpoints[i].node in d.endpoints && d.endpoints[b.endpoints[i].node] == EndpointRow(b.endpoints[i].role, b.rev))
  }

  ghost predicate IsListed(es: seq<Endpoint>, n: NodeId) {
    exists i :: 0 <= i < |es| && es[i].node == n
  }

  /** No later endpoint is on the same node. */
  ghost predicate Counts(es: seq<Endpoint>, i: nat)
    requires i < |es|
  {
    forall j | i < j < |es| :: es[j].node != es[i].node
  }

  lemma {:induction false} ListedRows(es: seq<Endpoint>, rev: nat, n: NodeId)
    ensures n in EndpointRows(es, rev) <==> IsListed(es, n)
  {
    if es != [] {
      var init := es[..|es| - 1];
      ListedRows(init, rev, n);
      assert forall i | 0 <= i < |init| :: init[i] == es[i];
      if IsListed(init, n) {
        var i :| 0 <= i < |init| && init[i].node == n;
        assert es[i].node == n;
      }
    }
  }

  lemma {:induction false} LastRow(es: seq<Endpoint>, rev: nat, i: nat)
    requires i < |es| && Counts(es, i)
    ensures es[i].node in EndpointRows(es, rev) && EndpointRows(es, rev)[es[i].node] == EndpointRow(es[i].role, rev)
  {
    var init := es[..|es| - 1];
    if i < |init| {
      assert forall j | 0 <= j < |init| :: init[j] == es[j];
      LastRow(init, rev, i);
    }
  }

  lemma ReplacesRows(c: Credential, b: Body)
    requires b.ProvisionDone?
    ensures Replaces(c, ReplaceSnapshots(c, b), b)
  {
    forall n: NodeId ensures n in EndpointRows(b.endpoints, b.rev) <==> IsListed(b.endpoints, n) { ListedRows(b.endpoints, b.rev, n); }
    forall i | 0 <= i < |b.endpoints| && Counts(b.endpoints, i)
      ensures b.endpoints[i].node in EndpointRows(b.endpoints, b.rev)
              && EndpointRows(b.endpoints, b.rev)[b.endpoints[i].node] == EndpointRow(b.endpoints[i].role, b.rev)
    {
      LastRow(b.endpoints, b.rev, i);
    }
  }

  /** The revoke operation of the current version that is still open. */
  ghost predicate OpenRevoke(c: Credential, id: OpId) {
    id in c.ops && c.ops[id] == AccessOp(Revoke, c.version, Open, c.ops[id].allocRev)
  }

  /** A success while revoking: ignored, noted, or the new allocation that the pending revoke must prove removed. */
  ghost predicate LateEffect(c: Credential, b: Body, r: Result<Credential>)
    requires b.ProvisionDone?
  {
    && (b.rev >= c.version ==> r == Ok(c))
    && (b.rev < c.version && b.rev <= c.allocRev ==>
          r.Ok? && Closes(c, r.value, b.op, Done) && r.value == c.(ops := r.value.ops))
    && (b.rev < c.version && b.rev > c.allocRev ==>
          (r.Ok? <==> exists id :: id in c.ops && OpenRevoke(c, id)))
    && (b.rev < c.version && b.rev > c.allocRev && r.Ok? ==>
          var d := r.value;
          && d == c.(allocRev := b.rev, snapshots := d.snapshots, endpoints := d.endpoints, ops := d.ops)
          && Replaces(c, d, b) && d.ops.Keys == c.ops.Keys
          && (forall id | id in c.ops && id != b.op :: d.ops[id] ==
                if OpenRevoke(c, id) then AccessOp(Revoke, c.version, Open, Some(b.rev)) else c.ops[id])
          && b.op in c.ops && d.ops[b.op].status == Done && d.ops[b.op].rev == c.ops[b.op].rev && d.ops[b.op].kind == c.ops[b.op].kind)
  }

  lemma LateHas(c: Credential, b: Body)
    requires b.ProvisionDone? && b.op in c.ops && c.ops[b.op].kind == Provision
    ensures LateEffect(c, b, LateProvision(c, b))
  {
    PendingIsOpen(c);
    if b.rev < c.version && b.rev > c.allocRev && LateProvision(c, b).Ok? { ReplacesRows(c, b); }
  }

  lemma PendingIsOpen(c: Credential)
    ensures forall id: OpId :: PendingRevoke(c, id) <==> OpenRevoke(c, id)
    ensures (exists id :: id in c.ops && PendingRevoke(c, id)) <==> (exists id :: id in c.ops && OpenRevoke(c, id))
  {
    forall id: OpId ensures PendingRevoke(c, id) <==> OpenRevoke(c, id) { }
    if id :| id in c.ops && OpenRevoke(c, id) { assert PendingRevoke(c, id); }
  }

  /**
   The success of the open newest provisioning.  Before the entitlement ends the credential is
   served, fully or degraded as reported; from then on it is revoked at once, without a live token
   and with one revoke command for the allocation just made.
   */
  ghost predicate ReadyEffect(c: Credential, b: Body, now: Time, revokeOp: OpId, r: Result<Credential>)
    requires b.ProvisionDone?
  {
    && (now < c.entitlement ==>
          && r.Ok?
          && var d := r.value;
             && d.status == (if b.status == FullyReady then Active else Degraded) && d.version == c.version
             && Closes(c, d, b.op, Done) && KeepsTokens(c, d))
    && (now >= c.entitlement ==> (r.Err? <==> revokeOp in c.ops))
    && (now >= c.entitlement && r.Ok? ==>
          var d := r.value;
          && d.status == Revoking && d.version == c.version + 1
          && Sends(c, d, revokeOp, Revoke, b.rev + 1, Some(b.rev))
          && (forall id | id in c.ops && id != b.op :: d.ops[id] == c.ops[id])
          && b.op in c.ops && d.ops[b.op].status == Done && d.ops[b.op].kind == Provision && d.ops[b.op].rev == b.rev
          && Retires(c, d, Expired))
    && (r.Ok? ==>
          var d := r.value;
          d.allocRev == b.rev && d.entitlement == c.entitlement && Replaces(c, d, b) && KeepsInbox(c, d))
  }

  /** All cases of a provisioning success. */
  ghost predicate SuccessEffect(c: Credential, b: Body, now: Time, revokeOp: OpId, r: Result<Credential>)
    requires b.ProvisionDone?
  {
    if !Names(c, b.op, Provision, b.rev) then r == Err(Conflict)
    else if c.ops[b.op].status != Open || c.status == Revoked then r == Ok(c)
    else if c.status == Revoking then LateEffect(c, b, r)
    else if b.rev != c.version then r == Ok(c)
    else ReadyEffect(c, b, now, revokeOp, r)
  }

  lemma SuccessHas(c: Credential, b: Body, now: Time, revokeOp: OpId)
    requires b.ProvisionDone?
    ensures SuccessEffect(c, b, now, revokeOp, ApplyProvisionDone(c, b, now, revokeOp))
  {
    if Names(c, b.op, Provision, b.rev) {
      if c.status == Revoking { LateHas(c, b); } else if c.ops[b.op].status == Open && b.rev == c.version && c.status != Revoked { ReadyHas(c, b, now, revokeOp); }
    }
  }

  lemma ReadyHas(c: Credential, b: Body, now: Time, revokeOp: OpId)
    requires b.ProvisionDone? && Names(c, b.op, Provision, b.rev) && c.ops[b.op].status == Open
    requires c.status != Revoking && c.status != Revoked && c.version == b.rev
    ensures ReadyEffect(c, b, now, revokeOp, ApplyProvisionDone(c, b, now, revokeOp))
  {
    ReplacesRows(c, b);
  }

  // ---- failures and revoke success --------------------------------------------------------------------

  /** Only a terminal failure of the open newest operation has an effect. */
  ghost predicate FailureEffect(c: Credential, b: Body, r: Result<Credential>)
    requires b.OperationFailed?
  {
    if !Names(c, b.op, b.kind, b.rev) then r == Err(Conflict)
    else if !(b.terminal && b.rev == c.version && c.ops[b.op].status == Open) then r == Ok(c)
    else
      && r.Ok? && Closes(c, r.value, b.op, Broken)
      && r.value == c.(status := if b.kind == Provision then Failed else c.status, ops := r.value.ops)
  }

  lemma FailureHas(c: Credential, b: Body)
    requires b.OperationFailed?
    ensures FailureEffect(c, b, ApplyOperationFailed(c, b))
  {
  }

  /** The proof names the bound allocation and lists exactly its recorded nodes, each once. */
  ghost predicate ProvesRemoval(c: Credential, b: Body)
    requires b.RevokeDone? && b.op in c.ops
  {
    var nodes := if b.allocRev in c.snapshots then c.snapshots[b.allocRev] else {};
    && b.allocRev == c.allocRev && c.ops[b.op].allocRev == Some(b.allocRev)
    && (forall n :: n in nodes <==> n in b.nodes)
    && (forall i, j | 0 <= i < j < |b.nodes| :: b.nodes[i] != b.nodes[j])
  }

  ghost predicate RevokeEffect(c: Credential, b: Body, r: Result<Credential>)
    requires b.RevokeDone?
  {
    if !Names(c, b.op, Revoke, b.rev) then r == Err(Conflict)
    else if c.status != Revoking && c.status != Revoked then r == Err(Internal)
    else if b.rev != c.version || c.ops[b.op].status != Open then r == Ok(c)
    else if !ProvesRemoval(c, b) then r == Err(Conflict)
    else r.Ok? && Closes(c, r.value, b.op, Done) && r.value == c.(status := Revoked, ops := r.value.ops)
  }

  /** Same size, no repetition and inclusion make the sets equal. */
  lemma SameNodesMeans(expected: set<NodeId>, reported: seq<NodeId>)
    ensures SameNodeSet(expected, reported) <==>
            (forall n :: n in expected <==> n in reported) && (forall i, j | 0 <= i < j < |reported| :: reported[i] != reported[j])
  {
    if NoDuplicates(reported) {
      ElementsCard(reported);
      if |expected| == |reported| && expected <= Elements(reported) { SubsetOfSameSize(expected, Elements(reported)); }
      if forall n :: n in expected <==> n in reported { assert expected == Elements(reported); }
      forall n ensures n in Elements(reported) <==> n in reported { }
    }
  }

  lemma RevokeHas(c: Credential, b: Body)
    requires b.RevokeDone?
    ensures RevokeEffect(c, b, ApplyRevokeDone(c, b))
  {
    SameNodesMeans(SnapshotAt(c, b.allocRev), b.nodes);
  }

  // ---- tokens and recovery ----------------------------------------------------------------------------

  ghost predicate HasLive(c: Credential) {
    exists k :: k in c.tokens && c.tokens[k].status == Live
  }

  /**
   A token is issued to a served credential within its entitlement: the first one exactly when
   none is live, a rotation exactly when one is, which is then rotated out.
   */
  ghost predicate TokenEffect(c: Credential, rotate: bool, found: Option<TokenId>, k: TokenId, now: Time, r: Result<Credential>) {
    && (r.Ok? <==> (c.status == Active || c.status == Degraded) && now < c.entitlement && k !in c.tokens && (rotate <==> HasLive(c)))
    && (r.Ok? ==>
          var d := r.value;
          && d == c.(tokens := d.tokens) && d.tokens.Keys == c.tokens.Keys + {k} && d.tokens[k] == Token(Live, c.entitlement)
          && (rotate ==> found.Some? && found.value in c.tokens && c.tokens[found.value].status == Live
                         && d.tokens[found.value] == Token(Rotated, c.tokens[found.value].expires))
          && forall j | j in c.tokens && !(rotate && Some(j) == found) :: d.tokens[j] == c.tokens[j])
  }

  lemma TokenHas(c: Credential, rotate: bool, found: Option<TokenId>, k: TokenId, now: Time)
    requires FoundLive(c, found)
    ensures TokenEffect(c, rotate, found, k, now, IssueToken(c, rotate, found, k, now))
  {
    if j :| j in c.tokens && c.tokens[j].status == Live { assert LiveToken(c, j); }
    if found.Some? { assert LiveToken(c, found.value); }
  }

  /** A failed credential within its entitlement is provisioned again. */
  ghost predicate RecoveryEffect(c: Credential, op: OpId, now: Time, r: Result<Credential>) {
    && (r.Ok? <==> c.status == Failed && now < c.entitlement && op !in c.ops)
    && (r.Ok? ==>
          var d := r.value;
          && d == c.(status := Provisioning, version := c.version + 1, allocRev := 0, endpoints := map[], ops := d.ops, sent := d.sent)
          && Sends(c, d, op, Provision, c.version + 1, None) && OthersKept(c, d, op))
  }

  lemma RecoveryHas(c: Credential, op: OpId, now: Time)
    ensures RecoveryEffect(c, op, now, Recover(c, op, now))
  {
  }

  // ---- one delivered outcome ----------------------------------------------------------------------------

  ghost predicate BodyEffect(c: Credential, b: Body, now: Time, revokeOp: OpId, r: Result<Credential>) {
    match b
    case ProvisionDone(_, _, _, _, _) => SuccessEffect(c, b, now, revokeOp, r)
    case OperationFailed(_, _, _, _) => FailureEffect(c, b, r)
    case RevokeDone(_, _, _, _) => RevokeEffect(c, b, r)
  }

  /** An early outcome is a gap, a recorded one is accepted again unless it differs, an old one is refused. */
  ghost predicate OutcomeEffect(c: Credential, e: OutcomeEvent, now: Time, revokeOp: OpId, r: Result<Credential>) {
    if !ValidBody(e.payload) || e.seqNo < 1 then r == Err(Conflict)
    else if e.seqNo > c.cursor + 1 then r == Err(Gap)
    else if e.id in c.inbox then r == if c.inbox[e.id] == e then Ok(c) else Err(Conflict)
    else if e.seqNo != c.cursor + 1 then r == Err(Conflict)
    else BodyEffect(c.(cursor := c.cursor + 1, inbox := c.inbox[e.id := e]), e.payload, now, revokeOp, r)
  }

  lemma OutcomeHas(c: Credential, e: OutcomeEvent, now: Time, revokeOp: OpId)
    ensures OutcomeEffect(c, e, now, revokeOp, ApplyOutcome(c, e, now, revokeOp))
  {
    var d, b := c.(cursor := e.seqNo, inbox := c.inbox[e.id := e]), e.payload;
    match b
    case ProvisionDone(_, _, _, _, _) => SuccessHas(d, b, now, revokeOp);
    case OperationFailed(_, _, _, _) => FailureHas(d, b);
    case RevokeDone(_, _, _, _) => RevokeHas(d, b);
  }

  // ---- what follows in runs -----------------------------------------------------------------------------

  /**
   A credential that a provisioning success makes served is served within its entitlement, and the
   success of the open newest provisioning serves it exactly then.
   */
  lemma ServedIffEntitled(c: Credential, b: Body, now: Time, revokeOp: OpId)
    requires Inv(c) && b.ProvisionDone? && b.op in c.ops && c.ops[b.op].kind == Provision && c.ops[b.op].status == Open
    requires c.ops[b.op].rev == b.rev == c.version && revokeOp !in c.ops
    ensures c.status == Provisioning
    ensures var r := ApplyBody(c, b, now, revokeOp);
            && r.Ok?
            && (r.value.status == Active <==> now < c.entitlement && b.status == FullyReady)
            && (r.value.status == Degraded <==> now < c.entitlement && b.status == DegradedReady)
            && (r.value.sent == c.sent <==> now < c.entitlement)
            && (now >= c.entitlement ==>
                  r.value.status == Revoking && r.value.sent == c.sent + [Sent(revokeOp, Revoke, c.version + 1)]
                  && forall k: TokenId :: !LiveToken(r.value, k))
  {
    OpIsAt(c.ops, c.sent, b.op);
    ReadyHas(c, b, now, revokeOp);
    ReadyMeans(c, b, now, revokeOp, ApplyProvisionDone(c, b, now, revokeOp));
  }

  lemma ReadyMeans(c: Credential, b: Body, now: Time, revokeOp: OpId, r: Result<Credential>)
    requires b.ProvisionDone? && b.rev == c.version && revokeOp !in c.ops && ReadyEffect(c, b, now, revokeOp, r)
    ensures r.Ok?
    ensures r.value.status == Active <==> now < c.entitlement && b.status == FullyReady
    ensures r.value.status == Degraded <==> now < c.entitlement && b.status == DegradedReady
    ensures r.value.sent == c.sent <==> now < c.entitlement
    ensures now >= c.entitlement ==>
              r.value.status == Revoking && r.value.sent == c.sent + [Sent(revokeOp, Revoke, c.version + 1)]
              && forall k: TokenId :: !LiveToken(r.value, k)
  {
  }

  /** In every run, a step makes a credential served only by a provisioning success within its entitlement. */
  lemma ServedInTime(op: OpId, until: Time, labels: seq<Label>)
    requires labels != [] && Serving(Run(op, until, labels)) && !Serving(Run(op, until, labels[..|labels| - 1]))
    ensures var l, before, after := labels[|labels| - 1], Run(op, until, labels[..|labels| - 1]), Run(op, until, labels);
            && l.OnOutcome? && l.event.payload.ProvisionDone? && l.now < before.entitlement
            && (after.status == Active <==> l.event.payload.status == FullyReady)
            && l.event.payload.rev == after.version == after.allocRev
  {
    var l, before := labels[|labels| - 1], Run(op, until, labels[..|labels| - 1]);
    if l.OnOutcome? { OutcomeHas(before, l.event, l.now, l.revokeOp); }
  }
}
