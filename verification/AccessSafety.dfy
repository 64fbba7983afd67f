/** What every reachable access credential satisfies. */
module AccessSafety {
  import opened Common
  import opened Access

  type Ops = map<OpId, AccessOp>

  // ---- the invariant ------------------------------------------------------------------------

  predicate CommandOk(ops: Ops, sent: seq<Sent>, i: nat) {
    && i < |sent|
    && sent[i].rev == i + 1
    && sent[i].op in ops
    && ops[sent[i].op].rev == i + 1
    && ops[sent[i].op].kind == sent[i].kind
  }

  predicate OperationOk(ops: Ops, sent: seq<Sent>, id: OpId) {
    && id in ops
    && 1 <= ops[id].rev <= |sent|
    && sent[ops[id].rev - 1].op == id
    && (ops[id].kind == Revoke <==> ops[id].allocRev.Some?)
  }

  /** Operations and commands correspond one to one, with revisions 1, 2, 3, ... */
  predicate HistoryOk(ops: Ops, sent: seq<Sent>) {
    && |sent| >= 1
    && (forall i | 0 <= i < |sent| :: CommandOk(ops, sent, i))
    && (forall id | id in ops :: OperationOk(ops, sent, id))
  }

  /** The operation of a revision. */
  function OpAt(ops: Ops, sent: seq<Sent>, rev: nat): AccessOp
    requires HistoryOk(ops, sent) && 1 <= rev <= |sent|
  {
    assert CommandOk(ops, sent, rev - 1);
    ops[sent[rev - 1].op]
  }

  /** The credential status that the newest operation determines, up to full or degraded service. */
  predicate Matches(s: Status, o: AccessOp) {
    match s
    case Provisioning => o.kind == Provision && o.status == Open
    case Active => o.kind == Provision && o.status == Done
    case Degraded => o.kind == Provision && o.status == Done
    case Failed => o.kind == Provision && o.status == Broken
    case Revoking => o.kind == Revoke && o.status != Done
    case Revoked => o.kind == Revoke && o.status == Done
  }

  /** The allocation revision that goes with a status and the newest operation. */
  predicate BindingOk(s: Status, version: nat, allocRev: nat, newest: AccessOp) {
    && (s == Provisioning || s == Failed ==> allocRev == 0)
    && (s == Active || s == Degraded ==> allocRev == version)
    && (s == Revoking || s == Revoked ==> newest.allocRev == Some(allocRev))
  }

  /** A non-zero allocation revision names a succeeded provisioning with its two nodes. */
  predicate AllocationOk(ops: Ops, sent: seq<Sent>, snapshots: map<nat, set<NodeId>>, allocRev: nat)
    requires HistoryOk(ops, sent)
  {
    allocRev != 0 ==>
      && allocRev <= |sent|
      && OpAt(ops, sent, allocRev).kind == Provision
      && OpAt(ops, sent, allocRev).status == Done
      && allocRev in snapshots && |snapshots[allocRev]| == 2
  }

  predicate RowOf(endpoints: map<NodeId, EndpointRow>, n: NodeId, r: Role, rev: nat) {
    n in endpoints && endpoints[n] == EndpointRow(r, rev)
  }

  ghost predicate FullProfile(endpoints: map<NodeId, EndpointRow>, rev: nat) {
    exists p: NodeId, f: NodeId ::
      p != f && RowOf(endpoints, p, Primary, rev) && RowOf(endpoints, f, Failover, rev) && endpoints.Keys == {p, f}
  }

  ghost predicate PrimaryOnly(endpoints: map<NodeId, EndpointRow>, rev: nat) {
    exists p: NodeId :: RowOf(endpoints, p, Primary, rev) && endpoints.Keys == {p}
  }

  /** A served profile has one primary, and one failover exactly when fully ready. */
  ghost predicate ProfileOk(s: Status, endpoints: map<NodeId, EndpointRow>, snapshots: map<nat, set<NodeId>>, rev: nat) {
    && (s == Active || s == Degraded ==> rev in snapshots && endpoints.Keys <= snapshots[rev])
    && (s == Active ==> FullProfile(endpoints, rev))
    && (s == Degraded ==> PrimaryOnly(endpoints, rev))
  }

  predicate IsLive(tokens: map<TokenId, Token>, k: TokenId) {
    k in tokens && tokens[k].status == Live
  }

  /** At most one live token, only while serving, valid exactly as long as the entitlement. */
  ghost predicate TokensOk(tokens: map<TokenId, Token>, serving: bool, until: Time) {
    && (forall k: TokenId | IsLive(tokens, k) :: serving && tokens[k].expires == until)
    && (forall j: TokenId, k: TokenId | IsLive(tokens, j) && IsLive(tokens, k) :: j == k)
  }

  ghost predicate Inv(c: Credential) {
    && HistoryOk(c.ops, c.sent)
    && c.version == |c.sent|
    && Matches(c.status, OpAt(c.ops, c.sent, c.version))
    && BindingOk(c.status, c.version, c.allocRev, OpAt(c.ops, c.sent, c.version))
    && AllocationOk(c.ops, c.sent, c.snapshots, c.allocRev)
    && ProfileOk(c.status, c.endpoints, c.snapshots, c.allocRev)
    && TokensOk(c.tokens, Serving(c), c.entitlement)
  }

  // ---- how operations and commands change -----------------------------------------------------

  /** A new command extends the history and leaves the older operations alone. */
  lemma IssueHistory(ops: Ops, sent: seq<Sent>, op: OpId, o: AccessOp)
    requires HistoryOk(ops, sent) && op !in ops
    requires o.rev == |sent| + 1 && (o.kind == Revoke <==> o.allocRev.Some?)
    ensures var ops', sent' := ops[op := o], sent + [Sent(op, o.kind, o.rev)];
            && HistoryOk(ops', sent')
            && OpAt(ops', sent', |sent| + 1) == o
            && forall rev: nat | 1 <= rev <= |sent| :: OpAt(ops', sent', rev) == OpAt(ops, sent, rev)
  {
    var ops', sent' := ops[op := o], sent + [Sent(op, o.kind, o.rev)];
    forall i: nat | i < |sent'| ensures CommandOk(ops', sent', i) {
      if i < |sent| { assert CommandOk(ops, sent, i); }
    }
    forall id | id in ops' ensures OperationOk(ops', sent', id) {
      if id != op { assert OperationOk(ops, sent, id); }
    }
    forall rev: nat | 1 <= rev <= |sent| ensures OpAt(ops', sent', rev) == OpAt(ops, sent, rev) {
      assert CommandOk(ops, sent, rev - 1);
    }
  }

  /** Changing the status of one operation changes that revision only. */
  lemma StatusHistory(ops: Ops, sent: seq<Sent>, op: OpId, s: OpStatus)
    requires HistoryOk(ops, sent) && op in ops
    ensures var ops' := ops[op := ops[op].(status := s)];
            && HistoryOk(ops', sent)
            && forall rev: nat | 1 <= rev <= |sent| ::
                 OpAt(ops', sent, rev) ==
                 if rev == ops[op].rev then ops[op].(status := s) else OpAt(ops, sent, rev)
  {
    var ops' := ops[op := ops[op].(status := s)];
    assert OperationOk(ops, sent, op);
    forall i: nat | i < |sent| ensures CommandOk(ops', sent, i) {
      assert CommandOk(ops, sent, i);
    }
    forall id | id in ops' ensures OperationOk(ops', sent, id) {
      assert OperationOk(ops, sent, id);
    }
    forall rev: nat | 1 <= rev <= |sent|
      ensures OpAt(ops', sent, rev) == if rev == ops[op].rev then ops[op].(status := s) else OpAt(ops, sent, rev)
    {
      assert CommandOk(ops, sent, rev - 1);
    }
  }

  function BindAll(ops: Ops, version: nat, allocRev: nat): Ops {
    map id | id in ops :: BindRevoke(ops[id], version, allocRev)
  }

  /** Rebinding the pending revoke changes the newest revision only. */
  lemma BindHistory(ops: Ops, sent: seq<Sent>, allocRev: nat)
    requires HistoryOk(ops, sent)
    ensures var ops' := BindAll(ops, |sent|, allocRev);
            && HistoryOk(ops', sent)
            && forall rev: nat | 1 <= rev <= |sent| ::
                 OpAt(ops', sent, rev) == BindRevoke(OpAt(ops, sent, rev), |sent|, allocRev)
  {
    var ops' := BindAll(ops, |sent|, allocRev);
    forall i: nat | i < |sent| ensures CommandOk(ops', sent, i) {
      assert CommandOk(ops, sent, i);
    }
    forall id | id in ops' ensures OperationOk(ops', sent, id) {
      assert OperationOk(ops, sent, id);
    }
  }

  lemma OpIsAt(ops: Ops, sent: seq<Sent>, id: OpId)
    requires HistoryOk(ops, sent) && id in ops
    ensures 1 <= ops[id].rev <= |sent| && OpAt(ops, sent, ops[id].rev) == ops[id]
  {
    assert OperationOk(ops, sent, id);
  }

  // ---- subscription lifecycle, tokens and recovery ----------------------------------------------

  lemma PeriodInv(c: Credential, op: OpId, until: Time, now: Time)
    requires Inv(c) && Period(c, op, until, now).Ok?
    ensures Inv(Period(c, op, until, now).value)
  {
    var d := Period(c, op, until, now).value;
    if until > now && (c.status == Revoking || c.status == Failed) {
      IssueHistory(c.ops, c.sent, op, AccessOp(Provision, c.version + 1, Open, None));
    } else if d != c {
      forall k: TokenId | IsLive(d.tokens, k)
        ensures Serving(d) && d.tokens[k].expires == d.entitlement && IsLive(c.tokens, k)
      {
        assert IsLive(c.tokens, k);
      }
    }
  }

  lemma RetiredTokens(c: Credential, s: TokenStatus, until: Time)
    requires s != Live
    ensures TokensOk(RetireTokens(c, s).tokens, false, until)
  {
  }

  lemma TerminalInv(c: Credential, op: OpId, expired: bool, effective: Time)
    requires Inv(c) && Terminal(c, op, expired, effective).Ok?
    ensures Inv(Terminal(c, op, expired, effective).value)
  {
    if Terminal(c, op, expired, effective).value != c {
      IssueHistory(c.ops, c.sent, op, AccessOp(Revoke, c.version + 1, Open, Some(c.allocRev)));
      RetiredTokens(c.(status := Revoking, version := c.version + 1), Withdrawn, c.entitlement);
    }
  }

  lemma RecoverInv(c: Credential, op: OpId, now: Time)
    requires Inv(c) && Recover(c, op, now).Ok?
    ensures Inv(Recover(c, op, now).value)
  {
    IssueHistory(c.ops, c.sent, op, AccessOp(Provision, c.version + 1, Open, None));
  }

  lemma TokenInv(c: Credential, rotate: bool, found: Option<TokenId>, k: TokenId, now: Time)
    requires Inv(c) && IssueToken(c, rotate, found, k, now).Ok?
    ensures Inv(IssueToken(c, rotate, found, k, now).value)
  {
    var d := IssueToken(c, rotate, found, k, now).value;
    if found.Some? { assert IsLive(c.tokens, found.value); }
    forall j: TokenId | IsLive(d.tokens, j) ensures j == k {
      if j != k { assert IsLive(c.tokens, j) && LiveToken(c, j); }
    }
  }

  // ---- provisioning outcomes --------------------------------------------------------------------

  lemma TwoElements(s: seq<NodeId>)
    requires |s| == 2 && NoDuplicates(s)
    ensures Elements(s) == {s[0], s[1]} && |Elements(s)| == 2
  {
  }

  /** The endpoint rows hold exactly the listed endpoints. */
  lemma {:induction false} RowsOf(es: seq<Endpoint>, rev: nat)
    requires forall i, j | 0 <= i < j < |es| :: es[i].node != es[j].node
    ensures EndpointRows(es, rev).Keys == set i | 0 <= i < |es| :: es[i].node
    ensures forall i | 0 <= i < |es| :: es[i].node in EndpointRows(es, rev)
                                        && EndpointRows(es, rev)[es[i].node] == EndpointRow(es[i].role, rev)
  {
    if es != [] {
      var init := es[..|es| - 1];
      RowsOf(init, rev);
      assert forall i | 0 <= i < |init| :: init[i] == es[i];
      assert EndpointRows(es, rev).Keys == EndpointRows(init, rev).Keys + {es[|es| - 1].node};
    }
  }

  lemma {:induction false} CountLength(es: seq<Endpoint>)
    ensures |es| == CountRole(es, Primary) + CountRole(es, Failover)
  {
    if es != [] { CountLength(es[..|es| - 1]); }
  }

  /** The contract checks leave exactly one shape for each status. */
  lemma EndpointShape(b: Body)
    requires ValidProvisionDone(b)
    ensures b.status == FullyReady ==> |b.endpoints| == 2 && b.endpoints[0].role != b.endpoints[1].role
    ensures b.status == DegradedReady ==> |b.endpoints| == 1 && b.endpoints[0].role == Primary
  {
    var es := b.endpoints;
    CountLength(es);
    assert es[..|es| - 1][..0] == [];
    assert |es| == 2 ==> es[..1][0] == es[0];
  }

  /** A validated success gives a complete profile on assigned nodes. */
  lemma SnapshotProfile(b: Body, snapshots: map<nat, set<NodeId>>, s: Status)
    requires ValidProvisionDone(b) && b.rev in snapshots && snapshots[b.rev] == Elements(b.placed)
    requires s == (if b.status == FullyReady then Active else Degraded)
    ensures ProfileOk(s, EndpointRows(b.endpoints, b.rev), snapshots, b.rev)
  {
    var rows := EndpointRows(b.endpoints, b.rev);
    var es := b.endpoints;
    RowsOf(es, b.rev);
    EndpointShape(b);
    if b.status == FullyReady {
      var p, f := if es[0].role == Primary then es[0].node else es[1].node,
                  if es[0].role == Primary then es[1].node else es[0].node;
      assert rows.Keys == {p, f};
      assert RowOf(rows, p, Primary, b.rev) && RowOf(rows, f, Failover, b.rev);
    } else {
      assert rows.Keys == {es[0].node};
      assert RowOf(rows, es[0].node, Primary, b.rev);
    }
  }

  lemma LateInv(c: Credential, b: Body)
    requires Inv(c) && c.status == Revoking && ValidProvisionDone(b)
    requires b.op in c.ops && c.ops[b.op].kind == Provision && c.ops[b.op].rev == b.rev && c.ops[b.op].status == Open
    requires LateProvision(c, b).Ok?
    ensures Inv(LateProvision(c, b).value)
  {
    OpIsAt(c.ops, c.sent, b.op);
    if b.rev < c.version {
      StatusHistory(c.ops, c.sent, b.op, Done);
      if c.allocRev < b.rev {
        LateBinds(c, b);
        LateHistory(c, b);
        TwoElements(b.placed);
      }
    }
  }

  /** A late success rebinds the pending revoke and completes its own operation. */
  lemma LateHistory(c: Credential, b: Body)
    requires HistoryOk(c.ops, c.sent) && c.version == |c.sent| && b.ProvisionDone? && b.op in c.ops
    requires c.ops[b.op].kind == Provision && c.ops[b.op].rev == b.rev
    requires 1 <= b.rev < c.version && c.allocRev < b.rev && LateProvision(c, b).Ok?
    requires OpAt(c.ops, c.sent, c.version).kind == Revoke && OpAt(c.ops, c.sent, c.version).status == Open
    ensures var d := LateProvision(c, b).value;
            && HistoryOk(d.ops, d.sent)
            && OpAt(d.ops, d.sent, c.version) == OpAt(c.ops, c.sent, c.version).(allocRev := Some(b.rev))
            && OpAt(d.ops, d.sent, b.rev) == OpAt(c.ops, c.sent, b.rev).(status := Done)
  {
    OpIsAt(c.ops, c.sent, b.op);
    StatusHistory(c.ops, c.sent, b.op, Done);
    OpIsAt(c.ops, c.sent, c.sent[c.version - 1].op);
    BindHistory(SetOp(c, b.op, Done).ops, c.sent, b.rev);
  }

  lemma LateBinds(c: Credential, b: Body)
    requires HistoryOk(c.ops, c.sent) && c.version == |c.sent|
    requires b.ProvisionDone? && b.op in c.ops && b.rev < c.version && c.allocRev < b.rev
    requires LateProvision(c, b).Ok?
    ensures OpAt(c.ops, c.sent, c.version).status == Open
  {
    var id :| id in c.ops && PendingRevoke(c, id);
    OpIsAt(c.ops, c.sent, id);
  }

  lemma ProvisionDoneInv(c: Credential, b: Body, now: Time, revokeOp: OpId)
    requires Inv(c) && ValidProvisionDone(b) && ApplyProvisionDone(c, b, now, revokeOp).Ok?
    ensures Inv(ApplyProvisionDone(c, b, now, revokeOp).value)
  {
    var d := ApplyProvisionDone(c, b, now, revokeOp).value;
    if c.ops[b.op].status == Open && c.status != Revoked {
      OpIsAt(c.ops, c.sent, b.op);
      if c.status == Revoking {
        LateInv(c, b);
      } else if c.version == b.rev {
        StatusHistory(c.ops, c.sent, b.op, Done);
        TwoElements(b.placed);
        var e := SetOp(ReplaceSnapshots(c, b), b.op, Done).(allocRev := b.rev);
        if c.entitlement <= now {
          IssueHistory(e.ops, e.sent, revokeOp, AccessOp(Revoke, b.rev + 1, Open, Some(b.rev)));
          RetiredTokens(e.(status := Revoking, version := b.rev + 1), Expired, c.entitlement);
        } else {
          SnapshotProfile(b, d.snapshots, d.status);
        }
      }
    }
  }

  lemma OperationFailedInv(c: Credential, b: Body)
    requires Inv(c) && b.OperationFailed? && ApplyOperationFailed(c, b).Ok?
    ensures Inv(ApplyOperationFailed(c, b).value)
  {
    OpIsAt(c.ops, c.sent, b.op);
    StatusHistory(c.ops, c.sent, b.op, Broken);
  }

  lemma RevokeDoneInv(c: Credential, b: Body)
    requires Inv(c) && b.RevokeDone? && ApplyRevokeDone(c, b).Ok?
    ensures Inv(ApplyRevokeDone(c, b).value)
  {
    OpIsAt(c.ops, c.sent, b.op);
    StatusHistory(c.ops, c.sent, b.op, Done);
  }

  lemma OutcomeInv(c: Credential, e: OutcomeEvent, now: Time, revokeOp: OpId)
    requires Inv(c) && ApplyOutcome(c, e, now, revokeOp).Ok?
    ensures Inv(ApplyOutcome(c, e, now, revokeOp).value)
  {
    if e.id !in c.inbox {
      var d := c.(cursor := e.seqNo, inbox := c.inbox[e.id := e]);
      assert Inv(d);
      match e.payload
      case ProvisionDone(_, _, _, _, _) => ProvisionDoneInv(d, e.payload, now, revokeOp);
      case OperationFailed(_, _, _, _) => OperationFailedInv(d, e.payload);
      case RevokeDone(_, _, _, _) => RevokeDoneInv(d, e.payload);
    }
  }

  // ---- every run ---------------------------------------------------------------------------------

  lemma StepInv(c: Credential, l: Label)
    requires Inv(c)
    ensures Inv(Step(c, l))
  {
    if Attempt(c, l).Ok? {
      match l
      case OnPeriod(op, until, now) => PeriodInv(c, op, until, now);
      case OnTerminal(op, expired, effective) => TerminalInv(c, op, expired, effective);
      case OnOutcome(e, now, revokeOp) => OutcomeInv(c, e, now, revokeOp);
      case OnToken(rotate, found, k, now) => TokenInv(c, rotate, found, k, now);
      case OnRecover(op, now) => RecoverInv(c, op, now);
    }
  }

  lemma {:induction false} RunInv(op: OpId, until: Time, labels: seq<Label>)
    ensures Inv(Run(op, until, labels))
  {
    if labels == [] {
      var c := NewCredential(op, until);
      assert CommandOk(c.ops, c.sent, 0) && OperationOk(c.ops, c.sent, op);
    } else {
      RunInv(op, until, labels[..|labels| - 1]);
      StepInv(Run(op, until, labels[..|labels| - 1]), labels[|labels| - 1]);
    }
  }
}
