/**
 The access store as it runs: rows are read into locals, changed step by step and written
 back when the transaction commits; an error leaves the tables as they were.
 */
module AccessStore {
  import opened Common
  import opened Access
  import opened AccessSafety
  import opened AccessTheorems
  import opened AccessEffects
  import opened Subscriptions
  import opened SubscriptionEffects

  // ---- validation and comparison loops ----------------------------------------------------------

  method ValidUnique(ids: seq<NodeId>) returns (ok: bool)
    ensures ok == NoDuplicates(ids)
  {
    var seen: set<NodeId> := {};
    for i := 0 to |ids|
      invariant NoDuplicates(ids[..i])
      invariant seen == Elements(ids[..i])
    {
      if ids[i] in seen {
        ghost var j :| 0 <= j < i && ids[..i][j] == ids[i];
        assert ids[j] == ids[i];
        return false;
      }
      assert ids[..i + 1] == ids[..i] + [ids[i]];
      seen := seen + {ids[i]};
    }
    assert ids[..|ids|] == ids;
    return true;
  }

  function EndpointNodes(es: seq<Endpoint>): set<NodeId> {
    set i | 0 <= i < |es| :: es[i].node
  }

  predicate DistinctNodes(es: seq<Endpoint>) {
    forall i, j | 0 <= i < j < |es| :: es[i].node != es[j].node
  }

  /** One pass over the endpoints, stopping at the first repeated or unassigned node. */
  method CountEndpoints(es: seq<Endpoint>, placed: seq<NodeId>) returns (ok: bool, primary: nat, failover: nat)
    ensures ok == (DistinctNodes(es) && forall i | 0 <= i < |es| :: es[i].node in placed)
    ensures ok ==> primary == CountRole(es, Primary) && failover == CountRole(es, Failover)
  {
    var seen: set<NodeId> := {};
    primary, failover := 0, 0;
    for i := 0 to |es|
      invariant DistinctNodes(es[..i])
      invariant forall j | 0 <= j < i :: es[j].node in placed
      invariant seen == EndpointNodes(es[..i])
      invariant primary == CountRole(es[..i], Primary) && failover == CountRole(es[..i], Failover)
    {
      if es[i].node in seen {
        ghost var j :| 0 <= j < i && es[..i][j].node == es[i].node;
        assert es[j].node == es[i].node;
        return false, primary, failover;
      }
      if es[i].node !in placed {
        return false, primary, failover;
      }
      assert es[..i + 1][..i] == es[..i] && es[..i + 1] == es[..i] + [es[i]];
      seen := seen + {es[i].node};
      if es[i].role == Primary { primary := primary + 1; } else { failover := failover + 1; }
    }
    assert es[..|es|] == es;
    ok := true;
  }

  /** A primary and a failover on the two assigned nodes, or for a degraded success the primary alone. */
  predicate FitsStatus(es: seq<Endpoint>, status: ReadyStatus, placed: seq<NodeId>) {
    match status
    case FullyReady =>
      |es| == 2 && es[0].role != es[1].role && es[0].node != es[1].node && es[0].node in placed && es[1].node in placed
    case DegradedReady => |es| == 1 && es[0].role == Primary && es[0].node in placed
  }

  lemma {:induction false} RolesCount(es: seq<Endpoint>)
    ensures CountRole(es, Primary) + CountRole(es, Failover) == |es|
  {
    if es != [] { RolesCount(es[..|es| - 1]); }
  }

  /** The counts of roles spell out the endpoint list. */
  lemma ValidMeans(b: Body)
    requires b.ProvisionDone?
    ensures ValidProvisionDone(b) <==>
            b.rev >= 1 && |b.placed| == 2 && b.placed[0] != b.placed[1] && FitsStatus(b.endpoints, b.status, b.placed)
  {
    var es := b.endpoints;
    RolesCount(es);
    if |es| == 1 || |es| == 2 { FewRoles(es); }
  }

  lemma FewRoles(es: seq<Endpoint>)
    requires 1 <= |es| <= 2
    ensures CountRole(es, Primary) == (if es[0].role == Primary then 1 else 0) + (if |es| == 2 && es[1].role == Primary then 1 else 0)
  {
    assert CountRole([], Primary) == 0;
    assert [es[0]][..0] == [] && CountRole([es[0]], Primary) == if es[0].role == Primary then 1 else 0;
    if |es| == 2 { assert es[..1] == [es[0]]; } else { assert es == [es[0]]; }
  }

  method ValidateProvisionSucceeded(b: Body) returns (ok: bool)
    requires b.ProvisionDone?
    ensures ok == ValidProvisionDone(b)
    ensures ok <==> b.rev >= 1 && |b.placed| == 2 && b.placed[0] != b.placed[1] && FitsStatus(b.endpoints, b.status, b.placed)
  {
    ValidMeans(b);
    var unique := ValidUnique(b.placed);
    if b.rev < 1 || |b.placed| != 2 || !unique {
      return false;
    }
    var clean, primary, failover := CountEndpoints(b.endpoints, b.placed);
    if !clean {
      return false;
    }
    return !(primary != 1 || failover > 1 || (b.status == FullyReady && failover != 1)
             || (b.status == DegradedReady && failover != 0));
  }

  /** Length, then repeated reported nodes, then missing recorded nodes. */
  method CompareNodes(expected: seq<NodeId>, reported: seq<NodeId>) returns (same: bool)
    ensures same == (|expected| == |reported| && NoDuplicates(reported) && Elements(expected) <= Elements(reported))
  {
    if |expected| != |reported| {
      return false;
    }
    var unique := ValidUnique(reported);
    if !unique {
      return false;
    }
    var seen := Elements(reported);
    for i := 0 to |expected|
      invariant forall j | 0 <= j < i :: expected[j] in seen
    {
      if expected[i] !in seen {
        assert expected[i] in Elements(expected);
        return false;
      }
    }
    return true;
  }

  /** The comparison means set equality exactly when the recorded list has no repeated node. */
  lemma CompareNodesExact(expected: seq<NodeId>, reported: seq<NodeId>)
    requires |expected| == |reported| && NoDuplicates(reported) && Elements(expected) <= Elements(reported)
    ensures Elements(expected) == Elements(reported) <==> NoDuplicates(expected)
  {
    ElementsCard(reported);
    if NoDuplicates(expected) {
      ElementsCard(expected);
      SubsetOfSameSize(Elements(expected), Elements(reported));
    } else {
      RepeatedIsSmaller(expected);
    }
  }

  /** A recorded list with a repeated node would let a different set of nodes through. */
  lemma RepeatedNodeAccepted(n: NodeId, other: NodeId)
    requires n != other
    ensures |[n, n]| == |[n, other]| && NoDuplicates([n, other]) && Elements([n, n]) <= Elements([n, other])
    ensures Elements([n, n]) != Elements([n, other])
  {
    var recorded, reported := [n, n], [n, other];
    assert reported[0] == n && reported[1] == other;
    assert other in Elements(reported) && n in Elements(reported);
    forall x | x in Elements(recorded) ensures x == n { }
  }

  lemma RepeatedIsSmaller(s: seq<NodeId>)
    requires !NoDuplicates(s)
    ensures |Elements(s)| < |s|
  {
    var i, j :| 0 <= i < j < |s| && s[i] == s[j];
    var rest := s[..j] + s[j + 1..];
    forall x | x in Elements(s) ensures x in Elements(rest) {
      var k :| 0 <= k < |s| && s[k] == x;
      if k < j { assert rest[k] == x; } else if k == j { assert rest[i] == x; } else { assert rest[k - 1] == x; }
    }
    ElementsBound(rest);
    SubsetSize(Elements(s), Elements(rest));
  }

  lemma {:induction false} ElementsBound(s: seq<NodeId>)
    ensures |Elements(s)| <= |s|
  {
    if s != [] {
      ElementsBound(s[..|s| - 1]);
      assert Elements(s) == Elements(s[..|s| - 1]) + {s[|s| - 1]};
    }
  }

  lemma AppendElement(ids: seq<NodeId>, x: NodeId)
    requires NoDuplicates(ids) && x !in Elements(ids)
    ensures NoDuplicates(ids + [x]) && Elements(ids + [x]) == Elements(ids) + {x}
  {
    var longer := ids + [x];
    assert longer[|ids|] == x;
    forall i | 0 <= i < |ids| ensures longer[i] == ids[i] && ids[i] in Elements(ids) && longer[i] in Elements(longer) {
    }
  }

  method ListAssigned(nodes: set<NodeId>) returns (ids: seq<NodeId>)
    ensures NoDuplicates(ids) && Elements(ids) == nodes && |ids| == |nodes|
  {
    ids := [];
    var rest := nodes;
    while rest != {}
      invariant NoDuplicates(ids)
      invariant rest <= nodes && Elements(ids) == nodes - rest
    {
      var x :| x in rest;
      AppendElement(ids, x);
      ids, rest := ids + [x], rest - {x};
    }
    ElementsCard(ids);
  }

  /** Deletes and re-inserts the assignment rows of one revision and all endpoint rows. */
  method ReplaceProvisionSnapshots(c: Credential, b: Body) returns (d: Credential)
    requires b.ProvisionDone?
    ensures d == ReplaceSnapshots(c, b)
  {
    var assignedNodes: set<NodeId> := {};
    for i := 0 to |b.placed|
      invariant assignedNodes == Elements(b.placed[..i])
    {
      assert b.placed[..i + 1] == b.placed[..i] + [b.placed[i]];
      assignedNodes := assignedNodes + {b.placed[i]};
    }
    assert b.placed[..|b.placed|] == b.placed;
    var endpoints: map<NodeId, EndpointRow> := map[];
    for i := 0 to |b.endpoints|
      invariant endpoints == EndpointRows(b.endpoints[..i], b.rev)
    {
      assert b.endpoints[..i + 1][..i] == b.endpoints[..i];
      endpoints := endpoints[b.endpoints[i].node := EndpointRow(b.endpoints[i].role, b.rev)];
    }
    assert b.endpoints[..|b.endpoints|] == b.endpoints;
    d := c.(snapshots := c.snapshots[b.rev := assignedNodes], endpoints := endpoints);
  }

  // ---- transactions on one credential's rows ------------------------------------------------------

  /** Inserts an operation and its command, and fails on a reused operation id. */
  method InsertOperation(c: Credential, op: OpId, kind: Kind, rev: nat, allocRev: Option<nat>) returns (r: Result<Credential>)
    ensures r == Issue(c, op, kind, rev, allocRev)
  {
    if op in c.ops {
      return Err(Internal);
    }
    var d := c.(ops := c.ops[op := AccessOp(kind, rev, Open, allocRev)]);
    d := d.(sent := d.sent + [Sent(op, kind, rev)]);
    return Ok(d);
  }

  /** A paid period: its effect on every row, and that the credential stays consistent. */
  method PeriodRows(before: Credential, op: OpId, until: Time, now: Time) returns (r: Result<Credential>)
    requires before.status != Revoked && until > now
    ensures r == Period(before, op, until, now)
    ensures PeriodEffect(before, op, until, r)
    ensures Inv(before) && r.Ok? ==> Inv(r.value)
  {
    PeriodHas(before, op, until, now);
    if Inv(before) && Period(before, op, until, now).Ok? { PeriodInv(before, op, until, now); }
    var c := before;
    if c.status == Revoking || c.status == Failed {
      var revision := c.version + 1;
      c := c.(status := Provisioning, version := revision, allocRev := 0, entitlement := Later(c.entitlement, until));
      c := c.(endpoints := map[]);
      r := InsertOperation(c, op, Provision, revision, None);
    } else {
      c := c.(entitlement := Later(c.entitlement, until));
      c := c.(tokens := map k | k in c.tokens :: Lengthen(c.tokens[k], until));
      r := Ok(c);
    }
  }

  /** The end of a subscription: its effect on every row, and that the credential stays consistent. */
  method TerminalRows(before: Credential, op: OpId, expired: bool, effective: Time) returns (r: Result<Credential>)
    requires before.status != Revoked
    ensures r == Terminal(before, op, expired, effective)
    ensures TerminalEffect(before, op, expired, effective, r)
    ensures Inv(before) && r.Ok? ==> Inv(r.value)
  {
    TerminalHas(before, op, expired, effective);
    if Inv(before) && Terminal(before, op, expired, effective).Ok? { TerminalInv(before, op, expired, effective); }
    var c := before;
    if expired && effective < c.entitlement {
      return Ok(c);
    }
    if c.status == Revoking {
      return Ok(c);
    }
    var revision, allocation := c.version + 1, c.allocRev;
    c := c.(status := Revoking, version := revision);
    c := RetireTokens(c, Withdrawn);
    r := InsertOperation(c, op, Revoke, revision, Some(allocation));
  }

  /** Rebinds the pending revoke of this version and reports how many rows that touched. */
  method BindPendingRevoke(c: Credential, version: nat, allocRev: nat) returns (d: Credential, touched: bool)
    ensures d == c.(ops := BindAll(c.ops, version, allocRev))
    ensures touched <==> exists id :: id in c.ops && c.ops[id].kind == Revoke && c.ops[id].rev == version && c.ops[id].status == Open
  {
    touched := exists id :: id in c.ops && c.ops[id].kind == Revoke && c.ops[id].rev == version && c.ops[id].status == Open;
    d := c.(ops := map id | id in c.ops :: BindRevoke(c.ops[id], version, allocRev));
  }

  /** A success that arrives while revoking. */
  method LateProvisionRows(before: Credential, b: Body) returns (r: Result<Credential>)
    requires b.ProvisionDone? && b.op in before.ops && before.ops[b.op].kind == Provision
    ensures r == LateProvision(before, b)
    ensures LateEffect(before, b, r)
  {
    LateHas(before, b);
    var c := before;
    if c.version <= b.rev {
      return Ok(c);
    }
    if b.rev <= c.allocRev {
      c := SetOp(c, b.op, Done);
      return Ok(c);
    }
    c := ReplaceProvisionSnapshots(c, b);
    c := SetOp(c, b.op, Done);
    c := c.(allocRev := b.rev);
    var d, touched := BindPendingRevoke(c, c.version, b.rev);
    LatePending(before, b);
    return if touched then Ok(d) else Err(Conflict);
  }

  /** Completing a provisioning operation does not change which revoke is pending. */
  lemma LatePending(c: Credential, b: Body)
    requires b.ProvisionDone? && b.op in c.ops && c.ops[b.op].kind == Provision
    ensures (exists id :: id in c.ops && PendingRevoke(c, id)) <==>
            exists id :: id in SetOp(c, b.op, Done).ops && PendingRevoke(SetOp(c, b.op, Done), id)
  {
    var d := SetOp(c, b.op, Done);
    forall id: OpId ensures PendingRevoke(c, id) <==> PendingRevoke(d, id) { }
    if id :| id in c.ops && PendingRevoke(c, id) { assert id in d.ops && PendingRevoke(d, id); }
    if id :| id in d.ops && PendingRevoke(d, id) { assert id in c.ops && PendingRevoke(c, id); }
  }

  /**
   A provisioning success.  For a consistent credential whose newest operation it completes, the
   result is served, as reported and without a new command, exactly before the entitlement ends;
   after that it is being revoked, with one revoke command for the applied allocation and no live
   token.  All other cases are ignored, refused or late as the effect says.
   */
  method ProvisionSucceededRows(before: Credential, b: Body, now: Time, revokeOp: OpId) returns (r: Result<Credential>)
    requires b.ProvisionDone?
    ensures r == ApplyProvisionDone(before, b, now, revokeOp)
    ensures SuccessEffect(before, b, now, revokeOp, r)
    ensures Inv(before) && Names(before, b.op, Provision, b.rev) && before.ops[b.op].status == Open && b.rev == before.version
            && revokeOp !in before.ops ==>
              && r.Ok?
              && (r.value.status == Active <==> now < before.entitlement && b.status == FullyReady)
              && (r.value.status == Degraded <==> now < before.entitlement && b.status == DegradedReady)
              && (r.value.sent == before.sent <==> now < before.entitlement)
              && (now >= before.entitlement ==>
                    r.value.status == Revoking && r.value.sent == before.sent + [Sent(revokeOp, Revoke, before.version + 1)]
                    && forall k: TokenId :: !LiveToken(r.value, k))
  {
    r := SuccessSteps(before, b, now, revokeOp);
    SuccessHas(before, b, now, revokeOp);
    if Inv(before) && Names(before, b.op, Provision, b.rev) && before.ops[b.op].status == Open && b.rev == before.version && revokeOp !in before.ops {
      ServedIffEntitled(before, b, now, revokeOp);
    }
  }

  method SuccessSteps(before: Credential, b: Body, now: Time, revokeOp: OpId) returns (r: Result<Credential>)
    requires b.ProvisionDone?
    ensures r == ApplyProvisionDone(before, b, now, revokeOp)
  {
    var c := before;
    if !(b.op in c.ops && c.ops[b.op].kind == Provision && c.ops[b.op].rev == b.rev) {
      return Err(Conflict);
    }
    if c.ops[b.op].status != Open || c.status == Revoked {
      return Ok(c);
    }
    if c.status == Revoking {
      r := LateProvisionRows(c, b);
      return;
    }
    if c.version != b.rev {
      return Ok(c);
    }
    c := ReplaceProvisionSnapshots(c, b);
    c := SetOp(c, b.op, Done);
    if c.entitlement <= now {
      c := c.(status := Revoking, version := b.rev + 1, allocRev := b.rev);
      c := RetireTokens(c, Expired);
      r := InsertOperation(c, revokeOp, Revoke, b.rev + 1, Some(b.rev));
      return;
    }
    c := c.(status := if b.status == FullyReady then Active else Degraded, allocRev := b.rev);
    return Ok(c);
  }

  /**
   A failure report: refused exactly when it names no operation, and effective exactly when it is
   terminal for the open newest operation, which is then broken; a provisioning leaves the
   credential failed, a revoke leaves it revoking.
   */
  method OperationFailedRows(before: Credential, b: Body) returns (r: Result<Credential>)
    requires b.OperationFailed?
    ensures r == ApplyOperationFailed(before, b)
    ensures FailureEffect(before, b, r)
    ensures Inv(before) && r.Ok? ==> Inv(r.value)
    ensures Inv(before) && r.Ok? && r.value != before ==>
              && OpAt(r.value.ops, r.value.sent, r.value.version).status == Broken
              && (if b.kind == Provision then before.status == Provisioning && r.value.status == Failed
                  else before.status == Revoking && r.value.status == Revoking)
  {
    FailureHas(before, b);
    if Inv(before) && ApplyOperationFailed(before, b).Ok? {
      OperationFailedInv(before, b);
      OpIsAt(before.ops, before.sent, b.op);
      OpIsAt(ApplyOperationFailed(before, b).value.ops, before.sent, b.op);
    }
    var c := before;
    if !(b.op in c.ops && c.ops[b.op].kind == b.kind && c.ops[b.op].rev == b.rev) {
      return Err(Conflict);
    }
    if c.version != b.rev || c.ops[b.op].status != Open {
      return Ok(c);
    }
    if b.terminal {
      c := SetOp(c, b.op, Broken);
      if b.kind == Provision {
        c := c.(status := Failed);
      }
    }
    return Ok(c);
  }

  method RevokeSucceededRows(before: Credential, b: Body) returns (r: Result<Credential>)
    requires b.RevokeDone?
    ensures r == ApplyRevokeDone(before, b)
    ensures RevokeEffect(before, b, r)
  {
    RevokeHas(before, b);
    var c := before;
    if !(b.op in c.ops && c.ops[b.op].kind == Revoke && c.ops[b.op].rev == b.rev) {
      return Err(Conflict);
    }
    if c.status != Revoking && c.status != Revoked {
      return Err(Internal);
    }
    if c.version != b.rev || c.ops[b.op].status != Open {
      return Ok(c);
    }
    if c.allocRev != b.allocRev || c.ops[b.op].allocRev != Some(b.allocRev) {
      return Err(Conflict);
    }
    var recorded := ListAssigned(SnapshotAt(c, b.allocRev));
    var same := CompareNodes(recorded, b.nodes);
    if !same {
      return Err(Conflict);
    }
    c := c.(status := Revoked);
    c := SetOp(c, b.op, Done);
    return Ok(c);
  }

  method ValidateBody(b: Body) returns (ok: bool)
    ensures ok == ValidBody(b)
    ensures b.OperationFailed? ==> (ok <==> b.rev >= 1)
    ensures b.RevokeDone? ==> (ok <==> b.rev >= 1 && forall i, j | 0 <= i < j < |b.nodes| :: b.nodes[i] != b.nodes[j])
  {
    match b
    case ProvisionDone(_, _, _, _, _) => ok := ValidateProvisionSucceeded(b);
    case OperationFailed(_, _, rev, _) => ok := rev >= 1;
    case RevokeDone(_, rev, _, nodes) =>
      var unique := ValidUnique(nodes);
      ok := rev >= 1 && unique;
  }

  method OutcomeRows(before: Credential, e: OutcomeEvent, now: Time, revokeOp: OpId) returns (r: Result<Credential>)
    ensures r == ApplyOutcome(before, e, now, revokeOp)
    ensures OutcomeEffect(before, e, now, revokeOp, r)
  {
    OutcomeHas(before, e, now, revokeOp);
    var valid := ValidateBody(e.payload);
    if !valid || e.seqNo < 1 {
      return Err(Conflict);
    }
    var c := before;
    if e.seqNo > c.cursor + 1 {
      return Err(Gap);
    }
    if e.id in c.inbox {
      return if c.inbox[e.id] == e then Ok(c) else Err(Conflict);
    }
    if e.seqNo <= c.cursor {
      return Err(Conflict);
    }
    c := c.(inbox := c.inbox[e.id := e]);
    c := c.(cursor := e.seqNo);
    match e.payload
    case ProvisionDone(_, _, _, _, _) => r := ProvisionSucceededRows(c, e.payload, now, revokeOp);
    case OperationFailed(_, _, _, _) => r := OperationFailedRows(c, e.payload);
    case RevokeDone(_, _, _, _) => r := RevokeSucceededRows(c, e.payload);
  }

  method FindLive(c: Credential) returns (live: Option<TokenId>)
    ensures FoundLive(c, live)
  {
    if k :| k in c.tokens && c.tokens[k].status == Live {
      assert LiveToken(c, k);
      return Some(k);
    }
    return None;
  }

  method TokenRows(before: Credential, rotate: bool, k: TokenId, now: Time) returns (live: Option<TokenId>, r: Result<Credential>)
    ensures r == IssueToken(before, rotate, live, k, now)
    ensures FoundLive(before, live) && TokenEffect(before, rotate, live, k, now, r)
  {
    var c := before;
    live := FindLive(c);
    TokenHas(before, rotate, live, k, now);
    if !(c.status == Active || c.status == Degraded) || c.entitlement <= now {
      return live, Err(Conflict);
    }
    if rotate {
      if live.None? {
        return live, Err(Conflict);
      }
      c := c.(tokens := c.tokens[live.value := c.tokens[live.value].(status := Rotated)]);
    } else if live.Some? {
      return live, Err(Conflict);
    }
    if k in c.tokens {
      return live, Err(Conflict);
    }
    c := c.(tokens := c.tokens[k := Token(Live, c.entitlement)]);
    r := Ok(c);
  }

  method RecoverRows(before: Credential, op: OpId, now: Time) returns (r: Result<Credential>)
    ensures r == Recover(before, op, now)
    ensures RecoveryEffect(before, op, now, r)
  {
    RecoveryHas(before, op, now);
    var c := before;
    if c.status != Failed || c.entitlement <= now {
      return Err(Conflict);
    }
    var revision := c.version + 1;
    c := c.(status := Provisioning, version := revision, allocRev := 0);
    c := c.(endpoints := map[]);
    r := InsertOperation(c, op, Provision, revision, None);
  }

  // ---- the store ----------------------------------------------------------------------------------

  ghost predicate DbInv(db: Db) {
    RowsInv(db) && OneCurrent(db)
  }

  lemma NextDbInv(db: Db, l: Call)
    requires DbInv(db)
    ensures DbInv(Next(db, l))
  {
    NextRowsInv(db, l);
    NextOneCurrent(db, l);
  }

  class Store {
    var rows: map<CredId, Row>
    var recoveries: map<nat, Recovery>
    var lifecycle: map<SubId, Lifecycle>
    var seen: map<EventId, Seen>

    ghost function State(): Db
      reads this
    {
      Db(rows, recoveries, lifecycle, seen)
    }

    /** What callers may rely on between transactions. */
    ghost predicate Valid()
      reads this
    {
      DbInv(State())
    }

    constructor ()
      ensures Valid() && State() == EMPTY
    {
      rows, recoveries, lifecycle, seen := map[], map[], map[], map[];
    }

    method FindCurrent(sub: SubId) returns (found: Option<CredId>)
      ensures Found(State(), sub, found)
    {
      if id :| id in rows && rows[id].sub == sub && rows[id].cred.status != Revoked {
        assert Current(State(), sub, id);
        return Some(id);
      }
      return None;
    }

    /** Writes back the rows of a transaction that succeeded. */
    method Commit(id: CredId, r: Result<Credential>)
      requires id in rows
      modifies this
      ensures var done := Put(old(State()), id, r); State() == if done.Ok? then done.value else old(State())
    {
      if r.Ok? {
        rows := rows[id := rows[id].(cred := r.value)];
      }
    }

    /** Whether a lifecycle event is next in line, was recorded before, or must be refused. */
    method PrepareLifecycle(sub: SubId, m: Meta) returns (r: Result<bool>)
      ensures var p := Prepare(State(), sub, m);
              r == if p.Err? then Err(p.error) else Ok(p.value.Some?)
      ensures r == Ok(true) <==> InTurn(State(), sub, m)
      ensures r == Ok(false) ==> m.event in seen && seen[m.event] == Seen(sub, m.seqNo, m.digest)
      ensures r == Err(Gap) <==> m.seqNo > 1 + (if sub in lifecycle then lifecycle[sub].cursor else 0)
                                 && (sub in lifecycle ==> lifecycle[sub].user == m.user)
      ensures r.Err? ==> r.error == Gap || r.error == Conflict
    {
      if m.seqNo < 1 {
        return Err(Conflict);
      }
      var last := Lifecycle(m.user, 0);
      if sub in lifecycle { last := lifecycle[sub]; }
      if last.user != m.user {
        return Err(Conflict);
      }
      if m.seqNo > last.cursor + 1 {
        return Err(Gap);
      }
      if m.event in seen {
        return if seen[m.event] == Seen(sub, m.seqNo, m.digest) then Ok(false) else Err(Conflict);
      }
      return if m.seqNo <= last.cursor then Err(Conflict) else Ok(true);
    }

    /** Records the event and advances the cursor. */
    method Record(sub: SubId, m: Meta)
      modifies this`lifecycle, this`seen
      ensures State() == Advanced(old(State()), sub, m)
    {
      lifecycle := lifecycle[sub := Lifecycle(m.user, m.seqNo)];
      seen := seen[m.event := Seen(sub, m.seqNo, m.digest)];
    }

    method ApplyPeriod(sub: SubId, m: Meta, newCred: CredId, op: OpId, until: Time, now: Time) returns (found: Option<CredId>)
      requires Valid()
      modifies this
      ensures Found(old(State()), sub, found)
      ensures State() == Next(old(State()), PeriodEvent(sub, m, found, newCred, op, until, now))
      ensures PeriodCall(old(State()), sub, m, found, newCred, op, until, now, State())
      ensures Valid()
    {
      ghost var db := State();
      found := PeriodSteps(sub, m, newCred, op, until, now);
      PeriodCallHas(db, sub, m, found, newCred, op, until, now);
      NextDbInv(db, PeriodEvent(sub, m, found, newCred, op, until, now));
    }

    method PeriodSteps(sub: SubId, m: Meta, newCred: CredId, op: OpId, until: Time, now: Time) returns (found: Option<CredId>)
      modifies this
      ensures Found(old(State()), sub, found)
      ensures State() == Next(old(State()), PeriodEvent(sub, m, found, newCred, op, until, now))
    {
      found := FindCurrent(sub);
      var turn := PrepareLifecycle(sub, m);
      if turn.Err? || !turn.value {
        return;
      }
      if until > now {
        if found.Some? {
          if rows[found.value].user != m.user { return; }
          var r := PeriodRows(rows[found.value].cred, op, until, now);
          if r.Err? { return; }
          rows := rows[found.value := rows[found.value].(cred := r.value)];
        } else {
          if newCred in rows { return; }
          rows := rows[newCred := Row(sub, m.user, NewCredential(op, until))];
        }
      }
      Record(sub, m);
    }

    /** A grace period only advances the cursor. */
    method ApplyGrace(sub: SubId, m: Meta)
      requires Valid()
      modifies this
      ensures State() == Next(old(State()), GraceEvent(sub, m))
      ensures GraceCall(old(State()), sub, m, State())
      ensures Valid()
    {
      GraceCallHas(State(), sub, m);
      NextDbInv(State(), GraceEvent(sub, m));
      var turn := PrepareLifecycle(sub, m);
      if turn.Ok? && turn.value { Record(sub, m); }
    }

    method ApplyTerminal(sub: SubId, m: Meta, op: OpId, expired: bool, effective: Time) returns (found: Option<CredId>)
      requires Valid()
      modifies this
      ensures Found(old(State()), sub, found)
      ensures State() == Next(old(State()), TerminalEvent(sub, m, found, op, expired, effective))
      ensures TerminalCall(old(State()), sub, m, found, op, expired, effective, State())
      ensures Valid()
    {
      ghost var db := State();
      found := TerminalSteps(sub, m, op, expired, effective);
      TerminalCallHas(db, sub, m, found, op, expired, effective);
      NextDbInv(db, TerminalEvent(sub, m, found, op, expired, effective));
    }

    method TerminalSteps(sub: SubId, m: Meta, op: OpId, expired: bool, effective: Time) returns (found: Option<CredId>)
      modifies this
      ensures Found(old(State()), sub, found)
      ensures State() == Next(old(State()), TerminalEvent(sub, m, found, op, expired, effective))
    {
      found := FindCurrent(sub);
      var turn := PrepareLifecycle(sub, m);
      if turn.Err? || !turn.value {
        return;
      }
      if found.Some? {
        var r := TerminalRows(rows[found.value].cred, op, expired, effective);
        if r.Err? { return; }
        rows := rows[found.value := rows[found.value].(cred := r.value)];
      }
      Record(sub, m);
    }

    method ProcessOutcome(id: CredId, e: OutcomeEvent, now: Time, revokeOp: OpId)
      requires Valid()
      modifies this
      ensures State() == Next(old(State()), Outcome(id, e, now, revokeOp))
      ensures OutcomeCall(old(State()), id, e, now, revokeOp, State())
      ensures Valid()
    {
      ghost var db := State();
      if id in rows {
        var r := OutcomeRows(rows[id].cred, e, now, revokeOp);
        Commit(id, r);
      }
      assert State() == Next(db, Outcome(id, e, now, revokeOp));
      OutcomeCallHas(db, id, e, now, revokeOp);
      NextDbInv(db, Outcome(id, e, now, revokeOp));
    }

    method IssueUrl(sub: SubId, rotate: bool, token: TokenId, now: Time)
      returns (found: Option<CredId>, live: Option<TokenId>)
      requires Valid()
      modifies this
      ensures Found(old(State()), sub, found)
      ensures State() == Next(old(State()), Url(sub, found, rotate, live, token, now))
      ensures UrlCall(old(State()), found, rotate, live, token, now, State())
      ensures Valid()
    {
      ghost var db := State();
      found, live := UrlSteps(sub, rotate, token, now);
      UrlCallHas(db, sub, found, rotate, live, token, now);
      NextDbInv(db, Url(sub, found, rotate, live, token, now));
    }

    method UrlSteps(sub: SubId, rotate: bool, token: TokenId, now: Time) returns (found: Option<CredId>, live: Option<TokenId>)
      modifies this
      ensures Found(old(State()), sub, found)
      ensures found.Some? ==> FoundLive(old(rows)[found.value].cred, live)
      ensures State() == Next(old(State()), Url(sub, found, rotate, live, token, now))
    {
      found := FindCurrent(sub);
      live := None;
      if found.Some? {
        var r;
        live, r := TokenRows(rows[found.value].cred, rotate, token, now);
        Commit(found.value, r);
      }
    }

    /** Replays the recorded result for a known key, otherwise recovers once and records it. */
    method RecoverProvisioning(key: nat, digest: nat, id: CredId, op: OpId, now: Time) returns (replay: bool)
      requires Valid()
      modifies this
      ensures State() == Next(old(State()), RecoveryRequest(key, digest, id, op, now))
      ensures RecoveryCall(old(State()), key, digest, id, op, now, State())
      ensures replay <==> key in old(recoveries) && old(recoveries)[key].digest == digest && old(recoveries)[key].cred == id
      ensures replay ==> State() == old(State())
      ensures Valid()
    {
      ghost var db := State();
      replay := RecoverSteps(key, digest, id, op, now);
      RecoveryCallHas(db, key, digest, id, op, now);
      NextDbInv(db, RecoveryRequest(key, digest, id, op, now));
    }

    method RecoverSteps(key: nat, digest: nat, id: CredId, op: OpId, now: Time) returns (replay: bool)
      modifies this
      ensures State() == Next(old(State()), RecoveryRequest(key, digest, id, op, now))
      ensures replay <==> key in old(recoveries) && old(recoveries)[key].digest == digest && old(recoveries)[key].cred == id
      ensures replay ==> State() == old(State())
    {
      replay := false;
      if key in recoveries {
        replay := recoveries[key].digest == digest && recoveries[key].cred == id;
      } else if id in rows {
        var revision := rows[id].cred.version + 1;
        var r := RecoverRows(rows[id].cred, op, now);
        Commit(id, r);
        if r.Ok? {
          recoveries := recoveries[key := Recovery(digest, id, op, revision)];
        }
      }
    }
  }
}
