/**
 The access database for one credential: the credential row, its operations, URL tokens,
 assignment and endpoint snapshots, the commands it sent to provisioning and the outcomes it
 applied.  Each transaction is a function from the rows before to the rows after.
 */
module Access {
  import opened Common
  import OI = OrderedInbox

  type TokenId = nat

  datatype Status = Provisioning | Active | Degraded | Failed | Revoking | Revoked

  datatype OpStatus = Open | Done | Broken

  /** A revoke operation carries the allocation revision it must prove removed. */
  datatype AccessOp = AccessOp(kind: Kind, rev: nat, status: OpStatus, allocRev: Option<nat>)

  datatype TokenStatus = Live | Rotated | Withdrawn | Expired

  datatype Token = Token(status: TokenStatus, expires: Time)

  datatype EndpointRow = EndpointRow(role: Role, allocRev: nat)

  /** A command written to the outbox; the envelope sequence is the revision. */
  datatype Sent = Sent(op: OpId, kind: Kind, rev: nat)

  datatype Body =
    | ProvisionDone(op: OpId, rev: nat, status: ReadyStatus, placed: seq<NodeId>, endpoints: seq<Endpoint>)
    | OperationFailed(kind: Kind, op: OpId, rev: nat, terminal: bool)
    | RevokeDone(op: OpId, rev: nat, allocRev: nat, nodes: seq<NodeId>)

  /** A numbered outcome of provisioning. */
  type OutcomeEvent = OI.Event<Body>

  datatype Credential = Credential(
    status: Status, version: nat, allocRev: nat, entitlement: Time,
    ops: map<OpId, AccessOp>,
    tokens: map<TokenId, Token>,
    snapshots: map<nat, set<NodeId>>,     // assignment snapshots by allocation revision
    endpoints: map<NodeId, EndpointRow>,
    sent: seq<Sent>,
    cursor: nat,                          // last applied outcome sequence
    inbox: map<EventId, OutcomeEvent>)

  // ---- helpers shared by the transactions -------------------------------------------------

  /** Inserts a pending operation and its command; a reused operation id violates the key. */
  function Issue(c: Credential, op: OpId, kind: Kind, rev: nat, allocRev: Option<nat>): Result<Credential> {
    if op in c.ops then Err(Internal)
    else Ok(c.(ops := c.ops[op := AccessOp(kind, rev, Open, allocRev)], sent := c.sent + [Sent(op, kind, rev)]))
  }

  function SetOp(c: Credential, op: OpId, s: OpStatus): Credential
    requires op in c.ops
  {
    c.(ops := c.ops[op := c.ops[op].(status := s)])
  }

  function Retire(t: Token, s: TokenStatus): Token {
    if t.status == Live then t.(status := s) else t
  }

  function RetireTokens(c: Credential, s: TokenStatus): Credential {
    c.(tokens := map k | k in c.tokens :: Retire(c.tokens[k], s))
  }

  function Later(a: Time, b: Time): Time {
    if a >= b then a else b
  }

  function Lengthen(t: Token, until: Time): Token {
    if t.status == Live then t.(expires := Later(t.expires, until)) else t
  }

  function EndpointRows(es: seq<Endpoint>, rev: nat): map<NodeId, EndpointRow> {
    if es == [] then map[]
    else EndpointRows(es[..|es| - 1], rev)[es[|es| - 1].node := EndpointRow(es[|es| - 1].role, rev)]
  }

  function Elements(s: seq<NodeId>): set<NodeId> {
    set i | 0 <= i < |s| :: s[i]
  }

  function ReplaceSnapshots(c: Credential, b: Body): Credential
    requires b.ProvisionDone?
  {
    c.(snapshots := c.snapshots[b.rev := Elements(b.placed)], endpoints := EndpointRows(b.endpoints, b.rev))
  }

  // ---- subscription lifecycle ---------------------------------------------------------------

  function NewCredential(op: OpId, until: Time): Credential {
    Credential(Provisioning, 1, 0, until, map[op := AccessOp(Provision, 1, Open, None)], map[], map[], map[],
               [Sent(op, Provision, 1)], 0, map[])
  }

  /** A paid period for a credential that is not revoked. */
  function Period(c: Credential, op: OpId, until: Time, now: Time): Result<Credential> {
    if until <= now || c.status == Revoked then Ok(c)
    else if c.status == Revoking || c.status == Failed then
      Issue(c.(status := Provisioning, version := c.version + 1, allocRev := 0,
               entitlement := Later(c.entitlement, until), endpoints := map[]),
            op, Provision, c.version + 1, None)
    else
      Ok(c.(entitlement := Later(c.entitlement, until),
            tokens := map k | k in c.tokens :: Lengthen(c.tokens[k], until)))
  }

  /** Expiry or revocation of the subscription. */
  function Terminal(c: Credential, op: OpId, expired: bool, effective: Time): Result<Credential> {
    if c.status == Revoked || c.status == Revoking || (expired && effective < c.entitlement) then Ok(c)
    else
      Issue(RetireTokens(c.(status := Revoking, version := c.version + 1), Withdrawn),
            op, Revoke, c.version + 1, Some(c.allocRev))
  }

  // ---- provisioning outcomes ------------------------------------------------------------------

  predicate NoDuplicates(s: seq<NodeId>) {
    forall i, j | 0 <= i < j < |s| :: s[i] != s[j]
  }

  function CountRole(es: seq<Endpoint>, r: Role): nat {
    if es == [] then 0
    else CountRole(es[..|es| - 1], r) + (if es[|es| - 1].role == r then 1 else 0)
  }

  /** The contract checks made before a provisioning success reaches the store. */
  predicate ValidProvisionDone(b: Body) {
    && b.ProvisionDone?
    && b.rev >= 1
    && |b.placed| == 2 && NoDuplicates(b.placed)
    && (forall i, j | 0 <= i < j < |b.endpoints| :: b.endpoints[i].node != b.endpoints[j].node)
    && (forall i | 0 <= i < |b.endpoints| :: b.endpoints[i].node in b.placed)
    && CountRole(b.endpoints, Primary) == 1
    && CountRole(b.endpoints, Failover) == (if b.status == FullyReady then 1 else 0)
  }

  predicate ValidBody(b: Body) {
    match b
    case ProvisionDone(_, _, _, _, _) => ValidProvisionDone(b)
    case OperationFailed(_, _, rev, _) => rev >= 1
    case RevokeDone(_, rev, _, nodes) => rev >= 1 && NoDuplicates(nodes)
  }

  predicate PendingRevoke(c: Credential, id: OpId) {
    id in c.ops && c.ops[id].kind == Revoke && c.ops[id].rev == c.version && c.ops[id].status == Open
  }

  function BindRevoke(o: AccessOp, version: nat, allocRev: nat): AccessOp {
    if o.kind == Revoke && o.rev == version && o.status == Open then o.(allocRev := Some(allocRev)) else o
  }

  /** A success that arrives while the credential is already being revoked. */
  function LateProvision(c: Credential, b: Body): Result<Credential>
    requires b.ProvisionDone? && b.op in c.ops
  {
    if c.version <= b.rev then Ok(c)
    else if b.rev <= c.allocRev then Ok(SetOp(c, b.op, Done))
    else if !(exists id :: id in c.ops && PendingRevoke(c, id)) then Err(Conflict)
    else
      var d := SetOp(ReplaceSnapshots(c, b), b.op, Done);
      Ok(d.(allocRev := b.rev,
            ops := map id | id in d.ops :: BindRevoke(d.ops[id], c.version, b.rev)))
  }

  function ApplyProvisionDone(c: Credential, b: Body, now: Time, revokeOp: OpId): Result<Credential>
    requires b.ProvisionDone?
  {
    if !(b.op in c.ops && c.ops[b.op].kind == Provision && c.ops[b.op].rev == b.rev) then Err(Conflict)
    else if c.ops[b.op].status != Open || c.status == Revoked then Ok(c)
    else if c.status == Revoking then LateProvision(c, b)
    else if c.version != b.rev then Ok(c)
    else
      var d := SetOp(ReplaceSnapshots(c, b), b.op, Done).(allocRev := b.rev);
      if c.entitlement <= now then
        Issue(RetireTokens(d.(status := Revoking, version := b.rev + 1), Expired),
              revokeOp, Revoke, b.rev + 1, Some(b.rev))
      else Ok(d.(status := if b.status == FullyReady then Active else Degraded))
  }

  function ApplyOperationFailed(c: Credential, b: Body): Result<Credential>
    requires b.OperationFailed?
  {
    if !(b.op in c.ops && c.ops[b.op].kind == b.kind && c.ops[b.op].rev == b.rev) then Err(Conflict)
    else if c.version != b.rev || c.ops[b.op].status != Open || !b.terminal then Ok(c)
    else if b.kind == Provision then Ok(SetOp(c, b.op, Broken).(status := Failed))
    else Ok(SetOp(c, b.op, Broken))
  }

  /** Same length, no repeated reported node, and every recorded node reported. */
  predicate SameNodeSet(expected: set<NodeId>, reported: seq<NodeId>) {
    |expected| == |reported| && NoDuplicates(reported) && expected <= Elements(reported)
  }

  function SnapshotAt(c: Credential, rev: nat): set<NodeId> {
    if rev in c.snapshots then c.snapshots[rev] else {}
  }

  /** A revocation reason is stored exactly while the credential is revoking or revoked. */
  predicate HasReason(c: Credential) {
    c.status == Revoking || c.status == Revoked
  }

  /** The operation is read together with the revocation reason, which must be there. */
  function ApplyRevokeDone(c: Credential, b: Body): Result<Credential>
    requires b.RevokeDone?
  {
    if !(b.op in c.ops && c.ops[b.op].kind == Revoke && c.ops[b.op].rev == b.rev) then Err(Conflict)
    else if !HasReason(c) then Err(Internal)
    else if c.version != b.rev || c.ops[b.op].status != Open then Ok(c)
    else if c.allocRev != b.allocRev || c.ops[b.op].allocRev != Some(b.allocRev) then Err(Conflict)
    else if !SameNodeSet(SnapshotAt(c, b.allocRev), b.nodes) then Err(Conflict)
    else Ok(SetOp(c, b.op, Done).(status := Revoked))
  }

  function ApplyBody(c: Credential, b: Body, now: Time, revokeOp: OpId): Result<Credential> {
    match b
    case ProvisionDone(_, _, _, _, _) => ApplyProvisionDone(c, b, now, revokeOp)
    case OperationFailed(_, _, _, _) => ApplyOperationFailed(c, b)
    case RevokeDone(_, _, _, _) => ApplyRevokeDone(c, b)
  }

  /** One delivered outcome: contract checks, cursor, inbox, then its effect; errors roll back. */
  function ApplyOutcome(c: Credential, e: OutcomeEvent, now: Time, revokeOp: OpId): Result<Credential> {
    if !ValidBody(e.payload) || e.seqNo < 1 then Err(Conflict)
    else if e.seqNo > c.cursor + 1 then Err(Gap)
    else if e.id in c.inbox then
      if c.inbox[e.id] == e then Ok(c) else Err(Conflict)
    else if e.seqNo <= c.cursor then Err(Conflict)
    else ApplyBody(c.(cursor := e.seqNo, inbox := c.inbox[e.id := e]), e.payload, now, revokeOp)
  }

  // ---- tokens and recovery --------------------------------------------------------------------

  predicate Serving(c: Credential) {
    c.status == Active || c.status == Degraded
  }

  predicate LiveToken(c: Credential, k: TokenId) {
    k in c.tokens && c.tokens[k].status == Live
  }

  /** What the query for the live token may return. */
  predicate FoundLive(c: Credential, found: Option<TokenId>) {
    match found
    case Some(j) => LiveToken(c, j)
    case None => forall j | j in c.tokens :: !LiveToken(c, j)
  }

  /** Issues the first URL token, or replaces the live token that the query found. */
  function IssueToken(c: Credential, rotate: bool, found: Option<TokenId>, k: TokenId, now: Time): Result<Credential> {
    if !Serving(c) || c.entitlement <= now || k in c.tokens then Err(Conflict)
    else if !FoundLive(c, found) || rotate != found.Some? then Err(Conflict)
    else
      var others := if found.Some? then c.tokens[found.value := c.tokens[found.value].(status := Rotated)] else c.tokens;
      Ok(c.(tokens := others[k := Token(Live, c.entitlement)]))
  }

  function Recover(c: Credential, op: OpId, now: Time): Result<Credential> {
    if c.status != Failed || c.entitlement <= now then Err(Conflict)
    else Issue(c.(status := Provisioning, version := c.version + 1, allocRev := 0, endpoints := map[]),
               op, Provision, c.version + 1, None)
  }

  // ---- runs -------------------------------------------------------------------------------------

  datatype Label =
    | OnPeriod(op: OpId, until: Time, now: Time)
    | OnTerminal(op: OpId, expired: bool, effective: Time)
    | OnOutcome(event: OutcomeEvent, now: Time, revokeOp: OpId)
    | OnToken(rotate: bool, found: Option<TokenId>, token: TokenId, now: Time)
    | OnRecover(op: OpId, now: Time)

  function Attempt(c: Credential, l: Label): Result<Credential> {
    match l
    case OnPeriod(op, until, now) => Period(c, op, until, now)
    case OnTerminal(op, expired, effective) => Terminal(c, op, expired, effective)
    case OnOutcome(e, now, revokeOp) => ApplyOutcome(c, e, now, revokeOp)
    case OnToken(rotate, found, k, now) => IssueToken(c, rotate, found, k, now)
    case OnRecover(op, now) => Recover(c, op, now)
  }

  /** A failed transaction changes nothing. */
  function Step(c: Credential, l: Label): Credential {
    var r := Attempt(c, l);
    if r.Ok? then r.value else c
  }

  function Run(op: OpId, until: Time, labels: seq<Label>): Credential {
    if labels == [] then NewCredential(op, until)
    else Step(Run(op, until, labels[..|labels| - 1]), labels[|labels| - 1])
  }
}
