/**
 The access database over all subscriptions: credential rows by id, each owned by one
 subscription, the lifecycle cursor and inbox, and the recorded admin recovery requests.
 */
module Subscriptions {
  import opened Common
  import opened Access
  import opened AccessSafety
  import opened AccessTheorems
  import OI = OrderedInbox

  type SubId = nat
  type UserId = nat

  datatype Row = Row(sub: SubId, user: UserId, cred: Credential)

  /** Owner of a subscription and its last applied lifecycle sequence. */
  datatype Lifecycle = Lifecycle(user: UserId, cursor: nat)

  /** Envelope of a lifecycle event; digest stands for its type and payload. */
  datatype Meta = Meta(event: EventId, seqNo: nat, user: UserId, digest: nat)

  datatype Seen = Seen(sub: SubId, seqNo: nat, digest: nat)

  /** The stored result of a recovery request, by idempotency key. */
  datatype Recovery = Recovery(digest: nat, cred: CredId, op: OpId, rev: nat)

  datatype Db = Db(
    rows: map<CredId, Row>,
    recoveries: map<nat, Recovery>,
    lifecycle: map<SubId, Lifecycle>,
    seen: map<EventId, Seen>)

  const EMPTY := Db(map[], map[], map[], map[])

  predicate Current(db: Db, sub: SubId, id: CredId) {
    id in db.rows && db.rows[id].sub == sub && db.rows[id].cred.status != Revoked
  }

  /** What the query for a subscription's non-revoked credential may return. */
  predicate Found(db: Db, sub: SubId, found: Option<CredId>) {
    match found
    case Some(id) => Current(db, sub, id)
    case None => forall id | id in db.rows :: !Current(db, sub, id)
  }

  function Put(db: Db, id: CredId, r: Result<Credential>): Result<Db>
    requires id in db.rows
  {
    if r.Err? then Err(r.error) else Ok(db.(rows := db.rows[id := db.rows[id].(cred := r.value)]))
  }

  function CursorOf(db: Db, sub: SubId): nat {
    if sub in db.lifecycle then db.lifecycle[sub].cursor else 0
  }

  /** The database with a lifecycle event recorded and its cursor advanced. */
  function Advanced(db: Db, sub: SubId, m: Meta): Db {
    db.(lifecycle := db.lifecycle[sub := Lifecycle(m.user, m.seqNo)],
        seen := db.seen[m.event := Seen(sub, m.seqNo, m.digest)])
  }

  /** Owner, gap, inbox row and cursor, in this order; None for an event recorded before. */
  function Prepare(db: Db, sub: SubId, m: Meta): Result<Option<Db>> {
    if m.seqNo < 1 then Err(Conflict)
    else if sub in db.lifecycle && db.lifecycle[sub].user != m.user then Err(Conflict)
    else if m.seqNo > CursorOf(db, sub) + 1 then Err(Gap)
    else if m.event in db.seen then
      if db.seen[m.event] == Seen(sub, m.seqNo, m.digest) then Ok(None) else Err(Conflict)
    else if m.seqNo <= CursorOf(db, sub) then Err(Conflict)
    else Ok(Some(Advanced(db, sub, m)))
  }

  function ApplyPeriod(db: Db, sub: SubId, user: UserId, found: Option<CredId>, newCred: CredId, op: OpId,
                       until: Time, now: Time): Result<Db>
    requires Found(db, sub, found)
  {
    if until <= now then Ok(db)
    else if found.Some? then
      if db.rows[found.value].user != user then Err(Conflict)
      else Put(db, found.value, Period(db.rows[found.value].cred, op, until, now))
    else if newCred in db.rows then Err(Internal)
    else Ok(db.(rows := db.rows[newCred := Row(sub, user, NewCredential(op, until))]))
  }

  function ApplyTerminal(db: Db, sub: SubId, found: Option<CredId>, op: OpId, expired: bool, effective: Time): Result<Db>
    requires Found(db, sub, found)
  {
    if found.None? then Ok(db)
    else Put(db, found.value, Terminal(db.rows[found.value].cred, op, expired, effective))
  }

  function ApplyOutcomeTo(db: Db, id: CredId, e: OutcomeEvent, now: Time, revokeOp: OpId): Result<Db> {
    if id !in db.rows then Err(Conflict)
    else Put(db, id, ApplyOutcome(db.rows[id].cred, e, now, revokeOp))
  }

  function IssueUrl(db: Db, sub: SubId, found: Option<CredId>, rotate: bool, live: Option<TokenId>,
                    token: TokenId, now: Time): Result<Db>
    requires Found(db, sub, found)
  {
    if found.None? then Err(Conflict)
    else Put(db, found.value, IssueToken(db.rows[found.value].cred, rotate, live, token, now))
  }

  /** A recovery request is replayed from its record, or performed once and recorded. */
  function RecoverProvisioning(db: Db, key: nat, digest: nat, id: CredId, op: OpId, now: Time): Result<Db> {
    if key in db.recoveries then
      if db.recoveries[key].digest != digest || db.recoveries[key].cred != id then Err(Conflict) else Ok(db)
    else if id !in db.rows then Err(NotFound)
    else
      var r := Put(db, id, Recover(db.rows[id].cred, op, now));
      if r.Err? then r
      else Ok(r.value.(recoveries := db.recoveries[key := Recovery(digest, id, op, db.rows[id].cred.version + 1)]))
  }

  // ---- runs -------------------------------------------------------------------------------------

  datatype Call =
    | PeriodEvent(sub: SubId, meta: Meta, found: Option<CredId>, newCred: CredId, op: OpId, until: Time, now: Time)
    | GraceEvent(sub: SubId, meta: Meta)
    | TerminalEvent(sub: SubId, meta: Meta, found: Option<CredId>, op: OpId, expired: bool, effective: Time)
    | Outcome(id: CredId, event: OutcomeEvent, now: Time, revokeOp: OpId)
    | Url(sub: SubId, found: Option<CredId>, rotate: bool, live: Option<TokenId>, token: TokenId, now: Time)
    | RecoveryRequest(key: nat, digest: nat, id: CredId, op: OpId, now: Time)

  predicate IsLifecycle(l: Call) {
    l.PeriodEvent? || l.GraceEvent? || l.TerminalEvent?
  }

  /** A lifecycle event: prepared, then its effect; any error rolls both back. */
  function OnLifecycle(db: Db, l: Call): Result<Db>
    requires IsLifecycle(l)
  {
    var p := Prepare(db, l.sub, l.meta);
    if p.Err? then Err(p.error)
    else if p.value.None? then Ok(db)
    else Effect(p.value.value, l)
  }

  function Effect(db: Db, l: Call): Result<Db>
    requires IsLifecycle(l)
  {
    match l
    case PeriodEvent(sub, m, found, newCred, op, until, now) =>
      if Found(db, sub, found) then ApplyPeriod(db, sub, m.user, found, newCred, op, until, now) else Err(NotFound)
    case GraceEvent(_, _) => Ok(db)
    case TerminalEvent(sub, _, found, op, expired, effective) =>
      if Found(db, sub, found) then ApplyTerminal(db, sub, found, op, expired, effective) else Err(NotFound)
  }

  function Attempt(db: Db, l: Call): Result<Db> {
    match l
    case PeriodEvent(_, _, _, _, _, _, _) => OnLifecycle(db, l)
    case GraceEvent(_, _) => OnLifecycle(db, l)
    case TerminalEvent(_, _, _, _, _, _) => OnLifecycle(db, l)
    case Outcome(id, e, now, revokeOp) => ApplyOutcomeTo(db, id, e, now, revokeOp)
    case Url(sub, found, rotate, live, token, now) =>
      if Found(db, sub, found) then IssueUrl(db, sub, found, rotate, live, token, now) else Err(NotFound)
    case RecoveryRequest(key, digest, id, op, now) => RecoverProvisioning(db, key, digest, id, op, now)
  }

  function Next(db: Db, l: Call): Db {
    var r := Attempt(db, l);
    if r.Ok? then r.value else db
  }

  function History(calls: seq<Call>): Db {
    if calls == [] then EMPTY
    else Next(History(calls[..|calls| - 1]), calls[|calls| - 1])
  }

  // ---- what every run keeps ---------------------------------------------------------------------

  predicate OneCurrent(db: Db) {
    forall i, j | i in db.rows && j in db.rows && db.rows[i].sub == db.rows[j].sub
                  && db.rows[i].cred.status != Revoked && db.rows[j].cred.status != Revoked :: i == j
  }

  ghost predicate RowsInv(db: Db) {
    forall id | id in db.rows :: Inv(db.rows[id].cred)
  }

  /** The credential is left alone or moves by one of its own transactions. */
  ghost predicate Moves(c: Credential, d: Credential) {
    d == c || exists l :: d == Access.Step(c, l)
  }

  lemma NextRow(db: Db, l: Call, id: CredId)
    requires id in db.rows
    ensures id in Next(db, l).rows && Next(db, l).rows[id].sub == db.rows[id].sub
    ensures Moves(db.rows[id].cred, Next(db, l).rows[id].cred)
  {
    if IsLifecycle(l) {
      if Attempt(db, l).Ok? && l.meta.event !in db.seen { EffectRow(Advanced(db, l.sub, l.meta), l, id); }
    } else {
      OtherRow(db, l, id);
    }
  }

  lemma EffectRow(db: Db, l: Call, id: CredId)
    requires IsLifecycle(l) && Effect(db, l).Ok? && id in db.rows
    ensures var db' := Effect(db, l).value;
            id in db'.rows && db'.rows[id].sub == db.rows[id].sub && Moves(db.rows[id].cred, db'.rows[id].cred)
  {
    var c, d := db.rows[id].cred, Effect(db, l).value.rows[id].cred;
    if d != c {
      match l
      case PeriodEvent(_, _, found, newCred, op, until, now) => assert d == Access.Step(c, OnPeriod(op, until, now));
      case TerminalEvent(_, _, found, op, expired, effective) => assert d == Access.Step(c, OnTerminal(op, expired, effective));
      case GraceEvent(_, _) =>
    }
  }

  lemma OtherRow(db: Db, l: Call, id: CredId)
    requires id in db.rows && !IsLifecycle(l)
    ensures id in Next(db, l).rows && Next(db, l).rows[id].sub == db.rows[id].sub
    ensures Moves(db.rows[id].cred, Next(db, l).rows[id].cred)
  {
    var c, d := db.rows[id].cred, Next(db, l).rows[id].cred;
    if d != c {
      match l
      case Outcome(_, e, now, revokeOp) => assert d == Access.Step(c, OnOutcome(e, now, revokeOp));
      case Url(_, found, rotate, live, token, now) => assert d == Access.Step(c, OnToken(rotate, live, token, now));
      case RecoveryRequest(_, _, _, op, now) => assert d == Access.Step(c, OnRecover(op, now));
    }
  }

  /** A new row appears only for a subscription that has no current credential. */
  lemma NextNew(db: Db, l: Call, id: CredId)
    requires id !in db.rows && id in Next(db, l).rows
    ensures l.PeriodEvent? && l.found == None && Found(db, l.sub, None)
    ensures Next(db, l).rows == db.rows[id := Row(l.sub, l.meta.user, NewCredential(l.op, l.until))]
  {
  }

  lemma MovesInv(c: Credential, d: Credential)
    requires Inv(c) && Moves(c, d)
    ensures Inv(d) && (c.status == Revoked ==> SameService(c, d))
  {
    if d != c {
      var l :| d == Access.Step(c, l);
      StepInv(c, l);
      if c.status == Revoked { RevokedStep(c, l); }
    }
  }

  lemma NextRowsInv(db: Db, l: Call)
    requires RowsInv(db)
    ensures RowsInv(Next(db, l))
  {
    forall id | id in Next(db, l).rows ensures Inv(Next(db, l).rows[id].cred) {
      if id in db.rows {
        NextRow(db, l, id);
        MovesInv(db.rows[id].cred, Next(db, l).rows[id].cred);
      } else {
        NextNew(db, l, id);
        RunInv(l.op, l.until, []);
      }
    }
  }

  /** A credential that is not revoked now was not revoked before, or did not exist. */
  lemma StillCurrent(db: Db, l: Call, id: CredId)
    requires RowsInv(db) && id in db.rows && id in Next(db, l).rows && Next(db, l).rows[id].cred.status != Revoked
    ensures Current(db, db.rows[id].sub, id) && Next(db, l).rows[id].sub == db.rows[id].sub
  {
    NextRow(db, l, id);
    MovesInv(db.rows[id].cred, Next(db, l).rows[id].cred);
  }

  lemma NextOneCurrent(db: Db, l: Call)
    requires RowsInv(db) && OneCurrent(db)
    ensures OneCurrent(Next(db, l))
  {
    var db' := Next(db, l);
    forall i, j | i in db'.rows && j in db'.rows && db'.rows[i].sub == db'.rows[j].sub
                  && db'.rows[i].cred.status != Revoked && db'.rows[j].cred.status != Revoked
      ensures i == j
    {
      if i in db.rows { StillCurrent(db, l, i); } else { NextNew(db, l, i); }
      if j in db.rows { StillCurrent(db, l, j); } else { NextNew(db, l, j); }
    }
  }

  /**
   In any history of the access database every credential satisfies the credential invariant
   and no subscription has two credentials that are not revoked.
   */
  lemma {:induction false} HistoryInv(calls: seq<Call>)
    ensures RowsInv(History(calls)) && OneCurrent(History(calls))
  {
    if calls != [] {
      var init := calls[..|calls| - 1];
      HistoryInv(init);
      NextRowsInv(History(init), calls[|calls| - 1]);
      NextOneCurrent(History(init), calls[|calls| - 1]);
    }
  }

  // ---- recovery requests take effect at most once -------------------------------------------------

  /** Calls with this recovery key that changed the database. */
  function Effects(calls: seq<Call>, key: nat): nat {
    if calls == [] then 0
    else
      var init, l := calls[..|calls| - 1], calls[|calls| - 1];
      Effects(init, key)
      + (if l.RecoveryRequest? && l.key == key && Next(History(init), l) != History(init) then 1 else 0)
  }

  /**
   However often a recovery request is sent, it takes effect at most once, and exactly then its
   record names an operation that the credential has at the recorded revision.
   */
  lemma {:induction false} RecoveredOnce(calls: seq<Call>, key: nat)
    ensures Effects(calls, key) == (if key in History(calls).recoveries then 1 else 0)
  {
    if calls != [] {
      RecoveredOnce(calls[..|calls| - 1], key);
    }
  }

  predicate RecordOk(db: Db, r: Recovery) {
    && r.cred in db.rows
    && r.op in db.rows[r.cred].cred.ops
    && db.rows[r.cred].cred.ops[r.op].rev == r.rev
    && db.rows[r.cred].cred.ops[r.op].kind == Provision
  }

  predicate Keeps(c: Credential, d: Credential, id: OpId) {
    id in c.ops ==> id in d.ops && d.ops[id].rev == c.ops[id].rev && d.ops[id].kind == c.ops[id].kind
  }

  lemma BodyKeeps(c: Credential, b: Body, now: Time, revokeOp: OpId, id: OpId)
    requires ApplyBody(c, b, now, revokeOp).Ok?
    ensures Keeps(c, ApplyBody(c, b, now, revokeOp).value, id)
  {
    if b.ProvisionDone? && b.op in c.ops && LateProvision(c, b).Ok? { LateKeeps(c, b, id); }
  }

  lemma LateKeeps(c: Credential, b: Body, id: OpId)
    requires b.ProvisionDone? && b.op in c.ops && LateProvision(c, b).Ok?
    ensures Keeps(c, LateProvision(c, b).value, id)
  {
  }

  /** No transaction removes an operation or changes its kind or revision. */
  lemma OperationsKept(c: Credential, l: Label, id: OpId)
    ensures Keeps(c, Access.Step(c, l), id)
  {
    match l
    case OnOutcome(e, now, revokeOp) =>
      var d := c.(cursor := e.seqNo, inbox := c.inbox[e.id := e]);
      if ApplyBody(d, e.payload, now, revokeOp).Ok? { BodyKeeps(d, e.payload, now, revokeOp, id); }
    case _ =>
  }

  lemma RecordKept(db: Db, l: Call, r: Recovery)
    requires RecordOk(db, r)
    ensures RecordOk(Next(db, l), r)
  {
    NextRow(db, l, r.cred);
    var c, d := db.rows[r.cred].cred, Next(db, l).rows[r.cred].cred;
    if d != c {
      var s :| d == Access.Step(c, s);
      OperationsKept(c, s, r.op);
    }
  }

  lemma {:induction false} RecoveryRecorded(calls: seq<Call>, key: nat)
    requires key in History(calls).recoveries
    ensures RecordOk(History(calls), History(calls).recoveries[key])
  {
    var init, l := calls[..|calls| - 1], calls[|calls| - 1];
    var db := History(init);
    RecoveryStep(db, l, key);
    if key in db.recoveries {
      RecoveryRecorded(init, key);
      RecordKept(db, l, db.recoveries[key]);
    }
  }

  /** A record is never changed, and a new one describes the operation just inserted. */
  lemma RecoveryStep(db: Db, l: Call, key: nat)
    requires key in Next(db, l).recoveries
    ensures key in db.recoveries ==> Next(db, l).recoveries[key] == db.recoveries[key]
    ensures key !in db.recoveries ==> RecordOk(Next(db, l), Next(db, l).recoveries[key])
  {
    if !l.RecoveryRequest? { RecoveriesKept(db, l); }
  }

  lemma RecoveriesKept(db: Db, l: Call)
    requires !l.RecoveryRequest?
    ensures Next(db, l).recoveries == db.recoveries
  {
  }

  // ---- lifecycle events are applied in order ------------------------------------------------------

  /** The recorded lifecycle events of one subscription. */
  function EventsOf(db: Db, sub: SubId): map<EventId, OI.Event<nat>> {
    map e | e in db.seen && db.seen[e].sub == sub :: OI.Event(e, db.seen[e].seqNo, db.seen[e].digest)
  }

  /** The call delivers a lifecycle event that was not recorded before, and it is applied. */
  predicate Applies(db: Db, l: Call, sub: SubId) {
    IsLifecycle(l) && l.sub == sub && l.meta.event !in db.seen && Attempt(db, l).Ok?
  }

  function EventOf(m: Meta): OI.Event<nat> {
    OI.Event(m.event, m.seqNo, m.digest)
  }

  /** An effect leaves cursor, inbox and owners alone. */
  lemma EffectKeeps(db: Db, l: Call)
    requires IsLifecycle(l) && Effect(db, l).Ok?
    ensures Effect(db, l).value.lifecycle == db.lifecycle && Effect(db, l).value.seen == db.seen
  {
  }

  lemma LifecycleStep(db: Db, l: Call, sub: SubId)
    ensures var db' := Next(db, l);
            && (Applies(db, l, sub) ==>
                  && CursorOf(db', sub) == l.meta.seqNo == CursorOf(db, sub) + 1
                  && EventsOf(db', sub) == EventsOf(db, sub)[l.meta.event := EventOf(l.meta)])
            && (!Applies(db, l, sub) ==>
                  CursorOf(db', sub) == CursorOf(db, sub) && EventsOf(db', sub) == EventsOf(db, sub))
  {
    var db' := Next(db, l);
    if IsLifecycle(l) && Attempt(db, l).Ok? && l.meta.event !in db.seen {
      EffectKeeps(Advanced(db, l.sub, l.meta), l);
      AdvancedEvents(db, l.sub, l.meta, sub);
      assert EventsOf(db', sub) == EventsOf(Advanced(db, l.sub, l.meta), sub);
    } else {
      OthersKeep(db, l);
    }
  }

  lemma AdvancedEvents(db: Db, of: SubId, m: Meta, sub: SubId)
    requires m.event !in db.seen
    ensures EventsOf(Advanced(db, of, m), sub) == if of == sub then EventsOf(db, sub)[m.event := EventOf(m)] else EventsOf(db, sub)
  {
  }

  lemma OthersKeep(db: Db, l: Call)
    requires !(IsLifecycle(l) && Attempt(db, l).Ok? && l.meta.event !in db.seen)
    ensures Next(db, l).lifecycle == db.lifecycle && Next(db, l).seen == db.seen
  {
  }

  /** The lifecycle events a history applied for a subscription, in order. */
  function AppliedEvents(calls: seq<Call>, sub: SubId): seq<OI.Event<nat>> {
    if calls == [] then []
    else
      var init, l := calls[..|calls| - 1], calls[|calls| - 1];
      AppliedEvents(init, sub) + (if Applies(History(init), l, sub) then [EventOf(l.meta)] else [])
  }

  /**
   In every history of the access database the lifecycle events applied for a subscription are
   exactly sequence 1, ..., cursor, once each and in order, and they are what the inbox holds.
   */
  lemma {:induction false} LifecycleInOrder(calls: seq<Call>, sub: SubId)
    ensures var db := History(calls);
            && OI.Ledger(CursorOf(db, sub), EventsOf(db, sub), AppliedEvents(calls, sub))
            && OI.OnePerSequence(CursorOf(db, sub), EventsOf(db, sub))
  {
    if calls != [] {
      var init, l := calls[..|calls| - 1], calls[|calls| - 1];
      var db := History(init);
      LifecycleInOrder(init, sub);
      LifecycleStep(db, l, sub);
      if Applies(db, l, sub) {
        OI.RecordNext(CursorOf(db, sub), EventsOf(db, sub), EventOf(l.meta));
        OI.LedgerNext(CursorOf(db, sub), EventsOf(db, sub), AppliedEvents(init, sub), EventOf(l.meta));
      }
    }
  }

  /** The event was recorded under exactly this envelope. */
  predicate WasRecorded(db: Db, sub: SubId, m: Meta) {
    && m.event in db.seen && db.seen[m.event] == Seen(sub, m.seqNo, m.digest)
    && sub in db.lifecycle && db.lifecycle[sub].user == m.user
  }

  /** In every history, redelivering a recorded lifecycle event succeeds and changes nothing. */
  lemma LifecycleRedelivered(calls: seq<Call>, l: Call)
    requires IsLifecycle(l) && WasRecorded(History(calls), l.sub, l.meta)
    ensures Attempt(History(calls), l) == Ok(History(calls))
  {
    var db := History(calls);
    LifecycleInOrder(calls, l.sub);
    assert OI.Placed(CursorOf(db, l.sub), EventsOf(db, l.sub), l.meta.event);
  }

  // ---- owners -------------------------------------------------------------------------------------

  /** A credential belongs to the owner of its subscription. */
  predicate OwnersOk(db: Db) {
    forall id | id in db.rows :: db.rows[id].sub in db.lifecycle && db.lifecycle[db.rows[id].sub].user == db.rows[id].user
  }

  lemma NextOwners(db: Db, l: Call)
    requires OwnersOk(db)
    ensures OwnersOk(Next(db, l))
  {
    if IsLifecycle(l) && Attempt(db, l).Ok? && l.meta.event !in db.seen {
      EffectKeeps(Advanced(db, l.sub, l.meta), l);
    }
  }

  /** In every history the owner check of a period event on an existing credential never fails. */
  lemma {:induction false} OwnerCheckNeverFails(calls: seq<Call>, sub: SubId, m: Meta, id: CredId)
    ensures OwnersOk(History(calls))
    ensures Prepare(History(calls), sub, m).Ok? && Current(History(calls), sub, id) && m.event !in History(calls).seen
            ==> History(calls).rows[id].user == m.user
  {
    if calls != [] {
      OwnerCheckNeverFails(calls[..|calls| - 1], sub, m, id);
      NextOwners(History(calls[..|calls| - 1]), calls[|calls| - 1]);
    }
  }
}
