/**
 What each call leaves of the access database: which credential it may touch, when the event is
 in turn, and that a refused call leaves everything as it was.
 */
module SubscriptionEffects {
  import opened Common
  import opened Access
  import opened AccessEffects
  import opened Subscriptions

  /** The event is new, the next one of its subscription, and from its owner. */
  ghost predicate InTurn(db: Db, sub: SubId, m: Meta) {
    && m.event !in db.seen && m.seqNo == 1 + (if sub in db.lifecycle then db.lifecycle[sub].cursor else 0)
    && (sub in db.lifecycle ==> db.lifecycle[sub].user == m.user)
  }

  /** The event is recorded and the cursor and owner of the subscription are the event's. */
  ghost predicate Noted(db: Db, sub: SubId, m: Meta, db': Db) {
    && db' == db.(rows := db'.rows, lifecycle := db'.lifecycle, seen := db'.seen)
    && db'.lifecycle == db.lifecycle[sub := Lifecycle(m.user, m.seqNo)]
    && db'.seen == db.seen[m.event := Seen(sub, m.seqNo, m.digest)]
  }

  /** Only this credential's rows changed, as its transaction says; a refusal changes nothing. */
  ghost predicate Rewrites(db: Db, id: CredId, r: Result<Credential>, db': Db) {
    id in db.rows && r.Ok? && db'.rows == db.rows[id := db.rows[id].(cred := r.value)]
  }

  /** A credential that waits for its first provisioning. */
  ghost predicate Fresh(c: Credential, op: OpId, until: Time) {
    && c.status == Provisioning && c.version == 1 && c.allocRev == 0 && c.entitlement == until
    && c.ops == map[op := AccessOp(Provision, 1, Open, None)] && c.sent == [Sent(op, Provision, 1)]
    && c.tokens == map[] && c.snapshots == map[] && c.endpoints == map[] && c.cursor == 0 && c.inbox == map[]
  }

  /** The current credential restarts or is extended, or a new one is created for the owner. */
  ghost predicate PeriodCall(db: Db, sub: SubId, m: Meta, found: Option<CredId>, newCred: CredId, op: OpId, until: Time, now: Time, db': Db) {
    if !InTurn(db, sub, m) then db' == db
    else if until <= now then Noted(db, sub, m, db') && db'.rows == db.rows
    else match found
      case None =>
        if newCred in db.rows then db' == db
        else
          && Noted(db, sub, m, db') && db'.rows.Keys == db.rows.Keys + {newCred}
          && (forall id | id in db.rows :: db'.rows[id] == db.rows[id])
          && db'.rows[newCred].sub == sub && db'.rows[newCred].user == m.user && Fresh(db'.rows[newCred].cred, op, until)
      case Some(id) =>
        && id in db.rows
        && if db.rows[id].user != m.user then db' == db
           else exists r :: PeriodEffect(db.rows[id].cred, op, until, r)
                            && if r.Ok? then Noted(db, sub, m, db') && Rewrites(db, id, r, db') else db' == db
  }

  lemma PeriodCallHas(db: Db, sub: SubId, m: Meta, found: Option<CredId>, newCred: CredId, op: OpId, until: Time, now: Time)
    requires Found(db, sub, found)
    ensures PeriodCall(db, sub, m, found, newCred, op, until, now, Next(db, PeriodEvent(sub, m, found, newCred, op, until, now)))
  {
    if found.Some? { PeriodHas(db.rows[found.value].cred, op, until, now); }
    assert Found(Advanced(db, sub, m), sub, found);
  }

  ghost predicate TerminalCall(db: Db, sub: SubId, m: Meta, found: Option<CredId>, op: OpId, expired: bool, effective: Time, db': Db) {
    if !InTurn(db, sub, m) then db' == db
    else match found
      case None => Noted(db, sub, m, db') && db'.rows == db.rows
      case Some(id) =>
        && id in db.rows
        && exists r :: TerminalEffect(db.rows[id].cred, op, expired, effective, r)
                       && if r.Ok? then Noted(db, sub, m, db') && Rewrites(db, id, r, db') else db' == db
  }

  lemma TerminalCallHas(db: Db, sub: SubId, m: Meta, found: Option<CredId>, op: OpId, expired: bool, effective: Time)
    requires Found(db, sub, found)
    ensures TerminalCall(db, sub, m, found, op, expired, effective, Next(db, TerminalEvent(sub, m, found, op, expired, effective)))
  {
    if found.Some? { TerminalHas(db.rows[found.value].cred, op, expired, effective); }
    assert Found(Advanced(db, sub, m), sub, found);
  }

  ghost predicate GraceCall(db: Db, sub: SubId, m: Meta, db': Db) {
    if InTurn(db, sub, m) then Noted(db, sub, m, db') && db'.rows == db.rows else db' == db
  }

  lemma GraceCallHas(db: Db, sub: SubId, m: Meta)
    ensures GraceCall(db, sub, m, Next(db, GraceEvent(sub, m)))
  {
  }

  /** One credential's rows change as its transaction says, and no other table. */
  ghost predicate OneRow(db: Db, id: CredId, r: Result<Credential>, db': Db) {
    if r.Ok? then db' == db.(rows := db'.rows) && Rewrites(db, id, r, db') else db' == db
  }

  ghost predicate OutcomeCall(db: Db, id: CredId, e: OutcomeEvent, now: Time, revokeOp: OpId, db': Db) {
    if id !in db.rows then db' == db
    else exists r :: OutcomeEffect(db.rows[id].cred, e, now, revokeOp, r) && OneRow(db, id, r, db')
  }

  lemma OutcomeCallHas(db: Db, id: CredId, e: OutcomeEvent, now: Time, revokeOp: OpId)
    ensures OutcomeCall(db, id, e, now, revokeOp, Next(db, Outcome(id, e, now, revokeOp)))
  {
    if id in db.rows { OutcomeHas(db.rows[id].cred, e, now, revokeOp); }
  }

  ghost predicate UrlCall(db: Db, found: Option<CredId>, rotate: bool, live: Option<TokenId>, token: TokenId, now: Time, db': Db) {
    match found
    case None => db' == db
    case Some(id) =>
      && id in db.rows
      && exists r :: TokenEffect(db.rows[id].cred, rotate, live, token, now, r) && OneRow(db, id, r, db')
  }

  lemma UrlCallHas(db: Db, sub: SubId, found: Option<CredId>, rotate: bool, live: Option<TokenId>, token: TokenId, now: Time)
    requires Found(db, sub, found) && (found.Some? ==> FoundLive(db.rows[found.value].cred, live))
    ensures UrlCall(db, found, rotate, live, token, now, Next(db, Url(sub, found, rotate, live, token, now)))
  {
    if found.Some? { TokenHas(db.rows[found.value].cred, rotate, live, token, now); }
  }

  /** A known key changes nothing; a new one recovers the credential and is recorded with its operation and revision. */
  ghost predicate RecoveryCall(db: Db, key: nat, digest: nat, id: CredId, op: OpId, now: Time, db': Db) {
    if key in db.recoveries || id !in db.rows then db' == db
    else exists r :: RecoveryEffect(db.rows[id].cred, op, now, r)
                     && if r.Ok? then
                          && Rewrites(db, id, r, db')
                          && db' == db.(rows := db'.rows, recoveries := db.recoveries[key := Recovery(digest, id, op, r.value.version)])
                        else db' == db
  }

  lemma RecoveryCallHas(db: Db, key: nat, digest: nat, id: CredId, op: OpId, now: Time)
    ensures RecoveryCall(db, key, digest, id, op, now, Next(db, RecoveryRequest(key, digest, id, op, now)))
  {
    if id in db.rows { RecoveryHas(db.rows[id].cred, op, now); }
  }

  /** What the owner answers: a known key is accepted again only as the same request for the same credential. */
  lemma RecoveryAnswers(db: Db, key: nat, digest: nat, id: CredId, op: OpId, now: Time)
    ensures Subscriptions.Attempt(db, RecoveryRequest(key, digest, id, op, now)).Ok? <==>
            if key in db.recoveries then db.recoveries[key].digest == digest && db.recoveries[key].cred == id
            else id in db.rows && db.rows[id].cred.status == Failed && now < db.rows[id].cred.entitlement && op !in db.rows[id].cred.ops
  {
  }

  /** A lifecycle event is a gap, refused, accepted again, or applied. */
  lemma LifecycleAnswers(db: Db, l: Call)
    requires IsLifecycle(l)
    ensures var cursor, mine := if l.sub in db.lifecycle then db.lifecycle[l.sub].cursor else 0,
                                l.sub in db.lifecycle ==> db.lifecycle[l.sub].user == l.meta.user;
            && (Subscriptions.Attempt(db, l) == Err(Gap) <==> mine && l.meta.seqNo > cursor + 1)
            && (mine && 1 <= l.meta.seqNo <= cursor + 1 && l.meta.event in db.seen ==>
                  Subscriptions.Attempt(db, l) == if db.seen[l.meta.event] == Seen(l.sub, l.meta.seqNo, l.meta.digest) then Ok(db) else Err(Conflict))
            && (!mine || l.meta.seqNo < 1 || (l.meta.event !in db.seen && l.meta.seqNo <= cursor) ==>
                  Subscriptions.Attempt(db, l) == Err(Conflict))
  {
    if InTurn(db, l.sub, l.meta) { EffectNoGap(Advanced(db, l.sub, l.meta), l); }
  }

  lemma EffectNoGap(db: Db, l: Call)
    requires IsLifecycle(l)
    ensures Effect(db, l) != Err(Gap)
  {
  }
}
