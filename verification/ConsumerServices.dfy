/**
 The two services behind the consumer.  Provisioning decides on one credential's rows alone, so
 its retries are order independent; access couples a subscription with its credential, so its
 retries are not.
 */
module ConsumerServices {
  import opened Common
  import opened RetryOrder
  import OI = OrderedInbox
  import opened StoreInboxes
  import P = Provisioning
  import Access
  import S = Subscriptions

  /** How the consumer takes the result of a handler: gap, rejection, or any other failure. */
  function OutcomeOf<T>(r: Result<T>): Outcome {
    match r
    case Ok(_) => Done
    case Err(e) => if e == Gap then Missing else if e == Conflict then Poisoned else Failing
  }

  // ---- provisioning -------------------------------------------------------------------------------

  /** The rows of all credentials, each with one recorded command per sequence. */
  ghost predicate Recorded(s: map<CredId, P.Tables>) {
    forall c | c in s :: CommandsOk(s[c])
  }

  type ProvisioningRows = s: map<CredId, P.Tables> | Recorded(s) ghost witness map[]

  /** A decoded command; sequence and credential are those of the record. */
  datatype CommandBody = CommandBody(event: EventId, op: OpId, kind: Kind, rev: nat, digest: nat, maxAttempts: nat)

  function RowsOf(s: map<CredId, P.Tables>, c: CredId): P.Tables {
    if c in s then s[c] else P.NO_ROWS
  }

  function Record(t: P.Tables, r: Rec<CommandBody>): Result<P.Tables> {
    var b := r.payload;
    P.ProcessCommand(t, b.event, P.Command(b.op, b.kind, r.seqNo, b.rev, b.digest), b.maxAttempts)
  }

  lemma RecordKeeps(t: P.Tables, r: Rec<CommandBody>)
    requires CommandsOk(t) && Record(t, r).Ok?
    ensures CommandsOk(Record(t, r).value)
  {
    var t', b := Record(t, r).value, r.payload;
    var k := P.Command(b.op, b.kind, r.seqNo, b.rev, b.digest);
    if b.event !in t.inbox {
      OI.RecordNext(t.lastSeq, Commands(t), OI.Event(b.event, k.seqNo, k));
      assert Commands(t') == Commands(t)[b.event := OI.Event(b.event, k.seqNo, k)];
    }
  }

  lemma NoRowsOk()
    ensures CommandsOk(P.NO_ROWS)
  {
  }

  ghost function ApplyCommand(s: ProvisioningRows, r: Rec<CommandBody>): ProvisioningRows {
    var t := RowsOf(s, r.agg);
    if Record(t, r).Err? then s
    else
      NoRowsOk();
      RecordKeeps(t, r);
      s[r.agg := Record(t, r).value]
  }

  ghost const PROVISIONING: Service<ProvisioningRows, CommandBody> :=
    Service((s: ProvisioningRows, c: Agg) => RowsOf(s, c).lastSeq,
            (s: ProvisioningRows, r: Rec<CommandBody>) => OutcomeOf(Record(RowsOf(s, r.agg), r)),
            (s: ProvisioningRows, r: Rec<CommandBody>) => ApplyCommand(s, r))

  lemma ProvisioningLawful()
    ensures Lawful(PROVISIONING)
  {
    forall s: ProvisioningRows, r: Rec<CommandBody> ensures LawAt(PROVISIONING, s, r) {
      ProvisioningLawAt(s, r);
    }
  }

  lemma ProvisioningLawAt(s: ProvisioningRows, r: Rec<CommandBody>)
    ensures LawAt(PROVISIONING, s, r)
  {
    var t, b := RowsOf(s, r.agg), r.payload;
    NoRowsOk();
    if b.event in t.inbox {
      assert b.event in Commands(t) && OI.Placed(t.lastSeq, Commands(t), b.event);
      assert s[r.agg := t] == s;
    }
  }

  /** A credential's rows depend on its own commands only. */
  lemma {:induction false} OwnRows(s: ProvisioningRows, h: seq<Rec<CommandBody>>, c: Agg)
    ensures RowsOf(ApplyAll(PROVISIONING, s, h), c) == RowsOf(ApplyAll(PROVISIONING, s, Own(h, c)), c)
  {
    if h != [] {
      OwnRows(s, h[..|h| - 1], c);
      if h[|h| - 1].agg == c { ApplyNext(PROVISIONING, s, Own(h[..|h| - 1], c), h[|h| - 1]); }
    }
  }

  /** What the provisioning consumer still keeps once retries settled waits for a predecessor. */
  lemma ProvisioningLeftover(x: Point<ProvisioningRows, CommandBody>, p: Part)
    requires Settled(PROVISIONING, x) && p in x.kept
    ensures Verdict(PROVISIONING, x.s, x.kept[p]) == Missing
  {
    assert !Decided(Verdict(PROVISIONING, x.s, x.kept[p]));
  }

  lemma ProvisioningGood(x: Point<ProvisioningRows, CommandBody>)
    ensures GoodFor(PROVISIONING, x)
  {
    forall h: seq<Rec<CommandBody>>, p: Rec<CommandBody>, r: Rec<CommandBody> | Possible(PROVISIONING, x, h)
      ensures Steady(PROVISIONING, ApplyAll(PROVISIONING, x.s, h), p, r)
    {
      SteadyCommand(ApplyAll(PROVISIONING, x.s, h), p, r);
    }
    forall h1: seq<Rec<CommandBody>>, h2: seq<Rec<CommandBody>>, r: Rec<CommandBody> | SameOwns(h1, h2)
      ensures SameFate(PROVISIONING, x.s, h1, h2, r)
    {
      OwnRows(x.s, h1, r.agg);
      OwnRows(x.s, h2, r.agg);
      assert Own(h1, r.agg) == Own(h2, r.agg);
    }
  }

  /** A command of the same credential that is rejected ahead of its turn fails its own checks. */
  lemma SteadyCommand(s: ProvisioningRows, p: Rec<CommandBody>, r: Rec<CommandBody>)
    ensures Steady(PROVISIONING, s, p, r)
  {
    ProvisioningLawAt(s, p);
    ProvisioningLawAt(s, r);
    ProvisioningLawAt(ApplyCommand(s, p), r);
  }

  /** The provisioning consumer leaves the same records whatever order it retries them in. */
  lemma ProvisioningRetriesAgree(x: Point<ProvisioningRows, CommandBody>, t1: seq<Try>, t2: seq<Try>)
    ensures AgreeOn(PROVISIONING, x, t1, t2)
  {
    ProvisioningLawful();
    ProvisioningGood(x);
    AgreeIfGood(PROVISIONING, x, t1, t2);
  }

  // ---- access -------------------------------------------------------------------------------------

  /** Lifecycle events are numbered per subscription, outcomes per credential. */
  function SubAgg(sub: S.SubId): Agg {
    2 * sub
  }

  function CredAgg(c: CredId): Agg {
    2 * c + 1
  }

  function AccessCursor(db: S.Db, a: Agg): nat {
    if a % 2 == 0 then S.CursorOf(db, a / 2)
    else if a / 2 in db.rows then db.rows[a / 2].cred.cursor else 0
  }

  /** A decoded event with the identifiers the service generates for it; the sequence is the record's. */
  datatype AccessBody =
    | Paid(event: EventId, user: S.UserId, digest: nat, newCred: CredId, op: OpId, until: Time, now: Time)
    | Grace(event: EventId, user: S.UserId, digest: nat)
    | Ended(event: EventId, user: S.UserId, digest: nat, op: OpId, expired: bool, effective: Time)
    | Report(event: EventId, body: Access.Body, now: Time, revokeOp: OpId)

  /** One recorded event per sequence of every subscription and every credential. */
  ghost predicate InboxesOk(db: S.Db) {
    && (forall sub: S.SubId :: OI.OnePerSequence(S.CursorOf(db, sub), S.EventsOf(db, sub)))
    && (forall id | id in db.rows :: OutcomesOk(db.rows[id].cred))
  }

  type AccessDb = db: S.Db | InboxesOk(db) ghost witness (NothingRecorded(); S.EMPTY)

  lemma NothingRecorded()
    ensures InboxesOk(S.EMPTY)
  {
  }

  /** The credential the query finds; there is at most one in every history. */
  ghost function CurrentOf(db: S.Db, sub: S.SubId): (found: Option<CredId>)
    ensures S.Found(db, sub, found)
  {
    if id :| id in db.rows && S.Current(db, sub, id) then Some(id) else None
  }

  ghost function CallOf(db: S.Db, r: Rec<AccessBody>): S.Call {
    var a := r.agg / 2;
    match r.payload
    case Paid(e, user, digest, newCred, op, until, now) =>
      S.PeriodEvent(a, S.Meta(e, r.seqNo, user, digest), CurrentOf(db, a), newCred, op, until, now)
    case Grace(e, user, digest) => S.GraceEvent(a, S.Meta(e, r.seqNo, user, digest))
    case Ended(e, user, digest, op, expired, effective) =>
      S.TerminalEvent(a, S.Meta(e, r.seqNo, user, digest), CurrentOf(db, a), op, expired, effective)
    case Report(e, body, now, revokeOp) => S.Outcome(a, OI.Event(e, r.seqNo, body), now, revokeOp)
  }

  /** A record whose kind does not match its aggregate is refused before the store is asked. */
  predicate Routed(r: Rec<AccessBody>) {
    r.payload.Report? <==> r.agg % 2 == 1
  }

  ghost function Act(db: S.Db, r: Rec<AccessBody>): Result<S.Db> {
    if Routed(r) then S.Attempt(db, CallOf(db, r)) else Err(Conflict)
  }

  lemma NextInboxes(db: S.Db, l: S.Call)
    requires InboxesOk(db)
    ensures InboxesOk(S.Next(db, l))
  {
    var db' := S.Next(db, l);
    forall sub: S.SubId ensures OI.OnePerSequence(S.CursorOf(db', sub), S.EventsOf(db', sub)) {
      S.LifecycleStep(db, l, sub);
      if S.Applies(db, l, sub) { OI.RecordNext(S.CursorOf(db, sub), S.EventsOf(db, sub), S.EventOf(l.meta)); }
    }
    forall id | id in db'.rows ensures OutcomesOk(db'.rows[id].cred) {
      if id in db.rows {
        S.NextRow(db, l, id);
        MovesOutcomes(db.rows[id].cred, db'.rows[id].cred);
      } else {
        S.NextNew(db, l, id);
        RunOutcomesOk(l.op, l.until, []);
      }
    }
  }

  lemma MovesOutcomes(c: Access.Credential, d: Access.Credential)
    requires OutcomesOk(c) && S.Moves(c, d)
    ensures OutcomesOk(d)
  {
    if d != c {
      var l :| d == Access.Step(c, l);
      StepOutcomesOk(c, l);
    }
  }

  ghost function ApplyEvent(db: AccessDb, r: Rec<AccessBody>): AccessDb {
    if Act(db, r).Err? then db
    else
      NextInboxes(db, CallOf(db, r));
      S.Next(db, CallOf(db, r))
  }

  ghost const ACCESS: Service<AccessDb, AccessBody> :=
    Service((db: AccessDb, a: Agg) => AccessCursor(db, a),
            (db: AccessDb, r: Rec<AccessBody>) => OutcomeOf(Act(db, r)),
            (db: AccessDb, r: Rec<AccessBody>) => ApplyEvent(db, r))

  /** A lifecycle event leaves the outcome cursors alone; a new credential starts at zero. */
  lemma EffectCursors(db: S.Db, l: S.Call, id: CredId)
    requires S.IsLifecycle(l) && S.Effect(db, l).Ok?
    ensures AccessCursor(S.Effect(db, l).value, CredAgg(id)) == AccessCursor(db, CredAgg(id))
  {
  }

  /** An outcome leaves the lifecycle alone and changes one credential. */
  lemma OutcomeCursors(db: S.Db, l: S.Call, a: Agg)
    requires l.Outcome? && S.Attempt(db, l).Ok? && a != CredAgg(l.id)
    ensures AccessCursor(S.Next(db, l), a) == AccessCursor(db, a)
  {
  }

  lemma LifecycleLaw(db: AccessDb, r: Rec<AccessBody>)
    requires Routed(r) && !r.payload.Report?
    ensures LawAt(ACCESS, db, r)
  {
    var l, db' := CallOf(db, r), ApplyEvent(db, r);
    var sub := r.agg / 2;
    assert S.IsLifecycle(l) && l.sub == sub && l.meta.seqNo == r.seqNo && r.agg == SubAgg(sub);
    if S.Attempt(db, l).Ok? {
      if l.meta.event in db.seen {
        assert l.meta.event in S.EventsOf(db, sub) && OI.Placed(S.CursorOf(db, sub), S.EventsOf(db, sub), l.meta.event);
      } else {
        LifecycleCursors(db, l);
      }
    }
  }

  lemma LifecycleCursors(db: S.Db, l: S.Call)
    requires S.IsLifecycle(l) && S.Applies(db, l, l.sub)
    ensures var db' := S.Next(db, l);
            && AccessCursor(db', SubAgg(l.sub)) == l.meta.seqNo == AccessCursor(db, SubAgg(l.sub)) + 1
            && forall b: Agg | b != SubAgg(l.sub) :: AccessCursor(db', b) == AccessCursor(db, b)
  {
    S.LifecycleStep(db, l, l.sub);
    forall b: Agg | b != SubAgg(l.sub) ensures AccessCursor(S.Next(db, l), b) == AccessCursor(db, b) {
      if b % 2 == 0 {
        S.LifecycleStep(db, l, b / 2);
      } else {
        EffectCursors(S.Advanced(db, l.sub, l.meta), l, b / 2);
        assert CredAgg(b / 2) == b;
      }
    }
  }

  /** A recorded outcome is repeated without effect, a new one is the next of its credential. */
  lemma OutcomeOnRow(db: S.Db, l: S.Call)
    requires l.Outcome? && l.id in db.rows && OutcomesOk(db.rows[l.id].cred)
    ensures var c := db.rows[l.id].cred;
            && (S.Attempt(db, l).Ok? && l.event.seqNo <= c.cursor ==> S.Next(db, l) == db)
            && (S.Attempt(db, l).Ok? && l.event.seqNo > c.cursor ==>
                  AccessCursor(S.Next(db, l), CredAgg(l.id)) == l.event.seqNo == c.cursor + 1)
            && (l.event.seqNo <= c.cursor ==> Decided(OutcomeOf(S.Attempt(db, l))))
  {
    var c := db.rows[l.id].cred;
    OutcomeStep(c, Access.OnOutcome(l.event, l.now, l.revokeOp));
    if l.event.id in c.inbox { assert OI.Placed(c.cursor, c.inbox, l.event.id); }
    if Access.ApplyOutcome(c, l.event, l.now, l.revokeOp) == Ok(c) { assert S.Next(db, l) == db; }
  }

  lemma OutcomeLaw(db: AccessDb, r: Rec<AccessBody>)
    requires Routed(r) && r.payload.Report?
    ensures LawAt(ACCESS, db, r)
  {
    var l, id := CallOf(db, r), r.agg / 2;
    assert l.Outcome? && r.agg == CredAgg(id);
    if id in db.rows {
      OutcomeOnRow(db, l);
      if S.Attempt(db, l).Ok? {
        forall b: Agg | b != r.agg ensures AccessCursor(S.Next(db, l), b) == AccessCursor(db, b) { OutcomeCursors(db, l, b); }
      }
    }
  }

  lemma AccessLawful()
    ensures Lawful(ACCESS)
  {
    forall db: AccessDb, r: Rec<AccessBody> ensures LawAt(ACCESS, db, r) {
      if Routed(r) {
        if r.payload.Report? { OutcomeLaw(db, r); } else { LifecycleLaw(db, r); }
      }
    }
  }

  // ---- what stays though nothing is missing ---------------------------------------------------------

  /** A revoke success of a known operation, next in line, for a credential without a revocation reason. */
  predicate LacksReason(db: S.Db, r: Rec<AccessBody>) {
    && Routed(r) && r.payload.Report? && r.agg / 2 in db.rows
    && var c, b := db.rows[r.agg / 2].cred, r.payload.body;
       && b.RevokeDone? && Access.ValidBody(b)
       && r.seqNo == c.cursor + 1 && r.payload.event !in c.inbox
       && b.op in c.ops && c.ops[b.op].kind == Revoke && c.ops[b.op].rev == b.rev
       && !Access.HasReason(c)
  }

  /** An identifier the service generated for this attempt is in use. */
  predicate TakenId(db: S.Db, r: Rec<AccessBody>) {
    match r.payload
    case Paid(_, _, _, newCred, op, _, _) => newCred in db.rows || exists id :: id in db.rows && op in db.rows[id].cred.ops
    case Grace(_, _, _) => false
    case Ended(_, _, _, op, _, _) => exists id :: id in db.rows && op in db.rows[id].cred.ops
    case Report(_, _, _, revokeOp) => r.agg / 2 in db.rows && revokeOp in db.rows[r.agg / 2].cred.ops
  }

  /**
   Exactly when a handler fails without a gap, a rejection or a fault: the record is the next
   outcome of its credential, a revoke success of a known operation, and the credential is
   neither revoking nor revoked.  (A generated identifier that is in use fails as well.)
   */
  lemma AccessFailingIff(db: AccessDb, r: Rec<AccessBody>)
    ensures !r.malformed && LacksReason(db, r) ==> Verdict(ACCESS, db, r) == Failing
    ensures Verdict(ACCESS, db, r) == Failing ==> !r.malformed && (LacksReason(db, r) || TakenId(db, r))
  {
    if Routed(r) {
      if r.payload.Report? { OutcomeFails(db, r); } else { LifecycleNeverFails(db, r); }
    }
  }

  /** So exactly such records stay deferred, once retries settled, though nothing is missing. */
  lemma AccessLeftover(x: Point<AccessDb, AccessBody>, p: Part)
    requires Settled(ACCESS, x) && p in x.kept && !TakenId(x.s, x.kept[p])
    ensures Verdict(ACCESS, x.s, x.kept[p]) != Missing <==> LacksReason(x.s, x.kept[p])
  {
    assert !Decided(Verdict(ACCESS, x.s, x.kept[p]));
    AccessFailingIff(x.s, x.kept[p]);
  }

  lemma OutcomeFails(db: AccessDb, r: Rec<AccessBody>)
    requires Routed(r) && r.payload.Report?
    ensures LacksReason(db, r) ==> OutcomeOf(Act(db, r)) == Failing
    ensures OutcomeOf(Act(db, r)) == Failing ==> LacksReason(db, r) || TakenId(db, r)
  {
    var id, b := r.agg / 2, r.payload.body;
    if id in db.rows {
      var c := db.rows[id].cred;
      BodyFails(c.(cursor := r.seqNo, inbox := c.inbox[r.payload.event := OI.Event(r.payload.event, r.seqNo, b)]), b, r.payload.now, r.payload.revokeOp);
    }
  }

  lemma BodyFails(c: Access.Credential, b: Access.Body, now: Time, revokeOp: OpId)
    ensures var fails := b.RevokeDone? && b.op in c.ops && c.ops[b.op].kind == Revoke && c.ops[b.op].rev == b.rev && !Access.HasReason(c);
            && (fails ==> OutcomeOf(Access.ApplyBody(c, b, now, revokeOp)) == Failing)
            && (OutcomeOf(Access.ApplyBody(c, b, now, revokeOp)) == Failing ==> fails || revokeOp in c.ops)
  {
  }

  lemma LifecycleNeverFails(db: AccessDb, r: Rec<AccessBody>)
    requires Routed(r) && !r.payload.Report?
    ensures OutcomeOf(Act(db, r)) == Failing ==> TakenId(db, r)
  {
    var l := CallOf(db, r);
    EffectFails(S.Advanced(db, l.sub, l.meta), l);
    if !l.GraceEvent? { assert l.found == CurrentOf(db, l.sub); }
  }

  lemma EffectFails(db: S.Db, l: S.Call)
    requires S.IsLifecycle(l) && (l.GraceEvent? || S.Found(db, l.sub, l.found))
    ensures OutcomeOf(S.Effect(db, l)) != Missing
    ensures OutcomeOf(S.Effect(db, l)) == Failing ==>
              || (l.PeriodEvent? && (l.newCred in db.rows || exists id :: id in db.rows && l.op in db.rows[id].cred.ops))
              || (l.TerminalEvent? && exists id :: id in db.rows && l.op in db.rows[id].cred.ops)
  {
  }

  // ---- the order of the retries decides ---------------------------------------------------------------

  /** What matters of a database that holds one subscription of one user and its credential. */
  datatype Situation = Situation(status: Access.Status, version: nat, ops: set<OpId>, cursor: nat, reports: set<EventId>,
                                 last: nat, events: set<EventId>)

  predicate Shows(db: S.Db, z: Situation) {
    && db.rows.Keys == {5} && db.rows[5].sub == 1 && db.rows[5].user == 9
    && db.lifecycle == map[1 := S.Lifecycle(9, z.last)] && db.seen.Keys == z.events
    && var c := db.rows[5].cred;
       && c.status == z.status && c.version == z.version && c.allocRev == 0
       && c.cursor == z.cursor && c.inbox.Keys == z.reports && c.ops.Keys == z.ops
       && (10 in c.ops ==> c.ops[10] == Access.AccessOp(Provision, 1, Access.Open, None))
       && (20 in c.ops ==> c.ops[20] == Access.AccessOp(Revoke, 2, Access.Open, Some(0)))
  }

  const PAID := Rec(0, 0, SubAgg(1), 1, false, Paid(1, 9, 0, 5, 10, 100, 0))
  const CANCELLED := Rec(1, 0, SubAgg(1), 2, false, Ended(2, 9, 0, 20, false, 0))
  const FAILED := Rec(2, 0, CredAgg(5), 1, false, Report(50, Access.OperationFailed(Provision, 10, 1, true), 0, 30))
  const GRACE := Rec(3, 0, SubAgg(1), 3, false, Grace(3, 9, 0))

  /** The revoke success, a new paid period and a later cancellation. */
  const PROOF := Rec(4, 0, CredAgg(5), 2, false, Report(51, Access.RevokeDone(20, 2, 1, [1, 2]), 0, 30))
  const RENEWED := Rec(5, 0, SubAgg(1), 4, false, Paid(4, 9, 0, 6, 40, 200, 0))
  const CANCELLED_AGAIN := Rec(1, 1, SubAgg(1), 5, false, Ended(5, 9, 0, 60, false, 0))

  const KEPT: map<Part, Rec<AccessBody>> := map[4 := PROOF, 5 := RENEWED, 1 := CANCELLED_AGAIN]

  const ENDED := Situation(Access.Revoking, 2, {10, 20}, 0, {}, 2, {1, 2})
  const WAITING := Situation(Access.Revoking, 2, {10, 20}, 1, {50}, 3, {1, 2, 3})
  const RESTARTED := Situation(Access.Provisioning, 3, {10, 20, 40}, 1, {50}, 4, {1, 2, 3, 4})
  const ENDED_AGAIN := Situation(Access.Revoking, 4, {10, 20, 40, 60}, 1, {50}, 5, {1, 2, 3, 4, 5})

  lemma CurrentIs(db: S.Db, z: Situation)
    requires Shows(db, z) && z.status != Access.Revoked
    ensures CurrentOf(db, 1) == Some(5)
  {
    assert S.Current(db, 1, 5);
  }

  /** The store accepts the record, and the database shows this afterwards. */
  ghost predicate Leads(db: S.Db, r: Rec<AccessBody>, z: Situation) {
    Act(db, r).Ok? && Shows(Act(db, r).value, z)
  }

  const FIRST := Situation(Access.Provisioning, 1, {10}, 0, {}, 1, {1})

  lemma PaidStep()
    ensures Leads(S.EMPTY, PAID, FIRST)
  {
    assert CurrentOf(S.EMPTY, 1) == None;
    assert S.Found(S.Advanced(S.EMPTY, 1, S.Meta(1, 1, 9, 0)), 1, None);
  }

  /** A cancellation of the live credential. */
  lemma EndedOn(db: S.Db, z: Situation, m: S.Meta, op: OpId)
    requires Shows(db, z) && !(z.status in {Access.Revoking, Access.Revoked}) && op !in z.ops && (op == 20 ==> z.version == 1) && op != 10
    requires m.user == 9 && m.seqNo == z.last + 1 && m.event !in z.events
    ensures var r := S.Attempt(db, S.TerminalEvent(1, m, Some(5), op, false, 0));
            r.Ok? && Shows(r.value, z.(status := Access.Revoking, version := z.version + 1, ops := z.ops + {op}, last := m.seqNo, events := z.events + {m.event}))
  {
    var db1 := S.Advanced(db, 1, m);
    assert S.Current(db1, 1, 5);
    EndedCredential(db.rows[5].cred, op);
    assert S.Prepare(db, 1, m) == Ok(Some(db1));
  }

  lemma EndedCredential(c: Access.Credential, op: OpId)
    requires c.status != Access.Revoking && c.status != Access.Revoked && op !in c.ops
    ensures var r := Access.Terminal(c, op, false, 0);
            && r.Ok? && r.value.status == Access.Revoking && r.value.version == c.version + 1 && r.value.allocRev == c.allocRev
            && r.value.cursor == c.cursor && r.value.inbox == c.inbox
            && r.value.ops == c.ops[op := Access.AccessOp(Revoke, c.version + 1, Access.Open, Some(c.allocRev))]
  {
  }

  lemma CancelledStep(db: S.Db)
    requires Shows(db, FIRST)
    ensures Leads(db, CANCELLED, ENDED)
  {
    CurrentIs(db, FIRST);
    EndedOn(db, FIRST, S.Meta(2, 2, 9, 0), 20);
    assert {10} + {20} == {10, 20} && {1} + {2} == {1, 2};
  }

  lemma FailedStep(db: S.Db)
    requires Shows(db, ENDED)
    ensures Leads(db, FAILED, ENDED.(cursor := 1, reports := {50}))
  {
  }

  lemma GraceStep(db: S.Db)
    requires Shows(db, ENDED.(cursor := 1, reports := {50}))
    ensures Leads(db, GRACE, WAITING)
  {
  }

  lemma RenewedStep(db: S.Db)
    requires Shows(db, WAITING)
    ensures Leads(db, RENEWED, RESTARTED)
  {
    CurrentIs(db, WAITING);
  }

  lemma CancelledAgainStep(db: S.Db)
    requires Shows(db, RESTARTED)
    ensures Leads(db, CANCELLED_AGAIN, ENDED_AGAIN)
  {
    CurrentIs(db, RESTARTED);
    EndedOn(db, RESTARTED, S.Meta(5, 5, 9, 0), 60);
    assert {10, 20, 40} + {60} == {10, 20, 40, 60} && {1, 2, 3, 4} + {5} == {1, 2, 3, 4, 5};
  }

  /** The proof is rejected before the period, fails after it, and is recorded after the cancellation. */
  lemma ProofFate(db: S.Db)
    ensures Shows(db, WAITING) ==> Act(db, PROOF) == Err(Conflict)
    ensures Shows(db, RESTARTED) ==> Act(db, PROOF) == Err(Internal)
    ensures Shows(db, ENDED_AGAIN) ==> Leads(db, PROOF, ENDED_AGAIN.(cursor := 2, reports := {50, 51}))
  {
  }

  lemma Accepted(db: AccessDb, r: Rec<AccessBody>, z: Situation) returns (db': AccessDb)
    requires Leads(db, r, z) && !r.malformed && r.seqNo == AccessCursor(db, r.agg) + 1
    ensures Fits(ACCESS, db, r) && ACCESS.apply(db, r) == db' && Shows(db', z)
  {
    db' := ApplyEvent(db, r);
  }

  ghost function Start(): AccessDb {
    NothingRecorded();
    S.EMPTY
  }

  /** The four records in turn. */
  lemma Steps() returns (db1: AccessDb, db2: AccessDb, db3: AccessDb, db4: AccessDb)
    ensures Fits(ACCESS, Start(), PAID) && ACCESS.apply(Start(), PAID) == db1
    ensures Fits(ACCESS, db1, CANCELLED) && ACCESS.apply(db1, CANCELLED) == db2 && Shows(db2, ENDED)
    ensures Fits(ACCESS, db2, FAILED) && ACCESS.apply(db2, FAILED) == db3
    ensures Fits(ACCESS, db3, GRACE) && ACCESS.apply(db3, GRACE) == db4 && Shows(db4, WAITING)
  {
    PaidStep();
    db1 := Accepted(Start(), PAID, FIRST);
    CancelledStep(db1);
    db2 := Accepted(db1, CANCELLED, ENDED);
    db3, db4 := LastSteps(db2);
  }

  lemma LastSteps(db2: AccessDb) returns (db3: AccessDb, db4: AccessDb)
    requires Shows(db2, ENDED)
    ensures Fits(ACCESS, db2, FAILED) && ACCESS.apply(db2, FAILED) == db3
    ensures Fits(ACCESS, db3, GRACE) && ACCESS.apply(db3, GRACE) == db4 && Shows(db4, WAITING)
  {
    FailedStep(db2);
    db3 := Accepted(db2, FAILED, ENDED.(cursor := 1, reports := {50}));
    GraceStep(db3);
    db4 := Accepted(db3, GRACE, WAITING);
  }

  /** A history of four accepted records. */
  lemma FourSteps<T(!new), Q(!new)>(sv: Service<T, Q>, s: T, a: Rec<Q>, b: Rec<Q>, c: Rec<Q>, d: Rec<Q>)
    requires Fits(sv, s, a)
    requires var s1 := sv.apply(s, a); Fits(sv, s1, b) && Fits(sv, sv.apply(s1, b), c) && Fits(sv, sv.apply(sv.apply(s1, b), c), d)
    ensures Feasible(sv, s, [a, b, c, d])
    ensures ApplyAll(sv, s, [a, b, c, d][..2]) == sv.apply(sv.apply(s, a), b)
    ensures ApplyAll(sv, s, [a, b, c, d]) == sv.apply(sv.apply(sv.apply(sv.apply(s, a), b), c), d)
  {
    ApplyNext(sv, s, [], a);
    ApplyNext(sv, s, [a], b);
    ApplyNext(sv, s, [a, b], c);
    ApplyNext(sv, s, [a, b, c], d);
    assert [] + [a] == [a] && [a] + [b] == [a, b] && [a, b] + [c] == [a, b, c] && [a, b, c] + [d] == [a, b, c, d];
    assert [a, b, c, d][..2] == [a, b];
  }

  /** All three were early when the cancellation had just been applied. */
  lemma KeptWereEarly(db: AccessDb)
    requires Shows(db, ENDED)
    ensures forall p | p in KEPT :: Verdict(ACCESS, db, KEPT[p]) == Missing
  {
    Early(db);
    KeptRecords();
  }

  lemma Early(db: S.Db)
    requires Shows(db, ENDED)
    ensures Act(db, PROOF) == Err(Gap) && Act(db, RENEWED) == Err(Gap) && Act(db, CANCELLED_AGAIN) == Err(Gap)
  {
  }

  lemma MissingBefore<T(!new), Q(!new)>(sv: Service<T, Q>, s: T, g: seq<Rec<Q>>, k: nat, x: Point<T, Q>)
    requires k <= |g| && Feasible(sv, s, g) && ApplyAll(sv, s, g) == x.s
    requires forall p | p in x.kept :: Verdict(sv, ApplyAll(sv, s, g[..k]), x.kept[p]) == Missing
    ensures LedTo(sv, s, g, x)
  {
    forall p | p in x.kept ensures WasMissing(sv, s, g, x.kept[p]) {
      assert Verdict(sv, ApplyAll(sv, s, g[..k]), x.kept[p]) == Missing;
    }
  }

  /** Where the consumer is: everything up to the grace event applied, three records kept. */
  lemma Reached() returns (db: AccessDb)
    ensures LedTo(ACCESS, Start(), [PAID, CANCELLED, FAILED, GRACE], Point(db, KEPT)) && Shows(db, WAITING)
  {
    var db1, db2, db3;
    db1, db2, db3, db := Steps();
    FourSteps(ACCESS, Start(), PAID, CANCELLED, FAILED, GRACE);
    KeptWereEarly(db2);
    MissingBefore(ACCESS, Start(), [PAID, CANCELLED, FAILED, GRACE], 2, Point(db, KEPT));
  }

  /** Tries the kept records in the given order. */
  function InTurn(p: Part, q: Part, t: Part): seq<Try> {
    InOrder(p, q) + [Try(t, Clean)]
  }

  lemma InTurnClean(p: Part, q: Part, t: Part)
    ensures AllClean(InTurn(p, q, t))
  {
  }

  lemma ThreeTries<T, Q>(sv: Service<T, Q>, x: Point<T, Q>, p: Part, q: Part, t: Part)
    ensures TryAll(sv, x, InTurn(p, q, t)) == TryOne(sv, TryOne(sv, TryOne(sv, x, Try(p, Clean)), Try(q, Clean)), Try(t, Clean))
  {
    TwoTries(sv, x, p, q);
    TryLast(sv, x, InOrder(p, q), Try(t, Clean));
  }

  /** What one clean try does to a kept record that is decided. */
  ghost predicate Took<T, Q>(sv: Service<T, Q>, s: T, r: Rec<Q>, o: Outcome, s': T) {
    Verdict(sv, s, r) == o && Decided(o) && Handled(sv, s, r) == s'
  }

  /** Three decided records are handled and released in turn. */
  lemma ThreeTook<T, Q>(sv: Service<T, Q>, s: T, kept: map<Part, Rec<Q>>, p: Part, q: Part, t: Part, o: Outcome, o': Outcome, o'': Outcome, s1: T, s2: T, s3: T)
    requires kept.Keys == {p, q, t} && p != q && q != t && p != t
    requires Took(sv, s, kept[p], o, s1) && Took(sv, s1, kept[q], o', s2) && Took(sv, s2, kept[t], o'', s3)
    ensures TryAll(sv, Point(s, kept), InTurn(p, q, t)) == Point(s3, map[])
  {
    ThreeTries(sv, Point(s, kept), p, q, t);
    assert kept - {p} - {q} - {t} == map[];
  }

  lemma RenewedTook(db: AccessDb) returns (db': AccessDb)
    requires Shows(db, WAITING)
    ensures Took(ACCESS, db, RENEWED, Done, db') && Shows(db', RESTARTED)
  {
    RenewedStep(db);
    db' := Accepted(db, RENEWED, RESTARTED);
  }

  lemma CancelledAgainTook(db: AccessDb) returns (db': AccessDb)
    requires Shows(db, RESTARTED)
    ensures Took(ACCESS, db, CANCELLED_AGAIN, Done, db') && Shows(db', ENDED_AGAIN)
  {
    CancelledAgainStep(db);
    db' := Accepted(db, CANCELLED_AGAIN, ENDED_AGAIN);
  }

  lemma ProofTook(db: AccessDb) returns (db': AccessDb)
    requires Shows(db, ENDED_AGAIN)
    ensures Took(ACCESS, db, PROOF, Done, db') && AccessCursor(db', CredAgg(5)) == 2
  {
    ProofFate(db);
    db' := Accepted(db, PROOF, ENDED_AGAIN.(cursor := 2, reports := {50, 51}));
  }

  /** The two events of the subscription, one after the other. */
  lemma RenewedAndCancelled(db: AccessDb) returns (db1: AccessDb, db2: AccessDb)
    requires Shows(db, WAITING)
    ensures Took(ACCESS, db, RENEWED, Done, db1) && Took(ACCESS, db1, CANCELLED_AGAIN, Done, db2) && Shows(db2, ENDED_AGAIN)
  {
    db1 := RenewedTook(db);
    db2 := CancelledAgainTook(db1);
  }

  lemma ShownCursor(db: S.Db, z: Situation)
    requires Shows(db, z)
    ensures AccessCursor(db, CredAgg(5)) == z.cursor
  {
  }

  lemma ProofRejected(db: AccessDb)
    requires Shows(db, WAITING)
    ensures Took(ACCESS, db, PROOF, Poisoned, db)
  {
    ProofFate(db);
  }

  lemma ProofFirstSteps(db: AccessDb) returns (db1: AccessDb, db2: AccessDb)
    requires Shows(db, WAITING)
    ensures Took(ACCESS, db, PROOF, Poisoned, db) && Took(ACCESS, db, RENEWED, Done, db1) && Took(ACCESS, db1, CANCELLED_AGAIN, Done, db2)
    ensures AccessCursor(db2, CredAgg(5)) == 1
  {
    db1, db2 := RenewedAndCancelled(db);
    ShownCursor(db2, ENDED_AGAIN);
    ProofRejected(db);
  }

  lemma ProofLastSteps(db: AccessDb) returns (db1: AccessDb, db2: AccessDb, db3: AccessDb)
    requires Shows(db, WAITING)
    ensures Took(ACCESS, db, RENEWED, Done, db1) && Took(ACCESS, db1, CANCELLED_AGAIN, Done, db2) && Took(ACCESS, db2, PROOF, Done, db3)
    ensures AccessCursor(db3, CredAgg(5)) == 2
  {
    db1, db2 := RenewedAndCancelled(db);
    db3 := ProofTook(db2);
  }

  lemma KeptRecords()
    ensures KEPT.Keys == {4, 5, 1} && KEPT[4] == PROOF && KEPT[5] == RENEWED && KEPT[1] == CANCELLED_AGAIN
  {
  }

  /** The proof first: it is dead-lettered and the outcome cursor stays. */
  lemma ProofFirst(db: AccessDb)
    requires Shows(db, WAITING)
    ensures var y := TryAll(ACCESS, Point(db, KEPT), InTurn(4, 5, 1));
            y.kept == map[] && AccessCursor(y.s, CredAgg(5)) == 1
  {
    var db1, db2 := ProofFirstSteps(db);
    KeptRecords();
    ThreeTook(ACCESS, db, KEPT, 4, 5, 1, Poisoned, Done, Done, db, db1, db2);
  }

  /** The proof last: it is recorded as stale and the outcome cursor advances. */
  lemma ProofLast(db: AccessDb)
    requires Shows(db, WAITING)
    ensures var y := TryAll(ACCESS, Point(db, KEPT), InTurn(5, 1, 4));
            y.kept == map[] && AccessCursor(y.s, CredAgg(5)) == 2
  {
    var db1, db2, db3 := ProofLastSteps(db);
    KeptRecords();
    ThreeTook(ACCESS, db, KEPT, 5, 1, 4, Done, Done, Done, db1, db2, db3);
  }

  lemma KeptDistinct()
    ensures Distinct(KEPT)
  {
    KeptRecords();
  }

  /** Both orders from one state. */
  lemma BothOrders(db: AccessDb)
    requires Shows(db, WAITING)
    ensures var y1 := TryAll(ACCESS, Point(db, KEPT), InTurn(4, 5, 1));
            var y2 := TryAll(ACCESS, Point(db, KEPT), InTurn(5, 1, 4));
            && y1.kept == map[] && y2.kept == map[]
            && AccessCursor(y1.s, CredAgg(5)) == 1 && AccessCursor(y2.s, CredAgg(5)) == 2
  {
    ProofFirst(db);
    ProofLast(db);
  }

  /**
   A subscription was paid and cancelled, its provisioning failed and it is in grace.  The proof
   of the revoke, a new period and a later cancellation were each put aside for a missing
   predecessor on the way.  The order of the retries decides whether the outcome cursor advances:
   proof first, it is dead-lettered; proof last, it is recorded as stale.
   */
  lemma AccessOrderMatters() returns (db: AccessDb)
    ensures LedTo(ACCESS, Start(), [PAID, CANCELLED, FAILED, GRACE], Point(db, KEPT)) && Distinct(KEPT)
    ensures var y1 := TryAll(ACCESS, Point(db, KEPT), InTurn(4, 5, 1));
            var y2 := TryAll(ACCESS, Point(db, KEPT), InTurn(5, 1, 4));
            && y1.kept == map[] && y2.kept == map[]
            && AccessCursor(y1.s, CredAgg(5)) == 1 && AccessCursor(y2.s, CredAgg(5)) == 2
  {
    db := Reached();
    BothOrders(db);
    KeptDistinct();
  }

  /** Two orders that leave nothing kept and different cursors. */
  lemma DisagreeFrom<T(!new), Q(!new)>(sv: Service<T, Q>, s: T, g: seq<Rec<Q>>, x: Point<T, Q>, t1: seq<Try>, t2: seq<Try>, a: Agg)
    requires LedTo(sv, s, g, x) && Distinct(x.kept) && AllClean(t1) && AllClean(t2)
    requires TryAll(sv, x, t1).kept == map[] && TryAll(sv, x, t2).kept == map[]
    requires sv.cursor(TryAll(sv, x, t1).s, a) != sv.cursor(TryAll(sv, x, t2).s, a)
    ensures !OrderIndependent(sv)
  {
    Disagree(sv, x, t1, t2, a);
  }

  lemma AccessOrderDependent()
    ensures !OrderIndependent(ACCESS)
  {
    var db := AccessOrderMatters();
    InTurnClean(4, 5, 1);
    InTurnClean(5, 1, 4);
    DisagreeFrom(ACCESS, Start(), [PAID, CANCELLED, FAILED, GRACE], Point(db, KEPT), InTurn(4, 5, 1), InTurn(5, 1, 4), CredAgg(5));
  }

  /** The proof's verdict at both states; applying the period changes it. */
  lemma PeriodUnsettlesProof(db: AccessDb) returns (db1: AccessDb)
    requires Shows(db, WAITING)
    ensures Took(ACCESS, db, RENEWED, Done, db1) && Fits(ACCESS, db, RENEWED)
    ensures Verdict(ACCESS, db, PROOF) == Poisoned && Verdict(ACCESS, db1, PROOF) == Failing && Ahead(ACCESS, db1, PROOF)
  {
    ProofRejected(db);
    RenewedStep(db);
    db1 := Accepted(db, RENEWED, RESTARTED);
    ProofFails(db1);
  }

  lemma ProofFails(db: AccessDb)
    requires Shows(db, RESTARTED)
    ensures Verdict(ACCESS, db, PROOF) == Failing && Ahead(ACCESS, db, PROOF)
  {
    ProofFate(db);
    ShownCursor(db, RESTARTED);
  }

  /** Two kept records of which one changes the decision on the other. */
  lemma Unstable<T(!new), Q(!new)>(sv: Service<T, Q>, s: T, g: seq<Rec<Q>>, x: Point<T, Q>, i: Part, k: Part)
    requires LedTo(sv, s, g, x) && i in x.kept && k in x.kept
    requires Fits(sv, x.s, x.kept[i]) && Ahead(sv, sv.apply(x.s, x.kept[i]), x.kept[k]) && Decided(Verdict(sv, x.s, x.kept[k]))
    requires Verdict(sv, sv.apply(x.s, x.kept[i]), x.kept[k]) != Verdict(sv, x.s, x.kept[k])
    ensures !Stable(sv)
  {
    var p, r := x.kept[i], x.kept[k];
    assert Deferrable(sv, x);
    forall n | 0 <= n < |[p, r]| ensures Among(x.kept, [p, r][n]) { }
    DeferrableLater(sv, x, [], [p, r]);
    assert !Steady(sv, x.s, p, r);
  }

  /** So access retries are not order independent: applying a period changes the decision on a proof. */
  lemma AccessRetriesDisagree()
    ensures !OrderIndependent(ACCESS) && !Stable(ACCESS)
  {
    AccessOrderDependent();
    var db := Reached();
    var db1 := PeriodUnsettlesProof(db);
    KeptRecords();
    Unstable(ACCESS, Start(), [PAID, CANCELLED, FAILED, GRACE], Point(db, KEPT), 5, 4);
  }
}
