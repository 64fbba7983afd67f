/** When a failed admin action may still have, or get, an effect. */
module AdminLateCalls {
  import opened Common
  import opened AdminRecovery
  import A = Admin
  import S = Subscriptions
  import Access
  import AccessSafety
  import AccessTheorems
  import OrderedInbox

  // ---- the number of attempts decides what a failed action guarantees ------------------------------

  /** Attempts 1, ..., n, each after the lease of the one before. */
  function Attempts(n: nat): seq<Label> {
    if n == 0 then [] else Attempts(n - 1) + [Attempt(n, false)]
  }

  function UpTo(n: nat): (claims: set<ClaimId>)
    ensures forall k: ClaimId :: k in claims <==> 1 <= k <= n
  {
    if n == 0 then {} else UpTo(n - 1) + {n}
  }

  lemma Extend(r: Request, db: S.Db, labels: seq<Label>, l: Label)
    ensures Run(r, db, labels + [l]) == Step(r, Run(r, db, labels), l)
  {
    assert (labels + [l])[..|labels|] == labels;
  }

  lemma {:induction false} AttemptsRun(n: nat)
    ensures var d := Run(REQUEST, BEFORE, Attempts(n));
            && d.issued == UpTo(n) && d.confirmed == {} && d.refused == {} && d.db == BEFORE
            && d.action.attempts == n
            && (if n == 0 then d.action == A.NEW else d.action.status == A.Processing && d.action.claim == Some(n))
  {
    if n > 0 {
      AttemptsRun(n - 1);
      Extend(REQUEST, BEFORE, Attempts(n - 1), Attempt(n, false));
    }
  }

  /** The newest attempt is refused and closes the action; then the first one's call arrives. */
  function LateRun(n: nat): seq<Label> {
    Attempts(n) + [OwnerCall(n, 77, 0)] + [Report(n, false)] + [Elsewhere(S.Outcome(5, FAILURE, 0, 0))] + [OwnerCall(1, 78, 0)]
  }

  lemma LateRefusal(n: nat)
    requires n >= 2
    ensures var d := Run(REQUEST, BEFORE, Attempts(n) + [OwnerCall(n, 77, 0)] + [Report(n, false)]);
            && d.action.status == A.Failed && d.action.attempts == n
            && 1 in d.issued && d.confirmed == {} && d.refused == {n} && d.db == BEFORE
  {
    var first := Attempts(n);
    AttemptsRun(n);
    Extend(REQUEST, BEFORE, first, OwnerCall(n, 77, 0));
    assert S.Attempt(BEFORE, OwnerRequest(REQUEST, 77, 0)) == Err(Conflict);
    Extend(REQUEST, BEFORE, first + [OwnerCall(n, 77, 0)], Report(n, false));
  }

  lemma LateEffect(n: nat)
    requires n >= 2
    ensures var d := Run(REQUEST, BEFORE, LateRun(n));
            d.action.status == A.Failed && d.action.attempts == n && Effects(REQUEST, BEFORE, LateRun(n)) == 1
  {
    var refused := Attempts(n) + [OwnerCall(n, 77, 0)] + [Report(n, false)];
    LateRefusal(n);
    Extend(REQUEST, BEFORE, refused, Elsewhere(S.Outcome(5, FAILURE, 0, 0)));
    Extend(REQUEST, BEFORE, refused + [Elsewhere(S.Outcome(5, FAILURE, 0, 0))], OwnerCall(1, 78, 0));
    AcceptedLate(Run(REQUEST, BEFORE, refused), 1);
    AtMostOneEffect(REQUEST, BEFORE, LateRun(n));
  }

  lemma AcceptedLate(d: Desk, claim: ClaimId)
    requires d.action.status == A.Failed && claim in d.issued && claim !in d.confirmed + d.refused && d.db == BEFORE
    ensures var d' := Step(REQUEST, Step(REQUEST, d, Elsewhere(S.Outcome(5, FAILURE, 0, 0))), OwnerCall(claim, 78, 0));
            d'.action == d.action && REQUEST.key in d'.db.recoveries
  {
    var c := Access.ApplyOutcome(BEFORE.rows[5].cred, FAILURE, 0, 0);
    assert c.Ok? && c.value.status == Access.Failed && c.value.entitlement == 100 && 78 !in c.value.ops;
    var db := S.Next(BEFORE, S.Outcome(5, FAILURE, 0, 0));
    assert db.rows == map[5 := S.Row(0, 0, c.value)] && db.recoveries == map[];
  }

  /** Every action recorded as failed after this many attempts had no effect. */
  ghost predicate NoEffectAfter(n: nat) {
    forall r: Request, db: S.Db, labels: seq<Label> ::
      r.key !in db.recoveries && Run(r, db, labels).action.status == A.Failed && Run(r, db, labels).action.attempts == n
      ==> Effects(r, db, labels) == 0
  }

  /** A failed action is known to have had no effect if and only if it took a single attempt. */
  lemma FailedMeansNoEffectIff(n: nat)
    requires n >= 1
    ensures NoEffectAfter(n) <==> n == 1
  {
    if n == 1 {
      forall r: Request, db: S.Db, labels: seq<Label> | r.key !in db.recoveries && Run(r, db, labels).action.status == A.Failed
                             && Run(r, db, labels).action.attempts == n
        ensures Effects(r, db, labels) == 0
      {
        FailedWithoutEffect(r, db, labels);
      }
    } else {
      LateEffect(n);
    }
  }

  // ---- whether a failed action may still get an effect ----------------------------------------------

  /** Some number that is not in the set. */
  lemma Unused(s: set<nat>) returns (x: nat)
    ensures x !in s
  {
    x := 0;
    var rest := s;
    while rest != {}
      invariant rest <= s && forall y | y in s && y !in rest :: y < x
    {
      var y :| y in rest;
      if y >= x { x := y + 1; }
      rest := rest - {y};
    }
  }

  function After(db: S.Db, calls: seq<S.Call>): S.Db {
    if calls == [] then db else S.Next(After(db, calls[..|calls| - 1]), calls[|calls| - 1])
  }

  ghost predicate Sound(db: S.Db) {
    S.RowsInv(db) && S.OwnersOk(db)
  }

  predicate NoRecovery(calls: seq<S.Call>) {
    forall i | 0 <= i < |calls| :: !calls[i].RecoveryRequest?
  }

  predicate HasStatus(db: S.Db, cred: CredId, s: Access.Status) {
    cred in db.rows && db.rows[cred].cred.status == s
  }

  lemma SoundNext(db: S.Db, l: S.Call)
    requires Sound(db)
    ensures Sound(S.Next(db, l))
  {
    S.NextRowsInv(db, l);
    S.NextOwners(db, l);
  }

  /** An envelope that is next in line for a subscription. */
  lemma FreshMeta(db: S.Db, sub: S.SubId) returns (m: S.Meta)
    ensures S.Prepare(db, sub, m) == Ok(Some(S.Advanced(db, sub, m)))
    ensures sub in db.lifecycle ==> m.user == db.lifecycle[sub].user
  {
    var e := Unused(db.seen.Keys);
    m := S.Meta(e, S.CursorOf(db, sub) + 1, if sub in db.lifecycle then db.lifecycle[sub].user else 0, 0);
  }

  /** A credential that does not exist yet can be created. */
  lemma Create(db: S.Db, cred: CredId) returns (l: S.Call)
    requires Sound(db) && cred !in db.rows
    ensures !l.RecoveryRequest? && HasStatus(S.Next(db, l), cred, Access.Provisioning)
  {
    var sub := Unused(set id | id in db.rows :: db.rows[id].sub);
    var m := FreshMeta(db, sub);
    l := S.PeriodEvent(sub, m, None, cred, 0, 1, 0);
    forall id | id in db.rows ensures !S.Current(db, sub, id) {
      assert db.rows[id].sub in set k | k in db.rows :: db.rows[k].sub;
    }
  }

  /** A credential in service can be sent into revocation. */
  lemma End(db: S.Db, cred: CredId) returns (l: S.Call)
    requires Sound(db) && cred in db.rows && Access.Serving(db.rows[cred].cred)
    ensures !l.RecoveryRequest? && HasStatus(S.Next(db, l), cred, Access.Revoking)
  {
    var row := db.rows[cred];
    var m := FreshMeta(db, row.sub);
    var op := Unused(row.cred.ops.Keys);
    l := S.TerminalEvent(row.sub, m, Some(cred), op, false, 0);
    assert S.Found(S.Advanced(db, row.sub, m), row.sub, Some(cred));
  }

  /** A credential being revoked can be provisioned again. */
  lemma Reopen(db: S.Db, cred: CredId) returns (l: S.Call)
    requires Sound(db) && HasStatus(db, cred, Access.Revoking)
    ensures !l.RecoveryRequest? && HasStatus(S.Next(db, l), cred, Access.Provisioning)
  {
    var row := db.rows[cred];
    var m := FreshMeta(db, row.sub);
    var op := Unused(row.cred.ops.Keys);
    l := S.PeriodEvent(row.sub, m, Some(cred), 0, op, 1, 0);
    assert S.Found(S.Advanced(db, row.sub, m), row.sub, Some(cred));
  }

  /** A provisioning can fail. */
  lemma Fail(db: S.Db, cred: CredId) returns (l: S.Call)
    requires Sound(db) && HasStatus(db, cred, Access.Provisioning)
    ensures !l.RecoveryRequest? && HasStatus(S.Next(db, l), cred, Access.Failed)
  {
    var c := db.rows[cred].cred;
    var e := Unused(c.inbox.Keys);
    var op := c.sent[c.version - 1].op;
    assert AccessSafety.CommandOk(c.ops, c.sent, c.version - 1);
    assert c.ops[op] == AccessSafety.OpAt(c.ops, c.sent, c.version);
    l := S.Outcome(cred, OrderedInbox.Event(e, c.cursor + 1, Access.OperationFailed(Provision, op, c.version, true)), 0, 0);
  }

  lemma {:induction false} AfterFirst(db: S.Db, l: S.Call, rest: seq<S.Call>)
    ensures After(db, [l] + rest) == After(S.Next(db, l), rest)
  {
    if rest == [] {
      assert [l] + rest == [l] && [l][..0] == [];
      assert After(db, [l][..0]) == db;
    } else {
      AfterFirst(db, l, rest[..|rest| - 1]);
      assert ([l] + rest)[..|rest|] == [l] + rest[..|rest| - 1];
    }
  }

  /** The calls lead to a sound database in which the credential failed, without a recovery. */
  ghost predicate Leads(db: S.Db, cred: CredId, calls: seq<S.Call>) {
    NoRecovery(calls) && Sound(After(db, calls)) && HasStatus(After(db, calls), cred, Access.Failed)
  }

  lemma Prepend(db: S.Db, cred: CredId, l: S.Call, rest: seq<S.Call>)
    requires !l.RecoveryRequest? && Leads(S.Next(db, l), cred, rest)
    ensures Leads(db, cred, [l] + rest)
  {
    AfterFirst(db, l, rest);
  }

  lemma SteerProvisioning(db: S.Db, cred: CredId) returns (calls: seq<S.Call>)
    requires Sound(db) && HasStatus(db, cred, Access.Provisioning)
    ensures Leads(db, cred, calls)
  {
    var l := Fail(db, cred);
    SoundNext(db, l);
    assert Leads(S.Next(db, l), cred, []);
    Prepend(db, cred, l, []);
    calls := [l] + [];
  }

  lemma SteerRevoking(db: S.Db, cred: CredId) returns (calls: seq<S.Call>)
    requires Sound(db) && HasStatus(db, cred, Access.Revoking)
    ensures Leads(db, cred, calls)
  {
    var l := Reopen(db, cred);
    SoundNext(db, l);
    var rest := SteerProvisioning(S.Next(db, l), cred);
    Prepend(db, cred, l, rest);
    calls := [l] + rest;
  }

  /** Any credential that is not revoked can be brought to failed without a recovery. */
  lemma Steer(db: S.Db, cred: CredId) returns (calls: seq<S.Call>)
    requires Sound(db) && !HasStatus(db, cred, Access.Revoked)
    ensures Leads(db, cred, calls)
  {
    if cred !in db.rows {
      var l := Create(db, cred);
      SoundNext(db, l);
      var rest := SteerProvisioning(S.Next(db, l), cred);
      Prepend(db, cred, l, rest);
      calls := [l] + rest;
    } else if Access.Serving(db.rows[cred].cred) {
      var l := End(db, cred);
      SoundNext(db, l);
      var rest := SteerRevoking(S.Next(db, l), cred);
      Prepend(db, cred, l, rest);
      calls := [l] + rest;
    } else if db.rows[cred].cred.status == Access.Revoking {
      calls := SteerRevoking(db, cred);
    } else if db.rows[cred].cred.status == Access.Provisioning {
      calls := SteerProvisioning(db, cred);
    } else {
      calls := [];
    }
  }

  // ---- continuations of a failed action ---------------------------------------------------------------

  function Elsewheres(calls: seq<S.Call>): seq<Label> {
    seq(|calls|, i requires 0 <= i < |calls| => Elsewhere(calls[i]))
  }

  /** Calls of others change the database only. */
  lemma {:induction false} ElsewhereRun(r: Request, db: S.Db, labels: seq<Label>, calls: seq<S.Call>)
    requires NoRecovery(calls)
    ensures Run(r, db, labels + Elsewheres(calls)) == Run(r, db, labels).(db := After(Run(r, db, labels).db, calls))
  {
    if calls == [] {
      assert labels + Elsewheres(calls) == labels;
    } else {
      var init, l := calls[..|calls| - 1], calls[|calls| - 1];
      ElsewhereRun(r, db, labels, init);
      assert labels + Elsewheres(calls) == (labels + Elsewheres(init)) + [Elsewhere(l)];
      Extend(r, db, labels + Elsewheres(init), Elsewhere(l));
    }
  }

  lemma {:induction false} RunSound(r: Request, db: S.Db, labels: seq<Label>)
    requires Sound(db)
    ensures Sound(Run(r, db, labels).db)
  {
    if labels != [] {
      var init, l := labels[..|labels| - 1], labels[|labels| - 1];
      RunSound(r, db, init);
      if l.OwnerCall? { SoundNext(Run(r, db, init).db, OwnerRequest(r, l.op, l.now)); }
      if l.Elsewhere? { SoundNext(Run(r, db, init).db, l.call); }
    }
  }

  /** An attempt was started whose call was neither accepted nor refused. */
  predicate Unanswered(d: Desk) {
    |d.confirmed| + |d.refused| < d.action.attempts
  }

  lemma CallPending(r: Request, d: Desk) returns (claim: ClaimId)
    requires Inv(r, d) && Unanswered(d)
    ensures claim in d.issued && claim !in d.confirmed + d.refused
  {
    assert |d.confirmed + d.refused| == |d.confirmed| + |d.refused|;
    if d.issued <= d.confirmed + d.refused { SubsetSize(d.issued, d.confirmed + d.refused); }
    claim :| claim in d.issued && claim !in d.confirmed + d.refused;
  }

  /** A pending call can still be accepted while the credential is not revoked. */
  lemma StillPossible(r: Request, db: S.Db, labels: seq<Label>) returns (more: seq<Label>)
    requires Sound(db) && r.key !in db.recoveries
    requires Unanswered(Run(r, db, labels)) && !HasStatus(Run(r, db, labels).db, r.cred, Access.Revoked)
    ensures r.key in Run(r, db, labels + more).db.recoveries
  {
    var d := Run(r, db, labels);
    RunInv(r, db, labels);
    RunSound(r, db, labels);
    var claim := CallPending(r, d);
    var calls := Steer(d.db, r.cred);
    ElsewhereRun(r, db, labels, calls);
    RunInv(r, db, labels + Elsewheres(calls));
    var l := AcceptNow(r, Run(r, db, labels + Elsewheres(calls)), claim);
    Extend(r, db, labels + Elsewheres(calls), l);
    more := Elsewheres(calls) + [l];
    assert labels + more == (labels + Elsewheres(calls)) + [l];
  }

  /** The owner accepts a pending call for a failed credential whose entitlement still runs. */
  lemma AcceptNow(r: Request, d: Desk, claim: ClaimId) returns (l: Label)
    requires Inv(r, d) && claim in d.issued && claim !in d.confirmed + d.refused && HasStatus(d.db, r.cred, Access.Failed)
    ensures r.key in Step(r, d, l).db.recoveries
  {
    var c := d.db.rows[r.cred].cred;
    var op := Unused(c.ops.Keys);
    l := OwnerCall(claim, op, c.entitlement - 1);
    RecoverSucceeds(r, d.db, op);
    StepInv(r, d, l);
  }

  lemma RecoverSucceeds(r: Request, db: S.Db, op: OpId)
    requires HasStatus(db, r.cred, Access.Failed) && op !in db.rows[r.cred].cred.ops
    requires r.key in db.recoveries ==> db.recoveries[r.key].digest == r.digest && db.recoveries[r.key].cred == r.cred
    ensures S.Attempt(db, OwnerRequest(r, op, db.rows[r.cred].cred.entitlement - 1)).Ok?
  {
  }

  // ---- and when it cannot ---------------------------------------------------------------------------

  /** No attempt is pending and no new one can start, or the credential is gone for good. */
  ghost predicate Settled(r: Request, d: Desk) {
    && Inv(r, d) && Sound(d.db) && d.action.status == A.Failed && d.confirmed == {}
    && (d.refused == d.issued || HasStatus(d.db, r.cred, Access.Revoked))
  }

  lemma RevokedStays(db: S.Db, l: S.Call, cred: CredId)
    requires Sound(db) && HasStatus(db, cred, Access.Revoked)
    ensures HasStatus(S.Next(db, l), cred, Access.Revoked)
  {
    S.NextRow(db, l, cred);
    S.MovesInv(db.rows[cred].cred, S.Next(db, l).rows[cred].cred);
  }

  lemma StepSettled(r: Request, d: Desk, l: Label)
    requires Settled(r, d)
    ensures Settled(r, Step(r, d, l))
  {
    StepInv(r, d, l);
    if Enabled(r, d, l) {
      match l
      case OwnerCall(claim, op, now) => OwnerSettled(r, d, l);
      case Elsewhere(call) =>
        SoundNext(d.db, call);
        if HasStatus(d.db, r.cred, Access.Revoked) { RevokedStays(d.db, call, r.cred); }
      case _ => assert Step(r, d, l).action == d.action;
    }
  }

  lemma OwnerSettled(r: Request, d: Desk, l: Label)
    requires Settled(r, d) && l.OwnerCall? && Enabled(r, d, l)
    ensures Settled(r, Step(r, d, l))
  {
    StepInv(r, d, l);
    assert S.Attempt(d.db, OwnerRequest(r, l.op, l.now)).Err?;
  }

  lemma {:induction false} NeverAgain(r: Request, db: S.Db, labels: seq<Label>, more: seq<Label>)
    requires Settled(r, Run(r, db, labels))
    ensures Settled(r, Run(r, db, labels + more))
  {
    if more == [] {
      assert labels + more == labels;
    } else {
      var init, l := more[..|more| - 1], more[|more| - 1];
      NeverAgain(r, db, labels, init);
      Extend(r, db, labels + init, l);
      assert labels + more == (labels + init) + [l];
      StepSettled(r, Run(r, db, labels + init), l);
    }
  }

  /**
   From a failed action that had no effect so far, some continuation has one if and only if an
   attempt is still unanswered and the credential is not revoked.
   */
  lemma EffectPossibleIff(calls: seq<S.Call>, r: Request, labels: seq<Label>)
    requires r.key !in S.History(calls).recoveries
    requires Run(r, S.History(calls), labels).action.status == A.Failed && Effects(r, S.History(calls), labels) == 0
    ensures var db := S.History(calls); var d := Run(r, db, labels);
            (exists more :: Effects(r, db, labels + more) == 1) <==>
            |d.refused| < d.action.attempts && !HasStatus(d.db, r.cred, Access.Revoked)
  {
    var db := S.History(calls);
    var d := Run(r, db, labels);
    S.HistoryInv(calls);
    S.OwnerCheckNeverFails(calls, 0, S.Meta(0, 0, 0, 0), 0);
    RunInv(r, db, labels);
    AtMostOneEffect(r, db, labels);
    assert d.confirmed == {};
    if |d.refused| < d.action.attempts && !HasStatus(d.db, r.cred, Access.Revoked) {
      var more := StillPossible(r, db, labels);
      AtMostOneEffect(r, db, labels + more);
    } else {
      RunSound(r, db, labels);
      if |d.refused| == |d.issued| { AccessTheorems.SubsetOfSameSize(d.refused, d.issued); }
      SubsetSize(d.refused, d.issued);
      assert Settled(r, d);
      forall more: seq<Label> ensures Effects(r, db, labels + more) == 0 {
        NeverAgain(r, db, labels, more);
        AtMostOneEffect(r, db, labels + more);
      }
    }
  }
}
