/**
 An admin recovery action together with the access database.  Every attempt sends the same
 request under the action id; its reply, and the attempt's own report, may come late or never.
 */
module AdminRecovery {
  import opened Common
  import A = Admin
  import S = Subscriptions
  import Access
  import OrderedInbox

  type ClaimId = A.ClaimId

  /** The recovery a single action asks for. */
  datatype Request = Request(key: nat, digest: nat, cred: CredId)

  datatype Desk = Desk(
    action: A.Action,
    db: S.Db,
    issued: set<ClaimId>,      // attempts that were started
    confirmed: set<ClaimId>,   // attempts whose call the owner accepted
    refused: set<ClaimId>)     // attempts whose call the owner definitively rejected

  datatype Label =
    | Attempt(claim: ClaimId, leaseActive: bool)
    | OwnerCall(claim: ClaimId, op: OpId, now: Time)
    | Report(claim: ClaimId, succeeded: bool)
    | Lose(claim: ClaimId)
    | Elsewhere(call: S.Call)

  function OwnerRequest(r: Request, op: OpId, now: Time): S.Call {
    S.RecoveryRequest(r.key, r.digest, r.cred, op, now)
  }

  predicate Enabled(r: Request, d: Desk, l: Label) {
    match l
    case Attempt(claim, _) => claim !in d.issued
    case OwnerCall(claim, _, _) => claim in d.issued && claim !in d.confirmed + d.refused
    case Report(claim, succeeded) => claim in (if succeeded then d.confirmed else d.refused)
    case Lose(claim) => claim in d.issued
    case Elsewhere(call) => !(call.RecoveryRequest? && call.key == r.key)
  }

  function Step(r: Request, d: Desk, l: Label): Desk {
    if !Enabled(r, d, l) then d
    else match l
      case Attempt(claim, leaseActive) =>
        var a := A.Next(d.action, A.Start(claim, leaseActive));
        d.(action := a, issued := if a == d.action then d.issued else d.issued + {claim})
      case OwnerCall(claim, op, now) =>
        var result := S.Attempt(d.db, OwnerRequest(r, op, now));
        if result.Ok? then d.(db := result.value, confirmed := d.confirmed + {claim})
        else d.(refused := d.refused + {claim})
      case Report(claim, succeeded) => d.(action := A.Next(d.action, A.Complete(claim, succeeded)))
      case Lose(claim) => d.(action := A.Next(d.action, A.MarkUnknown(claim)))
      case Elsewhere(call) => d.(db := S.Next(d.db, call))
  }

  function Run(r: Request, db: S.Db, labels: seq<Label>): Desk {
    if labels == [] then Desk(A.NEW, db, {}, {}, {})
    else Step(r, Run(r, db, labels[..|labels| - 1]), labels[|labels| - 1])
  }

  // ---- what every run keeps -----------------------------------------------------------------------

  predicate Inv(r: Request, d: Desk) {
    && A.AuditOk(d.action)
    && d.confirmed <= d.issued && d.refused <= d.issued && d.confirmed !! d.refused
    && (d.confirmed != {} <==> r.key in d.db.recoveries)
    && (r.key in d.db.recoveries ==> d.db.recoveries[r.key].digest == r.digest && d.db.recoveries[r.key].cred == r.cred)
    && (d.action.status == A.Succeeded ==> d.confirmed != {})
    && (d.action.status == A.Failed ==> d.refused != {})
    && |d.issued| == d.action.attempts
  }

  /** Other calls never touch this action's recovery record. */
  lemma ElsewhereKeeps(db: S.Db, call: S.Call, key: nat)
    requires !(call.RecoveryRequest? && call.key == key)
    ensures key in S.Next(db, call).recoveries <==> key in db.recoveries
    ensures key in db.recoveries ==> S.Next(db, call).recoveries[key] == db.recoveries[key]
  {
  }

  /** The owner accepts the request exactly when its record exists afterwards. */
  lemma OwnerKeeps(r: Request, db: S.Db, op: OpId, now: Time)
    requires r.key in db.recoveries ==> db.recoveries[r.key].digest == r.digest && db.recoveries[r.key].cred == r.cred
    ensures var result := S.Attempt(db, OwnerRequest(r, op, now));
            && (result.Ok? ==>
                  && r.key in result.value.recoveries
                  && result.value.recoveries[r.key].digest == r.digest && result.value.recoveries[r.key].cred == r.cred)
            && (r.key in db.recoveries ==> result == Ok(db))
  {
  }

  lemma ActionInv(r: Request, d: Desk, l: Label)
    requires Inv(r, d) && Enabled(r, d, l) && (l.Attempt? || l.Report? || l.Lose?)
    ensures Inv(r, Step(r, d, l))
  {
    match l
    case Attempt(claim, leaseActive) => A.NextAudit(d.action, A.Start(claim, leaseActive));
    case Report(claim, succeeded) => A.NextAudit(d.action, A.Complete(claim, succeeded));
    case Lose(claim) => A.NextAudit(d.action, A.MarkUnknown(claim));
  }

  lemma StepInv(r: Request, d: Desk, l: Label)
    requires Inv(r, d)
    ensures Inv(r, Step(r, d, l))
  {
    if Enabled(r, d, l) {
      match l
      case OwnerCall(claim, op, now) => OwnerKeeps(r, d.db, op, now);
      case Elsewhere(call) => ElsewhereKeeps(d.db, call, r.key);
      case _ => ActionInv(r, d, l);
    }
  }

  lemma {:induction false} RunInv(r: Request, db: S.Db, labels: seq<Label>)
    requires r.key !in db.recoveries
    ensures Inv(r, Run(r, db, labels))
  {
    if labels == [] {
      A.RunAudit([]);
    } else {
      RunInv(r, db, labels[..|labels| - 1]);
      StepInv(r, Run(r, db, labels[..|labels| - 1]), labels[|labels| - 1]);
    }
  }

  // ---- main results -------------------------------------------------------------------------------

  /** Steps in which a call of this action changed the access database. */
  function Effects(r: Request, db: S.Db, labels: seq<Label>): nat {
    if labels == [] then 0
    else
      var init, l := labels[..|labels| - 1], labels[|labels| - 1];
      var d := Run(r, db, init);
      Effects(r, db, init) + (if l.OwnerCall? && Step(r, d, l).db != d.db then 1 else 0)
  }

  /** However many attempts an action takes, it recovers the credential at most once. */
  lemma {:induction false} AtMostOneEffect(r: Request, db: S.Db, labels: seq<Label>)
    requires r.key !in db.recoveries
    ensures Effects(r, db, labels) == (if r.key in Run(r, db, labels).db.recoveries then 1 else 0)
    ensures Run(r, db, labels).action.status == A.Succeeded ==> Effects(r, db, labels) == 1
  {
    RunInv(r, db, labels);
    if labels != [] {
      AtMostOneEffect(r, db, labels[..|labels| - 1]);
      RunInv(r, db, labels[..|labels| - 1]);
    }
  }

  /** An action recorded as failed had no effect, exactly when no attempt's call was accepted. */
  lemma FailedWithoutEffect(r: Request, db: S.Db, labels: seq<Label>)
    requires r.key !in db.recoveries && Run(r, db, labels).action.status == A.Failed
    ensures Effects(r, db, labels) == 0 <==> Run(r, db, labels).confirmed == {}
    ensures Run(r, db, labels).action.attempts == 1 ==> Effects(r, db, labels) == 0
  {
    RunInv(r, db, labels);
    AtMostOneEffect(r, db, labels);
    var d := Run(r, db, labels);
    TwoAttempts(d.issued, d.confirmed, d.refused);
  }

  lemma TwoAttempts(issued: set<ClaimId>, confirmed: set<ClaimId>, refused: set<ClaimId>)
    requires confirmed <= issued && refused <= issued && confirmed !! refused
    ensures |confirmed| + |refused| <= |issued|
  {
    SubsetSize(confirmed + refused, issued);
  }

  // ---- a late call ----------------------------------------------------------------------------------

  const REQUEST := Request(7, 0, 5)
  const FAILURE: Access.OutcomeEvent := OrderedInbox.Event(1, 1, Access.OperationFailed(Provision, 10, 1, true))

  /** One credential that is still being provisioned. */
  const BEFORE := S.Db(map[5 := S.Row(0, 0, Access.NewCredential(10, 100))], map[], map[], map[])

  const LATE: seq<Label> := [Attempt(1, false), Attempt(2, false), OwnerCall(2, 77, 0), Report(2, false),
                             Elsewhere(S.Outcome(5, FAILURE, 0, 0)), OwnerCall(1, 78, 0)]

  lemma Unroll(k: nat)
    requires k < |LATE|
    ensures Run(REQUEST, BEFORE, LATE[..k + 1]) == Step(REQUEST, Run(REQUEST, BEFORE, LATE[..k]), LATE[k])
  {
    assert LATE[..k + 1][..k] == LATE[..k];
  }

  lemma FirstSteps(d: Desk)
    requires d == Desk(A.NEW, BEFORE, {}, {}, {})
    ensures var d2 := Step(REQUEST, Step(REQUEST, d, Attempt(1, false)), Attempt(2, false));
            d2.issued == {1, 2} && d2.confirmed == {} && d2.refused == {} && d2.db == BEFORE
            && d2.action.status == A.Processing && d2.action.claim == Some(2)
  {
  }

  lemma Refuses(d: Desk)
    requires d.issued == {1, 2} && d.confirmed == {} && d.refused == {} && d.db == BEFORE
    requires d.action.status == A.Processing && d.action.claim == Some(2)
    ensures var d4 := Step(REQUEST, Step(REQUEST, d, OwnerCall(2, 77, 0)), Report(2, false));
            d4.action.status == A.Failed && d4.issued == {1, 2} && d4.confirmed == {} && d4.refused == {2} && d4.db == BEFORE
  {
    assert S.Attempt(BEFORE, OwnerRequest(REQUEST, 77, 0)) == Err(Conflict);
  }

  lemma LateCall(d: Desk)
    requires d.action.status == A.Failed && d.issued == {1, 2} && d.confirmed == {} && d.refused == {2} && d.db == BEFORE
    ensures var d6 := Step(REQUEST, Step(REQUEST, d, Elsewhere(S.Outcome(5, FAILURE, 0, 0))), OwnerCall(1, 78, 0));
            d6.action.status == A.Failed && REQUEST.key in d6.db.recoveries
  {
    var c := Access.ApplyOutcome(BEFORE.rows[5].cred, FAILURE, 0, 0);
    assert c.Ok? && c.value.status == Access.Failed && c.value.entitlement == 100 && 78 !in c.value.ops;
    var db := S.Next(BEFORE, S.Outcome(5, FAILURE, 0, 0));
    assert db.rows == map[5 := S.Row(0, 0, c.value)] && db.recoveries == map[];
  }

  /**
   The second attempt is refused and closes the action as failed; then the first attempt's
   delayed call is accepted, so the failed action did recover the credential.
   */
  lemma FailedYetRecovered()
    ensures Run(REQUEST, BEFORE, LATE).action.status == A.Failed
    ensures REQUEST.key in Run(REQUEST, BEFORE, LATE).db.recoveries
  {
    UpToRefusal();
    assert LATE[..6] == LATE;
    Unroll(4);
    Unroll(5);
    LateCall(Run(REQUEST, BEFORE, LATE[..4]));
  }

  lemma UpToRefusal()
    ensures var d := Run(REQUEST, BEFORE, LATE[..4]);
            d.action.status == A.Failed && d.issued == {1, 2} && d.confirmed == {} && d.refused == {2} && d.db == BEFORE
  {
    assert LATE[..0] == [];
    Unroll(0);
    Unroll(1);
    FirstSteps(Run(REQUEST, BEFORE, LATE[..0]));
    Unroll(2);
    Unroll(3);
    Refuses(Run(REQUEST, BEFORE, LATE[..2]));
  }
}
