/** Administrative actions: a claimed, fenced request with an append-only audit. */
module Admin {
  import opened Common

  type ClaimId = nat

  datatype Status = Pending | Processing | OutcomeUnknown | Succeeded | Failed

  datatype Audit = Accepted | Attempted | Retrying | Unknown | Success | Failure

  datatype Action = Action(status: Status, attempts: nat, claim: Option<ClaimId>, audit: seq<Audit>)

  const NEW := Action(Pending, 0, None, [Accepted])

  predicate Closed(s: Status) {
    s == Succeeded || s == Failed
  }

  /** A new attempt, unless the action is closed or another attempt holds an active lease. */
  function StartAttempt(a: Action, claim: ClaimId, leaseActive: bool): Action {
    if Closed(a.status) || (a.status == Processing && leaseActive) then a
    else Action(Processing, a.attempts + 1, Some(claim), a.audit + [if a.attempts > 0 then Retrying else Attempted])
  }

  function Close(a: Action, claim: ClaimId, s: Status, entry: Audit): Result<Action> {
    if Closed(a.status) then Ok(a)
    else if a.status != Processing || a.claim != Some(claim) then Err(Conflict)
    else Ok(Action(s, a.attempts, None, a.audit + [entry]))
  }

  function CompleteAction(a: Action, claim: ClaimId, succeeded: bool): Result<Action> {
    Close(a, claim, if succeeded then Succeeded else Failed, if succeeded then Success else Failure)
  }

  function MarkOutcomeUnknown(a: Action, claim: ClaimId): Result<Action> {
    Close(a, claim, OutcomeUnknown, Unknown)
  }

  datatype Call =
    | Start(claim: ClaimId, leaseActive: bool)
    | Complete(claim: ClaimId, succeeded: bool)
    | MarkUnknown(claim: ClaimId)

  function Next(a: Action, c: Call): Action {
    match c
    case Start(claim, leaseActive) => StartAttempt(a, claim, leaseActive)
    case Complete(claim, succeeded) =>
      var r := CompleteAction(a, claim, succeeded); if r.Ok? then r.value else a
    case MarkUnknown(claim) =>
      var r := MarkOutcomeUnknown(a, claim); if r.Ok? then r.value else a
  }

  function Run(calls: seq<Call>): Action {
    if calls == [] then NEW else Next(Run(calls[..|calls| - 1]), calls[|calls| - 1])
  }

  // ---- what every run keeps -----------------------------------------------------------------------

  predicate IsAttempt(e: Audit) {
    e == Attempted || e == Retrying
  }

  function CountAttempts(audit: seq<Audit>): nat {
    if audit == [] then 0
    else CountAttempts(audit[..|audit| - 1]) + (if IsAttempt(audit[|audit| - 1]) then 1 else 0)
  }

  function StatusAfter(e: Audit): Status {
    match e
    case Accepted => Pending
    case Attempted => Processing
    case Retrying => Processing
    case Unknown => OutcomeUnknown
    case Success => Succeeded
    case Failure => Failed
  }

  /** Which entry may follow which in an audit. */
  predicate Follows(e: Audit, f: Audit) {
    match e
    case Accepted => f == Attempted
    case Attempted => f == Retrying || f == Unknown || f == Success || f == Failure
    case Retrying => f == Retrying || f == Unknown || f == Success || f == Failure
    case Unknown => f == Retrying
    case Success => false
    case Failure => false
  }

  /** The audit tells the whole story: status, attempts, and that a closing entry is the last. */
  predicate AuditOk(a: Action) {
    && |a.audit| >= 1
    && a.audit[0] == Accepted
    && (forall i | 0 <= i < |a.audit| - 1 :: Follows(a.audit[i], a.audit[i + 1]))
    && a.status == StatusAfter(a.audit[|a.audit| - 1])
    && a.attempts == CountAttempts(a.audit)
    && (a.attempts == 0 <==> a.status == Pending)
    && (a.claim.Some? <==> a.status == Processing)
  }

  lemma AppendAudit(a: Action, b: Action, e: Audit)
    requires AuditOk(a) && b.audit == a.audit + [e] && Follows(a.audit[|a.audit| - 1], e)
    requires b.status == StatusAfter(e) && b.attempts == a.attempts + (if IsAttempt(e) then 1 else 0)
    requires b.claim.Some? <==> b.status == Processing
    requires b.status != Pending && (IsAttempt(e) || a.attempts > 0)
    ensures AuditOk(b)
  {
    assert b.audit[..|b.audit| - 1] == a.audit;
  }

  lemma NextAudit(a: Action, c: Call)
    requires AuditOk(a)
    ensures AuditOk(Next(a, c)) && a.audit <= Next(a, c).audit
  {
    var b := Next(a, c);
    if b != a { AppendAudit(a, b, b.audit[|a.audit|]); }
  }

  /** In every run the status is what the last audit entry says and attempts are counted by it. */
  lemma {:induction false} RunAudit(calls: seq<Call>)
    ensures AuditOk(Run(calls))
  {
    if calls != [] {
      RunAudit(calls[..|calls| - 1]);
      NextAudit(Run(calls[..|calls| - 1]), calls[|calls| - 1]);
    }
  }

  /** A succeeded or failed entry is unique and last, and nothing changes after it. */
  lemma ClosingEntryLast(calls: seq<Call>, i: nat, c: Call)
    requires i < |Run(calls).audit| && (Run(calls).audit[i] == Success || Run(calls).audit[i] == Failure)
    ensures i == |Run(calls).audit| - 1 && Next(Run(calls), c) == Run(calls)
  {
    RunAudit(calls);
    var a := Run(calls);
    forall k | 0 <= k < |a.audit| - 1 ensures a.audit[k] != Success && a.audit[k] != Failure {
      assert Follows(a.audit[k], a.audit[k + 1]);
    }
  }

  /** Only the current claim closes an attempt. */
  lemma StaleClaimHarmless(a: Action, c: Call)
    requires c.Complete? || c.MarkUnknown?
    requires a.claim != Some(c.claim)
    ensures Next(a, c) == a
  {
  }

  // ---- the row in place ---------------------------------------------------------------------------

  class Store {
    var status: Status
    var attempts: nat
    var claim: Option<ClaimId>
    var audit: seq<Audit>

    ghost function State(): Action
      reads this
    {
      Action(status, attempts, claim, audit)
    }

    ghost predicate Valid()
      reads this
    {
      AuditOk(State())
    }

    constructor ()
      ensures Valid() && State() == NEW
    {
      status, attempts, claim, audit := Pending, 0, None, [Accepted];
      new;
      RunAudit([]);
    }

    method StartAttempt(issued: ClaimId, leaseActive: bool) returns (claimed: bool)
      requires Valid()
      modifies this
      ensures Valid() && State() == Next(old(State()), Start(issued, leaseActive))
      ensures claimed <==> old(status) in {Pending, OutcomeUnknown} || (old(status) == Processing && !leaseActive)
      ensures claimed ==> status == Processing && claim == Some(issued) && attempts == old(attempts) + 1
                          && audit == old(audit) + [if old(attempts) == 0 then Attempted else Retrying]
      ensures !claimed ==> State() == old(State())
    {
      NextAudit(State(), Start(issued, leaseActive));
      if status == Succeeded || status == Failed {
        return false;
      }
      if status == Processing && leaseActive {
        return false;
      }
      var outcome := Attempted;
      if attempts > 0 { outcome := Retrying; }
      status, attempts, claim := Processing, attempts + 1, Some(issued);
      audit := audit + [outcome];
      return true;
    }

    method FinishAttempt(held: ClaimId, succeeded: bool) returns (ok: bool)
      requires Valid()
      modifies this
      ensures Valid() && State() == Next(old(State()), Complete(held, succeeded))
      ensures ok == CompleteAction(old(State()), held, succeeded).Ok?
      ensures ok <==> old(status) in {Succeeded, Failed} || (old(status) == Processing && old(claim) == Some(held))
      ensures if ok && old(status) == Processing
              then State() == Action(if succeeded then Succeeded else Failed, old(attempts), None,
                                     old(audit) + [if succeeded then Success else Failure])
              else State() == old(State())
    {
      NextAudit(State(), Complete(held, succeeded));
      if status == Succeeded || status == Failed {
        return true;
      }
      if status != Processing || claim != Some(held) {
        return false;
      }
      status, claim := if succeeded then Succeeded else Failed, None;
      audit := audit + [if succeeded then Success else Failure];
      return true;
    }

    method LoseOutcome(held: ClaimId) returns (ok: bool)
      requires Valid()
      modifies this
      ensures Valid() && State() == Next(old(State()), MarkUnknown(held))
      ensures ok == MarkOutcomeUnknown(old(State()), held).Ok?
      ensures ok <==> old(status) in {Succeeded, Failed} || (old(status) == Processing && old(claim) == Some(held))
      ensures if ok && old(status) == Processing
              then State() == Action(OutcomeUnknown, old(attempts), None, old(audit) + [Unknown])
              else State() == old(State())
    {
      NextAudit(State(), MarkUnknown(held));
      if status == Succeeded || status == Failed {
        return true;
      }
      if status != Processing || claim != Some(held) {
        return false;
      }
      status, claim := OutcomeUnknown, None;
      audit := audit + [Unknown];
      return true;
    }
  }
}
