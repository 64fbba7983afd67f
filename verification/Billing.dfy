/**
 An order and its payment in the billing database, with the transition triggers of the schema:
 an update that a trigger refuses fails its whole transaction.
 */
module Billing {
  import opened Common

  datatype OrderStatus = OrderCreated | PaymentPending | Paid | OrderCanceled

  datatype PaymentStatus = Created | VerificationPending | Pending | Succeeded | Canceled | Failed

  datatype Payment = Payment(status: PaymentStatus, key: nat, providerId: Option<nat>, amount: nat, deadline: Time)

  datatype TerminalEvent = PaymentSucceeded(amount: nat) | PaymentCanceled

  datatype ProviderStatus = ProviderPending | ProviderSucceeded | ProviderCanceled

  /** One order, its only payment, and the terminal events in the outbox. */
  datatype Account = Account(order: OrderStatus, amount: nat, payment: Option<Payment>, events: seq<TerminalEvent>) {
    /** There is a payment that the provider does not know yet and that is still to be created there. */
    predicate Uncreated() {
      payment.Some? && (payment.value.status == Created || payment.value.status == VerificationPending) && payment.value.providerId.None?
    }
  }

  function NewOrder(amount: nat): Account {
    Account(OrderCreated, amount, None, [])
  }

  // ---- triggers -----------------------------------------------------------------------------------

  predicate OrderMove(a: OrderStatus, b: OrderStatus) {
    || a == b
    || (a == OrderCreated && (b == PaymentPending || b == OrderCanceled))
    || (a == PaymentPending && (b == Paid || b == OrderCanceled))
  }

  predicate PaymentMove(a: PaymentStatus, b: PaymentStatus) {
    || a == b
    || (a == Created && (b == VerificationPending || b == Pending || b == Failed))
    || (a == VerificationPending && (b == Pending || b == Succeeded || b == Canceled || b == Failed))
    || (a == Pending && (b == Succeeded || b == Canceled || b == Failed))
  }

  /** A paid or canceled order and a closed payment never move; an order is paid only from a pending payment. */
  lemma TriggersMean(a: OrderStatus, b: OrderStatus, p: PaymentStatus, q: PaymentStatus)
    ensures OrderMove(a, b) && a != b <==> (a == OrderCreated && b in {PaymentPending, OrderCanceled}) || (a == PaymentPending && b in {Paid, OrderCanceled})
    ensures PaymentMove(p, q) && p != q <==>
            || (p == Created && q in {VerificationPending, Pending, Failed})
            || (p == VerificationPending && q in {Pending, Succeeded, Canceled, Failed})
            || (p == Pending && q in {Succeeded, Canceled, Failed})
    ensures OrderMove(a, a) && PaymentMove(p, p)
  {
  }

  function SetOrder(s: Account, o: OrderStatus): Result<Account> {
    if OrderMove(s.order, o) then Ok(s.(order := o)) else Err(Conflict)
  }

  /** Only an open order is canceled by a failed payment. */
  function CancelIfOpen(s: Account): Account {
    if s.order == OrderCreated || s.order == PaymentPending then s.(order := OrderCanceled) else s
  }

  function SetPayment(s: Account, p: PaymentStatus): Result<Account>
    requires s.payment.Some?
  {
    if PaymentMove(s.payment.value.status, p) then Ok(s.(payment := Some(s.payment.value.(status := p)))) else Err(Conflict)
  }

  predicate IsOpen(p: PaymentStatus) {
    p == Created || p == VerificationPending || p == Pending
  }

  // ---- transactions -------------------------------------------------------------------------------

  function CreatePayment(s: Account, key: nat, deadline: Time): Result<Account> {
    if s.order != OrderCreated && s.order != PaymentPending then Err(Conflict)
    else if s.payment.Some? then Ok(s)
    else SetOrder(s.(payment := Some(Payment(Created, key, None, s.amount, deadline))), PaymentPending)
  }

  /** Fails a payment whose time to be created at the provider is over. */
  function PrepareProviderCreate(s: Account, now: Time): Result<Account> {
    if s.payment.None? then Err(NotFound)
    else
      var p := s.payment.value;
      if !(p.status == Created || p.status == VerificationPending) || p.providerId.Some? || now < p.deadline then Ok(s)
      else
        var r := SetPayment(s, Failed);
        if r.Err? then r else Ok(CancelIfOpen(r.value))
  }

  function ApplyProviderCreate(s: Account, id: nat, observed: ProviderStatus): Result<Account> {
    if s.payment.None? then Err(Conflict)
    else
      var p := s.payment.value;
      if !IsOpen(p.status) || !(p.providerId.None? || p.providerId == Some(id)) then Err(Conflict)
      else SetPayment(s.(payment := Some(p.(providerId := Some(id)))),
                      if observed == ProviderPending then Pending else VerificationPending)
  }

  function MarkAmbiguous(s: Account): Result<Account> {
    if s.payment.None? || !(s.payment.value.status == Created || s.payment.value.status == VerificationPending) then Ok(s)
    else SetPayment(s, VerificationPending)
  }

  function MarkFailed(s: Account): Result<Account> {
    if s.payment.None? || !IsOpen(s.payment.value.status) then Ok(s)
    else
      var r := SetPayment(s, Failed);
      if r.Err? then r else Ok(CancelIfOpen(r.value))
  }

  /** One terminal event per topic. */
  function Emit(s: Account, e: TerminalEvent): Account {
    if exists i :: 0 <= i < |s.events| && s.events[i].PaymentSucceeded? == e.PaymentSucceeded? then s
    else s.(events := s.events + [e])
  }

  /** Applies a status verified with the provider; timed says that it carries its time. */
  function ApplyVerified(s: Account, observed: ProviderStatus, timed: bool): Result<Account> {
    if s.payment.None? then Err(NotFound)
    else
      var p := s.payment.value;
      if p.status == Succeeded || p.status == Canceled then
        if (p.status == Succeeded && observed == ProviderSucceeded) || (p.status == Canceled && observed == ProviderCanceled)
        then Ok(s) else Err(Conflict)
      else if observed == ProviderPending then SetPayment(s, Pending)
      else if !timed then Err(Conflict)
      else
        var paid := observed == ProviderSucceeded;
        var r := SetPayment(s, if paid then Succeeded else Canceled);
        if r.Err? then r else
          var o := SetOrder(r.value, if paid then Paid else OrderCanceled);
          if o.Err? then o
          else Ok(Emit(o.value, if paid then PaymentSucceeded(p.amount) else PaymentCanceled))
  }

  datatype Call =
    | Create(key: nat, deadline: Time)
    | Prepare(now: Time)
    | ProviderCreated(id: nat, observed: ProviderStatus)
    | Ambiguous
    | Fail
    | Verified(observed: ProviderStatus, timed: bool)

  function Attempt(s: Account, c: Call): Result<Account> {
    match c
    case Create(key, deadline) => CreatePayment(s, key, deadline)
    case Prepare(now) => PrepareProviderCreate(s, now)
    case ProviderCreated(id, observed) => ApplyProviderCreate(s, id, observed)
    case Ambiguous => MarkAmbiguous(s)
    case Fail => MarkFailed(s)
    case Verified(observed, timed) => ApplyVerified(s, observed, timed)
  }

  function Next(s: Account, c: Call): Account {
    var r := Attempt(s, c);
    if r.Ok? then r.value else s
  }

  function Run(amount: nat, calls: seq<Call>): Account {
    if calls == [] then NewOrder(amount) else Next(Run(amount, calls[..|calls| - 1]), calls[|calls| - 1])
  }

  // ---- what every run keeps -----------------------------------------------------------------------

  /** Order status and terminal events that go with a payment status. */
  predicate Coupled(s: Account) {
    match s.payment
    case None => s.order == OrderCreated && s.events == []
    case Some(p) =>
      && p.amount == s.amount
      && match p.status
         case Created => s.order == PaymentPending && s.events == []
         case VerificationPending => s.order == PaymentPending && s.events == []
         case Pending => s.order == PaymentPending && s.events == []
         case Succeeded => s.order == Paid && s.events == [PaymentSucceeded(s.amount)]
         case Canceled => s.order == OrderCanceled && s.events == [PaymentCanceled]
         case Failed => s.order == OrderCanceled && s.events == []
  }

  lemma NextCoupled(s: Account, c: Call)
    requires Coupled(s)
    ensures Coupled(Next(s, c)) && Next(s, c).amount == s.amount
  {
  }

  /**
   In every run the payment and its order move together, and a payment has at most one terminal
   event: a success with the order's amount exactly when the order is paid.
   */
  lemma {:induction false} AlwaysCoupled(amount: nat, calls: seq<Call>)
    ensures Coupled(Run(amount, calls)) && Run(amount, calls).amount == amount
    ensures |Run(amount, calls).events| <= 1
    ensures PaymentSucceeded(amount) in Run(amount, calls).events <==> Run(amount, calls).order == Paid
  {
    if calls != [] {
      AlwaysCoupled(amount, calls[..|calls| - 1]);
      NextCoupled(Run(amount, calls[..|calls| - 1]), calls[|calls| - 1]);
    }
  }

  /** What never changes once it is set. */
  predicate Fixed(s: Account, t: Account) {
    && s.amount == t.amount
    && s.events <= t.events
    && (s.order == Paid ==> t.order == Paid)
    && (s.payment.Some? ==>
          && t.payment.Some?
          && t.payment.value.key == s.payment.value.key
          && (s.payment.value.providerId.Some? ==> t.payment.value.providerId == s.payment.value.providerId)
          && (!IsOpen(s.payment.value.status) ==> t.payment.value.status == s.payment.value.status))
  }

  lemma NextFixed(s: Account, c: Call)
    requires Coupled(s)
    ensures Fixed(s, Next(s, c))
  {
  }

  lemma {:induction false} FixedForever(amount: nat, calls: seq<Call>, more: seq<Call>)
    ensures Fixed(Run(amount, calls), Run(amount, calls + more))
  {
    if more == [] {
      assert calls + more == calls;
    } else {
      var init := more[..|more| - 1];
      FixedForever(amount, calls, init);
      AlwaysCoupled(amount, calls + init);
      NextFixed(Run(amount, calls + init), more[|more| - 1]);
      assert (calls + more)[..|calls + more| - 1] == calls + init;
    }
  }

  /** A provider success for a payment that already failed is refused and changes nothing. */
  lemma LateSuccessRefused(amount: nat, calls: seq<Call>, timed: bool)
    requires Run(amount, calls).payment.Some? && Run(amount, calls).payment.value.status == Failed
    ensures Attempt(Run(amount, calls), Verified(ProviderSucceeded, timed)).Err?
    ensures Run(amount, calls).order == OrderCanceled && Run(amount, calls).events == []
  {
    AlwaysCoupled(amount, calls);
  }

  /** The payment is known at the provider and not closed, or already in the reported state. */
  predicate Accepts(s: Account, closed: PaymentStatus) {
    s.payment.Some? && s.payment.value.status in {VerificationPending, Pending, closed}
  }

  /**
   In every run, a terminal status verified with the provider and carrying its time is accepted
   if and only if the payment is waiting for verification, pending, or already closed that way;
   accepted means that the order is paid or canceled accordingly with its one event.
   */
  lemma VerifiedAcceptedIff(amount: nat, calls: seq<Call>)
    ensures var s := Run(amount, calls);
            && (Attempt(s, Verified(ProviderSucceeded, true)).Ok? <==> Accepts(s, Succeeded))
            && (Attempt(s, Verified(ProviderCanceled, true)).Ok? <==> Accepts(s, Canceled))
            && (Accepts(s, Succeeded) ==> Next(s, Verified(ProviderSucceeded, true)).order == Paid
                                          && Next(s, Verified(ProviderSucceeded, true)).events == [PaymentSucceeded(amount)])
            && (Accepts(s, Canceled) ==> Next(s, Verified(ProviderCanceled, true)).order == OrderCanceled
                                         && Next(s, Verified(ProviderCanceled, true)).events == [PaymentCanceled])
  {
    AlwaysCoupled(amount, calls);
    NextCoupled(Run(amount, calls), Verified(ProviderSucceeded, true));
    NextCoupled(Run(amount, calls), Verified(ProviderCanceled, true));
  }

  // ---- the rows in place --------------------------------------------------------------------------

  /** An open payment may be reported pending, and closed with a time once the provider knows it; a closed one only repeated. */
  predicate MayReport(status: PaymentStatus, observed: ProviderStatus, timed: bool) {
    match observed
    case ProviderPending => status == Created || status == VerificationPending || status == Pending
    case ProviderSucceeded => status == Succeeded || (timed && (status == VerificationPending || status == Pending))
    case ProviderCanceled => status == Canceled || (timed && (status == VerificationPending || status == Pending))
  }

  class Rows {
    var order: OrderStatus
    const amount: nat
    var payment: Option<Payment>
    var events: seq<TerminalEvent>

    ghost function State(): Account
      reads this
    {
      Account(order, amount, payment, events)
    }

    ghost predicate Valid()
      reads this
    {
      Coupled(State())
    }

    constructor (amount: nat)
      ensures Valid() && State() == NewOrder(amount)
    {
      this.amount := amount;
      order, payment, events := OrderCreated, None, [];
    }

    method CreatePayment(key: nat, deadline: Time) returns (ok: bool)
      requires Valid()
      modifies this
      ensures Valid() && State() == Next(old(State()), Create(key, deadline))
      ensures ok <==> old(order) == OrderCreated || old(order) == PaymentPending
      ensures if old(payment).None? && (old(order) == OrderCreated || old(order) == PaymentPending)
              then payment == Some(Payment(Created, key, None, amount, deadline)) && order == PaymentPending && events == old(events)
              else State() == old(State())
    {
      NextCoupled(State(), Create(key, deadline));
      if order != OrderCreated && order != PaymentPending {
        return false;
      }
      if payment.None? {
        payment := Some(Payment(Created, key, None, amount, deadline));
        order := PaymentPending;
      }
      ok := true;
    }

    /** Returns whether the provider may be called. */
    method PrepareProviderCreate(now: Time) returns (go: bool)
      requires Valid()
      modifies this
      ensures Valid() && State() == Next(old(State()), Prepare(now))
      ensures go ==> State() == old(State())
      ensures go <==> old(State()).Uncreated() && now < old(payment).value.deadline
      ensures if old(State()).Uncreated() && now >= old(payment).value.deadline
              then payment == Some(old(payment).value.(status := Failed)) && order == OrderCanceled && events == old(events)
              else State() == old(State())
    {
      NextCoupled(State(), Prepare(now));
      if payment.None? {
        return false;
      }
      var p := payment.value;
      if !(p.status == Created || p.status == VerificationPending) || p.providerId.Some? {
        return false;
      }
      if now >= p.deadline {
        payment := Some(p.(status := Failed));
        if order == OrderCreated || order == PaymentPending { order := OrderCanceled; }
        return false;
      }
      return true;
    }

    method ApplyProviderCreate(id: nat, observed: ProviderStatus) returns (ok: bool)
      requires Valid()
      modifies this
      ensures Valid() && State() == Next(old(State()), ProviderCreated(id, observed))
      ensures ok <==> old(payment).Some? && (old(payment).value.providerId.None? || old(payment).value.providerId == Some(id))
                      && (old(payment).value.status == Created || old(payment).value.status == VerificationPending
                          || (old(payment).value.status == Pending && observed == ProviderPending))
      ensures ok ==> order == old(order) && events == old(events)
                     && payment == Some(old(payment).value.(providerId := Some(id), status := if observed == ProviderPending then Pending else VerificationPending))
      ensures !ok ==> State() == old(State())
    {
      NextCoupled(State(), ProviderCreated(id, observed));
      var wanted := if observed == ProviderPending then Pending else VerificationPending;
      if payment.None? || !IsOpen(payment.value.status)
         || !(payment.value.providerId.None? || payment.value.providerId == Some(id)) {
        return false;
      }
      if !PaymentMove(payment.value.status, wanted) {
        return false;
      }
      payment := Some(payment.value.(providerId := Some(id), status := wanted));
      return true;
    }

    method MarkAmbiguous()
      requires Valid()
      modifies this
      ensures Valid() && State() == Next(old(State()), Ambiguous)
      ensures if old(payment).Some? && old(payment).value.status == Created
              then payment == Some(old(payment).value.(status := VerificationPending)) && order == old(order) && events == old(events)
              else State() == old(State())
    {
      NextCoupled(State(), Ambiguous);
      if payment.Some? && (payment.value.status == Created || payment.value.status == VerificationPending) {
        payment := Some(payment.value.(status := VerificationPending));
      }
    }

    method MarkFailed()
      requires Valid()
      modifies this
      ensures Valid() && State() == Next(old(State()), Fail)
      ensures if old(payment).Some? && old(payment).value.status in {Created, VerificationPending, Pending}
              then payment == Some(old(payment).value.(status := Failed)) && order == OrderCanceled && events == old(events)
              else State() == old(State())
    {
      NextCoupled(State(), Fail);
      if payment.Some? && IsOpen(payment.value.status) {
        payment := Some(payment.value.(status := Failed));
        if order == OrderCreated || order == PaymentPending { order := OrderCanceled; }
      }
    }

    method ApplyVerified(observed: ProviderStatus, timed: bool) returns (ok: bool)
      requires Valid()
      modifies this
      ensures Valid() && State() == Next(old(State()), Verified(observed, timed))
      ensures ok == Attempt(old(State()), Verified(observed, timed)).Ok?
      ensures ok <==> old(payment).Some? && MayReport(old(payment).value.status, observed, timed)
      ensures ok && observed == ProviderPending ==>
                payment == Some(old(payment).value.(status := Pending)) && order == old(order) && events == old(events)
      ensures ok && observed == ProviderSucceeded ==>
                payment == Some(old(payment).value.(status := Succeeded)) && order == Paid && events == [PaymentSucceeded(amount)]
      ensures ok && observed == ProviderCanceled ==>
                payment == Some(old(payment).value.(status := Canceled)) && order == OrderCanceled && events == [PaymentCanceled]
      ensures !ok ==> State() == old(State())
    {
      NextCoupled(State(), Verified(observed, timed));
      if payment.None? {
        return false;
      }
      var p := payment.value;
      if p.status == Succeeded || p.status == Canceled {
        return (p.status == Succeeded && observed == ProviderSucceeded) || (p.status == Canceled && observed == ProviderCanceled);
      }
      if observed == ProviderPending {
        if !PaymentMove(p.status, Pending) { return false; }
        payment := Some(p.(status := Pending));
        return true;
      }
      var paid := observed == ProviderSucceeded;
      if !timed || !PaymentMove(p.status, if paid then Succeeded else Canceled) {
        return false;
      }
      payment := Some(p.(status := if paid then Succeeded else Canceled));
      order := if paid then Paid else OrderCanceled;
      events := events + [if paid then PaymentSucceeded(p.amount) else PaymentCanceled];
      return true;
    }
  }
}
