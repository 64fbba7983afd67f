/**
 Publishing the outbox of one aggregate.  Rows are numbered in the order they were written; a
 worker that leased a row may send it late or again, even after its lease expired.
 */
module Outbox {
  import opened Common

  datatype State = Waiting | Leased | Published

  datatype Row<P> = Row(payload: P, state: State, attempts: nat)

  /** Rows by sequence, and the indices of the rows sent to the broker, newest last. */
  datatype Outbox<P> = Outbox(rows: seq<Row<P>>, sends: seq<nat>)

  datatype Step<P> =
    | Append(payload: P)
    | Claim(row: nat)
    | Send(row: nat)
    | Complete(row: nat)
    | Retry(row: nat)

  predicate Claimable<P>(o: Outbox<P>, i: nat) {
    && i < |o.rows|
    && o.rows[i].state != Published
    && forall j | 0 <= j < i :: o.rows[j].state == Published
  }

  function SetRow<P>(o: Outbox<P>, i: nat, s: State, attempts: nat): Outbox<P>
    requires i < |o.rows|
  {
    o.(rows := o.rows[i := o.rows[i].(state := s, attempts := attempts)])
  }

  /** A row is completed by a worker whose send succeeded. */
  function Next<P>(o: Outbox<P>, l: Step<P>): Outbox<P> {
    match l
    case Append(p) => o.(rows := o.rows + [Row(p, Waiting, 0)])
    case Claim(i) => if Claimable(o, i) then SetRow(o, i, Leased, o.rows[i].attempts + 1) else o
    case Send(i) => if i < |o.rows| && o.rows[i].attempts > 0 then o.(sends := o.sends + [i]) else o
    case Complete(i) =>
      if i < |o.rows| && o.rows[i].state == Leased && i in o.sends then SetRow(o, i, Published, o.rows[i].attempts) else o
    case Retry(i) =>
      if i < |o.rows| && o.rows[i].state == Leased then SetRow(o, i, Waiting, o.rows[i].attempts) else o
  }

  function Run<P>(steps: seq<Step<P>>): Outbox<P> {
    if steps == [] then Outbox([], []) else Next(Run(steps[..|steps| - 1]), steps[|steps| - 1])
  }

  predicate SentEarlier(sends: seq<nat>, i: nat, k: nat) {
    k <= |sends| && i in sends[..k]
  }

  predicate RowOk<P>(o: Outbox<P>, i: nat) {
    i < |o.rows| ==>
      && (o.rows[i].state != Waiting ==> o.rows[i].attempts > 0)
      && (o.rows[i].state == Published ==> i in o.sends)
      && (o.rows[i].attempts > 0 ==> forall j | 0 <= j < i :: o.rows[j].state == Published)
  }

  /** Whatever was sent, every lower row had been sent before it. */
  predicate SendOk<P>(o: Outbox<P>, k: nat) {
    k < |o.sends| ==>
      && o.sends[k] < |o.rows|
      && o.rows[o.sends[k]].attempts > 0
      && forall i | 0 <= i < o.sends[k] :: SentEarlier(o.sends, i, k)
  }

  predicate Inv<P>(o: Outbox<P>) {
    && (forall i | 0 <= i < |o.rows| :: RowOk(o, i))
    && (forall k | 0 <= k < |o.sends| :: SendOk(o, k))
  }

  lemma SendInv<P>(o: Outbox<P>, i: nat)
    requires Inv(o) && i < |o.rows| && o.rows[i].attempts > 0
    ensures Inv(o.(sends := o.sends + [i]))
  {
    var o' := o.(sends := o.sends + [i]);
    assert RowOk(o, i);
    forall k: nat | k < |o'.sends| ensures SendOk(o', k) {
      forall j | 0 <= j < o'.sends[k] ensures SentEarlier(o'.sends, j, k) {
        assert o'.sends[..k] == o.sends[..k];
        if k < |o.sends| {
          assert SendOk(o, k) && SentEarlier(o.sends, j, k);
        } else {
          assert RowOk(o, j) && o.sends[..k] == o.sends;
        }
      }
      if k < |o.sends| { assert SendOk(o, k); }
    }
    forall j: nat | j < |o'.rows| ensures RowOk(o', j) { assert RowOk(o, j); }
  }

  lemma RowInv<P>(o: Outbox<P>, i: nat, s: State, attempts: nat)
    requires Inv(o) && i < |o.rows| && attempts >= o.rows[i].attempts
    requires attempts > 0 ==> forall j | 0 <= j < i :: o.rows[j].state == Published
    requires (s != Waiting ==> attempts > 0) && (s == Published ==> i in o.sends) && o.rows[i].state != Published
    ensures Inv(SetRow(o, i, s, attempts))
  {
    var o' := SetRow(o, i, s, attempts);
    forall j: nat | j < |o'.rows| ensures RowOk(o', j) { assert RowOk(o, j); }
    forall k: nat | k < |o'.sends| ensures SendOk(o', k) { assert SendOk(o, k); }
  }

  lemma NextInv<P>(o: Outbox<P>, l: Step<P>)
    requires Inv(o)
    ensures Inv(Next(o, l))
  {
    if !l.Append? && l.row < |o.rows| { assert RowOk(o, l.row); }
    match l
    case Append(p) =>
      var o' := Next(o, l);
      forall j: nat | j < |o'.rows| ensures RowOk(o', j) { if j < |o.rows| { assert RowOk(o, j); } }
      forall k: nat | k < |o'.sends| ensures SendOk(o', k) { assert SendOk(o, k); }
    case Claim(i) => if Claimable(o, i) { RowInv(o, i, Leased, o.rows[i].attempts + 1); }
    case Send(i) => if i < |o.rows| && o.rows[i].attempts > 0 { SendInv(o, i); }
    case Complete(i) => if Next(o, l) != o { RowInv(o, i, Published, o.rows[i].attempts); }
    case Retry(i) => if Next(o, l) != o { RowInv(o, i, Waiting, o.rows[i].attempts); }
  }

  lemma {:induction false} RunInv<P>(steps: seq<Step<P>>)
    ensures Inv(Run(steps))
  {
    if steps != [] {
      RunInv(steps[..|steps| - 1]);
      NextInv(Run(steps[..|steps| - 1]), steps[|steps| - 1]);
    }
  }

  /** In every run, a row that was ever leased had all lower rows published. */
  lemma LeasedInOrder<P>(steps: seq<Step<P>>, i: nat, j: nat)
    requires i < j < |Run(steps).rows| && Run(steps).rows[j].attempts > 0
    ensures Run(steps).rows[i].state == Published
  {
    RunInv(steps);
    assert RowOk(Run(steps), j);
  }

  /** In every run, before any send of a row each lower row had been sent. */
  lemma FirstSendsInOrder<P>(steps: seq<Step<P>>, k: nat, i: nat)
    requires k < |Run(steps).sends| && i < Run(steps).sends[k]
    ensures i in Run(steps).sends[..k]
  {
    RunInv(steps);
    assert SendOk(Run(steps), k);
    assert SentEarlier(Run(steps).sends, i, k);
  }

  /** Publication never gets stuck: while a row is unpublished, exactly one row may be leased, the lowest such one. */
  lemma OneRowInTurn<P>(o: Outbox<P>, i: nat)
    requires i < |o.rows| && o.rows[i].state != Published && forall j | 0 <= j < i :: o.rows[j].state == Published
    ensures forall k: nat :: Claimable(o, k) <==> k == i
    ensures Next(o, Claim(i)).rows[i] == Row(o.rows[i].payload, Leased, o.rows[i].attempts + 1)
  {
    forall k: nat ensures Claimable(o, k) <==> k == i {
      if k < |o.rows| && k > i { assert o.rows[i].state != Published; }
    }
  }
}
