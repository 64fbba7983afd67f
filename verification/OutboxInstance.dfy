/** Publishing provisioning outcomes is publishing an outbox, so the order of sends carries over. */
module OutboxInstance {
  import opened Common
  import P = Provisioning
  import Pr = Protocol
  import PI = ProtocolInvariant
  import O = Outbox

  function StateOf(p: P.Publish): O.State {
    match p
    case Waiting => O.Waiting
    case Leased => O.Leased
    case Published => O.Published
  }

  /** The same events in the same publication states. */
  predicate SameRows(t: P.Tables, o: O.Outbox<P.Outcome>) {
    && |t.outbox| == |o.rows|
    && forall i | 0 <= i < |t.outbox| :: o.rows[i] == O.Row(t.outbox[i].outcome, StateOf(t.outbox[i].publish), t.outbox[i].attempts)
  }

  /** The step of the generic outbox that a publication step is. */
  function StepOf(l: Pr.Label): O.Step<P.Outcome>
    requires Pr.IsPublishStep(l)
  {
    match l
    case PublishClaim(i) => O.Claim(i)
    case PublishDone(i) => O.Complete(i)
    case PublishRetry(i) => O.Retry(i)
  }

  lemma SameTurn(t: P.Tables, o: O.Outbox<P.Outcome>, i: nat)
    requires PI.OutboxOk(t) && SameRows(t, o)
    ensures P.Publishable(t, i) <==> O.Claimable(o, i)
  {
    if i < |t.outbox| {
      assert o.rows[i] == O.Row(t.outbox[i].outcome, StateOf(t.outbox[i].publish), t.outbox[i].attempts);
      forall j | 0 <= j < |t.outbox| ensures t.outbox[j].seqNo < t.outbox[i].seqNo <==> j < i { }
      if O.Claimable(o, i) {
        forall j | 0 <= j < |t.outbox| && t.outbox[j].seqNo < t.outbox[i].seqNo ensures t.outbox[j].publish == P.Published {
          assert o.rows[j].state == O.Published;
        }
      }
      if P.Publishable(t, i) {
        forall j | 0 <= j < i ensures o.rows[j].state == O.Published { assert t.outbox[j].publish == P.Published; }
      }
    }
  }

  /** A row is completed by a worker that sent it; then both step alike. */
  lemma PublishIsOutboxStep(w: Pr.World, o: O.Outbox<P.Outcome>, l: Pr.Label)
    requires PI.OutboxOk(w.t) && SameRows(w.t, o) && Pr.IsPublishStep(l)
    requires l.PublishDone? ==> l.row in o.sends
    ensures SameRows(Pr.DoPublish(w, l).t, O.Next(o, StepOf(l)))
  {
    SameTurn(w.t, o, l.row);
    if l.row < |w.t.outbox| {
      assert o.rows[l.row] == O.Row(w.t.outbox[l.row].outcome, StateOf(w.t.outbox[l.row].publish), w.t.outbox[l.row].attempts);
    }
  }

  /** Writing an outcome appends a row. */
  lemma CompleteIsAppend(t: P.Tables, o: O.Outbox<P.Outcome>, c: P.Claim, e: P.Outcome)
    requires SameRows(t, o) && P.Complete(t, c, e).Ok? && P.Complete(t, c, e).value.outbox != t.outbox
    ensures SameRows(P.Complete(t, c, e).value, O.Next(o, O.Append(e)))
  {
  }
}
