/**
 The ordered-inbox guarantees of the access and provisioning stores themselves, in runs where
 every other transaction and worker step happens in between.
 */
module StoreInboxes {
  import opened Common
  import opened OrderedInbox
  import opened InboxInstances
  import A = Access
  import P = Provisioning
  import Pr = Protocol
  import F = Fleet

  // ---- outcomes of one credential in access -----------------------------------------------------------

  /** One recorded outcome per sequence up to the cursor, all of them valid. */
  ghost predicate OutcomesOk(c: A.Credential) {
    OnePerSequence(c.cursor, c.inbox) && forall id | id in c.inbox :: A.ValidBody(c.inbox[id].payload)
  }

  /** The label delivers an outcome that was not recorded before, and it is applied. */
  predicate AppliesOutcome(c: A.Credential, l: A.Label) {
    l.OnOutcome? && l.event.id !in c.inbox && A.Attempt(c, l).Ok?
  }

  /** Only an applied outcome touches cursor and inbox; any other delivery changes nothing. */
  lemma OutcomeStep(c: A.Credential, l: A.Label)
    ensures AppliesOutcome(c, l) ==>
              && A.ValidBody(l.event.payload)
              && A.Step(c, l).cursor == l.event.seqNo == c.cursor + 1
              && A.Step(c, l).inbox == c.inbox[l.event.id := l.event]
    ensures !AppliesOutcome(c, l) ==> A.Step(c, l).cursor == c.cursor && A.Step(c, l).inbox == c.inbox
    ensures !AppliesOutcome(c, l) && l.OnOutcome? ==> A.Step(c, l) == c
  {
    if l.OnOutcome? { BodyFrame(c, l.event.payload, l.now, l.revokeOp, l.event.seqNo, c.inbox[l.event.id := l.event]); }
  }

  lemma StepOutcomesOk(c: A.Credential, l: A.Label)
    requires OutcomesOk(c)
    ensures OutcomesOk(A.Step(c, l))
  {
    OutcomeStep(c, l);
    if AppliesOutcome(c, l) { RecordNext(c.cursor, c.inbox, l.event); }
  }

  lemma {:induction false} RunOutcomesOk(op: OpId, until: Time, labels: seq<A.Label>)
    ensures OutcomesOk(A.Run(op, until, labels))
  {
    if labels != [] {
      RunOutcomesOk(op, until, labels[..|labels| - 1]);
      StepOutcomesOk(A.Run(op, until, labels[..|labels| - 1]), labels[|labels| - 1]);
    }
  }

  /** The outcomes a run applied, in the order it applied them. */
  function AppliedOutcomes(op: OpId, until: Time, labels: seq<A.Label>): seq<A.OutcomeEvent> {
    if labels == [] then []
    else
      var init, l := labels[..|labels| - 1], labels[|labels| - 1];
      AppliedOutcomes(op, until, init) + (if AppliesOutcome(A.Run(op, until, init), l) then [l.event] else [])
  }

  /**
   In every run of a credential, whatever transactions come in between, the outcomes applied are
   exactly sequence 1, ..., cursor, once each and in order, and they are what the inbox holds.
   */
  lemma {:induction false} OutcomesAppliedInOrder(op: OpId, until: Time, labels: seq<A.Label>)
    ensures var c := A.Run(op, until, labels);
            Ledger(c.cursor, c.inbox, AppliedOutcomes(op, until, labels)) && OnePerSequence(c.cursor, c.inbox)
  {
    RunOutcomesOk(op, until, labels);
    if labels != [] {
      var init, l := labels[..|labels| - 1], labels[|labels| - 1];
      var c := A.Run(op, until, init);
      OutcomesAppliedInOrder(op, until, init);
      OutcomeStep(c, l);
      if AppliesOutcome(c, l) { LedgerNext(c.cursor, c.inbox, AppliedOutcomes(op, until, init), l.event); }
    }
  }

  /** In every run, redelivering a recorded outcome succeeds and changes nothing. */
  lemma OutcomeRedelivered(op: OpId, until: Time, labels: seq<A.Label>, id: EventId, now: Time, spare: OpId)
    requires id in A.Run(op, until, labels).inbox
    ensures var c := A.Run(op, until, labels);
            A.Attempt(c, A.OnOutcome(c.inbox[id], now, spare)) == Ok(c)
  {
    var c := A.Run(op, until, labels);
    RunOutcomesOk(op, until, labels);
    assert Placed(c.cursor, c.inbox, id);
  }

  /** The run without the deliveries that were not applied. */
  function WithoutRepeats(op: OpId, until: Time, labels: seq<A.Label>): seq<A.Label> {
    if labels == [] then []
    else
      var init, l := labels[..|labels| - 1], labels[|labels| - 1];
      WithoutRepeats(op, until, init)
      + (if l.OnOutcome? && !AppliesOutcome(A.Run(op, until, init), l) then [] else [l])
  }

  /** Duplicates, early, rejected and stale deliveries leave no trace: the state is that of the rest. */
  lemma {:induction false} SameWithoutRepeats(op: OpId, until: Time, labels: seq<A.Label>)
    ensures A.Run(op, until, WithoutRepeats(op, until, labels)) == A.Run(op, until, labels)
  {
    if labels != [] {
      var init, l := labels[..|labels| - 1], labels[|labels| - 1];
      var rest := WithoutRepeats(op, until, init);
      SameWithoutRepeats(op, until, init);
      OutcomeStep(A.Run(op, until, init), l);
      assert (rest + [l])[..|rest|] == rest;
      assert rest + [] == rest;
    }
  }

  // ---- commands of one credential in provisioning -----------------------------------------------------

  function Commands(t: P.Tables): map<EventId, Event<P.Command>> {
    map id | id in t.inbox :: CommandEvent(id, t.inbox[id])
  }

  /** One recorded command per sequence up to the cursor. */
  ghost predicate CommandsOk(t: P.Tables) {
    OnePerSequence(t.lastSeq, Commands(t))
  }

  predicate AppliesCommand(t: P.Tables, l: Pr.Label) {
    l.Record? && l.event !in t.inbox && P.ProcessCommand(t, l.event, l.command, l.maxAttempts).Ok?
  }

  /** Only an applied command touches cursor and inbox; any other delivery changes nothing. */
  lemma CommandStep(w: Pr.World, nodes: map<NodeId, P.Node>, l: Pr.Label)
    ensures var t' := Pr.Step(w, nodes, l).w.t;
            && (AppliesCommand(w.t, l) ==>
                  && t'.lastSeq == l.command.seqNo == w.t.lastSeq + 1
                  && t'.inbox == w.t.inbox[l.event := l.command])
            && (!AppliesCommand(w.t, l) ==> t'.lastSeq == w.t.lastSeq && t'.inbox == w.t.inbox)
            && (!AppliesCommand(w.t, l) && l.Record? ==> Pr.Step(w, nodes, l).w == w)
  {
    if Pr.IsMessageStep(l) { Pr.MessageStepKeepsTables(w, nodes, l); }
    else if Pr.IsFinishStep(l) { FinishKeepsInbox(w, nodes, l); }
    else { StoreKeepsInbox(w, nodes, l); }
  }

  lemma FinishKeepsInbox(w: Pr.World, nodes: map<NodeId, P.Node>, l: Pr.Label)
    requires Pr.IsFinishStep(l)
    ensures Pr.Step(w, nodes, l).w.t.lastSeq == w.t.lastSeq && Pr.Step(w, nodes, l).w.t.inbox == w.t.inbox
  {
  }

  lemma StoreKeepsInbox(w: Pr.World, nodes: map<NodeId, P.Node>, l: Pr.Label)
    requires !Pr.IsMessageStep(l) && !Pr.IsFinishStep(l)
    ensures var t' := Pr.Step(w, nodes, l).w.t;
            && (AppliesCommand(w.t, l) ==>
                  && t'.lastSeq == l.command.seqNo == w.t.lastSeq + 1
                  && t'.inbox == w.t.inbox[l.event := l.command])
            && (!AppliesCommand(w.t, l) ==> t'.lastSeq == w.t.lastSeq && t'.inbox == w.t.inbox)
            && (!AppliesCommand(w.t, l) && l.Record? ==> Pr.Step(w, nodes, l).w == w)
  {
  }

  lemma StepCommandsOk(w: Pr.World, nodes: map<NodeId, P.Node>, l: Pr.Label)
    requires CommandsOk(w.t)
    ensures CommandsOk(Pr.Step(w, nodes, l).w.t)
  {
    CommandStep(w, nodes, l);
    if AppliesCommand(w.t, l) {
      RecordNext(w.t.lastSeq, Commands(w.t), CommandEvent(l.event, l.command));
      assert Commands(Pr.Step(w, nodes, l).w.t) == Commands(w.t)[l.event := CommandEvent(l.event, l.command)];
    }
  }

  /** The commands a run recorded for a credential, in the order it recorded them. */
  function AppliedCommands(labels: seq<F.FleetLabel>, c: CredId): seq<Event<P.Command>> {
    if labels == [] then []
    else
      var init, l := labels[..|labels| - 1], labels[|labels| - 1];
      AppliedCommands(init, c)
      + (if l.OnCredential? && l.cred == c && AppliesCommand(F.WorldOf(F.Run(init), c).t, l.step)
         then [CommandEvent(l.step.event, l.step.command)] else [])
  }

  /** A credential's world changes only by its own steps. */
  lemma LastWorld(labels: seq<F.FleetLabel>, c: CredId)
    requires labels != []
    ensures var init, l := labels[..|labels| - 1], labels[|labels| - 1];
            F.WorldOf(F.Run(labels), c) ==
            if l.OnCredential? && l.cred == c then Pr.Step(F.WorldOf(F.Run(init), c), F.Run(init).nodes, l.step).w
            else F.WorldOf(F.Run(init), c)
  {
  }

  lemma LedgerStep(w: Pr.World, nodes: map<NodeId, P.Node>, l: Pr.Label, log: seq<Event<P.Command>>)
    requires Ledger(w.t.lastSeq, Commands(w.t), log)
    ensures var t' := Pr.Step(w, nodes, l).w.t;
            Ledger(t'.lastSeq, Commands(t'), log + (if AppliesCommand(w.t, l) then [CommandEvent(l.event, l.command)] else []))
  {
    CommandStep(w, nodes, l);
    if AppliesCommand(w.t, l) {
      var e := CommandEvent(l.event, l.command);
      LedgerNext(w.t.lastSeq, Commands(w.t), log, e);
      assert Commands(Pr.Step(w, nodes, l).w.t) == Commands(w.t)[e.id := e];
    }
  }

  /**
   In every run of all credentials, the commands recorded for one are exactly sequence
   1, ..., cursor, once each and in order, and they are what the inbox holds.
   */
  lemma {:induction false} CommandsAppliedInOrder(labels: seq<F.FleetLabel>, c: CredId)
    ensures var t := F.WorldOf(F.Run(labels), c).t;
            Ledger(t.lastSeq, Commands(t), AppliedCommands(labels, c)) && CommandsOk(t)
  {
    if labels != [] {
      var init, l := labels[..|labels| - 1], labels[|labels| - 1];
      CommandsAppliedInOrder(init, c);
      LastWorld(labels, c);
      if l.OnCredential? && l.cred == c {
        var w := F.WorldOf(F.Run(init), c);
        StepCommandsOk(w, F.Run(init).nodes, l.step);
        LedgerStep(w, F.Run(init).nodes, l.step, AppliedCommands(init, c));
      }
    }
  }

  /** In every run, redelivering a recorded command succeeds and changes nothing. */
  lemma CommandRedelivered(labels: seq<F.FleetLabel>, c: CredId, id: EventId, maxAttempts: nat)
    requires id in F.WorldOf(F.Run(labels), c).t.inbox
    ensures var t := F.WorldOf(F.Run(labels), c).t;
            P.ProcessCommand(t, id, t.inbox[id], maxAttempts) == Ok(t)
  {
    var t := F.WorldOf(F.Run(labels), c).t;
    RecordedRevision(labels, c, id);
  }

  /** A recorded command was accepted, so its sequence equals its revision. */
  lemma {:induction false} RecordedRevision(labels: seq<F.FleetLabel>, c: CredId, id: EventId)
    requires id in F.WorldOf(F.Run(labels), c).t.inbox
    ensures var k := F.WorldOf(F.Run(labels), c).t.inbox[id]; k.rev >= 1 && k.seqNo == k.rev
  {
    var init, l := labels[..|labels| - 1], labels[|labels| - 1];
    var w := F.WorldOf(F.Run(init), c);
    if l.OnCredential? && l.cred == c { CommandStep(w, F.Run(init).nodes, l.step); }
    if id in w.t.inbox { RecordedRevision(init, c, id); }
  }
}
