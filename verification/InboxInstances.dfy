/** The two concrete inboxes are ordered inboxes, so the generic guarantees are theirs. */
module InboxInstances {
  import opened Common
  import opened OrderedInbox
  import A = Access
  import P = Provisioning

  // ---- access outcomes ------------------------------------------------------------------------------

  type AccessContext = (Time, OpId)

  function Bare(c: A.Credential): A.Credential {
    c.(cursor := 0, inbox := map[])
  }

  const OUTCOME_HANDLER: Handler<A.Credential, A.Body, AccessContext> :=
    (c: A.Credential, b: A.Body, x: AccessContext) => A.ApplyBody(c, b, x.0, x.1)

  function OutcomeInbox(c: A.Credential, log: seq<Arrival<A.Body, AccessContext>>): Inbox<A.Credential, A.Body, AccessContext> {
    Inbox(c.cursor, c.inbox, Bare(c), log)
  }

  function Stamp(r: Result<A.Credential>, cursor: nat, inbox: map<EventId, A.OutcomeEvent>): Result<A.Credential> {
    if r.Ok? then Ok(r.value.(cursor := cursor, inbox := inbox)) else r
  }

  /** What an outcome does depends on neither the cursor nor the inbox rows. */
  lemma BodyFrame(c: A.Credential, b: A.Body, now: Time, spare: OpId, cursor: nat, inbox: map<EventId, A.OutcomeEvent>)
    ensures A.ApplyBody(c.(cursor := cursor, inbox := inbox), b, now, spare) == Stamp(A.ApplyBody(c, b, now, spare), cursor, inbox)
  {
    var d := c.(cursor := cursor, inbox := inbox);
    if b.ProvisionDone? && b.op in c.ops { LateFrame(c, b, cursor, inbox); }
  }

  lemma LateFrame(c: A.Credential, b: A.Body, cursor: nat, inbox: map<EventId, A.OutcomeEvent>)
    requires b.ProvisionDone? && b.op in c.ops
    ensures A.LateProvision(c.(cursor := cursor, inbox := inbox), b) == Stamp(A.LateProvision(c, b), cursor, inbox)
  {
    var d := c.(cursor := cursor, inbox := inbox);
    forall id: OpId ensures A.PendingRevoke(c, id) <==> A.PendingRevoke(d, id) { }
    if id :| id in c.ops && A.PendingRevoke(c, id) { assert A.PendingRevoke(d, id); }
    if id :| id in d.ops && A.PendingRevoke(d, id) { assert A.PendingRevoke(c, id); }
  }

  /** Applying an outcome that passed the contract checks is a delivery to the ordered inbox. */
  lemma OutcomeIsDelivery(c: A.Credential, e: A.OutcomeEvent, now: Time, spare: OpId, log: seq<Arrival<A.Body, AccessContext>>)
    requires A.ValidBody(e.payload)
    ensures var r := A.ApplyOutcome(c, e, now, spare);
            var g := Deliver(OutcomeInbox(c, log), Arrival(e, (now, spare)), OUTCOME_HANDLER);
            && r.Ok? == g.Ok?
            && (r.Err? ==> r.error == g.error)
            && (r.Ok? ==> g.value == OutcomeInbox(r.value, g.value.log))
  {
    BodyFrame(Bare(c), e.payload, now, spare, e.seqNo, c.inbox[e.id := e]);
    assert Bare(c).(cursor := e.seqNo, inbox := c.inbox[e.id := e]) == c.(cursor := e.seqNo, inbox := c.inbox[e.id := e]);
    BodyFrame(Bare(c), e.payload, now, spare, 0, map[]);
  }

  // ---- provisioning commands ------------------------------------------------------------------------

  /** What a command does once it is known to be next in line. */
  function RecordBody(t: P.Tables, c: P.Command, maxAttempts: nat): Result<P.Tables> {
    if c.rev <= t.lastRev || c.op in t.ops then Err(Conflict)
    else Ok(t.(ops := (map id | id in t.ops :: P.Supersede(t.ops[id], c.rev))
                      [c.op := P.Op(c.kind, c.rev, c.seqNo, P.Pending, 0, maxAttempts, 0)],
               allocs := map r | r in t.allocs :: P.Advance(t.allocs[r], c.op, c.kind, c.rev),
               lastRev := c.rev))
  }

  const COMMAND_HANDLER: Handler<P.Tables, P.Command, nat> :=
    (t: P.Tables, c: P.Command, maxAttempts: nat) => RecordBody(t, c, maxAttempts)

  function CommandEvent(id: EventId, c: P.Command): Event<P.Command> {
    Event(id, c.seqNo, c)
  }

  function CommandInbox(t: P.Tables, log: seq<Arrival<P.Command, nat>>): Inbox<P.Tables, P.Command, nat> {
    Inbox(t.lastSeq, map id | id in t.inbox :: CommandEvent(id, t.inbox[id]), t.(inbox := map[], lastSeq := 0), log)
  }

  /** Recording a command is a delivery to the ordered inbox, with the inbox row checked first. */
  lemma CommandIsDelivery(t: P.Tables, id: EventId, c: P.Command, maxAttempts: nat, log: seq<Arrival<P.Command, nat>>)
    ensures var r := P.RecordCommand(t, id, c, maxAttempts);
            var g := DeliverSeenFirst(CommandInbox(t, log), Arrival(CommandEvent(id, c), maxAttempts), COMMAND_HANDLER);
            && r.Ok? == g.Ok?
            && (r.Err? ==> r.error == g.error)
            && (r.Ok? ==> g.value == CommandInbox(r.value, g.value.log))
  {
    var r := P.RecordCommand(t, id, c, maxAttempts);
    if r.Ok? && id !in t.inbox {
      assert CommandInbox(r.value, log).seen == CommandInbox(t, log).seen[id := CommandEvent(id, c)];
    }
  }
}
