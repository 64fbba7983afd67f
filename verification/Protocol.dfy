/**
 The provisioning protocol for one credential: its database rows, what every node agent
 stores and runs, and the messages and row copies that workers hold.

 Requests, replies, claims and listings are kept in sets that only grow, so every later step
 may use any of them again: messages are delayed, duplicated or lost, leases expire, and two
 workers may hold one operation.  A label whose guard fails changes nothing.
 */
module Protocol {
  import opened Common
  import opened Provisioning

  /** A desired-state request to one agent; a reply is named by the request it confirms. */
  datatype Request = Request(op: OpId, node: NodeId, rev: nat, want: Presence)

  datatype Listing = Listing(claim: Claim, rows: seq<Listed>)

  datatype World = World(
    t: Tables,
    agents: map<NodeId, Request>,   // last request stored in each agent's snapshot
    running: map<NodeId, Request>,  // request reflected in each node's running configuration
    journal: set<Request>,          // journalled requests
    requests: set<Request>,         // requests that some worker may have sent
    acks: set<Request>,             // requests that some worker saw confirmed
    claims: set<Claim>,
    listings: set<Listing>)

  const START := World(NO_ROWS, map[], map[], {}, {}, {}, {}, {})

  /** What an accepted request does on the node. */
  datatype Effect =
    | Refused                    // the configuration was not changed
    | RunOnly                    // running, but neither stored nor confirmed
    | Down                       // reload and rollback both failed
    | Persisted(confirmed: bool) // stored; confirmed once the journal is written too

  datatype Label =
    | Record(event: EventId, command: Command, maxAttempts: nat)
    | ClaimOp(id: OpId)
    | Ensure(claim: Claim, placement: Placement, now: Time, picked: seq<NodeId>)
    | ListRows(claim: Claim)
    | AgentApply(q: Request, effect: Effect)
    | AgentReload(node: NodeId, up: bool)
    | JournalEvict(q: Request)
    | Observe(q: Request)
    | MarkApplied(q: Request, role: Role)
    | MarkRevoked(q: Request, role: Role)
    | MarkFailed(claim: Claim, node: NodeId, role: Role)
    | RetryOp(claim: Claim)
    | FinishProvision(listing: Listing, status: ReadyStatus)
    | FinishRevoke(listing: Listing)
    | GiveUp(claim: Claim)
    | Reconcile(role: Role)
    | PublishClaim(row: nat)
    | PublishDone(row: nat)
    | PublishRetry(row: nat)

  datatype After = After(w: World, nodes: map<NodeId, Node>)

  function OrKeep(w: World, r: Result<Tables>): World {
    if r.Ok? then w.(t := r.value) else w
  }

  /** Requests a worker sends for the rows it read; revoked rows are skipped when revoking. */
  function RequestsFor(c: Claim, rows: seq<Listed>, want: Presence): set<Request> {
    set i | 0 <= i < |rows| && !(want == Absent && rows[i].alloc.state == Revoked)
      :: Request(c.id, rows[i].alloc.node, c.rev, want)
  }

  function DoClaim(w: World, id: OpId): World {
    if Claimable(w.t, id)
    then w.(t := ClaimOperation(w.t, id), claims := w.claims + {ClaimOf(id, w.t.ops[id])})
    else w
  }

  function DoEnsure(w: World, nodes: map<NodeId, Node>, c: Claim, p: Placement, now: Time,
                    picked: seq<NodeId>): After
  {
    if c in w.claims && c.kind == Provision && ValidPick(nodes, p.region, now, picked) then
      var r := EnsureAllocations(w.t, nodes, c, p, now, picked);
      if r.Ok? then
        After(w.(t := r.value.tables,
                 requests := w.requests + RequestsFor(c, r.value.rows, Present)), r.value.nodes)
      else After(w, nodes)
    else After(w, nodes)
  }

  function DoList(w: World, c: Claim): World {
    if c in w.claims then
      var rows := List(w.t);
      w.(listings := w.listings + {Listing(c, rows)},
         requests := if c.kind == Revoke && RowsBound(rows, c, Absent)
                     then w.requests + RequestsFor(c, rows, Absent) else w.requests)
    else w
  }

  /** One request handled by an agent: journal, then staleness, then the configuration. */
  function DoAgentApply(w: World, q: Request, e: Effect): World {
    var n := q.node;
    if q !in w.requests then w
    else if q in w.journal then w.(acks := w.acks + {q})
    else if exists j :: j in w.journal && j.node == n && j.op == q.op then w
    else if n in w.agents && q.rev < w.agents[n].rev then w
    else if n in w.agents && q.rev == w.agents[n].rev then
      if q.want == w.agents[n].want && e == Persisted(true)
      then w.(journal := w.journal + {q}, acks := w.acks + {q}) else w
    else match e
      case Refused => w
      case RunOnly => w.(running := w.running[n := q])
      case Down => w.(running := w.running - {n})
      case Persisted(confirmed) =>
        var w' := w.(agents := w.agents[n := q], running := w.running[n := q]);
        if confirmed then w'.(journal := w'.journal + {q}, acks := w'.acks + {q}) else w'
  }

  /** The node reloads its stored snapshot: a restart, or a change to another credential. */
  function DoReload(w: World, n: NodeId, up: bool): World {
    if up && n in w.agents then w.(running := w.running[n := w.agents[n]])
    else w.(running := w.running - {n})
  }

  /** A credential-state read that shows exactly the requested revision and state. */
  function DoObserve(w: World, q: Request): World {
    if q in w.requests && q.node in w.agents
       && w.agents[q.node].rev == q.rev && w.agents[q.node].want == q.want
    then w.(acks := w.acks + {q}) else w
  }

  function DoMarkApplied(w: World, q: Request, r: Role): World {
    if q in w.acks && q.want == Present && CanMarkApplied(w.t, r, q.op, q.node)
    then w.(t := SetAllocState(w.t, r, Active)) else w
  }

  function DoMarkRevoked(w: World, nodes: map<NodeId, Node>, q: Request, r: Role): After {
    if q in w.acks && q.want == Absent && CanMarkRevoked(w.t, r, q.op, q.node)
       && w.t.allocs[r].state != Revoked
    then After(w.(t := SetAllocState(w.t, r, Revoked)), Release(nodes, q.node))
    else After(w, nodes)
  }

  function DoMarkFailed(w: World, c: Claim, n: NodeId, r: Role): World {
    if c in w.claims && CanMarkFailed(w.t, r, c.id, n)
    then w.(t := SetAllocState(w.t, r, Broken)) else w
  }

  function DoFinishProvision(w: World, l: Listing, status: ReadyStatus): World {
    if l in w.listings && l.claim.kind == Provision
       && (status == DegradedReady ==> l.claim.attempts >= l.claim.maxAttempts)
    then OrKeep(w, CompleteProvision(w.t, l.claim, status, l.rows)) else w
  }

  function DoFinishRevoke(w: World, l: Listing): World {
    if l in w.listings && l.claim.kind == Revoke
    then OrKeep(w, CompleteRevoke(w.t, l.claim, l.rows)) else w
  }

  function DoGiveUp(w: World, c: Claim): World {
    if c in w.claims && c.attempts >= c.maxAttempts
    then OrKeep(w, Complete(w.t, c, if c.kind == Provision then ProvisionFailed(c.id, c.rev)
                                    else RevokeFailed(c.id, c.rev)))
    else w
  }

  function DoReconcile(w: World, nodes: map<NodeId, Node>, r: Role): World {
    if Reconcilable(w.t, r, nodes) then
      var a := w.t.allocs[r];
      w.(requests := w.requests + {Request(a.op, a.node, a.rev, a.want)})
    else w
  }

  function DoPublish(w: World, l: Label): World
    requires l.PublishClaim? || l.PublishDone? || l.PublishRetry?
  {
    var t := w.t;
    if l.PublishClaim? then
      if Publishable(t, l.row)
      then w.(t := SetPublish(t, l.row, Leased, t.outbox[l.row].attempts + 1)) else w
    else if l.row < |t.outbox| && t.outbox[l.row].publish == Leased then
      w.(t := SetPublish(t, l.row, if l.PublishDone? then Published else Waiting, t.outbox[l.row].attempts))
    else w
  }

  function Step(w: World, nodes: map<NodeId, Node>, l: Label): After {
    match l
    case Record(event, command, maxAttempts) =>
      After(OrKeep(w, ProcessCommand(w.t, event, command, maxAttempts)), nodes)
    case ClaimOp(id) => After(DoClaim(w, id), nodes)
    case Ensure(c, p, now, picked) => DoEnsure(w, nodes, c, p, now, picked)
    case ListRows(c) => After(DoList(w, c), nodes)
    case AgentApply(q, e) => After(DoAgentApply(w, q, e), nodes)
    case AgentReload(n, up) => After(DoReload(w, n, up), nodes)
    case JournalEvict(q) => After(w.(journal := w.journal - {q}), nodes)
    case Observe(q) => After(DoObserve(w, q), nodes)
    case MarkApplied(q, r) => After(DoMarkApplied(w, q, r), nodes)
    case MarkRevoked(q, r) => DoMarkRevoked(w, nodes, q, r)
    case MarkFailed(c, n, r) => After(DoMarkFailed(w, c, n, r), nodes)
    case RetryOp(c) => After(if c in w.claims then OrKeep(w, RetryOperation(w.t, c.id)) else w, nodes)
    case FinishProvision(li, status) => After(DoFinishProvision(w, li, status), nodes)
    case FinishRevoke(li) => After(DoFinishRevoke(w, li), nodes)
    case GiveUp(c) => After(DoGiveUp(w, c), nodes)
    case Reconcile(r) => After(DoReconcile(w, nodes, r), nodes)
    case PublishClaim(_) => After(DoPublish(w, l), nodes)
    case PublishDone(_) => After(DoPublish(w, l), nodes)
    case PublishRetry(_) => After(DoPublish(w, l), nodes)
  }

  /** Steps that involve agents and messages only. */
  predicate IsMessageStep(l: Label) {
    l.ListRows? || l.AgentApply? || l.AgentReload? || l.JournalEvict? || l.Observe? || l.Reconcile?
  }

  predicate IsFinishStep(l: Label) {
    l.FinishProvision? || l.FinishRevoke? || l.GiveUp?
  }

  predicate IsPublishStep(l: Label) {
    l.PublishClaim? || l.PublishDone? || l.PublishRetry?
  }

  predicate IsMarkStep(l: Label) {
    l.MarkApplied? || l.MarkRevoked? || l.MarkFailed?
  }

  lemma MessageStepKeepsTables(w: World, nodes: map<NodeId, Node>, l: Label)
    requires IsMessageStep(l)
    ensures Step(w, nodes, l).w.t == w.t && Step(w, nodes, l).nodes == nodes
  {
  }
}
