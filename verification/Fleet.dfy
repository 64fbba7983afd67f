/**
 All credentials together: each has its own protocol world, and they compete for the
 capacity of the same nodes.  A run is any sequence of labels.
 */
module Fleet {
  import opened Common
  import opened Provisioning
  import opened Protocol
  import opened ProtocolInvariant
  import opened ProtocolNet
  import opened ProtocolSafety

  datatype Fleet = Fleet(worlds: map<CredId, World>, nodes: map<NodeId, Node>)

  datatype FleetLabel =
    | OnCredential(cred: CredId, step: Label)
    | Seed(seeds: seq<NodeSeed>)
    | Health(node: NodeId, healthy: bool, now: Time, staleAfter: nat)
    | GoOffline(node: NodeId)

  const EMPTY := Fleet(map[], map[])

  function WorldOf(f: Fleet, c: CredId): World {
    if c in f.worlds then f.worlds[c] else START
  }

  function Observed(nodes: map<NodeId, Node>, n: NodeId, healthy: bool, now: Time): map<NodeId, Node>
    requires n in nodes
  {
    nodes[n := nodes[n].(status := if healthy then Serving else Offline, lastSeen := Some(now))]
  }

  function Expire(x: Node, now: Time, staleAfter: nat): Node {
    if x.status == Serving && x.lastSeen.Some? && x.lastSeen.value < now - staleAfter
    then x.(status := Offline) else x
  }

  function FleetStep(f: Fleet, l: FleetLabel): Fleet {
    match l
    case OnCredential(c, step) =>
      var after := Step(WorldOf(f, c), f.nodes, step);
      Fleet(f.worlds[c := after.w], after.nodes)
    case Seed(seeds) =>
      var r := SeedNodes(f.nodes, seeds);
      if r.Ok? then f.(nodes := r.value) else f
    case Health(n, healthy, now, staleAfter) =>
      if n in f.nodes then
        var seen := Observed(f.nodes, n, healthy, now);
        f.(nodes := map k | k in seen :: Expire(seen[k], now, staleAfter))
      else f
    case GoOffline(n) =>
      if n in f.nodes then f.(nodes := f.nodes[n := f.nodes[n].(status := Offline)]) else f
  }

  function Run(labels: seq<FleetLabel>): Fleet {
    if labels == [] then EMPTY
    else FleetStep(Run(labels[..|labels| - 1]), labels[|labels| - 1])
  }

  // ---- the protocol invariant holds in every run ----------------------------------------

  predicate IsStoreStep(l: Label) {
    l.Record? || l.ClaimOp? || l.Ensure? || l.RetryOp? || l.FinishProvision? || l.FinishRevoke? || l.GiveUp?
  }

  lemma StepKeepsInv(w: World, nodes: map<NodeId, Node>, l: Label)
    requires Inv(w)
    ensures Inv(Step(w, nodes, l).w)
  {
    if IsStoreStep(l) { StoreStepKeepsInv(w, nodes, l); } else { NetStepKeepsInv(w, nodes, l); }
  }

  lemma StoreStepKeepsInv(w: World, nodes: map<NodeId, Node>, l: Label)
    requires Inv(w) && IsStoreStep(l)
    ensures Inv(Step(w, nodes, l).w)
  {
    match l
    case Record(event, command, maxAttempts) => RecordKeepsInv(w, event, command, maxAttempts);
    case ClaimOp(id) => ClaimKeepsInv(w, id);
    case Ensure(c, p, now, picked) => EnsureKeepsInv(w, nodes, c, p, now, picked);
    case RetryOp(c) => RetryKeepsInv(w, c);
    case FinishProvision(li, status) => FinishProvisionKeepsInv(w, li, status);
    case FinishRevoke(li) => FinishRevokeKeepsInv(w, li);
    case GiveUp(c) => GiveUpKeepsInv(w, c);
  }

  lemma NetStepKeepsInv(w: World, nodes: map<NodeId, Node>, l: Label)
    requires Inv(w) && !IsStoreStep(l)
    ensures Inv(Step(w, nodes, l).w)
  {
    if IsMessageStep(l) { MessageStepKeepsInv(w, nodes, l); }
    else if IsPublishStep(l) { PublishKeepsInv(w, l); }
    else { MarkStepKeepsInv(w, nodes, l); }
  }

  lemma MessageStepKeepsInv(w: World, nodes: map<NodeId, Node>, l: Label)
    requires Inv(w) && IsMessageStep(l)
    ensures Inv(Step(w, nodes, l).w)
  {
    match l
    case ListRows(c) => ListKeepsInv(w, c);
    case AgentApply(q, e) => AgentKeepsInv(w, q, e);
    case AgentReload(n, up) => ReloadKeepsInv(w, n, up);
    case JournalEvict(q) => EvictNet(w, q);
    case Observe(q) => ObserveKeepsInv(w, q);
    case Reconcile(r) => ReconcileKeepsInv(w, nodes, r);
  }

  lemma MarkStepKeepsInv(w: World, nodes: map<NodeId, Node>, l: Label)
    requires Inv(w) && IsMarkStep(l)
    ensures Inv(Step(w, nodes, l).w)
  {
    match l
    case MarkApplied(q, r) => MarkAppliedKeepsInv(w, q, r);
    case MarkRevoked(q, r) => MarkRevokedKeepsInv(w, nodes, q, r);
    case MarkFailed(c, n, r) => MarkFailedKeepsInv(w, c, n, r);
  }

  lemma ListKeepsInv(w: World, c: Claim)
    requires Inv(w)
    ensures Inv(DoList(w, c))
  {
    ListNet(w, c);
  }

  lemma AgentKeepsInv(w: World, q: Request, e: Effect)
    requires Inv(w)
    ensures Inv(DoAgentApply(w, q, e))
  {
    AgentNet(w, q, e);
  }

  lemma ReloadKeepsInv(w: World, n: NodeId, up: bool)
    requires Inv(w)
    ensures Inv(DoReload(w, n, up))
  {
    ReloadNet(w, n, up);
  }

  lemma ObserveKeepsInv(w: World, q: Request)
    requires Inv(w)
    ensures Inv(DoObserve(w, q))
  {
    ObserveNet(w, q);
  }

  lemma ReconcileKeepsInv(w: World, nodes: map<NodeId, Node>, r: Role)
    requires Inv(w)
    ensures Inv(DoReconcile(w, nodes, r))
  {
    ReconcileNet(w, nodes, r);
  }

  lemma RetryKeepsInv(w: World, c: Claim)
    requires Inv(w)
    ensures Inv(if c in w.claims then OrKeep(w, RetryOperation(w.t, c.id)) else w)
  {
    if c.id in w.t.ops && w.t.ops[c.id].state == Processing {
      LeaseKeepsInv(w, c.id, w.t.ops[c.id].(state := Retry));
    }
  }

  lemma GiveUpKeepsInv(w: World, c: Claim)
    requires Inv(w)
    ensures Inv(DoGiveUp(w, c))
  {
    if c in w.claims {
      CompleteKeepsInv(w, c, if c.kind == Provision then ProvisionFailed(c.id, c.rev) else RevokeFailed(c.id, c.rev));
    }
  }

  lemma {:induction false} RunInv(labels: seq<FleetLabel>, c: CredId)
    ensures Inv(WorldOf(Run(labels), c))
  {
    if labels != [] {
      var before := Run(labels[..|labels| - 1]);
      RunInv(labels[..|labels| - 1], c);
      match labels[|labels| - 1]
      case OnCredential(k, step) => if k == c { StepKeepsInv(WorldOf(before, c), before.nodes, step); }
      case _ =>
    }
  }

  // ---- main results -----------------------------------------------------------------------

  /**
   Revoke proof.  In any run, once a revoke-succeeded event is in the outbox, no node stores
   or runs the credential, as long as no provisioning command above that revision was recorded.
   */
  lemma RevokedEverywhere(labels: seq<FleetLabel>, c: CredId, i: nat, n: NodeId)
    requires var t := WorldOf(Run(labels), c).t;
             i < |t.outbox| && t.outbox[i].outcome.RevokeSucceeded? && Quiet(t, t.outbox[i].outcome.rev)
    ensures n in WorldOf(Run(labels), c).agents ==> WorldOf(Run(labels), c).agents[n].want == Absent
    ensures n in WorldOf(Run(labels), c).running ==> WorldOf(Run(labels), c).running[n].want == Absent
  {
    RunInv(labels, c);
    AllRevokedAbsent(WorldOf(Run(labels), c), n);
  }

  lemma AllRevokedAbsent(w: World, n: NodeId)
    requires Inv(w) && AllRevoked(w.t)
    ensures n in w.agents ==> w.agents[n].want == Absent
    ensures n in w.running ==> w.running[n].want == Absent
  {
    if n in w.agents { AssignedSealed(w, w.agents[n]); }
    if n in w.running { AssignedSealed(w, w.running[n]); }
  }

  lemma AssignedSealed(w: World, q: Request)
    requires Inv(w) && AllRevoked(w.t) && q in w.requests
    ensures Sealed(w, q.node)
  {
    assert RequestOk(w.t, q);
    var r :| r in w.t.allocs && w.t.allocs[r].node == q.node;
    assert w.t.allocs[r].state == Revoked;
  }

  /**
   Provision proof.  While a success event is of the newest revision, every endpoint it names
   is on a node whose agent stores the credential as present at exactly that revision.
   */
  lemma EndpointsInstalled(labels: seq<FleetLabel>, c: CredId, i: nat, k: nat)
    requires var t := WorldOf(Run(labels), c).t;
             && i < |t.outbox| && t.outbox[i].outcome.ProvisionSucceeded?
             && t.outbox[i].outcome.rev == t.lastRev && k < |t.outbox[i].outcome.endpoints|
    ensures var w := WorldOf(Run(labels), c);
            var n := w.t.outbox[i].outcome.endpoints[k].node;
            n in w.agents && w.agents[n].want == Present && w.agents[n].rev == w.t.outbox[i].outcome.rev
  {
    var w := WorldOf(Run(labels), c);
    RunInv(labels, c);
    BackedPresent(w, i, k);
  }

  lemma BackedPresent(w: World, i: nat, k: nat)
    requires Inv(w) && i < |w.t.outbox| && w.t.outbox[i].outcome.ProvisionSucceeded?
    requires w.t.outbox[i].outcome.rev == w.t.lastRev && k < |w.t.outbox[i].outcome.endpoints|
    ensures var n := w.t.outbox[i].outcome.endpoints[k].node;
            n in w.agents && w.agents[n].want == Present && w.agents[n].rev == w.t.lastRev
  {
    var o := w.t.outbox[i].outcome;
    var n := o.endpoints[k].node;
    assert EventBacked(w, o) && OutcomeOk(w.t, o);
    var q := w.agents[n];
    assert q in w.requests && RequestOk(w.t, q) && OpOk(w.t, w.t.ops[q.op]);
  }

  /** What no step changes: recorded operations, their kinds and revisions, written outcomes. */
  predicate Extends(t: Tables, t': Tables) {
    && t.lastRev <= t'.lastRev
    && (forall id | id in t.ops :: id in t'.ops && t'.ops[id].kind == t.ops[id].kind && t'.ops[id].rev == t.ops[id].rev)
    && |t.outbox| <= |t'.outbox| <= |t.outbox| + 1
    && (forall i | 0 <= i < |t.outbox| :: t'.outbox[i].outcome == t.outbox[i].outcome)
    && (|t'.outbox| > |t.outbox| ==> t'.outbox[|t.outbox|].outcome.rev == t'.lastRev)
  }

  /** History is never rewritten, and an event is of the newest revision when it is written. */
  lemma StepExtends(w: World, nodes: map<NodeId, Node>, l: Label)
    ensures Extends(w.t, Step(w, nodes, l).w.t)
  {
    if IsMessageStep(l) {
      MessageStepKeepsTables(w, nodes, l);
    } else if IsFinishStep(l) {
      FinishExtends(w, nodes, l);
    } else if IsPublishStep(l) {
      PublishExtends(w, l);
    } else {
      StoreExtends(w, nodes, l);
    }
  }

  lemma StoreExtends(w: World, nodes: map<NodeId, Node>, l: Label)
    requires !IsMessageStep(l) && !IsFinishStep(l) && !IsPublishStep(l)
    ensures Extends(w.t, Step(w, nodes, l).w.t)
  {
    if l.Record? && ProcessCommand(w.t, l.event, l.command, l.maxAttempts).Ok? { RecordExtends(w.t, l.event, l.command, l.maxAttempts); }
    else if l.Ensure? { EnsureExtends(w, nodes, l.claim, l.placement, l.now, l.picked); }
  }

  lemma RecordExtends(t: Tables, event: EventId, c: Command, maxAttempts: nat)
    requires ProcessCommand(t, event, c, maxAttempts).Ok?
    ensures Extends(t, ProcessCommand(t, event, c, maxAttempts).value)
  {
  }

  lemma EnsureExtends(w: World, nodes: map<NodeId, Node>, c: Claim, p: Placement, now: Time, picked: seq<NodeId>)
    ensures Extends(w.t, DoEnsure(w, nodes, c, p, now, picked).w.t)
  {
  }

  lemma FinishExtends(w: World, nodes: map<NodeId, Node>, l: Label)
    requires IsFinishStep(l)
    ensures Extends(w.t, Step(w, nodes, l).w.t)
  {
  }

  lemma PublishExtends(w: World, l: Label)
    requires IsPublishStep(l)
    ensures Extends(w.t, DoPublish(w, l).t)
  {
  }

  // ---- generations and outcomes -----------------------------------------------------------

  predicate Issued(t: Tables, rev: nat) {
    exists id :: id in t.ops && t.ops[id].rev == rev
  }

  predicate Contiguous(t: Tables) {
    forall rev: nat | 1 <= rev <= t.lastRev :: Issued(t, rev)
  }

  lemma StepKeepsContiguous(w: World, nodes: map<NodeId, Node>, l: Label)
    requires OpsOk(w.t) && Contiguous(w.t)
    ensures Contiguous(Step(w, nodes, l).w.t)
  {
    var t' := Step(w, nodes, l).w.t;
    StepExtends(w, nodes, l);
    NewRevision(w, nodes, l);
    forall rev: nat | 1 <= rev <= t'.lastRev
      ensures Issued(t', rev)
    {
      if rev <= w.t.lastRev {
        assert Issued(w.t, rev);
        var id :| id in w.t.ops && w.t.ops[id].rev == rev;
        assert id in t'.ops && t'.ops[id].rev == rev;
      } else {
        assert l.command.op in t'.ops && t'.ops[l.command.op].rev == rev;
      }
    }
  }

  /** Only a recorded command advances the revision, by exactly one. */
  lemma NewRevision(w: World, nodes: map<NodeId, Node>, l: Label)
    requires w.t.lastSeq == w.t.lastRev
    ensures var t' := Step(w, nodes, l).w.t;
            t'.lastRev == w.t.lastRev
            || (l.Record? && t'.lastRev == w.t.lastRev + 1 == l.command.rev
                && l.command.op in t'.ops && t'.ops[l.command.op].rev == t'.lastRev
                && t'.ops[l.command.op].kind == l.command.kind)
  {
  }

  /**
   Generations.  In any run a credential has exactly one operation per revision up to the
   cursor, only the newest may be unfinished, and its allocations are none or one pair of
   different nodes bound to the newest operation.
   */
  lemma Generations(labels: seq<FleetLabel>, c: CredId)
    ensures var t := WorldOf(Run(labels), c).t;
            && Contiguous(t)
            && (forall i, j | i in t.ops && j in t.ops && t.ops[i].rev == t.ops[j].rev :: i == j)
            && (forall id | id in t.ops && !Terminal(t.ops[id].state) :: t.ops[id].rev == t.lastRev)
            && AllocsOk(t)
  {
    RunInv(labels, c);
    RunContiguous(labels, c);
    var t := WorldOf(Run(labels), c).t;
    forall id | id in t.ops && !Terminal(t.ops[id].state) ensures t.ops[id].rev == t.lastRev {
      assert OpOk(t, t.ops[id]);
    }
  }

  lemma {:induction false} RunContiguous(labels: seq<FleetLabel>, c: CredId)
    ensures Contiguous(WorldOf(Run(labels), c).t)
  {
    if labels != [] {
      var before := Run(labels[..|labels| - 1]);
      RunContiguous(labels[..|labels| - 1], c);
      RunInv(labels[..|labels| - 1], c);
      match labels[|labels| - 1]
      case OnCredential(k, step) => if k == c { StepKeepsContiguous(WorldOf(before, c), before.nodes, step); }
      case _ =>
    }
  }

  /**
   Outcomes.  In any run the outcome events of a credential are numbered 1, 2, 3, ..., have
   strictly increasing revisions, so at most one per operation and none for a superseded one,
   and an event that was ever leased for publication had all its predecessors published.
   */
  lemma OutcomesInOrder(labels: seq<FleetLabel>, c: CredId, i: nat, j: nat)
    requires i < j < |WorldOf(Run(labels), c).t.outbox|
    ensures var t := WorldOf(Run(labels), c).t;
            && t.outbox[i].seqNo == i + 1 && t.outbox[j].seqNo == j + 1
            && t.outbox[i].outcome.rev < t.outbox[j].outcome.rev
            && t.outbox[i].outcome.op != t.outbox[j].outcome.op
            && OutcomeOk(t, t.outbox[i].outcome)
            && (t.outbox[j].attempts > 0 || t.outbox[j].publish != Waiting ==> t.outbox[i].publish == Published)
  {
    RunInv(labels, c);
    var t := WorldOf(Run(labels), c).t;
    assert OutcomeOk(t, t.outbox[i].outcome) && OutcomeOk(t, t.outbox[j].outcome);
  }
}
