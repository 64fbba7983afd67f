/**
 The operation and reconciliation workers.  They call the store and the agents step by step
 while any other protocol steps may happen in between; every effect they have is a step of
 the protocol whose guard they meet, so all its guarantees cover them.
 */
module Workers {
  import opened Common
  import opened Provisioning
  import opened ProvisioningStore
  import opened Protocol
  import opened ProtocolInvariant
  import opened Fleet

  /** One protocol step, with the node table it saw. */
  datatype Move = Move(nodes: map<NodeId, Node>, action: Label)

  function Replay(moves: seq<Move>): World {
    if moves == [] then START
    else Step(Replay(moves[..|moves| - 1]), moves[|moves| - 1].nodes, moves[|moves| - 1].action).w
  }

  lemma {:induction false} ReplayInv(moves: seq<Move>)
    ensures Inv(Replay(moves))
  {
    if moves == [] {
      RunInv([], 0);
    } else {
      ReplayInv(moves[..|moves| - 1]);
      StepKeepsInv(Replay(moves[..|moves| - 1]), moves[|moves| - 1].nodes, moves[|moves| - 1].action);
    }
  }

  /** A revoke success of the newest revision proves every allocation revoked. */
  lemma NewestProof(moves: seq<Move>, i: nat)
    requires var t := Replay(moves).t;
             i < |t.outbox| && t.outbox[i].outcome.RevokeSucceeded? && t.outbox[i].outcome.rev == t.lastRev
    ensures AllRevoked(Replay(moves).t)
  {
    var t := Replay(moves).t;
    ReplayInv(moves);
    assert forall id | id in t.ops :: OpOk(t, t.ops[id]);
    assert Quiet(t, t.outbox[i].outcome.rev);
  }

  /** What a revoke completion leaves: a closed operation, and a proof if it wrote anything. */
  lemma RevokeCompleted(t: Tables, c: Claim, rows: seq<Listed>)
    requires CompleteRevoke(t, c, rows).Ok?
    ensures var t' := CompleteRevoke(t, c, rows).value;
            && c.id in t'.ops && (t'.ops[c.id].state == Succeeded || t'.ops[c.id].state == Failed)
            && (t'.outbox != t.outbox ==>
                  && |t'.outbox| == |t.outbox| + 1
                  && t'.outbox[|t.outbox|].outcome.RevokeSucceeded?
                  && t'.outbox[|t.outbox|].outcome.op == c.id
                  && t'.outbox[|t.outbox|].outcome.rev == t'.lastRev)
  {
  }

  /** What a worker learned earlier stays known. */
  predicate Remembers(w: World, w': World) {
    w.claims <= w'.claims && w.listings <= w'.listings && w.requests <= w'.requests && w.acks <= w'.acks
  }

  lemma StepRemembers(w: World, nodes: map<NodeId, Node>, l: Label)
    ensures Remembers(w, Step(w, nodes, l).w)
  {
  }

  function Resume(w: World, moves: seq<Move>): World {
    if moves == [] then w
    else Step(Resume(w, moves[..|moves| - 1]), moves[|moves| - 1].nodes, moves[|moves| - 1].action).w
  }

  lemma {:induction false} ResumeRemembers(w: World, moves: seq<Move>)
    ensures Remembers(w, Resume(w, moves))
  {
    if moves != [] {
      ResumeRemembers(w, moves[..|moves| - 1]);
      StepRemembers(Resume(w, moves[..|moves| - 1]), moves[|moves| - 1].nodes, moves[|moves| - 1].action);
    }
  }

  lemma ReplayNext(moves: seq<Move>, m: Move)
    ensures Replay(moves + [m]) == Step(Replay(moves), m.nodes, m.action).w
  {
    assert (moves + [m])[..|moves|] == moves;
  }

  lemma {:induction false} ReplaySplit(first: seq<Move>, rest: seq<Move>)
    ensures Replay(first + rest) == Resume(Replay(first), rest)
  {
    if rest == [] {
      assert first + rest == first;
    } else {
      var init, m := rest[..|rest| - 1], rest[|rest| - 1];
      ReplaySplit(first, init);
      assert first + rest == (first + init) + [m];
      ReplayNext(first + init, m);
    }
  }

  function Labels(l: Option<Label>): seq<Label> {
    if l.Some? then [l.value] else []
  }

  // ---- the shared system ----------------------------------------------------------------------------

  class Cluster {
    var w: World
    ghost var trace: seq<Move>
    ghost var calls: seq<Request>   // requests this worker sent to agents, newest last
    ghost var deeds: seq<Label>     // protocol steps of this worker alone, newest last

    /** The state is one that a run of the protocol reaches. */
    ghost predicate Valid()
      reads this
    {
      w == Replay(trace)
    }

    constructor ()
      ensures Valid() && w == START && calls == [] && deeds == []
    {
      w, trace, calls, deeds := START, [], [], [];
    }

    /** Other workers, consumers, agents and restarts do anything the protocol allows. */
    method Interfere()
      requires Valid()
      modifies this`w, this`trace
      ensures Valid() && Remembers(old(w), w) && old(trace) <= trace
    {
      var others: seq<Move> := *;
      ReplaySplit(trace, others);
      ResumeRemembers(w, others);
      w := Resume(w, others);
      trace := trace + others;
    }

    /** Notes that the state change just described is this protocol step. */
    lemma Took(nodes: map<NodeId, Node>, l: Label)
      requires Valid()
      ensures Replay(trace + [Move(nodes, l)]) == Step(w, nodes, l).w
      ensures Remembers(w, Step(w, nodes, l).w)
    {
      ReplayNext(trace, Move(nodes, l));
      StepRemembers(w, nodes, l);
    }

    method ListAllocations(c: Claim) returns (rows: seq<Listed>)
      requires Valid() && c in w.claims
      modifies this`w, this`trace, this`deeds
      ensures Valid() && Remembers(old(w), w) && trace == old(trace) + [Move(map[], ListRows(c))]
      ensures deeds == old(deeds) + [ListRows(c)] && rows == List(old(w).t)
      ensures Listing(c, rows) in w.listings
      ensures c.kind == Revoke && RowsBound(rows, c, Absent) ==>
                forall i | 0 <= i < |rows| && rows[i].alloc.state != Revoked :: Request(c.id, rows[i].alloc.node, c.rev, Absent) in w.requests
    {
      rows := List(w.t);
      Took(map[], ListRows(c));
      trace, deeds := trace + [Move(map[], ListRows(c))], deeds + [ListRows(c)];
      w := w.(listings := w.listings + {Listing(c, rows)},
              requests := if c.kind == Revoke && RowsBound(rows, c, Absent)
                          then w.requests + RequestsFor(c, rows, Absent) else w.requests);
    }

    /** The allocation transaction, against whatever the node table holds at that moment. */
    method EnsureAllocations(c: Claim, p: Placement, nodes: map<NodeId, Node>, locked: set<NodeId>, now: Time)
      returns (r: Result<seq<Listed>>, picked: seq<NodeId>)
      requires Valid() && c in w.claims && c.kind == Provision
      modifies this`w, this`trace, this`deeds
      ensures Valid() && Remembers(old(w), w) && old(trace) <= trace
      ensures deeds == old(deeds) + [Ensure(c, p, now, picked)]
      ensures ValidPick(nodes, p.region, now, picked)
      ensures r.Ok? <==> Provisioning.EnsureAllocations(old(w).t, nodes, c, p, now, picked).Ok?
      ensures r.Ok? ==> r.value == List(w.t)
      ensures r.Ok? ==>
                forall i | 0 <= i < |r.value| :: Request(c.id, r.value[i].alloc.node, c.rev, Present) in w.requests
    {
      var e;
      e, picked := EnsureRows(w.t, nodes, locked, c, p, now);
      Took(nodes, Ensure(c, p, now, picked));
      trace, deeds := trace + [Move(nodes, Ensure(c, p, now, picked))], deeds + [Ensure(c, p, now, picked)];
      if e.Err? {
        return Err(e.error), picked;
      }
      w := w.(t := e.value.tables, requests := w.requests + RequestsFor(c, e.value.rows, Present));
      return Ok(e.value.rows), picked;
    }

    /** A call to the agent; the reply may be lost. */
    method Apply(q: Request) returns (confirmed: bool, effect: Effect)
      requires Valid() && q in w.requests
      modifies this
      ensures deeds == old(deeds) + [AgentApply(q, effect)]
      ensures Valid() && Remembers(old(w), w) && old(trace) <= trace
      ensures confirmed ==> q in w.acks
      ensures calls == old(calls) + [q]
    {
      effect := *;
      var lost: bool := *;
      Took(map[], AgentApply(q, effect));
      trace, deeds := trace + [Move(map[], AgentApply(q, effect))], deeds + [AgentApply(q, effect)];
      w := DoAgentApply(w, q, effect);
      calls := calls + [q];
      confirmed := !lost && q in w.acks;
    }

    /** Records the confirmation in the matching row; without one it is refused. */
    method MarkApplied(q: Request) returns (mark: Option<Label>)
      requires Valid() && q in w.acks && q.want == Present
      modifies this`w, this`trace, this`deeds
      ensures Valid() && Remembers(old(w), w) && old(trace) <= trace && deeds == old(deeds) + Labels(mark)
      ensures mark.None? <==> forall r | r in old(w).t.allocs :: !CanMarkApplied(old(w).t, r, q.op, q.node)
      ensures mark.None? ==> w == old(w)
      ensures mark.Some? ==> mark.value.MarkApplied? && mark.value.q == q
    {
      if r :| r in w.t.allocs && CanMarkApplied(w.t, r, q.op, q.node) {
        mark := Some(Protocol.MarkApplied(q, r));
        Took(map[], mark.value);
        trace, deeds := trace + [Move(map[], mark.value)], deeds + [mark.value];
        w := w.(t := SetAllocState(w.t, r, Active));
        return;
      }
      mark := None;
    }

    method MarkRevoked(q: Request) returns (mark: Option<Label>)
      requires Valid() && q in w.acks && q.want == Absent
      modifies this`w, this`trace, this`deeds
      ensures Valid() && Remembers(old(w), w) && old(trace) <= trace && deeds == old(deeds) + Labels(mark)
      ensures mark.None? <==> forall r | r in old(w).t.allocs :: !CanMarkRevoked(old(w).t, r, q.op, q.node)
      ensures mark.None? ==> w == old(w)
      ensures mark.Some? ==> mark.value.MarkRevoked? && mark.value.q == q
    {
      if r :| r in w.t.allocs && CanMarkRevoked(w.t, r, q.op, q.node) {
        mark := Some(Protocol.MarkRevoked(q, r));
        Took(map[], mark.value);
        trace, deeds := trace + [Move(map[], mark.value)], deeds + [mark.value];
        if w.t.allocs[r].state != Revoked {
          w := w.(t := SetAllocState(w.t, r, Revoked));
        }
        return;
      }
      mark := None;
    }

    method MarkFailed(c: Claim, n: NodeId) returns (mark: Option<Label>)
      requires Valid() && c in w.claims
      modifies this`w, this`trace, this`deeds
      ensures Valid() && Remembers(old(w), w) && old(trace) <= trace && deeds == old(deeds) + Labels(mark)
      ensures mark.None? <==> forall r | r in old(w).t.allocs :: !CanMarkFailed(old(w).t, r, c.id, n)
      ensures mark.None? ==> w == old(w)
      ensures mark.Some? ==> mark.value.MarkFailed? && mark.value.claim == c && mark.value.node == n
    {
      if r :| r in w.t.allocs && CanMarkFailed(w.t, r, c.id, n) {
        mark := Some(Protocol.MarkFailed(c, n, r));
        Took(map[], mark.value);
        trace, deeds := trace + [Move(map[], mark.value)], deeds + [mark.value];
        w := w.(t := SetAllocState(w.t, r, Broken));
        return;
      }
      mark := None;
    }

    /** Gives up once the attempts are used, otherwise schedules another attempt. */
    method RetryOrFail(c: Claim)
      requires Valid() && c in w.claims
      modifies this`w, this`trace, this`deeds
      ensures Valid() && old(trace) <= trace
      ensures deeds == old(deeds) + [if c.attempts >= c.maxAttempts then GiveUp(c) else RetryOp(c)]
    {
      if c.attempts >= c.maxAttempts {
        var o := if c.kind == Provision then ProvisionFailed(c.id, c.rev) else RevokeFailed(c.id, c.rev);
        var r := CompleteOperation(w.t, c, o);
        Took(map[], GiveUp(c));
        trace, deeds := trace + [Move(map[], GiveUp(c))], deeds + [GiveUp(c)];
        if r.Ok? { w := w.(t := r.value); }
      } else {
        Retry(c);
      }
    }

    method Retry(c: Claim)
      requires Valid() && c in w.claims
      modifies this`w, this`trace, this`deeds
      ensures Valid() && old(trace) <= trace && deeds == old(deeds) + [RetryOp(c)]
    {
      Took(map[], RetryOp(c));
      trace, deeds := trace + [Move(map[], RetryOp(c))], deeds + [RetryOp(c)];
      if c.id in w.t.ops && w.t.ops[c.id].state == Processing {
        w := w.(t := SetOpState(w.t, c.id, Provisioning.Retry));
      }
    }

    method CompleteProvision(c: Claim, status: ReadyStatus, rows: seq<Listed>) returns (ok: bool)
      requires Valid() && Listing(c, rows) in w.listings && c.kind == Provision
      requires status == DegradedReady ==> c.attempts >= c.maxAttempts
      modifies this`w, this`trace, this`deeds
      ensures Valid() && old(trace) <= trace && deeds == old(deeds) + [FinishProvision(Listing(c, rows), status)]
      ensures ok ==> c.id in w.t.ops && (w.t.ops[c.id].state == Succeeded || w.t.ops[c.id].state == Failed)
    {
      var r := CompleteProvisionRows(w.t, c, status, rows);
      Took(map[], FinishProvision(Listing(c, rows), status));
      trace := trace + [Move(map[], FinishProvision(Listing(c, rows), status))];
      deeds := deeds + [FinishProvision(Listing(c, rows), status)];
      if r.Ok? { w := w.(t := r.value); }
      ok := r.Ok?;
    }

    /** A success it writes is a proof: every allocation is revoked. */
    method CompleteRevoke(c: Claim, rows: seq<Listed>) returns (ok: bool)
      requires Valid() && Listing(c, rows) in w.listings && c.kind == Revoke
      modifies this`w, this`trace, this`deeds
      ensures Valid() && old(trace) <= trace && deeds == old(deeds) + [FinishRevoke(Listing(c, rows))]
      ensures w.t.outbox != old(w).t.outbox ==>
                && w.t.outbox != [] && w.t.outbox[|w.t.outbox| - 1].outcome.RevokeSucceeded?
                && w.t.outbox[|w.t.outbox| - 1].outcome.op == c.id
                && AllRevoked(w.t)
      ensures ok ==> c.id in w.t.ops && (w.t.ops[c.id].state == Succeeded || w.t.ops[c.id].state == Failed)
    {
      var r := CompleteRevokeRows(w.t, c, rows);
      Took(map[], FinishRevoke(Listing(c, rows)));
      trace, deeds := trace + [Move(map[], FinishRevoke(Listing(c, rows)))], deeds + [FinishRevoke(Listing(c, rows))];
      ok := r.Ok?;
      if ok {
        RevokeCompleted(w.t, c, rows);
        w := w.(t := r.value);
        if w.t.outbox != old(w).t.outbox { NewestProof(trace, |w.t.outbox| - 1); }
      }
    }

    /** A leased reconciliation candidate: a copy of the row and the request it may lead to. */
    method ClaimCandidate(r: Role, nodes: map<NodeId, Node>) returns (a: Option<Alloc>)
      requires Valid()
      modifies this`w, this`trace, this`deeds
      ensures Valid() && Remembers(old(w), w) && old(trace) <= trace && deeds == old(deeds) + [Reconcile(r)]
      ensures a.Some? <==> Reconcilable(old(w).t, r, nodes)
      ensures a.Some? ==> a.value == old(w).t.allocs[r]
      ensures a.Some? ==> Request(a.value.op, a.value.node, a.value.rev, a.value.want) in w.requests
    {
      Took(nodes, Reconcile(r));
      trace, deeds := trace + [Move(nodes, Reconcile(r))], deeds + [Reconcile(r)];
      if !Reconcilable(w.t, r, nodes) {
        return None;
      }
      a := Some(w.t.allocs[r]);
      w := w.(requests := w.requests + {Request(a.value.op, a.value.node, a.value.rev, a.value.want)});
    }

    /** Reads the agent's state; a match with the request counts as its confirmation. */
    method CredentialState(q: Request) returns (actual: Option<Request>)
      requires Valid() && q in w.requests
      modifies this`w, this`trace, this`deeds
      ensures Valid() && Remembers(old(w), w) && old(trace) <= trace && deeds == old(deeds) + [Observe(q)]
      ensures actual == if q.node in old(w).agents then Some(old(w).agents[q.node]) else None
      ensures actual.Some? && actual.value.rev == q.rev && actual.value.want == q.want ==> q in w.acks
    {
      Took(map[], Observe(q));
      trace, deeds := trace + [Move(map[], Observe(q))], deeds + [Observe(q)];
      actual := if q.node in w.agents then Some(w.agents[q.node]) else None;
      w := DoObserve(w, q);
    }
  }

  // ---- the workers ----------------------------------------------------------------------------------

  predicate RoleActive(rows: seq<Listed>, r: Role) {
    exists i :: 0 <= i < |rows| && rows[i].role == r && rows[i].alloc.state == Active
  }

  predicate AllRevokedRows(rows: seq<Listed>) {
    forall i | 0 <= i < |rows| :: rows[i].alloc.state == Revoked
  }

  /** A row that needs no call: already in the wanted state. */
  predicate Settled(row: Listed, want: Presence) {
    row.alloc.state == if want == Present then Active else Revoked
  }

  function CallFor(c: Claim, row: Listed, want: Presence): Request {
    Request(c.id, row.alloc.node, c.rev, want)
  }

  predicate IsCallFor(q: Request, c: Claim, rows: seq<Listed>, want: Presence) {
    exists i :: 0 <= i < |rows| && !Settled(rows[i], want) && q == CallFor(c, rows[i], want)
  }

  /** Every call goes to the node of a row that is not settled yet. */
  predicate OnlyNeeded(calls: seq<Request>, c: Claim, rows: seq<Listed>, want: Presence) {
    forall k | 0 <= k < |calls| :: IsCallFor(calls[k], c, rows, want)
  }

  /** No row that is not settled was skipped among the first n. */
  predicate NoneSkipped(calls: seq<Request>, c: Claim, rows: seq<Listed>, want: Presence, n: nat) {
    forall i | 0 <= i < |rows| && i < n && !Settled(rows[i], want) :: CallFor(c, rows[i], want) in calls
  }

  lemma CallNext(calls: seq<Request>, c: Claim, rows: seq<Listed>, want: Presence, n: nat)
    requires n < |rows| && OnlyNeeded(calls, c, rows, want) && NoneSkipped(calls, c, rows, want, n)
    ensures Settled(rows[n], want) ==> NoneSkipped(calls, c, rows, want, n + 1)
    ensures !Settled(rows[n], want) ==>
              && OnlyNeeded(calls + [CallFor(c, rows[n], want)], c, rows, want)
              && NoneSkipped(calls + [CallFor(c, rows[n], want)], c, rows, want, n + 1)
  {
    if !Settled(rows[n], want) {
      var more := calls + [CallFor(c, rows[n], want)];
      forall k | 0 <= k < |more| ensures IsCallFor(more[k], c, rows, want) {
        if k < |calls| { assert IsCallFor(calls[k], c, rows, want); }
      }
    }
  }

  /** One call to an agent: its effect there, whether the worker saw it confirmed, and the mark it set. */
  datatype Call = Call(q: Request, effect: Effect, confirmed: bool, mark: Option<Label>)

  /** A confirmed call marks the row applied or revoked, any other marks it failed. */
  predicate CallOk(c: Claim, k: Call) {
    k.mark.Some? ==>
      if !k.confirmed then k.mark.value.MarkFailed? && k.mark.value.claim == c && k.mark.value.node == k.q.node
      else if k.q.want == Present then k.mark.value.MarkApplied? && k.mark.value.q == k.q
      else k.mark.value.MarkRevoked? && k.mark.value.q == k.q
  }

  /** A row that the mark of this call could be written to. */
  predicate Markable(t: Tables, r: Role, c: Claim, k: Call) {
    if !k.confirmed then CanMarkFailed(t, r, c.id, k.q.node)
    else if k.q.want == Present then CanMarkApplied(t, r, k.q.op, k.q.node)
    else CanMarkRevoked(t, r, k.q.op, k.q.node)
  }

  /** The store refused the mark: the row is no longer bound to the operation. */
  predicate MarkRefused(k: Call) {
    k.confirmed && k.mark.None?
  }

  function DeedsOf(log: seq<Call>): seq<Label> {
    if log == [] then []
    else DeedsOf(log[..|log| - 1]) + [AgentApply(log[|log| - 1].q, log[|log| - 1].effect)] + Labels(log[|log| - 1].mark)
  }

  function RequestsOf(log: seq<Call>): seq<Request> {
    seq(|log|, i requires 0 <= i < |log| => log[i].q)
  }

  /** The calls of one pass: in row order, one for each row not settled, until a mark is refused. */
  predicate Pass(log: seq<Call>, finished: bool, c: Claim, rows: seq<Listed>, want: Presence) {
    && OnlyNeeded(RequestsOf(log), c, rows, want)
    && (forall k | 0 <= k < |log| :: CallOk(c, log[k]))
    && (forall k | 0 <= k < |log| - 1 :: !MarkRefused(log[k]))
    && (finished ==> NoneSkipped(RequestsOf(log), c, rows, want, |rows|))
    && (finished <==> log == [] || !MarkRefused(log[|log| - 1]))
  }

  lemma LogNext(log: seq<Call>, k: Call)
    ensures DeedsOf(log + [k]) == DeedsOf(log) + [AgentApply(k.q, k.effect)] + Labels(k.mark)
    ensures RequestsOf(log + [k]) == RequestsOf(log) + [k.q]
  {
    assert (log + [k])[..|log|] == log;
  }

  /** The calls so far, with the first n rows done and no mark refused. */
  predicate Progress(log: seq<Call>, c: Claim, rows: seq<Listed>, want: Presence, n: nat) {
    && OnlyNeeded(RequestsOf(log), c, rows, want) && NoneSkipped(RequestsOf(log), c, rows, want, n)
    && forall k | 0 <= k < |log| :: CallOk(c, log[k]) && !MarkRefused(log[k])
  }

  lemma ProgressNext(log: seq<Call>, c: Claim, rows: seq<Listed>, want: Presence, n: nat, k: Call)
    requires n < |rows| && Progress(log, c, rows, want, n) && !Settled(rows[n], want) && k.q == CallFor(c, rows[n], want) && CallOk(c, k)
    ensures MarkRefused(k) ==> Pass(log + [k], false, c, rows, want)
    ensures !MarkRefused(k) ==> Progress(log + [k], c, rows, want, n + 1)
  {
    LogNext(log, k);
    CallNext(RequestsOf(log), c, rows, want, n);
  }

  lemma ProgressSkip(log: seq<Call>, c: Claim, rows: seq<Listed>, want: Presence, n: nat)
    requires n < |rows| && Progress(log, c, rows, want, n) && Settled(rows[n], want)
    ensures Progress(log, c, rows, want, n + 1)
  {
    CallNext(RequestsOf(log), c, rows, want, n);
  }

  /** Requests and steps of the worker are those before and those of the log. */
  predicate Accounted(calls0: seq<Request>, deeds0: seq<Label>, calls: seq<Request>, deeds: seq<Label>, log: seq<Call>) {
    calls == calls0 + RequestsOf(log) && deeds == deeds0 + DeedsOf(log)
  }

  lemma AccountedNext(calls0: seq<Request>, deeds0: seq<Label>, calls: seq<Request>, deeds: seq<Label>, log: seq<Call>, k: Call)
    requires Accounted(calls0, deeds0, calls, deeds, log)
    ensures Accounted(calls0, deeds0, calls + [k.q], deeds + [AgentApply(k.q, k.effect)] + Labels(k.mark), log + [k])
  {
    LogNext(log, k);
  }

  /** The worker may send what the rows still need. */
  predicate MaySend(requests: set<Request>, c: Claim, rows: seq<Listed>, want: Presence) {
    forall k | 0 <= k < |rows| && !Settled(rows[k], want) :: CallFor(c, rows[k], want) in requests
  }

  /** Calls the agent of every row that is not settled and records each reply; stops when a mark is refused. */
  method CallAgents(net: Cluster, c: Claim, rows: seq<Listed>, want: Presence) returns (finished: bool, ghost log: seq<Call>)
    requires net.Valid() && c in net.w.claims && MaySend(net.w.requests, c, rows, want)
    modifies net
    ensures net.Valid() && c in net.w.claims && old(net.trace) <= net.trace
    ensures Accounted(old(net.calls), old(net.deeds), net.calls, net.deeds, log)
    ensures Pass(log, finished, c, rows, want)
  {
    log := [];
    for i := 0 to |rows|
      invariant net.Valid() && c in net.w.claims && old(net.trace) <= net.trace
      invariant MaySend(net.w.requests, c, rows, want) && Progress(log, c, rows, want, i)
      invariant Accounted(old(net.calls), old(net.deeds), net.calls, net.deeds, log)
    {
      if Settled(rows[i], want) {
        ProgressSkip(log, c, rows, want, i);
        continue;
      }
      ghost var call, calls, deeds := *, net.calls, net.deeds;
      var marked;
      marked, call := CallAgent(net, c, CallFor(c, rows[i], want));
      AccountedNext(old(net.calls), old(net.deeds), calls, deeds, log, call);
      ProgressNext(log, c, rows, want, i, call);
      log := log + [call];
      if !marked { return false, log; }
    }
    finished := true;
  }

  /** One call and its record: a failed call marks the row failed, a confirmed one applied or revoked. */
  method CallAgent(net: Cluster, c: Claim, q: Request) returns (marked: bool, ghost call: Call)
    requires net.Valid() && c in net.w.claims && q in net.w.requests
    modifies net
    ensures net.Valid() && Remembers(old(net.w), net.w) && old(net.trace) <= net.trace
    ensures net.calls == old(net.calls) + [q]
    ensures net.deeds == old(net.deeds) + [AgentApply(q, call.effect)] + Labels(call.mark)
    ensures call.q == q && CallOk(c, call) && (marked <==> !MarkRefused(call))
    ensures call.mark.None? ==> forall r | r in net.w.t.allocs :: !Markable(net.w.t, r, c, call)
  {
    net.Interfere();
    var confirmed, effect := net.Apply(q);
    net.Interfere();
    var mark;
    if !confirmed {
      mark := net.MarkFailed(c, q.node);
    } else if q.want == Present {
      mark := net.MarkApplied(q);
    } else {
      mark := net.MarkRevoked(q);
    }
    marked := !confirmed || mark.Some?;
    call := Call(q, effect, confirmed, mark);
  }

  /** What one attempt did: its calls, the rows it read at the end and when, and its closing steps. */
  datatype Account = Account(log: seq<Call>, current: seq<Listed>, at: nat, ending: seq<Label>)

  /** The rows are what the table held when this step of the trace listed them. */
  ghost predicate ReadAt(trace: seq<Move>, from: nat, c: Claim, x: Account) {
    from <= x.at < |trace| && trace[x.at].action == ListRows(c) && x.current == List(Replay(trace[..x.at]).t)
  }

  lemma ReadStays(start: seq<Move>, listed: seq<Move>, trace: seq<Move>, from: nat, c: Claim, x: Account)
    requires listed == start + [Move(map[], ListRows(c))] && listed <= trace && from <= |start|
    requires x.at == |start| && x.current == List(Replay(start).t)
    ensures ReadAt(trace, from, c, x)
  {
    assert trace[..|start|] == start && trace[|start|] == listed[|start|];
  }

  /**
   Rows of another generation end the attempt.  Without an active primary it is retried or given
   up; with the primary alone it is retried until the attempts are used and then completed as
   degraded; with both it is completed.
   */
  predicate ClosesProvision(c: Claim, x: Account) {
    var bound := forall i | 0 <= i < |x.current| ::
                   x.current[i].alloc.op == c.id && x.current[i].alloc.rev == c.rev && x.current[i].alloc.want == Present;
    var primary := exists i :: 0 <= i < |x.current| && x.current[i].role == Primary && x.current[i].alloc.state == Active;
    var failover := exists i :: 0 <= i < |x.current| && x.current[i].role == Failover && x.current[i].alloc.state == Active;
    var last := c.attempts >= c.maxAttempts;
    && (x.ending == [ListRows(c)] <==> !bound)
    && (x.ending == [ListRows(c), FinishProvision(Listing(c, x.current), FullyReady)] <==> bound && primary && failover)
    && (x.ending == [ListRows(c), FinishProvision(Listing(c, x.current), DegradedReady)] <==> bound && primary && !failover && last)
    && (x.ending == [ListRows(c), GiveUp(c)] <==> bound && !primary && last)
    && (x.ending == [ListRows(c), RetryOp(c)] <==> bound && !(primary && failover) && !last)
  }

  /**
   Rows of another generation end the attempt; it is completed exactly when every row is revoked,
   given up exactly when one is not and the attempts are used, and retried otherwise.
   */
  predicate ClosesRevoke(c: Claim, x: Account) {
    var bound := forall i | 0 <= i < |x.current| ::
                   x.current[i].alloc.op == c.id && x.current[i].alloc.rev == c.rev && x.current[i].alloc.want == Absent;
    var gone := forall i | 0 <= i < |x.current| :: x.current[i].alloc.state == Revoked;
    var last := c.attempts >= c.maxAttempts;
    && (x.ending == [ListRows(c)] <==> !bound)
    && (x.ending == [ListRows(c), FinishRevoke(Listing(c, x.current))] <==> bound && gone)
    && (x.ending == [ListRows(c), GiveUp(c)] <==> bound && !gone && last)
    && (x.ending == [ListRows(c), RetryOp(c)] <==> bound && !gone && !last)
  }

  /** One row is of another operation, revision or goal. */
  predicate Foreign(rows: seq<Listed>, c: Claim, want: Presence) {
    exists i :: 0 <= i < |rows| && (rows[i].alloc.op != c.id || rows[i].alloc.rev != c.rev || rows[i].alloc.want != want)
  }

  /** Foreign rows end the attempt; otherwise the agents are called and, unless a mark is refused, the rows read again. */
  ghost predicate Attempted(c: Claim, rows: seq<Listed>, trace: seq<Move>, from: nat, x: Account) {
    if Foreign(rows, c, Want(c.kind)) then x.log == [] && x.ending == []
    else
      && Pass(x.log, x.ending != [], c, rows, Want(c.kind))
      && (x.ending != [] ==> ReadAt(trace, from, c, x) && (if c.kind == Provision then ClosesProvision(c, x) else ClosesRevoke(c, x)))
  }

  /**
   One attempt at a provisioning operation the worker holds.  Its own steps are the allocation,
   the calls for the rows and the closing; without client material or a placement, or when the
   allocation fails, it is retried or given up.
   */
  method ProvisionOnce(net: Cluster, c: Claim, material: bool, placement: Option<Placement>, nodes: map<NodeId, Node>, locked: set<NodeId>, now: Time)
    returns (closed: bool, rows: Option<seq<Listed>>, picked: seq<NodeId>, ghost x: Account)
    requires net.Valid() && c in net.w.claims && c.kind == Provision
    modifies net
    ensures net.Valid() && old(net.trace) <= net.trace && net.calls == old(net.calls) + RequestsOf(x.log)
    ensures net.deeds == old(net.deeds) + (if material && placement.Some? then [Ensure(c, placement.value, now, picked)] else [])
                         + DeedsOf(x.log) + x.ending
    ensures !material || placement.None? ==> rows.None?
    ensures rows.None? ==> x.log == [] && x.ending == [if c.attempts >= c.maxAttempts then GiveUp(c) else RetryOp(c)]
    ensures rows.Some? ==> Attempted(c, rows.value, net.trace, |old(net.trace)|, x)
    ensures closed ==> c.id in net.w.t.ops && (net.w.t.ops[c.id].state == Succeeded || net.w.t.ops[c.id].state == Failed)
  {
    net.Interfere();
    if !material || placement.None? {
      net.RetryOrFail(c);
      x := Account([], [], 0, [if c.attempts >= c.maxAttempts then GiveUp(c) else RetryOp(c)]);
      return false, None, [], x;
    }
    var placed;
    placed, picked := net.EnsureAllocations(c, placement.value, nodes, locked, now);
    if placed.Err? {
      net.Interfere();
      net.RetryOrFail(c);
      x := Account([], [], 0, [if c.attempts >= c.maxAttempts then GiveUp(c) else RetryOp(c)]);
      return false, None, picked, x;
    }
    rows := Some(placed.value);
    closed, x := AttemptRows(net, c, placed.value, |old(net.trace)|);
  }

  /** Calls the agents of the rows and closes the attempt. */
  method AttemptRows(net: Cluster, c: Claim, rows: seq<Listed>, ghost from: nat) returns (closed: bool, ghost x: Account)
    requires net.Valid() && c in net.w.claims && from <= |net.trace|
    requires RowsBound(rows, c, Want(c.kind)) ==> MaySend(net.w.requests, c, rows, Want(c.kind))
    modifies net
    ensures net.Valid() && old(net.trace) <= net.trace && net.calls == old(net.calls) + RequestsOf(x.log)
    ensures net.deeds == old(net.deeds) + DeedsOf(x.log) + x.ending
    ensures Attempted(c, rows, net.trace, from, x)
    ensures closed ==> c.id in net.w.t.ops && (net.w.t.ops[c.id].state == Succeeded || net.w.t.ops[c.id].state == Failed)
  {
    closed, x := false, Account([], [], 0, []);
    if !RowsBound(rows, c, Want(c.kind)) {
      return;
    }
    ghost var log;
    var finished;
    finished, log := CallAgents(net, c, rows, Want(c.kind));
    x := x.(log := log);
    if finished {
      if c.kind == Provision {
        closed, x := CloseProvision(net, c, log);
      } else {
        closed, x := CloseRevoke(net, c, log);
      }
    }
  }

  /** What the code does with the rows it read. */
  function ProvisionSteps(c: Claim, current: seq<Listed>): seq<Label> {
    if !RowsBound(current, c, Present) then [ListRows(c)]
    else if !RoleActive(current, Primary) then [ListRows(c), if c.attempts >= c.maxAttempts then GiveUp(c) else RetryOp(c)]
    else if !RoleActive(current, Failover) then
      [ListRows(c), if c.attempts >= c.maxAttempts then FinishProvision(Listing(c, current), DegradedReady) else RetryOp(c)]
    else [ListRows(c), FinishProvision(Listing(c, current), FullyReady)]
  }

  lemma ProvisionStepsClose(c: Claim, x: Account)
    requires x.ending == ProvisionSteps(c, x.current)
    ensures ClosesProvision(c, x)
  {
    assert [ListRows(c)] != [ListRows(c), GiveUp(c)];
  }

  /** What bound rows call for. */
  method DecideProvision(net: Cluster, c: Claim, current: seq<Listed>) returns (closed: bool)
    requires net.Valid() && c in net.w.claims && c.kind == Provision && Listing(c, current) in net.w.listings && RowsBound(current, c, Present)
    modifies net`w, net`trace, net`deeds
    ensures net.Valid() && old(net.trace) <= net.trace && net.deeds == old(net.deeds) + ProvisionSteps(c, current)[1..]
    ensures closed ==> c.id in net.w.t.ops && (net.w.t.ops[c.id].state == Succeeded || net.w.t.ops[c.id].state == Failed)
  {
    closed := false;
    net.Interfere();
    if !RoleActive(current, Primary) {
      net.RetryOrFail(c);
    } else if !RoleActive(current, Failover) {
      if c.attempts >= c.maxAttempts {
        closed := net.CompleteProvision(c, DegradedReady, current);
      } else {
        net.Retry(c);
      }
    } else {
      closed := net.CompleteProvision(c, FullyReady, current);
    }
  }

  /** Reads the rows again and completes, retries or gives up. */
  method CloseProvision(net: Cluster, c: Claim, ghost log: seq<Call>) returns (closed: bool, ghost x: Account)
    requires net.Valid() && c in net.w.claims && c.kind == Provision
    modifies net`w, net`trace, net`deeds
    ensures net.Valid() && old(net.trace) <= net.trace
    ensures x.log == log && net.deeds == old(net.deeds) + x.ending
    ensures ReadAt(net.trace, |old(net.trace)|, c, x) && ClosesProvision(c, x)
    ensures closed ==> c.id in net.w.t.ops && (net.w.t.ops[c.id].state == Succeeded || net.w.t.ops[c.id].state == Failed)
  {
    closed := false;
    net.Interfere();
    ghost var start := net.trace;
    var current := net.ListAllocations(c);
    x := Account(log, current, |start|, ProvisionSteps(c, current));
    ghost var listed := net.trace;
    ProvisionStepsClose(c, x);
    if RowsBound(current, c, Present) {
      closed := DecideProvision(net, c, current);
    }
    ReadStays(start, listed, net.trace, |old(net.trace)|, c, x);
  }

  /** One attempt at a revoke operation the worker holds: its own steps are the listing, the calls and the closing. */
  method RevokeOnce(net: Cluster, c: Claim) returns (closed: bool, rows: seq<Listed>, ghost x: Account)
    requires net.Valid() && c in net.w.claims && c.kind == Revoke
    modifies net
    ensures net.Valid() && old(net.trace) <= net.trace && net.calls == old(net.calls) + RequestsOf(x.log)
    ensures net.deeds == old(net.deeds) + [ListRows(c)] + DeedsOf(x.log) + x.ending
    ensures Attempted(c, rows, net.trace, |old(net.trace)|, x)
    ensures closed ==> c.id in net.w.t.ops && (net.w.t.ops[c.id].state == Succeeded || net.w.t.ops[c.id].state == Failed)
  {
    net.Interfere();
    rows := net.ListAllocations(c);
    closed, x := AttemptRows(net, c, rows, |old(net.trace)|);
  }

  function RevokeSteps(c: Claim, current: seq<Listed>): seq<Label> {
    if !RowsBound(current, c, Absent) then [ListRows(c)]
    else if !AllRevokedRows(current) then [ListRows(c), if c.attempts >= c.maxAttempts then GiveUp(c) else RetryOp(c)]
    else [ListRows(c), FinishRevoke(Listing(c, current))]
  }

  lemma RevokeStepsClose(c: Claim, x: Account)
    requires x.ending == RevokeSteps(c, x.current)
    ensures ClosesRevoke(c, x)
  {
    assert [ListRows(c)] != [ListRows(c), GiveUp(c)];
  }

  /** What bound rows call for. */
  method DecideRevoke(net: Cluster, c: Claim, current: seq<Listed>) returns (closed: bool)
    requires net.Valid() && c in net.w.claims && c.kind == Revoke && Listing(c, current) in net.w.listings && RowsBound(current, c, Absent)
    modifies net`w, net`trace, net`deeds
    ensures net.Valid() && old(net.trace) <= net.trace && net.deeds == old(net.deeds) + RevokeSteps(c, current)[1..]
    ensures closed ==> c.id in net.w.t.ops && (net.w.t.ops[c.id].state == Succeeded || net.w.t.ops[c.id].state == Failed)
  {
    closed := false;
    net.Interfere();
    if !AllRevokedRows(current) {
      net.RetryOrFail(c);
    } else {
      closed := net.CompleteRevoke(c, current);
    }
  }

  /** Reads the rows again and completes when all are revoked. */
  method CloseRevoke(net: Cluster, c: Claim, ghost log: seq<Call>) returns (closed: bool, ghost x: Account)
    requires net.Valid() && c in net.w.claims && c.kind == Revoke
    modifies net`w, net`trace, net`deeds
    ensures net.Valid() && old(net.trace) <= net.trace
    ensures x.log == log && net.deeds == old(net.deeds) + x.ending
    ensures ReadAt(net.trace, |old(net.trace)|, c, x) && ClosesRevoke(c, x)
    ensures closed ==> c.id in net.w.t.ops && (net.w.t.ops[c.id].state == Succeeded || net.w.t.ops[c.id].state == Failed)
  {
    closed := false;
    net.Interfere();
    ghost var start := net.trace;
    var current := net.ListAllocations(c);
    x := Account(log, current, |start|, RevokeSteps(c, current));
    ghost var listed := net.trace;
    RevokeStepsClose(c, x);
    if RowsBound(current, c, Absent) {
      closed := DecideRevoke(net, c, current);
    }
    ReadStays(start, listed, net.trace, |old(net.trace)|, c, x);
  }

  /** What reconciling one row did: what the agent reported, and the call and mark that followed. */
  datatype Repair = Repair(seen: Option<Request>, asked: bool, effect: Effect, converged: bool, mark: Option<Label>)

  /** The agent is asked exactly when it can be read, is not ahead, and does not match yet. */
  predicate Asks(a: Alloc, reachable: bool, material: bool, seen: Option<Request>) {
    && reachable && (a.want == Absent || material)
    && (seen.Some? ==> seen.value.rev < a.rev || (seen.value.rev == a.rev && seen.value.want != a.want))
  }

  /** The row does not say yet what the agent stores. */
  predicate NeedsMark(a: Alloc) {
    a.state != if a.want == Present then Active else Revoked
  }

  function AskFor(a: Alloc): Request {
    Request(a.op, a.node, a.rev, a.want)
  }

  /** Records in the row that the agent converged; a mark fails only for want of a matching row. */
  method MarkConverged(net: Cluster, a: Alloc) returns (mark: Option<Label>)
    requires net.Valid() && AskFor(a) in net.w.acks
    modifies net`w, net`trace, net`deeds
    ensures net.Valid() && old(net.trace) <= net.trace && net.deeds == old(net.deeds) + Labels(mark)
    ensures a.want == Present && a.state != Active ==>
              if mark.Some? then mark.value.MarkApplied? && mark.value.q == AskFor(a)
              else forall k | k in net.w.t.allocs :: !CanMarkApplied(net.w.t, k, a.op, a.node)
    ensures a.want == Absent && a.state != Revoked ==>
              if mark.Some? then mark.value.MarkRevoked? && mark.value.q == AskFor(a)
              else forall k | k in net.w.t.allocs :: !CanMarkRevoked(net.w.t, k, a.op, a.node)
    ensures a.state == (if a.want == Present then Active else Revoked) ==> mark.None?
  {
    mark := None;
    if a.want == Present && a.state != Active {
      mark := net.MarkApplied(AskFor(a));
    } else if a.want == Absent && a.state != Revoked {
      mark := net.MarkRevoked(AskFor(a));
    }
  }

  /** Reads the agent and asks it for the desired state unless it matches or is ahead. */
  method Converge(net: Cluster, a: Alloc, material: bool) returns (ghost x: Repair, converged: bool)
    requires net.Valid() && AskFor(a) in net.w.requests
    modifies net
    ensures net.Valid() && old(net.trace) <= net.trace && x.mark.None? && x.converged == converged
    ensures net.deeds == old(net.deeds) + [Observe(AskFor(a))] + (if x.asked then [AgentApply(AskFor(a), x.effect)] else [])
    ensures net.calls == old(net.calls) + (if x.asked then [AskFor(a)] else [])
    ensures x.asked <==> Asks(a, true, material, x.seen)
    ensures x.seen.Some? && x.seen.value.rev == a.rev && x.seen.value.want == a.want ==> converged
    ensures converged ==> AskFor(a) in net.w.acks
    ensures converged && !x.asked ==> x.seen.Some? && x.seen.value.rev == a.rev && x.seen.value.want == a.want
  {
    var actual := net.CredentialState(AskFor(a));
    converged := actual.Some? && actual.value.rev == a.rev && actual.value.want == a.want;
    x := Repair(actual, false, Refused, converged, None);
    if converged || (actual.Some? && actual.value.rev > a.rev) || (a.want == Present && !material) {
      return;
    }
    net.Interfere();
    var effect;
    converged, effect := net.Apply(AskFor(a));
    x := Repair(actual, true, effect, converged, None);
  }

  /**
   Reconciles one allocation row with what its agent stores.  The row is marked exactly when the
   agent matches or confirmed and the row does not say so yet; a mark fails only for want of a row.
   */
  method ReconcileOne(net: Cluster, r: Role, nodes: map<NodeId, Node>, reachable: bool, material: bool)
    returns (row: Option<Alloc>, ghost x: Repair)
    requires net.Valid()
    modifies net
    ensures net.Valid() && old(net.trace) <= net.trace
    ensures row == if Reconcilable(old(net.w).t, r, nodes) then Some(old(net.w).t.allocs[r]) else None
    ensures row.None? ==> net.deeds == old(net.deeds) + [Reconcile(r)] && net.calls == old(net.calls)
    ensures row.Some? ==>
              var a := row.value;
              && net.deeds == old(net.deeds) + [Reconcile(r)] + (if reachable then [Observe(AskFor(a))] else [])
                              + (if x.asked then [AgentApply(AskFor(a), x.effect)] else []) + Labels(x.mark)
              && net.calls == old(net.calls) + (if x.asked then [AskFor(a)] else [])
              && (x.asked <==> Asks(a, reachable, material, x.seen))
              && (x.converged && !x.asked <==> reachable && x.seen.Some? && x.seen.value.rev == a.rev && x.seen.value.want == a.want)
              && (x.mark.Some? ==> x.converged && NeedsMark(a) && MarksFor(x.mark.value, a))
              && (x.converged && NeedsMark(a) && x.mark.None? ==> forall k | k in net.w.t.allocs :: !MarkFits(net.w.t, k, a))
  {
    x := Repair(None, false, Refused, false, None);
    row := net.ClaimCandidate(r, nodes);
    if row.None? {
      return;
    }
    var a := row.value;
    net.Interfere();
    if !reachable {
      return;
    }
    var converged;
    x, converged := Converge(net, a, material);
    if converged {
      net.Interfere();
      var mark := MarkConverged(net, a);
      x := x.(mark := mark);
    }
  }

  predicate MarksFor(l: Label, a: Alloc) {
    if a.want == Present then l.MarkApplied? && l.q == AskFor(a) else l.MarkRevoked? && l.q == AskFor(a)
  }

  predicate MarkFits(t: Tables, k: Role, a: Alloc) {
    if a.want == Present then CanMarkApplied(t, k, a.op, a.node) else CanMarkRevoked(t, k, a.op, a.node)
  }
}
