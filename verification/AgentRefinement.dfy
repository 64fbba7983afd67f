/**
 The node agent implements the protocol's agent.  For every credential, one call of the real
 agent is one protocol step on that credential, whichever credential the call was about.
 */
module AgentRefinement {
  import opened Common
  import opened NodeState
  import opened NodeAgent
  import Provisioning
  import opened Protocol
  import opened ProtocolInvariant
  import Fleet

  function RequestOf(d: Desired, n: NodeId): Request {
    Request(d.op, n, d.rev, d.want)
  }

  /** The configuration shows the credential exactly as the request asks. */
  predicate Shows(s: Snapshot, c: CredId, q: Request) {
    c in s.creds && s.creds[c].rev == q.rev && s.creds[c].want == q.want
  }

  predicate SameFor(s: Snapshot, s': Snapshot, c: CredId) {
    (c in s.creds <==> c in s'.creds) && (c in s.creds ==> s.creds[c] == s'.creds[c])
  }

  /** The protocol entry of a node describes the credential in this configuration. */
  predicate Describes(entries: map<NodeId, Request>, n: NodeId, s: Snapshot, c: CredId) {
    (n in entries <==> c in s.creds) && (n in entries ==> Shows(s, c, entries[n]))
  }

  /** A request that some worker sent and the node never stored. */
  predicate NeverStored(w: World, n: NodeId, s: Snapshot, c: CredId, q: Request) {
    q in w.requests && q.node == n && Shows(s, c, q) && !Reached(w, n, q.rev)
  }

  /** An installed configuration is up to date for the credential, or shows an unstored request. */
  ghost predicate Installed(w: World, n: NodeId, stored: Snapshot, installed: Snapshot, c: CredId) {
    SameFor(stored, installed, c) || exists q :: NeverStored(w, n, installed, c, q)
  }

  ghost predicate Refines(v: NodeView, w: World, n: NodeId, c: CredId) {
    && Describes(w.agents, n, v.s, c)
    && Describes(w.running, n, if v.process.Some? then v.process.value else Snapshot(0, map[]), c)
    && (v.current.Some? ==> Installed(w, n, v.s, v.current.value, c))
    && (forall op | op in v.journal && v.journal[op].desired.cred == c :: RequestOf(v.journal[op].desired, n) in w.journal)
  }

  // ---- the step that a call takes -------------------------------------------------------------------

  /** Restarting what is installed: the stored entry again, or an unstored request. */
  lemma RestoreStep(v: NodeView, w: World, n: NodeId, c: CredId) returns (l: Label)
    requires Inv(w) && Refines(v, w, n, c) && v.current.Some?
    ensures Refines(v.(process := v.current), Step(w, map[], l).w, n, c)
  {
    if SameFor(v.s, v.current.value, c) {
      l := AgentReload(n, true);
      ReloadStep(v, w, n, c, true);
      DescribesSame(DoReload(w, n, true).running, n, v.s, v.current.value, c);
    } else {
      var q :| NeverStored(w, n, v.current.value, c, q);
      l := AgentApply(q, RunOnly);
      RunStep(w, q);
    }
    KeepsInstalled(v, w, Step(w, map[], l).w, n, c);
  }

  lemma RunStep(w: World, q: Request)
    requires Inv(w) && q in w.requests && !Reached(w, q.node, q.rev)
    ensures DoAgentApply(w, q, RunOnly) == w.(running := w.running[q.node := q])
  {
    NotJournalled(w, q);
  }

  /** A request the node never stored cannot clash with its journal. */
  lemma NotJournalled(w: World, q: Request)
    requires Inv(w) && q in w.requests && !Reached(w, q.node, q.rev)
    ensures forall j | j in w.journal && j.node == q.node :: j.op != q.op
  {
    forall j | j in w.journal && j.node == q.node ensures j.op != q.op {
      assert Reached(w, j.node, j.rev) && RequestOk(w.t, j) && RequestOk(w.t, q);
    }
  }

  lemma KeepsInstalled(v: NodeView, w: World, w': World, n: NodeId, c: CredId)
    requires v.current.Some? && Installed(w, n, v.s, v.current.value, c)
    requires w'.requests >= w.requests && w'.agents == w.agents
    ensures Installed(w', n, v.s, v.current.value, c)
  {
    if !SameFor(v.s, v.current.value, c) {
      var q :| NeverStored(w, n, v.current.value, c, q);
      assert NeverStored(w', n, v.current.value, c, q);
    }
  }

  /** No step, or one. */
  function Take(w: World, l: Option<Label>): World {
    if l.None? then w else Step(w, map[], l.value).w
  }

  lemma ReloadStep(v: NodeView, w: World, n: NodeId, c: CredId, up: bool)
    requires Refines(v, w, n, c)
    ensures var w' := DoReload(w, n, up);
            && w'.requests == w.requests && w'.agents == w.agents && w'.journal == w.journal
            && Describes(w'.running, n, if up then v.s else Snapshot(0, map[]), c)
  {
  }

  lemma DescribesSame(entries: map<NodeId, Request>, n: NodeId, s: Snapshot, s': Snapshot, c: CredId)
    requires Describes(entries, n, s, c) && SameFor(s, s', c)
    ensures Describes(entries, n, s', c)
  {
  }

  /** Stopping: nothing runs and any of the known files may be installed. */
  lemma StopStep(v: NodeView, v': NodeView, next: Snapshot, w: World, n: NodeId, c: CredId)
    requires Refines(v, w, n, c) && v'.s == v.s && v'.process == None && v'.current in {v.current, None, Some(next), Some(v.s)}
    requires Installed(w, n, v.s, next, c)
    requires forall op | op in v'.journal && v'.journal[op].desired.cred == c :: RequestOf(v'.journal[op].desired, n) in w.journal
    ensures Refines(v', DoReload(w, n, false), n, c)
  {
    var w' := DoReload(w, n, false);
    ReloadStep(v, w, n, c, false);
    if v'.current.Some? {
      assert Installed(w, n, v.s, v'.current.value, c);
      KeepsInstalled(v.(current := v'.current), w, w', n, c);
    }
  }

  lemma JournalOf(v: NodeView, v': NodeView, d: Desired, answer: Answer, w: World, n: NodeId, c: CredId)
    requires Refines(v, w, n, c) && Journalled(v, v', d, answer) && (d.cred != c || !answer.Acked?)
    ensures forall op | op in v'.journal && v'.journal[op].desired.cred == c :: RequestOf(v'.journal[op].desired, n) in w.journal
  {
  }

  /** Everything shown for this credential is what the snapshot already stored. */
  lemma OtherReload(v: NodeView, v': NodeView, w: World, n: NodeId, c: CredId)
    requires Refines(v, w, n, c) && SameFor(v.s, v'.s, c) && v'.process.Some? && v'.current == v'.process
    requires SameFor(v.s, v'.process.value, c)
    requires forall op | op in v'.journal && v'.journal[op].desired.cred == c :: RequestOf(v'.journal[op].desired, n) in w.journal
    ensures Refines(v', DoReload(w, n, true), n, c)
  {
    ReloadStep(v, w, n, c, true);
    DescribesSame(w.agents, n, v.s, v'.s, c);
    DescribesSame(DoReload(w, n, true).running, n, v.s, v'.process.value, c);
  }

  /** An attempt that was not stored stops the process or leaves some known file running. */
  lemma UnstoredStep(v: NodeView, v': NodeView, next: Snapshot, w: World, n: NodeId, c: CredId) returns (l: Option<Label>)
    requires Inv(w) && Refines(v, w, n, c) && v'.s == v.s && NodeAgent.Unstored(v, v', next)
    requires Installed(w, n, v.s, next, c)
    requires forall op | op in v'.journal && v'.journal[op].desired.cred == c :: RequestOf(v'.journal[op].desired, n) in w.journal
    ensures Refines(v', Take(w, l), n, c)
  {
    if v'.process == None {
      l := Some(AgentReload(n, false));
      StopStep(v, v', next, w, n, c);
    } else {
      assert Installed(w, n, v.s, v'.process.value, c);
      var step := RestoreStep(v.(current := v'.process, journal := v'.journal), w, n, c);
      l := Some(step);
    }
  }

  /** A call about another credential at most reloads this one. */
  lemma OtherCall(v: NodeView, v': NodeView, d: Desired, answer: Answer, w: World, n: NodeId, c: CredId)
    returns (l: Option<Label>)
    requires Inv(w) && Refines(v, w, n, c) && Moves(v, v', d, answer) && d.cred != c
    ensures Refines(v', Take(w, l), n, c)
  {
    var next := Install(v.s, d);
    assert SameFor(v.s, next, c);
    JournalOf(v, v', d, answer, w, n, c);
    if v'.s == v.s && v'.current == v.current && v'.process == v.process {
      l := None;
    } else if v'.s == next {
      l := Some(AgentReload(n, true));
      OtherReload(v, v', w, n, c);
    } else {
      l := UnstoredStep(v, v', next, w, n, c);
    }
  }

  /** A call about this credential is an application, a reload or nothing. */
  lemma OwnCall(v: NodeView, v': NodeView, d: Desired, answer: Answer, w: World, n: NodeId, c: CredId)
    returns (l: Option<Label>)
    requires Inv(w) && Refines(v, w, n, c) && Moves(v, v', d, answer) && d.cred == c
    requires RequestOf(d, n) in w.requests
    ensures Refines(v', Take(w, l), n, c)
    ensures answer.Acked? ==> RequestOf(d, n) in Take(w, l).acks
  {
    var next, q := Install(v.s, d), RequestOf(d, n);
    if v'.s == v.s && v'.current == v.current && v'.process == v.process && !answer.Acked? {
      l := None;
      JournalOf(v, v', d, answer, w, n, c);
    } else if v'.s == v.s && answer.Acked? {
      l := Some(AgentApply(q, Persisted(true)));
      ConfirmStep(v, v', d, answer, w, n, c);
    } else if v'.s == next {
      l := Some(AgentApply(q, Persisted(answer.Acked?)));
      StoreStep(v, v', d, answer, w, n, c);
    } else {
      JournalOf(v, v', d, answer, w, n, c);
      NotReached(v, d, w, n);
      assert NeverStored(w, n, next, c, q);
      l := UnstoredStep(v, v', next, w, n, c);
    }
  }

  /** A replayed or already stored request. */
  lemma ConfirmStep(v: NodeView, v': NodeView, d: Desired, answer: Answer, w: World, n: NodeId, c: CredId)
    requires Inv(w) && Refines(v, w, n, c) && d.cred == c && RequestOf(d, n) in w.requests && Confirmable(v, d)
    requires v' == v.(journal := v'.journal) && Journalled(v, v', d, answer)
    ensures var w' := DoAgentApply(w, RequestOf(d, n), Persisted(true));
            Refines(v', w', n, c) && RequestOf(d, n) in w'.acks
  {
    var q := RequestOf(d, n);
    var w' := DoAgentApply(w, q, Persisted(true));
    ConfirmWorld(v, d, w, n, c);
    if v.current.Some? { KeepsInstalled(v, w, w', n, c); }
  }

  lemma ConfirmWorld(v: NodeView, d: Desired, w: World, n: NodeId, c: CredId)
    requires Inv(w) && Refines(v, w, n, c) && d.cred == c && RequestOf(d, n) in w.requests && Confirmable(v, d)
    ensures var w' := DoAgentApply(w, RequestOf(d, n), Persisted(true));
            && w'.agents == w.agents && w'.running == w.running && w'.requests == w.requests
            && RequestOf(d, n) in w'.acks && w'.journal == w.journal + {RequestOf(d, n)}
  {
    SameOperation(w, RequestOf(d, n));
  }

  /** Under the invariant an operation sends one request per node. */
  lemma SameOperation(w: World, q: Request)
    requires Inv(w) && q in w.requests
    ensures forall j | j in w.journal && j.node == q.node && j.op == q.op :: j == q
  {
    forall j | j in w.journal && j.node == q.node && j.op == q.op ensures j == q {
      assert RequestOk(w.t, j) && RequestOk(w.t, q);
    }
  }

  lemma NotReached(v: NodeView, d: Desired, w: World, n: NodeId)
    requires Describes(w.agents, n, v.s, d.cred) && !Covers(v.s, d)
    ensures !Reached(w, n, d.rev)
  {
  }

  lemma StoreStep(v: NodeView, v': NodeView, d: Desired, answer: Answer, w: World, n: NodeId, c: CredId)
    requires Inv(w) && Refines(v, w, n, c) && d.cred == c && RequestOf(d, n) in w.requests && !Covers(v.s, d)
    requires v'.s == Install(v.s, d) && v'.current == v'.process == Some(v'.s) && Journalled(v, v', d, answer)
    ensures var w' := DoAgentApply(w, RequestOf(d, n), Persisted(answer.Acked?));
            Refines(v', w', n, c) && (answer.Acked? ==> RequestOf(d, n) in w'.acks)
  {
    NotReached(v, d, w, n);
    NotJournalled(w, RequestOf(d, n));
  }

  /**
   Refinement.  Whatever an agent call does, for every credential there is a protocol step (or
   none) after which the agent is again described by the protocol state, and a request that was
   acknowledged counts as confirmed there.
   */
  lemma CallRefines(v: NodeView, v': NodeView, d: Desired, answer: Answer, w: World, n: NodeId, c: CredId)
    returns (l: Option<Label>)
    requires Inv(w) && Refines(v, w, n, c) && Moves(v, v', d, answer)
    requires d.cred == c ==> RequestOf(d, n) in w.requests
    ensures Refines(v', Take(w, l), n, c) && Inv(Take(w, l))
    ensures d.cred == c && answer.Acked? ==> RequestOf(d, n) in Take(w, l).acks
  {
    if d.cred == c { l := OwnCall(v, v', d, answer, w, n, c); } else { l := OtherCall(v, v', d, answer, w, n, c); }
    if l.Some? { Fleet.StepKeepsInv(w, map[], l.value); }
  }

  // ---- start, restart, crash and steps elsewhere ------------------------------------------------------

  lemma NewNodeRefines(w: World, n: NodeId, c: CredId)
    requires n !in w.agents && n !in w.running
    ensures Refines(NEW_NODE, w, n, c)
  {
  }

  /** A restart reloads the stored configuration or leaves the node down. */
  lemma RestartRefines(v: NodeView, v': NodeView, w: World, n: NodeId, c: CredId)
    requires Refines(v, w, n, c) && Restarts(v, v')
    ensures Refines(v', Step(w, map[], AgentReload(n, v'.process.Some?)).w, n, c)
  {
    if v'.process == None { StopStep(v, v', v.s, w, n, c); } else { OtherReload(v, v', w, n, c); }
  }

  /** A process that dies is a reload that does not come up. */
  lemma CrashRefines(v: NodeView, w: World, n: NodeId, c: CredId)
    requires Refines(v, w, n, c)
    ensures Refines(v.(process := None), Step(w, map[], AgentReload(n, false)).w, n, c)
  {
    StopStep(v, v.(process := None), v.s, w, n, c);
  }

  /** The step is taken by this node's agent. */
  predicate OnNode(l: Label, n: NodeId) {
    || (l.AgentApply? && l.q.node == n)
    || (l.AgentReload? && l.node == n)
    || (l.JournalEvict? && l.q.node == n)
  }

  lemma ElsewhereKeeps(w: World, nodes: map<NodeId, Provisioning.Node>, l: Label, n: NodeId)
    requires !OnNode(l, n)
    ensures var w' := Step(w, nodes, l).w;
            && (n in w'.agents <==> n in w.agents) && (n in w.agents ==> w'.agents[n] == w.agents[n])
            && (n in w'.running <==> n in w.running) && (n in w.running ==> w'.running[n] == w.running[n])
            && w.requests <= w'.requests
            && forall q: Request | q in w.journal && q.node == n :: q in w'.journal
  {
    if !IsMessageStep(l) { StoreStepElsewhere(w, nodes, l); }
  }

  lemma StoreStepElsewhere(w: World, nodes: map<NodeId, Provisioning.Node>, l: Label)
    requires !IsMessageStep(l)
    ensures var w' := Step(w, nodes, l).w;
            w'.agents == w.agents && w'.running == w.running && w.requests <= w'.requests && w'.journal == w.journal
  {
  }

  lemma ElsewhereRefines(v: NodeView, w: World, nodes: map<NodeId, Provisioning.Node>, l: Label, n: NodeId, c: CredId)
    requires Refines(v, w, n, c) && !OnNode(l, n)
    ensures Refines(v, Step(w, nodes, l).w, n, c)
  {
    var w' := Step(w, nodes, l).w;
    ElsewhereKeeps(w, nodes, l, n);
    if v.current.Some? && !SameFor(v.s, v.current.value, c) {
      var q :| NeverStored(w, n, v.current.value, c, q);
      assert NeverStored(w', n, v.current.value, c, q);
    }
  }

  // ---- a whole run of one agent -----------------------------------------------------------------------

  /** What happens to the agent, or in the rest of the system. */
  datatype Turn =
    | Called(after: NodeView, d: Desired, answer: Answer)
    | Restarted(after: NodeView)
    | Died
    | Elsewhere(nodes: map<NodeId, Provisioning.Node>, step: Label)

  function Turned(v: NodeView, t: Turn): NodeView {
    match t
    case Called(after, _, _) => after
    case Restarted(after) => after
    case Died => v.(process := None)
    case Elsewhere(_, _) => v
  }

  function ViewAfter(turns: seq<Turn>): NodeView {
    if turns == [] then NEW_NODE else Turned(ViewAfter(turns[..|turns| - 1]), turns[|turns| - 1])
  }

  /** The turn is one the agent's contracts allow. */
  predicate Allowed(v: NodeView, t: Turn, n: NodeId) {
    match t
    case Called(after, d, answer) => Moves(v, after, d, answer)
    case Restarted(after) => Restarts(v, after)
    case Died => true
    case Elsewhere(_, l) => !OnNode(l, n)
  }

  predicate AgentRun(turns: seq<Turn>, n: NodeId) {
    forall i | 0 <= i < |turns| :: Allowed(ViewAfter(turns[..i]), turns[i], n)
  }

  /** Calls about the credential carry requests that some worker sent. */
  predicate WasAsked(w: World, t: Turn, n: NodeId, c: CredId) {
    t.Called? && t.d.cred == c ==> RequestOf(t.d, n) in w.requests
  }

  ghost predicate OneStep(w: World, w': World) {
    w' == w || exists nodes, l :: w' == Step(w, nodes, l).w
  }

  lemma TurnRefines(v: NodeView, t: Turn, w: World, n: NodeId, c: CredId) returns (w': World)
    requires Inv(w) && Refines(v, w, n, c) && Allowed(v, t, n) && WasAsked(w, t, n, c)
    ensures OneStep(w, w') && Inv(w') && Refines(Turned(v, t), w', n, c)
    ensures t.Elsewhere? ==> w' == Step(w, t.nodes, t.step).w
    ensures t.Called? && t.d.cred == c && t.answer.Acked? ==> RequestOf(t.d, n) in w'.acks
  {
    match t
    case Called(after, d, answer) =>
      var l := CallRefines(v, after, d, answer, w, n, c);
      TakeIsStep(w, l);
      w' := Take(w, l);
    case Restarted(after) =>
      RestartRefines(v, after, w, n, c);
      w' := StepTaken(w, map[], AgentReload(n, after.process.Some?));
    case Died =>
      CrashRefines(v, w, n, c);
      w' := StepTaken(w, map[], AgentReload(n, false));
    case Elsewhere(nodes, l) =>
      ElsewhereRefines(v, w, nodes, l, n, c);
      w' := StepTaken(w, nodes, l);
  }

  lemma StepTaken(w: World, nodes: map<NodeId, Provisioning.Node>, l: Label) returns (w': World)
    requires Inv(w)
    ensures w' == Step(w, nodes, l).w && OneStep(w, w') && Inv(w')
  {
    Fleet.StepKeepsInv(w, nodes, l);
    w' := Step(w, nodes, l).w;
  }

  lemma TakeIsStep(w: World, l: Option<Label>)
    ensures OneStep(w, Take(w, l))
  {
  }

  /** The worlds follow the turns by protocol steps, and describe the agent while it was asked properly. */
  ghost predicate Follows(turns: seq<Turn>, worlds: seq<World>, n: NodeId, c: CredId) {
    && |worlds| == |turns| + 1 && worlds[0] == START
    && (forall i | 0 <= i < |turns| :: OneStep(worlds[i], worlds[i + 1]))
    && (Asked(turns, worlds, n, c) ==> Inv(worlds[|turns|]) && Refines(ViewAfter(turns), worlds[|turns|], n, c))
  }

  ghost predicate Asked(turns: seq<Turn>, worlds: seq<World>, n: NodeId, c: CredId)
    requires |worlds| == |turns| + 1
  {
    forall i | 0 <= i < |turns| :: WasAsked(worlds[i], turns[i], n, c)
  }

  /**
   Whole runs.  From its first start, through any calls, restarts, crashes and steps elsewhere, the
   agent is described by a run of the protocol, as long as workers sent what it was asked.
   */
  lemma {:induction false} RunRefines(turns: seq<Turn>, n: NodeId, c: CredId) returns (worlds: seq<World>)
    requires AgentRun(turns, n)
    ensures Follows(turns, worlds, n, c)
  {
    if turns == [] {
      worlds := [START];
      NewNodeRefines(START, n, c);
      Fleet.RunInv([], 0);
    } else {
      var init, t := turns[..|turns| - 1], turns[|turns| - 1];
      RunPrefix(turns, n);
      var before := RunRefines(init, n, c);
      var w := before[|init|];
      var w' := w;
      if Asked(init, before, n, c) && WasAsked(w, t, n, c) {
        w' := TurnRefines(ViewAfter(init), t, w, n, c);
      }
      FollowsNext(turns, before, w', n, c);
      worlds := before + [w'];
    }
  }

  lemma FollowsNext(turns: seq<Turn>, before: seq<World>, w': World, n: NodeId, c: CredId)
    requires turns != [] && Follows(turns[..|turns| - 1], before, n, c) && OneStep(before[|turns| - 1], w')
    requires Asked(turns[..|turns| - 1], before, n, c) && WasAsked(before[|turns| - 1], turns[|turns| - 1], n, c)
             ==> Inv(w') && Refines(ViewAfter(turns), w', n, c)
    ensures Follows(turns, before + [w'], n, c)
  {
    var worlds := before + [w'];
    AskedNext(turns, before, w', n, c);
    forall i | 0 <= i < |turns| ensures OneStep(worlds[i], worlds[i + 1]) {
      if i < |turns| - 1 { assert OneStep(before[i], before[i + 1]); }
    }
  }

  lemma RunPrefix(turns: seq<Turn>, n: NodeId)
    requires AgentRun(turns, n) && turns != []
    ensures AgentRun(turns[..|turns| - 1], n)
    ensures Allowed(ViewAfter(turns[..|turns| - 1]), turns[|turns| - 1], n)
  {
    var init := turns[..|turns| - 1];
    forall i | 0 <= i < |init| ensures Allowed(ViewAfter(init[..i]), init[i], n) {
      assert init[..i] == turns[..i] && Allowed(ViewAfter(turns[..i]), turns[i], n);
    }
  }

  lemma AskedNext(turns: seq<Turn>, before: seq<World>, w': World, n: NodeId, c: CredId)
    requires turns != [] && |before| == |turns|
    ensures Asked(turns, before + [w'], n, c) <==>
            Asked(turns[..|turns| - 1], before, n, c) && WasAsked(before[|turns| - 1], turns[|turns| - 1], n, c)
  {
    var init, worlds := turns[..|turns| - 1], before + [w'];
    forall i | 0 <= i < |init| ensures WasAsked(before[i], init[i], n, c) <==> WasAsked(worlds[i], turns[i], n, c) { }
    if Asked(init, before, n, c) {
      forall i | 0 <= i < |init| ensures WasAsked(worlds[i], turns[i], n, c) { assert WasAsked(before[i], init[i], n, c); }
    }
    if Asked(turns, worlds, n, c) {
      forall i | 0 <= i < |init| ensures WasAsked(before[i], init[i], n, c) { assert WasAsked(worlds[i], turns[i], n, c); }
    }
  }

  // ---- what a run stores ------------------------------------------------------------------------------

  /** This turn was a call whose request is exactly what is stored for the credential. */
  predicate Asks(t: Turn, c: CredId, stored: Stored) {
    t.Called? && ValidDesired(t.d) && t.d.cred == c
    && t.d.rev == stored.rev && t.d.want == stored.want && t.d.material == stored.material
  }

  /**
   In every run of an agent, what it stores for a credential is the revision, presence and client
   material of one request it was called with; so a present credential never lacks its material.
   */
  lemma {:induction false} StoredWasAsked(turns: seq<Turn>, n: NodeId, c: CredId)
    requires AgentRun(turns, n) && c in ViewAfter(turns).s.creds
    ensures exists i :: 0 <= i < |turns| && Asks(turns[i], c, ViewAfter(turns).s.creds[c])
    ensures ViewAfter(turns).s.creds[c].want == Present <==> ViewAfter(turns).s.creds[c].material != 0
  {
    var init, t := turns[..|turns| - 1], turns[|turns| - 1];
    RunPrefix(turns, n);
    var before, after := ViewAfter(init).s, ViewAfter(turns).s;
    if after == before || (t.Called? && t.d.cred != c) {
      if t.Called? { InstallStores(before, t.d); }
      StoredWasAsked(init, n, c);
      var i :| 0 <= i < |init| && Asks(init[i], c, before.creds[c]);
      assert turns[i] == init[i];
    } else {
      InstallStores(before, t.d);
      assert Asks(turns[|turns| - 1], c, after.creds[c]);
    }
  }
}
