/** The node agent: decide, replace the running configuration, persist, journal, acknowledge. */
module NodeAgent {
  import opened Common
  import opened NodeState
  import opened XrayManager

  datatype Answer =
    | Acked(reply: Reply)
    | Rejected               // invalid, conflicting or stale request
    | NotApplied             // previous configuration kept or restored
    | NotStored              // applied, not persisted, previous configuration restored
    | RollbackBroken         // a rollback failed
    | NotJournalled          // applied and persisted, journal write failed

  /** The disk contents satisfy what a restart relies on. */
  ghost predicate DiskOk(d: Disk) {
    Behind(d.journal, d.snapshot) && Sound(d.snapshot)
  }

  ghost predicate Ordered(disks: seq<Disk>) {
    && (forall i | 0 <= i < |disks| :: DiskOk(disks[i]))
    && (forall i, j | 0 <= i <= j < |disks| :: NoEarlier(disks[i].snapshot, disks[j].snapshot))
  }

  lemma OrderedAppend(disks: seq<Disk>, d: Disk)
    requires Ordered(disks) && disks != [] && DiskOk(d) && NoEarlier(disks[|disks| - 1].snapshot, d.snapshot)
    ensures Ordered(disks + [d])
  {
    var longer := disks + [d];
    forall i, j | 0 <= i <= j < |longer| ensures NoEarlier(longer[i].snapshot, longer[j].snapshot) {
      if j == |disks| && i < j {
        assert NoEarlier(disks[i].snapshot, disks[|disks| - 1].snapshot);
        NoEarlierTrans(disks[i].snapshot, disks[|disks| - 1].snapshot, d.snapshot);
      }
    }
  }

  lemma NoEarlierTrans(a: Snapshot, b: Snapshot, c: Snapshot)
    requires NoEarlier(a, b) && NoEarlier(b, c)
    ensures NoEarlier(a, c)
  {
  }

  /** The running configuration is the one the agent believes in. */
  predicate InStep(s: Snapshot, current: Option<Snapshot>, process: Option<Snapshot>) {
    current == process == Some(s)
  }

  /** Memory, files and their history fit together. */
  ghost predicate Consistent(snapshot: Snapshot, journal: Journal, saved: Disk, disks: seq<Disk>) {
    && snapshot == saved.snapshot
    && Within(saved.journal, journal)
    && DiskOk(saved)
    && disks != [] && disks[|disks| - 1] == saved
    && Ordered(disks)
  }

  /** Both ends of a journal write: the file replaced, or the new entry taken back. */
  lemma JournalWritten(snapshot: Snapshot, journal: Journal, saved: Disk, disks: seq<Disk>,
                       d: Desired, reply: Reply, now: Time, kept: Journal)
    requires Consistent(snapshot, journal, saved, disks) && Within(journal[d.op := Entry(d, reply, now)], kept)
    requires Covers(snapshot, d) && reply == ReplyTo(d, reply.configRev) && reply.configRev <= snapshot.rev
    ensures Consistent(snapshot, kept, saved.(journal := kept), disks + [saved.(journal := kept)])
    ensures Consistent(snapshot, kept - {d.op}, saved, disks) && Within(journal - {d.op}, kept - {d.op})
  {
    NewJournal(saved.journal, journal, snapshot, d, reply, now, kept);
    OrderedAppend(disks, saved.(journal := kept));
  }

  // ---- one call, seen from outside ------------------------------------------------------------------

  /** Stored snapshot, installed and running configuration, journal file. */
  datatype NodeView = NodeView(s: Snapshot, current: Option<Snapshot>, process: Option<Snapshot>, journal: Journal)

  /** The request is journalled, or exactly what the snapshot stores. */
  predicate Confirmable(v: NodeView, d: Desired) {
    || (d.op in v.journal && v.journal[d.op].desired == d)
    || (d.cred in v.s.creds && v.s.creds[d.cred] == Stored(d.rev, d.want, d.material))
  }

  /** New journal entries are for this request, and only when it was acknowledged. */
  predicate Journalled(v: NodeView, v': NodeView, d: Desired, answer: Answer) {
    forall op | op in v'.journal ::
      || (op in v.journal && v'.journal[op] == v.journal[op])
      || (op == d.op && v'.journal[op].desired == d && answer.Acked?)
  }

  /** What may be installed and running after an attempt that was not stored. */
  predicate Unstored(v: NodeView, v': NodeView, next: Snapshot) {
    || (v'.process == None && v'.current in {v.current, None, Some(next), Some(v.s)})
    || (v'.current == v'.process == v.current && v.current.Some?)
    || v'.current == v'.process == Some(next)
    || v'.current == v'.process == Some(v.s)
  }

  /** All effects a call may have. */
  predicate Moves(v: NodeView, v': NodeView, d: Desired, answer: Answer) {
    var next := Install(v.s, d);
    && Journalled(v, v', d, answer)
    && ( || (v'.s == v.s && v'.current == v.current && v'.process == v.process && (answer.Acked? ==> Confirmable(v, d)))
         || (ValidDesired(d) && !Covers(v.s, d) && v'.s == next && v'.current == v'.process == Some(next))
         || (ValidDesired(d) && !Covers(v.s, d) && v'.s == v.s && !answer.Acked? && Unstored(v, v', next)))
  }

  /** A new agent on an empty state directory. */
  const NEW_NODE := NodeView(Snapshot(0, map[]), None, None, map[])

  /** What a restart may do: run the stored configuration, or run nothing. */
  predicate Restarts(v: NodeView, v': NodeView) {
    && v'.s == v.s && v'.journal == v.journal
    && ( || v'.current == v'.process == Some(v.s)
         || (v'.process == None && v'.current in {v.current, Some(v.s)}))
  }

  /** The steps of a call that fail: the reload, saving the snapshot, the reload back, and the journal write. */
  datatype CallFaults = CallFaults(reload: Faults, save: bool, undo: Faults, journal: bool)

  /** What a change is answered: acknowledged exactly when the reload, the save and the journal write work. */
  predicate Replaced(d: Desired, f: CallFaults, configRev: nat, installed: bool, running: bool, answer: Answer) {
    var applied := TakesOver(f.reload, installed, running);
    var undone := TakesOver(f.undo, true, true);
    && (answer == Acked(Reply(d.op, d.cred, d.rev, d.want, configRev)) <==> applied && !f.save && !f.journal)
    && (answer == NotJournalled <==> applied && !f.save && f.journal)
    && (answer == NotStored <==> applied && f.save && undone)
    && (answer == NotApplied <==> !applied && (f.reload.write || f.reload.validate || ComesBack(f.reload, installed, running)))
    && (answer == RollbackBroken <==>
          || (applied && f.save && !undone)
          || (!applied && !f.reload.write && !f.reload.validate && !ComesBack(f.reload, installed, running)))
  }

  /** What every request is answered, from the snapshot and journal before the call. */
  predicate Answers(s: Snapshot, journal: Journal, d: Desired, f: CallFaults, installed: bool, running: bool, answer: Answer) {
    if d.rev < 1 || (d.want == Present && d.material == 0) || (d.want == Absent && d.material != 0) then answer == Rejected
    else if d.op in journal then answer == if journal[d.op].desired == d then Acked(journal[d.op].reply) else Rejected
    else if d.cred in s.creds && d.rev < s.creds[d.cred].rev then answer == Rejected
    else if d.cred in s.creds && d.rev == s.creds[d.cred].rev then
      if s.creds[d.cred] != Stored(d.rev, d.want, d.material) then answer == Rejected
      else answer == if f.journal then NotJournalled else Acked(Reply(d.op, d.cred, d.rev, d.want, s.rev))
    else Replaced(d, f, s.rev + 1, installed, running, answer)
  }

  class Agent {
    const xray: Manager
    const limit: nat
    var snapshot: Snapshot
    var journal: Journal
    var saved: Disk
    ghost var disks: seq<Disk>      // every disk content since the beginning, newest last

    /** Memory equals the stored snapshot, and the journal never runs ahead of it. */
    ghost predicate Valid()
      reads this
    {
      Consistent(snapshot, journal, saved, disks)
    }

    ghost function View(): NodeView
      reads this, xray
    {
      NodeView(saved.snapshot, xray.current, xray.process, saved.journal)
    }

    /** First start on an empty state directory. */
    constructor (limit: nat)
      requires limit >= 1
      ensures Valid() && fresh(xray) && xray.process == None
      ensures snapshot == Snapshot(0, map[]) && journal == map[] && View() == NEW_NODE
    {
      xray := new Manager();
      this.limit := limit;
      snapshot, journal := Snapshot(0, map[]), map[];
      saved := Disk(Snapshot(0, map[]), map[]);
      disks := [Disk(Snapshot(0, map[]), map[])];
    }

    /** Atomic replacement of the snapshot file. */
    method SaveSnapshot(next: Snapshot, fails: bool) returns (ok: bool)
      requires Valid() && NoEarlier(snapshot, next) && Sound(next)
      modifies this`saved, this`disks
      ensures ok <==> !fails
      ensures ok ==> saved == Disk(next, old(saved).journal) && disks == old(disks) + [saved] && Ordered(disks) && DiskOk(saved)
      ensures !ok ==> saved == old(saved) && disks == old(disks)
    {
      ok := !fails;
      if ok {
        BehindLater(saved.journal, saved.snapshot, next);
        OrderedAppend(disks, Disk(next, saved.journal));
        saved := saved.(snapshot := next);
        disks := disks + [saved];
      }
    }

    /** Adds the entry, evicts the oldest ones and replaces the journal file. */
    method RecordJournal(d: Desired, reply: Reply, now: Time, fails: bool) returns (ok: bool)
      requires Valid() && reply == ReplyTo(d, reply.configRev) && reply.configRev <= snapshot.rev && Covers(snapshot, d)
      modifies this`journal, this`saved, this`disks
      ensures Valid() && saved.snapshot == old(saved).snapshot && (ok <==> !fails)
      ensures ok ==> saved.journal == journal && Trimmed(old(journal)[d.op := Entry(d, reply, now)], journal)
      ensures !ok ==> saved == old(saved) && disks == old(disks) && Within(old(journal) - {d.op}, journal)
    {
      var kept := Evict(journal[d.op := Entry(d, reply, now)], limit);
      JournalWritten(snapshot, journal, saved, disks, d, reply, now, kept);
      ok := !fails;
      if ok {
        journal := kept;
        saved := saved.(journal := kept);
        disks := disks + [saved];
      } else {
        journal := kept - {d.op};
      }
    }

    /**
     Applies a desired state.  An invalid request, another request under a journalled operation and
     a stale or clashing revision are refused; a journalled one is answered as before; the current
     one is confirmed; a newer one is applied, stored and journalled, and acknowledged exactly when
     every step works.
     */
    method Apply(d: Desired, now: Time, f: CallFaults) returns (answer: Answer)
      requires Valid()
      modifies this`snapshot, this`journal, this`saved, this`disks, xray
      ensures Valid()
      ensures Answers(old(snapshot), old(journal), d, f, old(xray.current).Some?, old(xray.process).Some?, answer)
      ensures snapshot == old(snapshot)
              || (Stores(old(snapshot), snapshot, d) && !Covers(old(snapshot), d) && (answer.Acked? || answer == NotJournalled))
      ensures answer.Acked? && snapshot != old(snapshot) ==>
                && d.cred in saved.snapshot.creds && saved.snapshot.creds[d.cred] == Stored(d.rev, d.want, d.material)
                && saved.snapshot.rev == old(snapshot).rev + 1
                && saved.snapshot.creds.Keys == old(snapshot).creds.Keys + {d.cred}
                && forall c | c != d.cred && c in old(snapshot).creds :: saved.snapshot.creds[c] == old(snapshot).creds[c]
      ensures NoEarlier(old(snapshot), snapshot)
      ensures Covers(old(snapshot), d) ==> snapshot == old(snapshot)
      ensures answer.Acked? ==> Covers(saved.snapshot, d) && answer.reply == ReplyTo(d, answer.reply.configRev)
      ensures answer.Acked? ==> answer.reply.configRev <= saved.snapshot.rev
      ensures InStep(old(snapshot), old(xray.current), old(xray.process)) ==>
                InStep(snapshot, xray.current, xray.process) || answer == RollbackBroken
      ensures answer == NotApplied || answer == NotStored || answer == Rejected ==> snapshot == old(snapshot) && saved == old(saved)
      ensures Moves(old(View()), View(), d, answer)
    {
      if !ValidDesired(d) {
        return Rejected;
      }
      WithinBehind(saved.journal, journal, snapshot);
      ChangeRaises(snapshot, journal, d);
      var verdict := Judge(snapshot, journal, d);
      match verdict
      case Replay(reply) => return Acked(reply);
      case Clash => return Rejected;
      case Stale => return Rejected;
      case Same =>
        var recorded := RecordJournal(d, ReplyTo(d, snapshot.rev), now, f.journal);
        return if recorded then Acked(ReplyTo(d, snapshot.rev)) else NotJournalled;
      case Change(next) =>
        InstallStores(snapshot, d);
        answer := Replace(d, next, now, f);
    }

    method Replace(d: Desired, next: Snapshot, now: Time, f: CallFaults) returns (answer: Answer)
      requires Valid() && next == Install(snapshot, d) && NoEarlier(snapshot, next) && !Covers(snapshot, d) && ValidDesired(d) && Sound(next)
      modifies this`snapshot, this`journal, this`saved, this`disks, xray
      ensures Valid()
      ensures Replaced(d, f, next.rev, old(xray.current).Some?, old(xray.process).Some?, answer)
      ensures snapshot == if answer.Acked? || answer == NotJournalled then next else old(snapshot)
      ensures answer.Acked? ==> answer.reply == ReplyTo(d, next.rev)
      ensures InStep(old(snapshot), old(xray.current), old(xray.process)) ==>
                InStep(snapshot, xray.current, xray.process) || answer == RollbackBroken
      ensures answer != RollbackBroken && answer != NotJournalled && !answer.Acked? ==> snapshot == old(snapshot) && saved == old(saved)
      ensures answer != Rejected
      ensures Moves(old(View()), View(), d, answer)
    {
      var previous := snapshot;
      var outcome := xray.Apply(next, f.reload);
      if outcome != Success {
        return if outcome == RollbackFailed then RollbackBroken else NotApplied;
      }
      var stored := SaveSnapshot(next, f.save);
      if !stored {
        var undone := xray.Apply(previous, f.undo);
        return if undone == Success then NotStored else RollbackBroken;
      }
      snapshot := next;
      var recorded := RecordJournal(d, ReplyTo(d, next.rev), now, f.journal);
      return if recorded then Acked(ReplyTo(d, next.rev)) else NotJournalled;
    }

    /** A restart reads the files back and starts the stored configuration. */
    method Restart(prepared: bool, install: bool, unhealthy: bool) returns (ok: bool)
      requires Valid()
      modifies this`snapshot, this`journal, xray
      ensures Valid() && snapshot == old(saved).snapshot && journal == old(saved).journal
      ensures snapshot == old(snapshot)
      ensures ok <==> prepared && !install && !unhealthy
      ensures ok ==> InStep(snapshot, xray.current, xray.process)
      ensures Restarts(old(View()), View())
    {
      xray.Crash();
      snapshot, journal := saved.snapshot, saved.journal;
      ok := xray.Start(snapshot, prepared, install, unhealthy);
    }

    /** The process dies on its own; files and memory stay. */
    method ProcessDies()
      requires Valid()
      modifies xray
      ensures Valid() && View() == old(View()).(process := None)
    {
      xray.Crash();
    }
  }
}
