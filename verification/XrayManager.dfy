/**
 Replacing the running configuration with last-known-good rollback.  A configuration is named
 by the snapshot it was rendered from.  Which steps of a call fail is an argument of the call, so
 a contract says for every combination of failures what the call must achieve.
 */
module XrayManager {
  import opened Common
  import opened NodeState

  datatype Outcome = Success | RollbackRestored | RollbackFailed | NotWritten | NotValid

  /** The steps of a reload that fail: each flag is the failure of the step it names. */
  datatype Faults = Faults(
    write: bool,                  // writing the candidate file
    validate: bool,               // checking it
    stop: bool,                   // stopping the process in time
    preserve: bool,               // renaming config.json to last-known-good.json
    install: bool,                // renaming the candidate to config.json
    unhealthy: bool,              // starting the candidate
    restore: bool,                // renaming last-known-good.json back
    restart: bool,                // starting the previous configuration
    removals: set<nat>)           // file removals that are skipped; none of them matters

  /** The candidate takes over: nothing on the way to it fails, and there was a file to keep. */
  predicate TakesOver(f: Faults, installed: bool, running: bool) {
    && !f.write && !f.validate && installed && !(f.stop && running)
    && !f.preserve && !f.install && !f.unhealthy
  }

  /** The previous configuration comes back: it exists, and what is needed to run it again works. */
  predicate ComesBack(f: Faults, installed: bool, running: bool) {
    installed && !f.restart && (!(f.stop && running) && !f.preserve ==> !f.restore)
  }

  class Manager {
    var current: Option<Snapshot>   // config.json
    var backup: Option<Snapshot>    // last-known-good.json
    var process: Option<Snapshot>   // configuration of the live process

    constructor ()
      ensures current == None && backup == None && process == None
    {
      current, backup, process := None, None, None;
    }

    /** Always ends without a live process; the error only says that time ran out. */
    method Stop(fails: bool) returns (ok: bool)
      modifies this`process
      ensures process == None
      ensures ok <==> !(fails && old(process).Some?)
    {
      ok := !(fails && process.Some?);
      process := None;
    }

    /** Starts a process on config.json and waits; without that file it cannot become healthy. */
    method StartAndWait(fails: bool) returns (healthy: bool)
      requires process == None
      modifies this`process
      ensures healthy <==> !fails && current.Some?
      ensures process == if healthy then current else None
    {
      if !fails && current.Some? {
        process := current;
        return true;
      }
      return false;
    }

    method RenameCurrentToBackup(fails: bool) returns (ok: bool)
      modifies this`current, this`backup
      ensures ok <==> !fails && old(current).Some?
      ensures ok ==> backup == old(current) && current == None
      ensures !ok ==> current == old(current) && backup == old(backup)
    {
      ok := !fails && current.Some?;
      if ok { backup, current := current, None; }
    }

    method RenameBackupToCurrent(fails: bool) returns (ok: bool)
      modifies this`current, this`backup
      ensures ok <==> !fails && old(backup).Some?
      ensures ok ==> current == old(backup) && backup == None
      ensures !ok ==> current == old(current) && backup == old(backup)
    {
      ok := !fails && backup.Some?;
      if ok { current, backup := backup, None; }
    }

    method RemoveBackup(fails: bool)
      modifies this`backup
      ensures backup == if fails then old(backup) else None
    {
      if !fails { backup := None; }
    }

    method RemoveCurrent(fails: bool)
      modifies this`current
      ensures current == if fails then old(current) else None
    {
      if !fails { current := None; }
    }

    method InstallCandidate(candidate: Snapshot, fails: bool) returns (ok: bool)
      modifies this`current
      ensures ok <==> !fails
      ensures current == if ok then Some(candidate) else old(current)
    {
      ok := !fails;
      if ok { current := Some(candidate); }
    }

    /** First start: installs the snapshot's configuration and runs it, unless a step fails. */
    method Start(candidate: Snapshot, prepared: bool, install: bool, unhealthy: bool) returns (ok: bool)
      requires process == None
      modifies this`current, this`process
      ensures ok <==> prepared && !install && !unhealthy
      ensures ok ==> current == process == Some(candidate)
      ensures !ok ==> process == None && current == (if prepared && !install then Some(candidate) else old(current))
    {
      if !prepared {
        return false;
      }
      ok := InstallCandidate(candidate, install);
      if ok {
        ok := StartAndWait(unhealthy);
      }
    }

    /**
     Replaces the configuration or restores the previous one.  Nothing happens before the candidate
     is written and valid; then the candidate takes over unless a step fails, the previous
     configuration comes back unless a step of that fails too, and otherwise nothing runs and the
     previous file is still on disk.
     */
    method Apply(candidate: Snapshot, f: Faults) returns (outcome: Outcome)
      modifies this
      ensures outcome == NotWritten <==> f.write
      ensures outcome == NotValid <==> !f.write && f.validate
      ensures outcome == Success <==> TakesOver(f, old(current).Some?, old(process).Some?)
      ensures outcome == RollbackRestored <==>
                !f.write && !f.validate && !TakesOver(f, old(current).Some?, old(process).Some?)
                && ComesBack(f, old(current).Some?, old(process).Some?)
      ensures outcome == Success ==> current == process == Some(candidate) && old(current).Some?
      ensures outcome == RollbackRestored ==> current == process == old(current) && old(current).Some?
      ensures outcome == RollbackFailed ==>
                process == None && (old(current).None? || f.restart || (f.restore && !f.preserve && !(f.stop && old(process).Some?)))
      ensures outcome == NotWritten || outcome == NotValid ==>
                current == old(current) && process == old(process) && backup == old(backup)
      ensures outcome == RollbackFailed ==> current in {old(current), None, Some(candidate)}
      ensures outcome == RollbackFailed && old(current).Some? ==> current == old(current) || backup == old(current)
      ensures old(current).None? ==> current == None && outcome != Success && outcome != RollbackRestored
    {
      if f.write { return NotWritten; }
      if f.validate { return NotValid; }
      var stopped := Stop(f.stop);
      if !stopped {
        var restored := StartAndWait(f.restart);
        return if restored then RollbackRestored else RollbackFailed;
      }
      RemoveBackup(0 in f.removals);
      var kept := RenameCurrentToBackup(f.preserve);
      if !kept {
        var restored := StartAndWait(f.restart);
        return if restored then RollbackRestored else RollbackFailed;
      }
      var installed := InstallCandidate(candidate, f.install);
      if !installed {
        var back := RenameBackupToCurrent(f.restore);
        var restored := StartAndWait(f.restart);
        return if restored then RollbackRestored else RollbackFailed;
      }
      var healthy := StartAndWait(f.unhealthy);
      if healthy {
        RemoveBackup(1 in f.removals);
        return Success;
      }
      var _ := Stop(f.stop);
      RemoveCurrent(2 in f.removals);
      var back := RenameBackupToCurrent(f.restore);
      if !back {
        return RollbackFailed;
      }
      var restored := StartAndWait(f.restart);
      return if restored then RollbackRestored else RollbackFailed;
    }

    /** The process dies on its own. */
    method Crash()
      modifies this`process
      ensures process == None
    {
      process := None;
    }
  }
}
