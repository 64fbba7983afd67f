/** The notification store as it runs: transactions that change the tables step by step. */
module NotificationStore {
  import opened Common
  import opened Notification
  import opened NotificationEffects
  import opened NotificationSafety

  /** The rows after a transaction: those it leaves, or the old ones when it is refused. */
  function Committed(r: Rows, a: Result<Rows>): Rows {
    if a.Ok? then a.value else r
  }

  class Store {
    var inbox: map<EventId, nat>
    var keys: set<Key>
    var cursors: map<Stream, nat>
    var jobs: map<JobId, Job>
    var used: set<ClaimId>
    var requests: map<nat, JobId>
    ghost var finishes: seq<Finish>

    ghost function State(): Rows
      reads this
    {
      Rows(inbox, keys, cursors, jobs, used, requests, finishes)
    }

    /** Delivery order and supersession, between any two transactions. */
    ghost predicate Valid()
      reads this
    {
      Inv(State())
    }

    constructor ()
      ensures Valid() && State() == EMPTY
    {
      inbox, keys, cursors, jobs, used, requests, finishes := map[], {}, map[], map[], {}, map[], [];
    }

    method Superseded(stream: Stream, seqNo: nat) returns (yes: bool)
      ensures yes == SupersededAt(jobs, stream, seqNo)
    {
      yes := exists k :: k in jobs && jobs[k].stream == stream && jobs[k].seqNo > seqNo && jobs[k].supersedes;
    }

    /** Advances the cursor of an ordered stream, or says why the event is not next. */
    method TakeTurn(i: Intent) returns (r: Result<map<Stream, nat>>)
      ensures r == AdvanceCursor(cursors, i)
    {
      if i.stream.PaymentStream? {
        return Ok(cursors);
      }
      if i.stream !in cursors {
        if i.seqNo == 0 { return Err(Conflict); }
        return if i.seqNo != 1 then Err(Gap) else Ok(cursors[i.stream := 1]);
      }
      var last := cursors[i.stream];
      if i.seqNo == last + 1 {
        return Ok(cursors[i.stream := i.seqNo]);
      }
      return if i.seqNo > last + 1 then Err(Gap) else Err(Conflict);
    }

    method RecordEvent(event: EventId, hash: nat, s: Source, id: JobId, dedupe: nat)
      requires Valid()
      modifies this
      ensures Valid() && State() == Next(old(State()), Record(event, hash, s, id, dedupe))
      ensures exists a :: RecordEffect(old(State()), event, hash, s, id, dedupe, a) && State() == Committed(old(State()), a)
    {
      ghost var before := State();
      RecordSteps(event, hash, s, id, dedupe);
      RecordHas(before, event, hash, s, id, dedupe);
      NextInv(before, Record(event, hash, s, id, dedupe));
    }

    method RecordSteps(event: EventId, hash: nat, s: Source, id: JobId, dedupe: nat)
      modifies this
      ensures State() == Next(old(State()), Record(event, hash, s, id, dedupe))
    {
      var i := IntentOf(s);
      if i.seqNo < 1 || event in inbox {
        return;
      }
      var turn := TakeTurn(i);
      if turn.Err? || KeyOf(s) in keys || id in jobs {
        return;
      }
      var inserted := PlaceJob(i, id, dedupe);
      cursors := turn.value;
      inbox, keys := inbox[event := hash], keys + {KeyOf(s)};
      jobs := inserted;
      if i.supersedes {
        jobs := map k | k in jobs :: Suppress(jobs[k], i);
      }
    }

    /** The job rows with the new job, unless its business key is already there. */
    method PlaceJob(i: Intent, id: JobId, dedupe: nat) returns (placed: map<JobId, Job>)
      ensures placed == InsertJob(jobs, id, i, dedupe)
    {
      var status := Pending;
      if i.covered {
        status := Suppressed;
      } else {
        var superseded := Superseded(i.stream, i.seqNo);
        if superseded { status := Suppressed; }
      }
      if exists k :: k in jobs && jobs[k].dedupe == dedupe {
        return jobs;
      }
      return jobs[id := Job(i.stream, i.seqNo, i.supersedes, status, 0, None, dedupe)];
    }

    method ClaimJob(id: JobId, claim: ClaimId) returns (claimed: bool)
      requires Valid()
      modifies this
      ensures Valid() && State() == Next(old(State()), Claim(id, claim))
      ensures claimed <==> MayClaim(old(State()), id) && claim !in old(used)
      ensures exists a :: ClaimEffect(old(State()), id, claim, a) && State() == Committed(old(State()), a)
    {
      ClaimHas(State(), id, claim);
      ghost var before := State();
      if !Claimable(jobs, id) || claim in used {
        return false;
      }
      var j := jobs[id].(status := Processing, attempts := jobs[id].attempts + 1, claim := Some(claim));
      jobs := jobs[id := j];
      used := used + {claim};
      assert Notification.ClaimJob(before, id, claim) == Ok(State());
      ClaimInv(before, id, claim);
      return true;
    }

    method FinishClaim(id: JobId, claim: ClaimId, wanted: Status) returns (ok: bool)
      requires Valid() && Closing(wanted)
      modifies this
      ensures Valid() && State() == Next(old(State()), FinishJob(id, claim, wanted))
      ensures !ok ==> State() == old(State())
      ensures exists a :: FinishEffect(old(State()), id, claim, wanted, a) && ok == a.Ok? && State() == Committed(old(State()), a)
    {
      FinishHas(State(), id, claim, wanted);
      NextInv(State(), FinishJob(id, claim, wanted));
      if id !in jobs || jobs[id].status != Processing || jobs[id].claim != Some(claim) {
        return false;
      }
      var j := jobs[id];
      var status := wanted;
      if status == Retry || status == PermanentlyFailed {
        var superseded := Superseded(j.stream, j.seqNo);
        if superseded { status := Suppressed; }
      }
      jobs := jobs[id := j.(status := status, claim := None)];
      finishes := finishes + [Finish(id, j.stream, j.seqNo, claim, status)];
      return true;
    }

    method RequestRetry(id: JobId, key: nat) returns (accepted: bool)
      requires Valid()
      modifies this
      ensures Valid() && State() == Next(old(State()), ManualRetry(id, key))
      ensures exists a :: RetryEffect(old(State()), id, key, a) && accepted == a.Ok? && State() == Committed(old(State()), a)
    {
      RetryHas(State(), id, key);
      NextInv(State(), ManualRetry(id, key));
      if key in requests {
        return requests[key] == id;
      }
      if id !in jobs || (jobs[id].status != PermanentlyFailed && jobs[id].status != Retry) {
        return false;
      }
      var j := jobs[id];
      if exists k :: k in jobs && jobs[k].stream == j.stream && jobs[k].seqNo > j.seqNo {
        return false;
      }
      jobs := jobs[id := j.(status := Pending, attempts := 0, claim := None)];
      requests := requests[key := id];
      return true;
    }
  }
}
