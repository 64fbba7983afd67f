/** Delivery order and supersession hold in every run of the notification store. */
module NotificationSafety {
  import opened Common
  import opened Notification

  // ---- recording an event -----------------------------------------------------------------------------

  function NewJob(r: Rows, i: Intent, dedupe: nat): Job {
    Job(i.stream, i.seqNo, i.supersedes,
        if i.covered || SupersededAt(r.jobs, i.stream, i.seqNo) then Suppressed else Pending, 0, None, dedupe)
  }

  /** In an ordered stream the new job comes last; in a payment stream a late one is suppressed. */
  lemma NewJobPairs(r: Rows, i: Intent, dedupe: nat, k: JobId)
    requires JobsOk(r) && k in r.jobs && AdvanceCursor(r.cursors, i).Ok?
    requires i.stream.PaymentStream? ==> 1 <= i.seqNo <= 2 && (i.supersedes <==> i.seqNo == 2)
    ensures PairOk(NewJob(r, i, dedupe), r.jobs[k])
    ensures Lower(r.jobs[k], NewJob(r, i, dedupe)) ==> !HadTurn(NewJob(r, i, dedupe).status)
  {
    assert PositionOk(r, r.jobs[k]);
  }

  lemma IntentShape(s: Source)
    ensures IntentOf(s).stream.PaymentStream? ==>
              1 <= IntentOf(s).seqNo <= 2 && (IntentOf(s).supersedes <==> IntentOf(s).seqNo == 2)
  {
  }

  /** Supersession only suppresses, so it never breaks the barrier. */
  lemma SuppressPair(low: Job, high: Job, i: Intent)
    requires PairOk(low, high)
    ensures PairOk(Suppress(low, i), Suppress(high, i))
  {
  }

  /** Against the superseding job itself the lower jobs are now closed. */
  lemma SuppressBelow(low: Job, n: Job, i: Intent)
    requires n.stream == i.stream && n.seqNo == i.seqNo && !HadTurn(n.status)
    ensures PairOk(Suppress(low, i), Suppress(n, i))
  {
  }

  lemma RecordBarrier(r: Rows, event: EventId, hash: nat, s: Source, id: JobId, dedupe: nat)
    requires BarrierOk(r.jobs) && JobsOk(r) && RecordEvent(r, event, hash, s, id, dedupe).Ok?
    ensures BarrierOk(RecordEvent(r, event, hash, s, id, dedupe).value.jobs)
  {
    var jobs' := RecordEvent(r, event, hash, s, id, dedupe).value.jobs;
    var i := IntentOf(s);
    IntentShape(s);
    if event !in r.inbox {
      var inserted := InsertJob(r.jobs, id, i, dedupe);
      forall x, y | x in jobs' && y in jobs' ensures PairOk(jobs'[x], jobs'[y]) {
        if x in r.jobs && y in r.jobs {
          assert PairOk(r.jobs[x], r.jobs[y]);
          SuppressPair(r.jobs[x], r.jobs[y], i);
        } else if x in r.jobs {
          NewJobPairs(r, i, dedupe, x);
          SuppressBelow(r.jobs[x], inserted[y], i);
        } else if y in r.jobs {
          NewJobPairs(r, i, dedupe, y);
          SuppressPair(inserted[x], r.jobs[y], i);
        }
      }
    }
  }

  lemma RecordJobs(r: Rows, event: EventId, hash: nat, s: Source, id: JobId, dedupe: nat)
    requires JobsOk(r) && RecordEvent(r, event, hash, s, id, dedupe).Ok?
    ensures JobsOk(RecordEvent(r, event, hash, s, id, dedupe).value)
  {
    var r' := RecordEvent(r, event, hash, s, id, dedupe).value;
    IntentShape(s);
    if event !in r.inbox {
      forall k | k in r'.jobs ensures PositionOk(r', r'.jobs[k]) && ClaimOk(r', k) {
        if k in r.jobs { assert PositionOk(r, r.jobs[k]) && ClaimOk(r, k); }
        forall x | x in r'.jobs && r'.jobs[x].claim.Some? ensures x in r.jobs && r.jobs[x].claim == r'.jobs[x].claim {
          if x in r.jobs { assert ClaimOk(r, x); }
        }
      }
    }
  }

  /** Finished claims only care about deliveries and about which claims are held. */
  lemma FinishesFrame(r: Rows, r': Rows)
    requires FinishesOk(r) && r'.finishes == r.finishes && r.used <= r'.used
    requires forall k | k in r.jobs ::
               && k in r'.jobs && r'.jobs[k].stream == r.jobs[k].stream && r'.jobs[k].seqNo == r.jobs[k].seqNo
               && (r.jobs[k].status == Delivered ==> r'.jobs[k].status == Delivered)
    requires forall k | k in r'.jobs && r'.jobs[k].claim.Some? ::
               (k in r.jobs && r'.jobs[k].claim == r.jobs[k].claim) || r'.jobs[k].claim.value !in r.used
    ensures FinishesOk(r')
  {
    forall i | 0 <= i < |r'.finishes| ensures FinishOk(r', r'.finishes[i]) {
      assert FinishOk(r, r.finishes[i]);
    }
  }

  lemma RecordInv(r: Rows, event: EventId, hash: nat, s: Source, id: JobId, dedupe: nat)
    requires Inv(r) && RecordEvent(r, event, hash, s, id, dedupe).Ok?
    ensures Inv(RecordEvent(r, event, hash, s, id, dedupe).value)
  {
    RecordBarrier(r, event, hash, s, id, dedupe);
    RecordJobs(r, event, hash, s, id, dedupe);
    RecordFinishes(r, event, hash, s, id, dedupe);
  }

  lemma RecordFinishes(r: Rows, event: EventId, hash: nat, s: Source, id: JobId, dedupe: nat)
    requires FinishesOk(r) && RecordEvent(r, event, hash, s, id, dedupe).Ok?
    ensures FinishesOk(RecordEvent(r, event, hash, s, id, dedupe).value)
  {
    FinishesFrame(r, RecordEvent(r, event, hash, s, id, dedupe).value);
  }

  // ---- claims and retries -------------------------------------------------------------------------------

  /** Replacing one job keeps the barrier when it fits with every other. */
  lemma OneJobBarrier(jobs: map<JobId, Job>, id: JobId, j: Job)
    requires BarrierOk(jobs) && id in jobs
    requires forall k | k in jobs && k != id :: PairOk(jobs[k], j) && PairOk(j, jobs[k])
    ensures BarrierOk(jobs[id := j])
  {
    forall x, y | x in jobs && y in jobs ensures PairOk(jobs[id := j][x], jobs[id := j][y]) {
      assert PairOk(jobs[x], jobs[y]);
    }
  }

  lemma OneJobJobs(r: Rows, id: JobId, j: Job, used: set<ClaimId>)
    requires JobsOk(r) && id in r.jobs && r.used <= used
    requires j.stream == r.jobs[id].stream && j.seqNo == r.jobs[id].seqNo && j.supersedes == r.jobs[id].supersedes
    requires match j.claim
             case None => j.status != Processing
             case Some(c) => j.status == Processing && c in used && c !in r.used
    ensures JobsOk(r.(jobs := r.jobs[id := j], used := used))
  {
    var r' := r.(jobs := r.jobs[id := j], used := used);
    forall k | k in r'.jobs ensures PositionOk(r', r'.jobs[k]) && ClaimOk(r', k) {
      assert PositionOk(r, r.jobs[k]) && ClaimOk(r, k);
      forall x | x in r'.jobs && r'.jobs[x].claim == r'.jobs[k].claim && r'.jobs[k].claim.Some? ensures x == k {
        assert ClaimOk(r, x);
      }
    }
  }

  lemma ClaimInv(r: Rows, id: JobId, claim: ClaimId)
    requires Inv(r) && ClaimJob(r, id, claim).Ok?
    ensures Inv(ClaimJob(r, id, claim).value)
  {
    var r' := ClaimJob(r, id, claim).value;
    var j := r'.jobs[id];
    forall k | k in r.jobs && k != id ensures PairOk(r.jobs[k], j) && PairOk(j, r.jobs[k]) {
      assert PairOk(r.jobs[k], r.jobs[id]) && PairOk(r.jobs[id], r.jobs[k]);
    }
    OneJobBarrier(r.jobs, id, j);
    OneJobJobs(r, id, j, r'.used);
    FinishesFrame(r, r');
  }

  lemma RetryInv(r: Rows, id: JobId, key: nat)
    requires Inv(r) && RequestRetry(r, id, key).Ok?
    ensures Inv(RequestRetry(r, id, key).value)
  {
    if key !in r.requests {
      var r' := RequestRetry(r, id, key).value;
      var j := r'.jobs[id];
      forall k | k in r.jobs && k != id ensures PairOk(r.jobs[k], j) && PairOk(j, r.jobs[k]) {
        assert PairOk(r.jobs[k], r.jobs[id]) && PairOk(r.jobs[id], r.jobs[k]);
      }
      OneJobBarrier(r.jobs, id, j);
      OneJobJobs(r, id, j, r.used);
      FinishesFrame(r, r');
      assert JobsOk(r');
    }
  }

  // ---- closing a claim ------------------------------------------------------------------------------------

  lemma FinishBarrier(r: Rows, id: JobId, claim: ClaimId, wanted: Status)
    requires Inv(r) && Closing(wanted) && FinishClaim(r, id, claim, wanted).Ok?
    ensures BarrierOk(FinishClaim(r, id, claim, wanted).value.jobs) && JobsOk(FinishClaim(r, id, claim, wanted).value)
  {
    var r' := FinishClaim(r, id, claim, wanted).value;
    var j := r'.jobs[id];
    forall k | k in r.jobs && k != id ensures PairOk(r.jobs[k], j) && PairOk(j, r.jobs[k]) {
      assert PairOk(r.jobs[k], r.jobs[id]) && PairOk(r.jobs[id], r.jobs[k]);
    }
    OneJobBarrier(r.jobs, id, j);
    OneJobJobs(r, id, j, r.used);
    assert forall k | k in r'.jobs :: ClaimOk(r.(jobs := r'.jobs), k) ==> ClaimOk(r', k);
  }

  /** A delivery closes at or after every earlier delivery of its stream. */
  lemma DeliveredInOrder(r: Rows, id: JobId, n: nat)
    requires Inv(r) && id in r.jobs && r.jobs[id].status == Processing && n < |r.finishes|
    requires r.finishes[n].stream == r.jobs[id].stream && r.finishes[n].status == Delivered
    ensures r.finishes[n].seqNo <= r.jobs[id].seqNo
  {
    var f := r.finishes[n];
    assert FinishOk(r, f);
    assert PairOk(r.jobs[id], r.jobs[f.job]);
  }

  lemma FinishInv(r: Rows, id: JobId, claim: ClaimId, wanted: Status)
    requires Inv(r) && Closing(wanted) && FinishClaim(r, id, claim, wanted).Ok?
    ensures Inv(FinishClaim(r, id, claim, wanted).value)
  {
    FinishBarrier(r, id, claim, wanted);
    var r' := FinishClaim(r, id, claim, wanted).value;
    var n := |r.finishes|;
    assert ClaimOk(r, id);
    forall i | 0 <= i < |r'.finishes| ensures FinishOk(r', r'.finishes[i]) && (i < n ==> r'.finishes[i].claim != claim) {
      if i < n { assert FinishOk(r, r.finishes[i]); }
    }
    forall i | 0 <= i < n && r'.finishes[i].stream == r'.finishes[n].stream && r'.finishes[i].status == Delivered
      ensures r'.finishes[i].seqNo <= r'.finishes[n].seqNo
    {
      DeliveredInOrder(r, id, i);
    }
  }

  // ---- every run ------------------------------------------------------------------------------------------

  lemma NextInv(r: Rows, c: Call)
    requires Inv(r)
    ensures Inv(Next(r, c))
  {
    if Attempt(r, c).Ok? {
      match c
      case Record(event, hash, source, id, dedupe) => RecordInv(r, event, hash, source, id, dedupe);
      case Claim(id, claim) => ClaimInv(r, id, claim);
      case FinishJob(id, claim, wanted) => FinishInv(r, id, claim, wanted);
      case ManualRetry(id, key) => RetryInv(r, id, key);
    }
  }

  lemma {:induction false} RunInv(calls: seq<Call>)
    ensures Inv(Run(calls))
  {
    if calls != [] {
      RunInv(calls[..|calls| - 1]);
      NextInv(Run(calls[..|calls| - 1]), calls[|calls| - 1]);
    }
  }

  /** While a job is processing, no lower job of its stream is pending, waiting or processing. */
  lemma ProcessingInOrder(calls: seq<Call>, low: JobId, high: JobId)
    requires var jobs := Run(calls).jobs;
             low in jobs && high in jobs && Lower(jobs[low], jobs[high]) && jobs[high].status == Processing
    ensures !Open(Run(calls).jobs[low].status)
  {
    RunInv(calls);
    assert PairOk(Run(calls).jobs[low], Run(calls).jobs[high]);
  }

  // ---- closings -----------------------------------------------------------------------------------------

  predicate ClosedBelow(r: Rows, f: Finish, k: JobId) {
    k in r.jobs && r.jobs[k].stream == f.stream && r.jobs[k].seqNo < f.seqNo ==> !Open(r.jobs[k].status)
  }

  /** Once a claim of a job was closed, however it ended, no lower job of its stream is open again. */
  predicate ClosingsOk(r: Rows) {
    && (forall i, k | 0 <= i < |r.finishes| && k in r.jobs :: ClosedBelow(r, r.finishes[i], k))
    && (forall i, j | 0 <= i < j < |r.finishes| && r.finishes[i].stream == r.finishes[j].stream ::
          r.finishes[i].seqNo <= r.finishes[j].seqNo)
  }

  /** A new job is suppressed when it comes below a job that was already claimed. */
  lemma NewJobClosed(r: Rows, i: Intent, dedupe: nat, f: Finish)
    requires JobsOk(r) && FinishOk(r, f) && AdvanceCursor(r.cursors, i).Ok?
    requires i.stream.PaymentStream? ==> 1 <= i.seqNo <= 2 && (i.supersedes <==> i.seqNo == 2)
    requires i.stream == f.stream && i.seqNo < f.seqNo
    ensures NewJob(r, i, dedupe).status == Suppressed
  {
    assert PositionOk(r, r.jobs[f.job]);
  }

  lemma RecordClosings(r: Rows, event: EventId, hash: nat, s: Source, id: JobId, dedupe: nat)
    requires Inv(r) && ClosingsOk(r) && RecordEvent(r, event, hash, s, id, dedupe).Ok?
    ensures ClosingsOk(RecordEvent(r, event, hash, s, id, dedupe).value)
  {
    var r' := RecordEvent(r, event, hash, s, id, dedupe).value;
    var i := IntentOf(s);
    IntentShape(s);
    if event !in r.inbox {
      forall n, k | 0 <= n < |r'.finishes| && k in r'.jobs ensures ClosedBelow(r', r'.finishes[n], k) {
        var f := r.finishes[n];
        if k in r.jobs {
          assert ClosedBelow(r, f, k);
        } else if i.stream == f.stream && i.seqNo < f.seqNo {
          assert FinishOk(r, f);
          NewJobClosed(r, i, dedupe, f);
        }
      }
    }
  }

  /** A job whose status changes to or stays open was not below a closed claim. */
  lemma OneJobClosings(r: Rows, id: JobId, j: Job)
    requires ClosingsOk(r) && id in r.jobs && j.stream == r.jobs[id].stream && j.seqNo == r.jobs[id].seqNo
    requires Open(j.status) && !Open(r.jobs[id].status) ==>
               forall i | 0 <= i < |r.finishes| && r.finishes[i].stream == j.stream :: r.finishes[i].seqNo <= j.seqNo
    ensures ClosingsOk(r.(jobs := r.jobs[id := j]))
  {
    var r' := r.(jobs := r.jobs[id := j]);
    forall i, k | 0 <= i < |r'.finishes| && k in r'.jobs ensures ClosedBelow(r', r'.finishes[i], k) {
      assert ClosedBelow(r, r.finishes[i], k);
    }
  }

  lemma ClosingsFrame(r: Rows, r': Rows)
    requires ClosingsOk(r) && r'.jobs == r.jobs && r'.finishes == r.finishes
    ensures ClosingsOk(r')
  {
    forall i, k | 0 <= i < |r'.finishes| && k in r'.jobs ensures ClosedBelow(r', r'.finishes[i], k) {
      assert ClosedBelow(r, r.finishes[i], k);
    }
  }

  lemma RetryClosings(r: Rows, id: JobId, key: nat)
    requires Inv(r) && ClosingsOk(r) && RequestRetry(r, id, key).Ok?
    ensures ClosingsOk(RequestRetry(r, id, key).value)
  {
    if key !in r.requests {
      var r' := RequestRetry(r, id, key).value;
      forall i | 0 <= i < |r.finishes| && r.finishes[i].stream == r.jobs[id].stream
        ensures r.finishes[i].seqNo <= r.jobs[id].seqNo
      {
        assert FinishOk(r, r.finishes[i]);
      }
      OneJobClosings(r, id, r'.jobs[id]);
      ClosingsFrame(r.(jobs := r'.jobs), r');
    }
  }

  lemma FinishClosings(r: Rows, id: JobId, claim: ClaimId, wanted: Status)
    requires Inv(r) && ClosingsOk(r) && Closing(wanted) && FinishClaim(r, id, claim, wanted).Ok?
    ensures ClosingsOk(FinishClaim(r, id, claim, wanted).value)
  {
    var r' := FinishClaim(r, id, claim, wanted).value;
    var n := |r.finishes|;
    forall i, k | 0 <= i < |r'.finishes| && k in r'.jobs ensures ClosedBelow(r', r'.finishes[i], k) {
      if i < n { assert ClosedBelow(r, r.finishes[i], k); } else { assert PairOk(r.jobs[k], r.jobs[id]); }
    }
    forall i | 0 <= i < n && r.finishes[i].stream == r.jobs[id].stream ensures r.finishes[i].seqNo <= r.jobs[id].seqNo {
      assert ClosedBelow(r, r.finishes[i], id);
    }
  }

  lemma NextClosings(r: Rows, c: Call)
    requires Inv(r) && ClosingsOk(r)
    ensures ClosingsOk(Next(r, c))
  {
    if Attempt(r, c).Ok? {
      match c
      case Record(event, hash, source, id, dedupe) => RecordClosings(r, event, hash, source, id, dedupe);
      case Claim(id, claim) =>
        OneJobClosings(r, id, Next(r, c).jobs[id]);
        ClosingsFrame(r.(jobs := Next(r, c).jobs), Next(r, c));
      case FinishJob(id, claim, wanted) => FinishClosings(r, id, claim, wanted);
      case ManualRetry(id, key) => RetryClosings(r, id, key);
    }
  }

  lemma {:induction false} RunClosings(calls: seq<Call>)
    ensures ClosingsOk(Run(calls))
  {
    if calls != [] {
      RunClosings(calls[..|calls| - 1]);
      RunInv(calls[..|calls| - 1]);
      NextClosings(Run(calls[..|calls| - 1]), calls[|calls| - 1]);
    }
  }

  /** All claims of one stream, however they end, close in non-decreasing sequence, each once. */
  lemma ClosingsInOrder(calls: seq<Call>, i: nat, j: nat)
    requires i < j < |Run(calls).finishes|
    ensures var f := Run(calls).finishes;
            f[i].claim != f[j].claim && (f[i].stream == f[j].stream ==> f[i].seqNo <= f[j].seqNo)
  {
    RunInv(calls);
    RunClosings(calls);
  }

  lemma {:induction false} JobsStay(calls: seq<Call>, more: seq<Call>, id: JobId)
    requires id in Run(calls).jobs
    ensures var a, b := Run(calls).jobs, Run(calls + more).jobs;
            id in b && b[id].stream == a[id].stream && b[id].seqNo == a[id].seqNo && b[id].supersedes == a[id].supersedes
  {
    if more == [] {
      assert calls + more == calls;
    } else {
      JobsStay(calls, more[..|more| - 1], id);
      assert (calls + more)[..|calls + more| - 1] == calls + more[..|more| - 1];
      JobStays(Run(calls + more[..|more| - 1]), more[|more| - 1], id);
    }
  }

  /** No call removes a job or moves it within its stream. */
  lemma JobStays(r: Rows, c: Call, id: JobId)
    requires id in r.jobs
    ensures var jobs := Next(r, c).jobs;
            && id in jobs && jobs[id].stream == r.jobs[id].stream && jobs[id].seqNo == r.jobs[id].seqNo
            && jobs[id].supersedes == r.jobs[id].supersedes
  {
  }

  /**
   Once a superseding job is recorded, no lower job of its stream is ever pending or waiting
   for a retry again, whatever is recorded, re-claimed, closed or retried afterwards.
   */
  lemma SupersededForever(calls: seq<Call>, more: seq<Call>, low: JobId, high: JobId)
    requires high in Run(calls).jobs && Run(calls).jobs[high].supersedes
    requires low in Run(calls + more).jobs && Lower(Run(calls + more).jobs[low], Run(calls).jobs[high])
    ensures Run(calls + more).jobs[low].status != Pending && Run(calls + more).jobs[low].status != Retry
  {
    JobsStay(calls, more, high);
    RunInv(calls + more);
    assert PairOk(Run(calls + more).jobs[low], Run(calls + more).jobs[high]);
  }

  // ---- claims that were given up ----------------------------------------------------------------------

  /** The claim was given out and no job holds it any more. */
  predicate GivenUp(r: Rows, claim: ClaimId) {
    claim in r.used && forall k | k in r.jobs :: r.jobs[k].claim != Some(claim)
  }

  lemma GivenUpStays(r: Rows, c: Call, claim: ClaimId)
    requires GivenUp(r, claim)
    ensures GivenUp(Next(r, c), claim)
  {
  }

  /**
   A worker whose claim was closed, reset or taken over can never close the job again: in every
   continuation no job holds the claim, and closing it is refused and changes nothing.
   */
  lemma {:induction false} GivenUpForever(calls: seq<Call>, more: seq<Call>, id: JobId, claim: ClaimId, wanted: Status)
    requires GivenUp(Run(calls), claim)
    ensures var r := Run(calls + more);
            GivenUp(r, claim) && Attempt(r, FinishJob(id, claim, wanted)).Err? && Next(r, FinishJob(id, claim, wanted)) == r
  {
    if more == [] {
      assert calls + more == calls;
    } else {
      GivenUpForever(calls, more[..|more| - 1], id, claim, wanted);
      assert (calls + more)[..|calls + more| - 1] == calls + more[..|more| - 1];
      GivenUpStays(Run(calls + more[..|more| - 1]), more[|more| - 1], claim);
    }
  }

  // ---- events of one stream -------------------------------------------------------------------------------

  function CursorOf(r: Rows, stream: Stream): nat {
    if stream in r.cursors then r.cursors[stream] else 0
  }

  /** The call records a new event of this stream. */
  predicate Accepts(r: Rows, c: Call, stream: Stream) {
    c.Record? && IntentOf(c.source).stream == stream && c.event !in r.inbox && Attempt(r, c).Ok?
  }

  /** Sequence numbers of the events recorded for a stream, in the order they were recorded. */
  function Recorded(calls: seq<Call>, stream: Stream): seq<nat> {
    if calls == [] then []
    else
      var init, c := calls[..|calls| - 1], calls[|calls| - 1];
      Recorded(init, stream) + (if Accepts(Run(init), c, stream) then [IntentOf(c.source).seqNo] else [])
  }

  lemma CursorStep(r: Rows, c: Call, stream: Stream)
    requires !stream.PaymentStream?
    ensures Accepts(r, c, stream) ==>
              CursorOf(Next(r, c), stream) == IntentOf(c.source).seqNo == CursorOf(r, stream) + 1
    ensures !Accepts(r, c, stream) ==> CursorOf(Next(r, c), stream) == CursorOf(r, stream)
  {
  }

  /** In every run the events recorded for an ordered stream are exactly 1, ..., cursor, in order. */
  lemma {:induction false} RecordedInOrder(calls: seq<Call>, stream: Stream)
    requires !stream.PaymentStream?
    ensures |Recorded(calls, stream)| == CursorOf(Run(calls), stream)
    ensures forall i | 0 <= i < |Recorded(calls, stream)| :: Recorded(calls, stream)[i] == i + 1
  {
    if calls != [] {
      RecordedInOrder(calls[..|calls| - 1], stream);
      CursorStep(Run(calls[..|calls| - 1]), calls[|calls| - 1], stream);
    }
  }

  lemma InboxStays(r: Rows, c: Call, event: EventId)
    requires event in r.inbox
    ensures event in Next(r, c).inbox && Next(r, c).inbox[event] == r.inbox[event]
  {
  }

  lemma {:induction false} InboxKept(calls: seq<Call>, more: seq<Call>, event: EventId)
    requires event in Run(calls).inbox
    ensures event in Run(calls + more).inbox && Run(calls + more).inbox[event] == Run(calls).inbox[event]
  {
    if more == [] {
      assert calls + more == calls;
    } else {
      InboxKept(calls, more[..|more| - 1], event);
      assert (calls + more)[..|calls + more| - 1] == calls + more[..|more| - 1];
      InboxStays(Run(calls + more[..|more| - 1]), more[|more| - 1], event);
    }
  }

  /**
   Once an event was accepted, delivering it again succeeds and changes nothing in every later
   state, whatever new job id is drawn for it; under another payload it is refused.
   */
  lemma AcceptedOnce(calls: seq<Call>, c: Call, more: seq<Call>, again: Call)
    requires c.Record? && Attempt(Run(calls), c).Ok? && again.Record? && again.event == c.event && again.source == c.source
    ensures var r := Run(calls + [c] + more);
            Attempt(r, again) == if again.hash == c.hash then Ok(r) else Err(Conflict)
  {
    assert (calls + [c])[..|calls|] == calls;
    InboxKept(calls + [c], more, c.event);
  }

  /** How often an event of this payment, refund or position was recorded. */
  function TimesRecorded(calls: seq<Call>, key: Key): nat {
    if calls == [] then 0
    else
      var init, c := calls[..|calls| - 1], calls[|calls| - 1];
      TimesRecorded(init, key)
      + (if c.Record? && KeyOf(c.source) == key && c.event !in Run(init).inbox && Attempt(Run(init), c).Ok? then 1 else 0)
  }

  /** In every run, under whatever event ids, each payment, refund and position is recorded at most once. */
  lemma {:induction false} KeyRecordedOnce(calls: seq<Call>, key: Key)
    ensures TimesRecorded(calls, key) == (if key in Run(calls).keys then 1 else 0)
  {
    if calls != [] {
      KeyRecordedOnce(calls[..|calls| - 1], key);
      KeysStep(Run(calls[..|calls| - 1]), calls[|calls| - 1]);
    }
  }

  lemma KeysStep(r: Rows, c: Call)
    ensures if c.Record? && c.event !in r.inbox && Attempt(r, c).Ok?
            then KeyOf(c.source) !in r.keys && Next(r, c).keys == r.keys + {KeyOf(c.source)}
            else Next(r, c).keys == r.keys
  {
  }
}
