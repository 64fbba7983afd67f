/**
 What each notification transaction leaves of the rows, stated field by field: when it is
 refused, what changes, and everything that stays.
 */
module NotificationEffects {
  import opened Common
  import opened Notification

  /** A payment is announced first and refunded second; the other streams follow their aggregate. */
  lemma IntentMeans(s: Source)
    ensures var i := IntentOf(s);
            && (i.supersedes <==> s.RefundSucceeded? || (s.SubscriptionEvent? && s.terminal) || (s.AccessEvent? && s.terminal))
            && (i.covered <==> (s.SubscriptionEvent? && s.covered) || (s.AccessEvent? && s.covered))
            && (s.PaymentSucceeded? ==> i.stream == PaymentStream(s.payment) && i.seqNo == 1)
            && (s.RefundSucceeded? ==> i.stream == PaymentStream(s.payment) && i.seqNo == 2)
            && (s.SubscriptionEvent? ==> i.stream == SubscriptionStream(s.subscription) && i.seqNo == s.seqNo)
            && (s.AccessEvent? ==> i.stream == AccessStream(s.credential) && i.seqNo == s.seqNo)
  {
  }

  /** Two events share an inbox key when they are of one payment, of one refund, or of one position of a stream. */
  lemma KeyMeans(s: Source, t: Source)
    ensures KeyOf(s) == KeyOf(t) <==>
            || (s.PaymentSucceeded? && t.PaymentSucceeded? && s.payment == t.payment)
            || (s.RefundSucceeded? && t.RefundSucceeded? && s.refund == t.refund)
            || (s.SubscriptionEvent? && t.SubscriptionEvent? && s.subscription == t.subscription && s.seqNo == t.seqNo)
            || (s.AccessEvent? && t.AccessEvent? && s.credential == t.credential && s.seqNo == t.seqNo)
  {
  }

  /** A superseding job with a higher position is already in the stream. */
  ghost predicate Overtaken(jobs: map<JobId, Job>, stream: Stream, seqNo: nat) {
    exists k :: k in jobs && jobs[k].stream == stream && jobs[k].supersedes && seqNo < jobs[k].seqNo
  }

  ghost predicate KnownBusiness(jobs: map<JobId, Job>, dedupe: nat) {
    exists k :: k in jobs && jobs[k].dedupe == dedupe
  }

  function LastOf(r: Rows, stream: Stream): nat {
    if stream in r.cursors then r.cursors[stream] else 0
  }

  /**
   The new job is pending, unless the event is covered by another notification or overtaken by one
   that supersedes it; a superseding event suppresses the waiting jobs below it, and no other job
   changes.
   */
  ghost predicate JobsEffect(r: Rows, i: Intent, id: JobId, dedupe: nat, jobs: map<JobId, Job>) {
    && jobs.Keys == r.jobs.Keys + (if KnownBusiness(r.jobs, dedupe) then {} else {id})
    && (!KnownBusiness(r.jobs, dedupe) ==>
          jobs[id] == Job(i.stream, i.seqNo, i.supersedes,
                          if i.covered || Overtaken(r.jobs, i.stream, i.seqNo) then Suppressed else Pending, 0, None, dedupe))
    && forall k | k in r.jobs ::
         jobs[k] == if i.supersedes && r.jobs[k].stream == i.stream && r.jobs[k].seqNo < i.seqNo && r.jobs[k].status in {Pending, Retry}
                    then r.jobs[k].(status := Suppressed, claim := None) else r.jobs[k]
  }

  ghost predicate RecordEffect(r: Rows, event: EventId, hash: nat, s: Source, id: JobId, dedupe: nat, a: Result<Rows>) {
    var i := IntentOf(s);
    var last := LastOf(r, i.stream);
    if i.seqNo < 1 then a == Err(Conflict)
    else if event in r.inbox then a == if r.inbox[event] == hash then Ok(r) else Err(Conflict)
    else if !i.stream.PaymentStream? && i.seqNo > last + 1 then a == Err(Gap)
    else if !i.stream.PaymentStream? && i.seqNo <= last then a == Err(Conflict)
    else if KeyOf(s) in r.keys then a == Err(Conflict)
    else if id in r.jobs then a == Err(Internal)
    else
      && a.Ok? && JobsEffect(r, i, id, dedupe, a.value.jobs)
      && a.value == r.(inbox := r.inbox[event := hash], keys := r.keys + {KeyOf(s)}, jobs := a.value.jobs,
                       cursors := if i.stream.PaymentStream? then r.cursors else r.cursors[i.stream := i.seqNo])
  }

  lemma RecordHas(r: Rows, event: EventId, hash: nat, s: Source, id: JobId, dedupe: nat)
    ensures RecordEffect(r, event, hash, s, id, dedupe, RecordEvent(r, event, hash, s, id, dedupe))
  {
    var i := IntentOf(s);
    if id !in r.jobs { JobsHave(r, i, id, dedupe); }
  }

  lemma JobsHave(r: Rows, i: Intent, id: JobId, dedupe: nat)
    requires id !in r.jobs
    ensures var inserted := InsertJob(r.jobs, id, i, dedupe);
            JobsEffect(r, i, id, dedupe, if i.supersedes then map k | k in inserted :: Suppress(inserted[k], i) else inserted)
  {
    if k :| k in r.jobs && r.jobs[k].stream == i.stream && r.jobs[k].seqNo > i.seqNo && r.jobs[k].supersedes {
      assert Overtaken(r.jobs, i.stream, i.seqNo) && SupersededAt(r.jobs, i.stream, i.seqNo);
    }
    if KnownBusiness(r.jobs, dedupe) { assert InsertJob(r.jobs, id, i, dedupe) == r.jobs; }
  }

  /** The job is pending, waiting or processing, and every lower one of its stream is closed. */
  ghost predicate MayClaim(r: Rows, id: JobId) {
    && id in r.jobs && r.jobs[id].status in {Pending, Retry, Processing}
    && forall k | k in r.jobs && r.jobs[k].stream == r.jobs[id].stream && r.jobs[k].seqNo < r.jobs[id].seqNo ::
         r.jobs[k].status in {Delivered, PermanentlyFailed, Suppressed}
  }

  ghost predicate ClaimEffect(r: Rows, id: JobId, claim: ClaimId, a: Result<Rows>) {
    && (a.Ok? <==> MayClaim(r, id) && claim !in r.used)
    && (a.Ok? ==>
          a.value == r.(used := r.used + {claim},
                        jobs := r.jobs[id := r.jobs[id].(status := Processing, attempts := r.jobs[id].attempts + 1, claim := Some(claim))]))
  }

  lemma ClaimHas(r: Rows, id: JobId, claim: ClaimId)
    ensures ClaimEffect(r, id, claim, ClaimJob(r, id, claim))
  {
  }

  /** The holder closes the job as wanted; a job that was overtaken is suppressed instead of retried or failed. */
  ghost predicate FinishEffect(r: Rows, id: JobId, claim: ClaimId, wanted: Status, a: Result<Rows>) {
    && (a.Ok? <==> id in r.jobs && r.jobs[id].status == Processing && r.jobs[id].claim == Some(claim))
    && (a.Ok? ==>
          var j := r.jobs[id];
          var s := if wanted in {Retry, PermanentlyFailed} && Overtaken(r.jobs, j.stream, j.seqNo) then Suppressed else wanted;
          a.value == r.(jobs := r.jobs[id := j.(status := s, claim := None)],
                        finishes := r.finishes + [Finish(id, j.stream, j.seqNo, claim, s)]))
  }

  lemma FinishHas(r: Rows, id: JobId, claim: ClaimId, wanted: Status)
    requires Closing(wanted)
    ensures FinishEffect(r, id, claim, wanted, FinishClaim(r, id, claim, wanted))
  {
    if id in r.jobs {
      var j := r.jobs[id];
      if k :| k in r.jobs && r.jobs[k].stream == j.stream && r.jobs[k].seqNo > j.seqNo && r.jobs[k].supersedes {
        assert Overtaken(r.jobs, j.stream, j.seqNo) && SupersededAt(r.jobs, j.stream, j.seqNo);
      }
    }
  }

  /** A failed or waiting job without successor starts over, once per key. */
  ghost predicate RetryEffect(r: Rows, id: JobId, key: nat, a: Result<Rows>) {
    if key in r.requests then a == if r.requests[key] == id then Ok(r) else Err(Conflict)
    else
      && (a.Ok? <==>
            && id in r.jobs && r.jobs[id].status in {PermanentlyFailed, Retry}
            && forall k | k in r.jobs && r.jobs[k].stream == r.jobs[id].stream :: r.jobs[k].seqNo <= r.jobs[id].seqNo)
      && (a.Ok? ==>
            a.value == r.(requests := r.requests[key := id],
                          jobs := r.jobs[id := r.jobs[id].(status := Pending, attempts := 0, claim := None)]))
  }

  lemma RetryHas(r: Rows, id: JobId, key: nat)
    ensures RetryEffect(r, id, key, RequestRetry(r, id, key))
  {
  }
}
