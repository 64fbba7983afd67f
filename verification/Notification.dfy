/**
 The notification store: jobs ordered per delivery stream, superseding events, fenced claims
 and manual retries.  Every transaction is a function on the rows.
 */
module Notification {
  import opened Common

  type JobId = nat
  type ClaimId = nat

  /** Delivery streams by the aggregate that orders them. */
  datatype Stream = PaymentStream(id: nat) | SubscriptionStream(id: nat) | AccessStream(id: nat)

  datatype Status = Pending | Processing | Retry | Delivered | PermanentlyFailed | Suppressed

  datatype Job = Job(stream: Stream, seqNo: nat, supersedes: bool, status: Status,
                     attempts: nat, claim: Option<ClaimId>, dedupe: nat)

  /** Events after decoding; ordered ones carry their aggregate sequence. */
  datatype Source =
    | PaymentSucceeded(payment: nat)
    | RefundSucceeded(payment: nat, refund: nat)
    | SubscriptionEvent(subscription: nat, seqNo: nat, terminal: bool, covered: bool)
    | AccessEvent(credential: nat, seqNo: nat, terminal: bool, covered: bool)

  datatype Intent = Intent(stream: Stream, seqNo: nat, supersedes: bool, covered: bool)

  /** Which stream and position an event belongs to, and whether it ends what came before. */
  function IntentOf(s: Source): Intent {
    match s
    case PaymentSucceeded(p) => Intent(PaymentStream(p), 1, false, false)
    case RefundSucceeded(p, _) => Intent(PaymentStream(p), 2, true, false)
    case SubscriptionEvent(id, k, terminal, covered) => Intent(SubscriptionStream(id), k, terminal, covered)
    case AccessEvent(id, k, terminal, covered) => Intent(AccessStream(id), k, terminal, covered)
  }

  /** The aggregate of an event with its sequence; payments and refunds have none. */
  datatype Key = PaymentKey(payment: nat) | RefundKey(refund: nat) | PositionKey(stream: Stream, seqNo: nat)

  function KeyOf(s: Source): Key {
    match s
    case PaymentSucceeded(p) => PaymentKey(p)
    case RefundSucceeded(_, refund) => RefundKey(refund)
    case SubscriptionEvent(_, _, _, _) => PositionKey(IntentOf(s).stream, s.seqNo)
    case AccessEvent(_, _, _, _) => PositionKey(IntentOf(s).stream, s.seqNo)
  }

  /** A claim that was closed, newest last. */
  datatype Finish = Finish(job: JobId, stream: Stream, seqNo: nat, claim: ClaimId, status: Status)

  datatype Rows = Rows(
    inbox: map<EventId, nat>,         // event id to payload hash
    keys: set<Key>,                   // aggregates and sequences of the recorded events
    cursors: map<Stream, nat>,
    jobs: map<JobId, Job>,
    used: set<ClaimId>,
    requests: map<nat, JobId>,        // manual retries by idempotency key
    finishes: seq<Finish>)

  const EMPTY := Rows(map[], {}, map[], map[], {}, map[], [])

  predicate Open(s: Status) {
    s == Pending || s == Retry || s == Processing
  }

  predicate SupersededAt(jobs: map<JobId, Job>, stream: Stream, seqNo: nat) {
    exists k :: k in jobs && jobs[k].stream == stream && jobs[k].seqNo > seqNo && jobs[k].supersedes
  }

  function Suppress(j: Job, i: Intent): Job {
    if j.stream == i.stream && j.seqNo < i.seqNo && (j.status == Pending || j.status == Retry)
    then j.(status := Suppressed, claim := None) else j
  }

  /** Advances the cursor of an ordered stream; payment streams have none. */
  function AdvanceCursor(cursors: map<Stream, nat>, i: Intent): Result<map<Stream, nat>> {
    if i.stream.PaymentStream? then Ok(cursors)
    else
      var last := if i.stream in cursors then cursors[i.stream] else 0;
      if i.seqNo == last + 1 then Ok(cursors[i.stream := i.seqNo])
      else if i.seqNo > last + 1 then Err(Gap)
      else Err(Conflict)
  }

  function InsertJob(jobs: map<JobId, Job>, id: JobId, i: Intent, dedupe: nat): map<JobId, Job> {
    if exists k :: k in jobs && jobs[k].dedupe == dedupe then jobs
    else
      var status := if i.covered || SupersededAt(jobs, i.stream, i.seqNo) then Suppressed else Pending;
      jobs[id := Job(i.stream, i.seqNo, i.supersedes, status, 0, None, dedupe)]
  }

  function RecordEvent(r: Rows, event: EventId, hash: nat, s: Source, id: JobId, dedupe: nat): Result<Rows> {
    var i := IntentOf(s);
    if i.seqNo < 1 then Err(Conflict)
    else if event in r.inbox then
      if r.inbox[event] == hash then Ok(r) else Err(Conflict)
    else
      var c := AdvanceCursor(r.cursors, i);
      if c.Err? then Err(c.error)
      else if KeyOf(s) in r.keys then Err(Conflict)
      else if id in r.jobs then Err(Internal)
      else
        var inserted := InsertJob(r.jobs, id, i, dedupe);
        Ok(r.(inbox := r.inbox[event := hash], keys := r.keys + {KeyOf(s)}, cursors := c.value,
              jobs := if i.supersedes then map k | k in inserted :: Suppress(inserted[k], i) else inserted))
  }

  /** No lower job of the stream is open; the lease of a processing job may have expired. */
  predicate Claimable(jobs: map<JobId, Job>, id: JobId) {
    && id in jobs
    && Open(jobs[id].status)
    && forall k | k in jobs && jobs[k].stream == jobs[id].stream && jobs[k].seqNo < jobs[id].seqNo :: !Open(jobs[k].status)
  }

  function ClaimJob(r: Rows, id: JobId, claim: ClaimId): Result<Rows> {
    if !Claimable(r.jobs, id) || claim in r.used then Err(NotFound)
    else
      var j := r.jobs[id];
      Ok(r.(jobs := r.jobs[id := j.(status := Processing, attempts := j.attempts + 1, claim := Some(claim))],
            used := r.used + {claim}))
  }

  predicate Closing(s: Status) {
    s == Delivered || s == Retry || s == PermanentlyFailed || s == Suppressed
  }

  /** Closes a claim; a superseded job is not retried or failed but suppressed. */
  function FinishClaim(r: Rows, id: JobId, claim: ClaimId, wanted: Status): Result<Rows>
    requires Closing(wanted)
  {
    if id !in r.jobs || r.jobs[id].status != Processing || r.jobs[id].claim != Some(claim) then Err(Conflict)
    else
      var j := r.jobs[id];
      var s := if (wanted == Retry || wanted == PermanentlyFailed) && SupersededAt(r.jobs, j.stream, j.seqNo)
               then Suppressed else wanted;
      Ok(r.(jobs := r.jobs[id := j.(status := s, claim := None)],
            finishes := r.finishes + [Finish(id, j.stream, j.seqNo, claim, s)]))
  }

  function RequestRetry(r: Rows, id: JobId, key: nat): Result<Rows> {
    if key in r.requests then
      if r.requests[key] == id then Ok(r) else Err(Conflict)
    else if id !in r.jobs then Err(NotFound)
    else if r.jobs[id].status != PermanentlyFailed && r.jobs[id].status != Retry then Err(Conflict)
    else if exists k :: k in r.jobs && r.jobs[k].stream == r.jobs[id].stream && r.jobs[k].seqNo > r.jobs[id].seqNo then Err(Conflict)
    else Ok(r.(jobs := r.jobs[id := r.jobs[id].(status := Pending, attempts := 0, claim := None)],
               requests := r.requests[key := id]))
  }

  datatype Call =
    | Record(event: EventId, hash: nat, source: Source, id: JobId, dedupe: nat)
    | Claim(id: JobId, claim: ClaimId)
    | FinishJob(id: JobId, claim: ClaimId, wanted: Status)
    | ManualRetry(id: JobId, key: nat)

  function Attempt(r: Rows, c: Call): Result<Rows> {
    match c
    case Record(event, hash, source, id, dedupe) => RecordEvent(r, event, hash, source, id, dedupe)
    case Claim(id, claim) => ClaimJob(r, id, claim)
    case FinishJob(id, claim, wanted) => if Closing(wanted) then FinishClaim(r, id, claim, wanted) else Err(Conflict)
    case ManualRetry(id, key) => RequestRetry(r, id, key)
  }

  function Next(r: Rows, c: Call): Rows {
    var a := Attempt(r, c);
    if a.Ok? then a.value else r
  }

  function Run(calls: seq<Call>): Rows {
    if calls == [] then EMPTY else Next(Run(calls[..|calls| - 1]), calls[|calls| - 1])
  }

  // ---- the invariant ------------------------------------------------------------------------------

  predicate Lower(a: Job, b: Job) {
    a.stream == b.stream && a.seqNo < b.seqNo
  }

  /** The job was claimed last and not reset: its turn had come. */
  predicate HadTurn(s: Status) {
    s == Processing || s == Delivered || s == PermanentlyFailed
  }

  predicate PairOk(low: Job, high: Job) {
    Lower(low, high) ==>
      && (HadTurn(high.status) ==> !Open(low.status))
      && (high.supersedes ==> low.status != Pending && low.status != Retry)
  }

  predicate BarrierOk(jobs: map<JobId, Job>) {
    forall i, j | i in jobs && j in jobs :: PairOk(jobs[i], jobs[j])
  }

  /** Ordered streams reach no further than their cursor; payment streams have two positions. */
  predicate PositionOk(r: Rows, j: Job) {
    if j.stream.PaymentStream? then 1 <= j.seqNo <= 2 && (j.supersedes <==> j.seqNo == 2)
    else j.stream in r.cursors && j.seqNo <= r.cursors[j.stream]
  }

  predicate ClaimOk(r: Rows, id: JobId)
    requires id in r.jobs
  {
    match r.jobs[id].claim
    case None => r.jobs[id].status != Processing
    case Some(c) => c in r.used && r.jobs[id].status == Processing && (forall k | k in r.jobs && r.jobs[k].claim == Some(c) :: k == id)
  }

  predicate JobsOk(r: Rows) {
    forall id | id in r.jobs :: PositionOk(r, r.jobs[id]) && ClaimOk(r, id)
  }

  predicate FinishOk(r: Rows, f: Finish) {
    && f.claim in r.used
    && f.job in r.jobs && r.jobs[f.job].stream == f.stream && r.jobs[f.job].seqNo == f.seqNo
    && (f.status == Delivered ==> r.jobs[f.job].status == Delivered)
    && (forall k | k in r.jobs :: r.jobs[k].claim != Some(f.claim))
  }

  /** Closed claims are distinct, and deliveries of one stream never go back. */
  predicate FinishesOk(r: Rows) {
    && (forall i | 0 <= i < |r.finishes| :: FinishOk(r, r.finishes[i]))
    && (forall i, j | 0 <= i < j < |r.finishes| :: r.finishes[i].claim != r.finishes[j].claim)
    && (forall i, j | 0 <= i < j < |r.finishes| && r.finishes[i].stream == r.finishes[j].stream
                      && r.finishes[i].status == Delivered && r.finishes[j].status == Delivered ::
          r.finishes[i].seqNo <= r.finishes[j].seqNo)
  }

  predicate Inv(r: Rows) {
    BarrierOk(r.jobs) && JobsOk(r) && FinishesOk(r)
  }
}
