/** Values of the node agent: desired-state snapshots, the operation journal and its decisions. */
module NodeState {
  import opened Common

  /** A stored credential; material stands for protocol and client id and is 0 when absent. */
  datatype Stored = Stored(rev: nat, want: Presence, material: nat)

  datatype Snapshot = Snapshot(rev: nat, creds: map<CredId, Stored>)

  datatype Desired = Desired(op: OpId, cred: CredId, rev: nat, want: Presence, material: nat)

  datatype Reply = Reply(op: OpId, cred: CredId, rev: nat, want: Presence, configRev: nat)

  datatype Entry = Entry(desired: Desired, reply: Reply, at: Time)

  type Journal = map<OpId, Entry>

  /** What the two state files hold. */
  datatype Disk = Disk(snapshot: Snapshot, journal: Journal)

  predicate ValidDesired(d: Desired) {
    d.rev >= 1 && (d.want == Present <==> d.material != 0)
  }

  function Install(s: Snapshot, d: Desired): Snapshot {
    Snapshot(s.rev + 1, s.creds[d.cred := Stored(d.rev, d.want, d.material)])
  }

  datatype Verdict = Replay(reply: Reply) | Clash | Stale | Same | Change(next: Snapshot)

  /** What the agent decides before touching the configuration. */
  function Judge(s: Snapshot, journal: Journal, d: Desired): Verdict {
    if d.op in journal then
      if journal[d.op].desired == d then Replay(journal[d.op].reply) else Clash
    else if d.cred in s.creds && d.rev < s.creds[d.cred].rev then Stale
    else if d.cred in s.creds && d.rev == s.creds[d.cred].rev then
      if s.creds[d.cred].want == d.want && s.creds[d.cred].material == d.material then Same else Clash
    else Change(Install(s, d))
  }

  function ReplyTo(d: Desired, configRev: nat): Reply {
    Reply(d.op, d.cred, d.rev, d.want, configRev)
  }

  /** The snapshot already covers the request. */
  predicate Covers(s: Snapshot, d: Desired) {
    d.cred in s.creds && d.rev <= s.creds[d.cred].rev
  }

  /** Later in history: no revision decreased and no credential entry disappeared. */
  predicate NoEarlier(s: Snapshot, s': Snapshot) {
    && s.rev <= s'.rev
    && forall c | c in s.creds :: c in s'.creds && s.creds[c].rev <= s'.creds[c].rev
  }

  /** Every journalled request is covered by the stored snapshot. */
  predicate Behind(journal: Journal, s: Snapshot) {
    forall op | op in journal ::
      && journal[op].desired.op == op
      && journal[op].reply.configRev <= s.rev
      && journal[op].reply == ReplyTo(journal[op].desired, journal[op].reply.configRev)
      && Covers(s, journal[op].desired)
  }

  /** A request that raises a revision is the only one that changes the snapshot. */
  lemma ChangeRaises(s: Snapshot, journal: Journal, d: Desired)
    requires Behind(journal, s)
    ensures Judge(s, journal, d).Change? <==> d.op !in journal && !Covers(s, d)
    ensures Judge(s, journal, d).Change? ==> NoEarlier(s, Judge(s, journal, d).next) && Covers(Judge(s, journal, d).next, d)
  {
  }

  /** Once covered, a request can never change anything again, whatever the journal kept. */
  lemma CoveredForever(s: Snapshot, s': Snapshot, journal: Journal, d: Desired)
    requires Covers(s, d) && NoEarlier(s, s') && Behind(journal, s')
    ensures Covers(s', d) && !Judge(s', journal, d).Change?
  {
  }

  /** Client material is stored exactly for the credentials that are present. */
  ghost predicate Sound(s: Snapshot) {
    forall c | c in s.creds :: s.creds[c].want == Present <==> s.creds[c].material != 0
  }

  /** The request's revision, presence and material are stored, nothing else changed, and the configuration is one newer. */
  ghost predicate Stores(s: Snapshot, s': Snapshot, d: Desired) {
    && s'.rev == s.rev + 1 && s'.creds.Keys == s.creds.Keys + {d.cred}
    && s'.creds[d.cred].rev == d.rev && s'.creds[d.cred].want == d.want && s'.creds[d.cred].material == d.material
    && forall c | c in s.creds && c != d.cred :: s'.creds[c] == s.creds[c]
  }

  lemma InstallStores(s: Snapshot, d: Desired)
    ensures Stores(s, Install(s, d), d)
    ensures Sound(s) && ValidDesired(d) ==> Sound(Install(s, d))
  {
  }

  lemma BehindLater(journal: Journal, s: Snapshot, s': Snapshot)
    requires Behind(journal, s) && NoEarlier(s, s')
    ensures Behind(journal, s')
  {
    forall op | op in journal ensures Covers(s', journal[op].desired) {
      assert Covers(s, journal[op].desired);
    }
  }

  /** The oldest entry, as the eviction scan finds it. */
  predicate Oldest(journal: Journal, op: OpId) {
    op in journal && forall k | k in journal :: journal[op].at <= journal[k].at
  }

  method FindOldest(journal: Journal) returns (oldest: OpId)
    requires journal != map[]
    ensures Oldest(journal, oldest)
  {
    oldest :| oldest in journal;
    var rest := journal.Keys - {oldest};
    while rest != {}
      invariant rest <= journal.Keys && oldest in journal
      invariant forall k | k in journal && k !in rest :: journal[oldest].at <= journal[k].at
    {
      var k :| k in rest;
      if journal[k].at < journal[oldest].at { oldest := k; }
      rest := rest - {k};
    }
  }

  predicate Within(journal: Journal, kept: Journal) {
    forall k | k in kept :: k in journal && kept[k] == journal[k]
  }

  /** Kept entries are unchanged and none of them is older than an evicted one. */
  predicate Trimmed(journal: Journal, kept: Journal) {
    && Within(journal, kept)
    && (forall k, x | k in kept && x in journal && x !in kept :: journal[x].at <= journal[k].at)
  }

  /** Deletes the oldest entries until the journal fits its limit. */
  method Evict(journal: Journal, limit: nat) returns (kept: Journal)
    ensures Trimmed(journal, kept)
    ensures |kept| <= limit
    ensures |journal| <= limit ==> kept == journal
    ensures |journal| > limit ==> |kept| == limit
  {
    kept := journal;
    while |kept| > limit
      invariant Trimmed(journal, kept)
      invariant |journal| <= limit ==> kept == journal
      invariant |journal| > limit ==> |kept| >= limit
    {
      var oldest := FindOldest(kept);
      assert kept.Keys == (kept - {oldest}).Keys + {oldest};
      kept := kept - {oldest};
    }
  }

  lemma WithinBehind(journal: Journal, kept: Journal, s: Snapshot)
    requires Behind(journal, s) && Within(journal, kept)
    ensures Behind(kept, s)
  {
    forall op | op in kept ensures kept[op] == journal[op] { }
  }

  /** The trimmed journal with a new entry, and what is left of it without that entry. */
  lemma NewJournal(stored: Journal, journal: Journal, s: Snapshot, d: Desired, reply: Reply, now: Time, kept: Journal)
    requires Behind(stored, s) && Within(stored, journal) && Within(journal[d.op := Entry(d, reply, now)], kept)
    requires Covers(s, d) && reply == ReplyTo(d, reply.configRev) && reply.configRev <= s.rev
    ensures Behind(kept, s) && Within(kept, kept)
    ensures Within(stored, kept - {d.op}) && Within(journal - {d.op}, kept - {d.op})
  {
    WithinBehind(stored, journal, s);
    AddBehind(journal, s, d, reply, now);
    WithinBehind(journal[d.op := Entry(d, reply, now)], kept, s);
  }

  lemma AddBehind(journal: Journal, s: Snapshot, d: Desired, reply: Reply, now: Time)
    requires Behind(journal, s) && Covers(s, d) && reply == ReplyTo(d, reply.configRev) && reply.configRev <= s.rev
    ensures Behind(journal[d.op := Entry(d, reply, now)], s)
  {
  }
}
