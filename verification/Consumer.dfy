/**
 The ordered-event consumer of the access and provisioning services: one record per poll, a
 partition with a sequence gap is paused and its record kept aside until the missing
 predecessor arrives, possibly on another partition.
 */
module Consumer {
  import opened Common
  import opened RetryOrder

  // ---- offsets ------------------------------------------------------------------------------------------

  type Logs<P> = map<Part, seq<Rec<P>>>
  type Offsets = map<Part, nat>
  type HandledSet = set<(Part, nat)>

  /** Below this offset every record of the partition was applied or dead-lettered. */
  ghost predicate HandledBelow(handled: HandledSet, p: Part, k: nat) {
    forall i: nat | i < k :: (p, i) in handled
  }

  predicate LogOk<P>(log: seq<Rec<P>>, p: Part) {
    forall i | 0 <= i < |log| :: log[i].part == p && log[i].offset == i
  }

  ghost predicate PartOk<P>(logs: Logs<P>, fetch: Offsets, committed: Offsets, deferred: map<Part, Rec<P>>, handled: HandledSet, p: Part) {
    && p in fetch && p in committed && p in logs
    && committed[p] <= fetch[p] <= |logs[p]|
    && LogOk(logs[p], p)
    && HandledBelow(handled, p, committed[p])
    && (p !in deferred ==> HandledBelow(handled, p, fetch[p]))
    && (p in deferred ==>
          && fetch[p] == deferred[p].offset + 1 && deferred[p] == logs[p][deferred[p].offset]
          && committed[p] <= deferred[p].offset && HandledBelow(handled, p, deferred[p].offset))
  }

  ghost predicate AllOk<P>(logs: Logs<P>, fetch: Offsets, committed: Offsets, deferred: map<Part, Rec<P>>, handled: HandledSet) {
    forall p | p in logs :: PartOk(logs, fetch, committed, deferred, handled, p)
  }

  /** Committed offsets only move forward. */
  predicate Forward(committed: Offsets, later: Offsets) {
    forall p | p in committed :: p in later && committed[p] <= later[p]
  }

  lemma MoreHandled<P>(logs: Logs<P>, fetch: Offsets, committed: Offsets, deferred: map<Part, Rec<P>>, handled: HandledSet, more: HandledSet)
    requires AllOk(logs, fetch, committed, deferred, handled) && handled <= more
    ensures AllOk(logs, fetch, committed, deferred, more)
  {
    forall p | p in logs ensures PartOk(logs, fetch, committed, deferred, more, p) {
      assert PartOk(logs, fetch, committed, deferred, handled, p);
    }
  }

  /** A kept record that was handled may be committed and released. */
  lemma Released<P>(logs: Logs<P>, fetch: Offsets, committed: Offsets, deferred: map<Part, Rec<P>>, handled: HandledSet, p: Part)
    requires AllOk(logs, fetch, committed, deferred, handled) && p in logs && p in deferred
    requires (p, deferred[p].offset) in handled
    ensures deferred[p].part == p
    ensures AllOk(logs, fetch, committed[p := deferred[p].offset + 1], deferred - {p}, handled)
  {
    var committed', deferred' := committed[p := deferred[p].offset + 1], deferred - {p};
    forall q | q in logs ensures PartOk(logs, fetch, committed', deferred', handled, q) {
      assert PartOk(logs, fetch, committed, deferred, handled, q);
    }
  }

  /** The next record of a partition that is not deferred. */
  lemma NextRecord<P>(logs: Logs<P>, fetch: Offsets, committed: Offsets, deferred: map<Part, Rec<P>>, handled: HandledSet, p: Part)
    requires AllOk(logs, fetch, committed, deferred, handled) && p in logs && p !in deferred && fetch[p] < |logs[p]|
    ensures var r := logs[p][fetch[p]];
            && r.part == p && r.offset == fetch[p] && p in committed
            && AllOk(logs, fetch[p := r.offset + 1], committed, deferred[p := r], handled)
            && AllOk(logs, fetch[p := r.offset], committed, deferred, handled)
            && ((p, r.offset) in handled ==> AllOk(logs, fetch[p := r.offset + 1], committed[p := r.offset + 1], deferred, handled))
  {
    assert PartOk(logs, fetch, committed, deferred, handled, p);
    var r := logs[p][fetch[p]];
    forall q | q in logs
      ensures && PartOk(logs, fetch[p := r.offset + 1], committed, deferred[p := r], handled, q)
              && PartOk(logs, fetch[p := r.offset], committed, deferred, handled, q)
              && ((p, r.offset) in handled ==> PartOk(logs, fetch[p := r.offset + 1], committed[p := r.offset + 1], deferred, handled, q))
    {
      assert PartOk(logs, fetch, committed, deferred, handled, q);
    }
  }

  /** Paused partitions are the deferred ones, and no commit passed an unhandled record. */
  ghost predicate Positioned<P>(logs: Logs<P>, fetch: Offsets, committed: Offsets, deferred: map<Part, Rec<P>>,
                                paused: set<Part>, handled: HandledSet) {
    paused == deferred.Keys && deferred.Keys <= logs.Keys && AllOk(logs, fetch, committed, deferred, handled)
  }

  /** What the consumer is told about a record: the service's verdict, or a failure when a fault comes first. */
  function Seen<S, P>(service: Service<S, P>, s: S, r: Rec<P>, luck: Luck): Outcome {
    if luck == Lost then Failing else Verdict(service, s, r)
  }

  /** Which fault hits the first, second, ... retry of a poll. */
  type Fortune = nat -> Luck

  predicate Fated(tries: seq<Try>, fortune: Fortune, from: nat) {
    forall i | 0 <= i < |tries| :: tries[i].luck == fortune(from + i)
  }

  /** Every one of these partitions is tried. */
  predicate Covers(tries: seq<Try>, parts: set<Part>) {
    forall p | p in parts :: exists i :: 0 <= i < |tries| && tries[i].part == p
  }

  // ---- the consumer ---------------------------------------------------------------------------------

  class Consumer<S(!new), P(!new)> {
    const service: Service<S, P>
    const logs: Logs<P>                      // partition contents
    var durable: S                           // database of the service
    var fetch: Offsets                       // next offset to fetch
    var committed: Offsets                   // first offset not committed
    var deferred: map<Part, Rec<P>>
    var paused: set<Part>
    ghost var handled: HandledSet            // records applied or dead-lettered

    /** Paused partitions are the deferred ones, and no commit passed an unhandled record. */
    ghost predicate Valid()
      reads this
    {
      Positioned(logs, fetch, committed, deferred, paused, handled)
    }

    ghost function View(): Point<S, P>
      reads this
    {
      Point(durable, deferred)
    }

    constructor (service: Service<S, P>, start: S, logs: Logs<P>)
      requires forall p, i | p in logs && 0 <= i < |logs[p]| :: logs[p][i].part == p && logs[p][i].offset == i
      ensures Valid() && View() == Point(start, map[])
    {
      this.service, this.logs, durable := service, logs, start;
      deferred, paused, handled := map[], {}, {};
      fetch := map p | p in logs :: 0;
      committed := map p | p in logs :: 0;
    }

    /** Runs the handler, unless a fault stops it first; an applied or dead-lettered record counts as handled. */
    method Process(r: Rec<P>, luck: Luck) returns (o: Outcome)
      modifies this`durable, this`handled
      ensures o == Seen(service, old(durable), r, luck)
      ensures durable == if luck == Lost then old(durable) else Handled(service, old(durable), r)
      ensures handled == if Decided(o) then old(handled) + {(r.part, r.offset)} else old(handled)
    {
      if luck == Lost {
        return Failing;
      }
      o := Verdict(service, durable, r);
      if o == Done { durable := service.apply(durable, r); }
      if Decided(o) { handled := handled + {(r.part, r.offset)}; }
    }

    /** The broker accepts the new committed offset, or the call fails. */
    method Commit(r: Rec<P>, luck: Luck) returns (ok: bool)
      modifies this`committed
      ensures ok <==> luck == Clean
      ensures committed == if ok then old(committed)[r.part := r.offset + 1] else old(committed)
    {
      ok := luck == Clean;
      if ok { committed := committed[r.part := r.offset + 1]; }
    }

    // ---- the record just fetched ------------------------------------------------------------------

    /** The fetch position passed this record, which is not handled, deferred or committed yet. */
    ghost predicate InFlight(r: Rec<P>)
      reads this
    {
      && paused == deferred.Keys && deferred.Keys <= logs.Keys
      && r.part in logs && r.part !in deferred && r.part in fetch && fetch[r.part] == r.offset + 1
      && r.offset < |logs[r.part]| && r == logs[r.part][r.offset]
      && AllOk(logs, fetch[r.part := r.offset], committed, deferred, handled)
    }

    method FetchNext(p: Part) returns (r: Rec<P>)
      requires Valid() && p in logs && p !in deferred && p in fetch && fetch[p] < |logs[p]|
      modifies this`fetch
      ensures InFlight(r) && r == logs[p][old(fetch)[p]] && fetch[p := r.offset] == old(fetch) && fetch == old(fetch)[p := r.offset + 1]
    {
      NextRecord(logs, fetch, committed, deferred, handled, p);
      r := logs[p][fetch[p]];
      assert fetch[p := r.offset + 1][p := r.offset] == fetch;
      fetch := fetch[p := r.offset + 1];
    }

    /** Sets the fetch position back to the record. */
    method Rewind(r: Rec<P>)
      requires InFlight(r)
      modifies this`fetch
      ensures Valid() && fetch == old(fetch)[r.part := r.offset]
    {
      fetch := fetch[r.part := r.offset];
    }

    /** Keeps the record and pauses its partition, which is not deferred because it was fetched. */
    method DeferGap(r: Rec<P>)
      requires InFlight(r)
      modifies this`deferred, this`paused
      ensures Valid() && deferred == old(deferred)[r.part := r]
    {
      NextRecord(logs, fetch[r.part := r.offset], committed, deferred, handled, r.part);
      assert fetch[r.part := r.offset][r.part := r.offset + 1] == fetch;
      deferred := deferred[r.part := r];
      paused := paused + {r.part};
    }

    method ProcessFetched(r: Rec<P>, luck: Luck) returns (o: Outcome)
      requires InFlight(r)
      modifies this`durable, this`handled
      ensures InFlight(r)
      ensures Decided(o) ==> (r.part, r.offset) in handled
      ensures o == Seen(service, old(durable), r, luck)
      ensures durable == if luck == Lost then old(durable) else Handled(service, old(durable), r)
    {
      MoreHandled(logs, fetch[r.part := r.offset], committed, deferred, handled, handled + {(r.part, r.offset)});
      o := Process(r, luck);
    }

    method CommitFetched(r: Rec<P>, luck: Luck) returns (ok: bool)
      requires InFlight(r) && (r.part, r.offset) in handled
      modifies this`committed
      ensures ok ==> Valid() && committed == old(committed)[r.part := r.offset + 1]
      ensures ok <==> luck == Clean
      ensures !ok ==> InFlight(r) && committed == old(committed)
      ensures Forward(old(committed), committed)
    {
      NextRecord(logs, fetch[r.part := r.offset], committed, deferred, handled, r.part);
      assert PartOk(logs, fetch[r.part := r.offset], committed, deferred, handled, r.part);
      assert fetch[r.part := r.offset][r.part := r.offset + 1] == fetch;
      ok := Commit(r, luck);
    }

    // ---- records kept aside -----------------------------------------------------------------------

    method ProcessKept(p: Part, luck: Luck) returns (o: Outcome)
      requires Valid() && p in deferred
      modifies this`durable, this`handled
      ensures Valid()
      ensures o == Seen(service, old(durable), deferred[p], luck)
      ensures durable == if luck == Lost then old(durable) else Handled(service, old(durable), deferred[p])
      ensures Decided(o) ==> (p, deferred[p].offset) in handled
    {
      var r := deferred[p];
      assert PartOk(logs, fetch, committed, deferred, handled, p);
      MoreHandled(logs, fetch, committed, deferred, handled, handled + {(r.part, r.offset)});
      o := Process(r, luck);
    }

    /** Commits a handled record that was kept aside and resumes its partition. */
    method Release(p: Part, luck: Luck) returns (ok: bool)
      requires Valid() && p in deferred && (p, deferred[p].offset) in handled
      modifies this`committed, this`deferred, this`paused
      ensures Valid()
      ensures ok <==> luck == Clean
      ensures !ok ==> deferred == old(deferred)
      ensures ok ==> deferred == old(deferred) - {p}
      ensures Forward(old(committed), committed)
    {
      assert PartOk(logs, fetch, committed, deferred, handled, p);
      Released(logs, fetch, committed, deferred, handled, p);
      ok := Commit(deferred[p], luck);
      if ok {
        deferred := deferred - {p};
        paused := paused - {p};
      }
    }

    /** Tries one record that was kept aside; it leaves exactly when it is decided and nothing fails. */
    method RetryOne(p: Part, luck: Luck) returns (left: bool)
      requires Valid() && p in deferred
      modifies this`durable, this`handled, this`committed, this`deferred, this`paused
      ensures Valid() && Forward(old(committed), committed)
      ensures View() == TryOne(service, old(View()), Try(p, luck))
      ensures left <==> luck == Clean && Decided(Verdict(service, old(durable), old(deferred)[p]))
      ensures left ==> deferred == old(deferred) - {p}
      ensures !left ==> deferred == old(deferred)
      ensures luck == Clean && !left ==> durable == old(durable) && !Decided(Verdict(service, durable, deferred[p]))
    {
      TryResult(service, View(), p);
      var o := ProcessKept(p, luck);
      left := false;
      if Decided(o) {
        left := Release(p, luck);
      }
    }

    /**
     Passes over the kept records until a pass makes no progress.  What happens is a sequence of
     tries with the faults that hit them; without faults exactly the records stay that miss a
     predecessor or fail without being rejected.
     */
    method RetryDeferred(fortune: Fortune) returns (ghost tries: seq<Try>)
      requires Valid()
      modifies this`durable, this`handled, this`committed, this`deferred, this`paused
      ensures Valid() && Forward(old(committed), committed)
      ensures View() == TryAll(service, old(View()), tries) && Fated(tries, fortune, 0)
      ensures Covers(tries, old(deferred).Keys)
      ensures AllClean(tries) ==> Settled(service, View())
    {
      var progressed, n := true, 0;
      tries := [];
      ghost var x, first := View(), true;
      while progressed
        invariant Valid()
        invariant Forward(old(committed), committed)
        invariant View() == TryAll(service, x, tries) && Fated(tries, fortune, 0) && n == |tries|
        invariant if first then View() == x && progressed else Covers(tries, x.kept.Keys)
        invariant AllClean(tries) && !progressed ==> Settled(service, View())
        decreases deferred.Keys, progressed
      {
        ghost var more;
        progressed, n, more := RetryPass(fortune, n);
        PassJoins(service, x, tries, more, fortune);
        first := false;
        CoversJoin(tries, more, x.kept.Keys);
        tries := tries + more;
      }
    }

    /** The tries so far of a pass that started at x, with these partitions still to come. */
    ghost predicate Passing(x: Point<S, P>, tries: seq<Try>, fortune: Fortune, from: nat, keys: set<Part>, progressed: bool)
      reads this
    {
      && View() == TryAll(service, x, tries) && Fated(tries, fortune, from) && Covers(tries, x.kept.Keys - keys)
      && keys <= deferred.Keys
      && (if progressed then deferred.Keys < x.kept.Keys else deferred == x.kept)
      && (AllClean(tries) && !progressed ==> Waiting(durable, deferred, keys))
    }

    /** One pass in an arbitrary order over all kept records; reports whether any record left. */
    method RetryPass(fortune: Fortune, from: nat) returns (progressed: bool, n: nat, ghost tries: seq<Try>)
      requires Valid()
      modifies this`durable, this`handled, this`committed, this`deferred, this`paused
      ensures Valid() && Forward(old(committed), committed)
      ensures View() == TryAll(service, old(View()), tries) && Fated(tries, fortune, from) && n == from + |tries|
      ensures Covers(tries, old(deferred).Keys)
      ensures progressed ==> deferred.Keys < old(deferred).Keys
      ensures !progressed ==> deferred == old(deferred)
      ensures AllClean(tries) && !progressed ==> Settled(service, View())
    {
      progressed, n, tries := false, from, [];
      var keys := deferred.Keys;
      ghost var x := View();
      while keys != {}
        invariant Valid()
        invariant Forward(old(committed), committed)
        invariant n == from + |tries| && Passing(x, tries, fortune, from, keys, progressed)
      {
        var p :| p in keys;
        var left;
        left, tries := RetryNext(p, fortune, n, x, tries, from, keys, progressed);
        n := n + 1;
        progressed := progressed || left;
        keys := keys - {p};
      }
      assert x.kept.Keys - keys == x.kept.Keys;
    }

    /** The next try of a pass. */
    method RetryNext(p: Part, fortune: Fortune, n: nat, ghost x: Point<S, P>, ghost tries: seq<Try>, ghost from: nat,
                     ghost keys: set<Part>, ghost progressed: bool) returns (left: bool, ghost more: seq<Try>)
      requires Valid() && p in deferred && p in keys && n == from + |tries| && Passing(x, tries, fortune, from, keys, progressed)
      modifies this`durable, this`handled, this`committed, this`deferred, this`paused
      ensures Valid() && Forward(old(committed), committed)
      ensures more == tries + [Try(p, fortune(n))] && Passing(x, more, fortune, from, keys - {p}, progressed || left)
    {
      left := RetryOne(p, fortune(n));
      TryLast(service, x, tries, Try(p, fortune(n)));
      TriedNext(tries, Try(p, fortune(n)), fortune, from, x.kept.Keys, keys);
      more := tries + [Try(p, fortune(n))];
      CleanPrefix(tries, Try(p, fortune(n)));
    }

    /** Every kept record outside the given partitions waits for a predecessor or fails. */
    ghost predicate Waiting(s: S, kept: map<Part, Rec<P>>, keys: set<Part>) {
      forall p | p in kept && p !in keys :: !Decided(Verdict(service, s, kept[p]))
    }

    /**
     One poll.  At most one record of a partition that is not paused is fetched, handled and
     committed; a gap is put aside, any failure or a cancelled context rewinds the partition, and a
     committed record is followed by retries of what was kept aside.
     */
    method PollOnce(next: Option<Part>, luck: Luck, fortune: Fortune, cancelled: bool) returns (go: bool, ghost tries: seq<Try>)
      requires Valid()
      requires next.Some? ==> next.value in logs && next.value !in paused && next.value in fetch && fetch[next.value] < |logs[next.value]|
      modifies this
      ensures Valid() && (go <==> !cancelled)
      ensures Forward(old(committed), committed) && Fated(tries, fortune, 0)
      ensures next.None? ==>
                && View() == TryAll(service, old(View()), tries) && (AllClean(tries) ==> Settled(service, View()))
                && Covers(tries, old(deferred).Keys) && fetch == old(fetch)
      ensures next.Some? && cancelled ==> View() == old(View()) && committed == old(committed) && fetch == old(fetch)
      ensures next.Some? && !cancelled ==>
                var r := logs[next.value][old(fetch)[next.value]];
                match Seen(service, old(durable), r, luck)
                case Missing =>
                  && deferred == old(deferred)[r.part := r] && durable == old(durable)
                  && committed == old(committed) && fetch == old(fetch)[r.part := r.offset + 1] && tries == []
                case Failing => View() == old(View()) && committed == old(committed) && fetch == old(fetch) && tries == []
                case _ =>
                  if luck == Uncommitted then
                    && durable == Handled(service, old(durable), r) && deferred == old(deferred)
                    && committed == old(committed) && fetch == old(fetch) && tries == []
                  else
                    && r.part in committed && committed[r.part] > r.offset && fetch == old(fetch)[r.part := r.offset + 1]
                    && View() == TryAll(service, Point(Handled(service, old(durable), r), old(deferred)), tries)
                    && Covers(tries, old(deferred).Keys) && (AllClean(tries) ==> Settled(service, View()))
    {
      tries := [];
      if next.None? {
        if deferred != map[] { tries := RetryDeferred(fortune); }
        return !cancelled, tries;
      }
      var r := FetchNext(next.value);
      if cancelled {
        Rewind(r);
        return false, tries;
      }
      tries := HandleFetched(r, luck, fortune);
      go := true;
    }

    /** The record just fetched is put aside, rewound, or committed and followed by retries. */
    method HandleFetched(r: Rec<P>, luck: Luck, fortune: Fortune) returns (ghost tries: seq<Try>)
      requires InFlight(r)
      modifies this
      ensures Valid() && Forward(old(committed), committed) && Fated(tries, fortune, 0)
      ensures match Seen(service, old(durable), r, luck)
              case Missing =>
                && deferred == old(deferred)[r.part := r] && durable == old(durable)
                && committed == old(committed) && fetch == old(fetch) && tries == []
              case Failing =>
                View() == old(View()) && committed == old(committed) && fetch == old(fetch)[r.part := r.offset] && tries == []
              case _ =>
                if luck == Uncommitted then
                  && durable == Handled(service, old(durable), r) && deferred == old(deferred)
                  && committed == old(committed) && fetch == old(fetch)[r.part := r.offset] && tries == []
                else
                  && r.part in committed && committed[r.part] > r.offset && fetch == old(fetch)
                  && View() == TryAll(service, Point(Handled(service, old(durable), r), old(deferred)), tries)
                  && Covers(tries, old(deferred).Keys) && (AllClean(tries) ==> Settled(service, View()))
    {
      tries := [];
      var o := ProcessFetched(r, luck);
      if o == Missing {
        DeferGap(r);
        return;
      }
      if o == Failing {
        Rewind(r);
        return;
      }
      var ok := CommitFetched(r, luck);
      if !ok {
        Rewind(r);
        return;
      }
      tries := RetryDeferred(fortune);
    }
  }

  lemma PassJoins<S, P>(service: Service<S, P>, x: Point<S, P>, tries: seq<Try>, more: seq<Try>, fortune: Fortune)
    requires Fated(tries, fortune, 0) && Fated(more, fortune, |tries|)
    ensures TryAll(service, x, tries + more) == TryAll(service, TryAll(service, x, tries), more)
    ensures Fated(tries + more, fortune, 0)
    ensures AllClean(tries + more) ==> AllClean(tries) && AllClean(more)
  {
    TryJoin(service, x, tries, more);
    var all := tries + more;
    forall i | 0 <= i < |more| ensures all[|tries| + i] == more[i] { }
    forall i | 0 <= i < |all| ensures all[i].luck == fortune(i) {
      if i >= |tries| { assert all[i] == more[i - |tries|]; }
    }
  }

  lemma CleanPrefix(tries: seq<Try>, t: Try)
    ensures AllClean(tries + [t]) <==> AllClean(tries) && t.luck == Clean
  {
    var more := tries + [t];
    assert more[|tries|] == t;
    assert forall i | 0 <= i < |tries| :: more[i] == tries[i];
  }

  lemma CoversJoin(tries: seq<Try>, more: seq<Try>, parts: set<Part>)
    requires Covers(tries, parts) || Covers(more, parts)
    ensures Covers(tries + more, parts)
  {
    var all := tries + more;
    forall p | p in parts ensures exists i :: 0 <= i < |all| && all[i].part == p {
      if Covers(tries, parts) {
        var i :| 0 <= i < |tries| && tries[i].part == p;
        assert all[i].part == p;
      } else {
        var i :| 0 <= i < |more| && more[i].part == p;
        assert all[|tries| + i].part == p;
      }
    }
  }

  lemma TriedNext(tries: seq<Try>, t: Try, fortune: Fortune, from: nat, all: set<Part>, keys: set<Part>)
    requires Fated(tries, fortune, from) && t.luck == fortune(from + |tries|) && Covers(tries, all - keys)
    ensures Fated(tries + [t], fortune, from) && Covers(tries + [t], all - (keys - {t.part}))
  {
    var more := tries + [t];
    assert more[|tries|] == t;
    forall p | p in all - (keys - {t.part}) ensures exists i :: 0 <= i < |more| && more[i].part == p {
      if p != t.part {
        assert p in all - keys;
        var i :| 0 <= i < |tries| && tries[i].part == p;
        assert more[i].part == p;
      }
    }
  }
}
