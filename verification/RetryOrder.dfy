/**
 Retrying records that were put aside because a predecessor was missing.  The service behind
 the consumer decides on its durable state whether a record is applied, rejected for good,
 still early, or fails in a way that is no rejection; the decision may depend on what other
 aggregates did.
 */
module RetryOrder {
  import opened Common

  type Part = nat
  type Agg = nat

  /** A record; a malformed one fails its contract checks whatever the state. */
  datatype Rec<+P> = Rec(part: Part, offset: nat, agg: Agg, seqNo: nat, malformed: bool, payload: P)

  /** Applied, predecessor missing, rejected for good, or failed though nothing is missing. */
  datatype Outcome = Done | Missing | Poisoned | Failing

  /** The durable side: applied sequence per aggregate, what it says of a record, and its effect. */
  datatype Service<!S, !P> = Service(
    cursor: (S, Agg) -> nat,
    verdict: (S, Rec<P>) -> Outcome,
    apply: (S, Rec<P>) -> S)

  function Verdict<S, P>(sv: Service<S, P>, s: S, r: Rec<P>): Outcome {
    if r.malformed then Poisoned else sv.verdict(s, r)
  }

  /** The record leaves the consumer: applied or dead-lettered. */
  predicate Decided(o: Outcome) {
    o == Done || o == Poisoned
  }

  /** The state after a record was applied or dead-lettered. */
  function Handled<S, P>(sv: Service<S, P>, s: S, r: Rec<P>): S {
    if Verdict(sv, s, r) == Done then sv.apply(s, r) else s
  }

  ghost predicate OtherCursorsKept<S, P>(sv: Service<S, P>, s: S, s': S, a: Agg) {
    forall b: Agg | b != a :: sv.cursor(s', b) == sv.cursor(s, b)
  }

  /** The record's position was not applied yet. */
  predicate Ahead<S, P>(sv: Service<S, P>, s: S, r: Rec<P>) {
    r.seqNo > sv.cursor(s, r.agg)
  }

  /**
   Only the next event of an aggregate or a repeated one is applied; the next one advances its
   own cursor only, a repeated one changes nothing.  Below the cursor every record is decided.
   */
  ghost predicate LawAt<S, P>(sv: Service<S, P>, s: S, r: Rec<P>) {
    && (Verdict(sv, s, r) == Done && Ahead(sv, s, r) ==>
          && r.seqNo == sv.cursor(s, r.agg) + 1
          && sv.cursor(sv.apply(s, r), r.agg) == r.seqNo && OtherCursorsKept(sv, s, sv.apply(s, r), r.agg))
    && (Verdict(sv, s, r) == Done && !Ahead(sv, s, r) ==> sv.apply(s, r) == s)
    && (!Ahead(sv, s, r) ==> Decided(Verdict(sv, s, r)))
  }

  ghost predicate Lawful<S(!new), P(!new)>(sv: Service<S, P>) {
    forall s: S, r: Rec<P> :: LawAt(sv, s, r)
  }

  // ---- retries ------------------------------------------------------------------------------------

  /** A state of the service and the records kept aside. */
  datatype Point<S, P> = Point(s: S, kept: map<Part, Rec<P>>)

  /** A clean try releases a decided record; a fault may hit before or after the handler. */
  datatype Luck = Clean | Lost | Uncommitted

  datatype Try = Try(part: Part, luck: Luck)

  function TryOne<S, P>(sv: Service<S, P>, x: Point<S, P>, t: Try): Point<S, P> {
    if t.part !in x.kept || t.luck == Lost then x
    else
      var r := x.kept[t.part];
      if t.luck == Uncommitted then Point(Handled(sv, x.s, r), x.kept)
      else if !Decided(Verdict(sv, x.s, r)) then x
      else Point(Handled(sv, x.s, r), x.kept - {t.part})
  }

  function TryAll<S, P>(sv: Service<S, P>, x: Point<S, P>, tries: seq<Try>): Point<S, P> {
    if tries == [] then x else TryOne(sv, TryAll(sv, x, tries[..|tries| - 1]), tries[|tries| - 1])
  }

  predicate AllClean(tries: seq<Try>) {
    forall i | 0 <= i < |tries| :: tries[i].luck == Clean
  }

  /** Every record still kept waits for a predecessor or fails. */
  predicate Settled<S, P>(sv: Service<S, P>, x: Point<S, P>) {
    forall p | p in x.kept :: !Decided(Verdict(sv, x.s, x.kept[p]))
  }

  /** A producer numbers the events of an aggregate, so no two kept records share a position. */
  predicate Distinct<P>(kept: map<Part, Rec<P>>) {
    forall p, q | p in kept && q in kept && kept[p].agg == kept[q].agg && kept[p].seqNo == kept[q].seqNo :: p == q
  }

  ghost predicate SameResult<S, P>(sv: Service<S, P>, x: Point<S, P>, y: Point<S, P>) {
    x.kept == y.kept && forall a: Agg :: sv.cursor(x.s, a) == sv.cursor(y.s, a)
  }

  ghost predicate AgreeOn<S, P>(sv: Service<S, P>, x: Point<S, P>, t1: seq<Try>, t2: seq<Try>) {
    Distinct(x.kept) && AllClean(t1) && AllClean(t2)
    && Settled(sv, TryAll(sv, x, t1)) && Settled(sv, TryAll(sv, x, t2))
    ==> SameResult(sv, TryAll(sv, x, t1), TryAll(sv, x, t2))
  }

  // ---- histories ----------------------------------------------------------------------------------

  function ApplyAll<S, P>(sv: Service<S, P>, s: S, h: seq<Rec<P>>): S {
    if h == [] then s else sv.apply(ApplyAll(sv, s, h[..|h| - 1]), h[|h| - 1])
  }

  /** The record is the next of its aggregate and accepted. */
  predicate Fits<S, P>(sv: Service<S, P>, s: S, r: Rec<P>) {
    Verdict(sv, s, r) == Done && r.seqNo == sv.cursor(s, r.agg) + 1
  }

  predicate Feasible<S, P>(sv: Service<S, P>, s: S, h: seq<Rec<P>>) {
    h == [] || (Feasible(sv, s, h[..|h| - 1]) && Fits(sv, ApplyAll(sv, s, h[..|h| - 1]), h[|h| - 1]))
  }

  /** The records of one aggregate, in order. */
  function Own<P>(h: seq<Rec<P>>, a: Agg): seq<Rec<P>> {
    if h == [] then []
    else if h[|h| - 1].agg == a then Own(h[..|h| - 1], a) + [h[|h| - 1]]
    else Own(h[..|h| - 1], a)
  }

  /** The record was early at some moment of the history. */
  ghost predicate WasMissing<S, P>(sv: Service<S, P>, s: S, g: seq<Rec<P>>, r: Rec<P>) {
    exists k: nat :: k <= |g| && Verdict(sv, ApplyAll(sv, s, g[..k]), r) == Missing
  }

  /** The history led to this point, and every kept record was put aside on the way. */
  ghost predicate LedTo<S, P>(sv: Service<S, P>, s: S, g: seq<Rec<P>>, x: Point<S, P>) {
    && Feasible(sv, s, g) && ApplyAll(sv, s, g) == x.s
    && forall p | p in x.kept :: WasMissing(sv, s, g, x.kept[p])
  }

  /** A point the consumer can be at: its records are kept because a predecessor was missing. */
  ghost predicate Deferrable<S(!new), P(!new)>(sv: Service<S, P>, x: Point<S, P>) {
    exists s: S, g: seq<Rec<P>> :: LedTo(sv, s, g, x)
  }

  /** What retries without faults leave does not depend on the order of the tries. */
  ghost predicate OrderIndependent<S(!new), P(!new)>(sv: Service<S, P>) {
    forall x: Point<S, P>, t1: seq<Try>, t2: seq<Try> | Deferrable(sv, x) :: AgreeOn(sv, x, t1, t2)
  }

  // ---- what order independence takes ----------------------------------------------------------------

  /** Applying p does not change the decision on another record that is still ahead. */
  ghost predicate Steady<S, P>(sv: Service<S, P>, s: S, p: Rec<P>, r: Rec<P>) {
    Fits(sv, s, p) && Ahead(sv, sv.apply(s, p), r) && Decided(Verdict(sv, s, r))
    ==> Verdict(sv, sv.apply(s, p), r) == Verdict(sv, s, r)
  }

  ghost predicate SameOwns<P>(h1: seq<Rec<P>>, h2: seq<Rec<P>>) {
    forall a: Agg :: Own(h1, a) == Own(h2, a)
  }

  predicate Alike(o1: Outcome, o2: Outcome) {
    o1 == o2 || (!Decided(o1) && !Decided(o2))
  }

  /** Two interleavings of the same events decide alike on a record that is still ahead. */
  ghost predicate SameFate<S, P>(sv: Service<S, P>, s: S, h1: seq<Rec<P>>, h2: seq<Rec<P>>, r: Rec<P>) {
    Feasible(sv, s, h1) && Feasible(sv, s, h2) && SameOwns(h1, h2) && Ahead(sv, ApplyAll(sv, s, h1), r)
    ==> Alike(Verdict(sv, ApplyAll(sv, s, h1), r), Verdict(sv, ApplyAll(sv, s, h2), r))
  }

  /** The records of a history, each on a partition of its own. */
  function Pool<P>(g: seq<Rec<P>>): map<Part, Rec<P>> {
    map i: nat | 0 <= i < |g| :: g[i]
  }

  /** No decision on a kept record is changed by applying another one. */
  ghost predicate Stable<S(!new), P(!new)>(sv: Service<S, P>) {
    forall s: S, p: Rec<P>, r: Rec<P> | Deferrable(sv, Point(s, Pool([p, r]))) :: Steady(sv, s, p, r)
  }

  /** No decision on a kept record depends on how the events of different aggregates interleave. */
  ghost predicate Commutes<S(!new), P(!new)>(sv: Service<S, P>) {
    forall s: S, h1: seq<Rec<P>>, h2: seq<Rec<P>>, r: Rec<P> | Deferrable(sv, Point(s, Pool(h1 + [r]))) ::
      SameFate(sv, s, h1, h2, r)
  }

  lemma {:induction false} FeasiblePrefix<S, P>(sv: Service<S, P>, s: S, h: seq<Rec<P>>, k: nat)
    requires Feasible(sv, s, h) && k <= |h|
    ensures Feasible(sv, s, h[..k])
  {
    if k < |h| {
      FeasiblePrefix(sv, s, h[..|h| - 1], k);
      assert h[..|h| - 1][..k] == h[..k];
    } else {
      assert h[..k] == h;
    }
  }

  lemma ApplyNext<S, P>(sv: Service<S, P>, s: S, h: seq<Rec<P>>, r: Rec<P>)
    ensures ApplyAll(sv, s, h + [r]) == sv.apply(ApplyAll(sv, s, h), r)
    ensures Feasible(sv, s, h + [r]) <==> Feasible(sv, s, h) && Fits(sv, ApplyAll(sv, s, h), r)
    ensures forall a: Agg :: Own(h + [r], a) == Own(h, a) + (if r.agg == a then [r] else [])
  {
    assert (h + [r])[..|h|] == h;
  }

  /** The records of one aggregate in a history are consecutive, and move its cursor. */
  lemma {:induction false} OwnShape<S(!new), P(!new)>(sv: Service<S, P>, s: S, h: seq<Rec<P>>, a: Agg)
    requires Lawful(sv) && Feasible(sv, s, h)
    ensures sv.cursor(ApplyAll(sv, s, h), a) == sv.cursor(s, a) + |Own(h, a)|
    ensures forall i | 0 <= i < |Own(h, a)| :: Own(h, a)[i].agg == a && Own(h, a)[i].seqNo == sv.cursor(s, a) + 1 + i && Own(h, a)[i] in h
  {
    if h != [] {
      var init, r := h[..|h| - 1], h[|h| - 1];
      OwnShape(sv, s, init, a);
      assert LawAt(sv, ApplyAll(sv, s, init), r);
      assert h == init + [r];
    }
  }

  lemma CursorGrows<S(!new), P(!new)>(sv: Service<S, P>, s: S, h: seq<Rec<P>>, i: nat, a: Agg)
    requires Lawful(sv) && Feasible(sv, s, h) && i <= |h|
    ensures sv.cursor(ApplyAll(sv, s, h[..i]), a) <= sv.cursor(ApplyAll(sv, s, h), a)
    decreases |h|
  {
    if i < |h| {
      var init := h[..|h| - 1];
      CursorGrows(sv, s, init, i, a);
      assert init[..i] == h[..i];
      assert LawAt(sv, ApplyAll(sv, s, init), h[|h| - 1]);
    } else {
      assert h[..i] == h;
    }
  }

  /** A cursor passes a position only through the accepted record of that position. */
  lemma {:induction false} Passed<S(!new), P(!new)>(sv: Service<S, P>, s: S, h: seq<Rec<P>>, a: Agg, k: nat) returns (j: nat)
    requires Lawful(sv) && Feasible(sv, s, h) && sv.cursor(s, a) < k <= sv.cursor(ApplyAll(sv, s, h), a)
    ensures j < |h| && h[j].agg == a && h[j].seqNo == k
    ensures Feasible(sv, s, h[..j]) && Fits(sv, ApplyAll(sv, s, h[..j]), h[j])
  {
    var init, r := h[..|h| - 1], h[|h| - 1];
    assert LawAt(sv, ApplyAll(sv, s, init), r);
    if k <= sv.cursor(ApplyAll(sv, s, init), a) {
      j := Passed(sv, s, init, a, k);
      assert init[..j] == h[..j];
    } else {
      j := |h| - 1;
    }
  }

  /** Once a record was applied, the cursor of its aggregate is at least its sequence. */
  lemma Later<S(!new), P(!new)>(sv: Service<S, P>, s: S, h: seq<Rec<P>>, i: nat, j: nat)
    requires Lawful(sv) && Feasible(sv, s, h) && i < j <= |h|
    ensures sv.cursor(ApplyAll(sv, s, h[..j]), h[i].agg) >= h[i].seqNo
  {
    FeasiblePrefix(sv, s, h, j);
    FeasiblePrefix(sv, s, h, i + 1);
    CursorGrows(sv, s, h[..j], i + 1, h[i].agg);
    assert h[..j][..i + 1] == h[..i + 1] && h[..i + 1][..i] == h[..i];
    assert LawAt(sv, ApplyAll(sv, s, h[..i]), h[i]);
  }


  // ---- stable and commuting decisions are enough ------------------------------------------------------

  ghost predicate Among<P>(kept: map<Part, Rec<P>>, r: Rec<P>) {
    exists p :: p in kept && kept[p] == r
  }

  /** A history of kept records that the service would accept. */
  ghost predicate Possible<S, P>(sv: Service<S, P>, x: Point<S, P>, h: seq<Rec<P>>) {
    Feasible(sv, x.s, h) && forall i | 0 <= i < |h| :: Among(x.kept, h[i])
  }

  /** The two conditions, for the records kept at one point. */
  ghost predicate GoodFor<S(!new), P(!new)>(sv: Service<S, P>, x: Point<S, P>) {
    && (forall h: seq<Rec<P>>, p: Rec<P>, r: Rec<P> | Possible(sv, x, h) && Among(x.kept, p) && Among(x.kept, r) ::
          Steady(sv, ApplyAll(sv, x.s, h), p, r))
    && (forall h1: seq<Rec<P>>, h2: seq<Rec<P>>, r: Rec<P> | Possible(sv, x, h1) && Possible(sv, x, h2) && Among(x.kept, r) ::
          SameFate(sv, x.s, h1, h2, r))
  }

  lemma PossiblePrefix<S, P>(sv: Service<S, P>, x: Point<S, P>, h: seq<Rec<P>>, k: nat)
    requires Possible(sv, x, h) && k <= |h|
    ensures Possible(sv, x, h[..k])
  {
    FeasiblePrefix(sv, x.s, h, k);
    forall i | 0 <= i < k ensures Among(x.kept, h[..k][i]) { assert Among(x.kept, h[i]); }
  }

  lemma PossibleNext<S, P>(sv: Service<S, P>, x: Point<S, P>, h: seq<Rec<P>>, r: Rec<P>)
    requires Possible(sv, x, h) && Among(x.kept, r) && Fits(sv, ApplyAll(sv, x.s, h), r)
    ensures Possible(sv, x, h + [r])
  {
    ApplyNext(sv, x.s, h, r);
    forall i | 0 <= i < |h + [r]| ensures Among(x.kept, (h + [r])[i]) {
      if i < |h| { assert Among(x.kept, h[i]); }
    }
  }

  /** The record was rejected for good after a part of the history. */
  ghost predicate PoisonedAt<S, P>(sv: Service<S, P>, s: S, h: seq<Rec<P>>, r: Rec<P>, i: nat) {
    i <= |h| && Verdict(sv, ApplyAll(sv, s, h[..i]), r) == Poisoned
  }

  /** Why a record is no longer kept. */
  ghost predicate Gone<S, P>(sv: Service<S, P>, s: S, h: seq<Rec<P>>, r: Rec<P>) {
    !Ahead(sv, ApplyAll(sv, s, h), r) || exists i: nat :: PoisonedAt(sv, s, h, r, i)
  }

  /** The history applied on the way from x to y, and the reasons for what left. */
  ghost predicate Explains<S, P>(sv: Service<S, P>, x: Point<S, P>, y: Point<S, P>, h: seq<Rec<P>>) {
    && Possible(sv, x, h) && y.s == ApplyAll(sv, x.s, h)
    && (forall p | p in y.kept :: p in x.kept && y.kept[p] == x.kept[p])
    && (forall p | p in x.kept && p !in y.kept :: Gone(sv, x.s, h, x.kept[p]))
  }

  lemma GoneStays<S(!new), P(!new)>(sv: Service<S, P>, s: S, h: seq<Rec<P>>, e: Rec<P>, r: Rec<P>)
    requires Lawful(sv) && Feasible(sv, s, h + [e]) && Gone(sv, s, h, r)
    ensures Gone(sv, s, h + [e], r)
  {
    ApplyNext(sv, s, h, e);
    assert LawAt(sv, ApplyAll(sv, s, h), e);
    if i: nat :| PoisonedAt(sv, s, h, r, i) {
      assert (h + [e])[..i] == h[..i];
      assert PoisonedAt(sv, s, h + [e], r, i);
    }
  }

  lemma ExplainsApplied<S(!new), P(!new)>(sv: Service<S, P>, x: Point<S, P>, y: Point<S, P>, h: seq<Rec<P>>, p: Part)
    requires Lawful(sv) && Explains(sv, x, y, h) && p in y.kept && Fits(sv, y.s, y.kept[p])
    ensures Explains(sv, x, Point(sv.apply(y.s, y.kept[p]), y.kept - {p}), h + [y.kept[p]])
  {
    var e := y.kept[p];
    assert x.kept[p] == e;
    PossibleNext(sv, x, h, e);
    ApplyNext(sv, x.s, h, e);
    assert LawAt(sv, y.s, e);
    forall q | q in x.kept && q !in y.kept - {p} ensures Gone(sv, x.s, h + [e], x.kept[q]) {
      if q !in y.kept { GoneStays(sv, x.s, h, e, x.kept[q]); }
    }
  }

  lemma ExplainsReleased<S, P>(sv: Service<S, P>, x: Point<S, P>, y: Point<S, P>, h: seq<Rec<P>>, p: Part)
    requires Explains(sv, x, y, h) && p in y.kept
    requires !Ahead(sv, y.s, y.kept[p]) || Verdict(sv, y.s, y.kept[p]) == Poisoned
    ensures Explains(sv, x, Point(y.s, y.kept - {p}), h)
  {
    var e := y.kept[p];
    assert h[..|h|] == h;
    if Verdict(sv, y.s, e) == Poisoned { assert PoisonedAt(sv, x.s, h, e, |h|); }
  }

  /** Every sequence of clean tries has such a history. */
  lemma {:induction false} HistoryOf<S(!new), P(!new)>(sv: Service<S, P>, x: Point<S, P>, tries: seq<Try>) returns (h: seq<Rec<P>>)
    requires Lawful(sv) && AllClean(tries)
    ensures Explains(sv, x, TryAll(sv, x, tries), h)
  {
    if tries == [] {
      h := [];
    } else {
      var init, t := tries[..|tries| - 1], tries[|tries| - 1];
      h := HistoryOf(sv, x, init);
      var y := TryAll(sv, x, init);
      if t.part in y.kept && Decided(Verdict(sv, y.s, y.kept[t.part])) {
        var e := y.kept[t.part];
        assert LawAt(sv, y.s, e);
        if Fits(sv, y.s, e) {
          ExplainsApplied(sv, x, y, h, t.part);
          h := h + [e];
        } else {
          ExplainsReleased(sv, x, y, h, t.part);
        }
      }
    }
  }

  /** A decision holds along a history until the record's position is passed. */
  lemma {:induction false} DecisionKept<S(!new), P(!new)>(sv: Service<S, P>, x: Point<S, P>, h: seq<Rec<P>>, i: nat, r: Rec<P>)
    requires Lawful(sv) && GoodFor(sv, x) && Possible(sv, x, h) && Among(x.kept, r) && i <= |h|
    requires Ahead(sv, ApplyAll(sv, x.s, h), r) && Decided(Verdict(sv, ApplyAll(sv, x.s, h[..i]), r))
    ensures Verdict(sv, ApplyAll(sv, x.s, h), r) == Verdict(sv, ApplyAll(sv, x.s, h[..i]), r)
    decreases |h|
  {
    if i == |h| {
      assert h[..i] == h;
    } else {
      var init, p := h[..|h| - 1], h[|h| - 1];
      PossiblePrefix(sv, x, h, |h| - 1);
      assert Among(x.kept, p);
      assert LawAt(sv, ApplyAll(sv, x.s, init), p);
      assert init[..i] == h[..i];
      DecisionKept(sv, x, init, i, r);
      assert Steady(sv, ApplyAll(sv, x.s, init), p, r);
    }
  }

  /** A record stays ahead unless it is itself in the history. */
  lemma StaysAhead<S(!new), P(!new)>(sv: Service<S, P>, x: Point<S, P>, h: seq<Rec<P>>, r: Rec<P>)
    requires Lawful(sv) && Distinct(x.kept) && Possible(sv, x, h) && Among(x.kept, r) && Ahead(sv, x.s, r) && r !in h
    ensures Ahead(sv, ApplyAll(sv, x.s, h), r)
  {
    forall j | 0 <= j < |h| ensures !(h[j].agg == r.agg && h[j].seqNo == r.seqNo) {
      assert Among(x.kept, h[j]);
      var p, q :| p in x.kept && x.kept[p] == r && q in x.kept && x.kept[q] == h[j];
    }
    if !Ahead(sv, ApplyAll(sv, x.s, h), r) {
      var j := Passed(sv, x.s, h, r.agg, r.seqNo);
      assert false;
    }
  }

  /** Histories of the same records agree on every aggregate. */
  lemma SameRecordsSameOwns<S(!new), P(!new)>(sv: Service<S, P>, s: S, h1: seq<Rec<P>>, h2: seq<Rec<P>>)
    requires Lawful(sv) && Feasible(sv, s, h1) && Feasible(sv, s, h2) && forall r :: r in h1 <==> r in h2
    ensures SameOwns(h1, h2)
  {
    forall a: Agg ensures Own(h1, a) == Own(h2, a) {
      NotLonger(sv, s, h1, h2, a);
      NotLonger(sv, s, h2, h1, a);
    }
  }

  lemma NotLonger<S(!new), P(!new)>(sv: Service<S, P>, s: S, h1: seq<Rec<P>>, h2: seq<Rec<P>>, a: Agg)
    requires Lawful(sv) && Feasible(sv, s, h1) && Feasible(sv, s, h2) && forall r :: r in h1 ==> r in h2
    ensures Own(h1, a) <= Own(h2, a)
  {
    var n := |Own(h1, a)|;
    if n > 0 { SamePlace(sv, s, h1, h2, a, n - 1); }
    forall i: nat | i < n ensures Own(h1, a)[i] == Own(h2, a)[i] { SamePlace(sv, s, h1, h2, a, i); }
  }

  lemma SamePlace<S(!new), P(!new)>(sv: Service<S, P>, s: S, h1: seq<Rec<P>>, h2: seq<Rec<P>>, a: Agg, i: nat)
    requires Lawful(sv) && Feasible(sv, s, h1) && Feasible(sv, s, h2) && forall r :: r in h1 ==> r in h2
    requires i < |Own(h1, a)|
    ensures i < |Own(h2, a)| && Own(h2, a)[i] == Own(h1, a)[i]
  {
    OwnShape(sv, s, h1, a);
    OwnShape(sv, s, h2, a);
    OwnRecords(h2, a);
    var r := Own(h1, a)[i];
    assert r in h1 && r.agg == a;
    var k :| 0 <= k < |Own(h2, a)| && Own(h2, a)[k] == r;
    assert Own(h2, a)[k].seqNo == sv.cursor(s, a) + 1 + k;
  }

  /** The records of the first history that the second does not have, in order. */
  ghost function Minus<P>(h: seq<Rec<P>>, other: seq<Rec<P>>): seq<Rec<P>> {
    if h == [] then []
    else Minus(h[..|h| - 1], other) + (if h[|h| - 1] in other then [] else [h[|h| - 1]])
  }

  lemma {:induction false} MinusRecords<P>(h: seq<Rec<P>>, other: seq<Rec<P>>)
    ensures forall r :: r in Minus(h, other) <==> r in h && r !in other
  {
    if h != [] {
      MinusRecords(h[..|h| - 1], other);
      assert h == h[..|h| - 1] + [h[|h| - 1]];
    }
  }

  /** What another order applied can still be applied after this one. */
  lemma {:induction false} Merge<S(!new), P(!new)>(sv: Service<S, P>, x: Point<S, P>, h1: seq<Rec<P>>, h2: seq<Rec<P>>)
    requires Lawful(sv) && GoodFor(sv, x) && Distinct(x.kept) && Possible(sv, x, h1) && Possible(sv, x, h2)
    ensures Possible(sv, x, h1 + Minus(h2, h1))
    decreases |h1| + |h2|
  {
    if h2 == [] {
      assert h1 + Minus(h2, h1) == h1;
    } else {
      var g, r := h2[..|h2| - 1], h2[|h2| - 1];
      PossiblePrefix(sv, x, h2, |h2| - 1);
      Merge(sv, x, h1, g);
      if r in h1 {
        assert Minus(h2, h1) == Minus(g, h1);
      } else {
        Merge(sv, x, g, h1);
        MergeNext(sv, x, h1, g, r);
        assert h1 + Minus(h2, h1) == h1 + Minus(g, h1) + [r];
      }
    }
  }

  lemma MergeNext<S(!new), P(!new)>(sv: Service<S, P>, x: Point<S, P>, h1: seq<Rec<P>>, g: seq<Rec<P>>, r: Rec<P>)
    requires Lawful(sv) && GoodFor(sv, x) && Distinct(x.kept) && Among(x.kept, r) && r !in h1
    requires Possible(sv, x, h1 + Minus(g, h1)) && Possible(sv, x, g + Minus(h1, g)) && Possible(sv, x, g)
    requires Fits(sv, ApplyAll(sv, x.s, g), r)
    ensures Possible(sv, x, h1 + Minus(g, h1) + [r])
  {
    var m1, m2 := h1 + Minus(g, h1), g + Minus(h1, g);
    MinusRecords(g, h1);
    MinusRecords(h1, g);
    NotApplied(sv, x, g, r);
    SameRecordsSameOwns(sv, x.s, m1, m2);
    StaysAhead(sv, x, m2, r);
    assert m2[..|g|] == g;
    DecisionKept(sv, x, m2, |g|, r);
    assert SameFate(sv, x.s, m2, m1, r);
    StaysAhead(sv, x, m1, r);
    assert LawAt(sv, ApplyAll(sv, x.s, m1), r);
    PossibleNext(sv, x, m1, r);
  }

  /** The next record of an aggregate was not applied before. */
  lemma NotApplied<S(!new), P(!new)>(sv: Service<S, P>, x: Point<S, P>, g: seq<Rec<P>>, r: Rec<P>)
    requires Lawful(sv) && Feasible(sv, x.s, g) && Ahead(sv, ApplyAll(sv, x.s, g), r)
    ensures r !in g && Ahead(sv, x.s, r)
  {
    assert g[..|g|] == g && g[..0] == [];
    CursorGrows(sv, x.s, g, 0, r.agg);
    forall i | 0 <= i < |g| ensures g[i] != r { Later(sv, x.s, g, i, |g|); }
  }

  /** A settled order applied everything that another order applied. */
  lemma AppliedToo<S(!new), P(!new)>(sv: Service<S, P>, x: Point<S, P>, y: Point<S, P>, h1: seq<Rec<P>>, h2: seq<Rec<P>>)
    requires Lawful(sv) && GoodFor(sv, x) && Distinct(x.kept) && Explains(sv, x, y, h1) && Settled(sv, y) && Possible(sv, x, h2)
    ensures forall r :: r in h2 ==> r in h1
  {
    var rest := Minus(h2, h1);
    MinusRecords(h2, h1);
    if rest != [] {
      Merge(sv, x, h1, h2);
      var r := rest[0];
      PossiblePrefix(sv, x, h1 + rest, |h1| + 1);
      assert (h1 + rest)[..|h1| + 1] == h1 + [r];
      ApplyNext(sv, x.s, h1, r);
      assert Among(x.kept, (h1 + [r])[|h1|]);
      StillFits(sv, x, y, h1, r);
      assert false;
    }
  }

  /** In a settled point no kept record fits. */
  lemma StillFits<S(!new), P(!new)>(sv: Service<S, P>, x: Point<S, P>, y: Point<S, P>, h: seq<Rec<P>>, r: Rec<P>)
    requires Lawful(sv) && GoodFor(sv, x) && Explains(sv, x, y, h) && Settled(sv, y) && Among(x.kept, r)
    ensures !Fits(sv, y.s, r)
  {
    var p :| p in x.kept && x.kept[p] == r;
    if Fits(sv, y.s, r) {
      assert p !in y.kept;
      var i: nat :| PoisonedAt(sv, x.s, h, r, i);
      DecisionKept(sv, x, h, i, r);
      assert false;
    }
  }

  /** What one order still keeps, another settled order with the same history keeps too. */
  lemma KeptToo<S(!new), P(!new)>(sv: Service<S, P>, x: Point<S, P>, y1: Point<S, P>, h1: seq<Rec<P>>, y2: Point<S, P>, h2: seq<Rec<P>>, p: Part)
    requires Lawful(sv) && GoodFor(sv, x) && Explains(sv, x, y1, h1) && Settled(sv, y1) && Explains(sv, x, y2, h2)
    requires SameOwns(h2, h1) && p in y1.kept && sv.cursor(y1.s, y1.kept[p].agg) == sv.cursor(y2.s, y1.kept[p].agg)
    ensures p in y2.kept
  {
    var r := y1.kept[p];
    assert x.kept[p] == r;
    assert LawAt(sv, y1.s, r);
    assert SameFate(sv, x.s, h2, h1, r);
    if p !in y2.kept {
      var i: nat :| PoisonedAt(sv, x.s, h2, r, i);
      DecisionKept(sv, x, h2, i, r);
      assert false;
    }
  }

  /** At a point where the two conditions hold, the order of the tries does not matter. */
  lemma AgreeIfGood<S(!new), P(!new)>(sv: Service<S, P>, x: Point<S, P>, t1: seq<Try>, t2: seq<Try>)
    requires Lawful(sv) && GoodFor(sv, x)
    ensures AgreeOn(sv, x, t1, t2)
  {
    var y1, y2 := TryAll(sv, x, t1), TryAll(sv, x, t2);
    if Distinct(x.kept) && AllClean(t1) && AllClean(t2) && Settled(sv, y1) && Settled(sv, y2) {
      var h1 := HistoryOf(sv, x, t1);
      var h2 := HistoryOf(sv, x, t2);
      AppliedToo(sv, x, y1, h1, h2);
      AppliedToo(sv, x, y2, h2, h1);
      SameRecordsSameOwns(sv, x.s, h1, h2);
      forall a: Agg ensures sv.cursor(y1.s, a) == sv.cursor(y2.s, a) {
        OwnShape(sv, x.s, h1, a);
        OwnShape(sv, x.s, h2, a);
      }
      forall p ensures p in y1.kept <==> p in y2.kept {
        if p in y1.kept { KeptToo(sv, x, y1, h1, y2, h2, p); }
        if p in y2.kept { KeptToo(sv, x, y2, h2, y1, h1, p); }
      }
      assert y1.kept.Keys == y2.kept.Keys;
    }
  }

  // ---- points reached later are reached as well -----------------------------------------------------

  lemma {:induction false} ApplyJoin<S, P>(sv: Service<S, P>, s: S, g: seq<Rec<P>>, h: seq<Rec<P>>)
    requires Feasible(sv, s, g) && Feasible(sv, ApplyAll(sv, s, g), h)
    ensures ApplyAll(sv, s, g + h) == ApplyAll(sv, ApplyAll(sv, s, g), h) && Feasible(sv, s, g + h)
  {
    if h == [] {
      assert g + h == g;
    } else {
      ApplyJoin(sv, s, g, h[..|h| - 1]);
      assert (g + h)[..|g + h| - 1] == g + h[..|h| - 1];
    }
  }

  /** Any of the kept records are deferrable after any of them were applied. */
  lemma DeferrableLater<S(!new), P(!new)>(sv: Service<S, P>, x: Point<S, P>, h: seq<Rec<P>>, rs: seq<Rec<P>>)
    requires Deferrable(sv, x) && Feasible(sv, x.s, h) && forall i | 0 <= i < |rs| :: Among(x.kept, rs[i])
    ensures Deferrable(sv, Point(ApplyAll(sv, x.s, h), Pool(rs)))
  {
    var s: S, g: seq<Rec<P>> :| LedTo(sv, s, g, x);
    ApplyJoin(sv, s, g, h);
    forall p | p in Pool(rs) ensures WasMissing(sv, s, g + h, Pool(rs)[p]) {
      assert Among(x.kept, rs[p]);
      var q :| q in x.kept && x.kept[q] == rs[p];
      var k: nat :| k <= |g| && Verdict(sv, ApplyAll(sv, s, g[..k]), rs[p]) == Missing;
      assert (g + h)[..k] == g[..k];
    }
    assert LedTo(sv, s, g + h, Point(ApplyAll(sv, x.s, h), Pool(rs)));
  }

  lemma GoodEverywhere<S(!new), P(!new)>(sv: Service<S, P>, x: Point<S, P>)
    requires Stable(sv) && Commutes(sv) && Deferrable(sv, x)
    ensures GoodFor(sv, x)
  {
    forall h: seq<Rec<P>>, p: Rec<P>, r: Rec<P> | Possible(sv, x, h) && Among(x.kept, p) && Among(x.kept, r)
      ensures Steady(sv, ApplyAll(sv, x.s, h), p, r)
    {
      DeferrableLater(sv, x, h, [p, r]);
    }
    forall h1: seq<Rec<P>>, h2: seq<Rec<P>>, r: Rec<P> | Possible(sv, x, h1) && Possible(sv, x, h2) && Among(x.kept, r)
      ensures SameFate(sv, x.s, h1, h2, r)
    {
      forall i | 0 <= i < |h1 + [r]| ensures Among(x.kept, (h1 + [r])[i]) {
        if i < |h1| { assert Among(x.kept, h1[i]); }
      }
      DeferrableLater(sv, x, [], h1 + [r]);
    }
  }

  // ---- tries, one after the other -------------------------------------------------------------------

  lemma {:induction false} TryFirst<S, P>(sv: Service<S, P>, x: Point<S, P>, t: Try, rest: seq<Try>)
    ensures TryAll(sv, x, [t] + rest) == TryAll(sv, TryOne(sv, x, t), rest)
  {
    if rest == [] {
      assert [t] + rest == [t] && [t][..0] == [];
      assert TryAll(sv, x, [t][..0]) == x;
    } else {
      TryFirst(sv, x, t, rest[..|rest| - 1]);
      assert ([t] + rest)[..|rest|] == [t] + rest[..|rest| - 1];
    }
  }

  /** What the three kinds of tries do to a kept record. */
  lemma TryResult<S, P>(sv: Service<S, P>, x: Point<S, P>, p: Part)
    requires p in x.kept
    ensures TryOne(sv, x, Try(p, Lost)) == x
    ensures TryOne(sv, x, Try(p, Uncommitted)) == Point(Handled(sv, x.s, x.kept[p]), x.kept)
    ensures TryOne(sv, x, Try(p, Clean)) ==
            if !Decided(Verdict(sv, x.s, x.kept[p])) then x else Point(Handled(sv, x.s, x.kept[p]), x.kept - {p})
  {
  }

  lemma TryLast<S, P>(sv: Service<S, P>, x: Point<S, P>, tries: seq<Try>, t: Try)
    ensures TryAll(sv, x, tries + [t]) == TryOne(sv, TryAll(sv, x, tries), t)
    ensures AllClean(tries) && t.luck == Clean ==> AllClean(tries + [t])
  {
    assert (tries + [t])[..|tries|] == tries;
  }

  lemma {:induction false} TryJoin<S, P>(sv: Service<S, P>, x: Point<S, P>, t1: seq<Try>, t2: seq<Try>)
    ensures TryAll(sv, x, t1 + t2) == TryAll(sv, TryAll(sv, x, t1), t2)
  {
    if t2 == [] {
      assert t1 + t2 == t1;
    } else {
      TryJoin(sv, x, t1, t2[..|t2| - 1]);
      assert (t1 + t2)[..|t1 + t2| - 1] == t1 + t2[..|t2| - 1];
    }
  }

  /** Trying the given partitions one after the other. */
  function Tries(parts: seq<nat>): seq<Try> {
    seq(|parts|, i requires 0 <= i < |parts| => Try(parts[i], Clean))
  }

  predicate NoRepeats(parts: seq<nat>) {
    forall i, j | 0 <= i < j < |parts| :: parts[i] != parts[j]
  }

  function Members(parts: seq<nat>): set<nat> {
    set i | 0 <= i < |parts| :: parts[i]
  }

  /** Trying an accepted history in its own order applies it and releases its records. */
  lemma {:induction false} TryHistory<S, P>(sv: Service<S, P>, x: Point<S, P>, h: seq<Rec<P>>, parts: seq<nat>)
    requires Feasible(sv, x.s, h) && |parts| == |h| && NoRepeats(parts)
    requires forall j | 0 <= j < |h| :: parts[j] in x.kept && x.kept[parts[j]] == h[j]
    ensures TryAll(sv, x, Tries(parts)) == Point(ApplyAll(sv, x.s, h), x.kept - Members(parts))
  {
    if h == [] {
      assert x.kept - Members(parts) == x.kept;
    } else {
      var n := |h| - 1;
      TryHistory(sv, x, h[..n], parts[..n]);
      TryLast(sv, x, Tries(parts[..n]), Try(parts[n], Clean));
      assert Tries(parts) == Tries(parts[..n]) + [Try(parts[n], Clean)];
      assert Members(parts) == Members(parts[..n]) + {parts[n]};
      assert parts[n] !in Members(parts[..n]);
    }
  }

  // ---- the conditions are needed ----------------------------------------------------------------------

  /** Tries one record, then another. */
  function InOrder(p: Part, q: Part): seq<Try> {
    [Try(p, Clean), Try(q, Clean)]
  }

  lemma TwoTries<S, P>(sv: Service<S, P>, x: Point<S, P>, p: Part, q: Part)
    ensures AllClean(InOrder(p, q))
    ensures TryAll(sv, x, InOrder(p, q)) == TryOne(sv, TryOne(sv, x, Try(p, Clean)), Try(q, Clean))
  {
    TryFirst(sv, x, Try(p, Clean), [Try(q, Clean)]);
    TryFirst(sv, TryOne(sv, x, Try(p, Clean)), Try(q, Clean), []);
    assert [Try(p, Clean)] + [Try(q, Clean)] == InOrder(p, q) && [Try(q, Clean)] + [] == [Try(q, Clean)];
  }

  /** The accepted record first. */
  lemma FirstOrder<S(!new), P(!new)>(sv: Service<S, P>, s: S, p: Rec<P>, r: Rec<P>)
    requires Fits(sv, s, p)
    ensures var y := TryAll(sv, Point(s, Pool([p, r])), InOrder(0, 1));
            var v := Verdict(sv, sv.apply(s, p), r);
            && Settled(sv, y)
            && y == if Decided(v) then Point(Handled(sv, sv.apply(s, p), r), map[]) else Point(sv.apply(s, p), map[1 := r])
  {
    var x := Point(s, Pool([p, r]));
    TwoTries(sv, x, 0, 1);
    assert Pool([p, r]) - {0} == map[1 := r];
    assert map[1 := r] - {1} == map[];
  }

  /** The decided record first. */
  lemma SecondOrder<S(!new), P(!new)>(sv: Service<S, P>, s: S, p: Rec<P>, r: Rec<P>)
    requires Decided(Verdict(sv, s, r))
    ensures var y := TryAll(sv, Point(s, Pool([p, r])), InOrder(1, 0));
            var s' := Handled(sv, s, r);
            && Settled(sv, y)
            && y == if Decided(Verdict(sv, s', p)) then Point(Handled(sv, s', p), map[]) else Point(s', map[0 := p])
  {
    var x := Point(s, Pool([p, r]));
    TwoTries(sv, x, 1, 0);
    assert Pool([p, r]) - {1} == map[0 := p];
    assert map[0 := p] - {0} == map[];
  }

  /** Both orders leaving the same shows the same decision. */
  lemma SteadyShown<S(!new), P(!new)>(sv: Service<S, P>, s: S, p: Rec<P>, r: Rec<P>)
    requires Lawful(sv) && Fits(sv, s, p) && Ahead(sv, sv.apply(s, p), r) && Decided(Verdict(sv, s, r))
    requires SameResult(sv, TryAll(sv, Point(s, Pool([p, r])), InOrder(0, 1)), TryAll(sv, Point(s, Pool([p, r])), InOrder(1, 0)))
    ensures Verdict(sv, sv.apply(s, p), r) == Verdict(sv, s, r)
  {
    FirstOrder(sv, s, p, r);
    SecondOrder(sv, s, p, r);
    assert LawAt(sv, s, p) && LawAt(sv, s, r) && LawAt(sv, sv.apply(s, p), r) && LawAt(sv, Handled(sv, s, r), p);
  }

  /** If the order never matters, applying one kept record does not change the decision on another. */
  lemma StableNeeded<S(!new), P(!new)>(sv: Service<S, P>, s: S, p: Rec<P>, r: Rec<P>)
    requires Lawful(sv) && OrderIndependent(sv) && Deferrable(sv, Point(s, Pool([p, r])))
    ensures Steady(sv, s, p, r)
  {
    if Fits(sv, s, p) && Ahead(sv, sv.apply(s, p), r) && Decided(Verdict(sv, s, r)) {
      var x := Point(s, Pool([p, r]));
      assert LawAt(sv, s, p);
      assert Distinct(x.kept);
      FirstOrder(sv, s, p, r);
      SecondOrder(sv, s, p, r);
      TwoTries(sv, x, 0, 1);
      TwoTries(sv, x, 1, 0);
      assert AgreeOn(sv, x, InOrder(0, 1), InOrder(1, 0));
      SteadyShown(sv, s, p, r);
    }
  }

  lemma {:induction false} OwnRecords<P>(h: seq<Rec<P>>, a: Agg)
    ensures forall r :: r in Own(h, a) <==> r in h && r.agg == a
  {
    if h != [] {
      OwnRecords(h[..|h| - 1], a);
      assert h == h[..|h| - 1] + [h[|h| - 1]];
    }
  }

  /** Positions in a history and in the record after it are all different. */
  lemma HistoryDistinct<S(!new), P(!new)>(sv: Service<S, P>, s: S, h: seq<Rec<P>>, r: Rec<P>)
    requires Lawful(sv) && Feasible(sv, s, h) && Ahead(sv, ApplyAll(sv, s, h), r)
    ensures Distinct(Pool(h + [r]))
  {
    forall i: nat, j: nat | i < j <= |h| && (h + [r])[i].agg == (h + [r])[j].agg
      ensures (h + [r])[i].seqNo < (h + [r])[j].seqNo
    {
      Later(sv, s, h, i, j);
      if j < |h| { FeasiblePrefix(sv, s, h, j + 1); assert h[..j + 1][..j] == h[..j]; } else { assert h[..j] == h; }
    }
  }

  /** Where the records of another interleaving are in the pool of this one. */
  lemma Places<P>(h1: seq<Rec<P>>, h2: seq<Rec<P>>) returns (parts: seq<nat>)
    requires SameOwns(h1, h2)
    ensures |parts| == |h2| && forall j | 0 <= j < |h2| :: parts[j] < |h1| && h1[parts[j]] == h2[j]
  {
    SameRecords(h1, h2);
    parts := seq(|h2|, j requires 0 <= j < |h2| => (assert h2[j] in h1; var i: nat :| i < |h1| && h1[i] == h2[j]; i));
  }

  lemma SameRecords<P>(h1: seq<Rec<P>>, h2: seq<Rec<P>>)
    requires SameOwns(h1, h2)
    ensures forall r :: r in h1 <==> r in h2
  {
    forall r ensures r in h1 <==> r in h2 {
      OwnRecords(h1, r.agg);
      OwnRecords(h2, r.agg);
    }
  }

  /** What a try of the last record leaves. */
  function Left<S, P>(sv: Service<S, P>, s: S, n: Part, r: Rec<P>): Point<S, P> {
    if Decided(Verdict(sv, s, r)) then Point(Handled(sv, s, r), map[]) else Point(s, map[n := r])
  }

  lemma LastTry<S, P>(sv: Service<S, P>, s: S, n: Part, r: Rec<P>)
    ensures TryOne(sv, Point(s, map[n := r]), Try(n, Clean)) == Left(sv, s, n, r) && Settled(sv, Left(sv, s, n, r))
  {
    assert map[n := r] - {n} == map[];
  }

  lemma OneLeft<P>(h: seq<Rec<P>>, r: Rec<P>)
    ensures Pool(h + [r]) - Pool(h).Keys == map[|h| := r]
  {
    var left := Pool(h + [r]) - Pool(h).Keys;
    assert left.Keys == {|h|} && left[|h|] == r;
  }

  /** Trying the records in the order of another interleaving, then the record in question. */
  lemma FateShows<S(!new), P(!new)>(sv: Service<S, P>, s: S, h1: seq<Rec<P>>, h2: seq<Rec<P>>, r: Rec<P>) returns (tries: seq<Try>)
    requires Lawful(sv) && Feasible(sv, s, h1) && Feasible(sv, s, h2) && SameOwns(h1, h2) && Ahead(sv, ApplyAll(sv, s, h1), r)
    ensures var y := TryAll(sv, Point(s, Pool(h1 + [r])), tries);
            AllClean(tries) && Settled(sv, y) && y == Left(sv, ApplyAll(sv, s, h2), |h1|, r)
  {
    var x, n := Point(s, Pool(h1 + [r])), |h1|;
    var parts := Places(h1, h2);
    HistoryDistinct(sv, s, h1, r);
    PlacesCover(sv, s, h1, h2, r, parts);
    TryHistory(sv, x, h2, parts);
    OneLeft(h1, r);
    TryLast(sv, x, Tries(parts), Try(n, Clean));
    LastTry(sv, ApplyAll(sv, s, h2), n, r);
    tries := Tries(parts) + [Try(n, Clean)];
  }

  lemma PlacesCover<S(!new), P(!new)>(sv: Service<S, P>, s: S, h1: seq<Rec<P>>, h2: seq<Rec<P>>, r: Rec<P>, parts: seq<nat>)
    requires Lawful(sv) && Feasible(sv, s, h2) && SameOwns(h1, h2) && Distinct(Pool(h1 + [r]))
    requires |parts| == |h2| && forall j | 0 <= j < |h2| :: parts[j] < |h1| && h1[parts[j]] == h2[j]
    ensures NoRepeats(parts) && Members(parts) == Pool(h1).Keys
  {
    forall i, j | 0 <= i < j < |parts| ensures parts[i] != parts[j] {
      Later(sv, s, h2, i, j);
      FeasiblePrefix(sv, s, h2, j + 1);
      assert h2[..j + 1][..j] == h2[..j];
    }
    SameRecords(h1, h2);
    forall i: nat | i < |h1| ensures i in Members(parts) {
      assert h1[i] in h2;
      var j :| 0 <= j < |h2| && h2[j] == h1[i];
      var kept := Pool(h1 + [r]);
      assert kept[i] == h1[i] && kept[parts[j]] == h1[parts[j]];
      assert parts[j] in Members(parts);
    }
  }

  /** Leaving the same shows the same fate. */
  lemma FateFromLeft<S(!new), P(!new)>(sv: Service<S, P>, s1: S, s2: S, n: Part, r: Rec<P>)
    requires Lawful(sv) && Ahead(sv, s1, r) && Ahead(sv, s2, r)
    requires SameResult(sv, Left(sv, s1, n, r), Left(sv, s2, n, r))
    ensures Alike(Verdict(sv, s1, r), Verdict(sv, s2, r))
  {
    assert LawAt(sv, s1, r) && LawAt(sv, s2, r);
    assert n in map[n := r];
  }

  /** If the order never matters, the interleaving of the events decides nothing. */
  lemma CommutesNeeded<S(!new), P(!new)>(sv: Service<S, P>, s: S, h1: seq<Rec<P>>, h2: seq<Rec<P>>, r: Rec<P>)
    requires Lawful(sv) && OrderIndependent(sv) && Deferrable(sv, Point(s, Pool(h1 + [r])))
    ensures SameFate(sv, s, h1, h2, r)
  {
    if Feasible(sv, s, h1) && Feasible(sv, s, h2) && SameOwns(h1, h2) && Ahead(sv, ApplyAll(sv, s, h1), r) {
      var t1 := FateShows(sv, s, h1, h1, r);
      var t2 := FateShows(sv, s, h1, h2, r);
      HistoryDistinct(sv, s, h1, r);
      OwnShape(sv, s, h1, r.agg);
      OwnShape(sv, s, h2, r.agg);
      assert Own(h1, r.agg) == Own(h2, r.agg);
      assert AgreeOn(sv, Point(s, Pool(h1 + [r])), t1, t2);
      FateFromLeft(sv, ApplyAll(sv, s, h1), ApplyAll(sv, s, h2), |h1|, r);
    }
  }

  /**
   Exactly when retries are order independent: what they leave of records that were put aside
   never depends on the order of the tries if and only if applying one such record never changes
   the decision on another that is still ahead, and the interleaving of the same events never
   decides anything.
   */
  lemma OrderIndependentIff<S(!new), P(!new)>(sv: Service<S, P>)
    requires Lawful(sv)
    ensures OrderIndependent(sv) <==> Stable(sv) && Commutes(sv)
  {
    if Stable(sv) && Commutes(sv) {
      forall x: Point<S, P>, t1: seq<Try>, t2: seq<Try> | Deferrable(sv, x) ensures AgreeOn(sv, x, t1, t2) {
        GoodEverywhere(sv, x);
        AgreeIfGood(sv, x, t1, t2);
      }
    }
    if OrderIndependent(sv) {
      forall s: S, p: Rec<P>, r: Rec<P> | Deferrable(sv, Point(s, Pool([p, r]))) ensures Steady(sv, s, p, r) {
        StableNeeded(sv, s, p, r);
      }
      forall s: S, h1: seq<Rec<P>>, h2: seq<Rec<P>>, r: Rec<P> | Deferrable(sv, Point(s, Pool(h1 + [r])))
        ensures SameFate(sv, s, h1, h2, r)
      {
        CommutesNeeded(sv, s, h1, h2, r);
      }
    }
  }

  /** Two settled results with different cursors show that the order matters. */
  lemma Disagree<S(!new), P(!new)>(sv: Service<S, P>, x: Point<S, P>, t1: seq<Try>, t2: seq<Try>, a: Agg)
    requires Deferrable(sv, x) && Distinct(x.kept) && AllClean(t1) && AllClean(t2)
    requires Settled(sv, TryAll(sv, x, t1)) && Settled(sv, TryAll(sv, x, t2))
    requires sv.cursor(TryAll(sv, x, t1).s, a) != sv.cursor(TryAll(sv, x, t2).s, a)
    ensures !OrderIndependent(sv)
  {
    assert !AgreeOn(sv, x, t1, t2);
  }
}
