/**
 Applying a numbered event stream exactly once and in order, whatever the delivery does:
 duplicates, reordering, gaps and retries.  The access outcome inbox, the access lifecycle
 inbox and the provisioning command inbox are instances.
 */
module OrderedInbox {
  import opened Common

  datatype Event<P> = Event(id: EventId, seqNo: nat, payload: P)

  /** One delivery; the context is what the handler reads at that moment, such as the clock. */
  datatype Arrival<P, X> = Arrival(event: Event<P>, context: X)

  datatype Inbox<S, P, X> = Inbox(cursor: nat, seen: map<EventId, Event<P>>, state: S, log: seq<Arrival<P, X>>)

  type Handler<!S, !P, !X> = (S, P, X) -> Result<S>

  function Accept<S, P, X>(b: Inbox<S, P, X>, a: Arrival<P, X>, h: Handler<S, P, X>): Result<Inbox<S, P, X>> {
    var r := h(b.state, a.event.payload, a.context);
    if r.Err? then Err(r.error)
    else Ok(Inbox(a.event.seqNo, b.seen[a.event.id := a.event], r.value, b.log + [a]))
  }

  /** Gap check, then the inbox row, then the cursor; an error rolls everything back. */
  function Deliver<S, P(==), X>(b: Inbox<S, P, X>, a: Arrival<P, X>, h: Handler<S, P, X>): Result<Inbox<S, P, X>> {
    if a.event.seqNo < 1 then Err(Conflict)
    else if a.event.seqNo > b.cursor + 1 then Err(Gap)
    else if a.event.id in b.seen then
      if b.seen[a.event.id] == a.event then Ok(b) else Err(Conflict)
    else if a.event.seqNo <= b.cursor then Err(Conflict)
    else Accept(b, a, h)
  }

  /** The other order: inbox row first, then gap and cursor. */
  function DeliverSeenFirst<S, P(==), X>(b: Inbox<S, P, X>, a: Arrival<P, X>, h: Handler<S, P, X>): Result<Inbox<S, P, X>> {
    if a.event.id in b.seen then
      if b.seen[a.event.id] == a.event then Ok(b) else Err(Conflict)
    else if a.event.seqNo > b.cursor + 1 then Err(Gap)
    else if a.event.seqNo <= b.cursor then Err(Conflict)
    else Accept(b, a, h)
  }

  function Start<S, P, X>(s: S): Inbox<S, P, X> {
    Inbox(0, map[], s, [])
  }

  /** Any sequence of deliveries; a failed one changes nothing. */
  function Consume<S, P(==), X>(s: S, arrivals: seq<Arrival<P, X>>, h: Handler<S, P, X>): Inbox<S, P, X> {
    if arrivals == [] then Start(s)
    else
      var b := Consume(s, arrivals[..|arrivals| - 1], h);
      var r := Deliver(b, arrivals[|arrivals| - 1], h);
      if r.Ok? then r.value else b
  }

  /** In-order replay of a list of events. */
  function Replay<S, P, X>(s: S, log: seq<Arrival<P, X>>, h: Handler<S, P, X>): Result<S> {
    if log == [] then Ok(s)
    else
      var r := Replay(s, log[..|log| - 1], h);
      if r.Err? then r else h(r.value, log[|log| - 1].event.payload, log[|log| - 1].context)
  }

  predicate Logged<S, P(==), X>(b: Inbox<S, P, X>, id: EventId) {
    id in b.seen ==>
      && 1 <= b.seen[id].seqNo <= |b.log|
      && b.log[b.seen[id].seqNo - 1].event == b.seen[id]
      && b.seen[id].id == id
  }

  predicate Numbered<S, P(==), X>(b: Inbox<S, P, X>, i: nat) {
    i < |b.log| ==> b.log[i].event.seqNo == i + 1 && b.log[i].event.id in b.seen && b.seen[b.log[i].event.id] == b.log[i].event
  }

  /** The log holds sequence 1, ..., cursor, each once and in order, and explains the state. */
  ghost predicate InOrder<S, P, X>(s: S, b: Inbox<S, P, X>, h: Handler<S, P, X>) {
    && |b.log| == b.cursor
    && (forall i | 0 <= i < |b.log| :: Numbered(b, i))
    && (forall id | id in b.seen :: Logged(b, id))
    && Replay(s, b.log, h) == Ok(b.state)
  }

  lemma AcceptInOrder<S, P, X>(s: S, b: Inbox<S, P, X>, a: Arrival<P, X>, h: Handler<S, P, X>)
    requires InOrder(s, b, h) && a.event.seqNo == b.cursor + 1 && a.event.id !in b.seen && Accept(b, a, h).Ok?
    ensures InOrder(s, Accept(b, a, h).value, h)
  {
    var b' := Accept(b, a, h).value;
    forall i: nat | i < |b'.log| ensures Numbered(b', i) {
      AcceptNumbered(b, a, b', i);
    }
    forall id | id in b'.seen ensures Logged(b', id) {
      AcceptLogged(b, a, b', id);
    }
    assert b'.log[..|b'.log| - 1] == b.log;
  }

  lemma AcceptNumbered<S, P, X>(b: Inbox<S, P, X>, a: Arrival<P, X>, b': Inbox<S, P, X>, i: nat)
    requires a.event.id !in b.seen && a.event.seqNo == |b.log| + 1 && (i < |b.log| ==> Numbered(b, i))
    requires b'.log == b.log + [a] && b'.seen == b.seen[a.event.id := a.event]
    ensures Numbered(b', i)
  {
  }

  lemma AcceptLogged<S, P, X>(b: Inbox<S, P, X>, a: Arrival<P, X>, b': Inbox<S, P, X>, id: EventId)
    requires a.event.seqNo == |b.log| + 1 && Logged(b, id)
    requires b'.log == b.log + [a] && b'.seen == b.seen[a.event.id := a.event]
    ensures Logged(b', id)
  {
  }

  lemma DeliverInOrder<S, P, X>(s: S, b: Inbox<S, P, X>, a: Arrival<P, X>, h: Handler<S, P, X>)
    requires InOrder(s, b, h) && Deliver(b, a, h).Ok?
    ensures InOrder(s, Deliver(b, a, h).value, h)
  {
    if a.event.id !in b.seen { AcceptInOrder(s, b, a, h); }
  }

  /** Exactly sequence 1, ..., cursor was applied, once each and in order. */
  lemma {:induction false} AppliedInOrder<S, P, X>(s: S, arrivals: seq<Arrival<P, X>>, h: Handler<S, P, X>)
    ensures InOrder(s, Consume(s, arrivals, h), h)
  {
    if arrivals != [] {
      var init := arrivals[..|arrivals| - 1];
      AppliedInOrder(s, init, h);
      if Deliver(Consume(s, init, h), arrivals[|arrivals| - 1], h).Ok? {
        DeliverInOrder(s, Consume(s, init, h), arrivals[|arrivals| - 1], h);
      }
    }
  }

  /** Both check orders commit the same thing, and only in the same cases. */
  lemma OrdersAgree<S, P, X>(s: S, b: Inbox<S, P, X>, a: Arrival<P, X>, h: Handler<S, P, X>)
    requires InOrder(s, b, h)
    ensures Deliver(b, a, h).Ok? <==> DeliverSeenFirst(b, a, h).Ok?
    ensures Deliver(b, a, h).Ok? ==> Deliver(b, a, h) == DeliverSeenFirst(b, a, h)
  {
    if a.event.id in b.seen { assert Logged(b, a.event.id); }
  }

  predicate FromStream<P(==), X>(stream: seq<Event<P>>, a: Arrival<P, X>) {
    1 <= a.event.seqNo <= |stream| && a.event == stream[a.event.seqNo - 1]
  }

  /** If the producer numbered its events 1, 2, 3, ..., the log is a prefix of what it produced. */
  lemma {:induction false} PrefixOfStream<S, P, X>(s: S, arrivals: seq<Arrival<P, X>>, h: Handler<S, P, X>, stream: seq<Event<P>>)
    requires forall i | 0 <= i < |arrivals| :: FromStream(stream, arrivals[i])
    ensures var b := Consume(s, arrivals, h);
            |b.log| <= |stream| && forall i | 0 <= i < |b.log| :: b.log[i].event == stream[i]
  {
    AppliedInOrder(s, arrivals, h);
    var b := Consume(s, arrivals, h);
    if arrivals != [] {
      var init, last := arrivals[..|arrivals| - 1], arrivals[|arrivals| - 1];
      assert forall i | 0 <= i < |init| :: init[i] == arrivals[i];
      PrefixOfStream(s, init, h, stream);
      assert FromStream(stream, last);
      AppliedInOrder(s, init, h);
    }
  }

  /** A missing event holds back everything after it. */
  lemma {:induction false} MissingEventBlocks<S, P, X>(s: S, arrivals: seq<Arrival<P, X>>, h: Handler<S, P, X>, k: nat)
    requires k >= 1 && forall i | 0 <= i < |arrivals| :: arrivals[i].event.seqNo != k
    ensures Consume(s, arrivals, h).cursor < k
  {
    if arrivals != [] {
      MissingEventBlocks(s, arrivals[..|arrivals| - 1], h, k);
    }
  }

  // ---- what a store that follows this discipline records -------------------------------------------

  predicate Placed<P>(cursor: nat, seen: map<EventId, Event<P>>, id: EventId) {
    id in seen ==> seen[id].id == id && 1 <= seen[id].seqNo <= cursor
  }

  predicate Held<P>(seen: map<EventId, Event<P>>, k: nat) {
    exists id :: id in seen && seen[id].seqNo == k
  }

  /** One recorded event for each sequence 1, ..., cursor, none above, and distinct ids. */
  ghost predicate OnePerSequence<P>(cursor: nat, seen: map<EventId, Event<P>>) {
    && (forall id | id in seen :: Placed(cursor, seen, id))
    && (forall i, j | i in seen && j in seen && seen[i].seqNo == seen[j].seqNo :: i == j)
    && (forall k: nat | 1 <= k <= cursor :: Held(seen, k))
  }

  /** Recording the next event keeps one event per sequence. */
  lemma RecordNext<P>(cursor: nat, seen: map<EventId, Event<P>>, e: Event<P>)
    requires OnePerSequence(cursor, seen) && e.id !in seen && e.seqNo == cursor + 1
    ensures OnePerSequence(cursor + 1, seen[e.id := e])
  {
    var seen' := seen[e.id := e];
    forall id | id in seen' ensures Placed(cursor + 1, seen', id) {
      assert Placed(cursor, seen, id);
    }
    forall i, j | i in seen' && j in seen' && seen'[i].seqNo == seen'[j].seqNo ensures i == j {
      assert Placed(cursor, seen, i) && Placed(cursor, seen, j);
    }
    forall k: nat | 1 <= k <= cursor + 1 ensures Held(seen', k) {
      if k <= cursor {
        assert Held(seen, k);
        var id :| id in seen && seen[id].seqNo == k;
        assert id in seen' && seen'[id].seqNo == k;
      } else {
        assert e.id in seen' && seen'[e.id].seqNo == k;
      }
    }
  }

  /** The log of applied events carries sequence 1, 2, 3, ... and is what the store recorded. */
  predicate Ledger<P(==)>(cursor: nat, seen: map<EventId, Event<P>>, log: seq<Event<P>>) {
    && |log| == cursor
    && forall i | 0 <= i < |log| :: log[i].seqNo == i + 1 && log[i].id in seen && seen[log[i].id] == log[i]
  }

  lemma LedgerNext<P>(cursor: nat, seen: map<EventId, Event<P>>, log: seq<Event<P>>, e: Event<P>)
    requires Ledger(cursor, seen, log) && e.id !in seen && e.seqNo == cursor + 1
    ensures Ledger(cursor + 1, seen[e.id := e], log + [e])
  {
  }
}
