/**
 Runs of the in-memory bus in which a subscriber gets less or more than it might expect: an id whose
 publisher was cancelled, a cleanup before a fan-out, and a resume point ahead of the counter.
 */
module MemoryBusRuns {
  import opened Tasks
  import opened MemoryBus
  import opened MemoryBusLock
  import opened MemoryBusAttachment
  import opened MemoryBusDelivery

  ghost predicate Reachable<E(!new)>(ring: nat, capacity: nat, b: Bus<E>) {
    exists steps :: Run(Init(ring, capacity), steps) == b
  }

  lemma ReachNext<E(!new)>(ring: nat, capacity: nat, b: Bus<E>, e: BusStep<E>)
    requires Reachable(ring, capacity, b)
    ensures Reachable(ring, capacity, Step(b, e))
  {
    var steps :| Run(Init(ring, capacity), steps) == b;
    assert (steps + [e])[..|steps|] == steps;
    assert Run(Init(ring, capacity), steps + [e]) == Step(b, e);
  }

  lemma ReachInit<E(!new)>(ring: nat, capacity: nat)
    ensures Reachable(ring, capacity, Init<E>(ring, capacity))
  {
    assert Run(Init<E>(ring, capacity), []) == Init<E>(ring, capacity);
  }

  // ----- A subscriber waiting for its first live event -----

  /** The only subscriber, registered at counter n with an idle lock, at `phase` with nothing pending. */
  ghost predicate Alone<E>(b: Bus<E>, after: Option<nat>, n: nat, phase: Phase<E>) {
    && |b.log| == n && b.turns == [] && |b.subs| == 1
    && var s := b.subs[0];
       && s.after == after && s.asked == n && s.attached && s.phase == phase && s.upto == s.bookmark == n
       && s.last == (if after.Some? then 0 else n)
       && s.handed.None? && s.queue == [] && !s.receiving && s.yielded == []
  }

  /** The same, waiting in `receive`. */
  ghost predicate Awaiting<E>(b: Bus<E>, after: Option<nat>, n: nat) {
    && |b.log| == n && b.turns == [] && |b.subs| == 1
    && var s := b.subs[0];
       && s.after == after && s.asked == n && s.attached && s.phase == Live && s.upto == s.bookmark == n
       && s.last == (if after.Some? then 0 else n)
       && s.handed.None? && s.queue == [] && s.receiving && s.yielded == [] && s.dropped == {}
  }

  lemma ReachCalled<E(!new)>(b: Bus<E>, ring: nat, capacity: nat, after: Option<nat>) returns (r: Bus<E>)
    requires Reachable(ring, capacity, b) && b.turns == [] && b.subs == []
    ensures Reachable(ring, capacity, r)
    ensures r == b.(turns := [Register(0)], subs := [Asking(after, |b.log|)])
  {
    ReachNext(ring, capacity, b, Subscribe(after));
    r := Step(b, Subscribe(after));
  }

  lemma ReachRegistered<E(!new)>(b: Bus<E>, ring: nat, capacity: nat, after: Option<nat>) returns (r: Bus<E>)
    requires Reachable(ring, capacity, b) && b.turns == [] && b.subs == []
    ensures Reachable(ring, capacity, r)
    ensures r == b.(subs := [Join(Asking(after, |b.log|), |b.log|)])
  {
    r := ReachCalled(b, ring, capacity, after);
    ReachNext(ring, capacity, r, Grant);
    r := Step(r, Grant);
  }

  lemma JoinedAlone<E>(b: Bus<E>, after: Option<nat>)
    requires b.turns == [] && b.subs == [Join(Asking(after, |b.log|), |b.log|)]
    ensures Alone(b, after, |b.log|, Fresh) && b.subs[0].dropped == {}
  {
  }

  lemma ReachAwaiting<E(!new)>(b: Bus<E>, ring: nat, capacity: nat, after: Option<nat>, n: nat) returns (r: Bus<E>)
    requires Reachable(ring, capacity, b) && Alone(b, after, n, Live) && b.subs[0].dropped == {}
    ensures Reachable(ring, capacity, r) && Awaiting(r, after, n)
    ensures r.log == b.log && r.lost == b.lost && r.capacity == b.capacity && r.ring == b.ring
  {
    ReachNext(ring, capacity, b, Advance(0));
    r := Step(b, Advance(0));
  }

  lemma ReachAwaitingFirst<E(!new)>(ring: nat, capacity: nat) returns (r: Bus<E>)
    ensures Reachable(ring, capacity, r) && Awaiting(r, None, 0)
    ensures r.log == [] && r.lost == {} && r.ring == ring && r.capacity == capacity
  {
    ReachInit<E>(ring, capacity);
    r := ReachRegistered(Init<E>(ring, capacity), ring, capacity, None);
    JoinedAlone(r, None);
    ReachNext(ring, capacity, r, Advance(0));
    r := Step(r, Advance(0));
    r := ReachAwaiting(r, ring, capacity, None, 0);
  }

  // ----- A cancelled publisher -----

  lemma ReachQueued<E(!new)>(ring: nat, capacity: nat, first: Item<E>, second: Item<E>) returns (r: Bus<E>)
    ensures Reachable(ring, capacity, r) && r.log == [first, second] && r.lost == {} && |r.subs| == 1
    ensures r.turns == [Deliver(Entry(1, first)), Deliver(Entry(2, second))]
    ensures Awaiting(r.(log := [], turns := []), None, 0)
  {
    r := ReachAwaitingFirst<E>(ring, capacity);
    ReachNext(ring, capacity, r, Publish(first));
    r := Step(r, Publish(first));
    ReachNext(ring, capacity, r, Publish(second));
    r := Step(r, Publish(second));
  }

  lemma ReachCancelled<E(!new)>(ring: nat, capacity: nat, first: Item<E>, second: Item<E>) returns (r: Bus<E>)
    ensures Reachable(ring, capacity, r) && r.log == [first, second] && r.lost == {1} && |r.subs| == 1
    ensures r.turns == [Deliver(Entry(2, second))]
    ensures Awaiting(r.(log := [], turns := []), None, 0)
  {
    r := ReachQueued(ring, capacity, first, second);
    ReachNext(ring, capacity, r, Cancel(0));
    r := Step(r, Cancel(0));
  }

  /** The publisher of id 1 is cancelled while it queues for the lock, the publisher of id 2 is not: a live
      subscriber with an idle queue is given id 2 and never id 1. */
  lemma CancelledPublisherMissed<E(!new)>(ring: nat, capacity: nat, first: Item<E>, second: Item<E>)
    ensures exists b :: Reachable(ring, capacity, b) && AnswersFor(b, 0, 1) && b.lost == {1}
                        && b.log == [first, second] && b.subs[0].dropped == {} && b.subs[0].yielded == [Entry(2, second)]
  {
    var b := ReachCancelled(ring, capacity, first, second);
    var r := ReachGiven(b, ring, capacity, Entry(2, second));
    assert !Ahead(r, 1);
  }

  /** A waiting subscriber is handed the event and yields it. */
  lemma ReachGiven<E(!new)>(b: Bus<E>, ring: nat, capacity: nat, e: Entry<E>) returns (r: Bus<E>)
    requires Reachable(ring, capacity, b) && |b.subs| == 1 && b.turns == [Deliver(e)]
    requires var s := b.subs[0]; s.attached && s.phase == Live && s.receiving && s.handed.None? && s.queue == []
                                 && s.last < e.id && s.yielded == []
    ensures Reachable(ring, capacity, r) && r.log == b.log && r.lost == b.lost && r.turns == [] && |r.subs| == 1
    ensures var s, t := b.subs[0], r.subs[0];
            && t.after == s.after && t.asked == s.asked && t.bookmark == s.bookmark && t.dropped == s.dropped
            && t.upto == e.id && t.yielded == [e] && Incoming(t) == [] && (t.phase.Live? || t.phase.Over?)
  {
    ReachNext(ring, capacity, b, Grant);
    r := Step(b, Grant);
    assert r.subs[0].handed == Some(e);
    ReachNext(ring, capacity, r, Advance(0));
    r := Step(r, Advance(0));
  }

  // ----- A cleanup -----

  lemma ReachSwept<E(!new)>(ring: nat, capacity: nat) returns (r: Bus<E>)
    ensures Reachable(ring, capacity, r) && r.log == [] && r.turns == [] && r.lost == {} && |r.subs| == 1
    ensures var s := r.subs[0];
            !s.attached && s.receiving && s.phase.Live? && s.after.None? && s.bookmark == 0
            && s.handed.None? && s.queue == [] && s.yielded == [] && s.dropped == {}
  {
    r := ReachAwaitingFirst<E>(ring, capacity);
    ReachNext(ring, capacity, r, Cleanup);
    r := Step(r, Cleanup);
    ReachNext(ring, capacity, r, Grant);
    r := Step(r, Grant);
  }

  /** A cleanup before a fan-out cuts a waiting subscriber off, whatever the sizes of the buffers: from an event
      that no full queue dropped and no cancellation stopped. */
  lemma CleanupCutsOff<E(!new)>(ring: nat, capacity: nat, item: Item<E>)
    ensures exists b :: Reachable(ring, capacity, b) && AnswersFor(b, 0, 1) && b.log == [item] && b.turns == []
                        && b.lost == {} && b.subs[0].dropped == {} && b.subs[0].yielded == []
  {
    var b := ReachSwept<E>(ring, capacity);
    ReachNext(ring, capacity, b, Publish(item));
    b := Step(b, Publish(item));
    ReachNext(ring, capacity, b, Grant);
    b := Step(b, Grant);
    assert !Ahead(b, 1);
  }

  /** By DeliveredExactly that can only happen through a let-go: in every run, a first-time subscriber that is
      still attached misses only what its queue dropped or a cancelled publisher took along. */
  lemma AttachedMissesNothing<E(!new)>(ring: nat, capacity: nat, steps: seq<BusStep<E>>, i: nat, id: nat)
    requires AnswersFor(Run(Init<E>(ring, capacity), steps), i, id)
    requires var s := Run(Init<E>(ring, capacity), steps).subs[i]; s.attached && s.after.None?
    ensures var b := Run(Init<E>(ring, capacity), steps);
            && id <= |b.log|
            && (Entry(id, b.log[id - 1]) in b.subs[i].yielded <==> id !in b.subs[i].dropped && id !in b.lost)
  {
    DeliveredExactly<E>(ring, capacity, steps, i, id);
    RunAccount<E>(ring, capacity, steps, i, id);
  }

  // ----- A resume point ahead of the counter -----

  /** A subscriber that asked behind `after`, when the counter stood at `asked`, was given something at or
      below its resume point. */
  ghost predicate Repeats<E>(b: Bus<E>, i: nat, after: nat, asked: nat) {
    && i < |b.subs| && b.subs[i].after == Some(after) && b.subs[i].asked == asked
    && exists e :: e in b.subs[i].yielded && e.id <= after
  }

  lemma {:induction false} ReachPublished<E(!new)>(ring: nat, capacity: nat, n: nat, item: Item<E>) returns (r: Bus<E>)
    ensures Reachable(ring, capacity, r) && |r.log| == n && r.turns == [] && r.subs == []
  {
    if n == 0 {
      ReachInit<E>(ring, capacity);
      r := Init(ring, capacity);
    } else {
      r := ReachPublished(ring, capacity, n - 1, item);
      ReachNext(ring, capacity, r, Publish(item));
      r := Step(r, Publish(item));
      ReachNext(ring, capacity, r, Grant);
      r := Step(r, Grant);
    }
  }

  /** Nothing in the ring buffer lies above the resume point, so the replay yields nothing. */
  lemma {:induction false} ReachDrained<E(!new)>(b: Bus<E>, ring: nat, capacity: nat, after: nat, n: nat) returns (r: Bus<E>)
    requires Reachable(ring, capacity, b) && |b.subs| == 1 && b.subs[0].phase.Replay?
    requires Alone(b, Some(after), n, b.subs[0].phase) && b.subs[0].dropped == {}
    requires forall e :: e in b.subs[0].phase.rest ==> e.id <= after
    ensures Reachable(ring, capacity, r) && Alone(r, Some(after), n, Live) && r.subs[0].dropped == {}
    decreases |b.subs[0].phase.rest|
  {
    ReachNext(ring, capacity, b, Advance(0));
    r := Step(b, Advance(0));
    if b.subs[0].phase.rest != [] {
      assert b.subs[0].phase.rest[0] in b.subs[0].phase.rest;
      r := ReachDrained(r, ring, capacity, after, n);
    }
  }

  lemma ReachRepeat<E(!new)>(ring: nat, capacity: nat, after: nat, asked: nat, item: Item<E>) returns (r: Bus<E>)
    requires asked < after
    ensures Reachable(ring, capacity, r) && Repeats(r, 0, after, asked)
  {
    r := ReachPublished(ring, capacity, asked, item);
    r := ReachRegistered(r, ring, capacity, Some(after));
    JoinedAlone(r, Some(after));
    PickIds(r.log, Evicted(r.log, r.ring), |r.log|, {});
    ReachNext(ring, capacity, r, Advance(0));
    r := Step(r, Advance(0));
    r := ReachDrained(r, ring, capacity, after, asked);
    r := ReachAwaiting(r, ring, capacity, Some(after), asked);
    ReachNext(ring, capacity, r, Publish(item));
    r := Step(r, Publish(item));
    r := ReachGiven(r, ring, capacity, Entry(asked + 1, item));
    assert Entry(asked + 1, item) in r.subs[0].yielded;
  }

  /** A resumed stream can give an id at or below its resume point exactly when the resume point lies ahead of
      the counter at the moment `subscribe` is called: an id the server has not assigned yet. */
  lemma RepeatsExactly<E(!new)>(ring: nat, capacity: nat, after: nat, asked: nat, item: Item<E>)
    ensures (exists b: Bus<E>, i :: Reachable(ring, capacity, b) && Repeats(b, i, after, asked)) <==> asked < after
  {
    if asked < after {
      var b := ReachRepeat(ring, capacity, after, asked, item);
    }
    forall b: Bus<E>, i | Reachable(ring, capacity, b) && Repeats(b, i, after, asked) ensures asked < after {
      var steps :| Run(Init<E>(ring, capacity), steps) == b;
      if after <= asked { ResumesBehind<E>(ring, capacity, steps, i); }
    }
  }
}
