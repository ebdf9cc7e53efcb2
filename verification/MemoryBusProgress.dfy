/**
 The in-memory bus goes on, and its excuses are true: the lock queue drains in order, a reader that is given the
 processor catches up, an id counts as dropped exactly when the queue was full, as lost exactly when its publisher
 was cancelled, and as evicted exactly when the ring buffer had moved past it.
 */
module MemoryBusProgress {
  import opened Tasks
  import opened MemoryBus
  import opened MemoryBusAttachment
  import opened MemoryBusDelivery

  // ----- Steps repeated -----

  ghost function Repeated<E>(e: BusStep<E>, n: nat): (r: seq<BusStep<E>>)
    ensures |r| == n && forall k :: 0 <= k < n ==> r[k] == e
  {
    if n == 0 then [] else Repeated(e, n - 1) + [e]
  }

  lemma RepeatedNext<E>(b: Bus<E>, e: BusStep<E>, n: nat)
    ensures Run(b, Repeated(e, n + 1)) == Step(Run(b, Repeated(e, n)), e)
  {
    assert Repeated(e, n + 1)[..n] == Repeated(e, n);
  }

  lemma GrantPops<E>(b: Bus<E>)
    requires b.turns != []
    ensures Step(b, Grant).turns == b.turns[1..]
  {
  }

  /** Everybody who waits for the lock has it after as many grants as stand ahead, longest waiter first. */
  lemma {:induction false} LockDrains<E>(b: Bus<E>, n: nat)
    requires n <= |b.turns|
    ensures Run(b, Repeated(Grant, n)).turns == b.turns[n..]
  {
    if n > 0 {
      LockDrains(b, n - 1);
      RepeatedNext(b, Grant, n - 1);
      GrantPops(Run(b, Repeated(Grant, n - 1)));
      assert b.turns[n - 1..][1..] == b.turns[n..];
    }
  }

  /** A grant leaves everybody registered who was, and everybody let go who was, unless it is their own turn. */
  lemma {:induction false} GrantsKeep<E>(b: Bus<E>, n: nat)
    requires n <= |b.turns|
    ensures var r := Run(b, Repeated(Grant, n)); |r.subs| == |b.subs| && r.log == b.log
  {
    if n > 0 {
      GrantsKeep(b, n - 1);
      RepeatedNext(b, Grant, n - 1);
    }
  }

  lemma LastGrant<E>(b: Bus<E>, t: Turn<E>)
    requires b.turns != [] && b.turns[|b.turns| - 1] == t
    ensures var m := Run(b, Repeated(Grant, |b.turns| - 1));
            && m.turns == [t] && |m.subs| == |b.subs| && m.log == b.log
            && Run(b, Repeated(Grant, |b.turns|)) == Step(m, Grant)
  {
    var n := |b.turns| - 1;
    LockDrains(b, n);
    GrantsKeep(b, n);
    RepeatedNext(b, Grant, n);
    assert b.turns[n..] == [t];
  }

  /** A subscriber is registered and attached once the lock has come round, with the counter as its bookmark. */
  lemma SubscribeTakesEffect<E>(b: Bus<E>, after: Option<nat>)
    ensures var r := Run(Step(b, Subscribe(after)), Repeated(Grant, |b.turns| + 1));
            && |r.subs| == |b.subs| + 1 && Registered(r, |b.subs|)
            && r.subs[|b.subs|].attached && r.subs[|b.subs|].bookmark == |b.log|
  {
    LastGrant(Step(b, Subscribe(after)), Register(|b.subs|));
  }

  /** One that unsubscribes is attached no longer then. */
  lemma DetachTakesEffect<E>(b: Bus<E>, i: nat)
    requires Registered(b, i)
    ensures var r := Run(Step(b, Detach(i)), Repeated(Grant, |b.turns| + 1)); i < |r.subs| && !r.subs[i].attached
  {
    LastGrant(Step(b, Detach(i)), Leave(i));
  }

  /** And after a cleanup nobody is. */
  lemma CleanupTakesEffect<E>(b: Bus<E>)
    ensures var r := Run(Step(b, Cleanup), Repeated(Grant, |b.turns| + 1));
            |r.subs| == |b.subs| && forall j :: 0 <= j < |r.subs| ==> !r.subs[j].attached
  {
    LastGrant(Step(b, Cleanup), Sweep);
  }

  /** At most so many steps are left to a reader until it has read everything handed to it. */
  ghost function ReadLeft<E>(s: Sub<E>, log: seq<Item<E>>): nat {
    match s.phase
    case Joining => 0
    case Fresh => |log| + 2 + |Incoming(s)|
    case Replay(rest) => |rest| + 1 + |Incoming(s)|
    case Live => |Incoming(s)|
    case Over => 0
  }

  lemma TakeReads<E>(s: Sub<E>, u: Sub<E>, e: Entry<E>, log: seq<Item<E>>)
    requires s.phase.Live? && u.phase.Live? && Incoming(s) == [e] + Incoming(u)
    ensures Settled(Take(u, e)) || ReadLeft(Take(u, e), log) < ReadLeft(s, log)
    ensures !Take(u, e).phase.Joining?
  {
  }

  lemma AdvanceReads<E>(s: Sub<E>, log: seq<Item<E>>, ring: nat)
    requires !s.phase.Joining?
    ensures !AdvanceSub(s, log, ring).phase.Joining?
    ensures Settled(s) ==> Settled(AdvanceSub(s, log, ring))
    ensures Settled(AdvanceSub(s, log, ring)) || ReadLeft(AdvanceSub(s, log, ring), log) < ReadLeft(s, log)
  {
    match s.phase
    case Fresh => WindowLength(log, ring);
    case Live => LiveReads(s, log, ring);
    case _ =>
  }

  lemma LiveReads<E>(s: Sub<E>, log: seq<Item<E>>, ring: nat)
    requires s.phase.Live?
    ensures var u := AdvanceSub(s, log, ring);
            && !u.phase.Joining? && (Settled(s) ==> Settled(u)) && (Settled(u) || ReadLeft(u, log) < ReadLeft(s, log))
  {
    if s.handed.Some? {
      TakeReads(s, s.(handed := None), s.handed.value, log);
    } else if s.queue != [] {
      TakeReads(s, s.(queue := s.queue[1..]), s.queue[0], log);
    }
  }

  /** A registered reader catches up, or ends, by its own steps alone. */
  lemma {:induction false} ReaderCatchesUp<E>(b: Bus<E>, i: nat, n: nat)
    requires Registered(b, i)
    ensures var r := Run(b, Repeated(Advance(i), n));
            && Registered(r, i) && r == b.(subs := b.subs[i := r.subs[i]])
            && (Settled(r.subs[i]) || ReadLeft(r.subs[i], b.log) + n <= ReadLeft(b.subs[i], b.log))
            && (n > ReadLeft(b.subs[i], b.log) ==> Settled(r.subs[i]))
  {
    if n > 0 {
      ReaderCatchesUp(b, i, n - 1);
      RepeatedNext(b, Advance(i), n - 1);
      var m := Run(b, Repeated(Advance(i), n - 1));
      AdvanceReads(m.subs[i], b.log, b.ring);
    }
  }

  // ----- Dropped, lost, evicted -----

  /** This step fans id out while subscriber i is attached, does not wait and has a full queue. */
  ghost predicate Overflows<E>(b: Bus<E>, e: BusStep<E>, i: nat, id: nat) {
    && e.Grant? && b.turns != [] && b.turns[0].Deliver? && b.turns[0].entry.id == id
    && i < |b.subs| && b.subs[i].attached && !b.subs[i].receiving && |b.subs[i].queue| >= b.capacity
  }

  /** This step cancels the publisher of id while it queues for the lock. */
  ghost predicate GivesUp<E>(b: Bus<E>, e: BusStep<E>, id: nat) {
    e.Cancel? && e.k < |b.turns| && b.turns[e.k].Deliver? && b.turns[e.k].entry.id == id
  }

  ghost predicate EverOverflowed<E>(b: Bus<E>, steps: seq<BusStep<E>>, i: nat, id: nat) {
    if steps == [] then false
    else
      || EverOverflowed(b, steps[..|steps| - 1], i, id)
      || Overflows(Run(b, steps[..|steps| - 1]), steps[|steps| - 1], i, id)
  }

  ghost predicate EverGivenUp<E>(b: Bus<E>, steps: seq<BusStep<E>>, id: nat) {
    if steps == [] then false
    else
      || EverGivenUp(b, steps[..|steps| - 1], id)
      || GivesUp(Run(b, steps[..|steps| - 1]), steps[|steps| - 1], id)
  }

  /** What was evicted when a resumed reader started is what the buffer of that moment no longer held. */
  ghost predicate EvictionOk<E>(ring: nat, s: Sub<E>) {
    s.after.Some? && !s.phase.Joining? && !s.phase.Fresh? ==>
      s.asked <= s.seen && s.evicted == if s.seen <= ring then 0 else s.seen - ring
  }

  ghost predicate Excused<E>(b: Bus<E>, i: nat, id: nat, overflowed: bool, givenUp: bool) {
    && (id in b.lost <==> givenUp)
    && (if i < |b.subs| then (id in b.subs[i].dropped <==> overflowed) && EvictionOk(b.ring, b.subs[i]) else !overflowed)
  }

  lemma AdvanceExcuses<E>(s: Sub<E>, log: seq<Item<E>>, ring: nat)
    requires EvictionOk(ring, s) && s.asked <= |log|
    ensures AdvanceSub(s, log, ring).dropped == s.dropped && EvictionOk(ring, AdvanceSub(s, log, ring))
  {
  }

  lemma GrantExcuses<E>(b: Bus<E>, i: nat, id: nat, overflowed: bool, givenUp: bool)
    requires Excused(b, i, id, overflowed, givenUp)
    requires b.turns != [] && b.turns[0].Register? && b.turns[0].i < |b.subs| ==> b.subs[b.turns[0].i].phase.Joining?
    ensures Excused(Step(b, Grant), i, id, overflowed || Overflows(b, Grant, i, id), givenUp)
  {
  }

  lemma StepExcuses<E>(b: Bus<E>, e: BusStep<E>, i: nat, id: nat, overflowed: bool, givenUp: bool)
    requires BusOk(b) && Excused(b, i, id, overflowed, givenUp)
    ensures Excused(Step(b, e), i, id, overflowed || Overflows(b, e, i, id), givenUp || GivesUp(b, e, id))
  {
    match e
    case Grant => GrantExcuses(b, i, id, overflowed, givenUp);
    case Advance(j) => if j == i < |b.subs| { AdvanceExcuses(b.subs[i], b.log, b.ring); }
    case _ =>
  }

  ghost predicate RunExcused<E>(b: Bus<E>, steps: seq<BusStep<E>>, i: nat, id: nat) {
    Excused(Run(b, steps), i, id, EverOverflowed(b, steps, i, id), EverGivenUp(b, steps, id))
  }

  lemma ExcusesNext<E>(b: Bus<E>, steps: seq<BusStep<E>>, i: nat, id: nat)
    requires steps != [] && BusOk(Run(b, steps[..|steps| - 1])) && RunExcused(b, steps[..|steps| - 1], i, id)
    ensures RunExcused(b, steps, i, id)
  {
    var n := |steps| - 1;
    StepExcuses(Run(b, steps[..n]), steps[n], i, id, EverOverflowed(b, steps[..n], i, id), EverGivenUp(b, steps[..n], id));
  }

  lemma {:induction false} RunExcuses<E>(ring: nat, capacity: nat, steps: seq<BusStep<E>>, i: nat, id: nat)
    ensures RunExcused(Init(ring, capacity), steps, i, id)
    decreases |steps|
  {
    if steps != [] {
      MemoryBusDelivery.RunKeeps<E>(ring, capacity, steps[..|steps| - 1]);
      RunExcuses<E>(ring, capacity, steps[..|steps| - 1], i, id);
      ExcusesNext(Init<E>(ring, capacity), steps, i, id);
    }
  }

  lemma {:induction false} SizesStay<E>(b: Bus<E>, steps: seq<BusStep<E>>)
    ensures Run(b, steps).ring == b.ring && Run(b, steps).capacity == b.capacity
    decreases |steps|
  {
    if steps != [] { SizesStay(b, steps[..|steps| - 1]); }
  }

  /** Over every run: an id is dropped for a subscriber if and only if it was fanned out while that subscriber's queue
      was full, it is lost if and only if its publisher was cancelled on the lock, and a resumed reader finds evicted
      exactly what the ring buffer had pushed out by the time it started to replay, after its call. */
  lemma ExcusedExactly<E>(ring: nat, capacity: nat, steps: seq<BusStep<E>>, i: nat, id: nat)
    requires i < |Run(Init<E>(ring, capacity), steps).subs|
    ensures var b := Run(Init<E>(ring, capacity), steps);
            && (id in b.subs[i].dropped <==> EverOverflowed(Init(ring, capacity), steps, i, id))
            && (id in b.lost <==> EverGivenUp(Init(ring, capacity), steps, id))
            && EvictionOk(ring, b.subs[i])
  {
    RunExcuses<E>(ring, capacity, steps, i, id);
    SizesStay(Init<E>(ring, capacity), steps);
  }
}
