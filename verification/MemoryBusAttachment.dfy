/**
 Who is offered an id: a registered subscriber stays attached until its own unsubscription or a cleanup is
 granted the lock, and it is offered every id whose publisher has had its turn, unless that happened first.
 */
module MemoryBusAttachment {
  import opened Tasks
  import opened MemoryBus
  import opened MemoryBusLock

  ghost predicate Registered<E>(b: Bus<E>, i: nat) { i < |b.subs| && !b.subs[i].phase.Joining? }

  /** The id is not assigned yet, or its publisher still waits for the lock. */
  ghost predicate Ahead<E>(b: Bus<E>, id: nat) { id > |b.log| || Waits(b.turns, id) }

  /** This step grants the lock to subscriber i's unsubscription or to a cleanup. */
  ghost predicate LetsGo<E>(b: Bus<E>, e: BusStep<E>, i: nat) {
    e.Grant? && b.turns != [] && (b.turns[0] == Leave(i) || b.turns[0].Sweep?) && Registered(b, i)
  }

  // ----- One step -----

  /** What a step may do to a subscriber that was registered before it. */
  lemma SeatStep<E>(b: Bus<E>, e: BusStep<E>, i: nat)
    requires LockOk(b) && Registered(b, i)
    ensures var r := Step(b, e);
            && Registered(r, i)
            && (r.subs[i].attached <==> b.subs[i].attached && !LetsGo(b, e, i))
            && (if e.Grant? && b.turns != [] && b.turns[0].Deliver? && b.subs[i].attached
                then r.subs[i].upto == b.turns[0].entry.id
                else r.subs[i].upto == b.subs[i].upto)
  {
    match e
    case Advance(j) => if j < |b.subs| { AdvanceFrame(b.subs[j], b.log, b.ring); }
    case Grant => if b.turns != [] && b.turns[0].Register? { assert IsRegister(b.turns, 0); }
    case _ =>
  }

  /** Registering attaches, behind everything assigned before the call. */
  lemma NewSeat<E>(b: Bus<E>, e: BusStep<E>, i: nat)
    requires LockOk(b) && Registered(Step(b, e), i) && !Registered(b, i)
    ensures e == Grant && b.turns != [] && b.turns[0] == Register(i) && i < |b.subs|
    ensures Step(b, e).subs[i].attached && Step(b, e).subs[i].upto == b.subs[i].upto == b.subs[i].asked
  {
    OnlyGrantsSeat(b, e, i);
    assert SubLockOk(|b.log|, b.turns, b.lost, b.subs[i]);
  }

  lemma OnlyGrantsSeat<E>(b: Bus<E>, e: BusStep<E>, i: nat)
    requires Registered(Step(b, e), i) && !Registered(b, i)
    ensures e == Grant && b.turns != [] && b.turns[0] == Register(i) && i < |b.subs|
  {
  }

  /** Queueing leaves what is ahead ahead, but for the id that a publisher has just been assigned. */
  lemma AheadQueued<E>(b: Bus<E>, log: seq<Item<E>>, t: Turn<E>, id: nat)
    requires Next(|b.log|, |log|, t)
    ensures Ahead(b.(log := log, turns := b.turns + [t]), id) <==> Ahead(b, id)
  {
    Queued(b.turns, t);
  }

  lemma AheadGranted<E>(b: Bus<E>, id: nat)
    requires b.turns != []
    ensures var r := Step(b, Grant);
            && (Ahead(r, id) ==> Ahead(b, id))
            && (Ahead(b, id) && !Ahead(r, id) ==> b.turns[0].Deliver? && b.turns[0].entry.id == id)
  {
    TailWaits(b.turns);
    assert Step(b, Grant).log == b.log && Step(b, Grant).turns == b.turns[1..];
  }

  lemma AheadCancelled<E>(b: Bus<E>, k: nat, id: nat)
    requires k < |b.turns|
    ensures var r := Step(b, Cancel(k));
            && (Ahead(r, id) ==> Ahead(b, id))
            && (Ahead(b, id) && !Ahead(r, id) ==> id in r.lost)
  {
    Removed(b.turns, k);
    RestWaits(b.turns, k);
  }

  /** An id that has had its turn, or lost it, does not come back; it stops waiting by a fan-out or a cancellation. */
  lemma AheadStep<E>(b: Bus<E>, e: BusStep<E>, id: nat)
    ensures var r := Step(b, e);
            && (Ahead(r, id) ==> Ahead(b, id))
            && (Ahead(b, id) && !Ahead(r, id) ==>
                  id in r.lost || (e == Grant && b.turns != [] && b.turns[0].Deliver? && b.turns[0].entry.id == id))
  {
    match e
    case Publish(item) => AheadQueued(b, b.log + [item], Deliver(Entry(|b.log| + 1, item)), id);
    case Subscribe(_) =>
      AheadQueued(b, b.log, Register(|b.subs|), id);
      assert Step(b, e).turns == b.turns + [Register(|b.subs|)];
    case Detach(i) => AheadQueued(b, b.log, Leave(i), id);
    case Cleanup => AheadQueued(b, b.log, Turn<E>.Sweep, id);
    case Grant => if b.turns != [] { AheadGranted(b, id); }
    case Cancel(k) => if k < |b.turns| { AheadCancelled(b, k, id); }
    case Advance(_) =>
  }

  lemma LostStays<E>(b: Bus<E>, e: BusStep<E>)
    ensures b.lost <= Step(b, e).lost
  {
  }

  lemma TailWaits<E>(turns: seq<Turn<E>>)
    requires turns != []
    ensures forall id :: Waits(turns[1..], id) ==> Waits(turns, id)
    ensures forall id :: Waits(turns, id) ==> Waits(turns[1..], id) || (turns[0].Deliver? && turns[0].entry.id == id)
  {
    Tail(turns);
    forall id | Waits(turns[1..], id) ensures Waits(turns, id) {
      var p :| IsDeliver(turns[1..], p) && turns[1..][p].entry.id == id;
      assert IsDeliver(turns, p + 1);
    }
  }

  lemma RestWaits<E>(turns: seq<Turn<E>>, k: nat)
    requires k < |turns|
    ensures forall id :: Waits(turns[..k] + turns[k + 1..], id) ==> Waits(turns, id)
  {
    Removed(turns, k);
    var rest := turns[..k] + turns[k + 1..];
    forall id | Waits(rest, id) ensures Waits(turns, id) {
      var p :| IsDeliver(rest, p) && rest[p].entry.id == id;
      assert IsDeliver(turns, Was(k, p));
    }
  }

  /** `cut` says that subscriber i was let go while id was still ahead. Then it is never offered the id; otherwise
      it is attached as long as the id is ahead, and once the id has had its turn it was offered or lost. */
  ghost predicate Account<E>(b: Bus<E>, i: nat, id: nat, cut: bool) {
    && (cut ==> Registered(b, i) && !b.subs[i].attached && b.subs[i].upto < id)
    && (Registered(b, i) && !cut ==> if Ahead(b, id) then b.subs[i].attached else id <= b.subs[i].upto || id in b.lost)
  }

  /** Whoever is registered has not been offered an id that is still ahead. */
  lemma AheadIsAbove<E>(b: Bus<E>, i: nat, id: nat)
    requires LockOk(b) && Registered(b, i) && Ahead(b, id)
    ensures b.subs[i].upto < id
  {
    assert SubLockOk(|b.log|, b.turns, b.lost, b.subs[i]);
  }

  lemma AccountStep<E>(b: Bus<E>, e: BusStep<E>, i: nat, id: nat, cut: bool)
    requires LockOk(b) && Account(b, i, id, cut)
    ensures Account(Step(b, e), i, id, cut || (LetsGo(b, e, i) && Ahead(b, id)))
  {
    AheadStep(b, e, id);
    LostStays(b, e);
    if Registered(b, i) {
      SeatStep(b, e, i);
      if Ahead(b, id) { AheadIsAbove(b, i, id); }
      if e.Grant? && b.turns != [] && b.turns[0].Deliver? {
        assert SubLockOk(|b.log|, b.turns, b.lost, b.subs[i]);
        assert IsDeliver(b.turns, 0);
      }
    } else if Registered(Step(b, e), i) {
      NewSeat(b, e, i);
      JoinAccount(b, i, id);
    }
  }

  /** At registration: an id above the call-time counter that is not ahead any more was lost. */
  lemma JoinAccount<E>(b: Bus<E>, i: nat, id: nat)
    requires LockOk(b) && b.turns != [] && b.turns[0] == Register(i)
    ensures i < |b.subs| && (!Ahead(b, id) ==> id <= b.subs[i].asked || id in b.lost)
  {
    assert IsRegister(b.turns, 0);
  }

  // ----- Runs -----

  /** At some step of the run subscriber i was let go while id was still ahead. */
  ghost predicate LetGoBefore<E>(b: Bus<E>, steps: seq<BusStep<E>>, i: nat, id: nat) {
    if steps == [] then false
    else
      var before := Run(b, steps[..|steps| - 1]);
      || LetGoBefore(b, steps[..|steps| - 1], i, id)
      || (LetsGo(before, steps[|steps| - 1], i) && Ahead(before, id))
  }

  /** At some step of the run subscriber i was let go. */
  ghost predicate EverLetGo<E>(b: Bus<E>, steps: seq<BusStep<E>>, i: nat) {
    if steps == [] then false
    else EverLetGo(b, steps[..|steps| - 1], i) || LetsGo(Run(b, steps[..|steps| - 1]), steps[|steps| - 1], i)
  }

  lemma {:induction false} RunLock<E>(ring: nat, capacity: nat, steps: seq<BusStep<E>>)
    ensures LockOk(Run(Init(ring, capacity), steps))
    decreases |steps|
  {
    if steps != [] {
      RunLock<E>(ring, capacity, steps[..|steps| - 1]);
      StepKeepsLock(Run(Init(ring, capacity), steps[..|steps| - 1]), steps[|steps| - 1]);
    }
  }

  lemma {:induction false} RunAccount<E>(ring: nat, capacity: nat, steps: seq<BusStep<E>>, i: nat, id: nat)
    ensures Account(Run(Init(ring, capacity), steps), i, id, LetGoBefore(Init(ring, capacity), steps, i, id))
    decreases |steps|
  {
    if steps != [] {
      var n := |steps| - 1;
      var b := Init<E>(ring, capacity);
      RunLock<E>(ring, capacity, steps[..n]);
      RunAccount<E>(ring, capacity, steps[..n], i, id);
      AccountStep(Run(b, steps[..n]), steps[n], i, id, LetGoBefore(b, steps[..n], i, id));
    }
  }

  /** `ever` says that subscriber i has been let go. */
  ghost predicate Seated<E>(b: Bus<E>, i: nat, ever: bool) {
    (ever ==> Registered(b, i)) && (Registered(b, i) ==> (b.subs[i].attached <==> !ever))
  }

  lemma SeatedStep<E>(b: Bus<E>, e: BusStep<E>, i: nat, ever: bool)
    requires LockOk(b) && Seated(b, i, ever)
    ensures Seated(Step(b, e), i, ever || LetsGo(b, e, i))
  {
    if Registered(b, i) {
      SeatStep(b, e, i);
    } else if Registered(Step(b, e), i) {
      NewSeat(b, e, i);
    }
  }

  lemma {:induction false} RunSeated<E>(ring: nat, capacity: nat, steps: seq<BusStep<E>>, i: nat)
    ensures Seated(Run(Init(ring, capacity), steps), i, EverLetGo(Init(ring, capacity), steps, i))
    decreases |steps|
  {
    if steps != [] {
      var n := |steps| - 1;
      var b := Init<E>(ring, capacity);
      RunLock<E>(ring, capacity, steps[..n]);
      RunSeated<E>(ring, capacity, steps[..n], i);
      SeatedStep(Run(b, steps[..n]), steps[n], i, EverLetGo(b, steps[..n], i));
    }
  }

  /** A registered subscriber is attached if and only if neither its unsubscription nor a cleanup has been granted
      the lock since it registered. */
  lemma AttachedExactly<E>(ring: nat, capacity: nat, steps: seq<BusStep<E>>, i: nat)
    requires Registered(Run(Init<E>(ring, capacity), steps), i)
    ensures Run(Init<E>(ring, capacity), steps).subs[i].attached <==> !EverLetGo(Init(ring, capacity), steps, i)
  {
    RunSeated<E>(ring, capacity, steps, i);
  }

  /** A registered subscriber has passed an id that had its turn, because it was offered the id or asked after it
      was assigned, if and only if it was not let go before. */
  lemma OfferedExactly<E>(ring: nat, capacity: nat, steps: seq<BusStep<E>>, i: nat, id: nat)
    requires var b := Run(Init<E>(ring, capacity), steps);
             Registered(b, i) && !Ahead(b, id) && id !in b.lost
    ensures id <= Run(Init<E>(ring, capacity), steps).subs[i].upto <==> !LetGoBefore(Init(ring, capacity), steps, i, id)
  {
    RunAccount<E>(ring, capacity, steps, i, id);
  }
}
