/**
 The queue on the bus's subscriber lock: fan-outs happen in id order, a subscriber registers behind every
 publisher that queued before it and ahead of every later one, and an id that an attached subscriber
 is passed over for is exactly one whose publisher was cancelled in the queue.
 */
module MemoryBusLock {
  import opened Tasks
  import opened MemoryBus

  ghost predicate IsDeliver<E>(turns: seq<Turn<E>>, p: int) { 0 <= p < |turns| && turns[p].Deliver? }

  ghost predicate IsRegister<E>(turns: seq<Turn<E>>, p: int) { 0 <= p < |turns| && turns[p].Register? }

  /** The publisher of id k waits for the lock. */
  ghost predicate Waits<E>(turns: seq<Turn<E>>, k: nat) {
    exists p :: IsDeliver(turns, p) && turns[p].entry.id == k
  }

  /** Publishers wait in id order, with the event they logged, and none of them was cancelled. */
  ghost predicate PublishersOk<E>(log: seq<Item<E>>, turns: seq<Turn<E>>, lost: set<nat>) {
    && (forall p, q :: IsDeliver(turns, p) && IsDeliver(turns, q) && p < q ==> turns[p].entry.id < turns[q].entry.id)
    && (forall p :: IsDeliver(turns, p) ==>
          1 <= turns[p].entry.id <= |log| && turns[p].entry.item == log[turns[p].entry.id - 1] && turns[p].entry.id !in lost)
    && (forall k :: k in lost ==> 1 <= k <= |log|)
  }

  /** A subscriber in the queue stands behind the ids assigned before it asked and ahead of the others. */
  ghost predicate JoinersOk<E>(turns: seq<Turn<E>>, subs: seq<Sub<E>>) {
    && (forall p :: IsRegister(turns, p) ==> turns[p].i < |subs| && subs[turns[p].i].phase.Joining?)
    && (forall p, q :: IsRegister(turns, p) && IsRegister(turns, q) && turns[p].i == turns[q].i ==> p == q)
    && (forall p, q :: IsRegister(turns, p) && IsDeliver(turns, q) && turns[p].i < |subs| ==>
          (p < q <==> subs[turns[p].i].asked < turns[q].entry.id))
  }

  /** Will s be offered every id above `upto` that is not lost? */
  ghost predicate Owed<E>(n: nat, turns: seq<Turn<E>>, lost: set<nat>, upto: nat) {
    forall k :: upto < k <= n ==> k in lost || Waits(turns, k)
  }

  ghost predicate SubLockOk<E>(n: nat, turns: seq<Turn<E>>, lost: set<nat>, s: Sub<E>) {
    && s.asked <= s.upto <= n
    && (s.attached ==> !s.phase.Joining? && Owed(n, turns, lost, s.upto))
    && (!s.phase.Joining? ==> forall p :: IsDeliver(turns, p) ==> s.upto < turns[p].entry.id)
    && (s.phase.Joining? ==> s.upto == s.asked)
  }

  ghost predicate LockOk<E>(b: Bus<E>) {
    && PublishersOk(b.log, b.turns, b.lost)
    && JoinersOk(b.turns, b.subs)
    && (forall i :: 0 <= i < |b.subs| ==> SubLockOk(|b.log|, b.turns, b.lost, b.subs[i]))
    && (forall p :: IsRegister(b.turns, p) && b.turns[p].i < |b.subs| ==>
          Owed(|b.log|, b.turns, b.lost, b.subs[b.turns[p].i].asked))
  }

  // ----- Queueing -----

  /** Appending to the queue leaves everyone in place. */
  lemma Queued<E>(turns: seq<Turn<E>>, t: Turn<E>)
    ensures forall p :: 0 <= p < |turns| ==>
              (IsDeliver(turns, p) <==> IsDeliver(turns + [t], p)) && (IsRegister(turns, p) <==> IsRegister(turns + [t], p))
    ensures forall k :: Waits(turns + [t], k) <==> Waits(turns, k) || (t.Deliver? && t.entry.id == k)
  {
    forall k | Waits(turns, k) ensures Waits(turns + [t], k) {
      var p :| IsDeliver(turns, p) && turns[p].entry.id == k;
      assert IsDeliver(turns + [t], p);
    }
    forall k | Waits(turns + [t], k) ensures Waits(turns, k) || (t.Deliver? && t.entry.id == k) {
      var p :| IsDeliver(turns + [t], p) && (turns + [t])[p].entry.id == k;
      assert p < |turns| ==> IsDeliver(turns, p);
    }
    if t.Deliver? { assert IsDeliver(turns + [t], |turns|); }
  }

  /** A publisher queues with the next id, everybody else leaves the counter alone. */
  ghost predicate Next<E>(n: nat, n': nat, t: Turn<E>) {
    if t.Deliver? then t.entry.id == n' == n + 1 else n' == n
  }

  lemma OwedGrows<E>(n: nat, n': nat, turns: seq<Turn<E>>, t: Turn<E>, lost: set<nat>, upto: nat)
    requires Owed(n, turns, lost, upto) && Next(n, n', t)
    ensures Owed(n', turns + [t], lost, upto)
  {
    Queued(turns, t);
  }

  lemma SubGrows<E>(n: nat, n': nat, turns: seq<Turn<E>>, t: Turn<E>, lost: set<nat>, s: Sub<E>)
    requires SubLockOk(n, turns, lost, s) && Next(n, n', t)
    ensures SubLockOk(n', turns + [t], lost, s)
  {
    if s.attached { OwedGrows(n, n', turns, t, lost, s.upto); }
    forall p | IsDeliver(turns + [t], p) && !s.phase.Joining? ensures s.upto < (turns + [t])[p].entry.id {
      if p < |turns| { assert IsDeliver(turns, p); }
    }
  }

  lemma PublishersGrow<E>(log: seq<Item<E>>, item: Item<E>, turns: seq<Turn<E>>, lost: set<nat>)
    requires PublishersOk(log, turns, lost)
    ensures PublishersOk(log + [item], turns + [Deliver(Entry(|log| + 1, item))], lost)
  {
    var more := turns + [Deliver(Entry(|log| + 1, item))];
    forall p | IsDeliver(more, p) && p < |turns|
      ensures IsDeliver(turns, p) && more[p] == turns[p] && 1 <= turns[p].entry.id <= |log|
    {
      assert IsDeliver(turns, p);
    }
  }

  lemma PublishersStay<E>(log: seq<Item<E>>, turns: seq<Turn<E>>, t: Turn<E>, lost: set<nat>)
    requires PublishersOk(log, turns, lost) && !t.Deliver?
    ensures PublishersOk(log, turns + [t], lost)
  {
    assert forall p :: IsDeliver(turns + [t], p) ==> IsDeliver(turns, p) && (turns + [t])[p] == turns[p];
  }

  /** Nobody already in the queue has to make way. */
  lemma JoinersGrow<E>(turns: seq<Turn<E>>, t: Turn<E>, subs: seq<Sub<E>>)
    requires JoinersOk(turns, subs) && !t.Register?
    requires t.Deliver? ==> forall i :: 0 <= i < |subs| ==> subs[i].asked < t.entry.id
    ensures JoinersOk(turns + [t], subs)
  {
    var more := turns + [t];
    assert forall p :: IsRegister(more, p) ==> IsRegister(turns, p) && more[p] == turns[p];
    assert forall p :: IsDeliver(more, p) ==> (IsDeliver(turns, p) && more[p] == turns[p]) || p == |turns|;
  }

  lemma JoinerJoins<E>(turns: seq<Turn<E>>, subs: seq<Sub<E>>, s: Sub<E>)
    requires JoinersOk(turns, subs) && s.phase.Joining?
    requires forall q :: IsDeliver(turns, q) ==> turns[q].entry.id <= s.asked
    ensures JoinersOk(turns + [Register(|subs|)], subs + [s])
  {
    var more := turns + [Register(|subs|)];
    assert forall p :: IsRegister(more, p) ==> (IsRegister(turns, p) && more[p] == turns[p]) || p == |turns|;
    assert forall p :: IsDeliver(more, p) ==> IsDeliver(turns, p) && more[p] == turns[p];
  }

  lemma QueueKeepsLock<E>(b: Bus<E>, log: seq<Item<E>>, t: Turn<E>)
    requires LockOk(b) && !t.Register? && Next(|b.log|, |log|, t)
    requires PublishersOk(log, b.turns + [t], b.lost)
    ensures LockOk(b.(log := log, turns := b.turns + [t]))
  {
    forall i | 0 <= i < |b.subs| ensures SubLockOk(|log|, b.turns + [t], b.lost, b.subs[i]) {
      SubGrows(|b.log|, |log|, b.turns, t, b.lost, b.subs[i]);
    }
    JoinersGrow(b.turns, t, b.subs);
    forall p | IsRegister(b.turns + [t], p) && (b.turns + [t])[p].i < |b.subs|
      ensures Owed(|log|, b.turns + [t], b.lost, b.subs[(b.turns + [t])[p].i].asked)
    {
      assert IsRegister(b.turns, p);
      OwedGrows(|b.log|, |log|, b.turns, t, b.lost, b.subs[b.turns[p].i].asked);
    }
  }

  lemma SubscribeKeepsLock<E>(b: Bus<E>, after: Option<nat>)
    requires LockOk(b)
    ensures LockOk(Step(b, Subscribe(after)))
  {
    var r, n := Step(b, Subscribe(after)), |b.log|;
    PublishersStay(b.log, b.turns, Register(|b.subs|), b.lost);
    JoinerJoins(b.turns, b.subs, Asking(after, n));
    forall i | 0 <= i < |r.subs| ensures SubLockOk(n, r.turns, r.lost, r.subs[i]) {
      if i < |b.subs| { SubGrows(n, n, b.turns, Register(|b.subs|), b.lost, b.subs[i]); }
    }
    forall p | IsRegister(r.turns, p) && r.turns[p].i < |r.subs| ensures Owed(n, r.turns, r.lost, r.subs[r.turns[p].i].asked) {
      if p < |b.turns| {
        assert IsRegister(b.turns, p);
        OwedGrows(n, n, b.turns, Register(|b.subs|), b.lost, b.subs[b.turns[p].i].asked);
      }
    }
  }

  // ----- Leaving the queue -----

  /** Position p of the queue without its k-th element. */
  ghost function Was(k: nat, p: int): int { if p < k then p else p + 1 }

  lemma Removed<E>(turns: seq<Turn<E>>, k: nat)
    requires k < |turns|
    ensures var rest := turns[..k] + turns[k + 1..];
            && (forall p :: 0 <= p < |rest| ==> rest[p] == turns[Was(k, p)])
            && (forall p :: IsDeliver(rest, p) ==> IsDeliver(turns, Was(k, p)))
            && (forall p :: IsRegister(rest, p) ==> IsRegister(turns, Was(k, p)))
            && (forall id :: Waits(turns, id) ==> Waits(rest, id) || (turns[k].Deliver? && turns[k].entry.id == id))
  {
    var rest := turns[..k] + turns[k + 1..];
    forall id | Waits(turns, id) ensures Waits(rest, id) || (turns[k].Deliver? && turns[k].entry.id == id) {
      var p :| IsDeliver(turns, p) && turns[p].entry.id == id;
      if p != k { assert IsDeliver(rest, if p < k then p else p - 1); }
    }
  }

  lemma PublishersShrink<E>(log: seq<Item<E>>, turns: seq<Turn<E>>, lost: set<nat>, k: nat)
    requires PublishersOk(log, turns, lost) && k < |turns|
    ensures PublishersOk(log, turns[..k] + turns[k + 1..], lost + IdsOf(turns[k]))
    ensures PublishersOk(log, turns[..k] + turns[k + 1..], lost)
  {
    Removed(turns, k);
    assert turns[k].Deliver? ==> IsDeliver(turns, k);
  }

  lemma JoinersShrink<E>(turns: seq<Turn<E>>, subs: seq<Sub<E>>, k: nat)
    requires JoinersOk(turns, subs) && k < |turns|
    ensures JoinersOk(turns[..k] + turns[k + 1..], subs)
  {
    Removed(turns, k);
  }

  lemma OwedShrinks<E>(n: nat, turns: seq<Turn<E>>, lost: set<nat>, upto: nat, k: nat)
    requires Owed(n, turns, lost, upto) && k < |turns|
    ensures Owed(n, turns[..k] + turns[k + 1..], lost + IdsOf(turns[k]), upto)
  {
    Removed(turns, k);
  }

  lemma SubShrinks<E>(n: nat, turns: seq<Turn<E>>, lost: set<nat>, s: Sub<E>, k: nat)
    requires SubLockOk(n, turns, lost, s) && k < |turns|
    ensures SubLockOk(n, turns[..k] + turns[k + 1..], lost + IdsOf(turns[k]), s)
  {
    Removed(turns, k);
    assert turns[k].Deliver? ==> IsDeliver(turns, k);
    if s.attached { OwedShrinks(n, turns, lost, s.upto, k); }
  }

  lemma CancelKeepsLock<E>(b: Bus<E>, k: nat)
    requires LockOk(b) && k < |b.turns|
    ensures LockOk(Step(b, Cancel(k)))
  {
    var r := Step(b, Cancel(k));
    PublishersShrink(b.log, b.turns, b.lost, k);
    JoinersShrink(b.turns, b.subs, k);
    forall i | 0 <= i < |r.subs| ensures SubLockOk(|r.log|, r.turns, r.lost, r.subs[i]) {
      SubShrinks(|b.log|, b.turns, b.lost, b.subs[i], k);
    }
    forall p | IsRegister(r.turns, p) && r.turns[p].i < |r.subs|
      ensures Owed(|r.log|, r.turns, r.lost, r.subs[r.turns[p].i].asked)
    {
      Removed(b.turns, k);
      assert IsRegister(b.turns, Was(k, p));
      OwedShrinks(|b.log|, b.turns, b.lost, b.subs[r.turns[p].i].asked, k);
    }
  }

  // ----- The head of the queue -----

  /** The queue behind its head. */
  lemma Tail<E>(turns: seq<Turn<E>>)
    requires turns != []
    ensures forall p :: IsDeliver(turns[1..], p) ==> IsDeliver(turns, p + 1) && turns[1..][p] == turns[p + 1]
    ensures forall p :: IsRegister(turns[1..], p) ==> IsRegister(turns, p + 1) && turns[1..][p] == turns[p + 1]
    ensures forall id :: Waits(turns, id) ==> Waits(turns[1..], id) || (turns[0].Deliver? && turns[0].entry.id == id)
  {
    forall id | Waits(turns, id) ensures Waits(turns[1..], id) || (turns[0].Deliver? && turns[0].entry.id == id) {
      var p :| IsDeliver(turns, p) && turns[p].entry.id == id;
      if p > 0 { assert IsDeliver(turns[1..], p - 1); }
    }
  }

  lemma TailOk<E>(log: seq<Item<E>>, turns: seq<Turn<E>>, lost: set<nat>, subs: seq<Sub<E>>)
    requires turns != [] && PublishersOk(log, turns, lost) && JoinersOk(turns, subs)
    ensures PublishersOk(log, turns[1..], lost) && JoinersOk(turns[1..], subs)
  {
    PublishersShrink(log, turns, lost, 0);
    JoinersShrink(turns, subs, 0);
    assert turns[..0] + turns[0 + 1..] == turns[1..];
  }

  lemma OwedBehind<E>(n: nat, turns: seq<Turn<E>>, lost: set<nat>, upto: nat)
    requires turns != [] && Owed(n, turns, lost, upto)
    requires turns[0].Deliver? ==> turns[0].entry.id <= upto
    ensures Owed(n, turns[1..], lost, upto)
  {
    Tail(turns);
  }

  /** Nobody in the queue is ahead of a publisher at its head. */
  lemma HeadIsFirst<E>(log: seq<Item<E>>, turns: seq<Turn<E>>, lost: set<nat>, e: Entry<E>)
    requires PublishersOk(log, turns, lost) && turns != [] && turns[0] == Deliver(e)
    ensures 1 <= e.id <= |log| && e.item == log[e.id - 1] && e.id !in lost
    ensures forall k :: Waits(turns, k) ==> e.id <= k
    ensures forall p :: IsDeliver(turns[1..], p) ==> e.id < turns[1..][p].entry.id
  {
    assert IsDeliver(turns, 0);
    Tail(turns);
  }

  /** A fan-out: whoever is attached moves up to the id. */
  lemma SendKeepsLock<E>(log: seq<Item<E>>, turns: seq<Turn<E>>, lost: set<nat>, s: Sub<E>, e: Entry<E>, capacity: nat)
    requires PublishersOk(log, turns, lost) && turns != [] && turns[0] == Deliver(e)
    requires SubLockOk(|log|, turns, lost, s) && s.attached
    ensures SubLockOk(|log|, turns[1..], lost, Send(s, e, capacity))
  {
    HeadIsFirst(log, turns, lost, e);
    Tail(turns);
    assert IsDeliver(turns, 0);
  }

  /** An attached subscriber is passed over only for lost ids. */
  lemma PassedOverAreLost<E>(log: seq<Item<E>>, turns: seq<Turn<E>>, lost: set<nat>, s: Sub<E>, e: Entry<E>)
    requires PublishersOk(log, turns, lost) && turns != [] && turns[0] == Deliver(e)
    requires SubLockOk(|log|, turns, lost, s) && s.attached
    ensures s.upto < e.id
    ensures forall k :: s.upto < k < e.id ==> k in lost
  {
    HeadIsFirst(log, turns, lost, e);
    assert IsDeliver(turns, 0);
  }

  /** A subscriber that does not notice the head leaving. */
  lemma SubBehind<E>(n: nat, turns: seq<Turn<E>>, lost: set<nat>, s: Sub<E>)
    requires turns != [] && SubLockOk(n, turns, lost, s)
    requires s.attached ==> !turns[0].Deliver?
    ensures SubLockOk(n, turns[1..], lost, s)
  {
    Tail(turns);
    if s.attached { OwedBehind(n, turns, lost, s.upto); }
  }

  /** The ids owed to the subscribers still in the queue. */
  lemma JoinersOwed<E>(b: Bus<E>)
    requires LockOk(b) && b.turns != []
    ensures forall p :: IsRegister(b.turns[1..], p) && b.turns[1..][p].i < |b.subs| ==>
              Owed(|b.log|, b.turns[1..], b.lost, b.subs[b.turns[1..][p].i].asked)
  {
    Tail(b.turns);
    forall p | IsRegister(b.turns[1..], p) && b.turns[1..][p].i < |b.subs|
      ensures Owed(|b.log|, b.turns[1..], b.lost, b.subs[b.turns[1..][p].i].asked)
    {
      assert IsRegister(b.turns, p + 1);
      if b.turns[0].Deliver? { assert IsDeliver(b.turns, 0); }
      OwedBehind(|b.log|, b.turns, b.lost, b.subs[b.turns[p + 1].i].asked);
    }
  }

  /** Subscribers whose place in the queue and whose call-time counter stay. */
  ghost predicate SamePlaces<E>(subs: seq<Sub<E>>, subs': seq<Sub<E>>) {
    && |subs'| == |subs|
    && forall i :: 0 <= i < |subs| ==> subs'[i].asked == subs[i].asked && (subs'[i].phase.Joining? <==> subs[i].phase.Joining?)
  }

  /** With the head gone, only the subscribers it changed need to be looked at. */
  lemma GrantKeepsLock<E>(b: Bus<E>, subs: seq<Sub<E>>)
    requires LockOk(b) && b.turns != [] && SamePlaces(b.subs, subs)
    requires forall i :: 0 <= i < |subs| ==> SubLockOk(|b.log|, b.turns[1..], b.lost, subs[i])
    ensures LockOk(b.(turns := b.turns[1..], subs := subs))
  {
    TailOk(b.log, b.turns, b.lost, b.subs);
    JoinersOwed(b);
  }

  lemma DeliverKeepsLock<E>(b: Bus<E>, e: Entry<E>)
    requires LockOk(b) && b.turns != [] && b.turns[0] == Deliver(e)
    ensures LockOk(Step(b, Grant))
  {
    var r := Step(b, Grant);
    forall i | 0 <= i < |r.subs| ensures SubLockOk(|b.log|, b.turns[1..], b.lost, r.subs[i]) {
      if b.subs[i].attached {
        SendKeepsLock(b.log, b.turns, b.lost, b.subs[i], e, b.capacity);
      } else {
        SubBehind(|b.log|, b.turns, b.lost, b.subs[i]);
      }
    }
    GrantKeepsLock(b, r.subs);
  }

  lemma JoinKeepsLock<E>(b: Bus<E>, i: nat)
    requires LockOk(b) && b.turns != [] && b.turns[0] == Register(i)
    ensures i < |b.subs| && SubLockOk(|b.log|, b.turns[1..], b.lost, Join(b.subs[i], |b.log|))
  {
    assert IsRegister(b.turns, 0);
    Tail(b.turns);
    OwedBehind(|b.log|, b.turns, b.lost, b.subs[i].asked);
  }

  lemma RegisterKeepsLock<E>(b: Bus<E>, i: nat)
    requires LockOk(b) && b.turns != [] && b.turns[0] == Register(i)
    ensures LockOk(Step(b, Grant))
  {
    assert IsRegister(b.turns, 0);
    JoinKeepsLock(b, i);
    var r := Step(b, Grant);
    forall j | 0 <= j < |r.subs| ensures SubLockOk(|r.log|, r.turns, r.lost, r.subs[j]) {
      if j != i { SubBehind(|b.log|, b.turns, b.lost, b.subs[j]); }
    }
    TailOk(b.log, b.turns, b.lost, b.subs);
    JoinersOwed(b);
    Tail(b.turns);
    assert forall p :: IsRegister(r.turns, p) ==> r.turns[p].i != i;
  }

  /** Letting go of subscribers. */
  lemma LetGoKeepsLock<E>(b: Bus<E>)
    requires LockOk(b) && b.turns != [] && (b.turns[0].Leave? || b.turns[0].Sweep?)
    ensures LockOk(Step(b, Grant))
  {
    var r := Step(b, Grant);
    forall j | 0 <= j < |r.subs| ensures SubLockOk(|b.log|, b.turns[1..], b.lost, r.subs[j]) {
      SubBehind(|b.log|, b.turns, b.lost, b.subs[j]);
    }
    GrantKeepsLock(b, r.subs);
  }

  lemma AdvanceKeepsLock<E>(b: Bus<E>, i: nat)
    requires LockOk(b) && i < |b.subs|
    ensures LockOk(Step(b, Advance(i)))
  {
    var s, t := b.subs[i], AdvanceSub(b.subs[i], b.log, b.ring);
    AdvanceFrame(s, b.log, b.ring);
    assert SubLockOk(|b.log|, b.turns, b.lost, t);
    assert SamePlaces(b.subs, b.subs[i := t]);
  }

  /** The generator does not touch what the lock protects. */
  ghost predicate SameSeat<E>(s: Sub<E>, t: Sub<E>) {
    && t.after == s.after && t.asked == s.asked && t.bookmark == s.bookmark && t.attached == s.attached
    && t.upto == s.upto && t.dropped == s.dropped
    && (t.phase.Joining? <==> s.phase.Joining?)
  }

  lemma TakeFrame<E>(s: Sub<E>, e: Entry<E>)
    requires s.phase.Live?
    ensures SameSeat(s, Take(s, e))
  {
  }

  lemma ReplayFrame<E>(s: Sub<E>, log: seq<Item<E>>, ring: nat)
    requires s.phase.Replay?
    ensures SameSeat(s, AdvanceSub(s, log, ring))
  {
  }

  lemma AdvanceFrame<E>(s: Sub<E>, log: seq<Item<E>>, ring: nat)
    ensures SameSeat(s, AdvanceSub(s, log, ring))
  {
    match s.phase
    case Replay(_) => ReplayFrame(s, log, ring);
    case Live =>
      if s.handed.Some? {
        TakeFrame(s.(handed := None), s.handed.value);
      } else if s.queue != [] {
        TakeFrame(s.(queue := s.queue[1..]), s.queue[0]);
      }
    case _ =>
  }

  lemma StepKeepsLock<E>(b: Bus<E>, e: BusStep<E>)
    requires LockOk(b)
    ensures LockOk(Step(b, e))
  {
    match e
    case Publish(item) =>
      PublishersGrow(b.log, item, b.turns, b.lost);
      QueueKeepsLock(b, b.log + [item], Deliver(Entry(|b.log| + 1, item)));
    case Subscribe(after) => SubscribeKeepsLock(b, after);
    case Detach(i) =>
      PublishersStay(b.log, b.turns, Leave(i), b.lost);
      QueueKeepsLock(b, b.log, Leave(i));
    case Cleanup =>
      PublishersStay(b.log, b.turns, Turn<E>.Sweep, b.lost);
      QueueKeepsLock(b, b.log, Sweep);
    case Grant =>
      if b.turns != [] {
        match b.turns[0]
        case Deliver(entry) => DeliverKeepsLock(b, entry);
        case Register(i) => RegisterKeepsLock(b, i);
        case _ => LetGoKeepsLock(b);
      }
    case Cancel(k) => if k < |b.turns| { CancelKeepsLock(b, k); }
    case Advance(i) => if i < |b.subs| { AdvanceKeepsLock(b, i); }
  }

  /** Once registered, a subscriber stays so, with the same resume point, call-time counter and bookmark. */
  lemma RegisteredStays<E>(b: Bus<E>, e: BusStep<E>, i: nat)
    requires LockOk(b) && i < |b.subs| && !b.subs[i].phase.Joining?
    ensures var r := Step(b, e);
            && i < |r.subs| && !r.subs[i].phase.Joining?
            && r.subs[i].bookmark == b.subs[i].bookmark && r.subs[i].asked == b.subs[i].asked && r.subs[i].after == b.subs[i].after
  {
    match e
    case Advance(j) => if j < |b.subs| { AdvanceFrame(b.subs[j], b.log, b.ring); }
    case Grant => if b.turns != [] && b.turns[0].Register? { assert IsRegister(b.turns, 0); }
    case _ =>
  }
}
