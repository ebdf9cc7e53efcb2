/**
 What a subscriber of the in-memory bus receives, over every interleaving of publishing, fanning out,
 subscribing, reading, unsubscribing, cleanup and cancellation: one replayed stretch of the log and then
 every event fanned out to it that its queue accepted, in log order and once each, up to the first closing
 event.
 */
module MemoryBusDelivery {
  import opened Tasks
  import opened MemoryBus
  import opened MemoryBusLock
  import opened MemoryBusAttachment

  /** The ids that the subscriber is not given live: dropped by its full queue, or lost with their publisher. */
  ghost function Missed<E>(lost: set<nat>, s: Sub<E>): set<nat> { s.dropped + lost }

  /** Everything accepted for the subscriber and not read yet. */
  ghost function Incoming<E>(s: Sub<E>): seq<Entry<E>> {
    (if s.handed.Some? then [s.handed.value] else []) + s.queue
  }

  /** Replay starts behind the resume point and behind what the ring buffer still holds. */
  ghost function ReplayFrom<E>(s: Sub<E>): nat {
    if s.after.Some? then Max(s.after.value, s.evicted) else s.seen
  }

  /** The ids a live event must exceed: the bookmark, or the end of a replay that replayed something. */
  ghost function LiveFrom<E>(s: Sub<E>): nat {
    if s.after.None? then s.bookmark else if ReplayFrom(s) < s.seen then s.seen else 0
  }

  ghost function Replayed<E>(log: seq<Item<E>>, s: Sub<E>): seq<Entry<E>>
    requires s.seen <= |log|
  {
    Pick(log, ReplayFrom(s), s.seen, {})
  }

  /** What a subscriber gets when it reads to the end of everything fanned out to it. */
  ghost function Expected<E>(log: seq<Item<E>>, lost: set<nat>, s: Sub<E>): seq<Entry<E>>
    requires s.seen <= |log| && s.upto <= |log|
  {
    Replayed(log, s) + Pick(log, Max(s.asked, s.last), s.upto, Missed(lost, s))
  }

  /** A stream ends at its first closing event and nowhere else. */
  ghost predicate EndsAtFinal<E>(s: Sub<E>) {
    && (forall k :: 0 <= k < |s.yielded| - 1 ==> !s.yielded[k].item.final)
    && (s.phase.Over? <==> s.yielded != [] && s.yielded[|s.yielded| - 1].item.final)
  }

  ghost predicate Bounds<E>(n: nat, s: Sub<E>) {
    && s.asked <= s.upto <= n
    && s.bookmark <= n
    && (!s.phase.Joining? ==> s.asked <= s.bookmark)
    && s.evicted <= s.seen <= n
    && (forall d :: d in s.dropped ==> d <= s.upto)
    && (s.after.Some? && !s.phase.Joining? && !s.phase.Fresh? ==> s.asked <= s.seen)
    && (s.receiving ==> s.phase.Live? && s.handed.None? && s.queue == [])
    && (s.phase.Joining? ==> !s.attached && s.upto == s.asked)
  }

  ghost predicate Progress<E>(log: seq<Item<E>>, lost: set<nat>, s: Sub<E>)
    requires s.seen <= |log| && s.upto <= |log|
  {
    match s.phase
    case Joining => s.yielded == [] && s.seen == 0 && s.evicted == 0 && Incoming(s) == [] && s.dropped == {}
    case Fresh =>
      && s.yielded == [] && s.seen == 0 && s.evicted == 0
      && s.last == (if s.after.Some? then 0 else s.bookmark)
      && Incoming(s) == Pick(log, s.asked, s.upto, Missed(lost, s))
    case Replay(rest) =>
      && s.after.Some? && s.asked <= s.seen && |rest| <= s.seen - s.evicted
      && Incoming(s) == Pick(log, s.asked, s.upto, Missed(lost, s))
      && ReplayedUpTo(log, s, rest, s.seen - |rest|)
    case Live =>
      && s.last == LiveFrom(s)
      && s.yielded + Above(Incoming(s), s.last) == Expected(log, lost, s)
    case Over =>
      && s.yielded <= Expected(log, lost, s)
      && (s.last == LiveFrom(s) || s.yielded <= Replayed(log, s))
  }

  /** The replay has passed id `at`. */
  ghost predicate ReplayedUpTo<E>(log: seq<Item<E>>, s: Sub<E>, rest: seq<Entry<E>>, at: nat)
    requires at <= s.seen <= |log|
  {
    && rest == Pick(log, at, s.seen, {})
    && s.yielded == Pick(log, ReplayFrom(s), at, {})
    && s.last == (if ReplayFrom(s) < at then at else 0)
  }

  ghost predicate SubOk<E>(log: seq<Item<E>>, lost: set<nat>, s: Sub<E>) {
    Bounds(|log|, s) && Progress(log, lost, s) && EndsAtFinal(s)
  }

  ghost predicate BusOk<E>(b: Bus<E>) {
    LockOk(b) && forall i :: 0 <= i < |b.subs| ==> SubOk(b.log, b.lost, b.subs[i])
  }

  // ----- One subscriber, one step -----

  lemma PublishKeeps<E>(log: seq<Item<E>>, item: Item<E>, lost: set<nat>, s: Sub<E>)
    requires SubOk(log, lost, s)
    ensures SubOk(log + [item], lost, s)
  {
    var all := log + [item];
    PickFrame(log, all, s.asked, s.upto, Missed(lost, s), Missed(lost, s));
    PickFrame(log, all, Max(s.asked, s.last), s.upto, Missed(lost, s), Missed(lost, s));
    PickFrame(log, all, ReplayFrom(s), s.seen, {}, {});
    if s.phase.Replay? {
      PickFrame(log, all, s.seen - |s.phase.rest|, s.seen, {}, {});
      PickFrame(log, all, ReplayFrom(s), s.seen - |s.phase.rest|, {}, {});
    }
  }

  /** A fan-out the subscriber is due: a logged event above what it was offered before, with only lost ones in
      between. */
  ghost predicate Due<E>(log: seq<Item<E>>, lost: set<nat>, s: Sub<E>, e: Entry<E>) {
    && s.upto < e.id <= |log| && e.item == log[e.id - 1] && e.id !in lost
    && (forall k :: s.upto < k < e.id ==> k in lost)
    && (forall d :: d in s.dropped ==> d <= s.upto)
    && (s.receiving ==> s.phase.Live? && s.handed.None? && s.queue == [])
  }

  /** The event at the end of a stretch starting at lo, when the subscriber takes it. */
  ghost function Grown<E>(s: Sub<E>, e: Entry<E>, capacity: nat, lo: nat): seq<Entry<E>> {
    if (s.receiving || |s.queue| < capacity) && lo < e.id then [e] else []
  }

  /** A stretch grows by the event just fanned out, unless the queue was full; ids in between were lost. */
  lemma SendGrows<E>(log: seq<Item<E>>, lost: set<nat>, s: Sub<E>, e: Entry<E>, capacity: nat, lo: nat)
    requires Due(log, lost, s, e)
    ensures var t := Send(s, e, capacity);
            Pick(log, lo, t.upto, Missed(lost, t)) == Pick(log, lo, s.upto, Missed(lost, s)) + Grown(s, e, capacity, lo)
  {
    var t := Send(s, e, capacity);
    PickFrame(log, log, lo, s.upto, Missed(lost, s), Missed(lost, t));
    PickGap(log, lo, s.upto, e.id - 1, Missed(lost, t));
  }

  lemma SendIncoming<E>(s: Sub<E>, e: Entry<E>, capacity: nat)
    requires s.receiving ==> s.handed.None? && s.queue == []
    requires e.id > 0
    ensures Incoming(Send(s, e, capacity)) == Incoming(s) + Grown(s, e, capacity, 0)
  {
  }

  lemma SendAbove<E>(log: seq<Item<E>>, lost: set<nat>, s: Sub<E>, e: Entry<E>, capacity: nat)
    requires Due(log, lost, s, e) && s.asked <= s.upto
    ensures Above(Incoming(Send(s, e, capacity)), s.last)
         == Above(Incoming(s), s.last) + Grown(s, e, capacity, Max(s.asked, s.last))
  {
    SendIncoming(s, e, capacity);
    AboveGrows(Incoming(s), e, s.last, Grown(s, e, capacity, 0));
  }

  lemma AboveGrows<E>(s: seq<Entry<E>>, e: Entry<E>, last: nat, more: seq<Entry<E>>)
    requires more == [] || more == [e]
    ensures Above(s + more, last) == Above(s, last) + (if more == [e] && e.id > last then [e] else [])
  {
    if more == [] { assert s + more == s; } else { AboveSnoc(s, e, last); }
  }

  /** What is expected of the subscriber grows by what a reader will not skip. */
  lemma SendExpected<E>(log: seq<Item<E>>, lost: set<nat>, s: Sub<E>, e: Entry<E>, capacity: nat)
    requires Due(log, lost, s, e) && s.seen <= |log|
    ensures Expected(log, lost, Send(s, e, capacity)) == Expected(log, lost, s) + Grown(s, e, capacity, Max(s.asked, s.last))
  {
    var t := Send(s, e, capacity);
    var lo := Max(s.asked, s.last);
    SendGrows(log, lost, s, e, capacity, lo);
    assert Replayed(log, t) == Replayed(log, s);
    Assoc(Replayed(log, s), Pick(log, lo, s.upto, Missed(lost, s)), Grown(s, e, capacity, lo));
  }

  lemma Assoc<T>(a: seq<T>, b: seq<T>, c: seq<T>)
    ensures a + (b + c) == (a + b) + c
  {
  }

  /** A live reader's equation survives an append on both sides. */
  lemma LiveGrows<E>(log: seq<Item<E>>, lost: set<nat>, s: Sub<E>, t: Sub<E>, more: seq<Entry<E>>)
    requires s.seen <= |log| && s.upto <= |log| && t.seen <= |log| && t.upto <= |log|
    requires s.phase.Live? && Progress(log, lost, s)
    requires t.phase.Live? && t.yielded == s.yielded && t.last == s.last && LiveFrom(t) == LiveFrom(s)
    requires Expected(log, lost, t) == Expected(log, lost, s) + more
    requires Above(Incoming(t), s.last) == Above(Incoming(s), s.last) + more
    ensures Progress(log, lost, t)
  {
    Assoc(s.yielded, Above(Incoming(s), s.last), more);
  }

  lemma SendKeepsLive<E>(log: seq<Item<E>>, lost: set<nat>, s: Sub<E>, e: Entry<E>, capacity: nat)
    requires Bounds(|log|, s) && Progress(log, lost, s) && Due(log, lost, s, e) && s.phase.Live?
    ensures Progress(log, lost, Send(s, e, capacity))
  {
    SendExpected(log, lost, s, e, capacity);
    SendAbove(log, lost, s, e, capacity);
    LiveGrows(log, lost, s, Send(s, e, capacity), Grown(s, e, capacity, Max(s.asked, s.last)));
  }

  lemma SendKeepsOver<E>(log: seq<Item<E>>, lost: set<nat>, s: Sub<E>, e: Entry<E>, capacity: nat)
    requires Bounds(|log|, s) && Progress(log, lost, s) && Due(log, lost, s, e) && s.phase.Over?
    ensures Progress(log, lost, Send(s, e, capacity))
  {
    SendExpected(log, lost, s, e, capacity);
  }

  lemma SendKeepsQueue<E>(log: seq<Item<E>>, lost: set<nat>, s: Sub<E>, e: Entry<E>, capacity: nat)
    requires Bounds(|log|, s) && Progress(log, lost, s) && Due(log, lost, s, e)
    requires s.phase.Fresh? || s.phase.Replay?
    ensures Progress(log, lost, Send(s, e, capacity))
  {
    SendGrows(log, lost, s, e, capacity, s.asked);
    SendIncoming(s, e, capacity);
  }

  lemma SendKeepsBounds<E>(log: seq<Item<E>>, lost: set<nat>, s: Sub<E>, e: Entry<E>, capacity: nat)
    requires Bounds(|log|, s) && EndsAtFinal(s) && Due(log, lost, s, e) && s.attached
    ensures var t := Send(s, e, capacity);
            Bounds(|log|, t) && EndsAtFinal(t)
  {
  }

  lemma SendKeeps<E>(log: seq<Item<E>>, lost: set<nat>, s: Sub<E>, e: Entry<E>, capacity: nat)
    requires SubOk(log, lost, s) && s.attached && Due(log, lost, s, e)
    ensures SubOk(log, lost, Send(s, e, capacity))
  {
    SendKeepsBounds(log, lost, s, e, capacity);
    if s.phase.Live? {
      SendKeepsLive(log, lost, s, e, capacity);
    } else if s.phase.Over? {
      SendKeepsOver(log, lost, s, e, capacity);
    } else {
      SendKeepsQueue(log, lost, s, e, capacity);
    }
  }

  lemma JoinKeeps<E>(log: seq<Item<E>>, lost: set<nat>, s: Sub<E>)
    requires SubOk(log, lost, s) && s.phase.Joining?
    ensures SubOk(log, lost, Join(s, |log|))
  {
  }

  lemma StartKeeps<E>(log: seq<Item<E>>, lost: set<nat>, s: Sub<E>, ring: nat)
    requires SubOk(log, lost, s) && s.phase.Fresh?
    ensures SubOk(log, lost, AdvanceSub(s, log, ring))
  {
    if s.after.Some? {
      WindowLength(log, ring);
    } else {
      AbovePick(log, s.asked, s.upto, Missed(lost, s), s.last);
    }
  }

  /** The next buffered event is the one after `at`. */
  lemma NextReplayed<E>(log: seq<Item<E>>, rest: seq<Entry<E>>, at: nat, seen: nat)
    requires at < seen <= |log| && rest == Pick(log, at, seen, {})
    ensures rest != [] && rest[0] == Entry(at + 1, log[at]) && rest[1..] == Pick(log, at + 1, seen, {})
  {
    PickSplit(log, at, at + 1, seen, {});
    assert Pick(log, at, at + 1, {}) == [Entry(at + 1, log[at])];
  }

  lemma ReplayKeeps<E>(log: seq<Item<E>>, lost: set<nat>, s: Sub<E>, ring: nat)
    requires SubOk(log, lost, s) && s.phase.Replay? && s.phase.rest != []
    ensures SubOk(log, lost, AdvanceSub(s, log, ring))
  {
    var rest, t := s.phase.rest, AdvanceSub(s, log, ring);
    var at := s.seen - |rest|;
    NextReplayed(log, rest, at, s.seen);
    assert ReplayFrom(t) == ReplayFrom(s) && Incoming(t) == Incoming(s);
    if rest[0].id > s.after.value {
      assert Pick(log, ReplayFrom(s), at + 1, {}) == s.yielded + [rest[0]];
      assert t.yielded == Pick(log, ReplayFrom(s), at + 1, {});
      PickSplit(log, ReplayFrom(s), at + 1, s.seen, {});
      assert t.yielded <= Replayed(log, t);
    } else {
      assert Pick(log, ReplayFrom(s), at + 1, {}) == [] == s.yielded;
    }
  }

  lemma ReplayDone<E>(log: seq<Item<E>>, lost: set<nat>, s: Sub<E>, ring: nat)
    requires SubOk(log, lost, s) && s.phase == Replay([])
    ensures SubOk(log, lost, AdvanceSub(s, log, ring))
  {
    AbovePick(log, s.asked, s.upto, Missed(lost, s), s.last);
  }

  /** A subscriber with the head of its queue removed. */
  ghost predicate Popped<E>(s: Sub<E>, u: Sub<E>, e: Entry<E>) {
    u == s.(handed := u.handed, queue := u.queue) && Incoming(s) == [e] + Incoming(u)
  }

  lemma SkipKeeps<E>(log: seq<Item<E>>, lost: set<nat>, s: Sub<E>, u: Sub<E>, e: Entry<E>)
    requires SubOk(log, lost, s) && s.phase.Live? && !s.receiving && Popped(s, u, e) && e.id <= s.last
    ensures SubOk(log, lost, u)
  {
    AboveHead(e, Incoming(u), s.last);
    assert Expected(log, lost, u) == Expected(log, lost, s);
    assert [] + Above(Incoming(u), s.last) == Above(Incoming(u), s.last);
  }

  lemma YieldKeeps<E>(log: seq<Item<E>>, lost: set<nat>, s: Sub<E>, u: Sub<E>, e: Entry<E>)
    requires SubOk(log, lost, s) && s.phase.Live? && !s.receiving && Popped(s, u, e) && e.id > s.last
    ensures SubOk(log, lost, Yield(u, e, Live))
  {
    var t := Yield(u, e, Live);
    AboveHead(e, Incoming(u), s.last);
    assert Expected(log, lost, t) == Expected(log, lost, s) && Incoming(t) == Incoming(u);
    Assoc(s.yielded, [e], Above(Incoming(u), s.last));
  }

  /** Reading one accepted event, or skipping it. */
  lemma TakeKeeps<E>(log: seq<Item<E>>, lost: set<nat>, s: Sub<E>, u: Sub<E>, e: Entry<E>)
    requires SubOk(log, lost, s) && s.phase.Live? && !s.receiving && Popped(s, u, e)
    ensures SubOk(log, lost, Take(u, e))
  {
    if e.id <= s.last { SkipKeeps(log, lost, s, u, e); } else { YieldKeeps(log, lost, s, u, e); }
  }

  lemma WaitKeeps<E>(log: seq<Item<E>>, lost: set<nat>, s: Sub<E>)
    requires SubOk(log, lost, s) && s.phase.Live? && Incoming(s) == []
    ensures SubOk(log, lost, s.(receiving := true))
  {
    var t := s.(receiving := true);
    assert Incoming(t) == Incoming(s) && Expected(log, lost, t) == Expected(log, lost, s);
  }

  lemma QueueKeeps<E>(log: seq<Item<E>>, lost: set<nat>, s: Sub<E>)
    requires SubOk(log, lost, s) && s.phase.Live? && s.handed.None? && s.queue != []
    ensures SubOk(log, lost, Take(s.(queue := s.queue[1..]), s.queue[0]))
  {
    TakeKeeps(log, lost, s, s.(queue := s.queue[1..]), s.queue[0]);
  }

  lemma LiveKeeps<E>(log: seq<Item<E>>, lost: set<nat>, s: Sub<E>, ring: nat)
    requires SubOk(log, lost, s) && s.phase.Live?
    ensures SubOk(log, lost, AdvanceSub(s, log, ring))
  {
    if s.handed.Some? {
      TakeKeeps(log, lost, s, s.(handed := None), s.handed.value);
    } else if s.queue != [] {
      QueueKeeps(log, lost, s);
    } else {
      WaitKeeps(log, lost, s);
    }
  }

  lemma AdvanceKeeps<E>(log: seq<Item<E>>, lost: set<nat>, s: Sub<E>, ring: nat)
    requires SubOk(log, lost, s)
    ensures SubOk(log, lost, AdvanceSub(s, log, ring))
  {
    match s.phase
    case Joining =>
    case Fresh => StartKeeps(log, lost, s, ring);
    case Replay(rest) => if rest == [] { ReplayDone(log, lost, s, ring); } else { ReplayKeeps(log, lost, s, ring); }
    case Live => LiveKeeps(log, lost, s, ring);
    case Over =>
  }

  lemma DetachKeeps<E>(log: seq<Item<E>>, lost: set<nat>, s: Sub<E>)
    requires SubOk(log, lost, s)
    ensures SubOk(log, lost, s.(attached := false))
  {
  }

  /** An id is lost while its publisher waits, so above everything the subscriber was offered. */
  lemma LossKeeps<E>(log: seq<Item<E>>, lost: set<nat>, more: set<nat>, s: Sub<E>)
    requires SubOk(log, lost, s) && (!s.phase.Joining? ==> forall k :: k in more ==> s.upto < k)
    ensures SubOk(log, lost + more, s)
  {
    if !s.phase.Joining? {
      PickFrame(log, log, s.asked, s.upto, Missed(lost, s), Missed(lost + more, s));
      PickFrame(log, log, Max(s.asked, s.last), s.upto, Missed(lost, s), Missed(lost + more, s));
    }
  }

  // ----- The bus -----

  lemma DeliverKeeps<E>(b: Bus<E>, e: Entry<E>)
    requires BusOk(b) && b.turns != [] && b.turns[0] == Deliver(e)
    ensures forall i :: 0 <= i < |b.subs| ==> SubOk(b.log, b.lost, Step(b, Grant).subs[i])
  {
    HeadIsFirst(b.log, b.turns, b.lost, e);
    assert IsDeliver(b.turns, 0);
    forall i | 0 <= i < |b.subs| ensures SubOk(b.log, b.lost, Step(b, Grant).subs[i]) {
      assert SubOk(b.log, b.lost, b.subs[i]) && SubLockOk(|b.log|, b.turns, b.lost, b.subs[i]);
      if b.subs[i].attached {
        PassedOverAreLost(b.log, b.turns, b.lost, b.subs[i], e);
        SendKeeps(b.log, b.lost, b.subs[i], e, b.capacity);
      }
    }
  }

  lemma GrantKeeps<E>(b: Bus<E>)
    requires BusOk(b) && b.turns != []
    ensures forall i :: 0 <= i < |b.subs| ==> SubOk(b.log, b.lost, Step(b, Grant).subs[i])
  {
    match b.turns[0]
    case Deliver(e) => DeliverKeeps(b, e);
    case Register(i) =>
      assert IsRegister(b.turns, 0);
      JoinKeeps(b.log, b.lost, b.subs[i]);
    case Leave(i) => if i < |b.subs| { DetachKeeps(b.log, b.lost, b.subs[i]); }
    case Sweep =>
      forall i | 0 <= i < |b.subs| ensures SubOk(b.log, b.lost, b.subs[i].(attached := false)) {
        DetachKeeps(b.log, b.lost, b.subs[i]);
      }
  }

  lemma CancelKeeps<E>(b: Bus<E>, k: nat)
    requires BusOk(b) && k < |b.turns|
    ensures forall i :: 0 <= i < |b.subs| ==> SubOk(b.log, b.lost + IdsOf(b.turns[k]), b.subs[i])
  {
    forall i | 0 <= i < |b.subs| ensures SubOk(b.log, b.lost + IdsOf(b.turns[k]), b.subs[i]) {
      assert SubLockOk(|b.log|, b.turns, b.lost, b.subs[i]);
      if b.turns[k].Deliver? { assert IsDeliver(b.turns, k); }
      LossKeeps(b.log, b.lost, IdsOf(b.turns[k]), b.subs[i]);
    }
  }

  lemma StepKeeps<E>(b: Bus<E>, e: BusStep<E>)
    requires BusOk(b)
    ensures BusOk(Step(b, e))
  {
    StepKeepsLock(b, e);
    match e
    case Publish(item) =>
      forall i | 0 <= i < |b.subs| ensures SubOk(b.log + [item], b.lost, b.subs[i]) {
        PublishKeeps(b.log, item, b.lost, b.subs[i]);
      }
    case Subscribe(after) => assert SubOk(b.log, b.lost, Asking(after, |b.log|));
    case Grant => if b.turns != [] { GrantKeeps(b); }
    case Cancel(k) => if k < |b.turns| { CancelKeeps(b, k); }
    case Advance(i) => if i < |b.subs| { AdvanceKeeps(b.log, b.lost, b.subs[i], b.ring); }
    case _ =>
  }

  lemma InitOk<E>(ring: nat, capacity: nat)
    ensures BusOk(Init<E>(ring, capacity))
  {
  }

  lemma {:induction false} RunKeeps<E>(ring: nat, capacity: nat, steps: seq<BusStep<E>>)
    ensures BusOk(Run(Init(ring, capacity), steps))
    decreases |steps|
  {
    if steps == [] {
      InitOk<E>(ring, capacity);
    } else {
      RunKeeps<E>(ring, capacity, steps[..|steps| - 1]);
      StepKeeps(Run(Init(ring, capacity), steps[..|steps| - 1]), steps[|steps| - 1]);
    }
  }

  // ----- What every run delivers -----

  ghost predicate TrueEntries<E>(log: seq<Item<E>>, s: seq<Entry<E>>) {
    forall e :: e in s ==> 1 <= e.id <= |log| && e.item == log[e.id - 1]
  }

  lemma JoinInOrder<E>(a: seq<Entry<E>>, b: seq<Entry<E>>, mid: nat)
    requires Increasing(a) && Increasing(b)
    requires forall e :: e in a ==> e.id <= mid
    requires forall e :: e in b ==> mid < e.id
    ensures Increasing(a + b)
  {
    forall i, j | 0 <= i < j < |a + b| ensures (a + b)[i].id < (a + b)[j].id {
      if i < |a| <= j { assert a[i] in a && b[j - |a|] in b; }
    }
  }

  /** The replayed stretch ends where the live one starts. */
  lemma ExpectedInOrder<E>(log: seq<Item<E>>, lost: set<nat>, s: Sub<E>)
    requires Bounds(|log|, s) && s.last == LiveFrom(s)
    ensures Increasing(Expected(log, lost, s)) && TrueEntries(log, Expected(log, lost, s))
  {
    PickIds(log, ReplayFrom(s), s.seen, {});
    PickIds(log, Max(s.asked, s.last), s.upto, Missed(lost, s));
    if s.after.Some? && ReplayFrom(s) < s.seen {
      JoinInOrder(Replayed(log, s), Pick(log, Max(s.asked, s.last), s.upto, Missed(lost, s)), s.seen);
    } else {
      assert Replayed(log, s) == [];
    }
  }

  lemma PrefixInOrder<E>(log: seq<Item<E>>, all: seq<Entry<E>>, s: seq<Entry<E>>)
    requires s <= all && Increasing(all) && TrueEntries(log, all)
    ensures Increasing(s) && TrueEntries(log, s)
  {
    forall e | e in s ensures e in all {
      var k :| 0 <= k < |s| && s[k] == e;
      assert all[k] == e;
    }
  }

  lemma SubInOrder<E>(log: seq<Item<E>>, lost: set<nat>, s: Sub<E>)
    requires SubOk(log, lost, s)
    ensures Increasing(s.yielded) && TrueEntries(log, s.yielded)
  {
    match s.phase
    case Joining =>
    case Fresh =>
    case Replay(rest) => PickIds(log, ReplayFrom(s), s.seen - |rest|, {});
    case Live =>
      ExpectedInOrder(log, lost, s);
      PrefixInOrder(log, Expected(log, lost, s), s.yielded);
    case Over =>
      if s.last == LiveFrom(s) {
        ExpectedInOrder(log, lost, s);
        PrefixInOrder(log, Expected(log, lost, s), s.yielded);
      } else {
        PickIds(log, ReplayFrom(s), s.seen, {});
        PrefixInOrder(log, Replayed(log, s), s.yielded);
      }
  }

  /** The ids that were not offered: those whose publisher still waits, and those before whose fan-out the
      subscriber was let go. */
  ghost function NotOffered<E>(ring: nat, capacity: nat, steps: seq<BusStep<E>>, i: nat): set<nat> {
    var b := Run(Init<E>(ring, capacity), steps);
    set id: nat | id <= |b.log| && (Ahead(b, id) || LetGoBefore(Init(ring, capacity), steps, i, id))
  }

  /** A subscriber that is live and has read everything handed to it has yielded exactly the replayed stretch and
      then every id assigned since it asked, to the end of the log, except those its full queue turned away, those
      whose publisher was cancelled while queueing for the lock, and those that were not offered. */
  lemma CaughtUpExactly<E>(ring: nat, capacity: nat, steps: seq<BusStep<E>>, i: nat)
    requires var b := Run(Init<E>(ring, capacity), steps);
             i < |b.subs| && b.subs[i].phase.Live? && Incoming(b.subs[i]) == []
    ensures var b := Run(Init<E>(ring, capacity), steps);
            var s := b.subs[i];
            && s.seen <= |b.log|
            && s.yielded == Pick(b.log, ReplayFrom(s), s.seen, {})
                            + Pick(b.log, Max(s.asked, LiveFrom(s)), |b.log|,
                                   s.dropped + b.lost + NotOffered(ring, capacity, steps, i))
  {
    RunKeeps<E>(ring, capacity, steps);
    var b := Run(Init<E>(ring, capacity), steps);
    var s, out := b.subs[i], NotOffered(ring, capacity, steps, i);
    assert SubOk(b.log, b.lost, s);
    forall id: nat | id <= |b.log| ensures s.upto < id ==> id in b.lost || id in out
                                   ensures id <= s.upto ==> id !in out
    {
      RunAccount<E>(ring, capacity, steps, i, id);
      if Ahead(b, id) { AheadIsAbove(b, i, id); }
    }
    ToTheEnd(b.log, s, Max(s.asked, LiveFrom(s)), b.lost, out);
  }

  lemma ToTheEnd<E>(log: seq<Item<E>>, s: Sub<E>, lo: nat, lost: set<nat>, out: set<nat>)
    requires s.upto <= |log|
    requires forall id: nat :: s.upto < id <= |log| ==> id in lost || id in out
    requires forall id: nat :: id <= s.upto ==> id !in out
    ensures Pick(log, lo, s.upto, Missed(lost, s)) == Pick(log, lo, |log|, Missed(lost, s) + out)
  {
    PickFrame(log, log, lo, s.upto, Missed(lost, s), Missed(lost, s) + out);
    PickGap(log, lo, s.upto, |log|, Missed(lost, s) + out);
  }

  /** Every stream is in log order without repeats, carries the published events, and ends at its first
      closing event. */
  lemma StreamInOrder<E>(ring: nat, capacity: nat, steps: seq<BusStep<E>>, i: nat)
    requires i < |Run(Init<E>(ring, capacity), steps).subs|
    ensures var b := Run(Init<E>(ring, capacity), steps);
            var s := b.subs[i];
            Increasing(s.yielded) && TrueEntries(b.log, s.yielded) && EndsAtFinal(s)
  {
    RunKeeps<E>(ring, capacity, steps);
    var b := Run(Init<E>(ring, capacity), steps);
    SubInOrder(b.log, b.lost, b.subs[i]);
  }

  /** The subscriber has read everything handed to it, or its stream has ended. */
  ghost predicate Settled<E>(s: Sub<E>) {
    s.phase.Over? || (s.phase.Live? && Incoming(s) == [])
  }

  /** The id is not behind the event that closed the stream. */
  ghost predicate BeforeEnd<E>(s: Sub<E>, id: nat) {
    s.phase.Over? && s.yielded != [] ==> id <= s.yielded[|s.yielded| - 1].id
  }

  /** Where a stream starts: the resume point, or the bookmark taken when it registered. */
  ghost function StartsAfter<E>(s: Sub<E>): nat {
    if s.after.Some? then s.after.value else s.bookmark
  }

  /** Does a stream that has read its way past id give it? Through the replay, when the ring buffer still held
      it, whether or not it was fanned out; live, when it was offered, the queue had room and the publisher was
      not cancelled. */
  ghost predicate Reaches<E>(s: Sub<E>, missed: set<nat>, id: nat) {
    || (s.after.Some? && s.evicted < id <= s.seen)
    || (Max(s.asked, LiveFrom(s)) < id <= s.upto && id !in missed)
  }

  lemma ExpectedHas<E>(log: seq<Item<E>>, lost: set<nat>, s: Sub<E>, id: nat)
    requires Bounds(|log|, s) && s.last == LiveFrom(s)
    requires StartsAfter(s) < id <= |log|
    ensures Entry(id, log[id - 1]) in Expected(log, lost, s) <==> Reaches(s, Missed(lost, s), id)
  {
    var e := Entry(id, log[id - 1]);
    PickIds(log, ReplayFrom(s), s.seen, {});
    PickIds(log, Max(s.asked, s.last), s.upto, Missed(lost, s));
    if s.after.Some? && s.evicted < id <= s.seen {
      PickHas(log, ReplayFrom(s), s.seen, {}, id);
    } else if Max(s.asked, s.last) < id <= s.upto && id !in Missed(lost, s) {
      PickHas(log, Max(s.asked, s.last), s.upto, Missed(lost, s), id);
    }
  }

  lemma PrefixHas<E>(all: seq<Entry<E>>, s: seq<Entry<E>>, e: Entry<E>)
    requires Increasing(all) && s <= all && s != [] && e in all && e.id <= s[|s| - 1].id
    ensures e in s
  {
    var k :| 0 <= k < |all| && all[k] == e;
    assert s[|s| - 1] == all[|s| - 1];
    assert k < |s|;
    assert s[k] == e;
  }

  /** A stream that ended during the replay. */
  lemma EndedInReplayHas<E>(log: seq<Item<E>>, s: Sub<E>, id: nat)
    requires s.evicted <= s.seen <= |log| && s.after.Some?
    requires s.yielded <= Replayed(log, s) && s.yielded != []
    requires s.after.value < id <= s.yielded[|s.yielded| - 1].id && s.evicted < id
    ensures id <= |log| && Entry(id, log[id - 1]) in s.yielded
  {
    PickIds(log, ReplayFrom(s), s.seen, {});
    var n := |s.yielded| - 1;
    assert Replayed(log, s)[n] == s.yielded[n];
    assert s.yielded[n] in Replayed(log, s);
    PickHas(log, ReplayFrom(s), s.seen, {}, id);
    PrefixHas(Replayed(log, s), s.yielded, Entry(id, log[id - 1]));
  }

  lemma PrefixIn<T>(all: seq<T>, s: seq<T>, e: T)
    requires s <= all && e in s
    ensures e in all
  {
    var k :| 0 <= k < |s| && s[k] == e;
    assert all[k] == e;
  }

  lemma ReplayedHas<E>(log: seq<Item<E>>, lost: set<nat>, s: Sub<E>, id: nat)
    requires SubOk(log, lost, s) && s.phase.Over? && s.last != LiveFrom(s)
    requires StartsAfter(s) < id <= |log| && BeforeEnd(s, id)
    ensures Entry(id, log[id - 1]) in s.yielded <==> Reaches(s, Missed(lost, s), id)
  {
    PickIds(log, ReplayFrom(s), s.seen, {});
    assert s.yielded[|s.yielded| - 1] == Replayed(log, s)[|s.yielded| - 1];
    assert s.yielded[|s.yielded| - 1] in Replayed(log, s);
    if Entry(id, log[id - 1]) in s.yielded {
      PrefixIn(Replayed(log, s), s.yielded, Entry(id, log[id - 1]));
    } else if s.after.Some? && s.evicted < id {
      EndedInReplayHas(log, s, id);
    }
  }

  lemma SettledHas<E>(log: seq<Item<E>>, lost: set<nat>, s: Sub<E>, id: nat)
    requires SubOk(log, lost, s) && Settled(s)
    requires StartsAfter(s) < id <= |log| && BeforeEnd(s, id)
    ensures Entry(id, log[id - 1]) in s.yielded <==> Reaches(s, Missed(lost, s), id)
  {
    if s.last == LiveFrom(s) {
      ExpectedHas(log, lost, s, id);
      ExpectedInOrder(log, lost, s);
      var e := Entry(id, log[id - 1]);
      if s.phase.Over? {
        if e in s.yielded { PrefixIn(Expected(log, lost, s), s.yielded, e); }
        if e in Expected(log, lost, s) { PrefixHas(Expected(log, lost, s), s.yielded, e); }
      }
    } else {
      ReplayedHas(log, lost, s, id);
    }
  }

  /** Subscriber i has read everything handed to it, or its stream has ended; id lies behind its starting point
      and not behind the event that closed the stream; and its publisher no longer waits for the lock. */
  ghost predicate AnswersFor<E>(b: Bus<E>, i: nat, id: nat) {
    && i < |b.subs| && Settled(b.subs[i])
    && StartsAfter(b.subs[i]) < id && BeforeEnd(b.subs[i], id) && !Ahead(b, id)
  }

  lemma BusDelivers<E>(b: Bus<E>, i: nat, id: nat)
    requires BusOk(b) && AnswersFor(b, i, id)
    ensures id <= |b.log|
    ensures Entry(id, b.log[id - 1]) in b.subs[i].yielded <==> Reaches(b.subs[i], Missed(b.lost, b.subs[i]), id)
  {
    var s := b.subs[i];
    assert SubOk(b.log, b.lost, s);
    SettledHas(b.log, b.lost, s, id);
  }

  /** The same with `upto` replaced by what happened: `cut` says that the subscriber was let go while the id was
      still ahead. */
  ghost predicate Gives<E>(s: Sub<E>, lost: set<nat>, cut: bool, id: nat) {
    || (s.after.Some? && s.evicted < id <= s.seen)
    || (Max(s.asked, LiveFrom(s)) < id && id !in s.dropped && id !in lost && !cut)
  }

  /** What the bus and the account of the lock say together. */
  lemma AccountDelivers<E>(b: Bus<E>, i: nat, id: nat, cut: bool)
    requires BusOk(b) && AnswersFor(b, i, id) && Account(b, i, id, cut)
    ensures id <= |b.log|
    ensures Entry(id, b.log[id - 1]) in b.subs[i].yielded <==> Gives(b.subs[i], b.lost, cut, id)
  {
    BusDelivers(b, i, id);
  }

  /** Exactly which ids a stream gives. In particular a first-time subscriber misses an id behind its bookmark,
      whose publisher has had its turn, if and only if its queue was full, the publisher was cancelled while it
      queued for the lock, or an unsubscription or cleanup was granted the lock before the fan-out. */
  lemma DeliveredExactly<E>(ring: nat, capacity: nat, steps: seq<BusStep<E>>, i: nat, id: nat)
    requires AnswersFor(Run(Init<E>(ring, capacity), steps), i, id)
    ensures var b := Run(Init<E>(ring, capacity), steps);
            var s, cut := b.subs[i], LetGoBefore(Init(ring, capacity), steps, i, id);
            && id <= |b.log|
            && (Entry(id, b.log[id - 1]) in s.yielded <==> Gives(s, b.lost, cut, id))
            && (s.after.None? ==>
                  (Entry(id, b.log[id - 1]) in s.yielded <==> id !in s.dropped && id !in b.lost && !cut))
  {
    RunKeeps<E>(ring, capacity, steps);
    RunAccount<E>(ring, capacity, steps, i, id);
    var b := Run(Init<E>(ring, capacity), steps);
    AccountDelivers(b, i, id, LetGoBefore(Init(ring, capacity), steps, i, id));
    assert SubOk(b.log, b.lost, b.subs[i]);
  }

  /** Nothing else is missed: every id behind a stream's starting point whose publisher has had its turn is
      delivered, up to the event that closes the stream, unless the subscriber's queue was full at that moment,
      the publisher was cancelled before its fan-out, the subscriber was let go before it, or the ring buffer
      had evicted the id before the replay. */
  lemma NothingMissed<E>(ring: nat, capacity: nat, steps: seq<BusStep<E>>, i: nat, id: nat)
    requires AnswersFor(Run(Init<E>(ring, capacity), steps), i, id)
    ensures var b := Run(Init<E>(ring, capacity), steps);
            var s := b.subs[i];
            && id <= |b.log|
            && (|| Entry(id, b.log[id - 1]) in s.yielded || id in s.dropped || id in b.lost
                || LetGoBefore(Init(ring, capacity), steps, i, id) || (s.after.Some? && id <= s.evicted))
  {
    DeliveredExactly<E>(ring, capacity, steps, i, id);
    RunKeeps<E>(ring, capacity, steps);
    var b := Run(Init<E>(ring, capacity), steps);
    assert SubOk(b.log, b.lost, b.subs[i]);
  }

  // ----- Below the resume point -----

  lemma SubStaysAbove<E>(log: seq<Item<E>>, lost: set<nat>, s: Sub<E>)
    requires SubOk(log, lost, s) && s.after.Some? && s.after.value <= s.asked
    ensures forall e :: e in s.yielded ==> s.after.value < e.id
  {
    PickIds(log, ReplayFrom(s), s.seen, {});
    PickIds(log, Max(s.asked, s.last), s.upto, Missed(lost, s));
    forall e | e in s.yielded ensures s.after.value < e.id {
      match s.phase
      case Joining =>
      case Fresh =>
      case Replay(rest) => PickIds(log, ReplayFrom(s), s.seen - |rest|, {});
      case _ => if e !in Replayed(log, s) { PrefixIn(Expected(log, lost, s), s.yielded, e); }
    }
  }

  /** A stream resumed behind an id that had been assigned when `subscribe` was called gives nothing at or
      below it, wherever the stream stands. */
  lemma ResumesBehind<E>(ring: nat, capacity: nat, steps: seq<BusStep<E>>, i: nat)
    requires var b := Run(Init<E>(ring, capacity), steps);
             i < |b.subs| && b.subs[i].after.Some? && b.subs[i].after.value <= b.subs[i].asked
    ensures var s := Run(Init<E>(ring, capacity), steps).subs[i];
            forall e :: e in s.yielded ==> s.after.value < e.id
  {
    RunKeeps<E>(ring, capacity, steps);
    var b := Run(Init<E>(ring, capacity), steps);
    SubStaysAbove(b.log, b.lost, b.subs[i]);
  }
}
