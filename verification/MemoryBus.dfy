/**
 The in-memory event bus for one task: a log of numbered events with cursors. `publish` is split by
 the subscriber lock into assigning an id (and buffering for replay) and a later fan-out. Publishing,
 subscribing, unsubscribing and cleanup queue for the lock in FIFO order, and whoever waits there may be
 cancelled. Each subscriber has a bounded queue, and the reader replays the ring buffer before it goes live.
 */
module MemoryBus {
  import opened Tasks

  /** `final` is true of the events that close a stream. */
  datatype Item<E> = Item(event: E, final: bool)

  datatype Entry<E> = Entry(id: nat, item: Item<E>)

  /** Where a subscriber's generator stands; `Joining` until it has had the lock. */
  datatype Phase<E> = Joining | Fresh | Replay(rest: seq<Entry<E>>) | Live | Over

  /** A subscriber. `asked` is the event counter when `subscribe` was called, `bookmark` the counter when the
      subscription was registered. `handed` is an event given directly to a receiver that was waiting. The last
      five fields record what happened: the id of the last fan-out while it was attached (`upto`), the ids its
      full queue turned away, the ids already evicted and the ids assigned when its replay started, and what it
      yielded. */
  datatype Sub<E> = Sub(
    after: Option<nat>,
    asked: nat,
    bookmark: nat,
    attached: bool,
    phase: Phase<E>,
    last: nat,
    handed: Option<Entry<E>>,
    queue: seq<Entry<E>>,
    receiving: bool,
    upto: nat,
    dropped: set<nat>,
    evicted: nat,
    seen: nat,
    yielded: seq<Entry<E>>)

  /** Who waits for the subscriber lock: a publisher that has assigned an id, a subscriber that registers or
      leaves, a cleanup. */
  datatype Turn<E> = Deliver(entry: Entry<E>) | Register(i: nat) | Leave(i: nat) | Sweep

  /** The abstract bus: everything ever published, the queue on the lock, the ids whose publisher was
      cancelled in that queue, the subscribers. */
  datatype Bus<E> = Bus(ring: nat, capacity: nat, log: seq<Item<E>>, turns: seq<Turn<E>>, lost: set<nat>, subs: seq<Sub<E>>)

  datatype BusStep<E> =
    | Publish(item: Item<E>)
    | Subscribe(after: Option<nat>)
    | Detach(i: nat)
    | Cleanup
    | Grant
    | Cancel(k: nat)
    | Advance(i: nat)

  // ----- Stretches of the log -----

  /** The entries with lo < id <= hi that are not in `dropped`, in id order. */
  function Pick<E>(log: seq<Item<E>>, lo: nat, hi: nat, dropped: set<nat>): seq<Entry<E>>
    requires hi <= |log|
  {
    if hi <= lo then []
    else Pick(log, lo, hi - 1, dropped) + (if hi in dropped then [] else [Entry(hi, log[hi - 1])])
  }

  function Max(a: nat, b: nat): nat { if a < b then b else a }

  function Evicted<E>(log: seq<Item<E>>, ring: nat): nat { if |log| <= ring then 0 else |log| - ring }

  /** What the ring buffer holds. */
  function Window<E>(log: seq<Item<E>>, ring: nat): seq<Entry<E>> {
    Pick(log, Evicted(log, ring), |log|, {})
  }

  // ----- Steps -----

  /** `send_nowait`: hand over to a waiting receiver, else queue, else drop. */
  function Send<E>(s: Sub<E>, e: Entry<E>, capacity: nat): Sub<E> {
    if s.receiving then s.(handed := Some(e), receiving := false, upto := e.id)
    else if |s.queue| < capacity then s.(queue := s.queue + [e], upto := e.id)
    else s.(dropped := s.dropped + {e.id}, upto := e.id)
  }

  /** `subscribe` was called and waits for the lock. */
  function Asking<E>(after: Option<nat>, counter: nat): Sub<E> {
    Sub(after, counter, 0, false, Joining, 0, None, [], false, counter, {}, 0, 0, [])
  }

  /** Registered under the lock; the bookmark is taken right behind it. */
  function Join<E>(s: Sub<E>, counter: nat): Sub<E> {
    s.(attached := true, phase := Fresh, bookmark := counter, last := if s.after.Some? then 0 else counter)
  }

  function Yield<E>(s: Sub<E>, e: Entry<E>, next: Phase<E>): Sub<E> {
    s.(yielded := s.yielded + [e], phase := if e.item.final then Over else next)
  }

  /** One step of the generator: start, replay one buffered event, or take one live event. */
  function AdvanceSub<E>(s: Sub<E>, log: seq<Item<E>>, ring: nat): Sub<E> {
    match s.phase
    case Joining => s
    case Fresh =>
      if s.after.Some? then s.(phase := Replay(Window(log, ring)), evicted := Evicted(log, ring), seen := |log|)
      else s.(phase := Live)
    case Replay(rest) =>
      if rest == [] then s.(phase := Live)
      else if s.after.Some? && rest[0].id > s.after.value then
        Yield(s.(last := rest[0].id), rest[0], Replay(rest[1..]))
      else s.(phase := Replay(rest[1..]))
    case Live =>
      if s.handed.Some? then Take(s.(handed := None), s.handed.value)
      else if s.queue != [] then Take(s.(queue := s.queue[1..]), s.queue[0])
      else s.(receiving := true)
    case Over => s
  }

  /** A live event is skipped when the replay (or the bookmark) covered it. */
  function Take<E>(s: Sub<E>, e: Entry<E>): Sub<E> {
    if e.id <= s.last then s else Yield(s, e, Live)
  }

  /** What is done under the lock. */
  function Admit<E>(b: Bus<E>, t: Turn<E>): Bus<E> {
    match t
    case Deliver(e) =>
      b.(subs := seq(|b.subs|, i requires 0 <= i < |b.subs| =>
                   if b.subs[i].attached then Send(b.subs[i], e, b.capacity) else b.subs[i]))
    case Register(i) => if i < |b.subs| then b.(subs := b.subs[i := Join(b.subs[i], |b.log|)]) else b
    case Leave(i) => if i < |b.subs| then b.(subs := b.subs[i := b.subs[i].(attached := false)]) else b
    case Sweep =>
      b.(subs := seq(|b.subs|, i requires 0 <= i < |b.subs| => b.subs[i].(attached := false)))
  }

  function IdsOf<E>(t: Turn<E>): set<nat> { if t.Deliver? then {t.entry.id} else {} }

  function Step<E>(b: Bus<E>, e: BusStep<E>): Bus<E> {
    match e
    case Publish(item) =>
      b.(log := b.log + [item], turns := b.turns + [Deliver(Entry(|b.log| + 1, item))])
    case Subscribe(after) =>
      b.(subs := b.subs + [Asking(after, |b.log|)], turns := b.turns + [Register(|b.subs|)])
    case Detach(i) =>
      if i < |b.subs| && !b.subs[i].phase.Joining? then b.(turns := b.turns + [Leave(i)]) else b
    case Cleanup => b.(turns := b.turns + [Sweep])
    case Grant => if b.turns == [] then b else Admit(b.(turns := b.turns[1..]), b.turns[0])
    case Cancel(k) =>
      if k < |b.turns|
      then b.(turns := b.turns[..k] + b.turns[k + 1..], lost := b.lost + IdsOf(b.turns[k]))
      else b
    case Advance(i) =>
      if i < |b.subs| then b.(subs := b.subs[i := AdvanceSub(b.subs[i], b.log, b.ring)]) else b
  }

  function Run<E>(b: Bus<E>, steps: seq<BusStep<E>>): Bus<E> {
    if steps == [] then b else Step(Run(b, steps[..|steps| - 1]), steps[|steps| - 1])
  }

  function Init<E>(ring: nat, capacity: nat): Bus<E> { Bus(ring, capacity, [], [], {}, []) }

  // ----- The class: counter, ring buffer, lock queue, subscriber list -----

  class InMemoryEventBus<E> {
    const ring: nat
    const capacity: nat
    var counter: nat
    var buffer: seq<Entry<E>>
    var waiting: seq<Turn<E>>  // queued on the subscriber lock
    var subs: seq<Sub<E>>
    ghost var log: seq<Item<E>>
    ghost var lost: set<nat>

    ghost predicate Valid()
      reads this
    {
      counter == |log| && buffer == Window(log, ring)
    }

    ghost function View(): Bus<E>
      reads this
    {
      Bus(ring, capacity, log, waiting, lost, subs)
    }

    constructor (ring: nat, capacity: nat)
      ensures Valid() && View() == Init(ring, capacity)
    {
      this.ring, this.capacity := ring, capacity;
      counter, buffer, waiting, subs, log, lost := 0, [], [], [], [], {};
    }

    /** The first half of `publish`: assign the next id, append to the bounded buffer, queue for the lock. */
    method Assign(item: Item<E>) returns (id: nat)
      requires Valid()
      modifies this
      ensures Valid() && View() == Step(old(View()), Publish(item))
      ensures id == |old(View()).log| + 1
    {
      counter := counter + 1;
      id := counter;
      WindowSlides(log, item, ring);
      var grown := buffer + [Entry(id, item)];
      buffer := if |grown| > ring then grown[1..] else grown;
      waiting := waiting + [Deliver(Entry(id, item))];
      log := log + [item];
    }

    /** `subscribe`, up to the lock. */
    method Ask(after: Option<nat>) returns (i: nat)
      requires Valid()
      modifies this
      ensures Valid() && View() == Step(old(View()), Subscribe(after)) && i == |old(View()).subs|
    {
      i := |subs|;
      subs := subs + [Asking(after, counter)];
      waiting := waiting + [Register(i)];
    }

    /** The lock goes to the longest-waiting one. */
    method Acquire()
      requires Valid()
      modifies this
      ensures Valid() && View() == Step(old(View()), Grant)
    {
      if waiting == [] { return; }
      var turn := waiting[0];
      waiting := waiting[1..];
      match turn {
        case Deliver(e) => Fan(e);
        case Register(i) =>
          if i < |subs| { subs := subs[i := Join(subs[i], counter)]; }
        case Leave(i) =>
          if i < |subs| { subs := subs[i := subs[i].(attached := false)]; }
        case Sweep => DropAll();
      }
    }

    /** The second half of `publish`: send to every registered subscriber. */
    method Fan(entry: Entry<E>)
      requires Valid()
      modifies this`subs
      ensures Valid() && View() == Admit(old(View()), Deliver(entry))
    {
      var sent: seq<Sub<E>> := [];
      for i := 0 to |subs|
        invariant |sent| == i && subs == old(subs)
        invariant forall j :: 0 <= j < i ==>
                    sent[j] == if subs[j].attached then Send(subs[j], entry, capacity) else subs[j]
      {
        sent := sent + [if subs[i].attached then Send(subs[i], entry, capacity) else subs[i]];
      }
      subs := sent;
    }

    /** `cleanup` forgets all subscribers. */
    method DropAll()
      requires Valid()
      modifies this`subs
      ensures Valid() && View() == Admit(old(View()), Sweep)
    {
      var left: seq<Sub<E>> := [];
      for i := 0 to |subs|
        invariant |left| == i && subs == old(subs)
        invariant forall j :: 0 <= j < i ==> left[j] == subs[j].(attached := false)
      {
        left := left + [subs[i].(attached := false)];
      }
      subs := left;
    }

    /** The k-th waiter is cancelled and leaves the queue. */
    method Abandon(k: nat)
      requires Valid() && k < |waiting|
      modifies this
      ensures Valid() && View() == Step(old(View()), Cancel(k))
    {
      lost := lost + IdsOf(waiting[k]);
      waiting := waiting[..k] + waiting[k + 1..];
    }

    /** The generator of subscriber i makes one step. */
    method Next(i: nat)
      requires Valid() && i < |subs|
      modifies this
      ensures Valid() && View() == Step(old(View()), Advance(i))
    {
      var s := subs[i];
      match s.phase {
        case Joining =>
        case Fresh =>
          if s.after.Some? {
            WindowLength(log, ring);
            s := s.(phase := Replay(buffer), evicted := counter - |buffer|, seen := counter);
          } else {
            s := s.(phase := Live);
          }
        case Replay(rest) =>
          if rest == [] {
            s := s.(phase := Live);
          } else if s.after.Some? && rest[0].id > s.after.value {
            s := Yield(s.(last := rest[0].id), rest[0], Replay(rest[1..]));
          } else {
            s := s.(phase := Replay(rest[1..]));
          }
        case Live =>
          if s.handed.Some? {
            s := Take(s.(handed := None), s.handed.value);
          } else if s.queue != [] {
            s := Take(s.(queue := s.queue[1..]), s.queue[0]);
          } else {
            s := s.(receiving := true);
          }
        case Over =>
      }
      subs := subs[i := s];
    }
  }

  // ----- Facts about stretches of the log -----

  lemma {:induction false} PickLength<E>(log: seq<Item<E>>, lo: nat, hi: nat)
    requires hi <= |log|
    ensures |Pick(log, lo, hi, {})| == if hi <= lo then 0 else hi - lo
    decreases hi
  {
    if lo < hi { PickLength(log, lo, hi - 1); }
  }

  lemma WindowLength<E>(log: seq<Item<E>>, ring: nat)
    ensures |Window(log, ring)| == |log| - Evicted(log, ring)
  {
    PickLength(log, Evicted(log, ring), |log|);
  }

  /** Appending to the log, or to ids above hi in `dropped`, does not change a stretch. */
  lemma {:induction false} PickFrame<E>(log: seq<Item<E>>, log': seq<Item<E>>, lo: nat, hi: nat, d: set<nat>, d': set<nat>)
    requires log <= log' && hi <= |log|
    requires forall k :: k <= hi ==> (k in d <==> k in d')
    ensures Pick(log, lo, hi, d) == Pick(log', lo, hi, d')
    decreases hi
  {
    if lo < hi { PickFrame(log, log', lo, hi - 1, d, d'); }
  }

  /** Ids that are all left out add nothing. */
  lemma {:induction false} PickGap<E>(log: seq<Item<E>>, lo: nat, mid: nat, hi: nat, d: set<nat>)
    requires mid <= hi <= |log|
    requires forall k :: mid < k <= hi ==> k in d
    ensures Pick(log, lo, hi, d) == Pick(log, lo, mid, d)
    decreases hi
  {
    if mid < hi { PickGap(log, lo, mid, hi - 1, d); }
  }

  lemma {:induction false} PickSplit<E>(log: seq<Item<E>>, lo: nat, mid: nat, hi: nat, d: set<nat>)
    requires lo <= mid <= hi <= |log|
    ensures Pick(log, lo, hi, d) == Pick(log, lo, mid, d) + Pick(log, mid, hi, d)
    decreases hi
  {
    if mid < hi { PickSplit(log, lo, mid, hi - 1, d); }
  }

  lemma WindowSlides<E>(log: seq<Item<E>>, item: Item<E>, ring: nat)
    ensures var grown := Window(log, ring) + [Entry(|log| + 1, item)];
            Window(log + [item], ring) == if |grown| > ring then grown[1..] else grown
  {
    var all, ev := log + [item], Evicted(log, ring);
    WindowLength(log, ring);
    WindowLength(all, ring);
    PickFrame(log, all, ev, |log|, {}, {});
    assert Pick(all, ev, |all|, {}) == Window(log, ring) + [Entry(|log| + 1, item)];
    if |log| >= ring {
      PickSplit(all, ev, ev + 1, |all|, {});
      PickLength(all, ev, ev + 1);
    }
  }

  /** A stretch holds only its ids, each with its event. */
  lemma {:induction false} PickBounds<E>(log: seq<Item<E>>, lo: nat, hi: nat, d: set<nat>, e: Entry<E>)
    requires hi <= |log| && e in Pick(log, lo, hi, d)
    ensures lo < e.id <= hi && e.id !in d && e.item == log[e.id - 1]
    decreases hi
  {
    if e in Pick(log, lo, hi - 1, d) { PickBounds(log, lo, hi - 1, d, e); }
  }

  lemma {:induction false} PickIncreasing<E>(log: seq<Item<E>>, lo: nat, hi: nat, d: set<nat>)
    requires hi <= |log|
    ensures Increasing(Pick(log, lo, hi, d))
    decreases hi
  {
    if lo < hi {
      PickIncreasing(log, lo, hi - 1, d);
      if hi !in d {
        forall f | f in Pick(log, lo, hi - 1, d) ensures f.id < hi { PickBounds(log, lo, hi - 1, d, f); }
        SnocIncreasing(Pick(log, lo, hi - 1, d), Entry(hi, log[hi - 1]));
      }
    }
  }

  /** A stretch is strictly increasing and holds only its ids, each with its event. */
  lemma PickIds<E>(log: seq<Item<E>>, lo: nat, hi: nat, d: set<nat>)
    requires hi <= |log|
    ensures Increasing(Pick(log, lo, hi, d))
    ensures forall e :: e in Pick(log, lo, hi, d) ==> lo < e.id <= hi && e.id !in d && e.item == log[e.id - 1]
  {
    PickIncreasing(log, lo, hi, d);
    forall e | e in Pick(log, lo, hi, d) ensures lo < e.id <= hi && e.id !in d && e.item == log[e.id - 1] {
      PickBounds(log, lo, hi, d, e);
    }
  }

  lemma SnocIncreasing<E>(s: seq<Entry<E>>, e: Entry<E>)
    requires Increasing(s) && forall f :: f in s ==> f.id < e.id
    ensures Increasing(s + [e])
  {
    forall i | 0 <= i < |s| ensures s[i].id < e.id { assert s[i] in s; }
  }

  lemma {:induction false} PickHas<E>(log: seq<Item<E>>, lo: nat, hi: nat, d: set<nat>, id: nat)
    requires lo < id <= hi <= |log| && id !in d
    ensures Entry(id, log[id - 1]) in Pick(log, lo, hi, d)
    decreases hi
  {
    if id < hi { PickHas(log, lo, hi - 1, d, id); }
  }

  ghost predicate Increasing<E>(s: seq<Entry<E>>) {
    forall i, j :: 0 <= i < j < |s| ==> s[i].id < s[j].id
  }

  /** The entries a reader with this `last` will not skip. */
  ghost function Above<E>(s: seq<Entry<E>>, last: nat): seq<Entry<E>> {
    if s == [] then []
    else Above(s[..|s| - 1], last) + (if s[|s| - 1].id > last then [s[|s| - 1]] else [])
  }

  lemma AboveSnoc<E>(s: seq<Entry<E>>, e: Entry<E>, last: nat)
    ensures Above(s + [e], last) == Above(s, last) + (if e.id > last then [e] else [])
  {
    assert (s + [e])[..|s|] == s;
  }

  lemma {:induction false} AboveHead<E>(e: Entry<E>, s: seq<Entry<E>>, last: nat)
    ensures Above([e] + s, last) == (if e.id > last then [e] else []) + Above(s, last)
    decreases |s|
  {
    if s == [] {
      assert [e] + s == [] + [e];
      AboveSnoc([], e, last);
    } else {
      var n := |s| - 1;
      assert [e] + s == ([e] + s[..n]) + [s[n]];
      AboveSnoc([e] + s[..n], s[n], last);
      AboveHead(e, s[..n], last);
    }
  }

  lemma {:induction false} AbovePick<E>(log: seq<Item<E>>, lo: nat, hi: nat, d: set<nat>, last: nat)
    requires hi <= |log|
    ensures Above(Pick(log, lo, hi, d), last) == Pick(log, Max(lo, last), hi, d)
    decreases hi
  {
    if lo < hi {
      AbovePick(log, lo, hi - 1, d, last);
      assert Pick(log, lo, hi - 1, d) + [] == Pick(log, lo, hi - 1, d);
      if hi !in d { AboveSnoc(Pick(log, lo, hi - 1, d), Entry(hi, log[hi - 1]), last); }
    }
  }
}
