/**
 Webhook delivery: one bounded drop-oldest queue and one sequential worker per (task, config), a worker
 that exits when idle or drained after a terminal snapshot, its replacement at the next delivery, the
 done callback of the replaced worker, and shutdown by sentinel.
 */
module Webhooks {
  import opened Tasks

  /** A queued task snapshot with its position in the order of delivery, or the shutdown sentinel. */
  datatype Item = Snapshot(n: nat, task: Task) | Sentinel

  datatype WorkerPc = Waiting | Sending(item: Item) | Exited

  /** The state behind one key. `worker` is the registered worker and `pc` where it stands, `callbacks` are
      the finished workers whose done callback has not run. The last four fields record the snapshots handed
      to the lane, those a delivery was attempted for, the positions dropped from a full queue, and whether
      a shutdown has begun. */
  datatype Lane = Lane(
    max: nat,
    worker: Option<nat>,
    pc: WorkerPc,
    queue: seq<Item>,
    callbacks: set<nat>,
    nextWorker: nat,
    enqueued: seq<Task>,
    attempted: seq<Item>,
    dropped: set<nat>,
    stopping: bool)

  datatype LaneStep =
    | Deliver(task: Task)
    | Take
    | IdleTimeout
    | SendDone
    | Callback(id: nat)
    | Shutdown
    | ForceCancel

  // ----- Enqueueing -----

  /** A queue of maximal size 0 is unbounded. */
  predicate Full(queue: seq<Item>, max: nat) { max > 0 && |queue| >= max }

  /** How many of the oldest items give way to one more. */
  function Overflow(queue: seq<Item>, max: nat): nat { if Full(queue, max) then |queue| - max + 1 else 0 }

  function Positions(items: seq<Item>): set<nat> { set i | i in items && i.Snapshot? :: i.n }

  function Push(l: Lane, item: Item): Lane {
    var k := Overflow(l.queue, l.max);
    l.(queue := l.queue[k..] + [item], dropped := l.dropped + Positions(l.queue[..k]))
  }

  /** The newest items stay, as many as fit beside the new one, which is last; the others are recorded as dropped. */
  lemma PushKeepsNewest(l: Lane, item: Item)
    ensures var r := Push(l, item);
            var kept := |r.queue| - 1;
            && kept == (if l.max == 0 || |l.queue| < l.max then |l.queue| else l.max - 1)
            && r.queue == l.queue[|l.queue| - kept..] + [item]
            && r == l.(queue := r.queue, dropped := l.dropped + Positions(l.queue[..|l.queue| - kept]))
  {
  }

  /** A missing or finished worker is replaced, with a fresh queue. */
  function Revive(l: Lane): Lane {
    if l.worker.None? || l.pc.Exited?
    then l.(worker := Some(l.nextWorker), nextWorker := l.nextWorker + 1, pc := Waiting, queue := [])
    else l
  }

  function DeliverTo(l: Lane, task: Task): Lane {
    Push(Revive(l), Snapshot(|l.enqueued|, task)).(enqueued := l.enqueued + [task])
  }

  // ----- The worker -----

  function Exit(l: Lane): Lane {
    l.(pc := Exited, callbacks := l.callbacks + (if l.worker.Some? then {l.worker.value} else {}))
  }

  function Step(l: Lane, e: LaneStep): Lane {
    match e
    case Deliver(task) => DeliverTo(l, task)
    case Take =>
      if l.worker.None? || !l.pc.Waiting? || l.queue == [] then l
      else if l.queue[0].Sentinel? then Exit(l.(queue := l.queue[1..]))
      else l.(queue := l.queue[1..], pc := Sending(l.queue[0]), attempted := l.attempted + [l.queue[0]])
    case IdleTimeout =>
      if l.worker.Some? && l.pc.Waiting? && l.queue == [] then Exit(l) else l
    case SendDone =>
      if l.worker.None? || !l.pc.Sending? then l
      else if l.queue == [] && l.pc.item.Snapshot? && Terminal(l.pc.item.task.status.state) then Exit(l)
      else l.(pc := Waiting)
    case Callback(id) =>
      if id !in l.callbacks then l
      else if l.worker == Some(id) then l.(callbacks := l.callbacks - {id}, worker := None, queue := [])
      else l.(callbacks := l.callbacks - {id})
    case Shutdown =>
      if l.worker.Some? then Push(l, Sentinel).(stopping := true) else l.(stopping := true)
    case ForceCancel =>
      if l.stopping && l.worker.Some? && !l.pc.Exited? then Exit(l) else l
  }

  function Run(l: Lane, steps: seq<LaneStep>): Lane {
    if steps == [] then l else Step(Run(l, steps[..|steps| - 1]), steps[|steps| - 1])
  }

  function NewLane(max: nat): Lane { Lane(max, None, Exited, [], {}, 0, [], [], {}, false) }

  // ----- The service -----

  type Key = (string, string)

  function LaneAt(lanes: map<Key, Lane>, key: Key, max: nat): Lane {
    if key in lanes then lanes[key] else NewLane(max)
  }

  function KeyOf(task: Task, config: string): Key { (task.id, if config == "" then "default" else config) }

  /** Lanes are shared by the same config of the same task only, a config without an id being the one called default. */
  lemma KeysExactly(s: Task, c: string, t: Task, d: string)
    ensures KeyOf(s, c) == KeyOf(t, d) <==> s.id == t.id && (c == d || (c in {"", "default"} && d in {"", "default"}))
  {
  }

  /** A snapshot handed to each config in turn. */
  function FanOut(lanes: map<Key, Lane>, configs: seq<string>, task: Task, max: nat): map<Key, Lane> {
    if configs == [] then lanes
    else
      var before := FanOut(lanes, configs[..|configs| - 1], task, max);
      var key := KeyOf(task, configs[|configs| - 1]);
      before[key := DeliverTo(LaneAt(before, key, max), task)]
  }

  // ----- What a fan-out does to a lane -----

  /** How many of the configs lead to this key. */
  function Hits(task: Task, configs: seq<string>, key: Key): nat {
    if configs == [] then 0
    else Hits(task, configs[..|configs| - 1], key) + (if KeyOf(task, configs[|configs| - 1]) == key then 1 else 0)
  }

  function Deliveries(task: Task, n: nat): (r: seq<LaneStep>)
    ensures |r| == n
  {
    if n == 0 then [] else Deliveries(task, n - 1) + [Deliver(task)]
  }

  lemma RunSnoc(l: Lane, steps: seq<LaneStep>, e: LaneStep)
    ensures Run(l, steps + [e]) == Step(Run(l, steps), e)
  {
    assert (steps + [e])[..|steps|] == steps;
  }

  /** Handing the snapshot to one config. */
  lemma OneConfig(lanes: map<Key, Lane>, at: Key, task: Task, max: nat, key: Key)
    ensures var r := lanes[at := DeliverTo(LaneAt(lanes, at, max), task)];
            && LaneAt(r, key, max) == (if at == key then Step(LaneAt(lanes, key, max), Deliver(task)) else LaneAt(lanes, key, max))
            && (key in r <==> key in lanes || at == key)
  {
  }

  lemma DeliveriesNext(l: Lane, task: Task, n: nat)
    ensures Run(l, Deliveries(task, n + 1)) == Step(Run(l, Deliveries(task, n)), Deliver(task))
  {
    RunSnoc(l, Deliveries(task, n), Deliver(task));
  }

  /** A lane after a fan-out is the lane before it after one delivery per config that leads to it. */
  lemma {:induction false} FanOutLane(lanes: map<Key, Lane>, configs: seq<string>, task: Task, max: nat, key: Key)
    ensures var r, n := FanOut(lanes, configs, task, max), Hits(task, configs, key);
            && LaneAt(r, key, max) == Run(LaneAt(lanes, key, max), Deliveries(task, n))
            && (key in r <==> key in lanes || n > 0)
    decreases |configs|
  {
    if configs != [] {
      var m := |configs| - 1;
      FanOutLane(lanes, configs[..m], task, max, key);
      OneConfig(FanOut(lanes, configs[..m], task, max), KeyOf(task, configs[m]), task, max, key);
      DeliveriesNext(LaneAt(lanes, key, max), task, Hits(task, configs[..m], key));
    }
  }

  /** The lane is a run of a new one, so AttemptsInOrder and NothingLost speak about it. */
  ghost predicate Reached(max: nat, l: Lane) {
    exists steps :: Run(NewLane(max), steps) == l
  }

  lemma StepReaches(max: nat, l: Lane, e: LaneStep)
    requires Reached(max, l)
    ensures Reached(max, Step(l, e))
  {
    var steps :| Run(NewLane(max), steps) == l;
    RunSnoc(NewLane(max), steps, e);
  }

  lemma {:induction false} DeliveriesReach(max: nat, l: Lane, task: Task, n: nat)
    requires Reached(max, l)
    ensures Reached(max, Run(l, Deliveries(task, n)))
  {
    if n > 0 {
      DeliveriesReach(max, l, task, n - 1);
      RunSnoc(l, Deliveries(task, n - 1), Deliver(task));
      StepReaches(max, Run(l, Deliveries(task, n - 1)), Deliver(task));
    }
  }

  lemma LaneReached(lanes: map<Key, Lane>, key: Key, max: nat)
    requires key in lanes ==> Reached(max, lanes[key])
    ensures Reached(max, LaneAt(lanes, key, max))
  {
    if key !in lanes { assert Run(NewLane(max), []) == NewLane(max); }
  }

  lemma FanOutReaches(lanes: map<Key, Lane>, configs: seq<string>, task: Task, max: nat, key: Key)
    requires key in lanes ==> Reached(max, lanes[key])
    ensures var r := FanOut(lanes, configs, task, max); key in r ==> Reached(max, r[key])
  {
    FanOutLane(lanes, configs, task, max, key);
    LaneReached(lanes, key, max);
    DeliveriesReach(max, LaneAt(lanes, key, max), task, Hits(task, configs, key));
  }

  class WebhookDeliveryService {
    const max: nat
    var lanes: map<Key, Lane>

    /** Every lane of the service is a run of a new one. */
    ghost predicate Valid()
      reads this
    {
      forall key :: key in lanes ==> Reached(max, lanes[key])
    }

    constructor (max: nat)
      ensures Valid() && this.max == max && lanes == map[]
    {
      this.max, lanes := max, map[];
    }

    /** Put the item; while the queue is full, drop the oldest and try again. */
    static method Enqueue(l: Lane, item: Item) returns (r: Lane)
      ensures r == Push(l, item)
    {
      r := l;
      ghost var k := 0;
      while Full(r.queue, r.max)
        invariant 0 <= k <= Overflow(l.queue, l.max)
        invariant r == l.(queue := l.queue[k..], dropped := l.dropped + Positions(l.queue[..k]))
        decreases |r.queue|
      {
        var oldest := r.queue[0];
        assert l.queue[..k + 1] == l.queue[..k] + [oldest];
        assert Positions(l.queue[..k + 1]) == Positions(l.queue[..k]) + Positions([oldest]);
        r := r.(queue := r.queue[1..], dropped := r.dropped + Positions([oldest]));
        k := k + 1;
      }
      r := r.(queue := r.queue + [item]);
    }

    /** Fan a snapshot out to every config of its task: each lane gets it once per config that leads there. */
    method DeliverAll(configs: seq<string>, task: Task)
      requires Valid()
      modifies this
      ensures Valid()
      ensures forall key ::
                && LaneAt(lanes, key, max) == Run(LaneAt(old(lanes), key, max), Deliveries(task, Hits(task, configs, key)))
                && (key in lanes <==> key in old(lanes) || Hits(task, configs, key) > 0)
    {
      for n := 0 to |configs|
        invariant lanes == FanOut(old(lanes), configs[..n], task, max)
      {
        assert configs[..n + 1][..n] == configs[..n];
        var key := KeyOf(task, configs[n]);
        var l := LaneAt(lanes, key, max);
        var position := |l.enqueued|;
        l := Enqueue(Revive(l), Snapshot(position, task));
        lanes := lanes[key := l.(enqueued := l.enqueued + [task])];
      }
      assert configs[..|configs|] == configs;
      forall key
        ensures LaneAt(lanes, key, max) == Run(LaneAt(old(lanes), key, max), Deliveries(task, Hits(task, configs, key)))
        ensures key in lanes <==> key in old(lanes) || Hits(task, configs, key) > 0
        ensures key in lanes ==> Reached(max, lanes[key])
      {
        FanOutLane(old(lanes), configs, task, max, key);
        FanOutReaches(old(lanes), configs, task, max, key);
      }
    }

    /** The worker of a key, its done callback or a shutdown makes a step. */
    method Move(key: Key, e: LaneStep)
      requires Valid() && key in lanes
      modifies this
      ensures Valid() && lanes == old(lanes)[key := Step(old(lanes)[key], e)]
    {
      StepReaches(max, lanes[key], e);
      lanes := lanes[key := Step(lanes[key], e)];
    }
  }

  // ----- What every step keeps -----

  /** The item is the snapshot handed over at its position. */
  ghost predicate Real(enqueued: seq<Task>, i: Item) {
    i.Snapshot? ==> i.n < |enqueued| && i.task == enqueued[i.n]
  }

  /** Snapshots stand in the order in which they were handed over. */
  ghost predicate InOrder(items: seq<Item>) {
    forall i, j :: 0 <= i < j < |items| && items[i].Snapshot? && items[j].Snapshot? ==> items[i].n < items[j].n
  }

  ghost predicate OrderOk(l: Lane) {
    && (forall i :: 0 <= i < |l.queue| ==> Real(l.enqueued, l.queue[i]))
    && (forall i :: 0 <= i < |l.attempted| ==> l.attempted[i].Snapshot? && Real(l.enqueued, l.attempted[i]))
    && InOrder(l.attempted + l.queue)
    && (l.max > 0 ==> |l.queue| <= l.max)
  }

  /** Outside shutdown: the queue is exactly the newest snapshots, a worker that is gone left nothing, and
      what is neither attempted nor queued was dropped. */
  ghost predicate RunningOk(l: Lane) {
    && |l.queue| <= |l.enqueued|
    && (forall i :: 0 <= i < |l.queue| ==> l.queue[i].Snapshot? && l.queue[i].n == |l.enqueued| - |l.queue| + i)
    && (l.worker.None? || l.pc.Exited? ==> l.queue == [])
    && (l.enqueued != [] ==> |l.enqueued| - 1 !in l.dropped)
    && (forall n :: 0 <= n < |l.enqueued| ==>
          n in Positions(l.attempted) || n in l.dropped || n >= |l.enqueued| - |l.queue|)
    && (forall n :: n in l.dropped ==> n !in Positions(l.attempted) && n < |l.enqueued| - |l.queue|)
  }

  ghost predicate WorkersOk(l: Lane) {
    && (l.worker.Some? ==> l.worker.value < l.nextWorker)
    && (forall id :: id in l.callbacks ==> id < l.nextWorker)
    && (l.worker.Some? && !l.pc.Exited? ==> l.worker.value !in l.callbacks)
  }

  ghost predicate Inv(l: Lane) {
    OrderOk(l) && WorkersOk(l) && (!l.stopping ==> RunningOk(l))
  }

  lemma PositionsConcat(a: seq<Item>, b: seq<Item>)
    ensures Positions(a + b) == Positions(a) + Positions(b)
  {
  }

  lemma DropOldestInOrder(a: seq<Item>, q: seq<Item>, k: nat)
    requires InOrder(a + q) && k <= |q|
    ensures InOrder(a + q[k..])
  {
    var before, after := a + q, a + q[k..];
    assert forall i :: 0 <= i < |after| ==> after[i] == before[if i < |a| then i else i + k];
  }

  lemma AppendInOrder(s: seq<Item>, item: Item)
    requires InOrder(s)
    requires item.Snapshot? ==> forall i :: 0 <= i < |s| && s[i].Snapshot? ==> s[i].n < item.n
    ensures InOrder(s + [item])
  {
  }

  lemma ReviveKeeps(l: Lane)
    requires Inv(l)
    ensures Inv(Revive(l))
  {
    DropOldestInOrder(l.attempted, l.queue, |l.queue|);
    assert l.queue[|l.queue|..] == [];
  }

  /** Dropping the oldest and appending the newest keeps the order. */
  lemma PushKeepsOrder(l: Lane, item: Item, enqueued: seq<Task>)
    requires OrderOk(l) && Real(enqueued, item) && l.enqueued <= enqueued
    requires item.Snapshot? ==> item.n >= |l.enqueued|
    ensures OrderOk(Push(l, item).(enqueued := enqueued))
  {
    var k := Overflow(l.queue, l.max);
    var kept := l.attempted + l.queue[k..];
    DropOldestInOrder(l.attempted, l.queue, k);
    forall i | 0 <= i < |kept| && kept[i].Snapshot? ensures kept[i].n < |l.enqueued| {
      if i < |l.attempted| { assert Real(l.enqueued, l.attempted[i]); } else { assert Real(l.enqueued, l.queue[i - |l.attempted| + k]); }
    }
    AppendInOrder(kept, item);
    assert l.attempted + (l.queue[k..] + [item]) == kept + [item];
  }

  lemma DeliverKeepsRunning(l: Lane, task: Task)
    requires RunningOk(l) && OrderOk(l) && l.worker.Some? && !l.pc.Exited?
    ensures RunningOk(Push(l, Snapshot(|l.enqueued|, task)).(enqueued := l.enqueued + [task]))
  {
    var r := Push(l, Snapshot(|l.enqueued|, task)).(enqueued := l.enqueued + [task]);
    var k := Overflow(l.queue, l.max);
    var gone := l.queue[..k];
    forall n ensures n in Positions(gone) <==> |l.enqueued| - |l.queue| <= n < |l.enqueued| - |l.queue| + k {
      if |l.enqueued| - |l.queue| <= n < |l.enqueued| - |l.queue| + k {
        var i := n - (|l.enqueued| - |l.queue|);
        assert gone[i] in gone && gone[i].n == n;
      }
    }
    forall n | n in Positions(gone) ensures n !in Positions(l.attempted) {
      if n in Positions(l.attempted) { AttemptedBeforeQueued(l, n); }
    }
  }

  /** What was attempted is older than everything queued. */
  lemma AttemptedBeforeQueued(l: Lane, n: nat)
    requires RunningOk(l) && OrderOk(l) && n in Positions(l.attempted)
    ensures n < |l.enqueued| - |l.queue| || l.queue == []
  {
    var item :| item in l.attempted && item.Snapshot? && item.n == n;
    var i :| 0 <= i < |l.attempted| && l.attempted[i] == item;
    if l.queue != [] {
      var all := l.attempted + l.queue;
      assert all[i] == item && all[|l.attempted|] == l.queue[0];
    }
  }

  lemma TakeKeeps(l: Lane)
    requires Inv(l)
    ensures Inv(Step(l, Take))
  {
    if l.worker.Some? && l.pc.Waiting? && l.queue != [] {
      var r := Step(l, Take);
      var head := l.queue[0];
      assert l.queue == [head] + l.queue[1..];
      if head.Snapshot? {
        assert r.attempted + r.queue == l.attempted + l.queue;
        PositionsConcat(l.attempted, [head]);
        assert Positions([head]) == {head.n} by { assert head in [head]; }
      } else {
        DropOldestInOrder(l.attempted, l.queue, 1);
      }
    }
  }

  lemma CallbackKeeps(l: Lane, id: nat)
    requires Inv(l)
    ensures Inv(Step(l, Callback(id)))
  {
    DropOldestInOrder(l.attempted, l.queue, |l.queue|);
    assert l.queue[|l.queue|..] == [];
  }

  lemma StepKeeps(l: Lane, e: LaneStep)
    requires Inv(l)
    ensures Inv(Step(l, e))
  {
    match e
    case Deliver(task) =>
      ReviveKeeps(l);
      PushKeepsOrder(Revive(l), Snapshot(|l.enqueued|, task), l.enqueued + [task]);
      if !l.stopping { DeliverKeepsRunning(Revive(l), task); }
    case Take => TakeKeeps(l);
    case Callback(id) => CallbackKeeps(l, id);
    case Shutdown => PushKeepsOrder(l, Sentinel, l.enqueued);
    case _ =>
  }

  lemma {:induction false} RunKeeps(max: nat, steps: seq<LaneStep>)
    ensures Inv(Run(NewLane(max), steps)) && Run(NewLane(max), steps).max == max
  {
    if steps != [] {
      RunKeeps(max, steps[..|steps| - 1]);
      StepKeeps(Run(NewLane(max), steps[..|steps| - 1]), steps[|steps| - 1]);
    }
  }

  // ----- Every run -----

  /** Across drops, worker restarts and shutdown, attempts are snapshots in the order they were handed over,
      none twice, and the queue keeps its bound. */
  lemma AttemptsInOrder(max: nat, steps: seq<LaneStep>)
    ensures var l := Run(NewLane(max), steps);
            && (forall i :: 0 <= i < |l.attempted| ==>
                  l.attempted[i].Snapshot? && l.attempted[i].n < |l.enqueued| && l.attempted[i].task == l.enqueued[l.attempted[i].n])
            && (forall i, j :: 0 <= i < j < |l.attempted| ==> l.attempted[i].n < l.attempted[j].n)
            && (max > 0 ==> |l.queue| <= max)
  {
    RunKeeps(max, steps);
    var l := Run(NewLane(max), steps);
    var all := l.attempted + l.queue;
    assert forall i :: 0 <= i < |l.attempted| ==> all[i] == l.attempted[i] && Real(l.enqueued, l.attempted[i]);
  }

  /** Until a shutdown begins: every snapshot is attempted, queued, or was dropped from a full queue, exactly
      one of the three; the newest is never the one dropped; a finished worker leaves an empty queue, so that
      replacing it loses nothing. */
  lemma NothingLost(max: nat, steps: seq<LaneStep>)
    requires !Run(NewLane(max), steps).stopping
    ensures var l := Run(NewLane(max), steps);
            && (forall n :: 0 <= n < |l.enqueued| ==>
                  (n in Positions(l.attempted) || n in Positions(l.queue)) != (n in l.dropped))
            && (forall n :: n in Positions(l.attempted) ==> n !in Positions(l.queue))
            && (l.enqueued != [] ==> |l.enqueued| - 1 !in l.dropped)
            && (l.worker.None? || l.pc.Exited? ==> l.queue == [])
  {
    RunKeeps(max, steps);
    var l := Run(NewLane(max), steps);
    QueuedPositions(l);
    forall n | n in Positions(l.attempted) ensures n !in Positions(l.queue) { AttemptedBeforeQueued(l, n); }
  }

  lemma QueuedPositions(l: Lane)
    requires RunningOk(l)
    ensures forall n :: n in Positions(l.queue) <==> |l.enqueued| - |l.queue| <= n < |l.enqueued|
  {
    forall n | |l.enqueued| - |l.queue| <= n < |l.enqueued| ensures n in Positions(l.queue) {
      var i := n - (|l.enqueued| - |l.queue|);
      assert l.queue[i] in l.queue && l.queue[i].n == n;
    }
  }

  // ----- The worker goes on -----

  /** The worker finishes what it sends and takes the next item, n times. */
  function Rounds(n: nat): (r: seq<LaneStep>)
    ensures |r| == 2 * n
  {
    if n == 0 then [] else Rounds(n - 1) + [SendDone, Take]
  }

  lemma RoundsNext(l: Lane, n: nat)
    ensures Run(l, Rounds(n + 1)) == Step(Step(Run(l, Rounds(n)), SendDone), Take)
  {
    assert Rounds(n + 1) == Rounds(n) + [SendDone] + [Take];
    RunSnoc(l, Rounds(n), SendDone);
    RunSnoc(l, Rounds(n) + [SendDone], Take);
  }

  ghost predicate Working(l: Lane) { l.worker.Some? && !l.pc.Exited? }

  lemma RoundTakes(l: Lane)
    requires Working(l) && l.queue != [] && l.queue[0].Snapshot?
    ensures Step(Step(l, SendDone), Take) ==
            l.(pc := Sending(l.queue[0]), queue := l.queue[1..], attempted := l.attempted + [l.queue[0]])
  {
  }

  /** The lane once n items have been taken. */
  ghost function Taken(l: Lane, n: nat): Lane
    requires n <= |l.queue|
  {
    l.(pc := if n == 0 then l.pc else Sending(l.queue[n - 1]), queue := l.queue[n..], attempted := l.attempted + l.queue[..n])
  }

  lemma TakenNext(l: Lane, n: nat)
    requires Working(l) && n < |l.queue| && l.queue[n].Snapshot?
    ensures Step(Step(Taken(l, n), SendDone), Take) == Taken(l, n + 1)
  {
    RoundTakes(Taken(l, n));
    assert l.queue[n..][0] == l.queue[n] && l.queue[n..][1..] == l.queue[n + 1..];
    assert l.attempted + l.queue[..n] + [l.queue[n]] == l.attempted + l.queue[..n + 1];
  }

  /** So it attempts the snapshots at the head of its queue, one by one. */
  lemma {:induction false} Drains(l: Lane, n: nat)
    requires Working(l) && n <= |l.queue| && forall i :: 0 <= i < n ==> l.queue[i].Snapshot?
    ensures Run(l, Rounds(n)) == Taken(l, n)
    decreases n
  {
    if n == 0 {
      assert l.queue[0..] == l.queue && l.attempted + l.queue[..0] == l.attempted;
    } else {
      Drains(l, n - 1);
      RoundsNext(l, n - 1);
      TakenNext(l, n - 1);
    }
  }

  /** Whatever has happened before a shutdown, a snapshot handed over next is attempted once the worker has gone
      through its queue, as the last of all, and everything still queued before it was attempted as well. */
  lemma NewestArrives(max: nat, steps: seq<LaneStep>, task: Task)
    requires !Run(NewLane(max), steps).stopping
    ensures var l := Run(NewLane(max), steps);
            var queued := Step(l, Deliver(task));
            var r := Run(queued, Rounds(|queued.queue|));
            && r.enqueued == l.enqueued + [task] && r.queue == []
            && r.attempted != [] && r.attempted[|r.attempted| - 1] == Snapshot(|l.enqueued|, task)
            && (forall n :: 0 <= n < |r.enqueued| ==> (n in Positions(r.attempted)) != (n in r.dropped))
  {
    RunKeeps(max, steps);
    var l := Run(NewLane(max), steps);
    var queued := Step(l, Deliver(task));
    StepKeeps(l, Deliver(task));
    Drains(queued, |queued.queue|);
    assert queued.queue[..|queued.queue|] == queued.queue;
    PositionsConcat(queued.attempted, queued.queue);
    RunSnoc(NewLane(max), steps, Deliver(task));
    NothingLost(max, steps + [Deliver(task)]);
  }

  /** With nothing left to send, a worker that has just sent a terminal snapshot or waits in vain is gone, and after its
      callback so is its registration: lanes of finished tasks do not pile up. */
  lemma Retires(max: nat, steps: seq<LaneStep>)
    requires var l := Run(NewLane(max), steps);
             && !l.stopping && Working(l) && l.queue == []
             && (l.pc.Sending? ==> l.pc.item.Snapshot? && Terminal(l.pc.item.task.status.state))
    ensures var l := Run(NewLane(max), steps);
            var r := Step(Step(l, if l.pc.Waiting? then IdleTimeout else SendDone), Callback(l.worker.value));
            r.worker == None && r.pc.Exited? && r.queue == [] && l.worker.value !in r.callbacks
  {
    RunKeeps(max, steps);
  }

  /** Having sent its last item it goes exactly after a terminal snapshot, and waits for more otherwise. */
  lemma GoesAfterTerminal(max: nat, steps: seq<LaneStep>)
    requires var l := Run(NewLane(max), steps); Working(l) && l.pc.Sending? && l.pc.item.Snapshot? && l.queue == []
    ensures var l := Run(NewLane(max), steps);
            var r := Step(l, SendDone);
            && (r.pc.Exited? <==> Terminal(l.pc.item.task.status.state))
            && (!r.pc.Exited? ==> r == l.(pc := Waiting))
  {
    RunKeeps(max, steps);
  }

  /** A worker that meets the sentinel goes. */
  lemma SentinelEnds(l: Lane)
    requires Working(l) && l.queue == [Sentinel]
    ensures var r := Step(Step(l, SendDone), Take); r.pc.Exited? && r.queue == [] && r.attempted == l.attempted
  {
  }

  lemma SentinelQueued(l: Lane)
    requires Working(l) && (l.max > 0 ==> |l.queue| <= l.max)
    ensures var told := Step(l, Shutdown);
            && Working(told) && told.attempted == l.attempted && told.stopping
            && told.queue == l.queue[if l.max > 0 && |l.queue| == l.max then 1 else 0..] + [Sentinel]
  {
  }

  lemma {:induction false} DrainsToSentinel(l: Lane, kept: seq<Item>)
    requires Working(l) && l.queue == kept + [Sentinel] && forall i :: 0 <= i < |kept| ==> kept[i].Snapshot?
    ensures var r := Run(l, Rounds(|kept| + 1)); r.pc.Exited? && r.queue == [] && r.attempted == l.attempted + kept
  {
    var n := |kept|;
    Drains(l, n);
    RoundsNext(l, n);
    assert l.queue[..n] == kept && l.queue[n..] == [Sentinel];
    SentinelEnds(Taken(l, n));
  }

  /** At a shutdown the worker attempts what is queued, except the one snapshot a full queue gave up for the sentinel,
      and is gone; when the shutdown does not wait any longer it is gone at once. */
  lemma {:induction false} ShutdownDrains(max: nat, steps: seq<LaneStep>)
    requires !Run(NewLane(max), steps).stopping && Working(Run(NewLane(max), steps))
    ensures var l := Run(NewLane(max), steps);
            var kept := l.queue[if max > 0 && |l.queue| == max then 1 else 0..];
            var r := Run(Step(l, Shutdown), Rounds(|kept| + 1));
            && r.pc.Exited? && r.queue == [] && r.attempted == l.attempted + kept
            && Step(Step(l, Shutdown), ForceCancel).pc.Exited?
  {
    RunKeeps(max, steps);
    var l := Run(NewLane(max), steps);
    SentinelQueued(l);
    DrainsToSentinel(Step(l, Shutdown), l.queue[if max > 0 && |l.queue| == max then 1 else 0..]);
  }

  /** The done callback of a worker that was already replaced leaves its successor's queue alone. */
  lemma LateCallback(max: nat, steps: seq<LaneStep>, id: nat)
    ensures var l := Run(NewLane(max), steps);
            l.worker.Some? && !l.pc.Exited? ==>
              Step(l, Callback(id)).worker == l.worker && Step(l, Callback(id)).queue == l.queue
  {
    RunKeeps(max, steps);
  }

  /** A shutdown sentinel drops the newest snapshot exactly when the queue has room for one item and holds it. */
  lemma SentinelDropsNewest(max: nat, steps: seq<LaneStep>)
    requires !Run(NewLane(max), steps).stopping && Run(NewLane(max), steps).enqueued != []
    ensures var l := Run(NewLane(max), steps);
            |l.enqueued| - 1 in Step(l, Shutdown).dropped <==> l.worker.Some? && max == 1 && |l.queue| == 1
  {
    RunKeeps(max, steps);
    SentinelDrops(Run(NewLane(max), steps));
  }

  lemma SentinelDrops(l: Lane)
    requires RunningOk(l) && l.enqueued != [] && (l.max > 0 ==> |l.queue| <= l.max)
    ensures |l.enqueued| - 1 in Step(l, Shutdown).dropped <==> l.worker.Some? && l.max == 1 && |l.queue| == 1
  {
    var k := Overflow(l.queue, l.max);
    if k > 0 {
      assert l.queue[..k] == [l.queue[0]];
      assert Positions([l.queue[0]]) == {l.queue[0].n} by { assert l.queue[0] in [l.queue[0]]; }
    } else {
      assert Positions(l.queue[..k]) == {};
    }
  }
}
