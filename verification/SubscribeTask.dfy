/**
 `subscribe_task` over the lifecycle and the in-memory bus together: storage is written before an
 event is published, and the subscription is registered before the task is loaded, so a transition
 that was committed and announced is in the snapshot or comes through the stream.
 */
module SubscribeTask {
  import opened Tasks
  import L = Lifecycle
  import Safety = LifecycleSafety
  import Markers = LifecycleMarkers
  import B = MemoryBus
  import Lock = MemoryBusLock
  import Seat = MemoryBusAttachment
  import D = MemoryBusDelivery
  import Progress = MemoryBusProgress

  /** The task's actors and store, its bus, and for every subscriber that has loaded, the version it saw. */
  datatype Sys = Sys(world: L.World, bus: B.Bus<L.BusEvent>, loads: map<nat, nat>)

  datatype SysStep =
    | Live(event: L.Event)
    | Subscribe(after: Option<nat>)
    | Grant
    | Cancel(k: nat)
    | Load(i: nat)
    | Advance(i: nat)
    | Detach(i: nat)
    | Cleanup

  function ItemOf(e: L.BusEvent): B.Item<L.BusEvent> { B.Item(e, e.Marker?) }

  function Announce(bus: B.Bus<L.BusEvent>, before: seq<L.BusEvent>, after: seq<L.BusEvent>): B.Bus<L.BusEvent> {
    if |after| > |before| then B.Step(bus, B.Publish(ItemOf(after[|before|]))) else bus
  }

  function Step(s: Sys, e: SysStep): Sys
    requires |s.world.commits| > 0
  {
    match e
    case Live(event) =>
      var w := L.Step(s.world, event);
      s.(world := w, bus := Announce(s.bus, s.world.bus, w.bus))
    case Subscribe(after) => s.(bus := B.Step(s.bus, B.Subscribe(after)))
    case Grant => s.(bus := B.Step(s.bus, B.Grant))
    case Cancel(k) => s.(bus := B.Step(s.bus, B.Cancel(k)))
    case Load(i) =>
      if i < |s.bus.subs| && !s.bus.subs[i].phase.Joining? && i !in s.loads then s.(loads := s.loads[i := |s.world.commits|]) else s
    case Advance(i) => if i in s.loads then s.(bus := B.Step(s.bus, B.Advance(i))) else s
    case Detach(i) => s.(bus := B.Step(s.bus, B.Detach(i)))
    case Cleanup => s.(bus := B.Step(s.bus, B.Cleanup))
  }

  function Run(s: Sys, steps: seq<SysStep>): (r: Sys)
    requires |s.world.commits| > 0
    ensures |r.world.commits| > 0
  {
    if steps == [] then s else Step(Run(s, steps[..|steps| - 1]), steps[|steps| - 1])
  }

  ghost predicate Initial(s: Sys) {
    Safety.Initial(s.world) && s.bus == B.Init(s.bus.ring, s.bus.capacity) && s.loads == map[]
  }

  /** How a subscription goes on once the task is loaded. */
  datatype Mode = Refused | SnapshotOnly | SnapshotThenStream | StreamOnly

  function ModeOf(after: Option<nat>, loaded: Task): (m: Mode)
    ensures m.SnapshotThenStream? || m.StreamOnly? <==> !Terminal(loaded.status.state)
    ensures m.Refused? || m.SnapshotThenStream? <==> after.None?
  {
    if Terminal(loaded.status.state) then (if after.None? then Refused else SnapshotOnly)
    else if after.None? then SnapshotThenStream else StreamOnly
  }

  // ----- What every step keeps -----

  ghost predicate SameLog(s: Sys) {
    && |s.bus.log| == |s.world.bus|
    && forall k :: 0 <= k < |s.bus.log| ==> s.bus.log[k] == ItemOf(s.world.bus[k])
  }

  /** Whatever was announced up to a subscriber's bookmark had been committed when it loaded. */
  ghost predicate LoadOk(s: Sys, i: nat)
    requires i in s.loads
  {
    && i < |s.bus.subs| && !s.bus.subs[i].phase.Joining?
    && 1 <= s.loads[i] <= |s.world.commits|
    && s.bus.subs[i].bookmark <= |s.world.bus|
    && forall b :: 0 <= b < s.bus.subs[i].bookmark && Markers.CommitOf(s.world.bus[b]).Some? ==> s.world.bus[b].k < s.loads[i]
  }

  /** The task's actors and store alone are in a state of some lifecycle run. */
  ghost predicate WorldReached(w: L.World) {
    exists w0, events :: Safety.Initial(w0) && L.Run(w0, events) == w
  }

  /** And the bus alone is in a state of some bus run. */
  ghost predicate BusReached(b: B.Bus<L.BusEvent>) {
    exists steps :: B.Run(B.Init(b.ring, b.capacity), steps) == b
  }

  lemma WorldFacts(w: L.World)
    requires WorldReached(w)
    ensures Safety.Inv(w) && Markers.MarkersOk(w.commits, w.actors, w.bus)
  {
    var w0, events :| Safety.Initial(w0) && L.Run(w0, events) == w;
    Safety.RunKeepsInv(w0, events);
    Markers.RunKeepsMarkers(w0, events);
  }

  lemma BusFacts(b: B.Bus<L.BusEvent>)
    requires BusReached(b)
    ensures D.BusOk(b)
  {
    var steps :| B.Run(B.Init<L.BusEvent>(b.ring, b.capacity), steps) == b;
    D.RunKeeps<L.BusEvent>(b.ring, b.capacity, steps);
  }

  lemma WorldNext(w: L.World, event: L.Event)
    requires WorldReached(w) && |w.commits| > 0
    ensures WorldReached(L.Step(w, event))
  {
    var w0, events :| Safety.Initial(w0) && L.Run(w0, events) == w;
    assert (events + [event])[..|events|] == events;
    assert L.Run(w0, events + [event]) == L.Step(w, event);
  }

  lemma BusNext(b: B.Bus<L.BusEvent>, e: B.BusStep<L.BusEvent>)
    requires BusReached(b)
    ensures BusReached(B.Step(b, e))
  {
    var steps :| B.Run(B.Init<L.BusEvent>(b.ring, b.capacity), steps) == b;
    assert (steps + [e])[..|steps|] == steps;
    assert B.Run(B.Init<L.BusEvent>(b.ring, b.capacity), steps + [e]) == B.Step(b, e);
  }

  ghost predicate Inv(s: Sys) {
    && |s.world.commits| > 0
    && WorldReached(s.world)
    && BusReached(s.bus)
    && SameLog(s)
    && forall i :: i in s.loads ==> LoadOk(s, i)
  }

  lemma BusStepKeeps(s: Sys, e: B.BusStep<L.BusEvent>)
    requires Inv(s) && !e.Publish?
    ensures Inv(s.(bus := B.Step(s.bus, e)))
  {
    var s' := s.(bus := B.Step(s.bus, e));
    BusFacts(s.bus);
    BusNext(s.bus, e);
    assert s'.bus.log == s.bus.log;
    forall i | i in s'.loads ensures LoadOk(s', i) {
      assert LoadOk(s, i);
      Lock.RegisteredStays(s.bus, e, i);
    }
  }

  lemma LifeKeeps(s: Sys, event: L.Event)
    requires Inv(s)
    ensures Inv(Step(s, Live(event)))
  {
    var s' := Step(s, Live(event));
    WorldNext(s.world, event);
    L.StepExtends(s.world, event);
    if |s'.world.bus| > |s.world.bus| { BusNext(s.bus, B.Publish(ItemOf(s'.world.bus[|s.world.bus|]))); }
    assert s'.bus.subs == s.bus.subs;
    forall i | i in s'.loads ensures LoadOk(s', i) { assert LoadOk(s, i); }
  }

  /** Whatever was announced by the bookmark has been committed by now. */
  lemma LoadsAnnounced(s: Sys, i: nat)
    requires Inv(s) && i < |s.bus.subs| && !s.bus.subs[i].phase.Joining?
    ensures LoadOk(s.(loads := s.loads[i := |s.world.commits|]), i)
  {
    WorldFacts(s.world);
    BusFacts(s.bus);
    assert D.SubOk(s.bus.log, s.bus.lost, s.bus.subs[i]);
    forall b | 0 <= b < s.bus.subs[i].bookmark && Markers.CommitOf(s.world.bus[b]).Some?
      ensures s.world.bus[b].k < |s.world.commits|
    {
      assert Markers.Announces(s.world.commits, s.world.bus[b]);
    }
  }

  lemma LoadKeeps(s: Sys, i: nat)
    requires Inv(s)
    ensures Inv(Step(s, Load(i)))
  {
    var s' := Step(s, Load(i));
    if i < |s.bus.subs| && !s.bus.subs[i].phase.Joining? { LoadsAnnounced(s, i); }
    forall j | j in s'.loads ensures LoadOk(s', j) {
      if j in s.loads { assert LoadOk(s, j); }
    }
  }

  lemma StepKeeps(s: Sys, e: SysStep)
    requires Inv(s)
    ensures Inv(Step(s, e))
  {
    match e
    case Live(event) => LifeKeeps(s, event);
    case Subscribe(after) => BusStepKeeps(s, B.Subscribe(after));
    case Grant => BusStepKeeps(s, B.Grant);
    case Cancel(k) => BusStepKeeps(s, B.Cancel(k));
    case Load(i) => LoadKeeps(s, i);
    case Advance(i) => BusStepKeeps(s, B.Advance(i));
    case Detach(i) => BusStepKeeps(s, B.Detach(i));
    case Cleanup => BusStepKeeps(s, B.Cleanup);
  }

  lemma InitialKeeps(s: Sys)
    requires Initial(s)
    ensures Inv(s)
  {
    assert L.Run(s.world, []) == s.world;
    assert B.Run(s.bus, []) == s.bus;
  }

  lemma {:induction false} RunKeeps(s: Sys, steps: seq<SysStep>)
    requires Initial(s)
    ensures Inv(Run(s, steps))
    decreases |steps|
  {
    if steps == [] {
      InitialKeeps(s);
    } else {
      RunKeeps(s, steps[..|steps| - 1]);
      StepKeeps(Run(s, steps[..|steps| - 1]), steps[|steps| - 1]);
    }
  }

  // ----- No transition is missed -----

  /** The transition made by commit k is recorded in the task as of version v. */
  ghost predicate Recorded(cs: seq<L.Commit>, k: nat, v: nat, state: TaskState) {
    && k < v <= |cs|
    && cs[k].task.log <= cs[v - 1].task.log
    && cs[k].task.log != []
    && cs[k].task.log[|cs[k].task.log| - 1].state == state
  }

  lemma CommittedIsRecorded(cs: seq<L.Commit>, writer: nat, k: nat, v: nat, state: TaskState)
    requires Safety.ValidCommits(cs) && Safety.Made(cs, writer, k, state) && k < v <= |cs|
    ensures Recorded(cs, k, v, state)
  {
    Safety.Later(cs, k, v - 1);
    assert Safety.ValidCommit(cs[k - 1].task, cs[k]);
  }

  /** Nothing transitions after a terminal version. */
  lemma TransitionsPrecedeTerminal(cs: seq<L.Commit>, writer: nat, k: nat, v: nat, state: TaskState)
    requires Safety.ValidCommits(cs) && Safety.Made(cs, writer, k, state)
    requires 1 <= v <= |cs| && Terminal(cs[v - 1].task.status.state)
    ensures k < v
  {
    assert Safety.ValidCommit(cs[k - 1].task, cs[k]);
    if v <= k { Safety.Later(cs, v - 1, k - 1); }
  }

  /** Subscriber i has loaded and has read everything handed to it, or its stream has ended; b is the index of an
      announced transition whose publisher no longer waits for the lock, not behind the event that closed the
      stream. */
  ghost predicate Concerns(s: Sys, i: nat, b: nat) {
    && i in s.loads && i < |s.bus.subs| && 1 <= s.loads[i] <= |s.world.commits|
    && b < |s.world.bus| && Markers.CommitOf(s.world.bus[b]).Some?
    && D.Settled(s.bus.subs[i]) && D.BeforeEnd(s.bus.subs[i], b + 1) && !Seat.Ahead(s.bus, b + 1)
  }

  /** At some step of the run a cleanup or subscriber i's own unsubscription was granted the lock while event b was
      not fanned out yet. */
  ghost predicate LetGoBefore(s: Sys, steps: seq<SysStep>, i: nat, b: nat)
    requires |s.world.commits| > 0
  {
    if steps == [] then false
    else
      var before := Run(s, steps[..|steps| - 1]).bus;
      || LetGoBefore(s, steps[..|steps| - 1], i, b)
      || (steps[|steps| - 1].Grant? && Seat.LetsGo(before, B.Grant, i) && Seat.Ahead(before, b + 1))
  }

  /** The client saw the transition, or the stated reason why it did not. */
  ghost predicate Informed(r: Sys, cut: bool, i: nat, b: nat)
    requires Concerns(r, i, b)
  {
    var cs, v, sub, e := r.world.commits, r.loads[i], r.bus.subs[i], r.world.bus[b];
    var delivered := B.Entry(b + 1, ItemOf(e)) in sub.yielded || b + 1 in sub.dropped || b + 1 in r.bus.lost || cut;
    match ModeOf(sub.after, cs[v - 1].task)
    case Refused => Recorded(cs, e.k, v, e.state)
    case SnapshotOnly => Recorded(cs, e.k, v, e.state)
    case SnapshotThenStream => Recorded(cs, e.k, v, e.state) || delivered
    case StreamOnly => b + 1 <= sub.after.value || b + 1 <= sub.evicted || delivered
  }

  lemma InSnapshot(cs: seq<L.Commit>, v: nat, e: L.BusEvent)
    requires Safety.ValidCommits(cs) && 1 <= v <= |cs| && Markers.CommitOf(e).Some? && Markers.Announces(cs, e)
    ensures Terminal(cs[v - 1].task.status.state) || e.k < v ==> Recorded(cs, e.k, v, e.state)
  {
    if Terminal(cs[v - 1].task.status.state) { TransitionsPrecedeTerminal(cs, e.writer, e.k, v, e.state); }
    if e.k < v { CommittedIsRecorded(cs, e.writer, e.k, v, e.state); }
  }

  lemma InStream(s: Sys, i: nat, b: nat, cut: bool)
    requires D.BusOk(s.bus) && SameLog(s) && Concerns(s, i, b) && Seat.Account(s.bus, i, b + 1, cut)
    ensures var sub := s.bus.subs[i];
            || b + 1 <= D.StartsAfter(sub)
            || B.Entry(b + 1, ItemOf(s.world.bus[b])) in sub.yielded
            || b + 1 in sub.dropped || b + 1 in s.bus.lost || cut
            || (sub.after.Some? && b + 1 <= sub.evicted)
  {
    var sub := s.bus.subs[i];
    assert D.SubOk(s.bus.log, s.bus.lost, sub);
    if D.StartsAfter(sub) < b + 1 { D.AccountDelivers(s.bus, i, b + 1, cut); }
  }

  lemma InvInforms(s: Sys, i: nat, b: nat, cut: bool)
    requires Inv(s) && Concerns(s, i, b) && Seat.Account(s.bus, i, b + 1, cut)
    ensures Informed(s, cut, i, b)
  {
    WorldFacts(s.world);
    BusFacts(s.bus);
    assert LoadOk(s, i) && Markers.Announces(s.world.commits, s.world.bus[b]);
    InSnapshot(s.world.commits, s.loads[i], s.world.bus[b]);
    InStream(s, i, b, cut);
  }

  /** A step of the whole system is a step of its bus, or leaves the bus alone; only granting the lock lets
      somebody go. */
  lemma AccountStep(s: Sys, e: SysStep, i: nat, id: nat, cut: bool)
    requires Inv(s) && Seat.Account(s.bus, i, id, cut)
    ensures Seat.Account(Step(s, e).bus, i, id, cut || (e.Grant? && Seat.LetsGo(s.bus, B.Grant, i) && Seat.Ahead(s.bus, id)))
  {
    BusFacts(s.bus);
    match e
    case Live(event) =>
      var w := L.Step(s.world, event);
      if |w.bus| > |s.world.bus| {
        Seat.AccountStep(s.bus, B.Publish(ItemOf(w.bus[|s.world.bus|])), i, id, cut);
      }
    case Subscribe(after) => Seat.AccountStep(s.bus, B.Subscribe(after), i, id, cut);
    case Grant => Seat.AccountStep(s.bus, B.Grant, i, id, cut);
    case Cancel(k) => Seat.AccountStep(s.bus, B.Cancel(k), i, id, cut);
    case Advance(j) => Seat.AccountStep(s.bus, B.Advance(j), i, id, cut);
    case Detach(j) => Seat.AccountStep(s.bus, B.Detach(j), i, id, cut);
    case Cleanup => Seat.AccountStep(s.bus, B.Cleanup, i, id, cut);
    case Load(_) =>
  }

  lemma {:induction false} RunAccount(s: Sys, steps: seq<SysStep>, i: nat, b: nat)
    requires Initial(s)
    ensures Seat.Account(Run(s, steps).bus, i, b + 1, LetGoBefore(s, steps, i, b))
    decreases |steps|
  {
    if steps != [] {
      var n := |steps| - 1;
      RunKeeps(s, steps[..n]);
      RunAccount(s, steps[..n], i, b);
      AccountStep(Run(s, steps[..n]), steps[n], i, b + 1, LetGoBefore(s, steps[..n], i, b));
    }
  }

  /** For every run and every subscriber: an announced transition is recorded in the snapshot the client
      gets, or delivered by its stream, unless the subscriber's queue was full, the announcing publisher was
      cancelled before its fan-out, or a cleanup or unsubscription came before it; or, for a client that resumes
      behind its last event, the ring buffer had evicted it or the client had seen it. */
  lemma NoTransitionMissed(s: Sys, steps: seq<SysStep>, i: nat, b: nat)
    requires Initial(s) && Concerns(Run(s, steps), i, b)
    ensures Informed(Run(s, steps), LetGoBefore(s, steps, i, b), i, b)
  {
    RunKeeps(s, steps);
    RunAccount(s, steps, i, b);
    InvInforms(Run(s, steps), i, b, LetGoBefore(s, steps, i, b));
  }

  /** For a first-time subscriber those exceptions are exact: an announced transition missing from the snapshot
      is missing from the stream as well if and only if it was dropped, its publisher was cancelled, or the
      subscriber was let go before its fan-out. */
  lemma MissedExactly(s: Sys, steps: seq<SysStep>, i: nat, b: nat)
    requires Initial(s) && Concerns(Run(s, steps), i, b) && Run(s, steps).bus.subs[i].after.None?
    requires Run(s, steps).loads[i] <= Run(s, steps).world.bus[b].k
    ensures var r := Run(s, steps);
            var sub := r.bus.subs[i];
            B.Entry(b + 1, ItemOf(r.world.bus[b])) !in sub.yielded <==>
              b + 1 in sub.dropped || b + 1 in r.bus.lost || LetGoBefore(s, steps, i, b)
  {
    RunKeeps(s, steps);
    RunAccount(s, steps, i, b);
    StreamMisses(Run(s, steps), i, b, LetGoBefore(s, steps, i, b));
  }

  lemma StreamMisses(r: Sys, i: nat, b: nat, cut: bool)
    requires Inv(r) && Concerns(r, i, b) && r.bus.subs[i].after.None? && Seat.Account(r.bus, i, b + 1, cut)
    requires r.loads[i] <= r.world.bus[b].k
    ensures var sub := r.bus.subs[i];
            B.Entry(b + 1, ItemOf(r.world.bus[b])) !in sub.yielded <==> b + 1 in sub.dropped || b + 1 in r.bus.lost || cut
  {
    assert LoadOk(r, i);
    BusFacts(r.bus);
    assert D.SubOk(r.bus.log, r.bus.lost, r.bus.subs[i]);
    D.AccountDelivers(r.bus, i, b + 1, cut);
  }

  /** In every run the events that close a stream are exactly the announcements of a state that ends or pauses the
      turn: chunks, progress, direct replies and the moves to submitted and working keep it open. */
  lemma ClosesExactly(s: Sys, steps: seq<SysStep>, b: nat)
    requires Initial(s) && b < |Run(s, steps).world.bus|
    ensures var r := Run(s, steps);
            var e := r.world.bus[b];
            && b < |r.bus.log| && r.bus.log[b].event == e
            && (r.bus.log[b].final <==>
                  && Markers.CommitOf(e).Some? && 1 <= e.k < |r.world.commits| && r.world.commits[e.k].update.state.Some?
                  && var state := r.world.commits[e.k].update.state.value; Terminal(state) || Interrupted(state))
  {
    RunKeeps(s, steps);
    WorldFacts(Run(s, steps).world);
    assert Markers.Announces(Run(s, steps).world.commits, Run(s, steps).world.bus[b]);
  }

  // ----- A client that goes on reading catches up -----

  function Reads(i: nat, n: nat): (r: seq<SysStep>)
    ensures |r| == n
  {
    if n == 0 then [] else Reads(i, n - 1) + [Advance(i)]
  }

  /** The system once subscriber i has read n times. */
  ghost function ReadTimes(s: Sys, i: nat, n: nat): Sys {
    s.(bus := B.Run(s.bus, Progress.Repeated(B.Advance(i), n)))
  }

  lemma ReadOnce(s: Sys, i: nat, n: nat)
    requires |s.world.commits| > 0 && i in s.loads
    ensures Step(ReadTimes(s, i, n), Advance(i)) == ReadTimes(s, i, n + 1)
  {
    Progress.RepeatedNext(s.bus, B.Advance(i), n);
  }

  lemma ReadsNext(s: Sys, i: nat, n: nat, m: Sys)
    requires |s.world.commits| > 0 && Run(s, Reads(i, n)) == m
    ensures |m.world.commits| > 0 && Run(s, Reads(i, n + 1)) == Step(m, Advance(i))
  {
    assert Reads(i, n + 1)[..n] == Reads(i, n);
  }

  lemma ReadNone(s: Sys, i: nat)
    requires |s.world.commits| > 0
    ensures Run(s, Reads(i, 0)) == ReadTimes(s, i, 0)
  {
    assert B.Run(s.bus, []) == s.bus;
  }

  lemma ReadMore(s: Sys, i: nat, n: nat)
    requires |s.world.commits| > 0 && i in s.loads && Run(s, Reads(i, n)) == ReadTimes(s, i, n)
    ensures Run(s, Reads(i, n + 1)) == ReadTimes(s, i, n + 1)
  {
    ReadsNext(s, i, n, ReadTimes(s, i, n));
    ReadOnce(s, i, n);
  }

  lemma {:induction false} ReadsAdvance(s: Sys, i: nat, n: nat)
    requires |s.world.commits| > 0 && i in s.loads
    ensures Run(s, Reads(i, n)) == ReadTimes(s, i, n)
    decreases n
  {
    if n == 0 {
      ReadNone(s, i);
    } else {
      ReadsAdvance(s, i, n - 1);
      ReadMore(s, i, n - 1);
    }
  }

  /** Once its subscription has had the lock, a client needs nobody else: it loads the task, and after finitely many
      reads it has had everything that was handed to its stream, or its stream has ended. */
  lemma ClientCatchesUp(s: Sys, i: nat) returns (more: seq<SysStep>)
    requires |s.world.commits| > 0 && Seat.Registered(s.bus, i)
    ensures var r := Run(s, more);
            && i in r.loads && r.loads[i] == (if i in s.loads then s.loads[i] else |s.world.commits|)
            && i < |r.bus.subs| && D.Settled(r.bus.subs[i])
            && r.world == s.world && r.bus.log == s.bus.log && r.bus.turns == s.bus.turns
  {
    var loaded := Step(s, Load(i));
    assert ([Load(i)])[..0] == [];
    assert Run(s, [Load(i)]) == loaded by { assert Run(s, []) == s; }
    var n := Progress.ReadLeft(s.bus.subs[i], s.bus.log) + 1;
    Progress.ReaderCatchesUp(s.bus, i, n);
    ReadsAdvance(loaded, i, n);
    RunsJoin(s, [Load(i)], Reads(i, n));
    more := [Load(i)] + Reads(i, n);
  }

  lemma {:induction false} RunsJoin(s: Sys, a: seq<SysStep>, b: seq<SysStep>)
    requires |s.world.commits| > 0
    ensures Run(s, a + b) == Run(Run(s, a), b)
    decreases |b|
  {
    if b == [] {
      assert a + b == a;
    } else {
      var n := |b| - 1;
      assert (a + b)[..|a + b| - 1] == a + b[..n];
      RunsJoin(s, a, b[..n]);
    }
  }
}
