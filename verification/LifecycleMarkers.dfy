/**
 Stream-closing markers: each one follows its publisher's own committed write and carries that
 write's state, and all competing finishers together publish at most one terminal marker.
 */
module LifecycleMarkers {
  import opened Tasks
  import opened Lifecycle
  import opened LifecycleSafety

  /** The commit an event announces, if it announces one. */
  ghost function CommitOf(e: BusEvent): Option<nat> {
    if e.Marker? || e.Transitioned? then Some(e.k) else None
  }

  /** The commit an actor has made but not announced yet. */
  ghost function Owed(a: Actor): Option<nat> {
    match a
    case FollowUp(_, FAnnounce(k)) => Some(k)
    case EnqueueFailed(_, EReload(k)) => Some(k)
    case EnqueueFailed(_, EAnnounce(k, _)) => Some(k)
    case Finisher(_, _, _, _, _, NAnnounce(k)) => Some(k)
    case Worker(_, Telling(_, event)) => CommitOf(event)
    case _ => None
  }

  /** It is its publisher's own commit, and a stream-closing marker exactly when the state ends or pauses the turn. */
  ghost predicate Announces(cs: seq<Commit>, e: BusEvent) {
    CommitOf(e).Some? ==>
      Made(cs, e.writer, e.k, e.state) && (e.Marker? <==> Terminal(e.state) || Interrupted(e.state))
  }

  /** Events tell the truth, no commit is announced twice, and what is still owed was not announced. */
  ghost predicate MarkersOk(cs: seq<Commit>, actors: seq<Actor>, bus: seq<BusEvent>) {
    && (forall b :: 0 <= b < |bus| ==> Announces(cs, bus[b]))
    && (forall b, d :: 0 <= b < d < |bus| && CommitOf(bus[b]).Some? ==> CommitOf(bus[b]) != CommitOf(bus[d]))
    && (forall i, b :: 0 <= i < |actors| && 0 <= b < |bus| && Owed(actors[i]).Some? ==> CommitOf(bus[b]) != Owed(actors[i]))
  }

  /** An event pays what its actor owed; a new debt is the commit of this very step. */
  ghost predicate Pays(n: nat, i: nat, a: Actor, eff: Effect) {
    && (eff.event.Some? && CommitOf(eff.event.value).Some? ==>
          && CommitOf(eff.event.value) == Owed(a)
          && eff.event.value.writer == i
          && Owed(eff.actor).None?)
    && (Owed(eff.actor).Some? ==> Owed(eff.actor) == Owed(a) || Owed(eff.actor) == Some(n))
  }

  lemma FinisherPays(w: World, i: nat, a: Actor, c: Choice)
    requires |w.commits| > 0 && a.Finisher?
    ensures Pays(|w.commits|, i, a, FinisherStep(w, i, a, c))
  {
  }

  lemma OpPays(w: World, i: nat, a: Actor, op: Op, taken: seq<ArtifactWrite>, v: nat, retry: bool, c: Choice)
    requires |w.commits| > 0 && a.Worker? && Owed(a).None?
    ensures Pays(|w.commits|, i, a, AttemptStep(w, i, a.ctx, op, taken, v, retry, c))
  {
  }

  lemma IdlePays(w: World, i: nat, ctx: Ctx, c: Choice)
    requires |w.commits| > 0
    ensures Pays(|w.commits|, i, Worker(ctx, Idle), IdleStep(w, i, ctx, c))
  {
  }

  lemma WorkerPays(w: World, i: nat, a: Actor, c: Choice)
    requires |w.commits| > 0 && a.Worker? && ActorOk(w.withholds, w.commits, i, a)
    ensures Pays(|w.commits|, i, a, WorkerStep(w, i, a, c))
  {
    match a.wpc
    case Idle => IdlePays(w, i, a.ctx, c);
    case Writing(op, taken) => OpPays(w, i, a, op, taken, a.ctx.version, false, c);
    case Retrying(op, taken, v) => OpPays(w, i, a, op, taken, v, true, c);
    case _ =>
  }

  lemma FollowUpPays(w: World, i: nat, a: Actor, c: Choice)
    requires |w.commits| > 0 && a.FollowUp?
    ensures Pays(|w.commits|, i, a, FollowUpStep(w, i, a, c))
  {
  }

  lemma EnqueuePays(w: World, i: nat, a: Actor, c: Choice)
    requires |w.commits| > 0 && a.EnqueueFailed?
    ensures Pays(|w.commits|, i, a, EnqueueFailedStep(w, i, a, c))
  {
  }

  lemma LocalPays(w: World, i: nat, a: Actor, c: Choice)
    requires |w.commits| > 0 && ActorOk(w.withholds, w.commits, i, a)
    ensures Pays(|w.commits|, i, a, Local(w, i, a, c))
  {
    if !c.Crash? {
      match a
      case FollowUp(_, _) => FollowUpPays(w, i, a, c);
      case EnqueueFailed(_, _) => EnqueuePays(w, i, a, c);
      case Finisher(_, _, _, _, _, _) => FinisherPays(w, i, a, c);
      case Worker(_, _) => WorkerPays(w, i, a, c);
      case _ =>
    }
  }

  lemma WorkerTruth(w: World, i: nat, a: Actor, c: Choice)
    requires |w.commits| > 0 && a.Worker? && ActorOk(w.withholds, w.commits, i, a)
    ensures var eff := WorkerStep(w, i, a, c); eff.event.Some? ==> Announces(w.commits, eff.event.value)
  {
    if a.wpc.Idle? { IdlePays(w, i, a.ctx, c); }
  }

  lemma FinisherTruth(w: World, i: nat, a: Actor, c: Choice)
    requires |w.commits| > 0 && a.Finisher? && FinisherOk(w.commits, i, a)
    ensures var eff := FinisherStep(w, i, a, c); eff.event.Some? ==> Announces(w.commits, eff.event.value)
  {
  }

  lemma EventTruth(w: World, i: nat, a: Actor, c: Choice)
    requires |w.commits| > 0 && ActorOk(w.withholds, w.commits, i, a)
    ensures var eff := Local(w, i, a, c); eff.event.Some? ==> Announces(w.commits, eff.event.value)
  {
    if !c.Crash? {
      match a
      case Finisher(_, _, _, _, _, _) => FinisherTruth(w, i, a, c);
      case Worker(_, _) => WorkerTruth(w, i, a, c);
      case _ =>
    }
  }

  lemma OwedIsMine(withholds: bool, cs: seq<Commit>, i: nat, a: Actor)
    requires ActorOk(withholds, cs, i, a)
    ensures Owed(a).Some? ==> 1 <= Owed(a).value < |cs| && cs[Owed(a).value].writer == i
  {
  }

  /** What an actor owes is a commit of its own, so two actors never owe the same. */
  ghost predicate DebtsOk(cs: seq<Commit>, actors: seq<Actor>) {
    forall j :: 0 <= j < |actors| && Owed(actors[j]).Some? ==>
      1 <= Owed(actors[j]).value < |cs| && cs[Owed(actors[j]).value].writer == j
  }

  lemma InvDebts(w: World)
    requires Inv(w)
    ensures DebtsOk(w.commits, w.actors)
  {
    forall j | 0 <= j < |w.actors| && Owed(w.actors[j]).Some?
      ensures 1 <= Owed(w.actors[j]).value < |w.commits| && w.commits[Owed(w.actors[j]).value].writer == j
    {
      OwedIsMine(w.withholds, w.commits, j, w.actors[j]);
    }
  }

  /** No event on the bus announces a commit beyond the last one. */
  lemma AnnouncedCommitted(cs: seq<Commit>, actors: seq<Actor>, bus: seq<BusEvent>, b: nat)
    requires MarkersOk(cs, actors, bus) && b < |bus| && CommitOf(bus[b]).Some?
    ensures CommitOf(bus[b]).value < |cs|
  {
    assert Announces(cs, bus[b]);
  }

  lemma AnnouncesStays(cs: seq<Commit>, more: seq<Commit>, e: BusEvent)
    requires cs <= more && Announces(cs, e)
    ensures Announces(more, e)
  {
  }

  /** One step on actors and bus; `eff` is any effect that pays its debts. */
  lemma MarkersAdvance(cs: seq<Commit>, more: seq<Commit>, actors: seq<Actor>, bus: seq<BusEvent>, i: nat, eff: Effect)
    requires MarkersOk(cs, actors, bus) && DebtsOk(cs, actors) && i < |actors| && cs <= more
    requires Pays(|cs|, i, actors[i], eff)
    requires eff.event.Some? ==> Announces(cs, eff.event.value)
    ensures MarkersOk(more, actors[i := eff.actor], if eff.event.Some? then bus + [eff.event.value] else bus)
  {
    var actors', bus' := actors[i := eff.actor], if eff.event.Some? then bus + [eff.event.value] else bus;
    forall b | 0 <= b < |bus'| ensures Announces(more, bus'[b]) {
      if b < |bus| { assert Announces(cs, bus[b]); }
      AnnouncesStays(cs, more, bus'[b]);
    }
    forall b, d | 0 <= b < d < |bus'| && CommitOf(bus'[b]).Some? ensures CommitOf(bus'[b]) != CommitOf(bus'[d]) {
      if d == |bus| && CommitOf(bus'[d]).Some? { assert CommitOf(bus[b]) != Owed(actors[i]); }
    }
    forall j, b | 0 <= j < |actors'| && 0 <= b < |bus'| && Owed(actors'[j]).Some?
      ensures CommitOf(bus'[b]) != Owed(actors'[j])
    {
      if b < |bus| {
        if CommitOf(bus[b]).Some? { AnnouncedCommitted(cs, actors, bus, b); }
        if j != i { assert CommitOf(bus[b]) != Owed(actors[j]); }
      } else if CommitOf(bus'[b]).Some? {
        assert CommitOf(bus'[b]) == Owed(actors[i]);
      }
    }
  }

  lemma StepKeepsMarkers(w: World, e: Event)
    requires Inv(w) && MarkersOk(w.commits, w.actors, w.bus)
    ensures var w' := Step(w, e); MarkersOk(w'.commits, w'.actors, w'.bus)
  {
    if e.Act? && e.i < |w.actors| {
      LocalPays(w, e.i, w.actors[e.i], e.choice);
      EventTruth(w, e.i, w.actors[e.i], e.choice);
      InvDebts(w);
      var eff := Local(w, e.i, w.actors[e.i], e.choice);
      RecordExtends(w, e.i, eff, e.now);
      MarkersAdvance(w.commits, Record(w, e.i, eff, e.now), w.actors, w.bus, e.i, eff);
    }
  }

  lemma RecordExtends(w: World, i: nat, eff: Effect, now: nat)
    requires |w.commits| > 0
    ensures w.commits <= Record(w, i, eff, now)
  {
  }

  lemma {:induction false} RunKeepsMarkers(w: World, events: seq<Event>)
    requires Initial(w)
    ensures var r := Run(w, events); MarkersOk(r.commits, r.actors, r.bus)
    decreases |events|
  {
    if events != [] {
      RunKeepsMarkers(w, events[..|events| - 1]);
      RunKeepsInv(w, events[..|events| - 1]);
      StepKeepsMarkers(Run(w, events[..|events| - 1]), events[|events| - 1]);
    }
  }

  /** A marker never runs ahead of storage: its publisher committed exactly that state before. */
  lemma MarkerFollowsCommit(w: World, events: seq<Event>, b: nat)
    requires Initial(w) && b < |Run(w, events).bus| && Run(w, events).bus[b].Marker?
    ensures var r := Run(w, events);
            Made(r.commits, r.bus[b].writer, r.bus[b].k, r.bus[b].state)
  {
    RunKeepsMarkers(w, events);
    assert Announces(Run(w, events).commits, Run(w, events).bus[b]);
  }

  /** At most one marker with a terminal state is ever published for a task. */
  lemma OneTerminalMarker(w: World, events: seq<Event>, b: nat, d: nat)
    requires Initial(w) && b < |Run(w, events).bus| && d < |Run(w, events).bus|
    requires var bus := Run(w, events).bus;
             bus[b].Marker? && bus[d].Marker? && Terminal(bus[b].state) && Terminal(bus[d].state)
    ensures b == d
  {
    RunKeepsInv(w, events);
    RunKeepsMarkers(w, events);
    var r := Run(w, events);
    var cs, e, f := r.commits, r.bus[b], r.bus[d];
    assert Announces(cs, e) && Announces(cs, f);
    assert ValidCommit(cs[e.k - 1].task, cs[e.k]) && ValidCommit(cs[f.k - 1].task, cs[f.k]);
    if e.k < f.k { Later(cs, e.k, f.k - 1); }
    if f.k < e.k { Later(cs, f.k, e.k - 1); }
    assert CommitOf(e) == CommitOf(f);
  }
}
