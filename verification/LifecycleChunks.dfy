/**
 What a turn streams against what its context takes over: `emit_artifact` publishes a chunk first and takes
 it over afterwards, so a chunk that clients have seen is lost for the store exactly when the call was cancelled
 or crashed in between. Chunks that a lifecycle call publishes have been stored before.
 */
module LifecycleChunks {
  import opened Tasks
  import opened Lifecycle
  import opened LifecycleSafety
  import opened LifecycleBatching

  // ----- What is on the bus -----

  /** The chunks actor i has streamed from `emit_artifact`, in order. */
  ghost function Streamed(bus: seq<BusEvent>, i: nat): seq<ArtifactWrite> {
    if bus == [] then []
    else
      var e := bus[|bus| - 1];
      Streamed(bus[..|bus| - 1], i) + (if e.Chunk? && e.writer == i && !e.closing then [e.write] else [])
  }

  /** The chunks its lifecycle call has published. */
  ghost function Closing(bus: seq<BusEvent>, i: nat): seq<ArtifactWrite> {
    if bus == [] then []
    else
      var e := bus[|bus| - 1];
      Closing(bus[..|bus| - 1], i) + (if e.Chunk? && e.writer == i && e.closing then [e.write] else [])
  }

  // ----- What became of it -----

  /** A streamed chunk, and whether the step after streaming it took it over; otherwise that step was aborted or
      crashed. */
  datatype Fate = Fate(write: ArtifactWrite, taken: bool)

  ghost function FateOf(w: World, e: Event, i: nat): seq<Fate> {
    if e.Act? && e.i == i && i < |w.actors| && w.actors[i].Worker? && w.actors[i].wpc.Buffering?
    then [Fate(w.actors[i].wpc.write, !e.choice.Abort? && !e.choice.Crash?)]
    else []
  }

  /** The artifacts of a lifecycle call that is committed at this step. */
  ghost function ExtraOf(w: World, e: Event, i: nat): seq<ArtifactWrite>
    requires |w.commits| > 0
  {
    if e.Act? && e.i == i && i < |w.actors| && w.actors[i].Worker? && (w.actors[i].wpc.Writing? || w.actors[i].wpc.Retrying?)
       && w.actors[i].wpc.op.OpLifecycle? && Local(w, i, w.actors[i], e.choice).write.Some?
    then w.actors[i].wpc.op.extra
    else []
  }

  ghost function Fates(w: World, events: seq<Event>, i: nat): seq<Fate>
    requires |w.commits| > 0
  {
    if events == [] then []
    else Fates(w, events[..|events| - 1], i) + FateOf(Run(w, events[..|events| - 1]), events[|events| - 1], i)
  }

  ghost function Extras(w: World, events: seq<Event>, i: nat): seq<ArtifactWrite>
    requires |w.commits| > 0
  {
    if events == [] then []
    else Extras(w, events[..|events| - 1], i) + ExtraOf(Run(w, events[..|events| - 1]), events[|events| - 1], i)
  }

  ghost function Writes(fates: seq<Fate>): seq<ArtifactWrite> {
    if fates == [] then [] else Writes(fates[..|fates| - 1]) + [fates[|fates| - 1].write]
  }

  ghost function Taken(fates: seq<Fate>): seq<ArtifactWrite> {
    if fates == [] then []
    else Taken(fates[..|fates| - 1]) + (if fates[|fates| - 1].taken then [fates[|fates| - 1].write] else [])
  }

  /** The chunk that has been streamed and waits to be taken over. */
  ghost function InFlight(a: Actor): seq<ArtifactWrite> {
    if a.Worker? && a.wpc.Buffering? then [a.wpc.write] else []
  }

  lemma FatesSnoc(fates: seq<Fate>, f: Fate)
    ensures Writes(fates + [f]) == Writes(fates) + [f.write]
    ensures Taken(fates + [f]) == Taken(fates) + (if f.taken then [f.write] else [])
  {
    assert (fates + [f])[..|fates|] == fates;
  }

  lemma BusSnoc(bus: seq<BusEvent>, e: BusEvent, i: nat)
    ensures Streamed(bus + [e], i) == Streamed(bus, i) + (if e.Chunk? && e.writer == i && !e.closing then [e.write] else [])
    ensures Closing(bus + [e], i) == Closing(bus, i) + (if e.Chunk? && e.writer == i && e.closing then [e.write] else [])
  {
    assert (bus + [e])[..|bus|] == bus;
  }

  // ----- One step -----

  ghost function StreamsNow(e: Option<BusEvent>, i: nat): seq<ArtifactWrite> {
    if e.Some? && e.value.Chunk? && e.value.writer == i && !e.value.closing then [e.value.write] else []
  }

  /** The closing chunks a lifecycle call still has to publish. */
  ghost function Unpublished(a: Actor, i: nat): seq<ArtifactWrite> {
    if a.Worker? && a.wpc.Telling? then Closing(a.wpc.before, i) else []
  }

  lemma {:induction false} ClosingOfChunks(i: nat, writes: seq<ArtifactWrite>)
    ensures Closing(ClosingChunks(i, writes), i) == writes
  {
    if writes != [] {
      var n := |writes| - 1;
      ClosingOfChunks(i, writes[..n]);
      BusSnoc(ClosingChunks(i, writes[..n]), Chunk(i, writes[n], true), i);
    }
  }

  lemma {:induction false} ClosingCons(e: BusEvent, rest: seq<BusEvent>, i: nat)
    ensures Closing([e] + rest, i) == (if e.Chunk? && e.writer == i && e.closing then [e.write] else []) + Closing(rest, i)
    decreases |rest|
  {
    if rest == [] {
      assert [e] + rest == [] + [e];
      BusSnoc([], e, i);
    } else {
      var n := |rest| - 1;
      ClosingCons(e, rest[..n], i);
      assert [e] + rest == ([e] + rest[..n]) + [rest[n]];
      BusSnoc([e] + rest[..n], rest[n], i);
    }
  }

  /** Streaming a chunk puts it in flight, the next step settles its fate; no other step does either. Whatever an
      actor publishes bears its own index. */
  ghost predicate Flies(i: nat, a: Actor, eff: Effect) {
    && InFlight(eff.actor) == StreamsNow(eff.event, i)
    && (InFlight(a) != [] ==> eff.event.None?)
    && (eff.event.Some? && eff.event.value.Chunk? ==> eff.event.value.writer == i)
  }

  lemma IdleFlies(w: World, i: nat, ctx: Ctx, c: Choice)
    requires |w.commits| > 0
    ensures Flies(i, Worker(ctx, Idle), IdleStep(w, i, ctx, c))
  {
  }

  lemma AttemptIsSilent(w: World, i: nat, ctx: Ctx, op: Op, taken: seq<ArtifactWrite>, v: nat, retry: bool, c: Choice)
    requires |w.commits| > 0
    ensures var eff := AttemptStep(w, i, ctx, op, taken, v, retry, c);
            eff.event.None? && eff.actor.Worker? && !eff.actor.wpc.Buffering?
  {
  }

  lemma OtherFlies(w: World, i: nat, a: Actor, c: Choice)
    requires |w.commits| > 0 && a.Worker? && ActorOk(w.withholds, w.commits, i, a)
    requires !a.wpc.Idle? && !a.wpc.Writing? && !a.wpc.Retrying?
    ensures Flies(i, a, WorkerStep(w, i, a, c))
  {
  }

  lemma FinisherFlies(w: World, i: nat, a: Actor, c: Choice)
    requires |w.commits| > 0 && a.Finisher?
    ensures Flies(i, a, FinisherStep(w, i, a, c))
  {
  }

  lemma WorkerFlies(w: World, i: nat, a: Actor, c: Choice)
    requires |w.commits| > 0 && a.Worker? && ActorOk(w.withholds, w.commits, i, a)
    ensures Flies(i, a, WorkerStep(w, i, a, c))
  {
    match a.wpc
    case Idle => IdleFlies(w, i, a.ctx, c);
    case Writing(op, taken) => AttemptIsSilent(w, i, a.ctx, op, taken, a.ctx.version, false, c);
    case Retrying(op, taken, v) => AttemptIsSilent(w, i, a.ctx, op, taken, v, true, c);
    case _ => OtherFlies(w, i, a, c);
  }

  lemma FlightStep(w: World, i: nat, a: Actor, c: Choice)
    requires |w.commits| > 0 && ActorOk(w.withholds, w.commits, i, a)
    ensures Flies(i, a, Local(w, i, a, c))
  {
    if !c.Crash? {
      match a
      case Worker(_, _) => WorkerFlies(w, i, a, c);
      case Finisher(_, _, _, _, _, _) => FinisherFlies(w, i, a, c);
      case _ =>
    }
  }

  /** What the turn has taken over is its emission order so far, then the artifacts of its lifecycle call. */
  ghost predicate TakenOk(a: Actor, fates: seq<Fate>, extras: seq<ArtifactWrite>) {
    && (InTurn(a) ==> EmittedBy(a) == Taken(fates) + extras)
    && (a.Worker? && !a.ctx.turnEnded ==> extras == [])
  }

  lemma TurnStep(w: World, i: nat, a: Actor, c: Choice)
    requires |w.commits| > 0 && a.Worker? && BufferShape(a)
    ensures var eff := Local(w, i, a, c);
            eff.actor.Worker? && !eff.actor.ctx.turnEnded ==>
              !a.ctx.turnEnded && !((a.wpc.Writing? || a.wpc.Retrying?) && a.wpc.op.OpLifecycle? && eff.write.Some?)
  {
    if !c.Crash? {
      match a.wpc
      case Writing(op, taken) => AttemptEnds(w, i, a.ctx, op, taken, a.ctx.version, false, c);
      case Retrying(op, taken, v) => AttemptEnds(w, i, a.ctx, op, taken, v, true, c);
      case _ =>
    }
  }

  lemma AttemptEnds(w: World, i: nat, ctx: Ctx, op: Op, taken: seq<ArtifactWrite>, v: nat, retry: bool, c: Choice)
    requires |w.commits| > 0
    ensures var eff := AttemptStep(w, i, ctx, op, taken, v, retry, c);
            eff.actor.Worker? && (eff.actor.ctx.turnEnded <==> ctx.turnEnded || (op.OpLifecycle? && eff.write.Some?))
  {
  }

  lemma TakenBuffering(w: World, e: Event, i: nat, fates: seq<Fate>)
    requires |w.commits| > 0 && e.Act? && e.i == i && i < |w.actors| && BufferShape(w.actors[i])
    requires w.actors[i].Worker? && w.actors[i].wpc.Buffering? && TakenOk(w.actors[i], fates, [])
    ensures TakenOk(Step(w, e).actors[i], fates + FateOf(w, e, i), [])
  {
    FatesSnoc(fates, FateOf(w, e, i)[0]);
    var a := w.actors[i];
    assert a.ctx.emitted == Taken(fates) + [] == Taken(fates);
    assert Taken(fates + FateOf(w, e, i)) + [] == Taken(fates + FateOf(w, e, i));
  }

  lemma TakenOther(w: World, e: Event, i: nat, fates: seq<Fate>, extras: seq<ArtifactWrite>)
    requires |w.commits| > 0 && e.Act? && e.i == i && i < |w.actors| && BufferShape(w.actors[i])
    requires !(w.actors[i].Worker? && w.actors[i].wpc.Buffering?) && TakenOk(w.actors[i], fates, extras)
    ensures TakenOk(Step(w, e).actors[i], fates, extras + ExtraOf(w, e, i))
  {
    var a := w.actors[i];
    LocalMoves(w, i, a, e.choice);
    if a.Worker? { TurnStep(w, i, a, e.choice); }
    assert Added(a, e.choice, Local(w, i, a, e.choice)) == ExtraOf(w, e, i);
    assert (Taken(fates) + extras) + ExtraOf(w, e, i) == Taken(fates) + (extras + ExtraOf(w, e, i));
  }

  lemma TakenStep(w: World, e: Event, i: nat, fates: seq<Fate>, extras: seq<ArtifactWrite>)
    requires |w.commits| > 0 && e.Act? && e.i == i && i < |w.actors|
    requires BufferShape(w.actors[i]) && TakenOk(w.actors[i], fates, extras)
    ensures TakenOk(Step(w, e).actors[i], fates + FateOf(w, e, i), extras + ExtraOf(w, e, i))
  {
    if w.actors[i].Worker? && w.actors[i].wpc.Buffering? {
      assert extras + ExtraOf(w, e, i) == [];
      TakenBuffering(w, e, i, fates);
    } else {
      assert fates + FateOf(w, e, i) == fates;
      TakenOther(w, e, i, fates, extras);
    }
  }

  // ----- Every run -----

  ghost predicate StreamOk(w: World, i: nat, fates: seq<Fate>) {
    Streamed(w.bus, i) == Writes(fates) + (if i < |w.actors| then InFlight(w.actors[i]) else [])
  }

  lemma FlightNext(fates: seq<Fate>, f: seq<Fate>, before: seq<ArtifactWrite>, streamed: seq<ArtifactWrite>)
    requires |f| <= 1 && before == (if f == [] then [] else [f[0].write])
    ensures Writes(fates + f) + streamed == Writes(fates) + before + streamed
  {
    if f == [] { assert fates + f == fates; } else { FatesSnoc(fates, f[0]); assert f == [f[0]]; }
  }

  /** A step of the actor itself. */
  lemma OwnStream(w: World, e: Event, i: nat, fates: seq<Fate>)
    requires Inv(w) && StreamOk(w, i, fates) && e.Act? && e.i == i && i < |w.actors|
    ensures StreamOk(Step(w, e), i, fates + FateOf(w, e, i))
  {
    var a := w.actors[i];
    var eff := Local(w, i, a, e.choice);
    FlightStep(w, i, a, e.choice);
    if eff.event.Some? { BusSnoc(w.bus, eff.event.value, i); }
    assert Streamed(Step(w, e).bus, i) == Streamed(w.bus, i) + StreamsNow(eff.event, i);
    FlightNext(fates, FateOf(w, e, i), InFlight(a), StreamsNow(eff.event, i));
  }

  lemma StreamStep(w: World, e: Event, i: nat, fates: seq<Fate>)
    requires Inv(w) && StreamOk(w, i, fates)
    ensures StreamOk(Step(w, e), i, fates + FateOf(w, e, i))
  {
    if e.Act? && e.i == i && i < |w.actors| {
      OwnStream(w, e, i, fates);
    } else {
      assert fates + FateOf(w, e, i) == fates;
      if e.Act? && e.i < |w.actors| {
        var eff := Local(w, e.i, w.actors[e.i], e.choice);
        FlightStep(w, e.i, w.actors[e.i], e.choice);
        if eff.event.Some? { BusSnoc(w.bus, eff.event.value, i); }
      }
    }
  }

  lemma {:induction false} RunStreams(w: World, events: seq<Event>, i: nat)
    requires Initial(w)
    ensures StreamOk(Run(w, events), i, Fates(w, events, i))
    decreases |events|
  {
    if events != [] {
      var n := |events| - 1;
      RunStreams(w, events[..n], i);
      RunKeepsInv(w, events[..n]);
      StreamStep(Run(w, events[..n]), events[n], i, Fates(w, events[..n], i));
    }
  }

  /** A turn that has not begun has neither fates nor extras. */
  ghost predicate TurnOk(w: World, i: nat, fates: seq<Fate>, extras: seq<ArtifactWrite>) {
    if i < |w.actors| then TakenOk(w.actors[i], fates, extras) else fates == [] && extras == []
  }

  lemma TurnOkStep(w: World, e: Event, i: nat, fates: seq<Fate>, extras: seq<ArtifactWrite>)
    requires BatchOk(w) && TurnOk(w, i, fates, extras)
    ensures TurnOk(Step(w, e), i, fates + FateOf(w, e, i), extras + ExtraOf(w, e, i))
  {
    if e.Act? && e.i == i && i < |w.actors| {
      assert Conserved(w.commits, i, w.actors[i]);
      TakenStep(w, e, i, fates, extras);
    } else {
      assert fates + FateOf(w, e, i) == fates && extras + ExtraOf(w, e, i) == extras;
      if !e.Act? { SpawnsEmpty(w, e); }
    }
  }

  lemma {:induction false} RunTakes(w: World, events: seq<Event>, i: nat)
    requires Initial(w)
    ensures TurnOk(Run(w, events), i, Fates(w, events, i), Extras(w, events, i))
    decreases |events|
  {
    if events != [] {
      var n := |events| - 1;
      RunTakes(w, events[..n], i);
      RunConserves(w, events[..n]);
      TurnOkStep(Run(w, events[..n]), events[n], i, Fates(w, events[..n], i), Extras(w, events[..n], i));
    }
  }

  /** In every run the chunks an actor has streamed are, in order, those whose fate is settled and then the one in
      flight; and what its turn has taken over is exactly the taken ones, then the artifacts of its lifecycle call. */
  lemma ChunksExactly(w: World, events: seq<Event>, i: nat)
    requires Initial(w) && i < |Run(w, events).actors|
    ensures var r := Run(w, events);
            && Streamed(r.bus, i) == Writes(Fates(w, events, i)) + InFlight(r.actors[i])
            && (InTurn(r.actors[i]) ==> EmittedBy(r.actors[i]) == Taken(Fates(w, events, i)) + Extras(w, events, i))
  {
    RunStreams(w, events, i);
    RunTakes(w, events, i);
  }

  // ----- Chunks of a lifecycle call -----

  ghost predicate ClosingOk(w: World, i: nat, extras: seq<ArtifactWrite>) {
    Closing(w.bus, i) + (if i < |w.actors| then Unpublished(w.actors[i], i) else []) <= extras
  }

  /** A step publishes the first of the closing chunks that are left, or, committing a lifecycle call, adds its own. */
  ghost predicate Closes(i: nat, a: Actor, eff: Effect, extra: seq<ArtifactWrite>) {
    || Unpublished(a, i) == ClosesNow(eff.event, i) + Unpublished(eff.actor, i)
    || (ClosesNow(eff.event, i) == [] && (Unpublished(eff.actor, i) == [] || Unpublished(eff.actor, i) == extra))
  }

  ghost function ClosesNow(e: Option<BusEvent>, i: nat): seq<ArtifactWrite> {
    if e.Some? && e.value.Chunk? && e.value.writer == i && e.value.closing then [e.value.write] else []
  }

  lemma AttemptCloses(w: World, i: nat, ctx: Ctx, op: Op, taken: seq<ArtifactWrite>, v: nat, retry: bool, c: Choice)
    requires |w.commits| > 0
    ensures var eff := AttemptStep(w, i, ctx, op, taken, v, retry, c);
            && ClosesNow(eff.event, i) == []
            && (Unpublished(eff.actor, i) == [] || (op.OpLifecycle? && eff.write.Some? && Unpublished(eff.actor, i) == op.extra))
  {
    if op.OpLifecycle? {
      ClosingOfChunks(i, op.extra);
      assert Closing([Reply(i)], i) == [] by { BusSnoc([], Reply(i), i); assert [] + [Reply(i)] == [Reply(i)]; }
    }
  }

  lemma TellingCloses(w: World, i: nat, a: Actor, c: Choice)
    requires |w.commits| > 0 && a.Worker? && a.wpc.Telling? && ActorOk(w.withholds, w.commits, i, a)
    ensures Closes(i, a, WorkerStep(w, i, a, c), [])
  {
    if a.wpc.before != [] {
      assert a.wpc.before == [a.wpc.before[0]] + a.wpc.before[1..];
      ClosingCons(a.wpc.before[0], a.wpc.before[1..], i);
    }
  }

  lemma IdleCloses(w: World, i: nat, ctx: Ctx, c: Choice)
    requires |w.commits| > 0
    ensures var eff := IdleStep(w, i, ctx, c); ClosesNow(eff.event, i) == [] && Unpublished(eff.actor, i) == []
  {
  }

  lemma OtherCloses(w: World, i: nat, a: Actor, c: Choice)
    requires |w.commits| > 0 && a.Worker? && !a.wpc.Idle? && !a.wpc.Writing? && !a.wpc.Retrying? && !a.wpc.Telling?
    ensures var eff := WorkerStep(w, i, a, c); ClosesNow(eff.event, i) == [] && Unpublished(eff.actor, i) == []
  {
  }

  lemma FinisherCloses(w: World, i: nat, a: Actor, c: Choice)
    requires |w.commits| > 0 && a.Finisher?
    ensures var eff := FinisherStep(w, i, a, c); ClosesNow(eff.event, i) == [] && Unpublished(eff.actor, i) == []
  {
  }

  lemma CloseStep(w: World, e: Event, i: nat)
    requires |w.commits| > 0 && e.Act? && e.i == i && i < |w.actors| && ActorOk(w.withholds, w.commits, i, w.actors[i])
    ensures Closes(i, w.actors[i], Local(w, i, w.actors[i], e.choice), ExtraOf(w, e, i))
  {
    var a, c := w.actors[i], e.choice;
    if !c.Crash? {
      match a
      case Worker(ctx, Idle) => IdleCloses(w, i, ctx, c);
      case Worker(ctx, Writing(op, taken)) => AttemptCloses(w, i, ctx, op, taken, ctx.version, false, c);
      case Worker(ctx, Retrying(op, taken, v)) => AttemptCloses(w, i, ctx, op, taken, v, true, c);
      case Worker(_, Telling(_, _)) => TellingCloses(w, i, a, c);
      case Worker(_, _) => OtherCloses(w, i, a, c);
      case Finisher(_, _, _, _, _, _) => FinisherCloses(w, i, a, c);
      case _ =>
    }
  }

  lemma BusAfter(w: World, e: Event, i: nat)
    requires |w.commits| > 0 && e.Act? && e.i < |w.actors|
    ensures var r, eff := Step(w, e), Local(w, e.i, w.actors[e.i], e.choice);
            && r.actors == w.actors[e.i := eff.actor]
            && Closing(r.bus, i) == Closing(w.bus, i) + ClosesNow(eff.event, i)
  {
    var eff := Local(w, e.i, w.actors[e.i], e.choice);
    if eff.event.Some? { BusSnoc(w.bus, eff.event.value, i); }
    assert Closing(w.bus, i) + [] == Closing(w.bus, i);
  }

  /** A step of the actor itself. */
  lemma OwnClosing(w: World, e: Event, i: nat, eff: Effect, extras: seq<ArtifactWrite>, extra: seq<ArtifactWrite>)
    requires |w.commits| > 0 && e.Act? && e.i == i && i < |w.actors| && eff == Local(w, i, w.actors[i], e.choice)
    requires Closing(w.bus, i) + Unpublished(w.actors[i], i) <= extras && (extra != [] ==> extras == [])
    requires Closes(i, w.actors[i], eff, extra)
    ensures Closing(Step(w, e).bus, i) + Unpublished(Step(w, e).actors[i], i) <= extras + extra
  {
    BusAfter(w, e, i);
    ClosingAlgebra(Closing(w.bus, i), Unpublished(w.actors[i], i), ClosesNow(eff.event, i), Unpublished(eff.actor, i), extras, extra);
  }

  lemma ClosingStep(w: World, e: Event, i: nat, fates: seq<Fate>, extras: seq<ArtifactWrite>)
    requires Inv(w) && BatchOk(w) && TurnOk(w, i, fates, extras) && ClosingOk(w, i, extras)
    ensures ClosingOk(Step(w, e), i, extras + ExtraOf(w, e, i))
  {
    if e.Act? && e.i == i && i < |w.actors| {
      assert Conserved(w.commits, i, w.actors[i]);
      assert ExtraOf(w, e, i) != [] ==> InLifecycleCall(w.actors[i]) && extras == [];
      CloseStep(w, e, i);
      OwnClosing(w, e, i, Local(w, i, w.actors[i], e.choice), extras, ExtraOf(w, e, i));
    } else {
      OthersClose(w, e, i);
      assert extras + ExtraOf(w, e, i) == extras;
    }
  }

  lemma ClosingAlgebra<T>(done: seq<T>, left: seq<T>, now: seq<T>, left': seq<T>, extras: seq<T>, extra: seq<T>)
    requires done + left <= extras && (extra != [] ==> extras == [])
    requires left == now + left' || (now == [] && (left' == [] || left' == extra))
    ensures done + now + left' <= extras + extra
  {
    if left == now + left' {
      assert done + now + left' == done + left;
    } else if extra != [] {
      assert done == [] && left == [];
      assert done + now + left' == left';
      assert extras + extra == extra;
    } else {
      assert left' == [];
      assert done + now + left' == done;
    }
  }

  lemma OthersClose(w: World, e: Event, i: nat)
    requires Inv(w) && !(e.Act? && e.i == i && i < |w.actors|)
    ensures Closing(Step(w, e).bus, i) == Closing(w.bus, i)
    ensures i < |Step(w, e).actors| ==>
              if i < |w.actors| then Step(w, e).actors[i] == w.actors[i] else Unpublished(Step(w, e).actors[i], i) == []
  {
    if e.Act? && e.i < |w.actors| {
      var eff := Local(w, e.i, w.actors[e.i], e.choice);
      FlightStep(w, e.i, w.actors[e.i], e.choice);
      if eff.event.Some? { BusSnoc(w.bus, eff.event.value, i); }
    }
  }

  lemma {:induction false} RunCloses(w: World, events: seq<Event>, i: nat)
    requires Initial(w)
    ensures ClosingOk(Run(w, events), i, Extras(w, events, i))
    decreases |events|
  {
    if events != [] {
      var n := |events| - 1;
      RunCloses(w, events[..n], i);
      RunKeepsInv(w, events[..n]);
      RunConserves(w, events[..n]);
      RunTakes(w, events[..n], i);
      ClosingStep(Run(w, events[..n]), events[n], i, Fates(w, events[..n], i), Extras(w, events[..n], i));
    }
  }

  /** The chunks a lifecycle call publishes are, in order, artifacts that the call has stored already. */
  lemma ClosingAfterStore(w: World, events: seq<Event>, i: nat)
    requires Initial(w)
    ensures Closing(Run(w, events).bus, i) <= Extras(w, events, i)
  {
    RunCloses(w, events, i);
  }

  // ----- Nothing torn -----

  lemma {:induction false} WritesLength(fates: seq<Fate>)
    ensures |Writes(fates)| == |fates| && |Taken(fates)| <= |fates|
    ensures |Taken(fates)| == |fates| <==> forall k :: 0 <= k < |fates| ==> fates[k].taken
    ensures (forall k :: 0 <= k < |fates| ==> fates[k].taken) ==> Taken(fates) == Writes(fates)
  {
    if fates != [] {
      var n := |fates| - 1;
      WritesLength(fates[..n]);
      assert forall k :: 0 <= k < n ==> fates[..n][k] == fates[k];
    }
  }

  /** So a turn that has no chunk in flight has taken over everything it streamed if and only if none of its
      emitting calls was aborted or crashed between streaming and taking over. */
  lemma NothingTornExactly(w: World, events: seq<Event>, i: nat)
    requires Initial(w) && i < |Run(w, events).actors|
    requires InTurn(Run(w, events).actors[i]) && InFlight(Run(w, events).actors[i]) == []
    ensures var r, fates := Run(w, events), Fates(w, events, i);
            EmittedBy(r.actors[i]) == Streamed(r.bus, i) + Extras(w, events, i)
            <==> forall k :: 0 <= k < |fates| ==> fates[k].taken
  {
    ChunksExactly(w, events, i);
    var fates := Fates(w, events, i);
    WritesLength(fates);
    assert Writes(fates) + [] == Writes(fates);
    SameTail(Taken(fates), Writes(fates), Extras(w, events, i));
  }

  lemma SameTail<T>(a: seq<T>, b: seq<T>, tail: seq<T>)
    ensures a + tail == b + tail <==> a == b
  {
    if a + tail == b + tail {
      assert |a + tail| == |b + tail|;
      assert a == (a + tail)[..|a|] && b == (b + tail)[..|b|];
    }
  }

  // ----- Streamed, but never taken over -----

  /** Some run from a fresh task leads here. */
  ghost predicate Reachable(w: World) {
    exists w0, events :: Initial(w0) && Run(w0, events) == w
  }

  lemma ReachNext(w: World, e: Event)
    requires Reachable(w) && |w.commits| > 0
    ensures Reachable(Step(w, e)) && |Step(w, e).commits| > 0
  {
    var w0, events :| Initial(w0) && Run(w0, events) == w;
    assert (events + [e])[..|events|] == events;
    assert Run(w0, events + [e]) == Step(w, e);
  }

  const FRESH := Ctx(0, [], false, [])

  const STARTED := Ctx(2, [], false, [])

  lemma ReachSpawned() returns (w: World)
    ensures Reachable(w) && |w.commits| == 1 && w.actors == [Worker(FRESH, Starting)]
    ensures !Terminal(Current(w).status.state)
  {
    w := Init(false, false, "t", "c", "m", [], 0);
    InitIsInitial(false, false, "t", "c", "m", [], 0);
    assert Run(w, []) == w;
    ReachNext(w, SpawnWorker);
    w := Step(w, SpawnWorker);
  }

  /** One uneventful step of the only actor. */
  lemma ReachGone(w: World, c: Choice) returns (r: World)
    requires Reachable(w) && |w.commits| > 0 && |w.actors| == 1
    ensures Reachable(r) && r == Step(w, Act(0, c, 1)) && |r.commits| > 0
    ensures var eff := Local(w, 0, w.actors[0], c);
            && r.actors == [eff.actor] && r.commits == Record(w, 0, eff, 1)
            && r.bus == if eff.event.Some? then w.bus + [eff.event.value] else w.bus
  {
    ReachNext(w, Act(0, c, 1));
    r := Step(w, Act(0, c, 1));
  }

  lemma ReachDequeued() returns (w: World)
    ensures Reachable(w) && |w.commits| == 1 && w.actors == [Worker(FRESH, ToWorking)]
    ensures !Terminal(Current(w).status.state)
  {
    w := ReachSpawned();
    w := ReachGone(w, Go(false, false));
  }

  lemma ReachTelling() returns (w: World)
    ensures Reachable(w) && |w.commits| == 2
    ensures w.actors == [Worker(STARTED, Telling([], Transitioned(TaskState.Working, 0, 1)))]
  {
    w := ReachDequeued();
    w := ReachGone(w, Go(false, false));
  }

  lemma ReachIdle() returns (w: World)
    ensures Reachable(w) && |w.commits| == 2 && w.actors == [Worker(STARTED, Idle)]
  {
    w := ReachTelling();
    w := ReachGone(w, Go(false, false));
  }

  lemma ReachTorn(write: ArtifactWrite) returns (w: World)
    ensures Reachable(w) && |w.commits| == 2 && w.actors == [Worker(STARTED, Idle)]
    ensures |w.bus| > 0 && w.bus[|w.bus| - 1] == Chunk(0, write, false)
  {
    w := ReachIdle();
    w := ReachGone(w, Emit(write));
    assert w.actors == [Worker(STARTED, Buffering(write))];
    w := ReachGone(w, Abort);
  }

  /** An artifact is streamed before it is taken over: a cancellation in between leaves a chunk that clients
      have seen and that the context neither buffers nor ever writes. */
  lemma StreamedNotTakenOver(write: ArtifactWrite)
    ensures exists w :: Reachable(w) && |w.actors| == 1 && w.actors[0] == Worker(STARTED, Idle)
                        && |w.bus| > 0 && w.bus[|w.bus| - 1] == Chunk(0, write, false) && Written(w.commits, 0) == []
  {
    var w := ReachTorn(write);
    ReachableConserves(w);
    assert Conserved(w.commits, 0, w.actors[0]);
  }

  lemma ReachableConserves(w: World)
    requires Reachable(w)
    ensures BatchOk(w)
  {
    var w0, events :| Initial(w0) && Run(w0, events) == w;
    RunConserves(w0, events);
  }
}
