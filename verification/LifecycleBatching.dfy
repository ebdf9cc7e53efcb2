/**
 Artifact write batching: whatever flushes, conflicts, re-buffering, aborts and hand-overs to a
 cancel or mark-failed helper happen in between, what an agent's turn has committed followed by
 what it still buffers is exactly what it emitted, in emission order.
 */
module LifecycleBatching {
  import opened Tasks
  import opened Lifecycle
  import opened LifecycleSafety

  /** The artifact writes committed by one actor, in commit order. */
  ghost function Written(cs: seq<Commit>, i: nat): seq<ArtifactWrite> {
    if |cs| <= 1 then []
    else
      var last := cs[|cs| - 1];
      Written(cs[..|cs| - 1], i) + (if last.writer == i then last.update.artifacts else [])
  }

  /** The artifact writes committed by anybody, in commit order. */
  ghost function AllWritten(cs: seq<Commit>): seq<ArtifactWrite> {
    if |cs| <= 1 then [] else AllWritten(cs[..|cs| - 1]) + cs[|cs| - 1].update.artifacts
  }

  /** What the turn has emitted but not committed: the context's buffer, a batch in flight, or the
      artifacts handed to a finishing helper. */
  ghost function Buffered(a: Actor): seq<ArtifactWrite> {
    match a
    case Worker(ctx, pc) =>
      (match pc
       case Writing(_, taken) => taken
       case Reloading(_, taken, _) => taken
       case Rereading(_, taken) => taken
       case Retrying(_, taken, _) => taken
       case Draining(artifacts) => artifacts
       case Dropped(artifacts) => artifacts
       case _ => ctx.pending)
    case Finisher(_, _, artifacts, _, _, pc) =>
      if pc.NAnnounce? || pc == NDone(false) then [] else artifacts
    case _ => []
  }

  ghost function EmittedBy(a: Actor): seq<ArtifactWrite> {
    match a
    case Worker(ctx, _) => ctx.emitted
    case Finisher(_, _, _, emitted, _, _) => emitted
    case _ => []
  }

  ghost predicate InTurn(a: Actor) { a.Worker? || a.Finisher? }

  ghost predicate InLifecycleCall(a: Actor) {
    a.Worker? && (a.wpc.Writing? || a.wpc.Reloading? || a.wpc.Rereading? || a.wpc.Retrying?) && a.wpc.op.OpLifecycle?
  }

  /** Local shape: a batch in flight leaves the buffer empty, and so does the end of the turn. */
  ghost predicate BufferShape(a: Actor) {
    a.Worker? ==>
      && (a.ctx.turnEnded ==> Buffered(a) == [])
      && (a.wpc.Writing? || a.wpc.Reloading? || a.wpc.Rereading? || a.wpc.Retrying? || a.wpc.Draining? || a.wpc.Dropped? ==>
            a.ctx.pending == [])
      && (a.wpc.Starting? || a.wpc.PreCancel? || a.wpc.ToWorking? ==>
            a.ctx.pending == [] && a.ctx.emitted == [] && !a.ctx.turnEnded)
      && (a.wpc.Buffering? || InLifecycleCall(a) ==> !a.ctx.turnEnded)
      && (a.wpc.Ended? ==> a.ctx.pending == [])
  }

  ghost predicate Conserved(cs: seq<Commit>, i: nat, a: Actor) {
    InTurn(a) ==> Written(cs, i) + Buffered(a) == EmittedBy(a) && BufferShape(a)
  }

  ghost predicate BatchOk(w: World) {
    && |w.commits| > 0
    && (forall k :: 1 <= k < |w.commits| ==> w.commits[k].writer < |w.actors|)
    && (forall i :: 0 <= i < |w.actors| ==> Conserved(w.commits, i, w.actors[i]))
  }

  /** One step of a turn moves writes from the front of the buffer to the store, and whatever it adds
      it adds to the emission order and to the buffer (or the committed batch) alike. */
  ghost predicate MovesBy(a: Actor, eff: Effect, added: seq<ArtifactWrite>) {
    var out := if eff.write.Some? then eff.write.value.artifacts else [];
    Buffered(a) + added == out + Buffered(eff.actor) && EmittedBy(eff.actor) == EmittedBy(a) + added
  }

  lemma FinisherWriteMoves(w: World, i: nat, a: Actor, c: Choice)
    requires |w.commits| > 0 && a.Finisher? && (a.npc.NWrite? || a.npc.NWrite2?)
    ensures MovesBy(a, FinisherStep(w, i, a, c), [])
  {
    assert FinishUpdate(a, a.npc.v).artifacts == a.artifacts;
  }

  lemma FinisherOtherMoves(w: World, i: nat, a: Actor, c: Choice)
    requires |w.commits| > 0 && a.Finisher? && !a.npc.NWrite? && !a.npc.NWrite2?
    ensures MovesBy(a, FinisherStep(w, i, a, c), [])
  {
  }

  lemma FinisherMoves(w: World, i: nat, a: Actor, c: Choice)
    requires |w.commits| > 0 && a.Finisher?
    ensures MovesBy(a, FinisherStep(w, i, a, c), [])
  {
    if a.npc.NWrite? || a.npc.NWrite2? { FinisherWriteMoves(w, i, a, c); } else { FinisherOtherMoves(w, i, a, c); }
  }

  ghost function Added(a: Actor, c: Choice, eff: Effect): seq<ArtifactWrite> {
    if a.Worker? && a.wpc.Buffering? && !c.Abort? then [a.wpc.write]
    else if a.Worker? && (a.wpc.Writing? || a.wpc.Retrying?) && a.wpc.op.OpLifecycle? && eff.write.Some? then a.wpc.op.extra
    else []
  }

  lemma IdleMoves(w: World, i: nat, ctx: Ctx, c: Choice)
    requires |w.commits| > 0 && BufferShape(Worker(ctx, Idle))
    ensures var a, eff := Worker(ctx, Idle), IdleStep(w, i, ctx, c);
            MovesBy(a, eff, Added(a, c, eff)) && BufferShape(eff.actor)
  {
  }

  lemma SuccessMoves(i: nat, k: nat, a: Actor, op: Op, taken: seq<ArtifactWrite>, eff: Effect)
    requires a.Worker? && BufferShape(a) && a.ctx.pending == [] && Buffered(a) == taken
    requires eff.actor == OpSucceeded(i, k, a.ctx, op)
    requires eff.write.Some? && eff.write.value.artifacts == OpUpdate(op, taken).artifacts
    ensures MovesBy(a, eff, if op.OpLifecycle? then op.extra else []) && BufferShape(eff.actor)
  {
    assert taken + [] == taken;
  }

  lemma PutBackMoves(a: Actor, op: Op, taken: seq<ArtifactWrite>, b: Actor)
    requires a.Worker? && BufferShape(a) && a.ctx.pending == [] && Buffered(a) == taken && (op.OpLifecycle? ==> !a.ctx.turnEnded)
    requires || b == Worker(Rebuffer(a.ctx, taken), Idle)
             || (exists current :: b == OpConflicted(a.ctx, op, taken, current))
             || (exists current :: b == Worker(a.ctx, Reloading(op, taken, current)))
    ensures MovesBy(a, Stay(b), []) && BufferShape(b)
  {
    assert taken + [] == taken;
  }

  /** A batch in flight is committed whole or put back whole. */
  lemma OpMoves(w: World, i: nat, a: Actor, op: Op, taken: seq<ArtifactWrite>, v: nat, retry: bool, c: Choice)
    requires |w.commits| > 0 && a.Worker? && BufferShape(a) && a.ctx.pending == [] && Buffered(a) == taken
    requires op.OpLifecycle? ==> !a.ctx.turnEnded
    ensures var eff := AttemptStep(w, i, a.ctx, op, taken, v, retry, c);
            var added := if op.OpLifecycle? && eff.write.Some? then op.extra else [];
            MovesBy(a, eff, added) && BufferShape(eff.actor)
  {
    var eff := AttemptStep(w, i, a.ctx, op, taken, v, retry, c);
    if eff.write.Some? {
      SuccessMoves(i, Version(w), a, op, taken, eff);
    } else {
      assert eff == Stay(eff.actor);
      PutBackMoves(a, op, taken, eff.actor);
    }
  }

  lemma WaitMoves(w: World, i: nat, a: Actor, c: Choice)
    requires |w.commits| > 0 && a.Worker? && BufferShape(a)
    requires a.wpc.Reloading? || a.wpc.Rereading?
    ensures var eff := WorkerStep(w, i, a, c);
            MovesBy(a, eff, []) && BufferShape(eff.actor)
  {
    assert a.wpc.taken + [] == a.wpc.taken;
  }

  lemma DrainMoves(w: World, i: nat, a: Actor, c: Choice)
    requires |w.commits| > 0 && a.Worker? && BufferShape(a) && a.wpc.Draining?
    ensures var eff := WorkerStep(w, i, a, c);
            InTurn(eff.actor) ==> MovesBy(a, eff, []) && BufferShape(eff.actor)
  {
  }

  lemma StartMoves(w: World, i: nat, a: Actor, c: Choice)
    requires |w.commits| > 0 && a.Worker? && BufferShape(a)
    requires a.wpc.Starting? || a.wpc.PreCancel? || a.wpc.ToWorking?
    ensures var eff := WorkerStep(w, i, a, c);
            InTurn(eff.actor) ==> MovesBy(a, eff, []) && BufferShape(eff.actor)
  {
  }

  lemma WorkerMoves(w: World, i: nat, a: Actor, c: Choice)
    requires |w.commits| > 0 && a.Worker? && BufferShape(a)
    ensures var eff := WorkerStep(w, i, a, c);
            InTurn(eff.actor) ==> MovesBy(a, eff, Added(a, c, eff)) && BufferShape(eff.actor)
  {
    if a.wpc.Idle? {
      IdleMoves(w, i, a.ctx, c);
    } else if a.wpc.Writing? {
      OpMoves(w, i, a, a.wpc.op, a.wpc.taken, a.ctx.version, false, c);
    } else if a.wpc.Retrying? {
      OpMoves(w, i, a, a.wpc.op, a.wpc.taken, a.wpc.v, true, c);
    } else if a.wpc.Reloading? || a.wpc.Rereading? {
      WaitMoves(w, i, a, c);
    } else if a.wpc.Draining? {
      DrainMoves(w, i, a, c);
    } else if a.wpc.Starting? || a.wpc.PreCancel? || a.wpc.ToWorking? {
      StartMoves(w, i, a, c);
    }
  }

  lemma WrittenExtends(cs: seq<Commit>, cs': seq<Commit>, i: nat, eff: Effect, j: nat)
    requires |cs| > 0 && Extends(cs, cs', i, eff)
    ensures Written(cs', j) == Written(cs, j) + (if j == i && eff.write.Some? then eff.write.value.artifacts else [])
  {
    if eff.write.Some? { assert cs'[..|cs'| - 1] == cs; }
  }

  /** The algebra of one step: moving a prefix of the buffer to the store keeps the whole. */
  lemma Regroup<T>(written: seq<T>, buffer: seq<T>, added: seq<T>, out: seq<T>, rest: seq<T>)
    requires buffer + added == out + rest
    ensures written + out + rest == written + buffer + added
  {
    assert written + out + rest == written + (out + rest);
    assert written + buffer + added == written + (buffer + added);
  }

  lemma ConservedStep(cs: seq<Commit>, cs': seq<Commit>, i: nat, a: Actor, eff: Effect, added: seq<ArtifactWrite>)
    requires |cs| > 0 && Extends(cs, cs', i, eff)
    requires Conserved(cs, i, a) && InTurn(a)
    requires MovesBy(a, eff, added) && BufferShape(eff.actor)
    ensures Conserved(cs', i, eff.actor)
  {
    WrittenExtends(cs, cs', i, eff, i);
    var out := if eff.write.Some? then eff.write.value.artifacts else [];
    Regroup(Written(cs, i), Buffered(a), added, out, Buffered(eff.actor));
  }

  lemma LocalMoves(w: World, i: nat, a: Actor, c: Choice)
    requires |w.commits| > 0 && BufferShape(a)
    ensures var eff := Local(w, i, a, c);
            InTurn(eff.actor) ==> InTurn(a) && MovesBy(a, eff, Added(a, c, eff)) && BufferShape(eff.actor)
  {
    if !c.Crash? {
      match a
      case Finisher(_, _, _, _, _, _) => FinisherMoves(w, i, a, c);
      case Worker(_, _) => WorkerMoves(w, i, a, c);
      case _ =>
    }
  }

  lemma {:induction false} NothingWritten(cs: seq<Commit>, i: nat)
    requires forall k :: 1 <= k < |cs| ==> cs[k].writer < i
    ensures Written(cs, i) == []
    decreases |cs|
  {
    if |cs| > 1 { NothingWritten(cs[..|cs| - 1], i); }
  }

  lemma ActConserves(w: World, i: nat, c: Choice, now: nat)
    requires BatchOk(w) && i < |w.actors|
    ensures BatchOk(Step(w, Act(i, c, now)))
  {
    var w' := Step(w, Act(i, c, now));
    var eff := Local(w, i, w.actors[i], c);
    assert Conserved(w.commits, i, w.actors[i]);
    LocalMoves(w, i, w.actors[i], c);
    if InTurn(eff.actor) {
      ConservedStep(w.commits, w'.commits, i, w.actors[i], eff, Added(w.actors[i], c, eff));
    }
    forall j | 0 <= j < |w'.actors| ensures Conserved(w'.commits, j, w'.actors[j]) {
      if j != i { OtherConserved(w.commits, w'.commits, i, eff, j, w.actors[j]); }
    }
  }

  lemma OtherConserved(cs: seq<Commit>, cs': seq<Commit>, i: nat, eff: Effect, j: nat, a: Actor)
    requires |cs| > 0 && Extends(cs, cs', i, eff) && j != i && Conserved(cs, j, a)
    ensures Conserved(cs', j, a)
  {
    WrittenExtends(cs, cs', i, eff, j);
    assert Written(cs, j) + [] == Written(cs, j);
  }

  /** A newcomer has emitted nothing and buffers nothing. */
  lemma SpawnsEmpty(w: World, e: Event)
    requires |w.commits| > 0 && !e.Act?
    ensures var w' := Step(w, e);
            && w'.commits == w.commits && |w'.actors| == |w.actors| + 1 && w'.actors[..|w.actors|] == w.actors
            && var a := w'.actors[|w.actors|];
               Buffered(a) == [] && EmittedBy(a) == [] && BufferShape(a)
  {
  }

  lemma SpawnConserves(w: World, e: Event)
    requires BatchOk(w) && !e.Act?
    ensures BatchOk(Step(w, e))
  {
    var w' := Step(w, e);
    SpawnsEmpty(w, e);
    NothingWritten(w.commits, |w.actors|);
    forall j | 0 <= j < |w'.actors| ensures Conserved(w'.commits, j, w'.actors[j]) {
      if j < |w.actors| { assert w'.actors[j] == w'.actors[..|w.actors|][j]; }
    }
  }

  lemma {:induction false} RunConserves(w: World, events: seq<Event>)
    requires Initial(w)
    ensures BatchOk(Run(w, events))
    decreases |events|
  {
    if events != [] {
      var before, e := Run(w, events[..|events| - 1]), events[|events| - 1];
      RunConserves(w, events[..|events| - 1]);
      if e.Act? {
        if e.i < |before.actors| { ActConserves(before, e.i, e.choice, e.now); }
      } else {
        SpawnConserves(before, e);
      }
    }
  }

  // ----- What the store shows -----

  lemma {:induction false} StoredArtifacts(cs: seq<Commit>)
    requires ValidCommits(cs) && cs[0].task.artifacts == []
    ensures cs[|cs| - 1].task.artifacts == ApplyAll([], AllWritten(cs))
    ensures UniqueArtifacts(cs[|cs| - 1].task.artifacts)
    decreases |cs|
  {
    if |cs| > 1 {
      var n := |cs| - 1;
      StoredArtifacts(cs[..n]);
      assert ValidCommit(cs[n - 1].task, cs[n]);
      ApplyAllConcat([], AllWritten(cs[..n]), cs[n].update.artifacts);
    }
    ApplyAllKeepsOrder([], AllWritten(cs));
  }

  lemma {:induction false} SoleWriter(cs: seq<Commit>, i: nat)
    requires forall k :: 1 <= k < |cs| && cs[k].update.artifacts != [] ==> cs[k].writer == i
    ensures AllWritten(cs) == Written(cs, i)
    decreases |cs|
  {
    if |cs| > 1 { SoleWriter(cs[..|cs| - 1], i); }
  }

  /** In every interleaving: what turn i has committed, followed by what it still buffers, is what it
      emitted, and a turn that ended has nothing left in its buffer. */
  lemma BatchingLosesNothing(w: World, events: seq<Event>, i: nat)
    requires Initial(w) && i < |Run(w, events).actors| && InTurn(Run(w, events).actors[i])
    ensures var r := Run(w, events);
            Written(r.commits, i) + Buffered(r.actors[i]) == EmittedBy(r.actors[i])
    ensures var a := Run(w, events).actors[i];
            a.Worker? && a.ctx.turnEnded ==> Buffered(a) == []
  {
    RunConserves(w, events);
    assert Conserved(Run(w, events).commits, i, Run(w, events).actors[i]);
  }

  /** Batching is invisible: when no other actor writes artifacts, folding the buffer onto the stored
      artifacts gives what folding every emitted write one by one would give; ids stay unique. */
  lemma BatchingIsInvisible(w: World, events: seq<Event>, i: nat)
    requires Initial(w) && i < |Run(w, events).actors| && InTurn(Run(w, events).actors[i])
    requires var cs := Run(w, events).commits;
             forall k :: 1 <= k < |cs| && cs[k].update.artifacts != [] ==> cs[k].writer == i
    ensures var r := Run(w, events);
            && ApplyAll(Current(r).artifacts, Buffered(r.actors[i])) == ApplyAll([], EmittedBy(r.actors[i]))
            && UniqueArtifacts(Current(r).artifacts)
  {
    var r := Run(w, events);
    RunKeepsInv(w, events);
    BatchingLosesNothing(w, events, i);
    assert r.commits[0] == w.commits[0];
    StoredArtifacts(r.commits);
    SoleWriter(r.commits, i);
    ApplyAllConcat([], Written(r.commits, i), Buffered(r.actors[i]));
  }

  /** A turn that is over has persisted every artifact write it took over exactly once and in order, whatever other
      actors did, unless its last write was dropped (a cancel found the task terminal at its first load, or a
      last-resort write gave up under contention): then exactly the artifacts of that write are missing. */
  lemma TurnPersistsExactlyOnce(w: World, events: seq<Event>, i: nat)
    requires Initial(w) && i < |Run(w, events).actors|
    requires var a := Run(w, events).actors[i];
             (a.Worker? && (a.wpc.Ended? || a.wpc.Dropped?)) || (a.Finisher? && a.npc.NDone?)
    ensures var r := Run(w, events);
            var a := r.actors[i];
            if a.Finisher? && a.npc.dropped
            then Written(r.commits, i) + a.artifacts == a.emitted
            else if a.Worker? && a.wpc.Dropped?
            then Written(r.commits, i) + a.wpc.artifacts == a.ctx.emitted
            else Written(r.commits, i) == EmittedBy(a)
  {
    RunConserves(w, events);
    assert Conserved(Run(w, events).commits, i, Run(w, events).actors[i]);
  }

  // ----- A worker's own last write -----

  lemma WorkerDropStep(w: World, i: nat, a: Actor, c: Choice)
    requires |w.commits| > 0 && !w.contends && !(a.Worker? && a.wpc.Dropped?)
    ensures var b := Local(w, i, a, c).actor; !(b.Worker? && b.wpc.Dropped?)
  {
    if a.Worker? && a.wpc.Idle? { IdleKeepsWrites(w, i, a.ctx, c); }
    if a.Worker? && (a.wpc.Writing? || a.wpc.Retrying?) {
      AttemptKeepsWrites(w, i, a.ctx, a.wpc.op, a.wpc.taken, if a.wpc.Writing? then a.ctx.version else a.wpc.v, a.wpc.Retrying?, c);
    }
  }

  lemma IdleKeepsWrites(w: World, i: nat, ctx: Ctx, c: Choice)
    requires |w.commits| > 0
    ensures var b := IdleStep(w, i, ctx, c).actor; !(b.Worker? && b.wpc.Dropped?)
  {
  }

  lemma AttemptKeepsWrites(w: World, i: nat, ctx: Ctx, op: Op, taken: seq<ArtifactWrite>, v: nat, retry: bool, c: Choice)
    requires |w.commits| > 0
    ensures var b := AttemptStep(w, i, ctx, op, taken, v, retry, c).actor; !(b.Worker? && b.wpc.Dropped?)
  {
  }

  lemma WorkersDropStep(w: World, e: Event, i: nat)
    requires |w.commits| > 0 && !w.contends && i < |Step(w, e).actors|
    requires i < |w.actors| ==> !(w.actors[i].Worker? && w.actors[i].wpc.Dropped?)
    ensures var a := Step(w, e).actors[i]; !(a.Worker? && a.wpc.Dropped?)
  {
    if e.Act? && e.i == i && i < |w.actors| { WorkerDropStep(w, i, w.actors[i], e.choice); }
  }

  /** Where blind writes do not give up, no worker ends with its artifacts dropped. */
  lemma {:induction false} WorkerDropsOnlyUnderContention(w: World, events: seq<Event>, i: nat)
    requires Initial(w) && !w.contends && i < |Run(w, events).actors|
    ensures var a := Run(w, events).actors[i]; !(a.Worker? && a.wpc.Dropped?)
    decreases |events|
  {
    if events != [] {
      var before, e := Run(w, events[..|events| - 1]), events[|events| - 1];
      if i < |before.actors| { WorkerDropsOnlyUnderContention(w, events[..|events| - 1], i); }
      WorkersDropStep(before, e, i);
    }
  }
}
