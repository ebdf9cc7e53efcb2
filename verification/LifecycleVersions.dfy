/**
 `_versioned_update` against a concurrent terminal write: on a store that reports the current
 version with a conflict, a worker whose cached version predates the terminal write never touches
 the terminal task's status. On a store that may withhold the version the same code can.
 */
module LifecycleVersions {
  import opened Tasks
  import opened Lifecycle
  import opened LifecycleSafety

  /** Commit k went through a worker's cached version v, touched the status, and landed on a terminal
      task although v was not terminal yet. */
  ghost predicate StaleOverwrite(cs: seq<Commit>, k: nat) {
    && 1 <= k < |cs|
    && cs[k].cached.Some? && 1 <= cs[k].cached.value <= k
    && CarriesStatus(cs[k].update)
    && !Terminal(cs[cs[k].cached.value - 1].task.status.state)
    && Terminal(cs[k - 1].task.status.state)
  }

  lemma StepMakesNoStaleOverwrite(w: World, e: Event)
    requires Inv(w) && !w.withholds
    ensures !StaleOverwrite(Step(w, e).commits, |w.commits|)
  {
    if e.Act? && e.i < |w.actors| {
      var a := w.actors[e.i];
      assert ActorOk(w.withholds, w.commits, e.i, a);
      var eff := Local(w, e.i, a, e.choice);
      if eff.write.Some? && eff.cached.Some? {
        CachedCommit(w, e.i, a, e.choice);
      }
    }
  }

  /** A commit through a cached version replaces that version itself, or a version reloaded as not terminal. */
  lemma CachedCommit(w: World, i: nat, a: Actor, c: Choice)
    requires |w.commits| > 0 && ActorOk(w.withholds, w.commits, i, a) && !w.withholds
    requires Local(w, i, a, c).write.Some? && Local(w, i, a, c).cached.Some?
    ensures var eff := Local(w, i, a, c);
            eff.cached.value == |w.commits| || !CarriesStatus(eff.write.value) || !Terminal(Current(w).status.state)
  {
    OnlyAttemptsCache(w, i, a, c);
    match a.wpc
    case Writing(op, taken) => AttemptCommits(w, i, a.ctx, op, taken, a.ctx.version, false, c);
    case Retrying(op, taken, v) => AttemptCommits(w, i, a.ctx, op, taken, v, true, c);
  }

  lemma OnlyAttemptsCache(w: World, i: nat, a: Actor, c: Choice)
    requires |w.commits| > 0 && Local(w, i, a, c).cached.Some?
    ensures a.Worker? && (a.wpc.Writing? || a.wpc.Retrying?) && !c.Crash?
  {
  }

  lemma AttemptCommits(w: World, i: nat, ctx: Ctx, op: Op, taken: seq<ArtifactWrite>, v: nat, retry: bool, c: Choice)
    requires |w.commits| > 0
    ensures var eff := AttemptStep(w, i, ctx, op, taken, v, retry, c);
            eff.write.Some? ==>
              v == |w.commits| && eff.cached == Some(ctx.version)
              && eff.write.value == OpUpdate(op, taken).(expected := Some(v))
  {
  }

  lemma OverwriteFrame(cs: seq<Commit>, more: seq<Commit>, k: nat)
    requires cs <= more && k < |cs|
    ensures StaleOverwrite(more, k) <==> StaleOverwrite(cs, k)
  {
    assert forall j :: 0 <= j < |cs| ==> more[j] == cs[j];
  }

  lemma {:induction false} NoStaleOverwrite(w: World, events: seq<Event>, k: nat)
    requires Initial(w) && !w.withholds
    ensures !StaleOverwrite(Run(w, events).commits, k)
    decreases |events|
  {
    if events != [] {
      var before, e := Run(w, events[..|events| - 1]), events[|events| - 1];
      RunKeepsInv(w, events[..|events| - 1]);
      NoStaleOverwrite(w, events[..|events| - 1], k);
      StepExtends(before, e);
      if k == |before.commits| { StepMakesNoStaleOverwrite(before, e); }
      if k < |before.commits| { OverwriteFrame(before.commits, Step(before, e).commits, k); }
    }
  }

  // ----- The same code on a store that may withhold the version -----

  /** The worlds a sequence of events passes through. */
  ghost predicate Path(ws: seq<World>, es: seq<Event>) {
    && |ws| == |es| + 1
    && (forall i :: 0 <= i < |ws| ==> |ws[i].commits| > 0)
    && (forall i :: 0 <= i < |es| ==> ws[i + 1] == Step(ws[i], es[i]))
  }

  lemma {:induction false} PathIsRun(ws: seq<World>, es: seq<Event>)
    requires Path(ws, es)
    ensures Run(ws[0], es) == ws[|es|]
    decreases |es|
  {
    if es != [] {
      var n := |es| - 1;
      assert forall i :: 0 <= i < n ==> es[..n][i] == es[i];
      PathIsRun(ws[..|es|], es[..n]);
      assert ws[n + 1] == Step(ws[n], es[n]);
    }
  }

  lemma PathsJoin(ws: seq<World>, es: seq<Event>, vs: seq<World>, ds: seq<Event>)
    requires Path(ws, es) && Path(vs, ds) && ws[|es|] == vs[0]
    ensures Path(ws + vs[1..], es + ds)
    ensures (ws + vs[1..])[|es + ds|] == vs[|ds|] && (ws + vs[1..])[0] == ws[0]
  {
    var xs, fs := ws + vs[1..], es + ds;
    forall i | 0 <= i < |fs| ensures xs[i + 1] == Step(xs[i], fs[i]) {
      if i < |es| {
        assert ws[i + 1] == Step(ws[i], es[i]);
      } else {
        assert vs[i - |es| + 1] == Step(vs[i - |es|], ds[i - |es|]);
      }
    }
  }

  const GO := Go(false, false)

  const IDLE := Ctx(2, [], false, [])

  const HALF_WAY := OpStatus(AgentMessage(2, "half way"))

  /** Nothing is terminal yet, n commits are in, and actor 0 is a worker at `pc` with version 2 cached. */
  ghost predicate Scene(w: World, n: nat, actors: nat, pc: WorkerPc) {
    && w.withholds && n >= 2 && |w.commits| == n && |w.actors| == actors && w.mint == actors
    && actors > 0 && w.actors[0] == Worker(IDLE, pc)
    && !Terminal(w.commits[1].task.status.state) && !Terminal(w.commits[n - 1].task.status.state)
  }

  lemma WorkerDequeues(contends: bool) returns (ws: seq<World>, es: seq<Event>)
    ensures Path(ws, es) && Initial(ws[0]) && ws[0].withholds && ws[0].contends == contends
    ensures var w := ws[|es|];
            && w.withholds && |w.commits| == 1 && w.mint == 1 && !Terminal(w.commits[0].task.status.state)
            && w.actors == [Worker(Ctx(0, [], false, []), ToWorking)]
  {
    var w0 := Init(true, contends, "t", "c", "m", [], 0);
    InitIsInitial(true, contends, "t", "c", "m", [], 0);
    var w1 := Step(w0, SpawnWorker);
    var w2 := Step(w1, Act(0, GO, 1));
    ws, es := [w0, w1, w2], [SpawnWorker, Act(0, GO, 1)];
  }

  lemma WorkerStarts(w: World) returns (ws: seq<World>, es: seq<Event>)
    requires w.withholds && |w.commits| == 1 && w.mint == 1 && !Terminal(w.commits[0].task.status.state)
    requires w.actors == [Worker(Ctx(0, [], false, []), ToWorking)]
    ensures Path(ws, es) && ws[0] == w && Scene(ws[|es|], 2, 1, Idle)
  {
    var w1 := Step(w, Act(0, GO, 1));
    var w2 := Step(w1, Act(0, GO, 1));
    ws, es := [w, w1, w2], [Act(0, GO, 1), Act(0, GO, 1)];
  }

  lemma AnotherWriterCommits(w: World) returns (ws: seq<World>, es: seq<Event>)
    requires Scene(w, 2, 1, Idle)
    ensures Path(ws, es) && ws[0] == w && Scene(ws[|es|], 3, 2, Idle)
  {
    var w1 := Step(w, SpawnMetadata(map[]));
    assert w1.actors[1] == MetadataWriter(map[]);
    var w2 := Step(w1, Act(1, GO, 2));
    ws, es := [w, w1, w2], [SpawnMetadata(map[]), Act(1, GO, 2)];
  }

  lemma ProgressConflicts(w: World) returns (ws: seq<World>, es: seq<Event>)
    requires Scene(w, 3, 2, Idle)
    ensures Path(ws, es) && ws[0] == w && ws[|es|].commits == w.commits && ws[|es|].withholds
    ensures |ws[|es|].actors| == 2 && ws[|es|].actors[0] == Worker(IDLE, Reloading(HALF_WAY, [], None))
  {
    var w1 := Step(w, Act(0, DoStatus(Some("half way")), 3));
    assert w1.actors[0] == Worker(IDLE, Writing(HALF_WAY, []));
    var w2 := Step(w1, Act(0, Go(false, true), 3));
    ws, es := [w, w1, w2], [Act(0, DoStatus(Some("half way")), 3), Act(0, Go(false, true), 3)];
  }

  lemma ReloadThenCancel(w: World) returns (ws: seq<World>, es: seq<Event>)
    requires w.withholds && |w.commits| == 3 && |w.actors| == 2
    requires w.actors[0] == Worker(IDLE, Reloading(HALF_WAY, [], None))
    requires !Terminal(w.commits[2].task.status.state)
    ensures Path(ws, es) && ws[0] == w && ws[|es|].commits == w.commits
    ensures |ws[|es|].actors| == 3 && ws[|es|].actors[0] == Worker(IDLE, Rereading(HALF_WAY, []))
    ensures var a := ws[|es|].actors[2]; a.Finisher? && a.target == Canceled && a.npc == NLoad(3)
  {
    var w1 := Step(w, Act(0, GO, 3));
    assert w1.actors[0] == Worker(IDLE, Rereading(HALF_WAY, []));
    var w2 := Step(w1, SpawnForceCancel);
    assert w2.actors[2] == NewFinisher(w1, Canceled, [], []);
    var w3 := Step(w2, Act(2, GO, 4));
    ws, es := [w, w1, w2, w3], [Act(0, GO, 3), SpawnForceCancel, Act(2, GO, 4)];
  }

  lemma CancelWins(w: World) returns (ws: seq<World>, es: seq<Event>)
    requires |w.commits| == 3 && |w.actors| == 3 && !Terminal(w.commits[2].task.status.state)
    requires w.actors[2].Finisher? && w.actors[2].target == Canceled && w.actors[2].npc == NLoad(3)
    ensures Path(ws, es) && ws[0] == w && |ws[|es|].commits| == 4 && ws[|es|].commits[..3] == w.commits
    ensures ws[|es|].commits[3].task.status.state == Canceled
    ensures |ws[|es|].actors| == 3 && ws[|es|].actors[0] == w.actors[0]
  {
    var w1 := Step(w, Act(2, GO, 4));
    assert w1.actors[2] == w.actors[2].(npc := NWrite(3)) && w1.commits == w.commits;
    var w2 := Step(w1, Act(2, GO, 4));
    ws, es := [w, w1, w2], [Act(2, GO, 4), Act(2, GO, 4)];
  }

  lemma RetryLands(w: World) returns (ws: seq<World>, es: seq<Event>)
    requires |w.commits| == 4 && |w.actors| == 3 && w.actors[0] == Worker(IDLE, Rereading(HALF_WAY, []))
    requires !Terminal(w.commits[1].task.status.state) && w.commits[3].task.status.state == Canceled
    ensures Path(ws, es) && ws[0] == w && StaleOverwrite(ws[|es|].commits, 4)
  {
    var w1 := Step(w, Act(0, GO, 5));
    assert w1.actors[0] == Worker(IDLE, Retrying(HALF_WAY, [], 4));
    var w2 := Step(w1, Act(0, GO, 5));
    ws, es := [w, w1, w2], [Act(0, GO, 5), Act(0, GO, 5)];
  }

  lemma OverwritePath(contends: bool) returns (ws: seq<World>, es: seq<Event>)
    ensures Path(ws, es) && Initial(ws[0]) && ws[0].withholds && ws[0].contends == contends && StaleOverwrite(ws[|es|].commits, 4)
  {
    ws, es := WorkerDequeues(contends);
    var vs, ds := WorkerStarts(ws[|es|]);
    PathsJoin(ws, es, vs, ds);
    ws, es := ws + vs[1..], es + ds;
    vs, ds := AnotherWriterCommits(ws[|es|]);
    PathsJoin(ws, es, vs, ds);
    ws, es := ws + vs[1..], es + ds;
    vs, ds := ProgressConflicts(ws[|es|]);
    PathsJoin(ws, es, vs, ds);
    ws, es := ws + vs[1..], es + ds;
    vs, ds := ReloadThenCancel(ws[|es|]);
    PathsJoin(ws, es, vs, ds);
    ws, es := ws + vs[1..], es + ds;
    vs, ds := CancelWins(ws[|es|]);
    PathsJoin(ws, es, vs, ds);
    ws, es := ws + vs[1..], es + ds;
    vs, ds := RetryLands(ws[|es|]);
    PathsJoin(ws, es, vs, ds);
    ws, es := ws + vs[1..], es + ds;
  }

  /** A worker retrying a progress message reloads before a cancel commits and rereads the version after:
      its message then replaces the one the cancel left on the terminal task. */
  lemma WithheldVersionOverwrites(contends: bool)
    ensures exists w, events, k ::
              Initial(w) && w.withholds && w.contends == contends && StaleOverwrite(Run(w, events).commits, k)
  {
    var ws, es := OverwritePath(contends);
    PathIsRun(ws, es);
    assert StaleOverwrite(Run(ws[0], es).commits, 4);
  }

  /** So a terminal task's status can be overwritten through a version cached before exactly on the stores that
      may withhold the version from a conflict, whether or not their blind writes give up under contention. */
  lemma StaleOverwriteExactly(withholds: bool, contends: bool)
    ensures (exists w, events, k ::
               Initial(w) && w.withholds == withholds && w.contends == contends && StaleOverwrite(Run(w, events).commits, k))
            <==> withholds
  {
    if withholds {
      WithheldVersionOverwrites(contends);
    } else {
      forall w, events, k | Initial(w) && !w.withholds ensures !StaleOverwrite(Run(w, events).commits, k) {
        NoStaleOverwrite(w, events, k);
      }
    }
  }
}
