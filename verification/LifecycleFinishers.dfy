/**
 `cancel_task_in_storage` and `_mark_failed`: on every store both give up on a task that is still running
 only after losing to at least two other writes. Where blind writes do not give up under contention, only a
 cancel ever drops its artifacts, and only when it found the task terminal at its first load.
 */
module LifecycleFinishers {
  import opened Tasks
  import opened Lifecycle
  import opened LifecycleSafety

  /** How many of the commits from index `base` on were made by somebody other than i. */
  ghost function OthersSince(cs: seq<Commit>, base: nat, i: nat): nat {
    if |cs| <= base then 0
    else OthersSince(cs[..|cs| - 1], base, i) + (if cs[|cs| - 1].writer != i then 1 else 0)
  }

  ghost predicate Quiet(cs: seq<Commit>, base: nat, i: nat) {
    forall k :: base <= k < |cs| ==> cs[k].writer != i
  }

  ghost predicate EndedOr(cs: seq<Commit>, lost: bool) {
    |cs| > 0 && (Terminal(cs[|cs| - 1].task.status.state) || lost)
  }

  ghost predicate FinisherLoses(contends: bool, cs: seq<Commit>, i: nat, a: Actor)
    requires a.Finisher?
  {
    match a.npc
    case NLoad(_) => Quiet(cs, a.base, i) && a.target == Canceled
    case NReadVersion2 => Quiet(cs, a.base, i) && EndedOr(cs, |cs| >= a.base + 1)
    case NLoad2(v) => Quiet(cs, a.base, i) && EndedOr(cs, v >= a.base + 1)
    case NWrite2(v) => Quiet(cs, a.base, i) && EndedOr(cs, v >= a.base + 1)
    case NFallback => Quiet(cs, a.base, i) && EndedOr(cs, |cs| >= a.base + 2)
    case NAnnounce(_) => EndedOr(cs, false)
    case NDone(dropped) =>
      && EndedOr(cs, OthersSince(cs, a.base, i) >= 2)
      && (!contends && dropped ==> a.target == Canceled && EndedOr(cs, false))
    case _ => Quiet(cs, a.base, i)
  }

  lemma {:induction false} QuietCounts(cs: seq<Commit>, base: nat, i: nat)
    requires Quiet(cs, base, i) && base <= |cs|
    ensures OthersSince(cs, base, i) == |cs| - base
    decreases |cs|
  {
    if base < |cs| { QuietCounts(cs[..|cs| - 1], base, i); }
  }

  /** Another actor's commit keeps what a finisher has established. */
  lemma OthersKeep(contends: bool, cs: seq<Commit>, c: Commit, i: nat, a: Actor)
    requires |cs| > 0 && a.Finisher? && FinisherLoses(contends, cs, i, a)
    requires ValidCommit(cs[|cs| - 1].task, c) && c.writer != i
    ensures FinisherLoses(contends, cs + [c], i, a)
  {
    assert (cs + [c])[..|cs|] == cs;
    assert Terminal(cs[|cs| - 1].task.status.state) ==> Terminal(c.task.status.state);
  }

  /** The two pinned writes: commit, or come one lost race closer to giving up. */
  lemma WriteLoses(w: World, i: nat, a: Actor, c: Choice, cs': seq<Commit>)
    requires |w.commits| > 0 && a.Finisher? && FinisherOk(w.commits, i, a) && FinisherLoses(w.contends, w.commits, i, a)
    requires a.npc.NWrite? || a.npc.NWrite2?
    requires var eff := FinisherStep(w, i, a, c);
             && Extends(w.commits, cs', i, eff)
             && (eff.write.Some? ==> ValidCommit(Current(w), cs'[|w.commits|]))
    ensures FinisherLoses(w.contends, cs', i, FinisherStep(w, i, a, c).actor)
  {
    QuietCounts(w.commits, a.base, i);
    PinnedTry(w, FinishUpdate(a, a.npc.v), c);
  }

  /** Contention never stops a pinned write. */
  lemma PinnedTry(w: World, u: Update, c: Choice)
    requires |w.commits| > 0 && u.expected.Some?
    ensures Try(w, u, c).Committed? <==> Check(Current(w), Version(w), u).Committed?
    ensures Try(w, u, c).TerminalTask? <==> Check(Current(w), Version(w), u).TerminalTask?
    ensures Try(w, u, c).VersionConflict? <==> Check(Current(w), Version(w), u).VersionConflict?
  {
  }

  lemma FallbackLoses(w: World, i: nat, a: Actor, c: Choice, cs': seq<Commit>)
    requires |w.commits| > 0 && a.Finisher? && FinisherOk(w.commits, i, a) && FinisherLoses(w.contends, w.commits, i, a)
    requires a.npc.NFallback?
    requires var eff := FinisherStep(w, i, a, c);
             && Extends(w.commits, cs', i, eff)
             && (eff.write.Some? ==> ValidCommit(Current(w), cs'[|w.commits|]))
    ensures FinisherLoses(w.contends, cs', i, FinisherStep(w, i, a, c).actor)
  {
    QuietCounts(w.commits, a.base, i);
    if FinisherStep(w, i, a, c).write.Some? { assert cs'[..|cs'| - 1] == w.commits; }
  }

  lemma ReadLoses(w: World, i: nat, a: Actor, c: Choice)
    requires |w.commits| > 0 && a.Finisher? && FinisherOk(w.commits, i, a) && FinisherLoses(w.contends, w.commits, i, a)
    requires !a.npc.NWrite? && !a.npc.NWrite2? && !a.npc.NFallback?
    ensures FinisherStep(w, i, a, c).write.None?
    ensures FinisherLoses(w.contends, w.commits, i, FinisherStep(w, i, a, c).actor)
  {
    if Quiet(w.commits, a.base, i) { QuietCounts(w.commits, a.base, i); }
  }

  lemma FinisherStepLoses(w: World, i: nat, a: Actor, c: Choice, cs': seq<Commit>)
    requires |w.commits| > 0 && a.Finisher? && FinisherOk(w.commits, i, a) && FinisherLoses(w.contends, w.commits, i, a)
    requires var eff := FinisherStep(w, i, a, c);
             && Extends(w.commits, cs', i, eff)
             && (eff.write.Some? ==> ValidCommit(Current(w), cs'[|w.commits|]))
    ensures FinisherLoses(w.contends, cs', i, FinisherStep(w, i, a, c).actor)
  {
    if a.npc.NWrite? || a.npc.NWrite2? {
      WriteLoses(w, i, a, c, cs');
    } else if a.npc.NFallback? {
      FallbackLoses(w, i, a, c, cs');
    } else {
      ReadLoses(w, i, a, c);
    }
  }

  ghost predicate LosesOk(w: World) {
    forall i :: 0 <= i < |w.actors| && w.actors[i].Finisher? ==> FinisherLoses(w.contends, w.commits, i, w.actors[i])
  }

  /** A worker that hands over to a finishing helper has written nothing at that step. */
  lemma TurnsFinisher(w: World, i: nat, a: Actor, c: Choice)
    requires |w.commits| > 0 && a.Worker?
    ensures var eff := WorkerStep(w, i, a, c);
            eff.actor.Finisher? ==> eff.write.None? && eff.actor.npc.NReadVersion? && eff.actor.base == |w.commits|
  {
    match a.wpc
    case Idle => IdleTurnsFinisher(w, i, a.ctx, c);
    case Writing(op, taken) => AttemptStaysWorker(w, i, a.ctx, op, taken, a.ctx.version, false, c);
    case Retrying(op, taken, v) => AttemptStaysWorker(w, i, a.ctx, op, taken, v, true, c);
    case _ =>
  }

  lemma IdleTurnsFinisher(w: World, i: nat, ctx: Ctx, c: Choice)
    requires |w.commits| > 0
    ensures var eff := IdleStep(w, i, ctx, c);
            eff.actor.Finisher? ==> eff.write.None? && eff.actor.npc.NReadVersion? && eff.actor.base == |w.commits|
  {
  }

  lemma AttemptStaysWorker(w: World, i: nat, ctx: Ctx, op: Op, taken: seq<ArtifactWrite>, v: nat, retry: bool, c: Choice)
    requires |w.commits| > 0
    ensures AttemptStep(w, i, ctx, op, taken, v, retry, c).actor.Worker?
  {
  }

  lemma LocalLoses(w: World, i: nat, a: Actor, c: Choice, cs': seq<Commit>)
    requires |w.commits| > 0 && ActorOk(w.withholds, w.commits, i, a)
    requires a.Finisher? ==> FinisherLoses(w.contends, w.commits, i, a)
    requires var eff := Local(w, i, a, c);
             && Extends(w.commits, cs', i, eff)
             && (eff.write.Some? ==> ValidCommit(Current(w), cs'[|w.commits|]))
    ensures var b := Local(w, i, a, c).actor; b.Finisher? ==> FinisherLoses(w.contends, cs', i, b)
  {
    if !c.Crash? {
      match a
      case Finisher(_, _, _, _, _, _) => FinisherStepLoses(w, i, a, c, cs');
      case Worker(_, _) => TurnsFinisher(w, i, a, c);
      case _ =>
    }
  }

  lemma ActLoses(w: World, i: nat, c: Choice, now: nat)
    requires Inv(w) && LosesOk(w) && i < |w.actors|
    ensures LosesOk(Step(w, Act(i, c, now)))
  {
    var w' := Step(w, Act(i, c, now));
    ActKeepsInv(w, i, c, now);
    var eff := Local(w, i, w.actors[i], c);
    if eff.write.Some? { assert ValidCommit(w'.commits[|w.commits| - 1].task, w'.commits[|w.commits|]); }
    LocalLoses(w, i, w.actors[i], c, w'.commits);
    forall j | 0 <= j < |w'.actors| && w'.actors[j].Finisher? ensures FinisherLoses(w'.contends, w'.commits, j, w'.actors[j]) {
      if j != i && eff.write.Some? {
        OthersKeep(w.contends, w.commits, w'.commits[|w.commits|], j, w.actors[j]);
      }
    }
  }

  lemma StepLoses(w: World, e: Event)
    requires Inv(w) && LosesOk(w)
    ensures LosesOk(Step(w, e))
  {
    if e.Act? && e.i < |w.actors| { ActLoses(w, e.i, e.choice, e.now); }
  }

  lemma {:induction false} RunLoses(w: World, events: seq<Event>)
    requires Initial(w)
    ensures LosesOk(Run(w, events))
    decreases |events|
  {
    if events != [] {
      var before, e := Run(w, events[..|events| - 1]), events[|events| - 1];
      RunLoses(w, events[..|events| - 1]);
      RunKeepsInv(w, events[..|events| - 1]);
      StepLoses(before, e);
    }
  }

  /** A finisher that has returned leaves the task terminal, or at least two other writes committed
      during its call. */
  lemma GivesUpOnlyAfterTwoWrites(w: World, events: seq<Event>, i: nat)
    requires Initial(w) && i < |Run(w, events).actors|
    requires var a := Run(w, events).actors[i]; a.Finisher? && a.npc.NDone?
    ensures var r := Run(w, events);
            Terminal(Current(r).status.state) || OthersSince(r.commits, r.actors[i].base, i) >= 2
  {
    RunLoses(w, events);
    assert FinisherLoses(w.contends, Run(w, events).commits, i, Run(w, events).actors[i]);
  }

  // ----- Dropped artifacts -----

  /** Finisher i finds the task terminal at its first load. */
  ghost predicate FindsTerminal(w: World, e: Event, i: nat)
    requires |w.commits| > 0
  {
    && e.Act? && e.i == i && !e.choice.Crash? && i < |w.actors| && w.actors[i].Finisher?
    && w.actors[i].npc.NLoad? && Terminal(Current(w).status.state)
  }

  /** It did so at some step of the run. */
  ghost predicate FoundTerminal(w: World, events: seq<Event>, i: nat)
    requires |w.commits| > 0
  {
    if events == [] then false
    else
      || FoundTerminal(w, events[..|events| - 1], i)
      || FindsTerminal(Run(w, events[..|events| - 1]), events[|events| - 1], i)
  }

  /** Without contention, a finisher drops its artifacts in one kind of step only. */
  lemma DropsOnlyOnTerminalFirstLoad(w: World, i: nat, a: Actor, c: Choice)
    requires |w.commits| > 0 && !w.contends && a.Finisher? && a.npc != NDone(true)
    ensures FinisherStep(w, i, a, c).actor.npc == NDone(true) <==>
              a.npc.NLoad? && Terminal(Current(w).status.state)
  {
    match a.npc
    case NFallback =>
    case _ =>
  }

  ghost predicate DropRecord(w: World, i: nat, found: bool) {
    if i >= |w.actors| then !found
    else match w.actors[i]
      case Finisher(_, _, _, _, _, npc) => npc == NDone(true) <==> found
      case Gone => true
      case _ => !found
  }

  lemma DropStep(w: World, e: Event, i: nat, found: bool)
    requires |w.commits| > 0 && !w.contends && DropRecord(w, i, found)
    ensures DropRecord(Step(w, e), i, found || FindsTerminal(w, e, i))
  {
    if e.Act? && e.i == i && i < |w.actors| && !e.choice.Crash? {
      match w.actors[i]
      case Finisher(_, _, _, _, _, npc) =>
        if npc != NDone(true) { DropsOnlyOnTerminalFirstLoad(w, i, w.actors[i], e.choice); }
      case Worker(_, _) => TurnsFinisher(w, i, w.actors[i], e.choice);
      case _ =>
    }
  }

  lemma {:induction false} RunDrops(w: World, events: seq<Event>, i: nat)
    requires |w.commits| > 0 && !w.contends && w.actors == []
    ensures DropRecord(Run(w, events), i, FoundTerminal(w, events, i))
    decreases |events|
  {
    if events != [] {
      var n := |events| - 1;
      RunDrops(w, events[..n], i);
      DropStep(Run(w, events[..n]), events[n], i, FoundTerminal(w, events[..n], i));
    }
  }

  /** Where blind writes do not give up, a finisher that has returned dropped its artifacts if and only if it found
      the task terminal at its first load; then it is a cancel, and the task is terminal. */
  lemma DroppedOnlyByLateCancel(w: World, events: seq<Event>, i: nat)
    requires Initial(w) && !w.contends && i < |Run(w, events).actors|
    requires var a := Run(w, events).actors[i]; a.Finisher? && a.npc.NDone?
    ensures var r := Run(w, events);
            && (r.actors[i].npc.dropped <==> FoundTerminal(w, events, i))
            && (r.actors[i].npc.dropped ==> r.actors[i].target == Canceled && Terminal(Current(r).status.state))
  {
    RunDrops(w, events, i);
    RunLoses(w, events);
    assert FinisherLoses(w.contends, Run(w, events).commits, i, Run(w, events).actors[i]);
  }
}
