/**
 A worker's calls take effect and its turn comes to an end: a call that nobody overtakes lands in the store as the
 handler meant it and is announced in full, a call that is overtaken leaves the cached version up to date, and a
 handler left in whatever way, or never entered because of a cancel, leaves a task that is finished or was taken
 further by others.
 */
module LifecycleTurns {
  import opened Tasks
  import opened Lifecycle
  import opened LifecycleSafety
  import opened LifecycleFinishers
  import opened LifecycleAnswers

  // ----- A call that nobody overtakes -----

  const NEXT := Go(false, false)

  function Gos(i: nat, n: nat, now: nat): (r: seq<Event>)
    ensures |r| == n
  {
    if n == 0 then [] else Gos(i, n - 1, now) + [Act(i, NEXT, now)]
  }

  lemma RunSnoc(w: World, events: seq<Event>, e: Event)
    requires |w.commits| > 0
    ensures Run(w, events + [e]) == Step(Run(w, events), e)
  {
    assert (events + [e])[..|events|] == events;
  }

  /** Actor i's handler runs, and nobody has written since its context last did. */
  ghost predicate InHandler(w: World, i: nat) {
    && |w.commits| > 0 && i < |w.actors| && w.actors[i].Worker? && w.actors[i].wpc.Idle?
    && w.actors[i].ctx.version == |w.commits|
  }

  /** One commit later, by actor i, whose buffer went along. */
  ghost predicate Landed(w: World, r: World, i: nat, extra: seq<ArtifactWrite>) {
    && |w.commits| > 0 && i < |w.actors| && w.actors[i].Worker?
    && |r.commits| == |w.commits| + 1 && w.commits <= r.commits && r.commits[|w.commits|].writer == i
    && i < |r.actors| && r.actors[i].Worker? && r.actors[i].ctx.version == |r.commits| && r.actors[i].ctx.pending == []
    && ArtifactsApplied(Current(w).artifacts, w.actors[i].ctx.pending + extra, Current(r).artifacts)
  }

  /** The first attempt of a write that nobody has overtaken commits it. */
  lemma AttemptLands(w: World, i: nat, ctx: Ctx, op: Op, taken: seq<ArtifactWrite>, now: nat)
    requires |w.commits| > 0 && i < |w.actors| && w.actors[i] == Worker(ctx, Writing(op, taken)) && ctx.version == |w.commits|
    requires op.OpLifecycle? ==> !Terminal(Current(w).status.state)
    ensures var r := Step(w, Act(i, NEXT, now));
            && |r.commits| == |w.commits| + 1 && w.commits <= r.commits && r.commits[|w.commits|].writer == i
            && Applied(Current(w), OpUpdate(op, taken).(expected := Some(|w.commits|)), now, Current(r))
            && r.actors == w.actors[i := OpSucceeded(i, |w.commits|, ctx, op)] && r.bus == w.bus
  {
    MergeApplies(Current(w), OpUpdate(op, taken).(expected := Some(|w.commits|)), now);
  }

  /** The handler's call drains the buffer and is about to write. */
  lemma Calls(w: World, i: nat, c: Choice, op: Op, now: nat)
    requires InHandler(w, i) && c.DoFlush? ==> op == OpFlush && w.actors[i].ctx.pending != []
    requires InHandler(w, i) && !c.DoFlush? ==>
               && !w.actors[i].ctx.turnEnded
               && ((c.DoStatus? && c.text.Some? && op == OpStatus(AgentMessage(w.mint, c.text.value)))
                   || (c.DoLifecycle? && LifecycleState(c.state)
                       && op == OpLifecycle(c.state, if c.text.Some? then Some(AgentMessage(w.mint, c.text.value)) else None,
                                            c.extra, c.metadata)))
    ensures InHandler(w, i) ==>
              var ctx := w.actors[i].ctx;
              Step(w, Act(i, c, now)) ==
              w.(actors := w.actors[i := Worker(ctx.(pending := []), Writing(op, ctx.pending))],
                 mint := if c.DoFlush? then w.mint else w.mint + 1)
  {
  }

  lemma OpFields(t: Task, op: Op, taken: seq<ArtifactWrite>, v: nat, now: nat, after: Task)
    requires Applied(t, OpUpdate(op, taken).(expected := Some(v)), now, after)
    ensures ArtifactsApplied(t.artifacts, taken + if op.OpLifecycle? then op.extra else [], after.artifacts)
    ensures op.OpFlush? ==> after.status == t.status && after.history == t.history
    ensures op.OpStatus? ==>
              after.history == t.history && after.status.state == t.status.state && after.status.message == Some(op.progress)
    ensures op.OpLifecycle? ==>
              && after.status.state == op.state && after.status.message == op.message
              && after.history == t.history + (if op.message.Some? then [op.message.value] else [])
              && MetadataApplied(t.metadata, op.metadata, after.metadata)
  {
    assert taken + [] == taken && t.history + [] == t.history;
  }

  /** The call and its write, two steps. */
  lemma CallLands(w: World, i: nat, c: Choice, op: Op, now: nat)
    requires InHandler(w, i)
    requires Step(w, Act(i, c, now)) ==
             w.(actors := w.actors[i := Worker(w.actors[i].ctx.(pending := []), Writing(op, w.actors[i].ctx.pending))],
                mint := if c.DoFlush? then w.mint else w.mint + 1)
    requires op.OpLifecycle? ==> !Terminal(Current(w).status.state)
    ensures var r := Step(Step(w, Act(i, c, now)), Act(i, NEXT, now));
            && |r.commits| == |w.commits| + 1 && w.commits <= r.commits && r.commits[|w.commits|].writer == i
            && Applied(Current(w), OpUpdate(op, w.actors[i].ctx.pending).(expected := Some(|w.commits|)), now, Current(r))
            && i < |r.actors| && r.actors[i] == OpSucceeded(i, |w.commits|, w.actors[i].ctx.(pending := []), op) && r.bus == w.bus
  {
    AttemptLands(Step(w, Act(i, c, now)), i, w.actors[i].ctx.(pending := []), op, w.actors[i].ctx.pending, now);
  }

  /** A flush writes the buffer, and changes neither status nor history. */
  lemma FlushLands(w: World, i: nat, now: nat)
    requires InHandler(w, i) && w.actors[i].ctx.pending != []
    ensures var r := Step(Step(w, Act(i, DoFlush, now)), Act(i, NEXT, now));
            && Landed(w, r, i, []) && r.actors[i].wpc.Idle? && r.bus == w.bus
            && Current(r).status == Current(w).status && Current(r).history == Current(w).history
            && r.actors[i].ctx.turnEnded == w.actors[i].ctx.turnEnded
  {
    Calls(w, i, DoFlush, OpFlush, now);
    CallLands(w, i, DoFlush, OpFlush, now);
    var r := Step(Step(w, Act(i, DoFlush, now)), Act(i, NEXT, now));
    OpFields(Current(w), OpFlush, w.actors[i].ctx.pending, |w.commits|, now, Current(r));
  }

  /** An emitted chunk is streamed first, and buffered behind the others a step later. */
  lemma EmitLands(w: World, i: nat, aw: ArtifactWrite, now: nat)
    requires |w.commits| > 0 && i < |w.actors| && w.actors[i].Worker? && w.actors[i].wpc.Idle? && !w.actors[i].ctx.turnEnded
    ensures var streamed := Step(w, Act(i, Emit(aw), now));
            var r := Step(streamed, Act(i, NEXT, now));
            && streamed.bus == w.bus + [Chunk(i, aw, false)] && r.bus == streamed.bus && r.commits == w.commits
            && r.actors[i].Worker? && r.actors[i].wpc.Idle? && !r.actors[i].ctx.turnEnded
            && r.actors[i].ctx.pending == w.actors[i].ctx.pending + [aw]
  {
    var streamed := Step(w, Act(i, Emit(aw), now));
    assert streamed.actors[i] == Worker(w.actors[i].ctx, Buffering(aw));
  }

  /** A progress message is shown with the state as it is, stays out of the history, and is announced. */
  lemma ProgressLands(w: World, i: nat, text: string, now: nat)
    requires InHandler(w, i) && !w.actors[i].ctx.turnEnded
    ensures var r := Step(Step(w, Act(i, DoStatus(Some(text)), now)), Act(i, NEXT, now));
            && Landed(w, r, i, []) && Current(r).history == Current(w).history
            && Current(r).status.state == Current(w).status.state
            && Current(r).status.message.Some? && Current(r).status.message.value.role == Agent
            && Current(r).status.message.value.texts == [text]
            && !r.actors[i].ctx.turnEnded && r.bus == w.bus && Step(r, Act(i, NEXT, now)).bus == w.bus + [Progress(i)]
  {
    var op := OpStatus(AgentMessage(w.mint, text));
    Calls(w, i, DoStatus(Some(text)), op, now);
    CallLands(w, i, DoStatus(Some(text)), op, now);
    var r := Step(Step(w, Act(i, DoStatus(Some(text)), now)), Act(i, NEXT, now));
    OpFields(Current(w), op, w.actors[i].ctx.pending, |w.commits|, now, Current(r));
    TellsLast(r, i, Progress(i), now);
  }

  /** Without a text there is nothing to store, and the same announcement. */
  lemma BareProgress(w: World, i: nat, now: nat)
    requires InHandler(w, i) && !w.actors[i].ctx.turnEnded
    ensures var r := Step(w, Act(i, DoStatus(None), now));
            r.bus == w.bus + [Progress(i)] && r.commits == w.commits && r.actors == w.actors
  {
    assert w.actors[i] == Worker(w.actors[i].ctx, Idle);
    assert w.actors[i := w.actors[i]] == w.actors;
  }

  lemma TellsLast(w: World, i: nat, event: BusEvent, now: nat)
    requires |w.commits| > 0 && i < |w.actors| && w.actors[i].Worker? && w.actors[i].wpc == Telling([], event)
    ensures Step(w, Act(i, NEXT, now)) == w.(actors := w.actors[i := Worker(w.actors[i].ctx, Idle)], bus := w.bus + [event])
  {
  }

  /** What a lifecycle call of worker i leaves on the task. */
  ghost predicate Concludes(before: Task, after: Task, s: TaskState, text: Option<string>, metadata: map<string, string>) {
    && after.status.state == s
    && (text.None? ==> after.status.message.None? && after.history == before.history)
    && (text.Some? ==>
          && after.status.message.Some? && after.status.message.value.role == Agent
          && after.status.message.value.texts == [text.value]
          && after.history == before.history + [after.status.message.value])
    && MetadataApplied(before.metadata, metadata, after.metadata)
  }

  lemma LifecycleCommits(w: World, i: nat, s: TaskState, text: Option<string>, extra: seq<ArtifactWrite>,
                         metadata: map<string, string>, now: nat)
    requires InHandler(w, i) && !w.actors[i].ctx.turnEnded && !Terminal(Current(w).status.state) && LifecycleState(s)
    ensures var r := Step(Step(w, Act(i, DoLifecycle(s, text, extra, metadata), now)), Act(i, NEXT, now));
            && Landed(w, r, i, extra) && Concludes(Current(w), Current(r), s, text, metadata)
            && r.actors[i].ctx.turnEnded && r.bus == w.bus
            && r.actors[i].wpc == Telling(PreEvents(i, extra, metadata), Marker(s, i, |w.commits|))
  {
    var op := OpLifecycle(s, if text.Some? then Some(AgentMessage(w.mint, text.value)) else None, extra, metadata);
    Calls(w, i, DoLifecycle(s, text, extra, metadata), op, now);
    CallLands(w, i, DoLifecycle(s, text, extra, metadata), op, now);
    var r := Step(Step(w, Act(i, DoLifecycle(s, text, extra, metadata), now)), Act(i, NEXT, now));
    OpFields(Current(w), op, w.actors[i].ctx.pending, |w.commits|, now, Current(r));
    assert Current(w).history + [] == Current(w).history;
  }

  lemma TellsNext(w: World, i: nat, before: seq<BusEvent>, event: BusEvent, now: nat)
    requires |w.commits| > 0 && i < |w.actors| && w.actors[i].Worker? && w.actors[i].wpc == Telling(before, event) && before != []
    ensures Step(w, Act(i, NEXT, now)) ==
            w.(actors := w.actors[i := Worker(w.actors[i].ctx, Telling(before[1..], event))], bus := w.bus + [before[0]])
  {
  }

  /** The world once n of the events have been published. */
  ghost function ToldSome(w: World, i: nat, before: seq<BusEvent>, event: BusEvent, n: nat): World
    requires i < |w.actors| && w.actors[i].Worker? && n <= |before|
  {
    w.(actors := w.actors[i := Worker(w.actors[i].ctx, Telling(before[n..], event))], bus := w.bus + before[..n])
  }

  lemma TellsOne(w: World, i: nat, before: seq<BusEvent>, event: BusEvent, n: nat, now: nat)
    requires |w.commits| > 0 && i < |w.actors| && w.actors[i].Worker? && n < |before|
    ensures Step(ToldSome(w, i, before, event, n), Act(i, NEXT, now)) == ToldSome(w, i, before, event, n + 1)
  {
    TellsNext(ToldSome(w, i, before, event, n), i, before[n..], event, now);
    assert before[n..][0] == before[n] && before[n..][1..] == before[n + 1..];
    assert w.bus + before[..n] + [before[n]] == w.bus + before[..n + 1];
  }

  lemma ToldNone(w: World, i: nat, before: seq<BusEvent>, event: BusEvent)
    requires i < |w.actors| && w.actors[i].Worker? && w.actors[i].wpc == Telling(before, event)
    ensures ToldSome(w, i, before, event, 0) == w
  {
    assert before[0..] == before && w.bus + before[..0] == w.bus;
    assert w.actors[i := w.actors[i]] == w.actors;
  }

  lemma GosNext(w: World, i: nat, n: nat, now: nat, m: World)
    requires |w.commits| > 0 && Run(w, Gos(i, n, now)) == m
    ensures |m.commits| > 0 && Run(w, Gos(i, n + 1, now)) == Step(m, Act(i, NEXT, now))
  {
    RunSnoc(w, Gos(i, n, now), Act(i, NEXT, now));
  }

  lemma {:induction false} TellsSome(w: World, i: nat, before: seq<BusEvent>, event: BusEvent, n: nat, now: nat)
    requires |w.commits| > 0 && i < |w.actors| && w.actors[i].Worker? && w.actors[i].wpc == Telling(before, event)
    requires n <= |before|
    ensures Run(w, Gos(i, n, now)) == ToldSome(w, i, before, event, n)
    decreases n
  {
    if n == 0 {
      ToldNone(w, i, before, event);
    } else {
      var m := ToldSome(w, i, before, event, n - 1);
      assert Run(w, Gos(i, n - 1, now)) == m by { TellsSome(w, i, before, event, n - 1, now); }
      GosNext(w, i, n - 1, now, m);
      TellsOne(w, i, before, event, n - 1, now);
    }
  }

  lemma {:induction false} Tells(w: World, i: nat, before: seq<BusEvent>, event: BusEvent, now: nat)
    requires |w.commits| > 0 && i < |w.actors| && w.actors[i].Worker? && w.actors[i].wpc == Telling(before, event)
    ensures var r := Run(w, Gos(i, |before| + 1, now));
            && r.commits == w.commits && r.actors == w.actors[i := Worker(w.actors[i].ctx, Idle)]
            && r.bus == w.bus + before + [event]
  {
    TellsSome(w, i, before, event, |before|, now);
    GosNext(w, i, |before|, now, ToldSome(w, i, before, event, |before|));
    assert before[..|before|] == before && before[|before|..] == [];
    TellsLast(ToldSome(w, i, before, event, |before|), i, event, now);
  }

  /** The bus gains a chunk for each artifact of the call, or its direct reply, and then the marker. */
  ghost predicate ToldInFull(bus: seq<BusEvent>, after: seq<BusEvent>, i: nat, extra: seq<ArtifactWrite>, reply: bool, marker: BusEvent) {
    var n := if reply then 1 else |extra|;
    && |after| == |bus| + n + 1 && bus <= after && after[|bus| + n] == marker
    && (if reply then after[|bus|] == Reply(i) else forall j :: 0 <= j < n ==> after[|bus| + j] == Chunk(i, extra[j], true))
  }

  lemma PreEventsTell(bus: seq<BusEvent>, i: nat, extra: seq<ArtifactWrite>, metadata: map<string, string>, marker: BusEvent)
    ensures ToldInFull(bus, bus + PreEvents(i, extra, metadata) + [marker], i, extra, DIRECT_REPLY_KEY in metadata, marker)
  {
  }

  /** A lifecycle call commits state, message, artifacts and metadata at once, and when its steps are through it has
      published a chunk for each artifact of its own, or its direct reply, and then the one closing marker. */
  lemma {:induction false} LifecycleLands(w: World, i: nat, s: TaskState, text: Option<string>, extra: seq<ArtifactWrite>,
                                          metadata: map<string, string>, now: nat)
    requires InHandler(w, i) && !w.actors[i].ctx.turnEnded && !Terminal(Current(w).status.state) && LifecycleState(s)
    ensures var done := Step(Step(w, Act(i, DoLifecycle(s, text, extra, metadata), now)), Act(i, NEXT, now));
            var told := Run(done, Gos(i, (if DIRECT_REPLY_KEY in metadata then 1 else |extra|) + 1, now));
            && Landed(w, done, i, extra) && Concludes(Current(w), Current(done), s, text, metadata) && done.bus == w.bus
            && told.commits == done.commits && told.actors == done.actors[i := Worker(done.actors[i].ctx, Idle)]
            && done.actors[i].ctx.turnEnded
            && ToldInFull(w.bus, told.bus, i, extra, DIRECT_REPLY_KEY in metadata, Marker(s, i, |w.commits|))
  {
    LifecycleCommits(w, i, s, text, extra, metadata, now);
    var done := Step(Step(w, Act(i, DoLifecycle(s, text, extra, metadata), now)), Act(i, NEXT, now));
    var before, marker := PreEvents(i, extra, metadata), Marker(s, i, |w.commits|);
    Tells(done, i, before, marker, now);
    PreEventsTell(w.bus, i, extra, metadata, marker);
  }

  /** A flush or progress write that loses its retry as well knows the version that beat it, at once or after one
      more read, so the next write is not refused for its sake. */
  lemma SkipCatchesUp(w: World, i: nat, ctx: Ctx, op: Op, taken: seq<ArtifactWrite>, v: nat, c: Choice, later: World)
    requires |w.commits| > 0 && |w.commits| <= |later.commits| && !op.OpLifecycle? && !c.Abort?
    requires var o := Try(w, OpUpdate(op, taken).(expected := Some(v)), c); o.VersionConflict?
    ensures var a := AttemptStep(w, i, ctx, op, taken, v, true, c).actor;
            && a.Worker? && a.ctx.pending == taken + ctx.pending
            && if a.wpc.Idle? then a.ctx.version == |w.commits|
               else a.wpc.Refreshing? && |w.commits| <= WorkerStep(later, i, a, NEXT).actor.ctx.version
  {
  }

  // ----- The end of a turn -----

  /** This step makes actor i finish the task: a cancel is noticed before the handler starts or interrupts it, or the
      handler raises with its turn still open. */
  ghost predicate Breaks(w: World, e: Event, i: nat) {
    && e.Act? && e.i == i && i < |w.actors| && w.actors[i].Worker?
    && (|| (w.actors[i].wpc.Starting? && e.choice.CancelSeen?)
        || (w.actors[i].wpc.Idle? && e.choice.CancelFired?)
        || (w.actors[i].wpc.Idle? && e.choice.RaiseOther? && !w.actors[i].ctx.turnEnded))
  }

  /** What the worker then makes of the task. */
  ghost function Goal(e: Event): TaskState { if e.Act? && e.choice.RaiseOther? then Failed else Canceled }

  /** The states actor i has written since there were `base` commits are all this one. */
  ghost predicate WroteOnly(cs: seq<Commit>, i: nat, base: nat, goal: TaskState) {
    forall k :: base <= k < |cs| && cs[k].writer == i && cs[k].update.state.Some? ==> cs[k].update.state.value == goal
  }

  /** What has become of a turn broken off when there were `base` commits. */
  ghost predicate BrokenOff(w: World, i: nat, base: nat, goal: TaskState) {
    && i < |w.actors| && base <= |w.commits| && WroteOnly(w.commits, i, base, goal)
    && match w.actors[i]
       case Gone => true
       case Finisher(target, _, _, _, from, _) => base <= from && target == goal
       case Worker(_, pc) =>
         (pc.PreCancel? && goal == Canceled) || (pc.Ended? && |w.commits| > 0 && Terminal(Current(w).status.state))
       case _ => false
  }

  lemma BreakStep(w: World, e: Event, i: nat)
    requires |w.commits| > 0 && Breaks(w, e, i)
    ensures BrokenOff(Step(w, e), i, |w.commits|, Goal(e))
    ensures Left(Step(w, e).actors[i]) <= 8
  {
  }

  lemma BrokenStays(w: World, e: Event, i: nat, base: nat, goal: TaskState)
    requires Inv(w) && BrokenOff(w, i, base, goal)
    ensures BrokenOff(Step(w, e), i, base, goal)
  {
    StepExtends(w, e);
    StoredStays(w, e, Minted(0));
    if e.Act? && e.i == i && w.actors[i].Finisher? && !e.choice.Crash? {
      FinisherKeepsBase(w, i, w.actors[i], e.choice);
    }
    BrokenWrites(w, e, i, base, goal);
  }

  lemma BrokenWrites(w: World, e: Event, i: nat, base: nat, goal: TaskState)
    requires |w.commits| > 0 && BrokenOff(w, i, base, goal)
    ensures WroteOnly(Step(w, e).commits, i, base, goal)
  {
    var w' := Step(w, e);
    StepExtends(w, e);
    NewCommit(w, e);
    assert forall k :: 0 <= k < |w.commits| ==> w'.commits[k] == w.commits[k];
    if e.Act? && e.i == i && w.actors[i].Finisher? && !e.choice.Crash? {
      FinisherWritesTarget(w, i, w.actors[i], e.choice);
    }
  }

  lemma FinisherWritesTarget(w: World, i: nat, a: Actor, c: Choice)
    requires |w.commits| > 0 && a.Finisher?
    ensures var u := FinisherStep(w, i, a, c).write; u.Some? && u.value.state.Some? ==> u.value.state.value == a.target
  {
  }

  lemma FinisherKeepsBase(w: World, i: nat, a: Actor, c: Choice)
    requires |w.commits| > 0 && a.Finisher?
    ensures FinisherStep(w, i, a, c).actor == a.(npc := FinisherStep(w, i, a, c).actor.npc)
  {
  }

  lemma {:induction false} OthersAdd(cs: seq<Commit>, base: nat, from: nat, i: nat)
    requires base <= from
    ensures OthersSince(cs, from, i) <= OthersSince(cs, base, i)
    decreases |cs|
  {
    if |cs| > base { OthersAdd(cs[..|cs| - 1], base, from, i); }
  }

  lemma {:induction false} BrokenRun(w: World, before: seq<Event>, e: Event, more: seq<Event>, i: nat)
    requires Initial(w) && Breaks(Run(w, before), e, i)
    ensures BrokenOff(Run(w, before + [e] + more), i, |Run(w, before).commits|, Goal(e))
    decreases |more|
  {
    var all := before + [e] + more;
    if more == [] {
      assert all == before + [e];
      RunSnoc(w, before, e);
      BreakStep(Run(w, before), e, i);
    } else {
      var n := |more| - 1;
      BrokenRun(w, before, e, more[..n], i);
      assert all == (before + [e] + more[..n]) + [more[n]];
      RunSnoc(w, before + [e] + more[..n], more[n]);
      RunKeepsInv(w, before + [e] + more[..n]);
      BrokenStays(Run(w, before + [e] + more[..n]), more[n], i, |Run(w, before).commits|, Goal(e));
    }
  }

  /** A cancel or an error is not swallowed: once the worker it reached has come to its end, the task is terminal, or
      at least two other writes were committed since; and the only state that worker wrote since is canceled after a
      cancel, failed after an error. */
  lemma BreakHonoured(w: World, before: seq<Event>, e: Event, more: seq<Event>, i: nat)
    requires Initial(w) && Breaks(Run(w, before), e, i)
    requires var r := Run(w, before + [e] + more); i < |r.actors| && !r.actors[i].Gone? && Left(r.actors[i]) == 0
    ensures var r := Run(w, before + [e] + more);
            && (Terminal(Current(r).status.state) || OthersSince(r.commits, |Run(w, before).commits|, i) >= 2)
            && WroteOnly(r.commits, i, |Run(w, before).commits|, Goal(e))
  {
    var r := Run(w, before + [e] + more);
    BrokenRun(w, before, e, more, i);
    if r.actors[i].Finisher? {
      GivesUpOnlyAfterTwoWrites(w, before + [e] + more, i);
      OthersAdd(r.commits, |Run(w, before).commits|, r.actors[i].base, i);
    }
  }

  /** This step is the handler's last: it returns or raises, or a cancel breaks it off. */
  ghost predicate Leaves(w: World, e: Event, i: nat) {
    && e.Act? && e.i == i && i < |w.actors| && w.actors[i].Worker? && w.actors[i].wpc.Idle?
    && ((e.choice.Return? && w.actors[i].ctx.turnEnded) || e.choice.CancelFired? || e.choice.RaiseTerminal? || e.choice.RaiseOther?)
  }

  /** The turn is over, or a helper finishes it. */
  ghost predicate Leaving(a: Actor) {
    Helper(a) || (a.Worker? && (a.wpc.Draining? || a.wpc.Dropped? || a.wpc.Ended?))
  }

  lemma LeaveStep(w: World, e: Event, i: nat)
    requires |w.commits| > 0 && Leaves(w, e, i)
    ensures Leaving(Step(w, e).actors[i])
  {
  }

  lemma LeavingStep(w: World, e: Event, i: nat)
    requires |w.commits| > 0 && i < |w.actors| && Leaving(w.actors[i])
    ensures i < |Step(w, e).actors| && Leaving(Step(w, e).actors[i])
    ensures Left(w.actors[i]) == 0 ==> Left(Step(w, e).actors[i]) == 0
  {
    if Helper(w.actors[i]) { HelperStep(w, e, i); }
  }

  lemma {:induction false} LeavingRun(w: World, more: seq<Event>, i: nat)
    requires |w.commits| > 0 && i < |w.actors| && Leaving(w.actors[i])
    ensures var r := Run(w, more);
            i < |r.actors| && Leaving(r.actors[i]) && (Left(r.actors[i]) == 0 || Left(r.actors[i]) + Turns(more, i) <= Left(w.actors[i]))
    decreases |more|
  {
    if more != [] {
      var n := |more| - 1;
      LeavingRun(w, more[..n], i);
      LeavingStep(Run(w, more[..n]), more[n], i);
      if Left(Run(w, more[..n]).actors[i]) > 0 { StepLeaves(Run(w, more[..n]), more[n], i); }
    }
  }

  /** However the handler is left, seven steps later, counting only its own, the turn is over for good. */
  lemma {:induction false} TurnIsOver(w: World, e: Event, more: seq<Event>, i: nat)
    requires |w.commits| > 0 && Leaves(w, e, i) && Turns(more, i) >= 7
    ensures var r := Run(Step(w, e), more);
            && i < |r.actors|
            && match r.actors[i]
               case Gone => true
               case Finisher(_, _, _, _, _, pc) => pc.NDone?
               case Worker(_, pc) => pc.Ended? || pc.Dropped?
               case _ => false
  {
    LeaveStep(w, e, i);
    LeavingRun(Step(w, e), more, i);
    NotSubmitter(w, e, i);
    KeepsKind(Step(w, e), more, i);
  }

  lemma NotSubmitter(w: World, e: Event, i: nat)
    requires |w.commits| > 0 && Leaves(w, e, i)
    ensures var a := Step(w, e).actors[i]; a.Gone? || a.Finisher? || a.Worker?
    ensures Left(Step(w, e).actors[i]) <= 7
  {
  }

  lemma {:induction false} KeepsKind(w: World, more: seq<Event>, i: nat)
    requires |w.commits| > 0 && i < |w.actors| && Leaving(w.actors[i])
    requires w.actors[i].Gone? || w.actors[i].Finisher? || w.actors[i].Worker?
    ensures var r := Run(w, more); i < |r.actors| && (r.actors[i].Gone? || r.actors[i].Finisher? || r.actors[i].Worker?)
    decreases |more|
  {
    if more != [] {
      var n := |more| - 1;
      KeepsKind(w, more[..n], i);
      LeavingRun(w, more[..n], i);
      KindStep(Run(w, more[..n]), more[n], i);
    }
  }

  lemma KindStep(w: World, e: Event, i: nat)
    requires |w.commits| > 0 && i < |w.actors| && Leaving(w.actors[i])
    requires w.actors[i].Gone? || w.actors[i].Finisher? || w.actors[i].Worker?
    ensures var b := Step(w, e).actors[i]; b.Gone? || b.Finisher? || b.Worker?
  {
    if e.Act? && e.i == i && w.actors[i].Finisher? { FinisherBearsNone(w, i, w.actors[i], e.choice); }
  }

  // ----- After the turn has ended -----

  /** The turn has ended, and whatever the worker still writes is its buffer. */
  ghost predicate OnlyFlushes(a: Actor) {
    || a.Gone?
    || (a.Worker? && a.ctx.turnEnded
        && match a.wpc
           case Starting => false
           case PreCancel => false
           case ToWorking => false
           case Writing(op, _) => op.OpFlush?
           case Reloading(op, _, _) => op.OpFlush?
           case Rereading(op, _) => op.OpFlush?
           case Retrying(op, _, _) => op.OpFlush?
           case _ => true)
  }

  lemma FlushAttempt(w: World, i: nat, ctx: Ctx, taken: seq<ArtifactWrite>, v: nat, retry: bool, c: Choice)
    requires |w.commits| > 0 && ctx.turnEnded
    ensures var eff := AttemptStep(w, i, ctx, OpFlush, taken, v, retry, c);
            OnlyFlushes(eff.actor) && (eff.write.Some? ==> !CarriesStatus(eff.write.value))
  {
  }

  lemma EndedIdle(w: World, i: nat, ctx: Ctx, c: Choice)
    requires |w.commits| > 0 && ctx.turnEnded && !c.CancelFired?
    ensures OnlyFlushes(IdleStep(w, i, ctx, c).actor) && IdleStep(w, i, ctx, c).write.None?
  {
  }

  lemma RestFlushes(w: World, i: nat, a: Actor, c: Choice)
    requires |w.commits| > 0 && a.Worker? && OnlyFlushes(a) && !a.wpc.Idle? && !a.wpc.Writing? && !a.wpc.Retrying?
    ensures var eff := WorkerStep(w, i, a, c);
            OnlyFlushes(eff.actor) && (eff.write.Some? ==> !CarriesStatus(eff.write.value))
  {
  }

  lemma FlushesOn(w: World, i: nat, a: Actor, c: Choice)
    requires |w.commits| > 0 && OnlyFlushes(a) && !c.CancelFired?
    ensures var eff := Local(w, i, a, c);
            OnlyFlushes(eff.actor) && (eff.write.Some? ==> !CarriesStatus(eff.write.value))
  {
    if a.Worker? && !c.Crash? {
      match a.wpc
      case Idle => EndedIdle(w, i, a.ctx, c);
      case Writing(_, taken) => FlushAttempt(w, i, a.ctx, taken, a.ctx.version, false, c);
      case Retrying(_, taken, v) => FlushAttempt(w, i, a.ctx, taken, v, true, c);
      case _ => RestFlushes(w, i, a, c);
    }
  }

  /** None of actor i's commits from one on touches the status. */
  ghost predicate LeavesStatus(cs: seq<Commit>, from: nat, i: nat) {
    forall k :: from <= k < |cs| && cs[k].writer == i ==> !CarriesStatus(cs[k].update)
  }

  lemma QuietStep(w: World, e: Event, i: nat, from: nat)
    requires |w.commits| > 0 && i < |w.actors| && OnlyFlushes(w.actors[i]) && LeavesStatus(w.commits, from, i)
    requires e.Act? && e.i == i ==> !e.choice.CancelFired?
    ensures var w' := Step(w, e); i < |w'.actors| && OnlyFlushes(w'.actors[i]) && LeavesStatus(w'.commits, from, i)
  {
    StepExtends(w, e);
    assert forall k :: 0 <= k < |w.commits| ==> Step(w, e).commits[k] == w.commits[k];
    if e.Act? && e.i == i { FlushesOn(w, i, w.actors[i], e.choice); } else { NewCommit(w, e); }
  }

  /** Once a lifecycle call has ended the turn, nothing the handler does or raises touches the status any more: only
      a cancel that breaks it off can. */
  lemma {:induction false} EndedTurnStays(w: World, more: seq<Event>, i: nat)
    requires |w.commits| > 0 && i < |w.actors| && w.actors[i].Worker? && w.actors[i].wpc.Idle? && w.actors[i].ctx.turnEnded
    requires forall n :: 0 <= n < |more| && more[n].Act? && more[n].i == i ==> !more[n].choice.CancelFired?
    ensures i < |Run(w, more).actors| && OnlyFlushes(Run(w, more).actors[i])
    ensures LeavesStatus(Run(w, more).commits, |w.commits|, i)
    decreases |more|
  {
    if more != [] {
      var n := |more| - 1;
      EndedTurnStays(w, more[..n], i);
      QuietStep(Run(w, more[..n]), more[n], i, |w.commits|);
    }
  }
}
