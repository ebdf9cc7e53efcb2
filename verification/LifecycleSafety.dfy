/**
 What every interleaving of the lifecycle keeps: the shape of the transition log, distinct
 message ids, pinned decisions, and what each actor knows about the commits it made.
 */
module LifecycleSafety {
  import opened Tasks
  import opened Lifecycle

  // ----- The commit sequence -----

  ghost predicate Fresh(history: seq<Message>, messages: seq<Message>) {
    |messages| <= 1 && (|messages| == 1 ==> !Contains(history, messages[0].id))
  }

  /** A status message is an agent's; shown with a new state it is said in the history as well, and a
      cancel has one. */
  ghost predicate Speaks(u: Update) {
    && (u.statusMessage.Some? ==> u.statusMessage.value.role == Agent)
    && (u.state.Some? && u.statusMessage.Some? ==> u.messages == [u.statusMessage.value])
    && (u.state == Some(Canceled) ==> u.statusMessage.Some?)
  }

  /** The rules an update must respect on the task it is merged onto. */
  ghost predicate Allowed(before: Task, u: Update) {
    && (u.state.Some? ==> !Terminal(before.status.state))
    && (u.state == Some(Submitted) ==> Interrupted(before.status.state))
    && Fresh(before.history, u.messages)
    && Speaks(u)
  }

  /** A commit is the merge of an allowed update onto exactly the task it replaces. */
  ghost predicate ValidCommit(before: Task, c: Commit) {
    c.task == Merge(before, c.update, c.now) && Allowed(before, c.update)
  }

  ghost predicate ValidCommits(cs: seq<Commit>) {
    && |cs| >= 1
    && LogShape(cs[0].task)
    && DistinctIds(cs[0].task.history)
    && (forall k :: 1 <= k < |cs| ==> ValidCommit(cs[k - 1].task, cs[k]))
  }

  // ----- What an actor knows -----

  /** A version read before the load pins the load: if nothing was committed since, the loaded task
      is the current one. */
  ghost predicate Pinned(cs: seq<Commit>, v: nat, loaded: Task) {
    1 <= v <= |cs| && (v == |cs| ==> loaded == cs[v - 1].task)
  }

  ghost predicate Made(cs: seq<Commit>, i: nat, k: nat, s: TaskState) {
    1 <= k < |cs| && cs[k].writer == i && cs[k].update.state == Some(s)
  }

  ghost predicate FollowUpOk(cs: seq<Commit>, i: nat, msg: Message, pc: FollowUpPc) {
    && msg.id.Client?
    && match pc
       case FLoad(v) => 1 <= v <= |cs|
       case FWrite(v, loaded) =>
         Pinned(cs, v, loaded) && !Refuses(msg, loaded) && !Contains(loaded.history, msg.id)
       case FAnnounce(k) => Accepted(cs, i, msg, k) && Made(cs, i, k, Submitted)
       case FAccepted(k) => Accepted(cs, i, msg, k)
       case _ => true
  }

  /** Commit k is this submitter's, and its update was decided on exactly the task it replaced. */
  ghost predicate Accepted(cs: seq<Commit>, i: nat, msg: Message, k: nat) {
    && 1 <= k < |cs|
    && cs[k].writer == i
    && !Refuses(msg, cs[k - 1].task)
    && cs[k].update == FollowUpUpdate(msg, k, cs[k - 1].task)
  }

  ghost predicate EnqueueOk(cs: seq<Commit>, i: nat, pc: EnqueuePc) {
    match pc
    case ELoad(v) => 1 <= v <= |cs|
    case EWrite(v, loaded) => Pinned(cs, v, loaded) && loaded.status.state == Submitted
    case EReload(k) => Made(cs, i, k, Failed) && cs[k - 1].task.status.state == Submitted
    case EAnnounce(k, s) => s == Failed && Made(cs, i, k, Failed) && cs[k - 1].task.status.state == Submitted
    case _ => true
  }

  ghost predicate FinisherOk(cs: seq<Commit>, i: nat, a: Actor)
    requires a.Finisher?
  {
    && (a.target == Canceled || a.target == Failed)
    && a.base <= |cs|
    && match a.npc
       case NLoad(v) => a.base <= v <= |cs|
       case NWrite(v) => a.base <= v <= |cs|
       case NLoad2(v) => a.base <= v <= |cs|
       case NWrite2(v) => a.base <= v <= |cs|
       case NAnnounce(k) => Made(cs, i, k, a.target)
       case _ => true
  }

  ghost predicate TellingOk(cs: seq<Commit>, i: nat, before: seq<BusEvent>, event: BusEvent) {
    && (forall j :: 0 <= j < |before| ==> before[j] == Reply(i) || (before[j].Chunk? && before[j].writer == i && before[j].closing))
    && match event
       case Progress(j) => true
       case Marker(s, j, k) => j == i && LifecycleState(s) && Made(cs, i, k, s)
       case Transitioned(s, j, k) => j == i && s == TaskState.Working && Made(cs, i, k, s)
       case _ => false
  }

  ghost predicate OpOk(op: Op) {
    match op
    case OpFlush => true
    case OpStatus(m) => m.id.Minted? && m.role == Agent
    case OpLifecycle(s, m, _, _) => LifecycleState(s) && (m.Some? ==> m.value.id.Minted? && m.value.role == Agent)
  }

  /** The last clause is the point of reloading between the attempts: a retry that would touch the
      status is pinned to a version that was not terminal. */
  ghost predicate WorkerOk(withholds: bool, cs: seq<Commit>, i: nat, ctx: Ctx, pc: WorkerPc) {
    && (!pc.Starting? && !pc.PreCancel? && !pc.ToWorking? && !pc.Ended? ==> 1 <= ctx.version <= |cs|)
    && match pc
       case Telling(before, event) => TellingOk(cs, i, before, event)
       case Writing(op, _) => OpOk(op)
       case Reloading(op, _, current) =>
         OpOk(op) && (current.Some? ==> 1 <= current.value <= |cs|) && (!withholds ==> current.Some?)
       case Rereading(op, _) => OpOk(op) && withholds
       case Retrying(op, taken, v) =>
         && OpOk(op)
         && 1 <= v <= |cs|
         && (!withholds && CarriesStatus(OpUpdate(op, taken)) ==> !Terminal(cs[v - 1].task.status.state))
       case _ => true
  }

  ghost predicate ActorOk(withholds: bool, cs: seq<Commit>, i: nat, a: Actor) {
    match a
    case FollowUp(msg, pc) => FollowUpOk(cs, i, msg, pc)
    case EnqueueFailed(_, pc) => EnqueueOk(cs, i, pc)
    case Finisher(_, _, _, _, _, _) => FinisherOk(cs, i, a)
    case Worker(ctx, pc) => WorkerOk(withholds, cs, i, ctx, pc)
    case _ => true
  }

  // ----- Minted ids -----

  ghost function MintOf(m: Message): set<nat> {
    if m.id.Minted? then {m.id.n} else {}
  }

  ghost function OpMints(op: Op): set<nat> {
    match op
    case OpFlush => {}
    case OpStatus(m) => MintOf(m)
    case OpLifecycle(_, m, _, _) => if m.Some? then MintOf(m.value) else {}
  }

  /** The minted ids an actor may still commit. */
  ghost function Held(a: Actor): set<nat> {
    match a
    case EnqueueFailed(n, pc) => if pc.EReload? || pc.EAnnounce? || pc.EDone? then {} else {n}
    case Finisher(_, n, _, _, _, pc) => if pc.NAnnounce? || pc.NDone? || pc.NFallback? then {} else {n}
    case Worker(_, pc) =>
      (match pc
       case Writing(op, _) => OpMints(op)
       case Reloading(op, _, _) => OpMints(op)
       case Rereading(op, _) => OpMints(op)
       case Retrying(op, _, _) => OpMints(op)
       case _ => {})
    case _ => {}
  }

  /** Every minted id in the history is below the counter; ids still held are unused and held once. */
  ghost predicate MintsOk(history: seq<Message>, actors: seq<Actor>, mint: nat) {
    && (forall n: nat :: Contains(history, Minted(n)) ==> n < mint)
    && (forall i, n: nat {:trigger n in Held(actors[i])} :: 0 <= i < |actors| && n in Held(actors[i]) ==> n < mint && !Contains(history, Minted(n)))
    && (forall i, j, n: nat :: 0 <= i < |actors| && 0 <= j < |actors| && n in Held(actors[i]) && n in Held(actors[j]) ==> i == j)
  }

  ghost predicate Inv(w: World) {
    && ValidCommits(w.commits)
    && (forall i :: 0 <= i < |w.actors| ==> ActorOk(w.withholds, w.commits, i, w.actors[i]))
    && MintsOk(Current(w).history, w.actors, w.mint)
  }

  // ----- Consequences for a commit sequence -----

  /** The task never leaves a terminal state, and its log and history only grow. */
  lemma {:induction false} Later(cs: seq<Commit>, j: nat, k: nat)
    requires ValidCommits(cs) && j <= k < |cs|
    ensures Terminal(cs[j].task.status.state) ==> cs[k].task.status.state == cs[j].task.status.state
    ensures cs[j].task.log <= cs[k].task.log
    ensures cs[j].task.history <= cs[k].task.history
    decreases k - j
  {
    if j < k {
      Later(cs, j, k - 1);
      assert ValidCommit(cs[k - 1].task, cs[k]);
    }
  }

  lemma ContainsAppend(history: seq<Message>, m: Message, id: MessageId)
    ensures Contains(history + [m], id) <==> Contains(history, id) || m.id == id
  {
    var h := history + [m];
    if Contains(history, id) {
      var j :| 0 <= j < |history| && history[j].id == id;
      assert h[j].id == id;
    }
    if m.id == id { assert h[|history|].id == id; }
  }

  lemma {:induction false} TaskShape(cs: seq<Commit>, k: nat)
    requires ValidCommits(cs) && k < |cs|
    ensures LogShape(cs[k].task) && DistinctIds(cs[k].task.history)
  {
    if k > 0 {
      TaskShape(cs, k - 1);
      var before, c := cs[k - 1].task, cs[k];
      assert ValidCommit(before, c);
      MergeKeepsLogShape(before, 0, c.update.(expected := None), c.now);
      assert Merge(before, c.update.(expected := None), c.now) == c.task;
      assert c.task.history == before.history + c.update.messages;
    }
  }

  // ----- Preservation -----

  lemma FrameActor(withholds: bool, cs: seq<Commit>, c: Commit, i: nat, a: Actor)
    requires ActorOk(withholds, cs, i, a)
    ensures ActorOk(withholds, cs + [c], i, a)
  {
  }

  /** The commits after a step, without the merged task itself. */
  ghost predicate Extends(cs: seq<Commit>, cs': seq<Commit>, i: nat, eff: Effect) {
    if eff.write.Some?
    then |cs'| == |cs| + 1 && cs'[..|cs|] == cs
         && cs'[|cs|].writer == i && cs'[|cs|].update == eff.write.value && cs'[|cs|].cached == eff.cached
    else cs' == cs
  }

  ghost predicate HeldUnused(w: World, a: Actor)
    requires |w.commits| > 0
  {
    forall n: nat :: n in Held(a) ==> !Contains(Current(w).history, Minted(n))
  }

  lemma FollowUpAllowed(w: World, i: nat, a: Actor, c: Choice)
    requires |w.commits| > 0 && a.FollowUp? && FollowUpOk(w.commits, i, a.msg, a.fpc)
    ensures var eff := FollowUpStep(w, i, a, c);
            eff.write.Some? ==> Allowed(Current(w), eff.write.value)
  {
    if a.fpc.FWrite? && a.fpc.v == |w.commits| {
      assert a.fpc.loaded == Current(w);
    }
  }

  lemma FollowUpCommits(cs: seq<Commit>, cs': seq<Commit>, i: nat, msg: Message, loaded: Task)
    requires |cs| > 0 && Pinned(cs, |cs|, loaded) && !Refuses(msg, loaded)
    requires |cs'| == |cs| + 1 && cs'[..|cs|] == cs
    requires cs'[|cs|].writer == i && cs'[|cs|].update == FollowUpUpdate(msg, |cs|, loaded)
    ensures Accepted(cs', i, msg, |cs|)
    ensures FollowUpTransition(loaded).Some? ==> Made(cs', i, |cs|, Submitted)
  {
    assert cs'[|cs| - 1] == cs[|cs| - 1];
  }

  lemma FollowUpWriteKeeps(w: World, i: nat, a: Actor, c: Choice, cs': seq<Commit>)
    requires |w.commits| > 0 && a.FollowUp? && a.fpc.FWrite? && FollowUpOk(w.commits, i, a.msg, a.fpc)
    requires Extends(w.commits, cs', i, FollowUpStep(w, i, a, c))
    ensures FollowUpStep(w, i, a, c).actor.FollowUp?
    ensures var b := FollowUpStep(w, i, a, c).actor; FollowUpOk(cs', i, b.msg, b.fpc)
  {
    if FollowUpStep(w, i, a, c).write.Some? { FollowUpCommits(w.commits, cs', i, a.msg, a.fpc.loaded); }
  }

  lemma FollowUpKeeps(w: World, i: nat, a: Actor, c: Choice, cs': seq<Commit>)
    requires |w.commits| > 0 && a.FollowUp? && FollowUpOk(w.commits, i, a.msg, a.fpc)
    requires Extends(w.commits, cs', i, FollowUpStep(w, i, a, c))
    ensures ActorOk(w.withholds, cs', i, FollowUpStep(w, i, a, c).actor)
  {
    if a.fpc.FWrite? { FollowUpWriteKeeps(w, i, a, c, cs'); }
  }

  lemma EnqueueKeeps(w: World, i: nat, a: Actor, c: Choice, cs': seq<Commit>)
    requires ValidCommits(w.commits) && a.EnqueueFailed? && ActorOk(w.withholds, w.commits, i, a) && HeldUnused(w, a)
    requires Extends(w.commits, cs', i, EnqueueFailedStep(w, i, a, c))
    ensures var eff := EnqueueFailedStep(w, i, a, c);
            ActorOk(w.withholds, cs', i, eff.actor) && (eff.write.Some? ==> Allowed(Current(w), eff.write.value))
  {
    if a.epc.EReload? {
      // The failed state it committed is terminal, so that is what the reload sees.
      assert ValidCommit(w.commits[a.epc.k - 1].task, w.commits[a.epc.k]);
      Later(w.commits, a.epc.k, |w.commits| - 1);
    }
  }

  lemma FinisherAllowed(w: World, i: nat, a: Actor, c: Choice)
    requires |w.commits| > 0 && a.Finisher? && HeldUnused(w, a) && FinisherOk(w.commits, i, a)
    ensures var eff := FinisherStep(w, i, a, c);
            eff.write.Some? ==> Allowed(Current(w), eff.write.value)
  {
    if a.npc.NWrite? || a.npc.NWrite2? { FinishAllowed(w, a, a.npc.v); }
  }

  /** The finishing update, once the store has let it through. */
  lemma FinishAllowed(w: World, a: Actor, v: nat)
    requires |w.commits| > 0 && a.Finisher? && (a.target == Canceled || a.target == Failed)
    requires !Contains(Current(w).history, Minted(a.mid))
    ensures !Terminal(Current(w).status.state) ==> Allowed(Current(w), FinishUpdate(a, v))
  {
  }

  lemma FinisherKeeps(w: World, i: nat, a: Actor, c: Choice, cs': seq<Commit>)
    requires |w.commits| > 0 && a.Finisher? && FinisherOk(w.commits, i, a)
    requires Extends(w.commits, cs', i, FinisherStep(w, i, a, c))
    ensures FinisherOk(cs', i, FinisherStep(w, i, a, c).actor)
  {
    if a.npc.NWrite? || a.npc.NWrite2? { FinisherWriteKeeps(w, i, a, c, cs'); }
  }

  lemma FinisherWriteKeeps(w: World, i: nat, a: Actor, c: Choice, cs': seq<Commit>)
    requires |w.commits| > 0 && a.Finisher? && FinisherOk(w.commits, i, a) && (a.npc.NWrite? || a.npc.NWrite2?)
    requires Extends(w.commits, cs', i, FinisherStep(w, i, a, c))
    ensures FinisherOk(cs', i, FinisherStep(w, i, a, c).actor)
  {
    var eff := FinisherStep(w, i, a, c);
    if eff.write.Some? { assert Made(cs', i, |w.commits|, a.target); }
  }

  lemma OpAllowed(w: World, i: nat, ctx: Ctx, op: Op, taken: seq<ArtifactWrite>, v: nat, retry: bool, c: Choice)
    requires |w.commits| > 0 && OpOk(op)
    requires forall n: nat :: n in OpMints(op) ==> !Contains(Current(w).history, Minted(n))
    ensures var eff := AttemptStep(w, i, ctx, op, taken, v, retry, c);
            eff.write.Some? ==> Allowed(Current(w), eff.write.value)
  {
  }

  lemma WorkerAllowed(w: World, i: nat, a: Actor, c: Choice)
    requires |w.commits| > 0 && a.Worker? && HeldUnused(w, a) && ActorOk(w.withholds, w.commits, i, a)
    ensures var eff := WorkerStep(w, i, a, c);
            eff.write.Some? ==> Allowed(Current(w), eff.write.value)
  {
    match a.wpc
    case Writing(op, taken) => OpAllowed(w, i, a.ctx, op, taken, a.ctx.version, false, c);
    case Retrying(op, taken, v) => OpAllowed(w, i, a.ctx, op, taken, v, true, c);
    case _ => RestAllowed(w, i, a, c);
  }

  /** The other writes of a worker: the working transition and the artifacts of a drain. */
  lemma RestAllowed(w: World, i: nat, a: Actor, c: Choice)
    requires |w.commits| > 0 && a.Worker? && !a.wpc.Writing? && !a.wpc.Retrying?
    ensures var eff := WorkerStep(w, i, a, c);
            eff.write.Some? ==> Allowed(Current(w), eff.write.value)
  {
  }

  lemma OpKeeps(w: World, i: nat, ctx: Ctx, op: Op, taken: seq<ArtifactWrite>, v: nat, retry: bool, c: Choice, cs': seq<Commit>)
    requires |w.commits| > 0 && OpOk(op) && 1 <= ctx.version <= |w.commits|
    requires Extends(w.commits, cs', i, AttemptStep(w, i, ctx, op, taken, v, retry, c))
    ensures ActorOk(w.withholds, cs', i, AttemptStep(w, i, ctx, op, taken, v, retry, c).actor)
  {
  }

  lemma IdleKeeps(w: World, i: nat, ctx: Ctx, c: Choice)
    requires |w.commits| > 0 && 1 <= ctx.version <= |w.commits|
    ensures ActorOk(w.withholds, w.commits, i, IdleStep(w, i, ctx, c).actor)
    ensures IdleStep(w, i, ctx, c).write.None?
  {
  }

  /** The conflict's version was read before this load, so a load that is not terminal says the
      pinned version was not terminal either. */
  lemma ReloadKeeps(w: World, i: nat, a: Actor, c: Choice)
    requires ValidCommits(w.commits) && a.Worker? && ActorOk(w.withholds, w.commits, i, a)
    requires a.wpc.Reloading? || a.wpc.Rereading?
    ensures ActorOk(w.withholds, w.commits, i, WorkerStep(w, i, a, c).actor)
    ensures WorkerStep(w, i, a, c).write.None?
  {
    if a.wpc.Reloading? && a.wpc.current.Some? {
      Later(w.commits, a.wpc.current.value - 1, |w.commits| - 1);
    }
  }

  lemma StartKeeps(w: World, i: nat, a: Actor, c: Choice, cs': seq<Commit>)
    requires |w.commits| > 0 && a.Worker? && ActorOk(w.withholds, w.commits, i, a)
    requires a.wpc.Starting? || a.wpc.PreCancel? || a.wpc.ToWorking?
    requires Extends(w.commits, cs', i, WorkerStep(w, i, a, c))
    ensures ActorOk(w.withholds, cs', i, WorkerStep(w, i, a, c).actor)
  {
  }

  lemma WorkerKeeps(w: World, i: nat, a: Actor, c: Choice, cs': seq<Commit>)
    requires ValidCommits(w.commits) && a.Worker? && ActorOk(w.withholds, w.commits, i, a)
    requires Extends(w.commits, cs', i, WorkerStep(w, i, a, c))
    ensures ActorOk(w.withholds, cs', i, WorkerStep(w, i, a, c).actor)
  {
    match a.wpc
    case Writing(op, taken) => OpKeeps(w, i, a.ctx, op, taken, a.ctx.version, false, c, cs');
    case Retrying(op, taken, v) => OpKeeps(w, i, a.ctx, op, taken, v, true, c, cs');
    case Reloading(_, _, _) => ReloadKeeps(w, i, a, c);
    case Rereading(_, _) => ReloadKeeps(w, i, a, c);
    case Idle => IdleKeeps(w, i, a.ctx, c);
    case Starting => StartKeeps(w, i, a, c, cs');
    case PreCancel => StartKeeps(w, i, a, c, cs');
    case ToWorking => StartKeeps(w, i, a, c, cs');
    case _ => RestKeeps(w, i, a, c, cs');
  }

  lemma RestKeeps(w: World, i: nat, a: Actor, c: Choice, cs': seq<Commit>)
    requires ValidCommits(w.commits) && a.Worker? && ActorOk(w.withholds, w.commits, i, a)
    requires a.wpc.Telling? || a.wpc.Buffering? || a.wpc.Refreshing? || a.wpc.Draining? || a.wpc.Dropped? || a.wpc.Ended?
    requires Extends(w.commits, cs', i, WorkerStep(w, i, a, c))
    ensures ActorOk(w.withholds, cs', i, WorkerStep(w, i, a, c).actor)
  {
  }

  // ----- Minted ids stay unused until their holder commits them -----

  /** A step holds nothing new but what it mints, and commits only minted ids it held and now gives up. */
  ghost predicate HeldStep(w: World, a: Actor, eff: Effect) {
    && Held(eff.actor) <= Held(a) + (if eff.mints then {w.mint} else {})
    && (eff.write.Some? ==>
          forall m :: m in eff.write.value.messages && m.id.Minted? ==> m.id.n in Held(a) - Held(eff.actor))
  }

  lemma IdleHeld(w: World, i: nat, ctx: Ctx, c: Choice)
    requires |w.commits| > 0
    ensures HeldStep(w, Worker(ctx, Idle), IdleStep(w, i, ctx, c))
  {
  }

  lemma OpHeld(w: World, i: nat, a: Actor, op: Op, taken: seq<ArtifactWrite>, v: nat, retry: bool, c: Choice)
    requires |w.commits| > 0 && a.Worker? && Held(a) == OpMints(op)
    ensures HeldStep(w, a, AttemptStep(w, i, a.ctx, op, taken, v, retry, c))
  {
  }

  lemma WorkerHeld(w: World, i: nat, a: Actor, c: Choice)
    requires |w.commits| > 0 && a.Worker?
    ensures HeldStep(w, a, WorkerStep(w, i, a, c))
  {
    match a.wpc
    case Idle => IdleHeld(w, i, a.ctx, c);
    case Writing(op, taken) => OpHeld(w, i, a, op, taken, a.ctx.version, false, c);
    case Retrying(op, taken, v) => OpHeld(w, i, a, op, taken, v, true, c);
    case _ =>
  }

  lemma FinisherHeld(w: World, i: nat, a: Actor, c: Choice)
    requires |w.commits| > 0 && a.Finisher?
    ensures HeldStep(w, a, FinisherStep(w, i, a, c))
  {
  }

  lemma EnqueueHeld(w: World, i: nat, a: Actor, c: Choice)
    requires |w.commits| > 0 && a.EnqueueFailed?
    ensures HeldStep(w, a, EnqueueFailedStep(w, i, a, c))
  {
  }

  lemma LocalHeld(w: World, i: nat, a: Actor, c: Choice)
    requires |w.commits| > 0 && ActorOk(w.withholds, w.commits, i, a)
    ensures HeldStep(w, a, Local(w, i, a, c))
  {
    if !c.Crash? {
      match a
      case EnqueueFailed(_, _) => EnqueueHeld(w, i, a, c);
      case Finisher(_, _, _, _, _, _) => FinisherHeld(w, i, a, c);
      case Worker(_, _) => WorkerHeld(w, i, a, c);
      case _ =>
    }
  }

  lemma MintsAdvance(history: seq<Message>, actors: seq<Actor>, mint: nat, i: nat, a: Actor, ms: seq<Message>, mints: bool)
    requires MintsOk(history, actors, mint) && i < |actors|
    requires Held(a) <= Held(actors[i]) + (if mints then {mint} else {})
    requires |ms| <= 1 && forall m :: m in ms && m.id.Minted? ==> m.id.n in Held(actors[i]) - Held(a)
    ensures MintsOk(history + ms, actors[i := a], if mints then mint + 1 else mint)
  {
    var actors' := actors[i := a];
    if ms == [] {
      assert history + ms == history;
    } else {
      assert ms == [ms[0]] && ms[0] in ms;
    }
    forall id: MessageId
      ensures Contains(history + ms, id) <==> Contains(history, id) || (ms != [] && ms[0].id == id)
    {
      if ms != [] { ContainsAppend(history, ms[0], id); }
    }
    forall j, n: nat | 0 <= j < |actors'| && n in Held(actors'[j])
      ensures n in Held(actors[j]) || (mints && j == i && n == mint)
      ensures !Contains(history + ms, Minted(n))
    {
      if j == i { assert n in Held(a); }
    }
  }

  lemma SpawnKeepsMints(history: seq<Message>, actors: seq<Actor>, mint: nat, a: Actor)
    requires MintsOk(history, actors, mint) && Held(a) <= {mint}
    ensures MintsOk(history, actors + [a], mint + 1)
  {
  }

  lemma LocalAllowed(w: World, i: nat, a: Actor, c: Choice)
    requires ValidCommits(w.commits) && HeldUnused(w, a) && ActorOk(w.withholds, w.commits, i, a)
    ensures var eff := Local(w, i, a, c);
            eff.write.Some? ==> Allowed(Current(w), eff.write.value)
  {
    match a
    case FollowUp(_, _) => FollowUpAllowed(w, i, a, c);
    case EnqueueFailed(_, _) =>
    case Finisher(_, _, _, _, _, _) => FinisherAllowed(w, i, a, c);
    case Worker(_, _) => WorkerAllowed(w, i, a, c);
    case _ =>
  }

  lemma LocalKeeps(w: World, i: nat, a: Actor, c: Choice, cs': seq<Commit>)
    requires ValidCommits(w.commits) && HeldUnused(w, a) && ActorOk(w.withholds, w.commits, i, a)
    requires Extends(w.commits, cs', i, Local(w, i, a, c))
    ensures ActorOk(w.withholds, cs', i, Local(w, i, a, c).actor)
  {
    if !c.Crash? {
      match a
      case FollowUp(_, _) => FollowUpKeeps(w, i, a, c, cs');
      case EnqueueFailed(_, _) => EnqueueKeeps(w, i, a, c, cs');
      case Finisher(_, _, _, _, _, _) => FinisherKeeps(w, i, a, c, cs');
      case Worker(_, _) => WorkerKeeps(w, i, a, c, cs');
      case _ =>
    }
  }

  lemma ActorsKeep(w: World, i: nat, c: Choice, cs': seq<Commit>)
    requires Inv(w) && i < |w.actors| && Extends(w.commits, cs', i, Local(w, i, w.actors[i], c))
    ensures var actors := w.actors[i := Local(w, i, w.actors[i], c).actor];
            forall j :: 0 <= j < |actors| ==> ActorOk(w.withholds, cs', j, actors[j])
  {
    var eff := Local(w, i, w.actors[i], c);
    var actors := w.actors[i := eff.actor];
    LocalKeeps(w, i, w.actors[i], c, cs');
    forall j | 0 <= j < |actors| ensures ActorOk(w.withholds, cs', j, actors[j]) {
      if j != i && eff.write.Some? {
        FrameActor(w.withholds, w.commits, cs'[|w.commits|], j, w.actors[j]);
        assert cs' == w.commits + [cs'[|w.commits|]];
      }
    }
  }

  lemma RecordKeeps(w: World, i: nat, eff: Effect, now: nat)
    requires ValidCommits(w.commits) && (eff.write.Some? ==> Allowed(Current(w), eff.write.value))
    ensures var cs := Record(w, i, eff, now);
            && ValidCommits(cs) && Extends(w.commits, cs, i, eff)
            && cs[|cs| - 1].task.history == Current(w).history + (if eff.write.Some? then eff.write.value.messages else [])
  {
    if eff.write.Some? {
      var t := Merge(Current(w), eff.write.value, now);
      AppendKeepsValid(w.commits, Commit(t, i, eff.write.value, now, eff.cached));
    }
  }

  lemma AppendKeepsValid(cs: seq<Commit>, c: Commit)
    requires ValidCommits(cs) && ValidCommit(cs[|cs| - 1].task, c)
    ensures ValidCommits(cs + [c])
  {
    var more := cs + [c];
    forall k | 1 <= k < |more| ensures ValidCommit(more[k - 1].task, more[k]) {
      if k < |cs| { assert ValidCommit(cs[k - 1].task, cs[k]); }
    }
  }

  /** The world after an effect of actor i. */
  lemma EffectKeepsInv(w: World, i: nat, eff: Effect, now: nat)
    requires Inv(w) && i < |w.actors|
    requires eff.write.Some? ==> Allowed(Current(w), eff.write.value)
    requires HeldStep(w, w.actors[i], eff)
    requires var actors := w.actors[i := eff.actor];
             forall j :: 0 <= j < |actors| ==> ActorOk(w.withholds, Record(w, i, eff, now), j, actors[j])
    ensures Inv(World(w.withholds, w.contends, Record(w, i, eff, now), w.actors[i := eff.actor],
                      if eff.event.Some? then w.bus + [eff.event.value] else w.bus,
                      if eff.mints then w.mint + 1 else w.mint))
  {
    RecordKeeps(w, i, eff, now);
    var ms := if eff.write.Some? then eff.write.value.messages else [];
    MintsAdvance(Current(w).history, w.actors, w.mint, i, eff.actor, ms, eff.mints);
  }

  lemma ActKeepsInv(w: World, i: nat, c: Choice, now: nat)
    requires Inv(w) && i < |w.actors|
    ensures Inv(Step(w, Act(i, c, now)))
  {
    var a := w.actors[i];
    var eff := Local(w, i, a, c);
    LocalAllowed(w, i, a, c);
    RecordKeeps(w, i, eff, now);
    LocalHeld(w, i, a, c);
    ActorsKeep(w, i, c, Record(w, i, eff, now));
    EffectKeepsInv(w, i, eff, now);
  }

  lemma StepKeepsInv(w: World, e: Event)
    requires Inv(w)
    ensures Inv(Step(w, e))
  {
    if e.Act? {
      if e.i < |w.actors| { ActKeepsInv(w, e.i, e.choice, e.now); }
    } else {
      var w' := Step(w, e);
      SpawnKeepsMints(Current(w).history, w.actors, w.mint, w'.actors[|w.actors|]);
    }
  }

  // ----- Every run -----

  /** A task just created by a client message, with nobody working on it yet. */
  ghost predicate Initial(w: World) {
    && |w.commits| == 1 && w.actors == [] && w.bus == []
    && var t := w.commits[0].task;
       && t.status.state == Submitted && |t.log| == 1 && t.log[0].state == Submitted
       && |t.history| == 1 && t.history[0].id.Client?
       && t.artifacts == []
  }

  lemma InitIsInitial(withholds: bool, contends: bool, id: string, contextId: string, name: string, texts: seq<string>, now: nat)
    ensures Initial(Init(withholds, contends, id, contextId, name, texts, now))
  {
  }

  lemma {:induction false} RunKeepsInv(w: World, events: seq<Event>)
    requires Initial(w)
    ensures Inv(Run(w, events))
    decreases |events|
  {
    if events != [] {
      RunKeepsInv(w, events[..|events| - 1]);
      StepKeepsInv(Run(w, events[..|events| - 1]), events[|events| - 1]);
    }
  }

  /** In every interleaving, whatever message a state change leaves on the task is an agent's and the last one in
      its history, and a canceled task has one. */
  lemma ShownIsSaid(w: World, events: seq<Event>, k: nat)
    requires Initial(w) && 1 <= k < |Run(w, events).commits| && Run(w, events).commits[k].update.state.Some?
    ensures var before, after := Run(w, events).commits[k - 1].task, Run(w, events).commits[k].task;
            var shown := after.status.message;
            && (shown.Some? ==> shown.value.role == Agent && after.history == before.history + [shown.value])
            && (after.status.state == Canceled ==> shown.Some?)
  {
    RunKeepsInv(w, events);
    assert ValidCommit(Run(w, events).commits[k - 1].task, Run(w, events).commits[k]);
  }

  /** Every commit but the first is by an actor there is. */
  ghost predicate WritersKnown(w: World) { forall k :: 1 <= k < |w.commits| ==> w.commits[k].writer < |w.actors| }

  lemma StepWritersKnown(w: World, e: Event)
    requires |w.commits| > 0 && WritersKnown(w)
    ensures WritersKnown(Step(w, e))
  {
    StepExtends(w, e);
    assert forall k :: 0 <= k < |w.commits| ==> Step(w, e).commits[k] == w.commits[k];
  }

  lemma {:induction false} RunWritersKnown(w: World, events: seq<Event>)
    requires Initial(w)
    ensures WritersKnown(Run(w, events))
    decreases |events|
  {
    if events != [] {
      RunWritersKnown(w, events[..|events| - 1]);
      StepWritersKnown(Run(w, events[..|events| - 1]), events[|events| - 1]);
    }
  }

  /** In every interleaving, every version of the task ever visible has a well-shaped transition log
      and pairwise distinct message ids. */
  lemma TransitionLogTheorem(w: World, events: seq<Event>, v: nat)
    requires Initial(w) && 1 <= v <= |Run(w, events).commits|
    ensures LogShape(Run(w, events).commits[v - 1].task)
    ensures DistinctIds(Run(w, events).commits[v - 1].task.history)
  {
    RunKeepsInv(w, events);
    TaskShape(Run(w, events).commits, v - 1);
  }
}
