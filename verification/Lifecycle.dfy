/**
 The task lifecycle as a step machine over one task: any number of follow-up submitters,
 workers, cancellers, mark-failed and enqueue-failed writers, and metadata writers run
 against one versioned store and one event log. Every `await` on the store or the bus ends
 a step, so a sequence of events is an interleaving.

 The store is the sequence of its commits: the version is the number of commits so far and
 `commits[v - 1].task` is the task as of version v.
 */
module Lifecycle {
  import opened Tasks

  /** A committed write: the resulting task, its writer, and for a write made through a worker's
      cached version, that version. */
  datatype Commit = Commit(task: Task, writer: nat, update: Update, now: nat, cached: Option<nat>)

  /** Published stream events; `k` is the commit the event announces. A chunk is `closing` when a lifecycle call
      publishes it, ahead of its marker, for an artifact it has stored; so is a direct reply. */
  datatype BusEvent =
    | Marker(state: TaskState, writer: nat, k: nat)
    | Transitioned(state: TaskState, writer: nat, k: nat)
    | Progress(writer: nat)
    | Chunk(writer: nat, write: ArtifactWrite, closing: bool)
    | Reply(writer: nat)

  // ----- Actors -----

  /** Why a follow-up is turned down: three preconditions, or a write lost to another one. */
  datatype Refusal = IsTerminal | ContextMismatch | NotAccepting | LostRace

  datatype FollowUpPc =
    | FReadVersion
    | FLoad(v: nat)
    | FWrite(v: nat, loaded: Task)
    | FReload
    | FAnnounce(k: nat)
    | FAccepted(k: nat)
    | FDuplicate
    | FRefused(why: Refusal)

  datatype EnqueuePc =
    | EReadVersion
    | ELoad(v: nat)
    | EWrite(v: nat, loaded: Task)
    | EReload(k: nat)
    | EAnnounce(k: nat, state: TaskState)
    | EDone

  /** Shared by `cancel_task_in_storage` (target canceled) and `_mark_failed` (target failed). */
  datatype FinisherPc =
    | NReadVersion
    | NLoad(v: nat)
    | NWrite(v: nat)
    | NReadVersion2
    | NLoad2(v: nat)
    | NWrite2(v: nat)
    | NFallback
    | NAnnounce(k: nat)
    | NDone(dropped: bool)

  /** The mutable part of a worker's context. `emitted` records the artifact writes the context has
      taken over so far, in order: an artifact is streamed first, and taken over once that is done. */
  datatype Ctx = Ctx(version: nat, pending: seq<ArtifactWrite>, turnEnded: bool, emitted: seq<ArtifactWrite>)

  /** The three kinds of write a worker makes through its context. */
  datatype Op =
    | OpFlush
    | OpStatus(progress: Message)
    | OpLifecycle(state: TaskState, message: Option<Message>, extra: seq<ArtifactWrite>, metadata: map<string, string>)

  datatype WorkerPc =
    | Starting
    | PreCancel
    | ToWorking
    | Telling(before: seq<BusEvent>, event: BusEvent)
    | Idle
    | Buffering(write: ArtifactWrite)
    | Writing(op: Op, taken: seq<ArtifactWrite>)
    | Reloading(op: Op, taken: seq<ArtifactWrite>, current: Option<nat>)
    | Rereading(op: Op, taken: seq<ArtifactWrite>)
    | Retrying(op: Op, taken: seq<ArtifactWrite>, v: nat)
    | Refreshing
    | Draining(artifacts: seq<ArtifactWrite>)
    | Dropped(artifacts: seq<ArtifactWrite>)  // ended, the last write having given up
    | Ended

  datatype Actor =
    | FollowUp(msg: Message, fpc: FollowUpPc)
    | EnqueueFailed(emid: nat, epc: EnqueuePc)
    | Finisher(target: TaskState, mid: nat, artifacts: seq<ArtifactWrite>, emitted: seq<ArtifactWrite>,
               base: nat, npc: FinisherPc)
    | Worker(ctx: Ctx, wpc: WorkerPc)
    | MetadataWriter(metadata: map<string, string>)
    | Gone

  /** The store's manners: `withholds` says that a version conflict may come back without the current version
      (SQL), `contends` that a blind write may give up under contention (SQL and Redis). The in-memory store
      does neither. */
  datatype World = World(withholds: bool, contends: bool, commits: seq<Commit>, actors: seq<Actor>, bus: seq<BusEvent>, mint: nat)

  /** What the scheduler, the store, the user's worker and the client may decide at a step. */
  datatype Choice =
    | Go(contended: bool, hidden: bool)
    | Abort
    | Crash
    | CancelSeen
    | Emit(write: ArtifactWrite)
    | DoFlush
    | DoStatus(text: Option<string>)
    | DoLifecycle(state: TaskState, text: Option<string>, extra: seq<ArtifactWrite>, metadata: map<string, string>)
    | Return
    | RaiseTerminal
    | RaiseOther
    | CancelFired

  datatype Event =
    | SpawnFollowUp(name: string, role: Role, contextId: string, texts: seq<string>)
    | SpawnEnqueueFailed
    | SpawnForceCancel
    | SpawnMarkFailed
    | SpawnWorker
    | SpawnMetadata(metadata: map<string, string>)
    | Act(i: nat, choice: Choice, now: nat)

  /** The effect of one step of one actor. */
  datatype Effect = Effect(actor: Actor, write: Option<Update>, cached: Option<nat>, event: Option<BusEvent>, mints: bool)

  // ----- The store as seen by a step -----

  function Version(w: World): nat { |w.commits| }

  function Current(w: World): Task
    requires |w.commits| > 0
  {
    w.commits[|w.commits| - 1].task
  }

  function Try(w: World, u: Update, c: Choice): Outcome
    requires |w.commits| > 0
  {
    match Check(Current(w), Version(w), u)
    case VersionConflict(v) => VersionConflict(if w.withholds && c.Go? && c.hidden then None else v)
    case Committed(v) =>
      if w.contends && c.Go? && c.contended && u.expected.None? then VersionConflict(None) else Committed(v)
    case other => other
  }

  function Stay(a: Actor): Effect { Effect(a, None, None, None, false) }

  predicate Contains(history: seq<Message>, id: MessageId) {
    exists j :: 0 <= j < |history| && history[j].id == id
  }

  function AgentMessage(n: nat, text: string): Message { Message(Minted(n), Agent, "", [text]) }

  const NOTHING := Update(None, None, [], [], map[], None)

  // ----- Follow-up submission -----

  /** What `_load_and_validate` objects to. */
  function Objection(m: Message, t: Task): Option<Refusal> {
    if Terminal(t.status.state) then Some(IsTerminal)
    else if m.contextId != "" && t.contextId != m.contextId then Some(ContextMismatch)
    else if !Interrupted(t.status.state) && m.role.User? then Some(NotAccepting)
    else None
  }

  predicate Refuses(m: Message, t: Task) { Objection(m, t).Some? }

  function FollowUpTransition(t: Task): Option<TaskState> {
    if Interrupted(t.status.state) then Some(Submitted) else None
  }

  function FollowUpUpdate(m: Message, v: nat, loaded: Task): Update {
    var bound := if m.contextId == "" then m.(contextId := loaded.contextId) else m;
    NOTHING.(state := FollowUpTransition(loaded), messages := [bound], expected := Some(v))
  }

  function FollowUpStep(w: World, i: nat, a: Actor, c: Choice): Effect
    requires |w.commits| > 0 && a.FollowUp?
  {
    match a.fpc
    case FReadVersion => Stay(a.(fpc := FLoad(Version(w))))
    case FLoad(v) =>
      var t := Current(w);
      if Refuses(a.msg, t) then Stay(a.(fpc := FRefused(Objection(a.msg, t).value)))
      else if Contains(t.history, a.msg.id) then Stay(a.(fpc := FDuplicate))
      else Stay(a.(fpc := FWrite(v, t)))
    case FWrite(v, loaded) =>
      var u := FollowUpUpdate(a.msg, v, loaded);
      (match Try(w, u, c)
       case Committed(_) =>
         Effect(a.(fpc := if u.state.Some? then FAnnounce(Version(w)) else FAccepted(Version(w))), Some(u), None, None, false)
       case VersionConflict(_) => Stay(a.(fpc := FReload))
       case _ => Stay(a.(fpc := FRefused(IsTerminal))))
    case FReload =>
      // A twin may have stored the message meanwhile.
      var t := Current(w);
      Stay(a.(fpc := if Contains(t.history, a.msg.id) then FDuplicate
                     else FRefused(if Terminal(t.status.state) then IsTerminal else LostRace)))
    case FAnnounce(k) => Effect(a.(fpc := FAccepted(k)), None, None, Some(Transitioned(Submitted, i, k)), false)
    case _ => Stay(a)
  }

  // ----- A failed enqueue marks the task failed -----

  function EnqueueFailedStep(w: World, i: nat, a: Actor, c: Choice): Effect
    requires |w.commits| > 0 && a.EnqueueFailed?
  {
    match a.epc
    case EReadVersion => Stay(a.(epc := ELoad(Version(w))))
    case ELoad(v) =>
      var t := Current(w);
      Stay(a.(epc := if t.status.state == Submitted then EWrite(v, t) else EDone))
    case EWrite(v, loaded) =>
      var m := AgentMessage(a.emid, "Failed to enqueue task");
      var u := NOTHING.(state := Some(Failed), statusMessage := Some(m), messages := [m], expected := Some(v));
      (match Try(w, u, c)
       case Committed(_) => Effect(a.(epc := EReload(Version(w))), Some(u), None, None, false)
       case _ => Stay(a.(epc := EDone)))
    case EReload(k) => Stay(a.(epc := EAnnounce(k, Current(w).status.state)))
    case EAnnounce(k, s) => Effect(a.(epc := EDone), None, None, Some(Marker(s, i, k)), false)
    case EDone => Stay(a)
  }

  // ----- Cancel and mark-failed -----

  function FinishUpdate(a: Actor, v: nat): Update
    requires a.Finisher?
  {
    var m := AgentMessage(a.mid, "finished");
    NOTHING.(state := Some(a.target), statusMessage := Some(m), messages := [m],
             artifacts := a.artifacts, expected := Some(v))
  }

  /** Both helpers skip the artifact-only write when there is nothing to write. */
  function GiveUp(a: Actor): Actor
    requires a.Finisher?
  {
    a.(npc := if a.artifacts == [] then NDone(false) else NFallback)
  }

  function FinisherStep(w: World, i: nat, a: Actor, c: Choice): Effect
    requires |w.commits| > 0 && a.Finisher?
  {
    match a.npc
    case NReadVersion => Stay(a.(npc := if a.target == Canceled then NLoad(Version(w)) else NWrite(Version(w))))
    case NLoad(v) =>
      Stay(a.(npc := if Terminal(Current(w).status.state) then NDone(true) else NWrite(v)))
    case NWrite(v) =>
      var u := FinishUpdate(a, v);
      (match Try(w, u, c)
       case Committed(_) => Effect(a.(npc := NAnnounce(Version(w))), Some(u), None, None, false)
       case VersionConflict(_) => Stay(a.(npc := NReadVersion2))
       case _ => if a.target == Canceled then Stay(a.(npc := NReadVersion2)) else Stay(GiveUp(a)))
    case NReadVersion2 => Stay(a.(npc := NLoad2(Version(w))))
    case NLoad2(v) =>
      if Terminal(Current(w).status.state) then Stay(GiveUp(a)) else Stay(a.(npc := NWrite2(v)))
    case NWrite2(v) =>
      var u := FinishUpdate(a, v);
      (match Try(w, u, c)
       case Committed(_) => Effect(a.(npc := NAnnounce(Version(w))), Some(u), None, None, false)
       case _ => Stay(GiveUp(a)))
    case NFallback =>
      var u := NOTHING.(artifacts := a.artifacts);
      (match Try(w, u, c)
       case Committed(_) => Effect(a.(npc := NDone(false)), Some(u), None, None, false)
       case _ => Stay(a.(npc := NDone(true))))
    case NAnnounce(k) => Effect(a.(npc := NDone(false)), None, None, Some(Marker(a.target, i, k)), false)
    case NDone(_) => Stay(a)
  }

  function NewFinisher(w: World, target: TaskState, artifacts: seq<ArtifactWrite>, emitted: seq<ArtifactWrite>): Actor {
    Finisher(target, w.mint, artifacts, emitted, Version(w), NReadVersion)
  }

  // ----- The worker and its context -----

  predicate LifecycleState(s: TaskState) {
    s.Completed? || s.Failed? || s.Rejected? || s.InputRequired? || s.AuthRequired?
  }

  /** The keyword arguments of the store write behind an operation; `taken` is the drained buffer. */
  function OpUpdate(op: Op, taken: seq<ArtifactWrite>): Update {
    match op
    case OpFlush => NOTHING.(artifacts := taken)
    case OpStatus(m) => NOTHING.(statusMessage := Some(m), artifacts := taken)
    case OpLifecycle(s, m, extra, metadata) =>
      Update(Some(s), m, taken + extra, if m.Some? then [m.value] else [], metadata, None)
  }

  predicate CarriesStatus(u: Update) { u.state.Some? || u.statusMessage.Some? }

  /** Exceptions put the drained buffer back in front of what was buffered since. */
  function Rebuffer(ctx: Ctx, taken: seq<ArtifactWrite>): Ctx { ctx.(pending := taken + ctx.pending) }

  const DIRECT_REPLY_KEY := "_a2akit_direct_reply"

  function ClosingChunks(i: nat, writes: seq<ArtifactWrite>): (r: seq<BusEvent>)
    ensures |r| == |writes| && forall j :: 0 <= j < |r| ==> r[j] == Chunk(i, writes[j], true)
  {
    if writes == [] then [] else ClosingChunks(i, writes[..|writes| - 1]) + [Chunk(i, writes[|writes| - 1], true)]
  }

  /** What a lifecycle call publishes ahead of its marker. */
  function PreEvents(i: nat, extra: seq<ArtifactWrite>, metadata: map<string, string>): seq<BusEvent> {
    if DIRECT_REPLY_KEY in metadata then [Reply(i)] else ClosingChunks(i, extra)
  }

  function OpSucceeded(i: nat, k: nat, ctx: Ctx, op: Op): Actor {
    var ctx' := ctx.(version := k + 1);
    match op
    case OpFlush => Worker(ctx', Idle)
    case OpStatus(_) => Worker(ctx', Telling([], Progress(i)))
    case OpLifecycle(s, _, extra, metadata) =>
      Worker(ctx'.(turnEnded := true, emitted := ctx.emitted + extra), Telling(PreEvents(i, extra, metadata), Marker(s, i, k)))
  }

  /** A second conflict: flushes and progress updates refresh the cached version and carry on,
      a lifecycle call raises. */
  function OpConflicted(ctx: Ctx, op: Op, taken: seq<ArtifactWrite>, current: Option<nat>): Actor {
    var back := Rebuffer(ctx, taken);
    if op.OpLifecycle? then Worker(back, Idle)
    else if current.Some? then Worker(back.(version := current.value), Idle)
    else Worker(back, Refreshing)
  }

  function IdleStep(w: World, i: nat, ctx: Ctx, c: Choice): Effect
    requires |w.commits| > 0
  {
    var here := Worker(ctx, Idle);
    var taken := ctx.pending;
    var drained := ctx.(pending := []);
    match c
    case Emit(aw) =>
      if ctx.turnEnded then Stay(here)
      else Effect(Worker(ctx, Buffering(aw)), None, None, Some(Chunk(i, aw, false)), false)
    case DoFlush =>
      if taken == [] then Stay(here) else Stay(Worker(drained, Writing(OpFlush, taken)))
    case DoStatus(text) =>
      if ctx.turnEnded then Stay(here)
      else if text.None? then Effect(here, None, None, Some(Progress(i)), false)
      else Effect(Worker(drained, Writing(OpStatus(AgentMessage(w.mint, text.value)), taken)), None, None, None, true)
    case DoLifecycle(s, text, extra, metadata) =>
      if ctx.turnEnded || !LifecycleState(s) then Stay(here)
      else
        var m := if text.Some? then Some(AgentMessage(w.mint, text.value)) else None;
        Effect(Worker(drained, Writing(OpLifecycle(s, m, extra, metadata), taken)), None, None, None, true)
    case Return => if ctx.turnEnded then Stay(Worker(ctx, Ended)) else Stay(here)
    case CancelFired => Effect(NewFinisher(w, Canceled, taken, ctx.emitted), None, None, None, true)
    case RaiseTerminal =>
      if taken == [] then Stay(Worker(ctx, Ended)) else Stay(Worker(drained, Draining(taken)))
    case RaiseOther =>
      if ctx.turnEnded then Stay(Worker(ctx, Ended))
      else Effect(NewFinisher(w, Failed, taken, ctx.emitted), None, None, None, true)
    case _ => Stay(here)
  }

  /** One pinned write of `_versioned_update`: the first attempt, or the retry after a reload. */
  function AttemptStep(w: World, i: nat, ctx: Ctx, op: Op, taken: seq<ArtifactWrite>, v: nat, retry: bool, c: Choice): Effect
    requires |w.commits| > 0
  {
    if c.Abort? then Stay(Worker(Rebuffer(ctx, taken), Idle))
    else
      var u := OpUpdate(op, taken).(expected := Some(v));
      match Try(w, u, c)
      case Committed(_) => Effect(OpSucceeded(i, Version(w), ctx, op), Some(u), Some(ctx.version), None, false)
      case VersionConflict(current) =>
        if retry then Stay(OpConflicted(ctx, op, taken, current)) else Stay(Worker(ctx, Reloading(op, taken, current)))
      case _ => Stay(Worker(Rebuffer(ctx, taken), Idle))
  }

  function WorkerStep(w: World, i: nat, a: Actor, c: Choice): Effect
    requires |w.commits| > 0 && a.Worker?
  {
    var ctx := a.ctx;
    match a.wpc
    case Starting => Stay(a.(wpc := if c.CancelSeen? then PreCancel else ToWorking))
    case PreCancel =>
      if Terminal(Current(w).status.state) then Stay(a.(wpc := Ended))
      else Effect(NewFinisher(w, Canceled, [], []), None, None, None, true)
    case ToWorking =>
      var u := NOTHING.(state := Some(TaskState.Working));
      (match Try(w, u, c)
       case Committed(v) =>
         Effect(Worker(ctx.(version := v), Telling([], Transitioned(TaskState.Working, i, Version(w)))), Some(u), None, None, false)
       case _ => Stay(a.(wpc := Ended)))
    case Telling(before, event) =>
      // An unshielded publish may be cancelled, and any publish may raise.
      if c.Abort? then Stay(Worker(ctx, Idle))
      else if before != [] then Effect(a.(wpc := Telling(before[1..], event)), None, None, Some(before[0]), false)
      else Effect(Worker(ctx, Idle), None, None, Some(event), false)
    case Idle => IdleStep(w, i, ctx, c)
    case Buffering(aw) =>
      if c.Abort? then Stay(Worker(ctx, Idle))
      else Stay(Worker(ctx.(pending := ctx.pending + [aw], emitted := ctx.emitted + [aw]), Idle))
    case Writing(op, taken) => AttemptStep(w, i, ctx, op, taken, ctx.version, false, c)
    case Reloading(op, taken, current) =>
      if c.Abort? || (Terminal(Current(w).status.state) && CarriesStatus(OpUpdate(op, taken)))
      then Stay(Worker(Rebuffer(ctx, taken), Idle))
      else if current.Some? then Stay(a.(wpc := Retrying(op, taken, current.value)))
      else Stay(a.(wpc := Rereading(op, taken)))
    case Rereading(op, taken) =>
      if c.Abort? then Stay(Worker(Rebuffer(ctx, taken), Idle))
      else Stay(a.(wpc := Retrying(op, taken, Version(w))))
    case Retrying(op, taken, v) => AttemptStep(w, i, ctx, op, taken, v, true, c)
    case Refreshing => Stay(Worker(ctx.(version := Version(w)), Idle))
    case Draining(artifacts) =>
      var u := NOTHING.(artifacts := artifacts);
      (match Try(w, u, c)
       case Committed(_) => Effect(a.(wpc := Ended), Some(u), None, None, false)
       case _ => Stay(a.(wpc := Dropped(artifacts))))
    case Dropped(_) => Stay(a)
    case Ended => Stay(a)
  }

  // ----- Steps and runs -----

  function Local(w: World, i: nat, a: Actor, c: Choice): Effect
    requires |w.commits| > 0
  {
    if c.Crash? then Stay(Gone)
    else
      match a
      case FollowUp(_, _) => FollowUpStep(w, i, a, c)
      case EnqueueFailed(_, _) => EnqueueFailedStep(w, i, a, c)
      case Finisher(_, _, _, _, _, _) => FinisherStep(w, i, a, c)
      case Worker(_, _) => WorkerStep(w, i, a, c)
      case MetadataWriter(metadata) =>
        var u := NOTHING.(metadata := metadata);
        if Try(w, u, c).Committed? then Effect(Gone, Some(u), None, None, false) else Stay(Gone)
      case Gone => Stay(Gone)
  }

  function Record(w: World, i: nat, eff: Effect, now: nat): seq<Commit>
    requires |w.commits| > 0
  {
    if eff.write.Some?
    then w.commits + [Commit(Merge(Current(w), eff.write.value, now), i, eff.write.value, now, eff.cached)]
    else w.commits
  }

  function Spawn(w: World, a: Actor): World { w.(actors := w.actors + [a], mint := w.mint + 1) }

  function Step(w: World, e: Event): World
    requires |w.commits| > 0
  {
    match e
    case SpawnFollowUp(name, role, contextId, texts) =>
      Spawn(w, FollowUp(Message(Client(name), role, contextId, texts), FReadVersion))
    case SpawnEnqueueFailed => Spawn(w, EnqueueFailed(w.mint, EReadVersion))
    case SpawnForceCancel => Spawn(w, NewFinisher(w, Canceled, [], []))
    case SpawnMarkFailed => Spawn(w, NewFinisher(w, Failed, [], []))
    case SpawnWorker => Spawn(w, Worker(Ctx(0, [], false, []), Starting))
    case SpawnMetadata(metadata) => Spawn(w, MetadataWriter(metadata))
    case Act(i, c, now) =>
      if i < |w.actors| then
        var eff := Local(w, i, w.actors[i], c);
        World(w.withholds, w.contends, Record(w, i, eff, now), w.actors[i := eff.actor],
              if eff.event.Some? then w.bus + [eff.event.value] else w.bus,
              if eff.mints then w.mint + 1 else w.mint)
      else w
  }

  /** A task just created by a client message, with nobody working on it yet. */
  function Init(withholds: bool, contends: bool, id: string, contextId: string, name: string, texts: seq<string>, now: nat): World {
    var t := NewTask(id, contextId, Message(Client(name), User, contextId, texts), name, now);
    World(withholds, contends, [Commit(t, 0, NOTHING, now, None)], [], [], 0)
  }

  function Run(w: World, events: seq<Event>): (r: World)
    requires |w.commits| > 0
    ensures w.commits <= r.commits && w.bus <= r.bus
    ensures r.withholds == w.withholds && r.contends == w.contends
  {
    if events == [] then w
    else
      StepExtends(Run(w, events[..|events| - 1]), events[|events| - 1]);
      Step(Run(w, events[..|events| - 1]), events[|events| - 1])
  }

  lemma StepExtends(w: World, e: Event)
    requires |w.commits| > 0
    ensures var r := Step(w, e);
            && w.commits <= r.commits && |r.commits| <= |w.commits| + 1
            && w.bus <= r.bus && |r.bus| <= |w.bus| + 1
            && r.withholds == w.withholds && r.contends == w.contends
  {
  }
}
