/**
 One worker turn on the in-memory store without outside writers: the context object that the user's
 worker calls, and the adapter's `_run_task_inner` around it, for every script of calls and every
 way the script may end.
 */
module WorkerRun {
  import opened Tasks
  import opened MemoryStorage
  import opened WorkerScript
  import Lifecycle

  // ----- The context -----

  class TaskContext {
    const store: InMemoryStorage
    const taskId: string
    const contextId: string
    var version: nat
    var pending: seq<ArtifactWrite>
    var turnEnded: bool
    var published: seq<Published>
    var mint: nat

    const FLUSH_COUNT := 10

    constructor (store: InMemoryStorage, taskId: string, contextId: string, version: nat)
      ensures this.store == store && this.taskId == taskId && this.contextId == contextId && this.version == version
      ensures pending == [] && !turnEnded && published == []
    {
      this.store, this.taskId, this.contextId, this.version := store, taskId, contextId, version;
      pending, turnEnded, published, mint := [], false, [], 0;
    }

    ghost predicate Valid()
      reads store
    {
      store.Valid() && taskId in store.tasks
    }

    ghost function Stored(): Task
      requires Valid()
      reads store
    {
      store.tasks[taskId]
    }

    /** What a client reads off the stored task. */
    ghost function View(): Seen
      requires Valid()
      reads store
    {
      SeenOf(Stored())
    }

    /** Nobody else has written since this context's last write. */
    ghost predicate Synced()
      reads this`version, store
    {
      Valid() && version == store.versions[taskId]
    }

    /** The stored message is an agent's, in this context, with these texts. */
    ghost predicate Carries(message: Option<Message>, says: Option<seq<string>>) {
      if says.None? then message.None?
      else message.Some? && message.value.role == Agent && message.value.contextId == contextId && message.value.texts == says.value
    }

    /** An agent message under a fresh id. */
    method MakeAgentMessage(texts: seq<string>) returns (m: Message)
      modifies this`mint
      ensures Carries(Some(m), Some(texts))
    {
      m := Message(Minted(mint), Agent, contextId, texts);
      mint := mint + 1;
    }

    /** The reload-and-retry write, for any cached version. It is refused exactly when the task is terminal
        and the write carries a state, or a status message against a stale version. */
    method VersionedUpdate(u: Update, now: nat) returns (r: Raised)
      requires Valid() && u.expected.None?
      modifies store, this`version
      ensures Valid()
      ensures r.Fine? <==> !(Terminal(old(Stored()).status.state)
                             && (u.state.Some? || (u.statusMessage.Some? && old(version) != old(store.versions[taskId]))))
      ensures r.Fine? ==>
                && Synced() && version == old(store.versions[taskId]) + 1
                && Stored() == Merge(old(Stored()), u, now) && Applied(old(Stored()), u, now, Stored())
      ensures r.Fine? || r.TerminalError?
      ensures !r.Fine? ==> Stored() == old(Stored()) && version == old(version) && store.versions == old(store.versions)
    {
      MergeApplies(Stored(), u, now);
      var o := store.UpdateTask(taskId, u.(expected := Some(version)), now);
      if o.Committed? {
        version := o.version;
        return Fine;
      }
      if o.TerminalTask? { return TerminalError; }
      var task := store.LoadTask(taskId);
      if Terminal(task.value.status.state) && Lifecycle.CarriesStatus(u) { return TerminalError; }
      o := store.UpdateTask(taskId, u.(expected := o.current), now);
      version := o.version;
      r := Fine;
    }

    method Publish(e: Published)
      modifies this`published
      ensures published == old(published) + [e]
      ensures Markers(published) == Markers(old(published)) + (if e.MarkerEvent? then [e.state] else [])
    {
      MarkersSnoc(published, e);
      published := published + [e];
    }

    /** Writes the whole buffer in one call, for any cached version. */
    method FlushArtifacts(now: nat)
      requires Valid()
      modifies store, this`version, this`pending
      ensures Valid() && pending == [] && (old(Synced()) || old(pending) != [] ==> Synced())
      ensures Stored().artifacts == ApplyAll(old(Stored()).artifacts, old(pending))
      ensures View() == old(View()) && Stored().status == old(Stored()).status
    {
      if pending == [] { return; }
      var batch := pending;
      pending := [];
      assert Stored().metadata + map[] == Stored().metadata && Stored().history + [] == Stored().history;
      var r := VersionedUpdate(Lifecycle.OpUpdate(Lifecycle.OpFlush, batch), now);
    }

    /** The chunk is streamed and buffered; the buffer is written once the interval has elapsed or ten are in it. */
    method EmitArtifact(w: ArtifactWrite, due: bool, now: nat)
      requires Valid()
      modifies store, this`version, this`pending, this`published
      ensures Valid() && (old(Synced()) ==> Synced())
      ensures View() == old(View())
      ensures Markers(published) == old(Markers(published))
      ensures old(turnEnded) ==> pending == old(pending) && Stored() == old(Stored()) && published == old(published)
      ensures !old(turnEnded) ==>
                && published == old(published) + [ChunkEvent(w)]
                && var flushes := due || |old(pending)| + 1 >= FLUSH_COUNT;
                   && pending == (if flushes then [] else old(pending) + [w])
                   && Stored().artifacts == ApplyAll(old(Stored()).artifacts, if flushes then old(pending) + [w] else [])
      ensures !old(turnEnded) ==>
                ApplyAll(Stored().artifacts, pending) == ApplyAll(old(Stored()).artifacts, old(pending) + [w])
    {
      if turnEnded { return; }
      Publish(ChunkEvent(w));
      pending := pending + [w];
      if due || |pending| >= FLUSH_COUNT { FlushArtifacts(now); }
    }

    /** A status or lifecycle write takes the buffer along, and puts it back when it is refused. */
    method WriteWithBuffer(op: Lifecycle.Op, now: nat) returns (r: Raised)
      requires Valid() && !op.OpFlush?
      modifies store, this`version, this`pending
      ensures Valid() && (r.Fine? || r.TerminalError?)
      ensures r.TerminalError? <==>
                Terminal(old(Stored()).status.state) && (op.OpLifecycle? || old(version) != old(store.versions[taskId]))
      ensures r.TerminalError? ==>
                Stored() == old(Stored()) && pending == old(pending) && version == old(version) && store.versions == old(store.versions)
      ensures r.Fine? ==>
                && Synced() && pending == []
                && Stored().artifacts == ApplyAll(old(Stored()).artifacts, old(pending) + (if op.OpLifecycle? then op.extra else []))
      ensures r.Fine? && op.OpStatus? ==>
                && Stored().status == Status(old(Stored()).status.state, now, Some(op.progress))
                && Stored().history == old(Stored()).history && Stored().metadata == old(Stored()).metadata
      ensures r.Fine? && op.OpLifecycle? ==>
                && Stored().status == Status(op.state, now, op.message)
                && Stored().history == old(Stored()).history + (if op.message.Some? then [op.message.value] else [])
                && Stored().metadata == old(Stored()).metadata + op.metadata
    {
      var taken := pending;
      pending := [];
      assert taken + [] == taken && Stored().metadata + map[] == Stored().metadata;
      r := VersionedUpdate(Lifecycle.OpUpdate(op, taken), now);
      if !r.Fine? { pending := taken + pending; }
    }

    /** A progress update flushes the buffer together with the status message. When another writer has made the
        task terminal behind the cached version it raises, announces nothing and keeps the buffer. */
    method SendStatus(text: Option<string>, now: nat) returns (r: Raised)
      requires Valid()
      modifies store, this`version, this`pending, this`published, this`mint
      ensures Valid() && (old(Synced()) ==> Synced()) && (r.Fine? || r.TerminalError?)
      ensures r.TerminalError? <==>
                !old(turnEnded) && text.Some? && Terminal(old(Stored()).status.state) && old(version) != old(store.versions[taskId])
      ensures Markers(published) == old(Markers(published))
      ensures old(turnEnded) || r.TerminalError? ==>
                pending == old(pending) && Stored() == old(Stored()) && published == old(published)
      ensures !old(turnEnded) && text.None? ==>
                pending == old(pending) && Stored() == old(Stored()) && published == old(published) + [StatusEvent(Working, None)]
      ensures !old(turnEnded) && text.Some? && r.Fine? ==>
                && Carries(Stored().status.message, Some([text.value])) && View() == old(View()).(shown := Some([text.value]))
                && pending == [] && Stored().artifacts == ApplyAll(old(Stored()).artifacts, old(pending))
                && published == old(published) + [StatusEvent(Working, Stored().status.message)]
      ensures ApplyAll(Stored().artifacts, pending) == ApplyAll(old(Stored()).artifacts, old(pending))
    {
      r := Fine;
      if turnEnded { return; }
      var message := None;
      if text.Some? {
        var m := MakeAgentMessage([text.value]);
        message := Some(m);
        assert pending + [] == pending;
        r := WriteWithBuffer(Lifecycle.OpStatus(m), now);
        if !r.Fine? { return; }
      }
      Publish(StatusEvent(Working, message));
    }

    /** Drain, persist with the state, mark the turn ended, announce. A second lifecycle call is refused; on a
        task that is already terminal the call raises, announces nothing and keeps the buffer and the turn. */
    method TerminalTransition(state: EndState, says: Option<seq<string>>, extra: seq<ArtifactWrite>,
                              metadata: map<string, string>, now: nat) returns (r: Raised)
      requires Valid()
      modifies store, this`version, this`pending, this`published, this`mint, this`turnEnded
      ensures Valid() && (old(Synced()) || r.Fine? ==> Synced())
      ensures r == if old(turnEnded) then LifecycleError
                   else if Terminal(old(Stored()).status.state) then TerminalError else Fine
      ensures !r.Fine? ==>
                && Stored() == old(Stored()) && pending == old(pending)
                && published == old(published) && turnEnded == old(turnEnded)
      ensures r.Fine? ==>
                && turnEnded && pending == []
                && Stored().status.state == state && Stored().status.timestamp == now
                && Stored().artifacts == ApplyAll(old(Stored()).artifacts, old(pending) + extra)
                && Stored().metadata == old(Stored()).metadata + metadata
      // The texts are shown as an agent's message, which enters the history; without texts none is shown.
      ensures r.Fine? ==>
                && Carries(Stored().status.message, says)
                && Stored().history == old(Stored()).history + (if says.Some? then [Stored().status.message.value] else [])
                && View() == Speak(old(View()), state, says).(metadata := old(Stored()).metadata + metadata)
      ensures r.Fine? ==>
                && published == old(published) + Ahead(extra, metadata, Stored().status.message)
                                + [MarkerEvent(state, Stored().status.message)]
                && Markers(published) == old(Markers(published)) + [state]
    {
      if turnEnded { return LifecycleError; }
      var m: Option<Message> := None;
      if says.Some? {
        var message := MakeAgentMessage(says.value);
        m := Some(message);
        SaidSnoc(Stored().history, message);
      }
      assert Stored().history + [] == Stored().history;
      r := EndTurn(state, m, extra, metadata, now);
    }

    /** The write of a lifecycle call, and what follows when the store accepts it. */
    method EndTurn(state: EndState, message: Option<Message>, extra: seq<ArtifactWrite>,
                   metadata: map<string, string>, now: nat) returns (r: Raised)
      requires Valid()
      modifies store, this`version, this`pending, this`published, this`turnEnded
      ensures Valid() && (r.Fine? || r.TerminalError?)
      ensures r.TerminalError? <==> Terminal(old(Stored()).status.state)
      ensures r.TerminalError? ==>
                && Stored() == old(Stored()) && pending == old(pending) && published == old(published)
                && turnEnded == old(turnEnded) && (old(Synced()) ==> Synced())
      ensures r.Fine? ==>
                && Synced() && turnEnded && pending == []
                && Stored().status == Status(state, now, message)
                && Stored().history == old(Stored()).history + (if message.Some? then [message.value] else [])
                && Stored().metadata == old(Stored()).metadata + metadata
                && Stored().artifacts == ApplyAll(old(Stored()).artifacts, old(pending) + extra)
                && published == old(published) + Ahead(extra, metadata, message) + [MarkerEvent(state, message)]
                && Markers(published) == old(Markers(published)) + [state]
    {
      r := WriteWithBuffer(Lifecycle.OpLifecycle(state, message, extra, metadata), now);
      if r.Fine? {
        turnEnded := true;
        PublishAll(Ahead(extra, metadata, message));
        Publish(MarkerEvent(state, message));
      }
    }

    /** The events ahead of the marker, one by one. */
    method PublishAll(events: seq<Published>)
      requires forall k :: 0 <= k < |events| ==> !events[k].MarkerEvent?
      modifies this`published
      ensures published == old(published) + events && Markers(published) == old(Markers(published))
    {
      for n := 0 to |events|
        invariant published == old(published) + events[..n] && Markers(published) == old(Markers(published))
      {
        assert events[..n + 1] == events[..n] + [events[n]];
        Publish(events[n]);
      }
      assert events[..|events|] == events;
    }
  }

  // ----- The adapter -----

  /** `cancel_task_in_storage` when nobody interferes. */
  method CancelInStorage(ctx: TaskContext, artifacts: seq<ArtifactWrite>, now: nat)
    requires ctx.Valid()
    modifies ctx.store, ctx`published, ctx`mint
    ensures ctx.Valid()
    ensures Terminal(old(ctx.Stored()).status.state) ==>
              ctx.Stored() == old(ctx.Stored()) && ctx.published == old(ctx.published)
    ensures !Terminal(old(ctx.Stored()).status.state) ==>
              && ctx.View() == Speak(old(ctx.View()), Canceled, Some([CANCELED_TEXT]))
              && ctx.Stored().artifacts == ApplyAll(old(ctx.Stored()).artifacts, artifacts)
              && Markers(ctx.published) == Markers(old(ctx.published)) + [Canceled]
  {
    var version := ctx.store.GetVersion(ctx.taskId);
    var task := ctx.store.LoadTask(ctx.taskId);
    if Terminal(task.value.status.state) { return; }
    var m := ctx.MakeAgentMessage([CANCELED_TEXT]);
    SaidSnoc(ctx.Stored().history, m);
    assert ctx.Stored().metadata + map[] == ctx.Stored().metadata;
    var o := ctx.store.UpdateTask(ctx.taskId, Update(Some(Canceled), Some(m), artifacts, [m], map[], version), now);
    ctx.Publish(MarkerEvent(Canceled, Some(m)));
  }

  /** `_mark_failed` when nobody interferes: a terminal task still gets the artifacts. */
  method MarkFailed(ctx: TaskContext, artifacts: seq<ArtifactWrite>, error: string, now: nat)
    requires ctx.Valid()
    modifies ctx.store, ctx`published, ctx`mint
    ensures ctx.Valid()
    ensures ctx.Stored().artifacts == ApplyAll(old(ctx.Stored()).artifacts, artifacts)
    ensures Terminal(old(ctx.Stored()).status.state) ==>
              ctx.View() == old(ctx.View()) && ctx.published == old(ctx.published)
    ensures !Terminal(old(ctx.Stored()).status.state) ==>
              && ctx.View() == Speak(old(ctx.View()), Failed, Some([error]))
              && Markers(ctx.published) == Markers(old(ctx.published)) + [Failed]
  {
    var m := ctx.MakeAgentMessage([error]);
    SaidSnoc(ctx.Stored().history, m);
    assert ctx.Stored().metadata + map[] == ctx.Stored().metadata;
    assert ctx.Stored().history + [] == ctx.Stored().history;
    var version := ctx.store.GetVersion(ctx.taskId);
    var o := ctx.store.UpdateTask(ctx.taskId, Update(Some(Failed), Some(m), artifacts, [m], map[], version), now);
    if o.TerminalTask? {
      if artifacts != [] {
        o := ctx.store.UpdateTask(ctx.taskId, Lifecycle.NOTHING.(artifacts := artifacts), now);
      }
      return;
    }
    ctx.Publish(MarkerEvent(Failed, Some(m)));
  }

  method Drain(ctx: TaskContext) returns (pending: seq<ArtifactWrite>)
    modifies ctx`pending
    ensures pending == old(ctx.pending) && ctx.pending == []
  {
    pending := ctx.pending;
    ctx.pending := [];
  }

  /** The artifacts as they will be once the buffer is written. */
  ghost function Eventually(ctx: TaskContext): seq<Artifact>
    requires ctx.Valid()
    reads ctx`pending, ctx.store
  {
    ApplyAll(ctx.Stored().artifacts, ctx.pending)
  }

  /** A turn in progress: `working` until it ends, and nothing buffered once it has. */
  ghost predicate Open(ctx: TaskContext)
    reads ctx, ctx.store
  {
    && ctx.Synced()
    && (if ctx.turnEnded then ctx.pending == [] && Lifecycle.LifecycleState(ctx.Stored().status.state)
        else ctx.Stored().status.state == Working)
  }

  /** One call of the user's worker. */
  method Perform(ctx: TaskContext, c: Call, now: nat)
    requires Open(ctx)
    modifies ctx, ctx.store
    ensures Open(ctx) && ctx.turnEnded == (old(ctx.turnEnded) || c.Finish?)
    ensures old(ctx.turnEnded) ==>
              && ctx.View() == old(ctx.View())
              && Eventually(ctx) == old(Eventually(ctx))
              && Markers(ctx.published) == Markers(old(ctx.published))
    ensures !old(ctx.turnEnded) ==>
              && ctx.View() == Heard(old(ctx.View()), c)
              && Eventually(ctx) == ApplyAll(old(Eventually(ctx)), Given(c))
              && Markers(ctx.published) == Markers(old(ctx.published)) + (if c.Finish? then [c.state] else [])
  {
    ApplyAllConcat(ctx.Stored().artifacts, ctx.pending, Given(c));
    match c {
      case Emit(w, due) => ctx.EmitArtifact(w, due, now);
      case Progress(text) => var r := ctx.SendStatus(text, now);
      case Finish(state, says, extra, metadata) =>
        var r := ctx.TerminalTransition(state, says, extra, metadata, now);
    }
  }

  /** The user's handler: every call of the script, in order. */
  method Handle(ctx: TaskContext, script: seq<Call>, now: nat)
    requires Open(ctx) && ctx.pending == [] && !ctx.turnEnded
    modifies ctx, ctx.store
    ensures Open(ctx) && ctx.turnEnded == TurnEnds(script)
    ensures ctx.View() == Leaves(old(ctx.View()), script)
    ensures Eventually(ctx) == ApplyAll(old(ctx.Stored()).artifacts, Emitted(script))
    ensures Markers(ctx.published) == Markers(old(ctx.published)) + (if TurnEnds(script) then [EndsIn(script)] else [])
  {
    for n := 0 to |script|
      invariant Open(ctx) && ctx.turnEnded == TurnEnds(script[..n])
      invariant ctx.View() == Leaves(old(ctx.View()), script[..n])
      invariant Eventually(ctx) == ApplyAll(old(ctx.Stored()).artifacts, Emitted(script[..n]))
      invariant Markers(ctx.published) ==
                Markers(old(ctx.published)) + (if ctx.turnEnded then [EndsIn(script[..n])] else [])
    {
      assert script[..n + 1] == script[..n] + [script[n]];
      ScriptSnoc(script[..n], script[n]);
      LeavesSnoc(old(ctx.View()), script[..n], script[n]);
      ApplyAllConcat(old(ctx.Stored()).artifacts, Emitted(script[..n]), Given(script[n]));
      Perform(ctx, script[n], now);
    }
    assert script[..|script|] == script;
  }

  /** A turn left without a lifecycle call fails. */
  method FailUnended(ctx: TaskContext, now: nat)
    requires Open(ctx)
    modifies ctx, ctx.store
    ensures ctx.Valid() && Eventually(ctx) == old(Eventually(ctx)) && ctx.pending == []
    ensures var closing: seq<TaskState> := if old(ctx.turnEnded) then [] else [Failed];
            && Markers(ctx.published) == Markers(old(ctx.published)) + closing
            && ctx.View() == if closing == [] then old(ctx.View()) else Speak(old(ctx.View()), Failed, Some([UNENDED_TEXT]))
  {
    if ctx.turnEnded { return; }
    assert ctx.pending + [] == ctx.pending && ctx.Stored().metadata + map[] == ctx.Stored().metadata;
    var r := ctx.TerminalTransition(Failed, Some([UNENDED_TEXT]), [], map[], now);
  }

  /** Drained artifacts go with the cancel, or with nothing when the task has ended. */
  method CancelDrained(ctx: TaskContext, now: nat)
    requires Open(ctx)
    modifies ctx, ctx.store
    ensures ctx.Valid() && Eventually(ctx) == old(Eventually(ctx)) && ctx.pending == []
    ensures var closing: seq<TaskState> := if Terminal(old(ctx.Stored()).status.state) then [] else [Canceled];
            && Markers(ctx.published) == Markers(old(ctx.published)) + closing
            && ctx.View() == if closing == [] then old(ctx.View()) else Speak(old(ctx.View()), Canceled, Some([CANCELED_TEXT]))
  {
    var pending := Drain(ctx);
    CancelInStorage(ctx, pending, now);
  }

  /** After `TaskTerminalStateError` the drained artifacts are written on their own. */
  method WriteDrained(ctx: TaskContext, now: nat)
    requires ctx.Valid()
    modifies ctx`pending, ctx.store
    ensures ctx.Valid() && Eventually(ctx) == old(Eventually(ctx)) && ctx.pending == [] && ctx.View() == old(ctx.View())
  {
    var pending := Drain(ctx);
    if pending != [] {
      assert ctx.Stored().metadata + map[] == ctx.Stored().metadata && ctx.Stored().history + [] == ctx.Stored().history;
      var o := ctx.store.UpdateTask(ctx.taskId, Lifecycle.NOTHING.(artifacts := pending), now);
    }
  }

  /** What the adapter makes of the way the handler was left. */
  method Conclude(ctx: TaskContext, end: Ending, now: nat)
    requires Open(ctx)
    modifies ctx, ctx.store
    ensures ctx.Valid() && Eventually(ctx) == old(Eventually(ctx))
    ensures !end.Shutdown? || old(ctx.turnEnded) ==> ctx.pending == []
    ensures ctx.View() == Concluded(old(ctx.View()), old(ctx.turnEnded), end)
    ensures Markers(ctx.published) ==
            Markers(old(ctx.published)) + Closing(old(ctx.turnEnded), old(ctx.Stored()).status.state, end)
  {
    match end {
      case Returns => FailUnended(ctx, now);
      case WatcherCancels => if !ctx.turnEnded { CancelDrained(ctx, now); }
      case OutsideCancels => CancelDrained(ctx, now);
      case RaisesTerminal => WriteDrained(ctx, now);
      case RaisesOther(error) =>
        if !ctx.turnEnded {
          var pending := Drain(ctx);
          MarkFailed(ctx, pending, error, now);
        }
      case Shutdown =>
    }
  }

  /** The working transition of a dequeued task. */
  method ToWorking(ctx: TaskContext, now: nat) returns (started: bool)
    requires ctx.Valid()
    modifies ctx`version, ctx.store
    ensures ctx.Valid() && started == !Terminal(old(ctx.Stored()).status.state)
    ensures !started ==> ctx.Stored() == old(ctx.Stored())
    ensures started ==> ctx.Synced() && ctx.View() == Speak(old(ctx.View()), Working, None)
    ensures ctx.Stored().artifacts == old(ctx.Stored()).artifacts
  {
    assert ctx.Stored().metadata + map[] == ctx.Stored().metadata && ctx.Stored().history + [] == ctx.Stored().history;
    var o := ctx.store.UpdateTask(ctx.taskId, Lifecycle.NOTHING.(state := Some(Working)), now);
    if o.TerminalTask? { return false; }
    ctx.version := o.version;
    started := true;
  }

  /** And its announcement. */
  method StartTurn(ctx: TaskContext, now: nat) returns (started: bool)
    requires ctx.Valid() && ctx.pending == [] && !ctx.turnEnded
    modifies ctx, ctx.store
    ensures ctx.Valid() && started == !Terminal(old(ctx.Stored()).status.state)
    ensures !started ==> ctx.Stored() == old(ctx.Stored()) && ctx.published == old(ctx.published)
    ensures started ==>
              && Open(ctx) && ctx.pending == [] && !ctx.turnEnded && ctx.View() == Speak(old(ctx.View()), Working, None)
              && ctx.published == old(ctx.published) + [StatusEvent(Working, None)]
    ensures ctx.Stored().artifacts == old(ctx.Stored()).artifacts
    ensures Markers(ctx.published) == Markers(old(ctx.published))
  {
    started := ToWorking(ctx, now);
    if started {
      var r := ctx.SendStatus(None, now);
    }
  }

  /** The handler and what the adapter makes of the way it was left. */
  method RunTurn(ctx: TaskContext, script: seq<Call>, end: Ending, now: nat)
    requires Open(ctx) && ctx.pending == [] && !ctx.turnEnded
    modifies ctx, ctx.store
    ensures ctx.Valid()
    ensures ctx.Stored().status.state == Final(script, end)
    ensures ctx.View() == Concluded(Leaves(old(ctx.View()), script), TurnEnds(script), end)
    ensures Markers(ctx.published) == Markers(old(ctx.published)) + Announced(script, end)
    ensures Eventually(ctx) == ApplyAll(old(ctx.Stored()).artifacts, Emitted(script))
    ensures !end.Shutdown? || TurnEnds(script) ==> ctx.pending == []
  {
    ghost var before := Markers(ctx.published);
    LeavesStanding(ctx.View(), script);
    Handle(ctx, script, now);
    ghost var handled := Markers(ctx.published);
    assert Standing(script) == ctx.Stored().status.state;
    Conclude(ctx, end, now);
    AnnouncedSplits(script, end, before, handled);
  }

  /** The turn of a dequeued task: a cancel requested before it started, the working transition, the
      handler, and what the adapter makes of the way it was left. */
  method RunTaskInner(ctx: TaskContext, script: seq<Call>, end: Ending, requested: bool, now: nat)
    requires ctx.Valid() && ctx.pending == [] && !ctx.turnEnded
    modifies ctx, ctx.store
    ensures ctx.Valid()
    // A task that is already terminal is left alone.
    ensures Terminal(old(ctx.Stored()).status.state) ==>
              ctx.Stored() == old(ctx.Stored()) && Markers(ctx.published) == Markers(old(ctx.published))
    ensures !Terminal(old(ctx.Stored()).status.state) && requested ==>
              && ctx.View() == Speak(old(ctx.View()), Canceled, Some([CANCELED_TEXT]))
              && Markers(ctx.published) == Markers(old(ctx.published)) + [Canceled]
              && ctx.Stored().artifacts == old(ctx.Stored()).artifacts
    // Otherwise it ends in the state it announces last (TurnConcludes says when that is final, and said once),
    ensures !Terminal(old(ctx.Stored()).status.state) && !requested ==>
              && ctx.Stored().status.state == Final(script, end)
              && Markers(ctx.published) == Markers(old(ctx.published)) + Announced(script, end)
    // shows the message of the first lifecycle call, which enters the history, and has its metadata,
    ensures !Terminal(old(ctx.Stored()).status.state) && !requested && !CanceledTwice(script, end) ==>
              forall k: nat | EndsTurn(script, k) ::
                && ctx.View().shown == script[k].says
                && ctx.View().said == (if script[k].says.Some? then old(ctx.View()).said + [(Agent, script[k].says.value)]
                                       else old(ctx.View()).said)
                && ctx.View().metadata == old(ctx.View()).metadata + script[k].metadata
    // or, without such a call or on top of it, what the progress calls and the adapter say,
    ensures !Terminal(old(ctx.Stored()).status.state) && !requested ==>
              ctx.View() == Concluded(Leaves(Speak(old(ctx.View()), Working, None), script), TurnEnds(script), end)
    // and every artifact write is persisted exactly once and in order, except those a shutdown finds in the buffer.
    ensures !Terminal(old(ctx.Stored()).status.state) && !requested ==>
              && Eventually(ctx) == ApplyAll(old(ctx.Stored()).artifacts, Emitted(script))
              && (!end.Shutdown? || TurnEnds(script) ==> ctx.pending == [])
  {
    if requested {
      CancelInStorage(ctx, [], now);
      return;
    }
    var started := StartTurn(ctx, now);
    if !started { return; }
    ghost var begun := ctx.View();
    RunTurn(ctx, script, end, now);
    forall k: nat | EndsTurn(script, k) && !CanceledTwice(script, end)
      ensures ctx.View().shown == script[k].says
      ensures ctx.View().said == if script[k].says.Some? then begun.said + [(Agent, script[k].says.value)] else begun.said
      ensures ctx.View().metadata == begun.metadata + script[k].metadata
    {
      LastWord(begun, script, end, k);
    }
  }
}
