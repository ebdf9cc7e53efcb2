/**
 What a follow-up submitter is told, and that it is told something: duplicate and refused are answers with a
 reason found in storage, a submission nobody interferes with is answered by its preconditions alone, and every
 helper returns after a bounded number of its own steps, whatever the others do.
 */
module LifecycleAnswers {
  import opened Tasks
  import opened Lifecycle
  import opened LifecycleSafety
  import opened LifecycleFollowUps

  // ----- What a submitter finds -----

  /** Nothing speaks against the message: the task goes on, the context matches, and a user is being waited for. */
  ghost predicate Welcome(m: Message, t: Task) {
    && !Terminal(t.status.state)
    && (m.contextId == "" || m.contextId == t.contextId)
    && (m.role.Agent? || Interrupted(t.status.state))
  }

  /** The first precondition that the message does not meet. */
  ghost predicate Violates(m: Message, t: Task, why: Refusal) {
    var fits := m.contextId == "" || m.contextId == t.contextId;
    match why
    case IsTerminal => Terminal(t.status.state)
    case ContextMismatch => !Terminal(t.status.state) && !fits
    case NotAccepting => !Terminal(t.status.state) && fits && m.role.User? && !Interrupted(t.status.state)
    case LostRace => false
  }

  /** At this step submitter i looks at the stored task: its load, or the reload after its write was refused. */
  ghost predicate Looks(w: World, e: Event, i: nat) {
    && e.Act? && e.i == i && !e.choice.Crash? && i < |w.actors| && w.actors[i].FollowUp?
    && (w.actors[i].fpc.FLoad? || w.actors[i].fpc.FReload?)
  }

  /** It finds its message stored already. */
  ghost predicate FindsMessage(w: World, e: Event, i: nat)
    requires |w.commits| > 0
  {
    && Looks(w, e, i)
    && Contains(Current(w).history, w.actors[i].msg.id)
    && (w.actors[i].fpc.FLoad? ==> Welcome(w.actors[i].msg, Current(w)))
  }

  /** It finds a reason against its message: a precondition at the load; at the reload, that the message is
      missing, the task having ended or not. */
  ghost predicate FindsReason(w: World, e: Event, i: nat, why: Refusal)
    requires |w.commits| > 0
  {
    && Looks(w, e, i)
    && var m, t := w.actors[i].msg, Current(w);
       if w.actors[i].fpc.FLoad? then Violates(m, t, why)
       else !Contains(t.history, m.id) && why == if Terminal(t.status.state) then IsTerminal else LostRace
  }

  /** It did so at some step of the run. */
  ghost predicate FoundMessage(w: World, events: seq<Event>, i: nat)
    requires |w.commits| > 0
  {
    if events == [] then false
    else
      || FoundMessage(w, events[..|events| - 1], i)
      || FindsMessage(Run(w, events[..|events| - 1]), events[|events| - 1], i)
  }

  ghost predicate FoundReason(w: World, events: seq<Event>, i: nat, why: Refusal)
    requires |w.commits| > 0
  {
    if events == [] then false
    else
      || FoundReason(w, events[..|events| - 1], i, why)
      || FindsReason(Run(w, events[..|events| - 1]), events[|events| - 1], i, why)
  }

  // ----- What it is told -----

  ghost predicate DuplicateRecord(w: World, i: nat, found: bool)
    requires |w.commits| > 0
  {
    if i >= |w.actors| then !found
    else match w.actors[i]
      case FollowUp(m, pc) => (pc.FDuplicate? <==> found) && (found ==> Contains(Current(w).history, m.id))
      case Gone => true
      case _ => !found
  }

  ghost predicate RefusalRecord(w: World, i: nat, why: Refusal, found: bool)
    requires |w.commits| > 0
  {
    if i >= |w.actors| then !found
    else match w.actors[i]
      case FollowUp(_, pc) =>
        (pc == FRefused(why) <==> found) && (found && why.IsTerminal? ==> Terminal(Current(w).status.state))
      case Gone => true
      case _ => !found
  }

  /** A terminal task stays so, and a message once stored. */
  lemma StoredStays(w: World, e: Event, id: MessageId)
    requires Inv(w)
    ensures var w' := Step(w, e);
            && (Contains(Current(w).history, id) ==> Contains(Current(w').history, id))
            && (Terminal(Current(w).status.state) ==> Terminal(Current(w').status.state))
  {
    var w' := Step(w, e);
    StepKeepsInv(w, e);
    StepExtends(w, e);
    Later(w'.commits, |w.commits| - 1, |w'.commits| - 1);
    assert w'.commits[|w.commits| - 1] == w.commits[|w.commits| - 1];
    if Contains(Current(w).history, id) {
      var j :| 0 <= j < |Current(w).history| && Current(w).history[j].id == id;
      assert Current(w').history[j].id == id;
    }
  }

  /** A pinned write that finds its version has nothing to fear from the terminal guard. */
  lemma PinnedWriteNotTerminal(w: World, a: Actor, c: Choice)
    requires |w.commits| > 0 && a.FollowUp? && a.fpc.FWrite? && Pinned(w.commits, a.fpc.v, a.fpc.loaded)
    requires !Refuses(a.msg, a.fpc.loaded)
    ensures var o := Try(w, FollowUpUpdate(a.msg, a.fpc.v, a.fpc.loaded), c); o.Committed? || o.VersionConflict?
    ensures Try(w, FollowUpUpdate(a.msg, a.fpc.v, a.fpc.loaded), c).Committed? ==> a.fpc.v == |w.commits|
  {
  }

  /** A step of submitter i: what it is told then is what it found then. */
  ghost predicate Tells(w: World, a: Actor, b: Actor, e: Event, i: nat, why: Refusal)
    requires |w.commits| > 0 && a.FollowUp?
  {
    && b.FollowUp? && b.msg == a.msg
    && (b.fpc.FDuplicate? <==> a.fpc.FDuplicate? || FindsMessage(w, e, i))
    && (b.fpc == FRefused(why) <==> a.fpc == FRefused(why) || FindsReason(w, e, i, why))
  }

  lemma LookTells(w: World, i: nat, c: Choice, now: nat, why: Refusal)
    requires |w.commits| > 0 && i < |w.actors| && Looks(w, Act(i, c, now), i)
    ensures Tells(w, w.actors[i], FollowUpStep(w, i, w.actors[i], c).actor, Act(i, c, now), i, why)
  {
  }

  /** Between the looks it is told nothing new. */
  lemma RestTells(w: World, i: nat, c: Choice, now: nat, why: Refusal)
    requires |w.commits| > 0 && i < |w.actors| && w.actors[i].FollowUp?
    requires !Looks(w, Act(i, c, now), i) && !w.actors[i].fpc.FWrite? && !c.Crash?
    ensures Tells(w, w.actors[i], FollowUpStep(w, i, w.actors[i], c).actor, Act(i, c, now), i, why)
  {
  }

  lemma WriteTells(w: World, i: nat, c: Choice, now: nat, why: Refusal)
    requires |w.commits| > 0 && i < |w.actors| && w.actors[i].FollowUp? && w.actors[i].fpc.FWrite?
    requires FollowUpOk(w.commits, i, w.actors[i].msg, w.actors[i].fpc)
    ensures Tells(w, w.actors[i], FollowUpStep(w, i, w.actors[i], c).actor, Act(i, c, now), i, why)
  {
    PinnedWriteNotTerminal(w, w.actors[i], c);
  }

  lemma OwnStepTells(w: World, i: nat, c: Choice, now: nat, why: Refusal)
    requires Inv(w) && i < |w.actors| && w.actors[i].FollowUp? && !c.Crash?
    ensures Tells(w, w.actors[i], FollowUpStep(w, i, w.actors[i], c).actor, Act(i, c, now), i, why)
  {
    assert ActorOk(w.withholds, w.commits, i, w.actors[i]);
    if Looks(w, Act(i, c, now), i) {
      LookTells(w, i, c, now, why);
    } else if w.actors[i].fpc.FWrite? {
      WriteTells(w, i, c, now, why);
    } else {
      RestTells(w, i, c, now, why);
    }
  }

  lemma DuplicateStep(w: World, e: Event, i: nat, found: bool)
    requires Inv(w) && DuplicateRecord(w, i, found)
    ensures DuplicateRecord(Step(w, e), i, found || FindsMessage(w, e, i))
  {
    if i < |w.actors| && w.actors[i].FollowUp? {
      StoredStays(w, e, w.actors[i].msg.id);
      if e.Act? && e.i == i && !e.choice.Crash? { OwnStepTells(w, i, e.choice, e.now, LostRace); }
    } else if e.Act? && e.i == i && i < |w.actors| {
      NoSubmitterBorn(w, i, e.choice);
    }
  }

  lemma RefusalStep(w: World, e: Event, i: nat, why: Refusal, found: bool)
    requires Inv(w) && RefusalRecord(w, i, why, found)
    ensures RefusalRecord(Step(w, e), i, why, found || FindsReason(w, e, i, why))
  {
    if i < |w.actors| && w.actors[i].FollowUp? {
      SubmitterRefusal(w, e, i, why, found);
    } else if e.Act? && e.i == i && i < |w.actors| {
      NoSubmitterBorn(w, i, e.choice);
    }
  }

  lemma SubmitterRefusal(w: World, e: Event, i: nat, why: Refusal, found: bool)
    requires Inv(w) && RefusalRecord(w, i, why, found) && i < |w.actors| && w.actors[i].FollowUp?
    ensures RefusalRecord(Step(w, e), i, why, found || FindsReason(w, e, i, why))
  {
    StoredStays(w, e, w.actors[i].msg.id);
    if e.Act? && e.i == i && !e.choice.Crash? {
      OwnStepTells(w, i, e.choice, e.now, why);
      assert Step(w, e).actors[i] == FollowUpStep(w, i, w.actors[i], e.choice).actor;
    }
  }

  /** Submitters come from clients only. */
  lemma NoSubmitterBorn(w: World, i: nat, c: Choice)
    requires |w.commits| > 0 && i < |w.actors| && !w.actors[i].FollowUp?
    ensures !Local(w, i, w.actors[i], c).actor.FollowUp?
  {
    if !c.Crash? {
      match w.actors[i]
      case Worker(_, _) => WorkerBearsNone(w, i, w.actors[i], c);
      case EnqueueFailed(_, _) => EnqueueBearsNone(w, i, w.actors[i], c);
      case Finisher(_, _, _, _, _, _) => FinisherBearsNone(w, i, w.actors[i], c);
      case _ =>
    }
  }

  lemma EnqueueBearsNone(w: World, i: nat, a: Actor, c: Choice)
    requires |w.commits| > 0 && a.EnqueueFailed?
    ensures EnqueueFailedStep(w, i, a, c).actor.EnqueueFailed?
  {
  }

  lemma FinisherBearsNone(w: World, i: nat, a: Actor, c: Choice)
    requires |w.commits| > 0 && a.Finisher?
    ensures FinisherStep(w, i, a, c).actor.Finisher?
  {
  }

  lemma AttemptBearsNone(w: World, i: nat, ctx: Ctx, op: Op, taken: seq<ArtifactWrite>, v: nat, retry: bool, c: Choice)
    requires |w.commits| > 0
    ensures AttemptStep(w, i, ctx, op, taken, v, retry, c).actor.Worker?
  {
  }

  lemma WorkerBearsNone(w: World, i: nat, a: Actor, c: Choice)
    requires |w.commits| > 0 && a.Worker?
    ensures !WorkerStep(w, i, a, c).actor.FollowUp?
  {
    match a.wpc
    case Idle => IdleBearsNone(w, i, a.ctx, c);
    case Writing(op, taken) => AttemptBearsNone(w, i, a.ctx, op, taken, a.ctx.version, false, c);
    case Retrying(op, taken, v) => AttemptBearsNone(w, i, a.ctx, op, taken, v, true, c);
    case _ =>
  }

  lemma IdleBearsNone(w: World, i: nat, ctx: Ctx, c: Choice)
    requires |w.commits| > 0
    ensures !IdleStep(w, i, ctx, c).actor.FollowUp?
  {
  }

  lemma {:induction false} RunTells(w: World, events: seq<Event>, i: nat, why: Refusal)
    requires Initial(w)
    ensures DuplicateRecord(Run(w, events), i, FoundMessage(w, events, i))
    ensures RefusalRecord(Run(w, events), i, why, FoundReason(w, events, i, why))
    decreases |events|
  {
    if events != [] {
      var n := |events| - 1;
      RunTells(w, events[..n], i, why);
      RunKeepsInv(w, events[..n]);
      DuplicateStep(Run(w, events[..n]), events[n], i, FoundMessage(w, events[..n], i));
      RefusalStep(Run(w, events[..n]), events[n], i, why, FoundReason(w, events[..n], i, why));
    }
  }

  /** A submitter is told `duplicate` if and only if it found its message stored, which then is stored for good;
      and it is turned down for a reason if and only if it found that reason. */
  lemma AnsweredExactly(w: World, events: seq<Event>, i: nat, why: Refusal)
    requires Initial(w) && i < |Run(w, events).actors| && Run(w, events).actors[i].FollowUp?
    ensures var r := Run(w, events);
            var a := r.actors[i];
            && (a.fpc.FDuplicate? <==> FoundMessage(w, events, i))
            && (a.fpc.FDuplicate? ==> Contains(Current(r).history, a.msg.id))
            && (a.fpc == FRefused(why) <==> FoundReason(w, events, i, why))
            && (a.fpc == FRefused(IsTerminal) ==> Terminal(Current(r).status.state))
  {
    RunTells(w, events, i, why);
    RunTells(w, events, i, IsTerminal);
  }

  // ----- Only an accepted submitter writes, and once -----

  ghost predicate AllWritesOk(w: World) { forall i :: 0 <= i < |w.actors| ==> WritesOk(w.commits, i, w.actors[i]) }

  ghost predicate WritesOk(cs: seq<Commit>, i: nat, a: Actor) {
    a.FollowUp? ==> forall k :: 1 <= k < |cs| && cs[k].writer == i ==> IsAccepted(a) && k == AcceptedAt(a)
  }

  /** A submitter's own step: it writes on its way to being accepted, and never after. */
  lemma OwnWrite(w: World, i: nat, c: Choice)
    requires |w.commits| > 0 && i < |w.actors| && WritesOk(w.commits, i, w.actors[i])
    ensures var eff := Local(w, i, w.actors[i], c);
            eff.actor.FollowUp? ==>
              if eff.write.Some? then !IsAccepted(w.actors[i]) && IsAccepted(eff.actor) && AcceptedAt(eff.actor) == |w.commits|
              else IsAccepted(w.actors[i]) ==> IsAccepted(eff.actor) && AcceptedAt(eff.actor) == AcceptedAt(w.actors[i])
    ensures Local(w, i, w.actors[i], c).actor.FollowUp? ==> w.actors[i].FollowUp?
  {
    if !w.actors[i].FollowUp? { NoSubmitterBorn(w, i, c); }
  }

  lemma WritesAdvance(cs: seq<Commit>, more: seq<Commit>, i: nat, a: Actor, b: Actor, j: nat)
    requires |cs| > 0 && cs <= more && |more| <= |cs| + 1 && WritesOk(cs, i, a) && (b.FollowUp? ==> a.FollowUp?)
    requires |more| > |cs| ==> more[|cs|].writer == j
    requires b.FollowUp? && IsAccepted(a) ==> IsAccepted(b) && AcceptedAt(b) == AcceptedAt(a)
    requires b.FollowUp? && i == j && |more| > |cs| ==> !IsAccepted(a) && IsAccepted(b) && AcceptedAt(b) == |cs|
    ensures WritesOk(more, i, b)
  {
    if b.FollowUp? {
      forall k | 1 <= k < |more| && more[k].writer == i ensures IsAccepted(b) && k == AcceptedAt(b) {
        if k < |cs| { assert cs[k] == more[k]; }
      }
    }
  }

  lemma ActWrites(w: World, j: nat, c: Choice, now: nat)
    requires |w.commits| > 0 && j < |w.actors| && AllWritesOk(w)
    ensures AllWritesOk(Step(w, Act(j, c, now)))
  {
    var w' := Step(w, Act(j, c, now));
    StepExtends(w, Act(j, c, now));
    OwnWrite(w, j, c);
    forall i | 0 <= i < |w'.actors| ensures WritesOk(w'.commits, i, w'.actors[i]) {
      WritesAdvance(w.commits, w'.commits, i, w.actors[i], w'.actors[i], j);
    }
  }

  lemma WriteStep(w: World, e: Event)
    requires |w.commits| > 0 && WritersKnown(w) && AllWritesOk(w)
    ensures AllWritesOk(Step(w, e))
  {
    StepExtends(w, e);
    if e.Act? && e.i < |w.actors| { ActWrites(w, e.i, e.choice, e.now); }
  }

  lemma {:induction false} RunWrites(w: World, events: seq<Event>)
    requires Initial(w)
    ensures AllWritesOk(Run(w, events))
    decreases |events|
  {
    if events != [] {
      RunWrites(w, events[..|events| - 1]);
      RunWritersKnown(w, events[..|events| - 1]);
      WriteStep(Run(w, events[..|events| - 1]), events[|events| - 1]);
    }
  }

  /** Whoever is told anything but `accepted` has left no trace, and an accepted submitter wrote once. */
  lemma OnlyAcceptedWrites(w: World, events: seq<Event>, i: nat, k: nat)
    requires Initial(w) && i < |Run(w, events).actors| && Run(w, events).actors[i].FollowUp?
    requires 1 <= k < |Run(w, events).commits|
    ensures var r := Run(w, events);
            r.commits[k].writer == i <==> IsAccepted(r.actors[i]) && k == AcceptedAt(r.actors[i])
  {
    RunWrites(w, events);
    RunKeepsInv(w, events);
    var r := Run(w, events);
    assert WritesOk(r.commits, i, r.actors[i]) && ActorOk(r.withholds, r.commits, i, r.actors[i]);
  }

  // ----- A submission that nobody interferes with -----

  /** No commit from index n on is another actor's. */
  ghost predicate OnlyMine(cs: seq<Commit>, n: nat, i: nat) {
    forall k :: n <= k < |cs| ==> cs[k].writer == i
  }

  ghost predicate Alone(cs: seq<Commit>, now: seq<Commit>, m: Message, pc: FollowUpPc)
    requires |cs| > 0
  {
    var t := cs[|cs| - 1].task;
    match pc
    case FReadVersion => now == cs
    case FLoad(v) => now == cs && v == |cs|
    case FWrite(v, loaded) => now == cs && v == |cs| && loaded == t && Welcome(m, t) && !Contains(t.history, m.id)
    case FReload => false
    case FAnnounce(k) => k == |cs| && Welcome(m, t) && !Contains(t.history, m.id)
    case FAccepted(k) => k == |cs| && Welcome(m, t) && !Contains(t.history, m.id)
    case FDuplicate => Welcome(m, t) && Contains(t.history, m.id)
    case FRefused(why) => Violates(m, t, why)
  }

  lemma NewCommit(w: World, e: Event)
    requires |w.commits| > 0
    ensures var w' := Step(w, e);
            w'.commits != w.commits ==> |w'.commits| == |w.commits| + 1 && e.Act? && w'.commits[|w.commits|].writer == e.i
  {
  }

  lemma AloneOwn(cs: seq<Commit>, w: World, e: Event, i: nat, m: Message)
    requires 0 < |cs| <= |w.commits| && i < |w.actors| && e.Act? && e.i == i
    requires w.actors[i].FollowUp? && w.actors[i].msg == m && Alone(cs, w.commits, m, w.actors[i].fpc)
    ensures var w' := Step(w, e);
            w'.actors[i] == Gone || (w'.actors[i].FollowUp? && w'.actors[i].msg == m && Alone(cs, w'.commits, m, w'.actors[i].fpc))
  {
  }

  lemma AloneStep(cs: seq<Commit>, w: World, e: Event, i: nat, m: Message)
    requires 0 < |cs| <= |w.commits| && i < |w.actors|
    requires OnlyMine(Step(w, e).commits, |cs|, i)
    requires w.actors[i] == Gone || (w.actors[i].FollowUp? && w.actors[i].msg == m && Alone(cs, w.commits, m, w.actors[i].fpc))
    ensures var w' := Step(w, e);
            w'.actors[i] == Gone || (w'.actors[i].FollowUp? && w'.actors[i].msg == m && Alone(cs, w'.commits, m, w'.actors[i].fpc))
  {
    var w' := Step(w, e);
    StepExtends(w, e);
    if e.Act? && e.i == i && w.actors[i].FollowUp? {
      AloneOwn(cs, w, e, i, m);
    } else {
      NewCommit(w, e);
    }
  }

  lemma {:induction false} AloneRun(cs: seq<Commit>, w: World, events: seq<Event>, i: nat, m: Message)
    requires cs == w.commits && |cs| > 0 && i < |w.actors| && w.actors[i] == FollowUp(m, FReadVersion)
    requires OnlyMine(Run(w, events).commits, |cs|, i)
    ensures var r := Run(w, events);
            && i < |r.actors|
            && (r.actors[i] == Gone || (r.actors[i].FollowUp? && r.actors[i].msg == m && Alone(cs, r.commits, m, r.actors[i].fpc)))
    decreases |events|
  {
    if events != [] {
      var before, e := Run(w, events[..|events| - 1]), events[|events| - 1];
      StepExtends(before, e);
      assert OnlyMine(before.commits, |cs|, i) by {
        assert forall k :: 0 <= k < |before.commits| ==> before.commits[k] == Step(before, e).commits[k];
      }
      AloneRun(cs, w, events[..|events| - 1], i, m);
      AloneStep(cs, before, e, i, m);
    }
  }

  /** While nobody else commits, whatever else the others do, a submission that has been answered was answered by
      the task as it stood: accepted exactly when nothing speaks against a new message. */
  lemma UndisturbedAnswer(w: World, name: string, role: Role, contextId: string, texts: seq<string>, events: seq<Event>)
    requires |w.commits| > 0
    requires var r, i := Run(Step(w, SpawnFollowUp(name, role, contextId, texts)), events), |w.actors|;
             && OnlyMine(r.commits, |w.commits|, i)
             && i < |r.actors| && r.actors[i].FollowUp? && Left(r.actors[i]) == 0
    ensures var r, i := Run(Step(w, SpawnFollowUp(name, role, contextId, texts)), events), |w.actors|;
            var m, t, pc := Message(Client(name), role, contextId, texts), Current(w), r.actors[i].fpc;
            && (pc.FAccepted? <==> Welcome(m, t) && !Contains(t.history, m.id))
            && (pc.FDuplicate? <==> Welcome(m, t) && Contains(t.history, m.id))
            && (forall why :: pc == FRefused(why) <==> Violates(m, t, why))
  {
    var m := Message(Client(name), role, contextId, texts);
    AloneRun(w.commits, Step(w, SpawnFollowUp(name, role, contextId, texts)), events, |w.actors|, m);
  }

  /** The one commit since has this state. */
  ghost predicate FinishedSince(cs: seq<Commit>, now: seq<Commit>, target: TaskState) {
    |now| == |cs| + 1 && cs <= now && now[|cs|].task.status.state == target
  }

  ghost predicate AloneFailing(cs: seq<Commit>, now: seq<Commit>, pc: EnqueuePc)
    requires |cs| > 0
  {
    var submitted := cs[|cs| - 1].task.status.state == Submitted;
    match pc
    case EReadVersion => now == cs
    case ELoad(v) => now == cs && v == |cs|
    case EWrite(v, _) => now == cs && v == |cs| && submitted
    case EReload(_) => submitted && FinishedSince(cs, now, Failed)
    case EAnnounce(_, _) => submitted && FinishedSince(cs, now, Failed)
    case EDone => if submitted then FinishedSince(cs, now, Failed) else now == cs
  }

  lemma AloneFailingOwn(cs: seq<Commit>, w: World, e: Event, i: nat)
    requires 0 < |cs| <= |w.commits| && i < |w.actors| && e.Act? && e.i == i
    requires w.actors[i].EnqueueFailed? && AloneFailing(cs, w.commits, w.actors[i].epc)
    ensures var w' := Step(w, e);
            w'.actors[i] == Gone || (w'.actors[i].EnqueueFailed? && AloneFailing(cs, w'.commits, w'.actors[i].epc))
  {
  }

  lemma AloneFailingStep(cs: seq<Commit>, w: World, e: Event, i: nat)
    requires 0 < |cs| <= |w.commits| && i < |w.actors|
    requires OnlyMine(Step(w, e).commits, |cs|, i)
    requires w.actors[i] == Gone || (w.actors[i].EnqueueFailed? && AloneFailing(cs, w.commits, w.actors[i].epc))
    ensures var w' := Step(w, e);
            w'.actors[i] == Gone || (w'.actors[i].EnqueueFailed? && AloneFailing(cs, w'.commits, w'.actors[i].epc))
  {
    StepExtends(w, e);
    if e.Act? && e.i == i && w.actors[i].EnqueueFailed? { AloneFailingOwn(cs, w, e, i); } else { NewCommit(w, e); }
  }

  lemma {:induction false} AloneFailingRun(cs: seq<Commit>, w: World, events: seq<Event>, i: nat)
    requires cs == w.commits && |cs| > 0 && i < |w.actors| && w.actors[i].EnqueueFailed? && w.actors[i].epc.EReadVersion?
    requires OnlyMine(Run(w, events).commits, |cs|, i)
    ensures var r := Run(w, events);
            && i < |r.actors|
            && (r.actors[i] == Gone || (r.actors[i].EnqueueFailed? && AloneFailing(cs, r.commits, r.actors[i].epc)))
    decreases |events|
  {
    if events != [] {
      var before, e := Run(w, events[..|events| - 1]), events[|events| - 1];
      StepExtends(before, e);
      assert OnlyMine(before.commits, |cs|, i) by {
        assert forall k :: 0 <= k < |before.commits| ==> before.commits[k] == Step(before, e).commits[k];
      }
      AloneFailingRun(cs, w, events[..|events| - 1], i);
      AloneFailingStep(cs, before, e, i);
    }
  }

  /** Likewise a failed enqueue that has been dealt with: the task has failed if and only if it was submitted. */
  lemma UndisturbedEnqueueFailure(w: World, events: seq<Event>)
    requires |w.commits| > 0
    requires var r, i := Run(Step(w, SpawnEnqueueFailed), events), |w.actors|;
             && OnlyMine(r.commits, |w.commits|, i)
             && i < |r.actors| && r.actors[i].EnqueueFailed? && Left(r.actors[i]) == 0
    ensures var r := Run(Step(w, SpawnEnqueueFailed), events);
            if Current(w).status.state == Submitted then FinishedSince(w.commits, r.commits, Failed) else r.commits == w.commits
  {
    AloneFailingRun(w.commits, Step(w, SpawnEnqueueFailed), events, |w.actors|);
  }

  ghost predicate AloneFinishing(cs: seq<Commit>, now: seq<Commit>, a: Actor)
    requires |cs| > 0 && a.Finisher?
  {
    var live := !Terminal(cs[|cs| - 1].task.status.state);
    && a.artifacts == []
    && match a.npc
       case NReadVersion => now == cs
       case NLoad(v) => now == cs && v == |cs|
       case NWrite(v) => now == cs && v == |cs| && (a.target == Canceled ==> live)
       case NAnnounce(_) => live && FinishedSince(cs, now, a.target)
       case NDone(_) => if live then FinishedSince(cs, now, a.target) else now == cs
       case _ => false
  }

  lemma AloneFinishingOwn(cs: seq<Commit>, w: World, i: nat, c: Choice, now: nat)
    requires 0 < |cs| <= |w.commits| && i < |w.actors| && !c.Crash?
    requires w.actors[i].Finisher? && AloneFinishing(cs, w.commits, w.actors[i])
    ensures var w' := Step(w, Act(i, c, now));
            w'.actors[i].Finisher? && w'.actors[i].target == w.actors[i].target && AloneFinishing(cs, w'.commits, w'.actors[i])
  {
  }

  ghost predicate FinishingOrGone(cs: seq<Commit>, w: World, i: nat, target: TaskState)
    requires |cs| > 0
  {
    i < |w.actors| && (w.actors[i] == Gone
                       || (w.actors[i].Finisher? && w.actors[i].target == target && AloneFinishing(cs, w.commits, w.actors[i])))
  }

  lemma AloneFinishingStep(cs: seq<Commit>, w: World, e: Event, i: nat, target: TaskState)
    requires 0 < |cs| <= |w.commits| && OnlyMine(Step(w, e).commits, |cs|, i) && FinishingOrGone(cs, w, i, target)
    ensures FinishingOrGone(cs, Step(w, e), i, target)
  {
    StepExtends(w, e);
    if e.Act? && e.i == i && w.actors[i].Finisher? && !e.choice.Crash? {
      AloneFinishingOwn(cs, w, i, e.choice, e.now);
    } else {
      NewCommit(w, e);
    }
  }

  lemma {:induction false} AloneFinishingRun(cs: seq<Commit>, w: World, events: seq<Event>, i: nat, target: TaskState)
    requires cs == w.commits && |cs| > 0 && FinishingOrGone(cs, w, i, target)
    requires OnlyMine(Run(w, events).commits, |cs|, i)
    ensures FinishingOrGone(cs, Run(w, events), i, target)
    decreases |events|
  {
    if events != [] {
      var before, e := Run(w, events[..|events| - 1]), events[|events| - 1];
      StepExtends(before, e);
      assert OnlyMine(before.commits, |cs|, i) by {
        assert forall k :: 0 <= k < |before.commits| ==> before.commits[k] == Step(before, e).commits[k];
      }
      AloneFinishingRun(cs, w, events[..|events| - 1], i, target);
      AloneFinishingStep(cs, before, e, i, target);
    }
  }

  /** And a cancel or mark-failed that has returned has left the task canceled or failed if it was live, and has left
      it alone if it was terminal. */
  lemma UndisturbedFinish(w: World, events: seq<Event>, cancels: bool)
    requires |w.commits| > 0
    requires var r, i := Run(Step(w, if cancels then SpawnForceCancel else SpawnMarkFailed), events), |w.actors|;
             && OnlyMine(r.commits, |w.commits|, i)
             && i < |r.actors| && r.actors[i].Finisher? && Left(r.actors[i]) == 0
    ensures var r := Run(Step(w, if cancels then SpawnForceCancel else SpawnMarkFailed), events);
            if Terminal(Current(w).status.state) then r.commits == w.commits
            else FinishedSince(w.commits, r.commits, if cancels then Canceled else Failed)
  {
    AloneFinishingRun(w.commits, Step(w, if cancels then SpawnForceCancel else SpawnMarkFailed), events, |w.actors|,
                      if cancels then Canceled else Failed);
  }

  // ----- Every call returns -----

  /** At most so many steps of its own separate an actor from its answer, or a worker from its handler. */
  ghost function Left(a: Actor): nat {
    match a
    case FollowUp(_, pc) =>
      (match pc case FReadVersion => 4 case FLoad(_) => 3 case FWrite(_, _) => 2 case FReload => 1 case FAnnounce(_) => 1 case _ => 0)
    case EnqueueFailed(_, pc) =>
      (match pc case EReadVersion => 5 case ELoad(_) => 4 case EWrite(_, _) => 3 case EReload(_) => 2 case EAnnounce(_, _) => 1 case EDone => 0)
    case Finisher(_, _, _, _, _, pc) =>
      (match pc
       case NReadVersion => 7 case NLoad(_) => 6 case NWrite(_) => 5 case NReadVersion2 => 4
       case NLoad2(_) => 3 case NWrite2(_) => 2 case NFallback => 1 case NAnnounce(_) => 1 case NDone(_) => 0)
    case Worker(_, pc) =>
      (match pc
       case Starting => 9
       case PreCancel => 8
       case ToWorking => 2
       case Telling(before, _) => |before| + 1
       case Writing(op, _) => TellLeft(op) + 4
       case Reloading(op, _, _) => TellLeft(op) + 3
       case Rereading(op, _) => TellLeft(op) + 2
       case Retrying(op, _, _) => TellLeft(op) + 1
       case Buffering(_) => 1
       case Refreshing => 1
       case Draining(_) => 1
       case _ => 0)
    case MetadataWriter(_) => 1
    case Gone => 0
  }

  ghost function TellLeft(op: Op): nat { if op.OpLifecycle? then |op.extra| + 2 else 1 }

  /** How many steps of a run are actor i's. */
  ghost function Turns(events: seq<Event>, i: nat): nat {
    if events == [] then 0
    else Turns(events[..|events| - 1], i) + (if events[|events| - 1].Act? && events[|events| - 1].i == i then 1 else 0)
  }

  lemma AttemptCountsDown(w: World, i: nat, ctx: Ctx, op: Op, taken: seq<ArtifactWrite>, v: nat, retry: bool, c: Choice)
    requires |w.commits| > 0
    ensures Left(AttemptStep(w, i, ctx, op, taken, v, retry, c).actor) <= TellLeft(op) + if retry then 0 else 3
  {
  }

  lemma WorkerCountsDown(w: World, i: nat, a: Actor, c: Choice)
    requires |w.commits| > 0 && a.Worker? && Left(a) > 0
    ensures Left(WorkerStep(w, i, a, c).actor) < Left(a)
  {
    match a.wpc
    case Writing(op, taken) => AttemptCountsDown(w, i, a.ctx, op, taken, a.ctx.version, false, c);
    case Retrying(op, taken, v) => AttemptCountsDown(w, i, a.ctx, op, taken, v, true, c);
    case _ =>
  }

  lemma FinishingCountsDown(w: World, i: nat, a: Actor, c: Choice)
    requires |w.commits| > 0 && a.Finisher? && (a.npc.NWrite? || a.npc.NWrite2? || a.npc.NFallback?)
    ensures Left(FinisherStep(w, i, a, c).actor) < Left(a)
  {
  }

  lemma FinisherCountsDown(w: World, i: nat, a: Actor, c: Choice)
    requires |w.commits| > 0 && a.Finisher? && Left(a) > 0
    ensures Left(FinisherStep(w, i, a, c).actor) < Left(a)
  {
    if a.npc.NWrite? || a.npc.NWrite2? || a.npc.NFallback? { FinishingCountsDown(w, i, a, c); }
  }

  lemma StepCountsDown(w: World, i: nat, a: Actor, c: Choice)
    requires |w.commits| > 0 && Left(a) > 0
    ensures Left(Local(w, i, a, c).actor) < Left(a)
  {
    if !c.Crash? {
      match a
      case FollowUp(_, _) => assert Left(FollowUpStep(w, i, a, c).actor) < Left(a);
      case EnqueueFailed(_, _) => assert Left(EnqueueFailedStep(w, i, a, c).actor) < Left(a);
      case Finisher(_, _, _, _, _, _) => FinisherCountsDown(w, i, a, c);
      case Worker(_, _) => WorkerCountsDown(w, i, a, c);
      case _ =>
    }
  }

  /** Actor i stood at the end of a call after n steps of the run. */
  ghost predicate ReadyAt(w: World, events: seq<Event>, n: nat, i: nat)
    requires |w.commits| > 0
  {
    n <= |events| && i < |Run(w, events[..n]).actors| && Left(Run(w, events[..n]).actors[i]) == 0
  }

  lemma StepLeaves(w: World, e: Event, i: nat)
    requires |w.commits| > 0 && i < |w.actors| && Left(w.actors[i]) > 0
    ensures i < |Step(w, e).actors|
    ensures Left(Step(w, e).actors[i]) + (if e.Act? && e.i == i then 1 else 0) <= Left(w.actors[i])
  {
    if e.Act? && e.i == i { StepCountsDown(w, i, w.actors[i], e.choice); }
  }

  lemma {:induction false} Countdown(w: World, events: seq<Event>, i: nat)
    requires |w.commits| > 0 && i < |w.actors|
    requires forall n: nat :: !ReadyAt(w, events, n, i)
    ensures i < |Run(w, events).actors|
    ensures Left(Run(w, events).actors[i]) + Turns(events, i) <= Left(w.actors[i])
    decreases |events|
  {
    if events != [] {
      var m := |events| - 1;
      forall n: nat | n <= m ensures !ReadyAt(w, events[..m], n, i) {
        assert events[..m][..n] == events[..n] && !ReadyAt(w, events, n, i);
      }
      Countdown(w, events[..m], i);
      assert Left(Run(w, events[..m]).actors[i]) > 0 by { assert !ReadyAt(w, events, m, i); }
      StepLeaves(Run(w, events[..m]), events[m], i);
    }
  }

  /** Every call of every actor comes to its end within the steps it has left, counting only its own. */
  lemma CallsReturn(w: World, events: seq<Event>, i: nat)
    requires |w.commits| > 0 && i < |w.actors| && Turns(events, i) >= Left(w.actors[i])
    ensures exists n: nat :: ReadyAt(w, events, n, i)
  {
    if forall n: nat :: !ReadyAt(w, events, n, i) {
      Countdown(w, events, i);
      assert events[..|events|] == events;
      assert ReadyAt(w, events, |events|, i);
    }
  }

  ghost predicate Helper(a: Actor) { a.FollowUp? || a.EnqueueFailed? || a.Finisher? || a.Gone? }

  /** In particular a submission, a failed enqueue, a cancel and a mark-failed are over after seven steps of their
      own, and stay so: no retry goes on while others keep winning. */
  lemma {:induction false} HelpersReturn(w: World, events: seq<Event>, i: nat)
    requires |w.commits| > 0 && i < |w.actors| && Helper(w.actors[i])
    ensures i < |Run(w, events).actors| && Helper(Run(w, events).actors[i])
    ensures var left := Left(Run(w, events).actors[i]); left == 0 || left + Turns(events, i) <= Left(w.actors[i])
    ensures Turns(events, i) >= 7 ==> Left(Run(w, events).actors[i]) == 0
    decreases |events|
  {
    if events != [] {
      var m := |events| - 1;
      HelpersReturn(w, events[..m], i);
      HelperStep(Run(w, events[..m]), events[m], i);
      if Left(Run(w, events[..m]).actors[i]) > 0 { StepLeaves(Run(w, events[..m]), events[m], i); }
    }
  }

  lemma HelperStep(w: World, e: Event, i: nat)
    requires |w.commits| > 0 && i < |w.actors| && Helper(w.actors[i])
    ensures i < |Step(w, e).actors| && Helper(Step(w, e).actors[i])
    ensures Left(w.actors[i]) == 0 ==> Left(Step(w, e).actors[i]) == 0
  {
    if e.Act? && e.i == i && w.actors[i].Finisher? { FinisherBearsNone(w, i, w.actors[i], e.choice); }
  }
}
