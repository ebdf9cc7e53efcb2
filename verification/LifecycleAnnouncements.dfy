/**
 Nothing is committed in silence: in every run each state change is announced on the bus, still to be announced by
 its writer, or was kept from it by a crash or a cancelled publish, exactly one of the three. So whoever returns
 from a cancel, a mark-failed, a failed enqueue or a follow-up has announced what it committed.
 */
module LifecycleAnnouncements {
  import opened Tasks
  import opened Lifecycle
  import opened LifecycleSafety
  import opened LifecycleMarkers

  ghost predicate Told(bus: seq<BusEvent>, k: nat) {
    exists b :: 0 <= b < |bus| && CommitOf(bus[b]) == Some(k)
  }

  /** The writer of commit k has still to announce it. */
  ghost predicate StillOwed(cs: seq<Commit>, actors: seq<Actor>, k: nat) {
    k < |cs| && cs[k].writer < |actors| && Owed(actors[cs[k].writer]) == Some(k)
  }

  /** This step takes the announcement of commit k away: its writer crashes, or its publish is cancelled or raises. */
  ghost predicate Silences(w: World, e: Event, k: nat) {
    && e.Act? && e.i < |w.actors| && Owed(w.actors[e.i]) == Some(k)
    && (e.choice.Crash? || (e.choice.Abort? && w.actors[e.i].Worker?))
  }

  ghost predicate Silenced(w: World, events: seq<Event>, k: nat)
    requires |w.commits| > 0
  {
    if events == [] then false
    else
      || Silenced(w, events[..|events| - 1], k)
      || Silences(Run(w, events[..|events| - 1]), events[|events| - 1], k)
  }

  // ----- One step of one actor -----

  /** What an actor owes it goes on owing, announces, or is kept from announcing; a new state change is owed. */
  ghost predicate Accounts(n: nat, a: Actor, c: Choice, eff: Effect) {
    && (Owed(a).Some? ==>
          if c.Crash? || (c.Abort? && a.Worker?) then Owed(eff.actor).None? && Announced(eff).None?
          else (Announced(eff) == Owed(a) && Owed(eff.actor).None?) || (Announced(eff).None? && Owed(eff.actor) == Owed(a)))
    && (Owed(a).Some? ==> eff.write.None?)
    && (Owed(a).None? ==>
          Announced(eff).None? && Owed(eff.actor) == if eff.write.Some? && eff.write.value.state.Some? then Some(n) else None)
  }

  ghost function Announced(eff: Effect): Option<nat> {
    if eff.event.Some? then CommitOf(eff.event.value) else None
  }

  lemma FinisherAccounts(w: World, i: nat, a: Actor, c: Choice)
    requires |w.commits| > 0 && a.Finisher? && !c.Crash?
    ensures Accounts(|w.commits|, a, c, FinisherStep(w, i, a, c))
  {
  }

  lemma FollowUpAccounts(w: World, i: nat, a: Actor, c: Choice)
    requires |w.commits| > 0 && a.FollowUp? && !c.Crash?
    ensures Accounts(|w.commits|, a, c, FollowUpStep(w, i, a, c))
  {
  }

  lemma EnqueueAccounts(w: World, i: nat, a: Actor, c: Choice)
    requires |w.commits| > 0 && a.EnqueueFailed? && !c.Crash?
    ensures Accounts(|w.commits|, a, c, EnqueueFailedStep(w, i, a, c))
  {
  }

  lemma AttemptAccounts(w: World, i: nat, a: Actor, op: Op, taken: seq<ArtifactWrite>, v: nat, retry: bool, c: Choice)
    requires |w.commits| > 0 && a.Worker? && Owed(a).None?
    ensures Accounts(|w.commits|, a, c, AttemptStep(w, i, a.ctx, op, taken, v, retry, c))
  {
  }

  lemma IdleAccounts(w: World, i: nat, ctx: Ctx, c: Choice)
    requires |w.commits| > 0
    ensures Accounts(|w.commits|, Worker(ctx, Idle), c, IdleStep(w, i, ctx, c))
  {
  }

  lemma TellingAccounts(w: World, i: nat, a: Actor, c: Choice)
    requires |w.commits| > 0 && a.Worker? && a.wpc.Telling? && !c.Crash? && ActorOk(w.withholds, w.commits, i, a)
    ensures Accounts(|w.commits|, a, c, WorkerStep(w, i, a, c))
  {
  }

  lemma RestAccounts(w: World, i: nat, a: Actor, c: Choice)
    requires |w.commits| > 0 && a.Worker? && !a.wpc.Telling? && !a.wpc.Idle? && !a.wpc.Writing? && !a.wpc.Retrying?
    ensures Accounts(|w.commits|, a, c, WorkerStep(w, i, a, c))
  {
  }

  lemma WorkerAccounts(w: World, i: nat, a: Actor, c: Choice)
    requires |w.commits| > 0 && a.Worker? && !c.Crash? && ActorOk(w.withholds, w.commits, i, a)
    ensures Accounts(|w.commits|, a, c, WorkerStep(w, i, a, c))
  {
    match a.wpc
    case Idle => IdleAccounts(w, i, a.ctx, c);
    case Writing(op, taken) => AttemptAccounts(w, i, a, op, taken, a.ctx.version, false, c);
    case Retrying(op, taken, v) => AttemptAccounts(w, i, a, op, taken, v, true, c);
    case Telling(_, _) => TellingAccounts(w, i, a, c);
    case _ => RestAccounts(w, i, a, c);
  }

  lemma LocalAccounts(w: World, i: nat, a: Actor, c: Choice)
    requires |w.commits| > 0 && ActorOk(w.withholds, w.commits, i, a)
    ensures Accounts(|w.commits|, a, c, Local(w, i, a, c))
  {
    if !c.Crash? {
      match a
      case FollowUp(_, _) => FollowUpAccounts(w, i, a, c);
      case EnqueueFailed(_, _) => EnqueueAccounts(w, i, a, c);
      case Finisher(_, _, _, _, _, _) => FinisherAccounts(w, i, a, c);
      case Worker(_, _) => WorkerAccounts(w, i, a, c);
      case _ =>
    }
  }

  // ----- Every run -----

  /** Exactly one of the three. */
  ghost predicate OneOf(a: bool, b: bool, c: bool) { (a && !b && !c) || (!a && b && !c) || (!a && !b && c) }

  /** The fate of commit k, if there is one and it changes the state; no fate without the commit. */
  ghost predicate Fated(w: World, k: nat, silenced: bool) {
    if k < |w.commits| && w.commits[k].update.state.Some?
    then OneOf(Told(w.bus, k), StillOwed(w.commits, w.actors, k), silenced)
    else !Told(w.bus, k) && !silenced
  }

  lemma ToldNext(bus: seq<BusEvent>, e: BusEvent, k: nat)
    ensures Told(bus + [e], k) <==> Told(bus, k) || CommitOf(e) == Some(k)
  {
    if Told(bus, k) {
      var b :| 0 <= b < |bus| && CommitOf(bus[b]) == Some(k);
      assert (bus + [e])[b] == bus[b];
    }
    if CommitOf(e) == Some(k) { assert (bus + [e])[|bus|] == e; }
  }

  /** What is owed is owed by the writer of a state change. */
  lemma OwedChange(withholds: bool, cs: seq<Commit>, i: nat, a: Actor)
    requires ActorOk(withholds, cs, i, a)
    ensures Owed(a).Some? ==>
              && 1 <= Owed(a).value < |cs| && cs[Owed(a).value].writer == i
              && cs[Owed(a).value].update.state.Some?
  {
  }

  lemma ActFates(w: World, i: nat, c: Choice, now: nat, k: nat, silenced: bool)
    requires Inv(w) && i < |w.actors| && 1 <= k && Fated(w, k, silenced)
    ensures Fated(Step(w, Act(i, c, now)), k, silenced || Silences(w, Act(i, c, now), k))
  {
    var a := w.actors[i];
    var eff, w' := Local(w, i, a, c), Step(w, Act(i, c, now));
    LocalAccounts(w, i, a, c);
    OwedChange(w.withholds, w.commits, i, a);
    if eff.event.Some? { ToldNext(w.bus, eff.event.value, k); }
    StepExtends(w, Act(i, c, now));
    if k < |w.commits| {
      assert w'.commits[k] == w.commits[k];
      if w.commits[k].writer != i { assert Owed(a) != Some(k); }
    }
  }

  lemma SpawnFates(w: World, e: Event, k: nat, silenced: bool)
    requires Inv(w) && Fated(w, k, silenced) && (e.Act? ==> e.i >= |w.actors|) && WritersKnown(w)
    ensures Fated(Step(w, e), k, silenced)
  {
  }

  lemma StepFates(w: World, e: Event, k: nat, silenced: bool)
    requires Inv(w) && WritersKnown(w) && 1 <= k && Fated(w, k, silenced)
    ensures Fated(Step(w, e), k, silenced || Silences(w, e, k))
  {
    if e.Act? && e.i < |w.actors| { ActFates(w, e.i, e.choice, e.now, k, silenced); } else { SpawnFates(w, e, k, silenced); }
  }

  lemma {:induction false} RunFates(w: World, events: seq<Event>, k: nat)
    requires Initial(w) && 1 <= k
    ensures Fated(Run(w, events), k, Silenced(w, events, k))
    decreases |events|
  {
    if events != [] {
      var n := |events| - 1;
      RunFates(w, events[..n], k);
      RunKeepsInv(w, events[..n]);
      RunWritersKnown(w, events[..n]);
      StepFates(Run(w, events[..n]), events[n], k, Silenced(w, events[..n], k));
    }
  }

  /** Every state change of every run is announced, still owed by its writer, or was silenced, exactly one of them. */
  lemma AnnouncedExactly(w: World, events: seq<Event>, k: nat)
    requires Initial(w) && 1 <= k < |Run(w, events).commits| && Run(w, events).commits[k].update.state.Some?
    ensures var r := Run(w, events);
            OneOf(Told(r.bus, k), StillOwed(r.commits, r.actors, k), Silenced(w, events, k))
  {
    RunFates(w, events, k);
  }

  // ----- Whoever has returned has announced -----

  /** The writer of a silenced commit crashed, or is the worker it was, or has since become a helper. */
  ghost predicate SilentRecord(w: World, k: nat, silenced: bool) {
    silenced ==>
      && 1 <= k < |w.commits| && w.commits[k].writer < |w.actors|
      && match w.actors[w.commits[k].writer]
         case Gone => true
         case Worker(_, _) => true
         case Finisher(_, _, _, _, base, _) => k < base
         case _ => false
  }

  /** A worker may turn into a helper whose call begins now; nobody else changes kind but by crashing. */
  lemma KindStays(w: World, i: nat, a: Actor, c: Choice)
    requires |w.commits| > 0
    ensures var b := Local(w, i, a, c).actor;
            match a
            case Gone => b.Gone?
            case Worker(_, _) => b.Gone? || b.Worker? || (b.Finisher? && b.base == |w.commits|)
            case Finisher(_, _, _, _, base, _) => b.Gone? || (b.Finisher? && b.base == base)
            case _ => true
  {
    if !c.Crash? {
      match a
      case Worker(_, _) => WorkerKind(w, i, a, c);
      case Finisher(_, _, _, _, _, _) => FinisherKind(w, i, a, c);
      case _ =>
    }
  }

  lemma FinisherKind(w: World, i: nat, a: Actor, c: Choice)
    requires |w.commits| > 0 && a.Finisher?
    ensures FinisherStep(w, i, a, c).actor == a.(npc := FinisherStep(w, i, a, c).actor.npc)
  {
  }

  lemma AttemptKind(w: World, i: nat, ctx: Ctx, op: Op, taken: seq<ArtifactWrite>, v: nat, retry: bool, c: Choice)
    requires |w.commits| > 0
    ensures AttemptStep(w, i, ctx, op, taken, v, retry, c).actor.Worker?
  {
  }

  lemma IdleKind(w: World, i: nat, ctx: Ctx, c: Choice)
    requires |w.commits| > 0
    ensures var b := IdleStep(w, i, ctx, c).actor; b.Worker? || (b.Finisher? && b.base == |w.commits|)
  {
  }

  lemma WorkerKind(w: World, i: nat, a: Actor, c: Choice)
    requires |w.commits| > 0 && a.Worker?
    ensures var b := WorkerStep(w, i, a, c).actor; b.Worker? || (b.Finisher? && b.base == |w.commits|)
  {
    match a.wpc
    case Idle => IdleKind(w, i, a.ctx, c);
    case Writing(op, taken) => AttemptKind(w, i, a.ctx, op, taken, a.ctx.version, false, c);
    case Retrying(op, taken, v) => AttemptKind(w, i, a.ctx, op, taken, v, true, c);
    case _ =>
  }

  lemma SilentStep(w: World, e: Event, k: nat, silenced: bool)
    requires Inv(w) && SilentRecord(w, k, silenced)
    ensures SilentRecord(Step(w, e), k, silenced || Silences(w, e, k))
  {
    StepExtends(w, e);
    if e.Act? && e.i < |w.actors| {
      KindStays(w, e.i, w.actors[e.i], e.choice);
      OwedChange(w.withholds, w.commits, e.i, w.actors[e.i]);
      if Silences(w, e, k) { AbortedStaysWorker(w, e.i, w.actors[e.i], e.choice); }
    }
  }

  lemma AbortedStaysWorker(w: World, i: nat, a: Actor, c: Choice)
    requires |w.commits| > 0 && Owed(a).Some? && (c.Crash? || (c.Abort? && a.Worker?))
    ensures var b := Local(w, i, a, c).actor; b.Gone? || b.Worker?
  {
  }

  lemma {:induction false} RunSilent(w: World, events: seq<Event>, k: nat)
    requires Initial(w)
    ensures SilentRecord(Run(w, events), k, Silenced(w, events, k))
    decreases |events|
  {
    if events != [] {
      var n := |events| - 1;
      RunSilent(w, events[..n], k);
      RunKeepsInv(w, events[..n]);
      SilentStep(Run(w, events[..n]), events[n], k, Silenced(w, events[..n], k));
    }
  }

  /** The event that announces commit k, which is there and says what was committed. */
  lemma TheAnnouncement(w: World, events: seq<Event>, k: nat) returns (b: nat)
    requires Initial(w) && 1 <= k < |Run(w, events).commits| && Told(Run(w, events).bus, k)
    ensures var r := Run(w, events);
            && b < |r.bus| && r.commits[k].update.state.Some?
            && var s := r.commits[k].update.state.value;
               r.bus[b] == if Terminal(s) || Interrupted(s) then Marker(s, r.commits[k].writer, k)
                           else Transitioned(s, r.commits[k].writer, k)
  {
    var r := Run(w, events);
    RunKeepsMarkers(w, events);
    b :| 0 <= b < |r.bus| && CommitOf(r.bus[b]) == Some(k);
    assert Announces(r.commits, r.bus[b]);
  }

  /** A cancel or mark-failed that has returned has published a closing marker for each commit of its own that carries
      its state. */
  lemma FinisherAnnounces(w: World, events: seq<Event>, i: nat, k: nat)
    requires Initial(w) && i < |Run(w, events).actors|
    requires var a := Run(w, events).actors[i]; a.Finisher? && a.npc.NDone? && 1 <= k && a.base <= k
    requires var r := Run(w, events);
             k < |r.commits| && r.commits[k].writer == i && r.commits[k].update.state == Some(r.actors[i].target)
    ensures var r := Run(w, events);
            exists b :: 0 <= b < |r.bus| && r.bus[b] == Marker(r.actors[i].target, i, k)
  {
    var r := Run(w, events);
    AnnouncedExactly(w, events, k);
    RunSilent(w, events, k);
    RunKeepsInv(w, events);
    assert ActorOk(r.withholds, r.commits, i, r.actors[i]);
    var b := TheAnnouncement(w, events, k);
  }

  /** So has a failed enqueue that has returned, and a follow-up that has been accepted out of a pause. */
  lemma SubmissionAnnounces(w: World, events: seq<Event>, i: nat, k: nat)
    requires Initial(w) && i < |Run(w, events).actors|
    requires var a := Run(w, events).actors[i]; (a.EnqueueFailed? && a.epc.EDone?) || (a.FollowUp? && a.fpc.FAccepted?)
    requires var r := Run(w, events);
             1 <= k < |r.commits| && r.commits[k].writer == i && r.commits[k].update.state.Some?
    ensures var r := Run(w, events);
            var s := r.commits[k].update.state.value;
            exists b :: 0 <= b < |r.bus| &&
              r.bus[b] == if Terminal(s) || Interrupted(s) then Marker(s, i, k) else Transitioned(s, i, k)
  {
    AnnouncedExactly(w, events, k);
    RunSilent(w, events, k);
    var b := TheAnnouncement(w, events, k);
  }
}
