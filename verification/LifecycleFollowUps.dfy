/**
 Follow-up submission under concurrency: a decision is taken on exactly the state it replaces,
 a message is accepted at most once, and an interruption is answered by at most one user.
 */
module LifecycleFollowUps {
  import opened Tasks
  import opened Lifecycle
  import opened LifecycleSafety

  /** Reading the version before loading, and pinning the write to it, makes check-then-write atomic:
      the task that was validated is the task being replaced. */
  lemma DecidedOnReplacedState(w: World, events: seq<Event>, i: nat, c: Choice)
    requires Initial(w)
    requires i < |Run(w, events).actors|
    ensures var r := Run(w, events);
            var a := r.actors[i];
            Local(r, i, a, c).write.Some? ==>
              && (a.FollowUp? ==> a.fpc.FWrite? && a.fpc.loaded == Current(r))
              && (a.EnqueueFailed? ==> a.epc.EWrite? && a.epc.loaded == Current(r))
  {
    RunKeepsInv(w, events);
    var r := Run(w, events);
    assert ActorOk(r.withholds, r.commits, i, r.actors[i]);
    PinnedWrite(r, i, r.actors[i], c);
  }

  lemma PinnedWrite(w: World, i: nat, a: Actor, c: Choice)
    requires |w.commits| > 0 && ActorOk(w.withholds, w.commits, i, a)
    ensures Local(w, i, a, c).write.Some? ==>
              && (a.FollowUp? ==> a.fpc.FWrite? && a.fpc.loaded == Current(w))
              && (a.EnqueueFailed? ==> a.epc.EWrite? && a.epc.loaded == Current(w))
  {
    match a
    case FollowUp(_, _) =>
    case EnqueueFailed(_, _) =>
    case _ =>
  }

  /** The submitter got `should_enqueue=True`, through commit k. */
  ghost predicate IsAccepted(a: Actor) {
    a.FollowUp? && (a.fpc.FAnnounce? || a.fpc.FAccepted?)
  }

  ghost function AcceptedAt(a: Actor): nat
    requires IsAccepted(a)
  {
    a.fpc.k
  }

  /** The message added by an accepted commit is new to the history it extends, and stays in it. */
  lemma AcceptedMessage(cs: seq<Commit>, i: nat, msg: Message, k: nat, j: nat)
    requires ValidCommits(cs) && Accepted(cs, i, msg, k) && k <= j < |cs|
    ensures !Contains(cs[k - 1].task.history, msg.id)
    ensures Contains(cs[j].task.history, msg.id)
  {
    assert ValidCommit(cs[k - 1].task, cs[k]);
    var n := |cs[k - 1].task.history|;
    assert cs[k].task.history[n].id == msg.id;
    Later(cs, k, j);
    assert cs[j].task.history[n].id == msg.id;
  }

  lemma AcceptedOnce(cs: seq<Commit>, i: nat, a: Message, k: nat, j: nat, b: Message, l: nat)
    requires ValidCommits(cs) && Accepted(cs, i, a, k) && Accepted(cs, j, b, l) && k <= l
    ensures a.id == b.id ==> i == j
  {
    AcceptedMessage(cs, j, b, l, l);
    if k < l { AcceptedMessage(cs, i, a, k, l - 1); }
  }

  /** What `should_enqueue=True` means for the stored task: it was not terminal, its context matched, a user
      message came during an interruption; the message is appended bound to the task's context, an
      interruption ends in submitted, and nothing else changes. */
  lemma AcceptedMeans(w: World, events: seq<Event>, i: nat)
    requires Initial(w) && i < |Run(w, events).actors| && IsAccepted(Run(w, events).actors[i])
    ensures var r := Run(w, events);
            var msg, k := r.actors[i].msg, AcceptedAt(r.actors[i]);
            1 <= k < |r.commits| &&
            var before, after := r.commits[k - 1].task, r.commits[k].task;
            && !Terminal(before.status.state)
            && (msg.contextId != "" ==> msg.contextId == before.contextId)
            && (msg.role.User? ==> Interrupted(before.status.state))
            && after.history == before.history + [msg.(contextId := before.contextId)]
            && after.status.state == (if Interrupted(before.status.state) then Submitted else before.status.state)
            && after.artifacts == before.artifacts && after.metadata == before.metadata
  {
    RunKeepsInv(w, events);
    var r := Run(w, events);
    assert ActorOk(r.withholds, r.commits, i, r.actors[i]);
    AcceptedEffect(r.commits, i, r.actors[i].msg, AcceptedAt(r.actors[i]));
  }

  lemma AcceptedEffect(cs: seq<Commit>, i: nat, msg: Message, k: nat)
    requires ValidCommits(cs) && Accepted(cs, i, msg, k)
    ensures var before, after := cs[k - 1].task, cs[k].task;
            && !Terminal(before.status.state)
            && (msg.contextId != "" ==> msg.contextId == before.contextId)
            && (msg.role.User? ==> Interrupted(before.status.state))
            && after.history == before.history + [msg.(contextId := before.contextId)]
            && after.status.state == (if Interrupted(before.status.state) then Submitted else before.status.state)
            && after.artifacts == before.artifacts && after.metadata == before.metadata
  {
    assert ValidCommit(cs[k - 1].task, cs[k]);
    assert ApplyAll(cs[k - 1].task.artifacts, []) == cs[k - 1].task.artifacts;
    assert cs[k - 1].task.metadata + map[] == cs[k - 1].task.metadata;
  }

  /** A failed enqueue marks a task failed only from submitted: it never stomps a task that a worker has
      picked up or that is paused or finished. */
  lemma EnqueueFailureSparesLiveTask(w: World, events: seq<Event>, i: nat)
    requires Initial(w) && i < |Run(w, events).actors|
    requires var a := Run(w, events).actors[i]; a.EnqueueFailed? && (a.epc.EReload? || a.epc.EAnnounce?)
    ensures var r := Run(w, events);
            var k := r.actors[i].epc.k;
            && 1 <= k < |r.commits| && r.commits[k].writer == i
            && r.commits[k - 1].task.status.state == Submitted
            && r.commits[k].task.status.state == Failed
  {
    RunKeepsInv(w, events);
    var r := Run(w, events);
    assert ActorOk(r.withholds, r.commits, i, r.actors[i]);
    assert ValidCommit(r.commits[r.actors[i].epc.k - 1].task, r.commits[r.actors[i].epc.k]);
  }

  /** However many clients race or retry, at most one submission of a message id is told to enqueue,
      and none at all when the id is the one that created the task. */
  lemma AcceptedAtMostOnce(w: World, events: seq<Event>, i: nat, j: nat)
    requires Initial(w)
    requires i < |Run(w, events).actors| && j < |Run(w, events).actors|
    requires IsAccepted(Run(w, events).actors[i]) && IsAccepted(Run(w, events).actors[j])
    ensures Run(w, events).actors[i].msg.id == Run(w, events).actors[j].msg.id ==> i == j
    ensures Run(w, events).actors[i].msg.id != w.commits[0].task.history[0].id
  {
    RunKeepsInv(w, events);
    var r := Run(w, events);
    var cs, a, b := r.commits, r.actors[i], r.actors[j];
    assert ActorOk(r.withholds, cs, i, a) && ActorOk(r.withholds, cs, j, b);
    var k, l := AcceptedAt(a), AcceptedAt(b);
    if k <= l { AcceptedOnce(cs, i, a.msg, k, j, b.msg, l); } else { AcceptedOnce(cs, j, b.msg, l, i, a.msg, k); }
    AcceptedMessage(cs, i, a.msg, k, k);
    assert cs[0] == w.commits[0];
    Later(cs, 0, k - 1);
    assert cs[k - 1].task.history[0] == w.commits[0].task.history[0];
  }

  /** The commit at which a task that is not interrupted at j becomes so before k. */
  lemma {:induction false} Interruption(cs: seq<Commit>, j: nat, k: nat) returns (m: nat)
    requires j < k < |cs|
    requires !Interrupted(cs[j].task.status.state) && Interrupted(cs[k].task.status.state)
    ensures j < m <= k
    ensures !Interrupted(cs[m - 1].task.status.state) && Interrupted(cs[m].task.status.state)
    decreases k - j
  {
    if Interrupted(cs[k - 1].task.status.state) { m := Interruption(cs, j, k - 1); } else { m := k; }
  }

  /** Between two accepted user follow-ups the task was interrupted anew, so a pause is answered once. */
  lemma OneWinnerPerInterruption(w: World, events: seq<Event>, i: nat, j: nat)
    requires Initial(w)
    requires i < |Run(w, events).actors| && j < |Run(w, events).actors|
    requires var a, b := Run(w, events).actors[i], Run(w, events).actors[j];
             && IsAccepted(a) && IsAccepted(b) && a.msg.role.User? && b.msg.role.User?
             && AcceptedAt(a) < AcceptedAt(b)
    ensures var r := Run(w, events);
            exists m :: AcceptedAt(r.actors[i]) < m < AcceptedAt(r.actors[j]) < |r.commits|
                        && !Interrupted(r.commits[m - 1].task.status.state)
                        && Interrupted(r.commits[m].task.status.state)
  {
    RunKeepsInv(w, events);
    var r := Run(w, events);
    var cs, k, l := r.commits, AcceptedAt(r.actors[i]), AcceptedAt(r.actors[j]);
    assert ActorOk(r.withholds, cs, i, r.actors[i]) && ActorOk(r.withholds, cs, j, r.actors[j]);
    assert ValidCommit(cs[k - 1].task, cs[k]) && ValidCommit(cs[l - 1].task, cs[l]);
    var m := Interruption(cs, k, l - 1);
  }
}
