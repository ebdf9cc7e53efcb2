/**
 The in-memory store: dictionaries of tasks and versions that each operation replaces in place.
 It is the atomic specification the other backends are measured against.
 */
module MemoryStorage {
  import opened Tasks

  // ----- Idempotent creation, as a relation between task dictionaries -----

  /** The task stored under `id` was created for this context and idempotency key. */
  ghost predicate Hit(tasks: map<string, Task>, contextId: string, key: string, id: string) {
    id in tasks && tasks[id].contextId == contextId && tasks[id].idempotencyKey == key
  }

  ghost predicate KeysUnique(tasks: map<string, Task>) {
    forall contextId, key, a, b ::
      key != "" && Hit(tasks, contextId, key, a) && Hit(tasks, contextId, key, b) ==> a == b
  }

  datatype Request = Request(contextId: string, key: string)

  datatype Answer = Answer(id: string, justCreated: bool)

  /** What `create_task` does: return the one task already created for the key, or insert a new one
      and say so. An empty key never matches. */
  ghost predicate Creates(before: map<string, Task>, r: Request, after: map<string, Task>, a: Answer) {
    if a.justCreated then
      && a.id !in before
      && (r.key != "" ==> forall id :: !Hit(before, r.contextId, r.key, id))
      && after.Keys == before.Keys + {a.id}
      && (forall id :: id in before ==> after[id] == before[id])
      && Hit(after, r.contextId, r.key, a.id)
    else
      after == before && r.key != "" && Hit(before, r.contextId, r.key, a.id)
  }

  /** Any later write to any task: context and idempotency key of a task never change. */
  ghost predicate Changes(before: map<string, Task>, after: map<string, Task>) {
    && after.Keys == before.Keys
    && forall id :: id in before ==>
         after[id].contextId == before[id].contextId && after[id].idempotencyKey == before[id].idempotencyKey
  }

  /** One step of a run of the store: a creation with its answer, or a change. */
  datatype StoreStep = Create(request: Request, answer: Answer) | Change

  ghost predicate StepOk(before: map<string, Task>, s: StoreStep, after: map<string, Task>) {
    match s
    case Create(r, a) => Creates(before, r, after, a)
    case Change => Changes(before, after)
  }

  ghost predicate StoreRun(states: seq<map<string, Task>>, steps: seq<StoreStep>) {
    && |states| == |steps| + 1
    && states[0] == map[]
    && forall k :: 0 <= k < |steps| ==> StepOk(states[k], steps[k], states[k + 1])
  }

  lemma StepKeepsKeysUnique(before: map<string, Task>, s: StoreStep, after: map<string, Task>)
    requires KeysUnique(before) && StepOk(before, s, after)
    ensures KeysUnique(after)
    ensures forall contextId, key, id :: Hit(before, contextId, key, id) ==> Hit(after, contextId, key, id)
  {
    forall contextId, key, a, b |
      key != "" && Hit(after, contextId, key, a) && Hit(after, contextId, key, b)
      ensures a == b
    {
      assert a in before ==> Hit(before, contextId, key, a);
      assert b in before ==> Hit(before, contextId, key, b);
    }
  }

  lemma InsertKeepsKeys(tasks: map<string, Task>, t: Task)
    requires KeysUnique(tasks) && t.id !in tasks
    requires t.idempotencyKey != "" ==> forall id :: !Hit(tasks, t.contextId, t.idempotencyKey, id)
    ensures Creates(tasks, Request(t.contextId, t.idempotencyKey), tasks[t.id := t], Answer(t.id, true))
    ensures KeysUnique(tasks[t.id := t])
  {
    var step := Create(Request(t.contextId, t.idempotencyKey), Answer(t.id, true));
    assert StepOk(tasks, step, tasks[t.id := t]);
    StepKeepsKeysUnique(tasks, step, tasks[t.id := t]);
  }

  lemma ReplaceKeepsKeys(tasks: map<string, Task>, id: string, t: Task)
    requires KeysUnique(tasks) && id in tasks
    requires t.contextId == tasks[id].contextId && t.idempotencyKey == tasks[id].idempotencyKey
    ensures KeysUnique(tasks[id := t])
  {
    assert StepOk(tasks, Change, tasks[id := t]);
    StepKeepsKeysUnique(tasks, Change, tasks[id := t]);
  }

  lemma {:induction false} HitsStay(states: seq<map<string, Task>>, steps: seq<StoreStep>, contextId: string, key: string,
                                    id: string, i: nat, j: nat)
    requires StoreRun(states, steps) && i <= j < |states|
    requires Hit(states[i], contextId, key, id)
    ensures Hit(states[j], contextId, key, id) && KeysUnique(states[j])
    decreases j
  {
    RunKeysUnique(states, steps, j);
    if i < j {
      HitsStay(states, steps, contextId, key, id, i, j - 1);
      assert StepOk(states[j - 1], steps[j - 1], states[j]);
      StepKeepsKeysUnique(states[j - 1], steps[j - 1], states[j]);
    }
  }

  lemma {:induction false} RunKeysUnique(states: seq<map<string, Task>>, steps: seq<StoreStep>, j: nat)
    requires StoreRun(states, steps) && j < |states|
    ensures KeysUnique(states[j])
  {
    if j > 0 {
      RunKeysUnique(states, steps, j - 1);
      assert StepOk(states[j - 1], steps[j - 1], states[j]);
      StepKeepsKeysUnique(states[j - 1], steps[j - 1], states[j]);
    }
  }

  /** Over any run, all creations with one (context, message id) pair return one task, and at most the
      first of them is told it was just created. */
  lemma OneTaskPerKey(states: seq<map<string, Task>>, steps: seq<StoreStep>, i: nat, j: nat)
    requires StoreRun(states, steps) && i < j < |steps|
    requires steps[i].Create? && steps[j].Create? && steps[i].request == steps[j].request
    requires steps[i].request.key != ""
    ensures steps[j].answer.id == steps[i].answer.id
    ensures !steps[j].answer.justCreated
  {
    var r, id := steps[i].request, steps[i].answer.id;
    assert StepOk(states[i], steps[i], states[i + 1]);
    HitsStay(states, steps, r.contextId, r.key, id, i + 1, j);
    assert StepOk(states[j], steps[j], states[j + 1]);
  }

  // ----- The class -----

  class InMemoryStorage {
    var tasks: map<string, Task>
    var versions: map<string, nat>

    ghost predicate Valid()
      reads this
    {
      && versions.Keys == tasks.Keys
      && (forall id :: id in tasks ==> tasks[id].id == id && versions[id] >= 1)
      && (forall id :: id in tasks ==> Stored(tasks[id]))
      && KeysUnique(tasks)
    }

    constructor ()
      ensures Valid() && tasks == map[] && versions == map[]
    {
      tasks, versions := map[], map[];
    }

    /** The scan over all tasks in front of a creation. */
    method FindByKey(contextId: string, key: string) returns (hit: Option<string>)
      requires Valid()
      ensures hit.Some? ==> Hit(tasks, contextId, key, hit.value)
      ensures hit.None? ==> forall id :: !Hit(tasks, contextId, key, id)
    {
      var rest := tasks.Keys;
      while rest != {}
        invariant rest <= tasks.Keys
        invariant forall id :: id in tasks.Keys - rest ==> !Hit(tasks, contextId, key, id)
        decreases |rest|
      {
        var id :| id in rest;
        if tasks[id].contextId == contextId && tasks[id].idempotencyKey == key { return Some(id); }
        rest := rest - {id};
      }
      hit := None;
    }

    /** `freshId` is the UUID drawn for the new task. */
    method CreateTask(contextId: string, message: Message, key: string, freshId: string, now: nat)
      returns (t: Task, justCreated: bool)
      requires Valid() && freshId !in tasks
      modifies this
      ensures Valid()
      ensures t.id in tasks && tasks[t.id] == t
      ensures Creates(old(tasks), Request(contextId, key), tasks, Answer(t.id, justCreated))
      ensures justCreated ==>
                && t.id == freshId && t.contextId == contextId && t.idempotencyKey == key
                && t.status == Status(Submitted, now, None) && t.lastModified == now
                && t.history == [message.(contextId := contextId)]
                && t.log == [Transition(Submitted, now, "")]
                && t.artifacts == [] && t.metadata == map[] && versions == old(versions)[t.id := 1]
      ensures !justCreated ==> versions == old(versions)
    {
      if key != "" {
        var hit := FindByKey(contextId, key);
        if hit.Some? { return tasks[hit.value], false; }
      }
      t, justCreated := NewTask(freshId, contextId, message, key, now), true;
      assert Stored(t);
      InsertKeepsKeys(tasks, t);
      tasks, versions := tasks[freshId := t], versions[freshId := 1];
    }

    /** The in-place artifact loop: search by id, then extend, replace or add. */
    static method ApplyWrites(artifacts: seq<Artifact>, writes: seq<ArtifactWrite>) returns (r: seq<Artifact>)
      ensures r == ApplyAll(artifacts, writes)
    {
      r := artifacts;
      for n := 0 to |writes|
        invariant r == ApplyAll(artifacts, writes[..n])
      {
        var w := writes[n];
        var k := 0;
        while k < |r| && r[k].id != w.artifact.id
          invariant 0 <= k <= |r|
          invariant forall j :: 0 <= j < k ==> r[j].id != w.artifact.id
        {
          k := k + 1;
        }
        FirstIndexIsFirst(r, w.artifact.id, k);
        assert writes[..n + 1][..n] == writes[..n];
        if k < |r| {
          if w.append {
            r := r[k := r[k].(parts := r[k].parts + w.artifact.parts)];
          } else {
            r := r[k := w.artifact];
          }
        } else {
          r := r + [w.artifact];
        }
      }
      assert writes[..|writes|] == writes;
    }

    /** The mutations of the working copy, in the order the store makes them. */
    static method WorkingCopy(task: Task, u: Update, now: nat) returns (work: Task)
      ensures work == Merge(task, u, now) && Applied(task, u, now, work)
    {
      MergeApplies(task, u, now);
      work := task;
      if u.messages != [] { work := work.(history := work.history + u.messages); }
      if u.artifacts != [] {
        var applied := ApplyWrites(work.artifacts, u.artifacts);
        work := work.(artifacts := applied);
      }
      work := work.(metadata := work.metadata + u.metadata);
      if u.state.Some? {
        work := work.(status := Status(u.state.value, now, u.statusMessage),
                      log := work.log + [TransitionRecord(u.state.value, now, u.statusMessage)],
                      lastModified := now);
      } else if u.statusMessage.Some? {
        work := work.(status := Status(work.status.state, now, u.statusMessage), lastModified := now);
      }
    }

    /** Version check, terminal guard, merge on a working copy, commit; every failure leaves the store alone. */
    method UpdateTask(id: string, u: Update, now: nat) returns (o: Outcome)
      requires Valid()
      modifies this
      ensures Valid()
      ensures o.NotFound? <==> id !in old(tasks)
      ensures id in old(tasks) ==> o == Check(old(tasks)[id], old(versions)[id], u)
      // The version is checked first: a conflict hides whether the task is terminal.
      ensures o.VersionConflict? <==>
                id in old(tasks) && u.expected.Some? && u.expected.value != old(versions)[id]
      ensures o.VersionConflict? ==> o.current == Some(old(versions)[id])
      ensures o.TerminalTask? <==>
                && id in old(tasks) && (u.expected.Some? ==> u.expected.value == old(versions)[id])
                && u.state.Some? && Terminal(old(tasks)[id].status.state)
      ensures o.Committed? ==>
                && o.version == old(versions)[id] + 1
                && tasks == old(tasks)[id := Merge(old(tasks)[id], u, now)]
                && Applied(old(tasks)[id], u, now, tasks[id])
                && versions == old(versions)[id := o.version]
      ensures !o.Committed? ==> tasks == old(tasks) && versions == old(versions)
    {
      if id !in tasks { return NotFound; }
      var task, current := tasks[id], versions[id];
      if u.expected.Some? && u.expected.value != current { return VersionConflict(Some(current)); }
      if u.state.Some? && Terminal(task.status.state) { return TerminalTask; }
      var work := WorkingCopy(task, u, now);
      assert Stored(work) && work.id == id by { MergeKeepsStored(task, u, now); }
      assert KeysUnique(tasks[id := work]) by { ReplaceKeepsKeys(tasks, id, work); }
      tasks, versions := tasks[id := work], versions[id := current + 1];
      o := Committed(current + 1);
    }

    method GetVersion(id: string) returns (v: Option<nat>)
      requires Valid()
      ensures v == if id in tasks then Some(versions[id]) else None
    {
      v := if id in versions then Some(versions[id]) else None;
    }

    method LoadTask(id: string) returns (t: Option<Task>)
      requires Valid()
      ensures t == if id in tasks then Some(tasks[id]) else None
    {
      t := if id in tasks then Some(tasks[id]) else None;
    }
  }

  /** What the store alone guarantees about a task, without the callers' discipline. */
  ghost predicate Stored(t: Task) {
    && |t.log| >= 1
    && t.log[0].state == Submitted
    && t.log[|t.log| - 1].state == t.status.state
    && (forall j :: 0 <= j < |t.log| - 1 ==> !Terminal(t.log[j].state))
    && UniqueArtifacts(t.artifacts)
  }

  lemma MergeKeepsStored(t: Task, u: Update, now: nat)
    requires Stored(t)
    requires u.state.Some? ==> !Terminal(t.status.state)
    ensures Stored(Merge(t, u, now))
    ensures Merge(t, u, now).id == t.id && Merge(t, u, now).contextId == t.contextId
    ensures Merge(t, u, now).idempotencyKey == t.idempotencyKey
  {
    ApplyAllKeepsOrder(t.artifacts, u.artifacts);
  }
}
