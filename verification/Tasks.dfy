/**
 The values every component exchanges: task states, messages, artifacts, tasks and the
 update descriptor, together with the merge that every storage backend performs.
 */
module Tasks {

  datatype Option<+T> = None | Some(value: T)

  // ----- States -----

  datatype TaskState =
    | Submitted | Working | InputRequired | AuthRequired
    | Completed | Canceled | Failed | Rejected

  /** The four states no transition may leave. */
  predicate Terminal(s: TaskState) {
    s.Completed? || s.Canceled? || s.Failed? || s.Rejected?
  }

  /** The two states that wait for a user follow-up. */
  predicate Interrupted(s: TaskState) {
    s.InputRequired? || s.AuthRequired?
  }

  // ----- Messages -----

  /** Ids chosen by a client, or minted by the server (a fresh UUID is a fresh counter value). */
  datatype MessageId = Client(name: string) | Minted(n: nat)

  datatype Role = User | Agent

  /** `texts` holds the text of each part, "" for a part that carries no text. */
  datatype Message = Message(id: MessageId, role: Role, contextId: string, texts: seq<string>)

  ghost function Ids(history: seq<Message>): set<MessageId> {
    set m | m in history :: m.id
  }

  ghost predicate DistinctIds(history: seq<Message>) {
    forall i, j :: 0 <= i < j < |history| ==> history[i].id != history[j].id
  }

  // ----- Artifacts -----

  /** `info` stands for name, description, metadata and extensions, which only replacement changes. */
  datatype Artifact = Artifact(id: string, info: string, parts: seq<string>)

  datatype ArtifactWrite = ArtifactWrite(artifact: Artifact, append: bool)

  /** Index of the first artifact with this id, or the length when there is none. */
  function FirstIndex(artifacts: seq<Artifact>, id: string): (k: nat)
    ensures k <= |artifacts|
    ensures k < |artifacts| ==> artifacts[k].id == id
    ensures forall j :: 0 <= j < k ==> artifacts[j].id != id
  {
    if artifacts == [] then 0
    else if artifacts[0].id == id then 0
    else
      assert forall j :: 0 <= j < |artifacts[1..]| ==> artifacts[1..][j] == artifacts[j + 1];
      1 + FirstIndex(artifacts[1..], id)
  }

  /** One upsert: extend the parts, replace in place, or add at the end. */
  function ApplyArtifact(artifacts: seq<Artifact>, w: ArtifactWrite): seq<Artifact> {
    var k := FirstIndex(artifacts, w.artifact.id);
    if k == |artifacts| then artifacts + [w.artifact]
    else if w.append then
      artifacts[k := artifacts[k].(parts := artifacts[k].parts + w.artifact.parts)]
    else artifacts[k := w.artifact]
  }

  function ApplyAll(artifacts: seq<Artifact>, writes: seq<ArtifactWrite>): seq<Artifact> {
    if writes == [] then artifacts
    else ApplyArtifact(ApplyAll(artifacts, writes[..|writes| - 1]), writes[|writes| - 1])
  }

  ghost predicate UniqueArtifacts(artifacts: seq<Artifact>) {
    forall i, j :: 0 <= i < j < |artifacts| ==> artifacts[i].id != artifacts[j].id
  }

  /** Reference reading of the list: what is stored under an id. */
  function Lookup(artifacts: seq<Artifact>, id: string): Option<Artifact> {
    var k := FirstIndex(artifacts, id);
    if k == |artifacts| then None else Some(artifacts[k])
  }

  /** Reference meaning of the writes to one id, ignoring every other id. */
  function FoldOne(start: Option<Artifact>, id: string, writes: seq<ArtifactWrite>): Option<Artifact> {
    if writes == [] then start
    else
      var before := FoldOne(start, id, writes[..|writes| - 1]);
      var w := writes[|writes| - 1];
      if w.artifact.id != id then before
      else if w.append && before.Some? then
        Some(before.value.(parts := before.value.parts + w.artifact.parts))
      else Some(w.artifact)
  }

  lemma FirstIndexIsFirst(artifacts: seq<Artifact>, id: string, k: nat)
    requires k <= |artifacts|
    requires k < |artifacts| ==> artifacts[k].id == id
    requires forall j :: 0 <= j < k ==> artifacts[j].id != id
    ensures FirstIndex(artifacts, id) == k
  {
  }

  lemma ApplyArtifactLookup(artifacts: seq<Artifact>, w: ArtifactWrite, id: string)
    ensures Lookup(ApplyArtifact(artifacts, w), id) == FoldOne(Lookup(artifacts, id), id, [w])
  {
    var after := ApplyArtifact(artifacts, w);
    var k := FirstIndex(artifacts, id);
    assert [w][..0] == [];
    if k < |artifacts| || w.artifact.id == id {
      FirstIndexIsFirst(after, id, k);
    } else {
      FirstIndexIsFirst(after, id, |after|);
    }
  }

  /** Batches compose: applying a concatenation is applying one batch after the other. */
  lemma {:induction false} ApplyAllConcat(artifacts: seq<Artifact>, a: seq<ArtifactWrite>, b: seq<ArtifactWrite>)
    ensures ApplyAll(artifacts, a + b) == ApplyAll(ApplyAll(artifacts, a), b)
    decreases |b|
  {
    if b == [] {
      assert a + b == a;
    } else {
      var n := |b| - 1;
      assert (a + b)[..|a + b| - 1] == a + b[..n];
      ApplyAllConcat(artifacts, a, b[..n]);
    }
  }

  /** The stored list means, per id, exactly the writes to that id in order. */
  lemma {:induction false} ApplyAllMeaning(artifacts: seq<Artifact>, writes: seq<ArtifactWrite>, id: string)
    ensures Lookup(ApplyAll(artifacts, writes), id) == FoldOne(Lookup(artifacts, id), id, writes)
  {
    if writes != [] {
      var n := |writes| - 1;
      ApplyAllMeaning(artifacts, writes[..n], id);
      ApplyArtifactLookup(ApplyAll(artifacts, writes[..n]), writes[n], id);
      assert [writes[n]][..0] == [];
    }
  }

  function ArtifactIds(artifacts: seq<Artifact>): (r: seq<string>)
    ensures |r| == |artifacts| && forall i :: 0 <= i < |r| ==> r[i] == artifacts[i].id
  {
    if artifacts == [] then [] else ArtifactIds(artifacts[..|artifacts| - 1]) + [artifacts[|artifacts| - 1].id]
  }

  /** The ids in the order in which they were first written. */
  function FirstWritten(ids: seq<string>, writes: seq<ArtifactWrite>): seq<string> {
    if writes == [] then ids
    else
      var before := FirstWritten(ids, writes[..|writes| - 1]);
      var id := writes[|writes| - 1].artifact.id;
      if id in before then before else before + [id]
  }

  lemma ApplyArtifactIds(artifacts: seq<Artifact>, w: ArtifactWrite)
    ensures var ids := ArtifactIds(artifacts);
            ArtifactIds(ApplyArtifact(artifacts, w)) == if w.artifact.id in ids then ids else ids + [w.artifact.id]
  {
    var k, ids := FirstIndex(artifacts, w.artifact.id), ArtifactIds(artifacts);
    if k < |artifacts| {
      assert ids[k] == w.artifact.id;
      assert ArtifactIds(ApplyArtifact(artifacts, w)) == ids;
    } else {
      assert ApplyArtifact(artifacts, w)[..|artifacts|] == artifacts;
    }
  }

  /** Unique ids stay unique, and all ids, stored before or added, stand in the order in which they were first
      written. */
  lemma {:induction false} ApplyAllKeepsOrder(artifacts: seq<Artifact>, writes: seq<ArtifactWrite>)
    ensures UniqueArtifacts(artifacts) ==> UniqueArtifacts(ApplyAll(artifacts, writes))
    ensures ArtifactIds(ApplyAll(artifacts, writes)) == FirstWritten(ArtifactIds(artifacts), writes)
  {
    if writes != [] {
      var n := |writes| - 1;
      ApplyAllKeepsOrder(artifacts, writes[..n]);
      ApplyArtifactIds(ApplyAll(artifacts, writes[..n]), writes[n]);
    }
  }

  // ----- Tasks -----

  datatype Status = Status(state: TaskState, timestamp: nat, message: Option<Message>)

  /** One record of the `stateTransitions` log; `text` is "" when there is no message text. */
  datatype Transition = Transition(state: TaskState, timestamp: nat, text: string)

  datatype Task = Task(
    id: string,
    contextId: string,
    status: Status,
    history: seq<Message>,
    artifacts: seq<Artifact>,
    log: seq<Transition>,
    metadata: map<string, string>,
    idempotencyKey: string,
    lastModified: nat)

  datatype Update = Update(
    state: Option<TaskState>,
    statusMessage: Option<Message>,
    artifacts: seq<ArtifactWrite>,
    messages: seq<Message>,
    metadata: map<string, string>,
    expected: Option<nat>)

  datatype Outcome =
    | Committed(version: nat)
    | VersionConflict(current: Option<nat>)
    | TerminalTask
    | NotFound

  /** The first text there is, "" when there is none. */
  ghost predicate SaysFirst(text: string, texts: seq<string>) {
    if text == "" then forall k :: 0 <= k < |texts| ==> texts[k] == ""
    else exists k :: 0 <= k < |texts| && texts[k] == text && forall j :: 0 <= j < k ==> texts[j] == ""
  }

  function FirstText(texts: seq<string>): (text: string)
    ensures SaysFirst(text, texts)
  {
    if texts == [] then ""
    else if texts[0] != "" then texts[0]
    else
      var text := FirstText(texts[1..]);
      assert forall k :: 1 <= k < |texts| ==> texts[1..][k - 1] == texts[k];
      assert SaysFirst(text, texts) by {
        if text != "" {
          var k :| 0 <= k < |texts[1..]| && texts[1..][k] == text && forall j :: 0 <= j < k ==> texts[1..][j] == "";
          assert texts[k + 1] == text;
        }
      }
      text
  }

  function TransitionRecord(s: TaskState, now: nat, message: Option<Message>): Transition {
    Transition(s, now, if message.Some? then FirstText(message.value.texts) else "")
  }

  function NewTask(id: string, contextId: string, message: Message, key: string, now: nat): Task {
    Task(id, contextId, Status(Submitted, now, None), [message.(contextId := contextId)], [],
         [TransitionRecord(Submitted, now, None)], map[], key, now)
  }

  /** The merge of an accepted update onto the current task. */
  function Merge(t: Task, u: Update, now: nat): Task {
    var merged := t.(history := t.history + u.messages,
                     artifacts := ApplyAll(t.artifacts, u.artifacts),
                     metadata := t.metadata + u.metadata);
    if u.state.Some? then
      merged.(status := Status(u.state.value, now, u.statusMessage),
              log := t.log + [TransitionRecord(u.state.value, now, u.statusMessage)],
              lastModified := now)
    else if u.statusMessage.Some? then
      merged.(status := Status(t.status.state, now, u.statusMessage), lastModified := now)
    else merged
  }

  /** The two checks in front of the merge: version first, then the terminal guard. */
  function Check(t: Task, version: nat, u: Update): Outcome {
    if u.expected.Some? && u.expected.value != version then VersionConflict(Some(version))
    else if u.state.Some? && Terminal(t.status.state) then TerminalTask
    else Committed(version + 1)
  }

  // ----- What an update means, field by field -----

  /** The list holds per id exactly the writes to that id, and the ids stand as they were first written. */
  ghost predicate ArtifactsApplied(before: seq<Artifact>, writes: seq<ArtifactWrite>, after: seq<Artifact>) {
    && (forall id :: Lookup(after, id) == FoldOne(Lookup(before, id), id, writes))
    && ArtifactIds(after) == FirstWritten(ArtifactIds(before), writes)
  }

  /** Each key has the update's value where the update has one, else the old one. */
  ghost predicate MetadataApplied(before: map<string, string>, given: map<string, string>, after: map<string, string>) {
    && after.Keys == before.Keys + given.Keys
    && forall k :: k in after ==> after[k] == if k in given then given[k] else before[k]
  }

  /** A state change sets the whole status, a message included or cleared, and is recorded; a message alone is
      stamped and replaces the old one; otherwise the status stays. */
  ghost predicate StatusApplied(before: Task, u: Update, now: nat, after: Task) {
    if u.state.Some? then
      && after.status.state == u.state.value
      && after.status.timestamp == now
      && after.status.message == u.statusMessage
      && after.lastModified == now
      && |after.log| == |before.log| + 1 && before.log <= after.log
      && after.log[|before.log|].state == u.state.value
      && after.log[|before.log|].timestamp == now
      && SaysFirst(after.log[|before.log|].text, if u.statusMessage.Some? then u.statusMessage.value.texts else [])
    else if u.statusMessage.Some? then
      && after.status.state == before.status.state
      && after.status.timestamp == now
      && after.status.message == u.statusMessage
      && after.lastModified == now
      && after.log == before.log
    else
      after.status == before.status && after.lastModified == before.lastModified && after.log == before.log
  }

  ghost predicate Applied(before: Task, u: Update, now: nat, after: Task) {
    && after.id == before.id && after.contextId == before.contextId && after.idempotencyKey == before.idempotencyKey
    && after.history == before.history + u.messages
    && ArtifactsApplied(before.artifacts, u.artifacts, after.artifacts)
    && MetadataApplied(before.metadata, u.metadata, after.metadata)
    && StatusApplied(before, u, now, after)
  }

  lemma ApplyAllApplies(artifacts: seq<Artifact>, writes: seq<ArtifactWrite>)
    ensures ArtifactsApplied(artifacts, writes, ApplyAll(artifacts, writes))
  {
    ApplyAllKeepsOrder(artifacts, writes);
    forall id ensures Lookup(ApplyAll(artifacts, writes), id) == FoldOne(Lookup(artifacts, id), id, writes) {
      ApplyAllMeaning(artifacts, writes, id);
    }
  }

  lemma MergeApplies(t: Task, u: Update, now: nat)
    ensures Applied(t, u, now, Merge(t, u, now))
  {
    ApplyAllApplies(t.artifacts, u.artifacts);
  }

  /** Ids and what is stored under each determine the list. */
  lemma SameArtifacts(a: seq<Artifact>, b: seq<Artifact>)
    requires UniqueArtifacts(a) && ArtifactIds(a) == ArtifactIds(b)
    requires forall id :: Lookup(a, id) == Lookup(b, id)
    ensures a == b
  {
    forall k | 0 <= k < |a| ensures a[k] == b[k] {
      assert ArtifactIds(a)[k] == ArtifactIds(b)[k];
      assert forall j :: 0 <= j < k ==> ArtifactIds(b)[j] == ArtifactIds(a)[j];
      FirstIndexIsFirst(a, a[k].id, k);
      FirstIndexIsFirst(b, a[k].id, k);
      assert Lookup(a, a[k].id) == Lookup(b, a[k].id);
    }
  }

  lemma SameText(a: string, b: string, texts: seq<string>)
    requires SaysFirst(a, texts) && SaysFirst(b, texts)
    ensures a == b
  {
  }

  lemma SameStatus(t: Task, u: Update, now: nat, a: Task, b: Task)
    requires StatusApplied(t, u, now, a) && StatusApplied(t, u, now, b)
    ensures a.status == b.status && a.lastModified == b.lastModified && a.log == b.log
  {
    if u.state.Some? {
      var n := |t.log|;
      SameText(a.log[n].text, b.log[n].text, if u.statusMessage.Some? then u.statusMessage.value.texts else []);
      assert a.log == t.log + [a.log[n]] && b.log == t.log + [b.log[n]];
    }
  }

  /** The merge of an update is the one task that has all its fields as the update means them. */
  lemma MergeExactly(t: Task, u: Update, now: nat, after: Task)
    requires UniqueArtifacts(t.artifacts)
    ensures after == Merge(t, u, now) <==> Applied(t, u, now, after)
  {
    var m := Merge(t, u, now);
    MergeApplies(t, u, now);
    if Applied(t, u, now, after) {
      ApplyAllKeepsOrder(t.artifacts, u.artifacts);
      SameArtifacts(m.artifacts, after.artifacts);
      assert after.metadata == m.metadata;
      SameStatus(t, u, now, after, m);
    }
  }

  // ----- What every merge keeps -----

  /** The shape of a transition log that a task may ever show. */
  ghost predicate LogShape(t: Task) {
    && |t.log| >= 1
    && t.log[0].state == Submitted
    && t.log[|t.log| - 1].state == t.status.state
    && (forall j :: 0 <= j < |t.log| - 1 ==> !Terminal(t.log[j].state))
    && (forall j :: 1 <= j < |t.log| && t.log[j].state == Submitted ==> Interrupted(t.log[j - 1].state))
  }

  /** An update the store accepts keeps the shape exactly when it does not resubmit a task that is not waiting
      for a follow-up: that much the store leaves to its callers. */
  lemma MergeKeepsLogShape(t: Task, version: nat, u: Update, now: nat)
    requires LogShape(t) && Check(t, version, u).Committed?
    ensures LogShape(Merge(t, u, now)) <==> (u.state == Some(Submitted) ==> Interrupted(t.status.state))
  {
    var m := Merge(t, u, now);
    if u.state.Some? {
      var n := |t.log|;
      assert m.log[..n] == t.log;
      assert m.log[n].state == u.state.value && m.log[n - 1] == t.log[n - 1];
      forall j | 0 <= j < n ensures !Terminal(m.log[j].state) { assert m.log[j] == t.log[j]; }
      forall j | 1 <= j < n && m.log[j].state == Submitted ensures Interrupted(m.log[j - 1].state) {
        assert m.log[j] == t.log[j] && m.log[j - 1] == t.log[j - 1];
      }
    }
  }
}
