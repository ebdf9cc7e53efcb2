/**
 What a worker's script of calls means to a client that reads the task and its stream: the state it leaves, what
 is shown and said, the artifacts handed over, and the announcements.
 */
module WorkerScript {
  import opened Tasks
  import Lifecycle

  type EndState = s: TaskState | Lifecycle.LifecycleState(s) witness Completed

  /** What a user's worker may call. `due` says whether the flush interval has elapsed; a lifecycle call `says` the
      texts of its message, if it has one. */
  datatype Call =
    | Emit(write: ArtifactWrite, due: bool)
    | Progress(text: Option<string>)
    | Finish(state: EndState, says: Option<seq<string>>, extra: seq<ArtifactWrite>, metadata: map<string, string>)

  /** How the worker's handler is left: it returns, raises `TaskTerminalStateError` or anything else,
      is canceled through the cancel watcher, is canceled from outside while a cancel is requested, or
      is canceled by a server shutdown. */
  datatype Ending = Returns | RaisesTerminal | RaisesOther(error: string) | WatcherCancels | OutsideCancels | Shutdown

  datatype Raised = Fine | TerminalError | LifecycleError

  datatype Published =
    | MarkerEvent(state: TaskState, message: Option<Message>)
    | StatusEvent(state: TaskState, message: Option<Message>)
    | ChunkEvent(write: ArtifactWrite)
    | ReplyEvent(message: Option<Message>)

  // ----- What a script means -----

  function TurnEnds(script: seq<Call>): bool {
    exists k :: 0 <= k < |script| && script[k].Finish?
  }

  /** The state of the first lifecycle call; later ones are refused. */
  function EndsIn(script: seq<Call>): EndState {
    if script == [] then Completed
    else if script[0].Finish? then script[0].state
    else EndsIn(script[1..])
  }

  /** The artifact writes a script hands over, in emission order; calls after the turn ended do nothing. */
  function Emitted(script: seq<Call>): seq<ArtifactWrite> {
    if script == [] then []
    else
      match script[0]
      case Emit(w, _) => [w] + Emitted(script[1..])
      case Progress(_) => Emitted(script[1..])
      case Finish(_, _, extra, _) => extra
  }

  /** What one call hands over while the turn is still open. */
  function Given(c: Call): seq<ArtifactWrite> {
    match c case Emit(w, _) => [w] case Progress(_) => [] case Finish(_, _, extra, _) => extra
  }

  lemma EndsCons(script: seq<Call>)
    requires script != []
    ensures TurnEnds(script) <==> script[0].Finish? || TurnEnds(script[1..])
  {
    assert forall k :: 0 <= k < |script| - 1 ==> script[1..][k] == script[k + 1];
    if TurnEnds(script) && !script[0].Finish? {
      var k :| 0 <= k < |script| && script[k].Finish?;
      assert script[1..][k - 1].Finish?;
    }
  }

  lemma {:induction false} ScriptSnoc(script: seq<Call>, c: Call)
    ensures TurnEnds(script + [c]) <==> TurnEnds(script) || c.Finish?
    ensures TurnEnds(script) ==> EndsIn(script + [c]) == EndsIn(script) && Emitted(script + [c]) == Emitted(script)
    ensures !TurnEnds(script) && c.Finish? ==> EndsIn(script + [c]) == c.state
    ensures !TurnEnds(script) ==>
              Emitted(script + [c]) == Emitted(script) + Given(c)
  {
    var all := script + [c];
    assert all[|script|] == c;
    assert forall k :: 0 <= k < |script| ==> all[k] == script[k];
    if script != [] {
      assert all[1..] == script[1..] + [c];
      EndsCons(script);
      ScriptSnoc(script[1..], c);
    }
  }

  // ----- What a client reads off the task -----

  /** The state, the texts of the status message, who said what in the history, and the metadata. */
  datatype Seen = Seen(state: TaskState, shown: Option<seq<string>>, said: seq<(Role, seq<string>)>, metadata: map<string, string>)

  ghost function Said(history: seq<Message>): (r: seq<(Role, seq<string>)>)
    ensures |r| == |history| && forall j :: 0 <= j < |r| ==> r[j] == (history[j].role, history[j].texts)
  {
    seq(|history|, j requires 0 <= j < |history| => (history[j].role, history[j].texts))
  }

  ghost function SeenOf(t: Task): Seen {
    Seen(t.status.state, if t.status.message.Some? then Some(t.status.message.value.texts) else None, Said(t.history), t.metadata)
  }

  /** An agent message with these texts is shown and enters the history; without one nothing is shown. */
  ghost function Speak(before: Seen, state: TaskState, says: Option<seq<string>>): Seen {
    before.(state := state, shown := says, said := if says.Some? then before.said + [(Agent, says.value)] else before.said)
  }

  lemma SaidSnoc(history: seq<Message>, m: Message)
    ensures Said(history + [m]) == Said(history) + [(m.role, m.texts)]
  {
  }

  /** What one call leaves while the turn is open: progress replaces the message shown. */
  ghost function Heard(before: Seen, c: Call): Seen {
    match c
    case Emit(_, _) => before
    case Progress(text) => if text.Some? then before.(shown := Some([text.value])) else before
    case Finish(state, says, _, metadata) => Speak(before, state, says).(metadata := before.metadata + metadata)
  }

  /** What the script leaves: the first lifecycle call has the last word. */
  ghost function Leaves(before: Seen, script: seq<Call>): Seen
    decreases |script|
  {
    if script == [] then before
    else if script[0].Finish? then Heard(before, script[0])
    else Leaves(Heard(before, script[0]), script[1..])
  }

  /** Call k is the one that ends the turn. */
  ghost predicate EndsTurn(script: seq<Call>, k: nat) {
    k < |script| && script[k].Finish? && forall j :: 0 <= j < k ==> !script[j].Finish?
  }

  /** So the task ends in the state of the first lifecycle call, shows its message or none, has heard it once,
      and has its metadata on top of its own. */
  lemma {:induction false} FirstFinishSpeaks(before: Seen, script: seq<Call>, k: nat)
    requires EndsTurn(script, k)
    ensures TurnEnds(script)
    ensures var r := Leaves(before, script);
            && r.state == script[k].state && r.shown == script[k].says
            && r.said == (if script[k].says.Some? then before.said + [(Agent, script[k].says.value)] else before.said)
            && r.metadata == before.metadata + script[k].metadata
    decreases k
  {
    if k > 0 {
      assert script[1..][k - 1] == script[k] && forall j :: 0 <= j < k - 1 ==> script[1..][j] == script[j + 1];
      FirstFinishSpeaks(Heard(before, script[0]), script[1..], k - 1);
    }
  }

  lemma {:induction false} LeavesSnoc(before: Seen, script: seq<Call>, c: Call)
    ensures Leaves(before, script + [c]) == if TurnEnds(script) then Leaves(before, script) else Heard(Leaves(before, script), c)
    decreases |script|
  {
    if script == [] {
      assert script + [c] == [c];
    } else {
      assert (script + [c])[1..] == script[1..] + [c];
      EndsCons(script);
      LeavesSnoc(Heard(before, script[0]), script[1..], c);
    }
  }

  function Markers(events: seq<Published>): seq<TaskState> {
    if events == [] then []
    else
      var rest := Markers(events[..|events| - 1]);
      var e := events[|events| - 1];
      if e.MarkerEvent? then rest + [e.state] else rest
  }

  lemma MarkersSnoc(events: seq<Published>, e: Published)
    ensures Markers(events + [e]) == Markers(events) + (if e.MarkerEvent? then [e.state] else [])
  {
    assert (events + [e])[..|events|] == events;
  }

  function Chunks(writes: seq<ArtifactWrite>): (r: seq<Published>)
    ensures |r| == |writes| && forall j :: 0 <= j < |r| ==> r[j] == ChunkEvent(writes[j])
  {
    if writes == [] then [] else Chunks(writes[..|writes| - 1]) + [ChunkEvent(writes[|writes| - 1])]
  }

  /** What a lifecycle call publishes ahead of its marker: its own artifacts, or its direct reply. */
  function Ahead(extra: seq<ArtifactWrite>, metadata: map<string, string>, message: Option<Message>): (r: seq<Published>)
    ensures forall j :: 0 <= j < |r| ==> !r[j].MarkerEvent?
    ensures Lifecycle.DIRECT_REPLY_KEY in metadata ==> |r| == 1 && r[0] == ReplyEvent(message)
    ensures Lifecycle.DIRECT_REPLY_KEY !in metadata ==>
              |r| == |extra| && forall j :: 0 <= j < |r| ==> r[j] == ChunkEvent(extra[j])
  {
    if Lifecycle.DIRECT_REPLY_KEY in metadata then [ReplyEvent(message)] else Chunks(extra)
  }

  // ----- What the adapter adds -----

  const CANCELED_TEXT := "Task was canceled."

  const UNENDED_TEXT :=
    "Worker returned without calling a lifecycle method (complete/fail/reject/respond/request_input/request_auth)"

  /** The turn reaches a terminal or interrupted state exactly when a lifecycle call was made or the handler
      was left in one of the ways the adapter turns into a final state. */
  predicate Concludes(script: seq<Call>, end: Ending) {
    TurnEnds(script) || (!end.RaisesTerminal? && !end.Shutdown?)
  }

  /** A turn that already paused, canceled from outside while a cancel is requested, is canceled on top. */
  predicate CanceledTwice(script: seq<Call>, end: Ending) {
    TurnEnds(script) && Interrupted(EndsIn(script)) && end.OutsideCancels?
  }

  /** The states announced after the handler was left. */
  function Closing(ended: bool, state: TaskState, end: Ending): seq<TaskState> {
    if end.OutsideCancels? && !Terminal(state) then [Canceled]
    else if ended then []
    else match end
      case Returns => [Failed]
      case RaisesOther(_) => [Failed]
      case WatcherCancels => [Canceled]
      case _ => []
  }

  /** The message that goes with it. */
  function Reason(end: Ending): string {
    match end
    case Returns => UNENDED_TEXT
    case RaisesOther(error) => error
    case _ => CANCELED_TEXT
  }

  /** What a client sees once the adapter has dealt with the way the handler was left. */
  ghost function Concluded(left: Seen, ended: bool, end: Ending): Seen {
    var closing := Closing(ended, left.state, end);
    if closing == [] then left else Speak(left, closing[0], Some([Reason(end)]))
  }

  /** The states a whole turn announces, and the one it leaves behind. */
  function Announced(script: seq<Call>, end: Ending): seq<TaskState> {
    if TurnEnds(script) then [EndsIn(script)] + Closing(true, EndsIn(script), end) else Closing(false, Working, end)
  }

  function Final(script: seq<Call>, end: Ending): TaskState {
    var a := Announced(script, end);
    if a == [] then Working else a[|a| - 1]
  }

  /** The state the script itself leaves. */
  function Standing(script: seq<Call>): TaskState {
    if TurnEnds(script) then EndsIn(script) else Working
  }

  lemma {:induction false} LeavesStanding(before: Seen, script: seq<Call>)
    ensures Leaves(before, script).state == if TurnEnds(script) then EndsIn(script) else before.state
    decreases |script|
  {
    if script != [] {
      EndsCons(script);
      LeavesStanding(Heard(before, script[0]), script[1..]);
    }
  }

  /** Whatever the adapter does then, short of a cancel on top of a pause, the first lifecycle call has the last word. */
  lemma LastWord(before: Seen, script: seq<Call>, end: Ending, k: nat)
    requires EndsTurn(script, k) && !CanceledTwice(script, end)
    ensures var r := Concluded(Leaves(before, script), TurnEnds(script), end);
            && r.state == script[k].state && r.shown == script[k].says
            && r.said == (if script[k].says.Some? then before.said + [(Agent, script[k].says.value)] else before.said)
            && r.metadata == before.metadata + script[k].metadata
  {
    FirstFinishSpeaks(before, script, k);
    LeavesStanding(before, script);
  }

  /** What the handler announced, and then what the adapter adds. */
  lemma AnnouncedSplits(script: seq<Call>, end: Ending, before: seq<TaskState>, handled: seq<TaskState>)
    requires handled == before + (if TurnEnds(script) then [EndsIn(script)] else [])
    ensures var closing := Closing(TurnEnds(script), Standing(script), end);
            && before + Announced(script, end) == handled + closing
            && Final(script, end) == if closing == [] then Standing(script) else closing[0]
  {
    var closing := Closing(TurnEnds(script), Standing(script), end);
    if TurnEnds(script) {
      assert before + ([EndsIn(script)] + closing) == before + [EndsIn(script)] + closing;
    }
  }

  /** Exactly when a turn ends in a terminal or interrupted state, exactly when it says so once, and exactly when the
      adapter cancels or fails it. */
  lemma TurnConcludes(script: seq<Call>, end: Ending)
    ensures Terminal(Final(script, end)) || Interrupted(Final(script, end)) <==> Concludes(script, end)
    ensures |Announced(script, end)| == 1 <==> Concludes(script, end) && !CanceledTwice(script, end)
    ensures |Announced(script, end)| <= 2
    ensures |Announced(script, end)| == 2 <==> CanceledTwice(script, end)
    ensures Final(script, end) == Canceled <==>
              (end.WatcherCancels? && !TurnEnds(script)) || (end.OutsideCancels? && !Terminal(Standing(script)))
    ensures !TurnEnds(script) ==> (Final(script, end) == Failed <==> end.Returns? || end.RaisesOther?)
  {
  }
}
