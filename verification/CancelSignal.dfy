/**
 The Redis cancel signal: any number of requesters set a key and then publish on a channel, any number
 of scopes check the key, subscribe, check again and then listen. Every command is one step. The client
 library sends SUBSCRIBE on a connection of its own and does not wait for the confirmation, so the server may
 handle it later than the second check.
 */
module CancelSignal {

  datatype Requester = ToSet | ToPublish | Finished

  datatype ScopePc = FirstCheck | ToSubscribe | SecondCheck | Listening | Stopped

  /** `sent` says that SUBSCRIBE is on its way or done, `subscribed` that the server has handled it. `inbox` counts
      the messages waiting on the subscription, `event` is what `is_set` reports. */
  datatype Scope = Scope(pc: ScopePc, sent: bool, subscribed: bool, inbox: nat, event: bool)

  /** `prompt` says that the server handles a SUBSCRIBE before the check that its sender makes next. */
  datatype Redis = Redis(prompt: bool, key: bool, requesters: seq<Requester>, scopes: seq<Scope>)

  datatype Step = NewRequest | NewScope | Request(i: nat) | Start(j: nat) | Confirm(j: nat) | Listen(j: nat)

  function Deliver(s: Scope): Scope { if s.subscribed then s.(inbox := s.inbox + 1) else s }

  function RequestStep(r: Redis, i: nat): Redis
    requires i < |r.requesters|
  {
    match r.requesters[i]
    case ToSet => r.(key := true, requesters := r.requesters[i := ToPublish])
    case ToPublish =>
      r.(requesters := r.requesters[i := Finished],
         scopes := seq(|r.scopes|, j requires 0 <= j < |r.scopes| => Deliver(r.scopes[j])))
    case Finished => r
  }

  function StartStep(prompt: bool, key: bool, s: Scope): Scope {
    match s.pc
    case FirstCheck => if key then s.(event := true, pc := Stopped) else s.(pc := ToSubscribe)
    case ToSubscribe => s.(sent := true, subscribed := prompt, pc := SecondCheck)
    case SecondCheck =>
      if key then s.(event := true, sent := false, subscribed := false, inbox := 0, pc := Stopped) else s.(pc := Listening)
    case _ => s
  }

  function ConfirmStep(s: Scope): Scope { if s.sent then s.(subscribed := true) else s }

  function ListenStep(s: Scope): Scope {
    if s.pc.Listening? && s.inbox > 0 then s.(event := true, sent := false, subscribed := false, inbox := 0, pc := Stopped) else s
  }

  function Next(r: Redis, e: Step): Redis {
    match e
    case NewRequest => r.(requesters := r.requesters + [ToSet])
    case NewScope => r.(scopes := r.scopes + [Scope(FirstCheck, false, false, 0, false)])
    case Request(i) => if i < |r.requesters| then RequestStep(r, i) else r
    case Start(j) => if j < |r.scopes| then r.(scopes := r.scopes[j := StartStep(r.prompt, r.key, r.scopes[j])]) else r
    case Confirm(j) => if j < |r.scopes| then r.(scopes := r.scopes[j := ConfirmStep(r.scopes[j])]) else r
    case Listen(j) => if j < |r.scopes| then r.(scopes := r.scopes[j := ListenStep(r.scopes[j])]) else r
  }

  function Run(prompt: bool, steps: seq<Step>): Redis {
    if steps == [] then Redis(prompt, false, [], []) else Next(Run(prompt, steps[..|steps| - 1]), steps[|steps| - 1])
  }

  ghost predicate AnyFinished(r: Redis) {
    exists i :: 0 <= i < |r.requesters| && r.requesters[i] == Finished
  }

  ghost predicate ScopeOk(prompt: bool, key: bool, anyFinished: bool, s: Scope) {
    && (s.sent <==> s.pc.SecondCheck? || s.pc.Listening?)
    && (s.subscribed ==> s.sent) && (prompt && s.sent ==> s.subscribed)
    && (!s.subscribed ==> s.inbox == 0)
    && (s.inbox > 0 ==> key)
    && (s.event <==> s.pc.Stopped?)
    && (s.event ==> key)
    && (prompt && s.pc.Listening? && anyFinished ==> s.inbox > 0)
  }

  ghost predicate Inv(r: Redis) {
    && (forall i :: 0 <= i < |r.requesters| && r.requesters[i] != ToSet ==> r.key)
    && (r.key ==> exists i :: 0 <= i < |r.requesters| && r.requesters[i] != ToSet)
    && (forall j :: 0 <= j < |r.scopes| ==> ScopeOk(r.prompt, r.key, AnyFinished(r), r.scopes[j]))
  }

  lemma RequestKeeps(r: Redis, i: nat)
    requires Inv(r) && i < |r.requesters|
    ensures Inv(RequestStep(r, i))
  {
    var r' := RequestStep(r, i);
    assert r'.requesters[i] != ToSet;
    forall j | 0 <= j < |r'.scopes| ensures ScopeOk(r'.prompt, r'.key, AnyFinished(r'), r'.scopes[j]) {
      assert ScopeOk(r.prompt, r.key, AnyFinished(r), r.scopes[j]);
      if r.requesters[i].ToSet? {
        assert AnyFinished(r') ==> AnyFinished(r);
      }
    }
  }

  lemma NextKeeps(r: Redis, e: Step)
    requires Inv(r)
    ensures Inv(Next(r, e))
  {
    var r' := Next(r, e);
    match e
    case NewRequest =>
      assert AnyFinished(r') ==> AnyFinished(r);
      if r.key {
        var i :| 0 <= i < |r.requesters| && r.requesters[i] != ToSet;
        assert r'.requesters[i] != ToSet;
      }
    case Request(i) => if i < |r.requesters| { RequestKeeps(r, i); }
    case Start(j) =>
      assert AnyFinished(r') <==> AnyFinished(r);
      assert AnyFinished(r) ==> r.key;
    case _ => assert AnyFinished(r') <==> AnyFinished(r);
  }

  lemma {:induction false} RunKeeps(prompt: bool, steps: seq<Step>)
    ensures Inv(Run(prompt, steps)) && Run(prompt, steps).prompt == prompt
  {
    if steps != [] {
      RunKeeps(prompt, steps[..|steps| - 1]);
      NextKeeps(Run(prompt, steps[..|steps| - 1]), steps[|steps| - 1]);
    }
  }

  /** No cancel is lost, as long as the server handles a SUBSCRIBE before the check after it: once a request has
      finished and a scope's start-up has finished, the scope's event is set, or the message waits on its live
      subscription and the listener's next turn sets it. */
  lemma NoLostCancel(steps: seq<Step>, i: nat, j: nat)
    requires i < |Run(true, steps).requesters| && Run(true, steps).requesters[i] == Finished
    requires j < |Run(true, steps).scopes|
    requires var pc := Run(true, steps).scopes[j].pc; pc.Listening? || pc.Stopped?
    ensures var s := Run(true, steps).scopes[j];
            && (s.event || (s.subscribed && s.inbox > 0))
            && Run(true, steps + [Listen(j)]).scopes[j].event
  {
    RunKeeps(true, steps);
    assert AnyFinished(Run(true, steps));
    assert (steps + [Listen(j)])[..|steps|] == steps;
  }

  // ----- Requests and start-ups come to their end -----

  ghost function Requests(steps: seq<Step>, i: nat): nat {
    if steps == [] then 0 else Requests(steps[..|steps| - 1], i) + (if steps[|steps| - 1] == Request(i) then 1 else 0)
  }

  ghost function Starts(steps: seq<Step>, j: nat): nat {
    if steps == [] then 0 else Starts(steps[..|steps| - 1], j) + (if steps[|steps| - 1] == Start(j) then 1 else 0)
  }

  ghost function RequestLeft(r: Requester): nat { match r case ToSet => 2 case ToPublish => 1 case Finished => 0 }

  ghost function StartLeft(pc: ScopePc): nat {
    match pc case FirstCheck => 3 case ToSubscribe => 2 case SecondCheck => 1 case _ => 0
  }

  lemma NextAdvances(r: Redis, e: Step, i: nat, j: nat)
    requires i < |r.requesters| && j < |r.scopes|
    ensures var n := Next(r, e);
            && i < |n.requesters| && j < |n.scopes|
            && (RequestLeft(n.requesters[i]) == 0
                || RequestLeft(n.requesters[i]) + (if e == Request(i) then 1 else 0) <= RequestLeft(r.requesters[i]))
            && (StartLeft(n.scopes[j].pc) == 0
                || StartLeft(n.scopes[j].pc) + (if e == Start(j) then 1 else 0) <= StartLeft(r.scopes[j].pc))
  {
  }

  lemma {:induction false} RunAdvances(prompt: bool, before: seq<Step>, more: seq<Step>, i: nat, j: nat)
    requires i < |Run(prompt, before).requesters| && j < |Run(prompt, before).scopes|
    ensures var r := Run(prompt, before + more);
            && i < |r.requesters| && j < |r.scopes|
            && (RequestLeft(r.requesters[i]) == 0 || RequestLeft(r.requesters[i]) + Requests(more, i) <= 2)
            && (StartLeft(r.scopes[j].pc) == 0 || StartLeft(r.scopes[j].pc) + Starts(more, j) <= 3)
    decreases |more|
  {
    if more == [] {
      assert before + more == before;
    } else {
      var n := |more| - 1;
      RunAdvances(prompt, before, more[..n], i, j);
      assert (before + more)[..|before + more| - 1] == before + more[..n];
      NextAdvances(Run(prompt, before + more[..n]), more[n], i, j);
    }
  }

  /** So a cancel arrives: once the requester has made its two steps and the scope its three, whatever else
      happens in between, the listener's next turn leaves the event set. */
  lemma {:induction false} CancelArrives(before: seq<Step>, more: seq<Step>, i: nat, j: nat)
    requires i < |Run(true, before).requesters| && j < |Run(true, before).scopes|
    requires Requests(more, i) >= 2 && Starts(more, j) >= 3
    ensures var r := Run(true, before + more + [Listen(j)]); j < |r.scopes| && r.scopes[j].event
  {
    RunAdvances(true, before, more, i, j);
    NoLostCancel(before + more, i, j);
  }

  /** A scope that starts after a request has set the key knows at its first step, and never subscribes. */
  lemma {:induction false} SeenAtOnce(prompt: bool, steps: seq<Step>, i: nat, j: nat)
    requires i < |Run(prompt, steps).requesters| && Run(prompt, steps).requesters[i] != ToSet
    requires j < |Run(prompt, steps).scopes| && Run(prompt, steps).scopes[j].pc.FirstCheck?
    ensures var s := Run(prompt, steps + [Start(j)]).scopes;
            j < |s| && s[j].event && !s[j].sent && !s[j].subscribed
  {
    RunKeeps(prompt, steps);
    RunSnoc(prompt, steps, Start(j));
  }

  /** A request and a scope's start-up have finished, and the scope neither knows nor has a message waiting. */
  ghost predicate Lost(r: Redis, i: nat, j: nat) {
    && i < |r.requesters| && r.requesters[i] == Finished
    && j < |r.scopes| && r.scopes[j].pc.Listening? && !r.scopes[j].event && r.scopes[j].inbox == 0
  }

  ghost predicate Loses(r: Redis) { exists i, j :: Lost(r, i, j) }

  ghost predicate Reachable(prompt: bool, r: Redis) { exists steps :: Run(prompt, steps) == r }

  lemma RunSnoc(prompt: bool, steps: seq<Step>, e: Step)
    ensures Run(prompt, steps + [e]) == Next(Run(prompt, steps), e)
  {
    assert (steps + [e])[..|steps|] == steps;
  }

  lemma ReachListening() returns (steps: seq<Step>)
    ensures Run(false, steps) == Redis(false, false, [ToSet], [Scope(Listening, true, false, 0, false)])
  {
    steps := [];
    RunSnoc(false, steps, NewRequest);
    steps := steps + [NewRequest];
    RunSnoc(false, steps, NewScope);
    steps := steps + [NewScope];
    RunSnoc(false, steps, Start(0));
    steps := steps + [Start(0)];
    assert Run(false, steps).scopes == [Scope(ToSubscribe, false, false, 0, false)];
    RunSnoc(false, steps, Start(0));
    steps := steps + [Start(0)];
    assert Run(false, steps).scopes == [Scope(SecondCheck, true, false, 0, false)];
    RunSnoc(false, steps, Start(0));
    steps := steps + [Start(0)];
  }

  lemma ReachLost() returns (steps: seq<Step>)
    ensures Lost(Run(false, steps), 0, 0)
  {
    steps := ReachListening();
    RunSnoc(false, steps, Request(0));
    steps := steps + [Request(0)];
    RunSnoc(false, steps, Request(0));
    steps := steps + [Request(0)];
  }

  /** A cancel can be lost exactly when the server may handle the second check ahead of the SUBSCRIBE. */
  lemma LostExactly(prompt: bool)
    ensures (exists r :: Reachable(prompt, r) && Loses(r)) <==> !prompt
  {
    if prompt {
      forall r | Reachable(prompt, r) && Loses(r) ensures false {
        var steps :| Run(prompt, steps) == r;
        var i, j :| Lost(r, i, j);
        NoLostCancel(steps, i, j);
      }
    } else {
      var steps := ReachLost();
      assert Reachable(prompt, Run(prompt, steps)) && Loses(Run(prompt, steps));
    }
  }

  /** No false alarm: an event is set only after some request has set the key. */
  lemma NoFalseAlarm(prompt: bool, steps: seq<Step>, j: nat)
    requires j < |Run(prompt, steps).scopes| && Run(prompt, steps).scopes[j].event
    ensures exists i :: 0 <= i < |Run(prompt, steps).requesters| && Run(prompt, steps).requesters[i] != ToSet
  {
    RunKeeps(prompt, steps);
  }
}
