/**
 The Redis broker and the adapter's operation handling as a step machine: a stream with a consumer
 group, its pending entries, the dead-letter stream, the crash counters, and any number of deliveries in
 progress. Every Redis command (or transaction) is one step, a delivery may crash between any two steps,
 and commands may raise before or after taking effect.
 */
module RedisBroker {

  /** The fields of a stream entry; `op` names the enqueued operation it descends from, `notBefore` is 0
      when the entry may run at once. */
  datatype Msg = Msg(op: nat, attempt: nat, notBefore: nat, readable: bool)

  /** `crashes` is the counter kept under the entry's id. */
  datatype Entry = Entry(msg: Msg, acked: bool, crashes: nat)

  datatype Pc =
    | Received                 // delivered by XREADGROUP
    | Claimed                  // taken over by XAUTOCLAIM
    | Rejecting                // handling a claimed entry raised: about to dead-letter it as undecodable
    | Unreadable               // dead-lettered as undecodable, not acked yet
    | Poisoned(attempt: nat)   // claimed too often
    | Lettered(attempt: nat)   // dead-lettered as a poison pill, not acked yet
    | Held(attempt: nat)       // a handle in the adapter
    | Dispatching(attempt: nat)
    | AckDispatched(attempt: nat)
    | Nacking(attempt: nat)
    | NackLettered             // dead-lettered by nack, not acked yet
    | Marking                  // about to mark the task failed
    | AckFinal
    | Over

  datatype Delivery = Delivery(entry: nat, pc: Pc)

  /** `max` is the broker's retry limit and `limit` the adapter's. `strict` says that only entries of dead
      consumers are claimed. Entries below `cursor` have been delivered. `ops` counts the operations enqueued;
      the last four fields record which were dead-lettered, had a mark-failed attempt, were acknowledged
      after one or after a dispatch, and the dispatches as (operation, attempt) in order. */
  datatype Broker = Broker(
    strict: bool, max: nat, limit: nat, now: nat,
    stream: seq<Entry>, cursor: nat, deliveries: seq<Delivery>, ops: nat,
    letters: set<nat>, marked: set<nat>, settled: set<nat>, dispatches: seq<(nat, nat)>)

  /** What a step's commands and the user's code may do. */
  datatype Choice = Fine | Raises(took: bool) | Crash

  datatype Step =
    | Wait(seconds: nat)
    | Enqueue(readable: bool)
    | ReadNew
    | Claim(e: nat)
    | Act(d: nat, choice: Choice)

  // ----- Effects -----

  ghost predicate WellFormed(b: Broker) {
    && b.cursor <= |b.stream|
    && (forall e :: 0 <= e < |b.stream| ==> b.stream[e].msg.op < b.ops)
    && (forall d :: 0 <= d < |b.deliveries| ==> b.deliveries[d].entry < b.cursor)
  }

  /** A step of delivery d leaves every other delivery alone. */
  ghost predicate OnlyMoves(b: Broker, r: Broker, d: nat) {
    && |r.deliveries| == |b.deliveries|
    && (forall i :: 0 <= i < |b.deliveries| && i != d ==> r.deliveries[i] == b.deliveries[i])
    && (d < |b.deliveries| ==> r.deliveries[d].entry == b.deliveries[d].entry)
  }

  function Ack(b: Broker, e: nat): (r: Broker)
    requires e < |b.stream|
    ensures WellFormed(b) ==> WellFormed(r)
  {
    b.(stream := b.stream[e := b.stream[e].(acked := true)])
  }

  function Add(b: Broker, m: Msg): (r: Broker)
    ensures WellFormed(b) && m.op < b.ops ==> WellFormed(r)
  {
    b.(stream := b.stream + [Entry(m, false, 0)])
  }

  function Goto(b: Broker, d: nat, pc: Pc): (r: Broker)
    requires d < |b.deliveries|
    ensures WellFormed(b) ==> WellFormed(r)
    ensures OnlyMoves(b, r, d)
  {
    b.(deliveries := b.deliveries[d := b.deliveries[d].(pc := pc)])
  }

  function Letter(b: Broker, op: nat): Broker { b.(letters := b.letters + {op}) }

  /** Re-add at the tail and ack, in one transaction. */
  function Requeue(b: Broker, e: nat): Broker
    requires e < |b.stream|
  {
    Ack(Add(b, b.stream[e].msg), e)
  }

  function Min(a: nat, b: nat): nat { if a < b then a else b }

  /** `nack` below the limit: ack and re-add with the next attempt number and a back-off. */
  function Retry(b: Broker, e: nat, attempt: nat): Broker
    requires e < |b.stream|
  {
    Ack(Add(b, b.stream[e].msg.(attempt := attempt + 1, notBefore := b.now + Min(attempt * 2, 30))), e)
  }

  function Settle(b: Broker, e: nat): Broker
    requires e < |b.stream|
  {
    Ack(b, e).(settled := b.settled + {b.stream[e].msg.op})
  }

  /** After a failed dispatch: retry while attempts are left, else mark the task failed. */
  function AfterFailure(limit: nat, attempt: nat): Pc { if attempt < limit then Nacking(attempt) else Marking }

  function Live(b: Broker, e: nat): bool {
    exists d :: 0 <= d < |b.deliveries| && b.deliveries[d].entry == e && !b.deliveries[d].pc.Over?
  }

  // ----- One step of one delivery -----

  function Dispatch(b: Broker, op: nat, attempt: nat): Broker {
    b.(dispatches := b.dispatches + [(op, attempt)])
  }

  function Mark(b: Broker, op: nat): Broker { b.(marked := b.marked + {op}) }

  function Count(b: Broker, e: nat): Broker
    requires e < |b.stream|
  {
    b.(stream := b.stream[e := b.stream[e].(crashes := b.stream[e].crashes + 1)])
  }

  /** Did the step's command take effect? */
  predicate Took(c: Choice) { c.Fine? || (c.Raises? && c.took) }

  /** An entry just received or claimed: push it back while it is not due, dead-letter it when it does not
      decode, and count the claim. */
  function AdmitEffect(b: Broker, e: nat, claimed: bool): (r: Broker)
    requires e < |b.stream|
    ensures r.deliveries == b.deliveries
  {
    var m := b.stream[e].msg;
    if m.notBefore > b.now then Requeue(b, e)
    else if !m.readable then Letter(b, m.op)
    else if claimed then Count(b, e)
    else b
  }

  /** A raising command ends the receive loop, except that a claim whose count raises is dead-lettered. */
  function AdmitPc(b: Broker, e: nat, claimed: bool, c: Choice): Pc
    requires e < |b.stream|
  {
    var m := b.stream[e].msg;
    var counted := m.attempt + b.stream[e].crashes + 1;
    if m.notBefore > b.now then Over
    else if !m.readable then (if c.Raises? then Over else Unreadable)
    else if !claimed then Held(m.attempt)
    else if c.Raises? then Rejecting
    else if counted > b.max then Poisoned(counted)
    else Held(counted)
  }

  /** The commands of one step. A command that raised took effect or not. */
  function Effect(b: Broker, x: Delivery, c: Choice): (r: Broker)
    requires x.entry < |b.stream|
    ensures r.deliveries == b.deliveries
  {
    var e := x.entry;
    var op := b.stream[e].msg.op;
    match x.pc
    case Held(a) => if c.Crash? || a > b.limit then b else Dispatch(b, op, a)
    case Marking => if c.Crash? then b else Mark(b, op)
    case _ =>
      if !Took(c) then b
      else
        match x.pc
        case Received => AdmitEffect(b, e, false)
        case Claimed => AdmitEffect(b, e, true)
        case Rejecting => Letter(b, op)
        case Unreadable => Ack(b, e)
        case Poisoned(_) => Letter(b, op)
        case Lettered(_) => Ack(b, e)
        case AckDispatched(_) => Settle(b, e)
        case Nacking(a) => if a + 1 > b.max then Letter(b, op) else Retry(b, e, a)
        case NackLettered => Ack(b, e)
        case AckFinal => Settle(b, e)
        case _ => b
  }

  function NextPc(b: Broker, x: Delivery, c: Choice): Pc
    requires x.entry < |b.stream|
  {
    if c.Crash? then Over
    else
      match x.pc
      case Received => AdmitPc(b, x.entry, false, c)
      case Claimed => AdmitPc(b, x.entry, true, c)
      case Rejecting => if c.Raises? then Over else Unreadable
      case Poisoned(a) => if c.Raises? then Rejecting else Lettered(a)
      case Lettered(a) => if c.Raises? then Rejecting else Held(a)
      case Held(a) => if a > b.limit then Marking else Dispatching(a)
      case Dispatching(a) => if c.Raises? then AfterFailure(b.limit, a) else AckDispatched(a)
      case AckDispatched(a) => if c.Raises? then AfterFailure(b.limit, a) else Over
      case Nacking(a) => if c.Raises? then Marking else if a + 1 > b.max then NackLettered else Over
      case NackLettered => if c.Raises? then Marking else Over
      case Marking => AckFinal
      case _ => Over
  }

  function ActStep(b: Broker, d: nat, c: Choice): (r: Broker)
    requires WellFormed(b) && d < |b.deliveries|
    ensures WellFormed(r) && OnlyMoves(b, r, d)
  {
    EffectKeepsWellFormed(b, b.deliveries[d], c);
    Goto(Effect(b, b.deliveries[d], c), d, NextPc(b, b.deliveries[d], c))
  }

  lemma EffectKeepsWellFormed(b: Broker, x: Delivery, c: Choice)
    requires WellFormed(b) && x.entry < |b.stream|
    ensures WellFormed(Effect(b, x, c))
  {
  }

  function Next(b: Broker, s: Step): Broker
    requires WellFormed(b)
  {
    match s
    case Wait(seconds) => b.(now := b.now + seconds)
    case Enqueue(readable) => Add(b, Msg(b.ops, 1, 0, readable)).(ops := b.ops + 1)
    case ReadNew =>
      if b.cursor < |b.stream|
      then b.(cursor := b.cursor + 1, deliveries := b.deliveries + [Delivery(b.cursor, Received)])
      else b
    case Claim(e) =>
      if e < b.cursor && !b.stream[e].acked && (b.strict ==> !Live(b, e))
      then b.(deliveries := b.deliveries + [Delivery(e, Claimed)])
      else b
    case Act(d, c) => if d < |b.deliveries| then ActStep(b, d, c) else b
  }

  lemma NextKeepsWellFormed(b: Broker, s: Step)
    requires WellFormed(b)
    ensures WellFormed(Next(b, s))
    ensures b.ops <= Next(b, s).ops
  {
  }

  function Run(b: Broker, steps: seq<Step>): (r: Broker)
    requires WellFormed(b)
    ensures WellFormed(r)
  {
    if steps == [] then b
    else
      var before := Run(b, steps[..|steps| - 1]);
      NextKeepsWellFormed(before, steps[|steps| - 1]);
      Next(before, steps[|steps| - 1])
  }

  function Init(strict: bool, max: nat, limit: nat): (b: Broker)
    ensures WellFormed(b)
  {
    Broker(strict, max, limit, 0, [], 0, [], 0, {}, {}, {}, [])
  }

  // ----- No operation is lost -----

  /** Some entry of the operation is in the stream and not acknowledged: undelivered or pending. */
  ghost predicate Carried(b: Broker, op: nat) {
    exists e :: 0 <= e < |b.stream| && !b.stream[e].acked && b.stream[e].msg.op == op
  }

  ghost predicate Kept(b: Broker, op: nat) {
    Carried(b, op) || op in b.letters || op in b.settled
  }

  ghost predicate Dispatched(b: Broker, op: nat) {
    exists k :: 0 <= k < |b.dispatches| && b.dispatches[k].0 == op
  }

  /** What a delivery about to acknowledge has done before. */
  ghost predicate Earned(b: Broker, d: Delivery)
    requires d.entry < |b.stream|
  {
    var op := b.stream[d.entry].msg.op;
    match d.pc
    case Unreadable => op in b.letters
    case Lettered(_) => op in b.letters
    case NackLettered => op in b.letters
    case Dispatching(_) => Dispatched(b, op)
    case AckDispatched(_) => Dispatched(b, op)
    case AckFinal => op in b.marked
    case _ => true
  }

  ghost predicate LossInv(b: Broker) {
    && WellFormed(b)
    && (forall op :: 0 <= op < b.ops ==> Kept(b, op))
    && (forall d :: 0 <= d < |b.deliveries| ==> Earned(b, b.deliveries[d]))
    && (forall op :: op in b.settled ==> op in b.marked || Dispatched(b, op))
  }

  /** A step that neither shortens the records nor acknowledges anything unaccounted for. */
  ghost predicate Advances(b: Broker, c: Broker) {
    && b.ops == c.ops
    && b.letters <= c.letters && b.marked <= c.marked && b.settled <= c.settled
    && b.dispatches <= c.dispatches
    && |b.stream| <= |c.stream|
    && (forall e :: 0 <= e < |b.stream| ==> c.stream[e].msg == b.stream[e].msg)
    && (forall e :: 0 <= e < |b.stream| && !b.stream[e].acked && c.stream[e].acked ==> Kept(c, b.stream[e].msg.op))
    && (forall op :: op in c.settled && op !in b.settled ==> op in c.marked || Dispatched(c, op))
  }

  lemma DispatchedStays(b: Broker, c: Broker, op: nat)
    requires b.dispatches <= c.dispatches && Dispatched(b, op)
    ensures Dispatched(c, op)
  {
    var k :| 0 <= k < |b.dispatches| && b.dispatches[k].0 == op;
    assert c.dispatches[k].0 == op;
  }

  lemma AdvancesKeeps(b: Broker, c: Broker)
    requires LossInv(b) && WellFormed(c) && Advances(b, c)
    ensures forall op :: 0 <= op < c.ops ==> Kept(c, op)
    ensures forall op :: op in c.settled ==> op in c.marked || Dispatched(c, op)
    ensures forall d :: 0 <= d < |b.deliveries| ==> Earned(c, b.deliveries[d])
  {
    forall op | 0 <= op < c.ops ensures Kept(c, op) {
      assert Kept(b, op);
      if Carried(b, op) {
        var e :| 0 <= e < |b.stream| && !b.stream[e].acked && b.stream[e].msg.op == op;
        assert !c.stream[e].acked ==> Carried(c, op);
      }
    }
    forall op | op in c.settled ensures op in c.marked || Dispatched(c, op) {
      if op in b.settled && op !in b.marked { DispatchedStays(b, c, op); }
    }
    forall d | 0 <= d < |b.deliveries| ensures Earned(c, b.deliveries[d]) {
      assert Earned(b, b.deliveries[d]);
      var op := b.stream[b.deliveries[d].entry].msg.op;
      if Dispatched(b, op) { DispatchedStays(b, c, op); }
    }
  }

  /** Which effects account for what they acknowledge. */
  lemma ReaddAdvances(b: Broker, m: Msg, e: nat)
    requires e < |b.stream| && m.op == b.stream[e].msg.op
    ensures Advances(b, Ack(Add(b, m), e))
  {
    var c := Ack(Add(b, m), e);
    assert !c.stream[|b.stream|].acked && c.stream[|b.stream|].msg.op == m.op;
  }

  lemma AckAdvances(b: Broker, e: nat)
    requires e < |b.stream| && b.stream[e].msg.op in b.letters
    ensures Advances(b, Ack(b, e))
  {
  }

  lemma SettleAdvances(b: Broker, e: nat)
    requires e < |b.stream| && (b.stream[e].msg.op in b.marked || Dispatched(b, b.stream[e].msg.op))
    ensures Advances(b, Settle(b, e))
  {
    assert Settle(b, e).dispatches == b.dispatches;
  }

  lemma GotoAdvances(b: Broker, c: Broker, d: nat, pc: Pc)
    requires Advances(b, c) && d < |c.deliveries|
    ensures Advances(b, Goto(c, d, pc))
  {
    var r := Goto(c, d, pc);
    assert r.stream == c.stream && r.dispatches == c.dispatches;
    forall e | 0 <= e < |b.stream| && !b.stream[e].acked && r.stream[e].acked ensures Kept(r, b.stream[e].msg.op) {
      assert Kept(c, b.stream[e].msg.op);
    }
    forall op | op in r.settled && op !in b.settled ensures op in r.marked || Dispatched(r, op) {
      assert op in c.marked || Dispatched(c, op);
    }
  }

  lemma RecordAdvances(b: Broker, c: Broker)
    requires c == b.(letters := c.letters, marked := c.marked, dispatches := c.dispatches)
    requires b.letters <= c.letters && b.marked <= c.marked && b.dispatches <= c.dispatches
    ensures Advances(b, c)
  {
  }

  lemma CountAdvances(b: Broker, e: nat)
    requires e < |b.stream|
    ensures Advances(b, Count(b, e))
  {
  }

  lemma AdmitAdvances(b: Broker, e: nat, claimed: bool)
    requires e < |b.stream|
    ensures Advances(b, AdmitEffect(b, e, claimed))
  {
    var m := b.stream[e].msg;
    if m.notBefore > b.now {
      ReaddAdvances(b, m, e);
    } else if !m.readable {
      RecordAdvances(b, Letter(b, m.op));
    } else if claimed {
      CountAdvances(b, e);
    } else {
      RecordAdvances(b, b);
    }
  }

  lemma EffectAdvances(b: Broker, x: Delivery, c: Choice)
    requires x.entry < |b.stream| && Earned(b, x)
    ensures Advances(b, Effect(b, x, c))
  {
    var e := x.entry;
    var m := b.stream[e].msg;
    var r := Effect(b, x, c);
    RecordAdvances(b, b);
    if r != b {
      match x.pc
      case Received => AdmitAdvances(b, e, false);
      case Claimed => AdmitAdvances(b, e, true);
      case Unreadable => AckAdvances(b, e);
      case Lettered(_) => AckAdvances(b, e);
      case NackLettered => AckAdvances(b, e);
      case AckDispatched(_) => SettleAdvances(b, e);
      case AckFinal => SettleAdvances(b, e);
      case Nacking(a) =>
        ReaddAdvances(b, m.(attempt := a + 1, notBefore := b.now + Min(a * 2, 30)), e);
        RecordAdvances(b, Letter(b, m.op));
      case _ => RecordAdvances(b, r);
    }
  }

  /** What the moved delivery must have earned at its new program counter. */
  lemma StepEarns(b: Broker, x: Delivery, c: Choice)
    requires x.entry < |b.stream| && Earned(b, x)
    ensures x.entry < |Effect(b, x, c).stream| && Earned(Effect(b, x, c), x.(pc := NextPc(b, x, c)))
  {
    var r := Effect(b, x, c);
    match x.pc
    case Held(a) =>
      if !c.Crash? && a <= b.limit { assert r.dispatches[|b.dispatches|].0 == b.stream[x.entry].msg.op; }
    case _ =>
  }

  lemma ActAdvances(b: Broker, d: nat, c: Choice)
    requires LossInv(b) && d < |b.deliveries|
    ensures var r := ActStep(b, d, c);
            Advances(b, r) && Earned(r, r.deliveries[d])
  {
    var x := b.deliveries[d];
    assert Earned(b, x);
    EffectAdvances(b, x, c);
    StepEarns(b, x, c);
    GotoAdvances(b, Effect(b, x, c), d, NextPc(b, x, c));
  }

  lemma ActKeepsLoss(b: Broker, d: nat, c: Choice)
    requires LossInv(b) && d < |b.deliveries|
    ensures LossInv(ActStep(b, d, c))
  {
    var r := ActStep(b, d, c);
    ActAdvances(b, d, c);
    AdvancesKeeps(b, r);
    forall i | 0 <= i < |r.deliveries| ensures Earned(r, r.deliveries[i]) {
      assert i != d ==> Earned(r, b.deliveries[i]);
    }
  }

  lemma EnqueueKeepsLoss(b: Broker, readable: bool)
    requires LossInv(b)
    ensures LossInv(Next(b, Enqueue(readable)))
  {
    var m := Msg(b.ops, 1, 0, readable);
    var r := Next(b, Enqueue(readable));
    assert WellFormed(Add(b, m).(ops := b.ops + 1));
    assert !r.stream[|b.stream|].acked && r.stream[|b.stream|].msg.op == b.ops;
    forall op | 0 <= op < r.ops ensures Kept(r, op) {
      if op < b.ops {
        assert Kept(b, op);
        if Carried(b, op) {
          var e :| 0 <= e < |b.stream| && !b.stream[e].acked && b.stream[e].msg.op == op;
          assert r.stream[e] == b.stream[e];
        }
      }
    }
    forall d | 0 <= d < |r.deliveries| ensures Earned(r, r.deliveries[d]) { assert Earned(b, b.deliveries[d]); }
    forall op | op in r.settled ensures op in r.marked || Dispatched(r, op) {
      if op !in b.marked { DispatchedStays(b, r, op); }
    }
  }

  lemma OtherKeepsLoss(b: Broker, s: Step)
    requires LossInv(b) && (s.Wait? || s.ReadNew? || s.Claim?)
    ensures LossInv(Next(b, s))
  {
    var r := Next(b, s);
    NextKeepsWellFormed(b, s);
    AdvancesKeeps(b, r);
    forall d | 0 <= d < |r.deliveries| ensures Earned(r, r.deliveries[d]) {
      if d < |b.deliveries| { assert r.deliveries[d] == b.deliveries[d]; }
    }
  }

  lemma {:induction false} RunKeepsLoss(strict: bool, max: nat, limit: nat, steps: seq<Step>)
    ensures LossInv(Run(Init(strict, max, limit), steps))
    decreases |steps|
  {
    if steps != [] {
      var before, s := Run(Init(strict, max, limit), steps[..|steps| - 1]), steps[|steps| - 1];
      RunKeepsLoss(strict, max, limit, steps[..|steps| - 1]);
      match s
      case Enqueue(readable) => EnqueueKeepsLoss(before, readable);
      case Act(d, c) => if d < |before.deliveries| { ActKeepsLoss(before, d, c); }
      case _ => OtherKeepsLoss(before, s);
    }
  }

  /** At every step of every run, with crashes anywhere and claims of dead or slow consumers alike, every
      enqueued operation still has an unacknowledged entry, was dead-lettered, or was acknowledged after user
      code was started for it or a mark-failed write was attempted. */
  lemma NoOperationLost(strict: bool, max: nat, limit: nat, steps: seq<Step>, op: nat)
    requires op < Run(Init(strict, max, limit), steps).ops
    ensures var b := Run(Init(strict, max, limit), steps);
            Carried(b, op) || op in b.letters || (op in b.settled && (op in b.marked || Dispatched(b, op)))
  {
    RunKeepsLoss(strict, max, limit, steps);
    assert Kept(Run(Init(strict, max, limit), steps), op);
  }
}
