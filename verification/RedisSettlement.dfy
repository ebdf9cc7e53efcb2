/**
 What becomes of a delivery: left to itself it ends after a bounded number of steps with its entry acknowledged, a
 success is settled for good, a failure comes back with the next number after its back-off or is given up, and user
 code never starts before a delivery is due. A success can be run again exactly when its acknowledgement raised.
 */
module RedisSettlement {
  import opened RedisBroker
  import Dispatch = RedisDispatch
  import Limits = RedisLimits

  // ----- What every step keeps -----

  /** Records only grow, entries keep their fields, and what is acknowledged stays so. */
  ghost predicate Grows(b: Broker, r: Broker) {
    && r.max == b.max && r.limit == b.limit && b.now <= r.now
    && |b.stream| <= |r.stream| && |b.deliveries| <= |r.deliveries|
    && b.letters <= r.letters && b.marked <= r.marked && b.dispatches <= r.dispatches
    && (forall e :: 0 <= e < |b.stream| ==>
          r.stream[e].msg == b.stream[e].msg && (b.stream[e].acked ==> r.stream[e].acked))
    && (forall d :: 0 <= d < |b.deliveries| ==> r.deliveries[d].entry == b.deliveries[d].entry)
  }

  lemma EffectGrows(b: Broker, x: Delivery, c: Choice)
    requires x.entry < |b.stream|
    ensures Grows(b, Effect(b, x, c))
  {
  }

  lemma NextGrows(b: Broker, s: Step)
    requires WellFormed(b)
    ensures Grows(b, Next(b, s))
  {
    if s.Act? && s.d < |b.deliveries| { EffectGrows(b, b.deliveries[s.d], s.choice); }
  }

  lemma GrowsOn(b: Broker, m: Broker, r: Broker)
    requires Grows(b, m) && Grows(m, r)
    ensures Grows(b, r)
  {
  }

  lemma {:induction false} RunGrows(b: Broker, steps: seq<Step>)
    requires WellFormed(b)
    ensures Grows(b, Run(b, steps))
    decreases |steps|
  {
    if steps != [] {
      var n := |steps| - 1;
      RunGrows(b, steps[..n]);
      NextGrows(Run(b, steps[..n]), steps[n]);
      GrowsOn(b, Run(b, steps[..n]), Run(b, steps));
    }
  }

  /** Nobody but delivery d itself moves it on. */
  lemma OthersLeave(b: Broker, s: Step, d: nat)
    requires WellFormed(b) && d < |b.deliveries| && (s.Act? ==> s.d != d)
    ensures d < |Next(b, s).deliveries| && Next(b, s).deliveries[d] == b.deliveries[d]
  {
  }

  // ----- Every delivery ends, and acknowledges -----

  /** At most so many steps of its own are left to a delivery. */
  ghost function Left(pc: Pc): nat {
    match pc
    case Claimed => 10 case Received => 8 case Poisoned(_) => 9 case Lettered(_) => 8 case Held(_) => 7
    case Dispatching(_) => 6 case AckDispatched(_) => 5 case Nacking(_) => 4 case NackLettered => 3
    case Marking => 2 case Rejecting => 2 case AckFinal => 1 case Unreadable => 1 case Over => 0
  }

  ghost function Turns(steps: seq<Step>, d: nat): nat {
    if steps == [] then 0
    else Turns(steps[..|steps| - 1], d) + (if steps[|steps| - 1].Act? && steps[|steps| - 1].d == d then 1 else 0)
  }

  lemma StepCountsDown(b: Broker, x: Delivery, c: Choice)
    requires x.entry < |b.stream|
    ensures Left(NextPc(b, x, c)) < Left(x.pc) || NextPc(b, x, c).Over?
  {
  }

  /** n steps of its own have brought a delivery from one place to another. */
  ghost predicate CountedDown(from: Pc, to: Pc, n: nat) { to.Over? || Left(to) + n <= Left(from) }

  lemma NextCountsDown(b: Broker, s: Step, d: nat)
    requires WellFormed(b) && d < |b.deliveries|
    ensures d < |Next(b, s).deliveries|
    ensures CountedDown(b.deliveries[d].pc, Next(b, s).deliveries[d].pc, if s.Act? && s.d == d then 1 else 0)
    ensures b.deliveries[d].pc.Over? ==> Next(b, s).deliveries[d].pc.Over?
  {
    if s.Act? && s.d == d { StepCountsDown(b, b.deliveries[d], s.choice); } else { OthersLeave(b, s, d); }
  }

  lemma {:induction false} RunCountsDown(b: Broker, steps: seq<Step>, d: nat)
    requires WellFormed(b) && d < |b.deliveries|
    ensures d < |Run(b, steps).deliveries|
    ensures CountedDown(b.deliveries[d].pc, Run(b, steps).deliveries[d].pc, Turns(steps, d))
    decreases |steps|
  {
    if steps != [] {
      RunCountsDown(b, steps[..|steps| - 1], d);
      NextCountsDown(Run(b, steps[..|steps| - 1]), steps[|steps| - 1], d);
    }
  }

  /** No redelivery loop inside a delivery: after ten steps of its own it is over, whatever raises. */
  lemma {:induction false} DeliveryEnds(b: Broker, steps: seq<Step>, d: nat)
    requires WellFormed(b) && d < |b.deliveries| && Turns(steps, d) >= 10
    ensures d < |Run(b, steps).deliveries| && Run(b, steps).deliveries[d].pc.Over?
  {
    RunCountsDown(b, steps, d);
  }

  /** Delivery d is left to itself but for its user code, which raises or not: no crash, no raising command. */
  ghost predicate Calm(b: Broker, s: Step, d: nat, fails: bool)
    requires WellFormed(b)
  {
    s.Act? && s.d == d && d < |b.deliveries| ==>
      if b.deliveries[d].pc.Dispatching? && fails then s.choice.Raises? else s.choice.Fine?
  }

  ghost predicate CalmRun(b: Broker, steps: seq<Step>, d: nat, fails: bool)
    requires WellFormed(b)
  {
    steps == [] ||
    (CalmRun(b, steps[..|steps| - 1], d, fails) && Calm(Run(b, steps[..|steps| - 1]), steps[|steps| - 1], d, fails))
  }

  lemma CalmStepAcks(b: Broker, x: Delivery, c: Choice, fails: bool)
    requires x.entry < |b.stream| && !x.pc.Over?
    requires if x.pc.Dispatching? && fails then c.Raises? else c.Fine?
    ensures NextPc(b, x, c).Over? ==> x.entry < |Effect(b, x, c).stream| && Effect(b, x, c).stream[x.entry].acked
  {
  }

  /** A delivery that ends calmly has acknowledged its entry, wherever it came from. */
  lemma {:induction false} CalmEndAcks(b: Broker, steps: seq<Step>, d: nat, fails: bool)
    requires WellFormed(b) && d < |b.deliveries| && !b.deliveries[d].pc.Over? && CalmRun(b, steps, d, fails)
    ensures var r := Run(b, steps);
            && d < |r.deliveries| && r.deliveries[d].entry == b.deliveries[d].entry < |r.stream|
            && (r.deliveries[d].pc.Over? ==> r.stream[r.deliveries[d].entry].acked)
    decreases |steps|
  {
    if steps != [] {
      var n := |steps| - 1;
      CalmEndAcks(b, steps[..n], d, fails);
      var m := Run(b, steps[..n]);
      NextGrows(m, steps[n]);
      if steps[n].Act? && steps[n].d == d {
        if !m.deliveries[d].pc.Over? { CalmStepAcks(m, m.deliveries[d], steps[n].choice, fails); }
      } else {
        OthersLeave(m, steps[n], d);
      }
    }
  }

  // ----- What it comes to -----

  ghost predicate StartedSince(ds: seq<(nat, nat)>, n: nat, op: nat, a: nat) {
    exists k :: n <= k < |ds| && ds[k] == (op, a)
  }

  /** The operation was put back with number a, not to run before a point in time. */
  ghost predicate PutBack(b: Broker, n: nat, op: nat, a: nat, due: nat) {
    exists f :: n <= f < |b.stream| && b.stream[f].msg.op == op && b.stream[f].msg.attempt == a && due <= b.stream[f].msg.notBefore
  }

  /** Where a delivery that was held with number a at broker b may stand, and what it has done by then. */
  ghost predicate OnRoute(b: Broker, r: Broker, op: nat, a: nat, fails: bool, pc: Pc, acked: bool) {
    var started := StartedSince(r.dispatches, |b.dispatches|, op, a);
    match pc
    case Held(n) => n == a
    case Dispatching(n) => n == a <= b.limit && started
    case AckDispatched(n) => n == a <= b.limit && started && !fails
    case Nacking(n) => n == a < b.limit && started && fails
    case NackLettered => b.max <= a < b.limit && started && fails && op in r.letters
    case Marking => a > b.limit || (a == b.limit && started && fails)
    case AckFinal => (a > b.limit || (a == b.limit && started && fails)) && op in r.marked
    case Over => acked && Outcome(b, r, op, a, fails)
    case _ => false
  }

  /** Beyond the adapter's limit user code is not started and the task is marked failed. Otherwise it was started,
      and after a failure the operation was put back with the next number and a back-off, dead-lettered where the
      broker's limit forbids that, or marked failed where the adapter's does. */
  ghost predicate Outcome(b: Broker, r: Broker, op: nat, a: nat, fails: bool) {
    if a > b.limit then op in r.marked
    else
      && StartedSince(r.dispatches, |b.dispatches|, op, a)
      && (fails ==>
            if a == b.limit then op in r.marked
            else if a < b.max then PutBack(r, |b.stream|, op, a + 1, b.now + Min(a * 2, 30))
            else op in r.letters)
  }

  lemma OutcomeGrows(b: Broker, m: Broker, r: Broker, op: nat, a: nat, fails: bool, pc: Pc, acked: bool, now: bool)
    requires Grows(m, r) && OnRoute(b, m, op, a, fails, pc, acked) && (acked ==> now)
    ensures OnRoute(b, r, op, a, fails, pc, now)
  {
    if StartedSince(m.dispatches, |b.dispatches|, op, a) {
      var k :| |b.dispatches| <= k < |m.dispatches| && m.dispatches[k] == (op, a);
      assert r.dispatches[k] == (op, a);
    }
    if PutBack(m, |b.stream|, op, a + 1, b.now + Min(a * 2, 30)) {
      var f :| |b.stream| <= f < |m.stream| && m.stream[f].msg.op == op && m.stream[f].msg.attempt == a + 1
               && b.now + Min(a * 2, 30) <= m.stream[f].msg.notBefore;
      assert r.stream[f].msg == m.stream[f].msg;
    }
  }

  lemma RouteStep(b: Broker, m: Broker, x: Delivery, c: Choice, a: nat, fails: bool)
    requires Grows(b, m) && x.entry < |m.stream| && !x.pc.Over?
    requires OnRoute(b, m, m.stream[x.entry].msg.op, a, fails, x.pc, m.stream[x.entry].acked)
    requires if x.pc.Dispatching? && fails then c.Raises? else c.Fine?
    ensures var r := Effect(m, x, c);
            && x.entry < |r.stream|
            && OnRoute(b, r, m.stream[x.entry].msg.op, a, fails, NextPc(m, x, c), r.stream[x.entry].acked)
  {
    var r, op := Effect(m, x, c), m.stream[x.entry].msg.op;
    EffectGrows(m, x, c);
    OutcomeGrows(b, m, r, op, a, fails, x.pc, m.stream[x.entry].acked, r.stream[x.entry].acked);
    match x.pc
    case Held(_) => if a <= m.limit { assert r.dispatches[|m.dispatches|] == (op, a); }
    case Nacking(_) =>
      if a < m.max { assert r.stream[|m.stream|].msg.attempt == a + 1 && r.stream[|m.stream|].msg.op == op; }
    case _ =>
  }

  lemma {:induction false} RouteRun(b: Broker, steps: seq<Step>, d: nat, a: nat, fails: bool)
    requires WellFormed(b) && d < |b.deliveries| && b.deliveries[d].pc == Held(a) && CalmRun(b, steps, d, fails)
    ensures var r, e := Run(b, steps), b.deliveries[d].entry;
            && Grows(b, r) && d < |r.deliveries| && r.deliveries[d].entry == e < |r.stream|
            && OnRoute(b, r, b.stream[e].msg.op, a, fails, r.deliveries[d].pc, r.stream[e].acked)
    decreases |steps|
  {
    if steps != [] {
      var n, e := |steps| - 1, b.deliveries[d].entry;
      RouteRun(b, steps[..n], d, a, fails);
      RunGrows(b, steps);
      var m, r := Run(b, steps[..n]), Run(b, steps);
      NextGrows(m, steps[n]);
      if steps[n].Act? && steps[n].d == d && !m.deliveries[d].pc.Over? {
        RouteStep(b, m, m.deliveries[d], steps[n].choice, a, fails);
      } else {
        if !steps[n].Act? || steps[n].d != d { OthersLeave(m, steps[n], d); }
        OutcomeGrows(b, m, r, b.stream[e].msg.op, a, fails, m.deliveries[d].pc, m.stream[e].acked, r.stream[e].acked);
      }
    }
  }

  /** What a held delivery comes to when only its user code may raise, whatever happens around it: it is
      acknowledged with its outcome, and a success is never marked failed, put back or dead-lettered by it. */
  lemma {:induction false} HeldOutcome(b: Broker, steps: seq<Step>, d: nat, a: nat, fails: bool)
    requires WellFormed(b) && d < |b.deliveries| && b.deliveries[d].pc == Held(a) && CalmRun(b, steps, d, fails)
    ensures var r, e := Run(b, steps), b.deliveries[d].entry;
            && d < |r.deliveries| && e < |r.stream|
            && (r.deliveries[d].pc.Over? ==> r.stream[e].acked && Outcome(b, r, b.stream[e].msg.op, a, fails))
            && (!fails && a <= b.limit ==> r.deliveries[d].pc in {Held(a), Dispatching(a), AckDispatched(a), Over})
            && (Turns(steps, d) >= 10 ==> r.deliveries[d].pc.Over?)
  {
    RouteRun(b, steps, d, a, fails);
    RunCountsDown(b, steps, d);
  }

  /** Where a delivery that was held may stand while its consumer lives, whatever raises. */
  ghost predicate Attended(b: Broker, op: nat, pc: Pc, acked: bool) {
    match pc
    case Held(_) => true
    case Dispatching(_) => true
    case AckDispatched(_) => true
    case Nacking(_) => true
    case NackLettered => true
    case Marking => true
    case AckFinal => op in b.marked
    case Over => acked || op in b.marked
    case _ => false
  }

  lemma AttendedStep(m: Broker, x: Delivery, c: Choice)
    requires x.entry < |m.stream| && !c.Crash?
    requires Attended(m, m.stream[x.entry].msg.op, x.pc, m.stream[x.entry].acked)
    ensures var r := Effect(m, x, c);
            x.entry < |r.stream| && Attended(r, m.stream[x.entry].msg.op, NextPc(m, x, c), r.stream[x.entry].acked)
  {
  }

  /** Whatever raises, a held delivery whose consumer lives on does not end in silence: its entry is acknowledged, or
      its task was marked failed. */
  lemma {:induction false} AttendedEnds(b: Broker, steps: seq<Step>, d: nat, a: nat)
    requires WellFormed(b) && d < |b.deliveries| && b.deliveries[d].pc == Held(a)
    requires forall n :: 0 <= n < |steps| ==> steps[n] != Act(d, Crash)
    ensures var r, e := Run(b, steps), b.deliveries[d].entry;
            && Grows(b, r) && d < |r.deliveries| && r.deliveries[d].entry == e < |r.stream|
            && Attended(r, b.stream[e].msg.op, r.deliveries[d].pc, r.stream[e].acked)
    decreases |steps|
  {
    if steps != [] {
      var n := |steps| - 1;
      AttendedEnds(b, steps[..n], d, a);
      RunGrows(b, steps);
      var m := Run(b, steps[..n]);
      NextGrows(m, steps[n]);
      if steps[n].Act? && steps[n].d == d {
        AttendedStep(m, m.deliveries[d], steps[n].choice);
      } else {
        OthersLeave(m, steps[n], d);
      }
    }
  }

  // ----- Not before it is due -----

  predicate Admitted(pc: Pc) {
    pc.Poisoned? || pc.Lettered? || pc.Held? || pc.Dispatching? || pc.AckDispatched? || pc.Nacking?
  }

  /** What was let in was due and could be decoded. */
  ghost predicate AdmittedOk(b: Broker) {
    && WellFormed(b)
    && forall d :: 0 <= d < |b.deliveries| && Admitted(b.deliveries[d].pc) ==>
         var m := b.stream[b.deliveries[d].entry].msg; m.readable && m.notBefore <= b.now
  }

  lemma AdmittedStep(b: Broker, x: Delivery, c: Choice)
    requires x.entry < |b.stream| && Admitted(NextPc(b, x, c))
    requires var m := b.stream[x.entry].msg; Admitted(x.pc) ==> m.readable && m.notBefore <= b.now
    ensures var m := b.stream[x.entry].msg; m.readable && m.notBefore <= b.now
  {
  }

  lemma NextAdmits(b: Broker, s: Step)
    requires AdmittedOk(b)
    ensures AdmittedOk(Next(b, s))
  {
    var r := Next(b, s);
    NextKeepsWellFormed(b, s);
    NextGrows(b, s);
    forall d | 0 <= d < |r.deliveries| && Admitted(r.deliveries[d].pc)
      ensures var m := r.stream[r.deliveries[d].entry].msg; m.readable && m.notBefore <= r.now
    {
      if s.Act? && s.d == d && d < |b.deliveries| {
        AdmittedStep(b, b.deliveries[d], s.choice);
      } else if d < |b.deliveries| {
        OthersLeave(b, s, d);
      }
    }
  }

  lemma {:induction false} RunAdmits(strict: bool, max: nat, limit: nat, steps: seq<Step>)
    ensures AdmittedOk(Run(Init(strict, max, limit), steps))
    decreases |steps|
  {
    if steps != [] {
      RunAdmits(strict, max, limit, steps[..|steps| - 1]);
      NextAdmits(Run(Init(strict, max, limit), steps[..|steps| - 1]), steps[|steps| - 1]);
    }
  }

  /** In every run, user code is started only for an entry that decodes and is due: a back-off is waited out,
      through crashes and claims. */
  lemma NeverEarly(strict: bool, max: nat, limit: nat, steps: seq<Step>, d: nat, c: Choice)
    requires var b := Run(Init(strict, max, limit), steps);
             d < |b.deliveries| && Next(b, Act(d, c)).dispatches != b.dispatches
    ensures var b := Run(Init(strict, max, limit), steps);
            var m := b.stream[b.deliveries[d].entry].msg;
            m.readable && m.notBefore <= b.now
  {
    RunAdmits(strict, max, limit, steps);
  }

  // ----- Settled for good -----

  /** Nothing of the operation is left that could start it again: its entries are all delivered and acknowledged,
      and no delivery of it will put it back. */
  ghost predicate Finished(b: Broker, op: nat)
    requires WellFormed(b)
  {
    && op < b.ops
    && (forall e :: 0 <= e < |b.stream| && b.stream[e].msg.op == op ==> e < b.cursor && b.stream[e].acked)
    && (forall d :: Dispatch.ActiveAt(b, d) && Dispatch.OpOf(b, b.deliveries[d]) == op ==>
          b.deliveries[d].pc.Nacking? && b.max <= b.deliveries[d].pc.attempt)
  }

  /** What a step of one delivery adds and starts is its own operation. */
  lemma EffectIsOwn(b: Broker, x: Delivery, c: Choice)
    requires x.entry < |b.stream|
    ensures var r := Effect(b, x, c);
            && (forall e :: |b.stream| <= e < |r.stream| ==> r.stream[e].msg.op == Dispatch.OpOf(b, x))
            && (r.dispatches == b.dispatches
                || (x.pc.Held? && r.dispatches == b.dispatches + [(Dispatch.OpOf(b, x), x.pc.attempt)]))
            && r.cursor == b.cursor && r.ops == b.ops
  {
  }

  /** A delivery that can put nothing back puts nothing back and starts nothing. */
  lemma SpentEffect(b: Broker, x: Delivery, c: Choice)
    requires x.entry < |b.stream| && (!Dispatch.Active(x.pc) || (x.pc.Nacking? && b.max <= x.pc.attempt))
    ensures |Effect(b, x, c).stream| == |b.stream| && Effect(b, x, c).dispatches == b.dispatches
    ensures !Dispatch.Active(NextPc(b, x, c))
  {
  }

  lemma FinishedAct(b: Broker, d: nat, c: Choice, op: nat)
    requires WellFormed(b) && Finished(b, op) && d < |b.deliveries|
    ensures var x := b.deliveries[d];
            var r := Effect(b, x, c);
            && (forall e :: |b.stream| <= e < |r.stream| ==> r.stream[e].msg.op != op)
            && (r.dispatches == b.dispatches
                || (Dispatch.OpOf(b, x) != op && x.pc.Held?
                    && r.dispatches == b.dispatches + [(Dispatch.OpOf(b, x), x.pc.attempt)]))
            && (Dispatch.OpOf(b, x) == op ==> !Dispatch.Active(NextPc(b, x, c)))
            && r.cursor == b.cursor && r.ops == b.ops
  {
    var x := b.deliveries[d];
    EffectIsOwn(b, x, c);
    if Dispatch.OpOf(b, x) == op {
      assert Dispatch.Active(x.pc) ==> Dispatch.ActiveAt(b, d);
      SpentEffect(b, x, c);
    }
  }

  lemma FinishedDeliveries(b: Broker, s: Step, op: nat, d: nat)
    requires WellFormed(b) && WellFormed(Next(b, s)) && Finished(b, op)
    requires var r := Next(b, s); Dispatch.ActiveAt(r, d) && Dispatch.OpOf(r, r.deliveries[d]) == op
    ensures var r := Next(b, s); r.deliveries[d].pc.Nacking? && r.max <= r.deliveries[d].pc.attempt
  {
    NextGrows(b, s);
    if d < |b.deliveries| {
      if s.Act? && s.d == d { FinishedAct(b, d, s.choice, op); } else { OthersLeave(b, s, d); }
      assert Dispatch.ActiveAt(b, d);
    }
  }

  lemma FinishedNext(b: Broker, s: Step, op: nat)
    requires WellFormed(b) && Finished(b, op)
    ensures WellFormed(Next(b, s)) && Finished(Next(b, s), op)
    ensures Dispatch.Times(Next(b, s).dispatches, op) == Dispatch.Times(b.dispatches, op)
  {
    var r := Next(b, s);
    NextKeepsWellFormed(b, s);
    if s.Act? && s.d < |b.deliveries| {
      FinishedAct(b, s.d, s.choice, op);
      EffectGrows(b, b.deliveries[s.d], s.choice);
      var x := b.deliveries[s.d];
      if r.dispatches != b.dispatches { Dispatch.LastSnoc(b.dispatches, Dispatch.OpOf(b, x), x.pc.attempt, op); }
    }
    forall d | Dispatch.ActiveAt(r, d) && Dispatch.OpOf(r, r.deliveries[d]) == op
      ensures r.deliveries[d].pc.Nacking? && r.max <= r.deliveries[d].pc.attempt
    {
      FinishedDeliveries(b, s, op, d);
    }
  }

  /** Then no longer run starts it again, whoever's entries are claimed. */
  lemma {:induction false} FinishedForGood(b: Broker, more: seq<Step>, op: nat)
    requires WellFormed(b) && Finished(b, op)
    ensures Finished(Run(b, more), op)
    ensures Dispatch.Times(Run(b, more).dispatches, op) == Dispatch.Times(b.dispatches, op)
    decreases |more|
  {
    if more != [] {
      FinishedForGood(b, more[..|more| - 1], op);
      FinishedNext(Run(b, more[..|more| - 1]), more[|more| - 1], op);
    }
  }

  /** Some longer run starts the operation again. */
  ghost predicate StartsAgain(b: Broker, op: nat)
    requires WellFormed(b)
  {
    exists more :: Dispatch.Times(Run(b, more).dispatches, op) > Dispatch.Times(b.dispatches, op)
  }

  /** A step that does nothing to the stream but acknowledge the entry of delivery d, and moves d on. */
  ghost predicate AckMoves(b: Broker, r: Broker, d: nat, pc: Pc)
    requires WellFormed(b) && d < |b.deliveries|
  {
    && r.ops == b.ops && r.cursor == b.cursor && r.max == b.max && r.dispatches == b.dispatches
    && r.deliveries == b.deliveries[d := b.deliveries[d].(pc := pc)]
    && r.stream == b.stream[b.deliveries[d].entry := b.stream[b.deliveries[d].entry].(acked := true)]
  }

  lemma FinishedNotAgain(b: Broker, op: nat)
    requires WellFormed(b) && Finished(b, op)
    ensures !StartsAgain(b, op)
  {
    forall more ensures Dispatch.Times(Run(b, more).dispatches, op) == Dispatch.Times(b.dispatches, op) {
      FinishedForGood(b, more, op);
    }
  }

  /** The entry of a delivery with nothing left to put back, once acknowledged, was the operation's last. */
  lemma LastEntry(b: Broker, r: Broker, d: nat, pc: Pc)
    requires Dispatch.Inv(b) && WellFormed(r) && Dispatch.LiveAt(b, d) && AckMoves(b, r, d, pc)
    requires Dispatch.ActiveAt(b, d) || !b.stream[b.deliveries[d].entry].acked
    requires !Dispatch.Active(pc) || (pc.Nacking? && b.max <= pc.attempt)
    ensures Finished(r, Dispatch.OpOf(b, b.deliveries[d]))
  {
  }

  lemma AckStep(b: Broker, d: nat, c: Choice)
    requires WellFormed(b) && d < |b.deliveries| && Took(c)
    requires var pc := b.deliveries[d].pc; pc.AckDispatched? || pc.AckFinal? || pc.Unreadable? || pc.NackLettered?
    ensures AckMoves(b, Next(b, Act(d, c)), d, NextPc(b, b.deliveries[d], c)) && WellFormed(Next(b, Act(d, c)))
  {
    NextKeepsWellFormed(b, Act(d, c));
  }

  /** Where the delivery comes back to a nack that the broker's limit allows, the operation starts again. */
  ghost predicate From(b: Broker, r: Broker)
    requires WellFormed(b)
  {
    exists more :: Run(b, more) == r
  }

  lemma FromNext(b: Broker, m: Broker, s: Step)
    requires WellFormed(b) && WellFormed(m) && From(b, m)
    ensures WellFormed(Next(m, s)) && From(b, Next(m, s)) && Grows(b, Next(m, s))
  {
    var more :| Run(b, more) == m;
    assert (more + [s])[..|more|] == more;
    assert Run(b, more + [s]) == Next(m, s);
    NextKeepsWellFormed(m, s);
    RunGrows(b, more + [s]);
  }

  lemma {:induction false} TimesGrow(ds: seq<(nat, nat)>, more: seq<(nat, nat)>, op: nat)
    requires ds <= more
    ensures Dispatch.Times(ds, op) <= Dispatch.Times(more, op)
    decreases |more|
  {
    if ds == more {
    } else {
      TimesGrow(ds, more[..|more| - 1], op);
    }
  }

  /** Everything up to the newest entry is delivered, to whichever consumer. */
  lemma {:induction false} ReadUpTo(b: Broker, m: Broker) returns (r: Broker)
    requires WellFormed(b) && WellFormed(m) && From(b, m) && Grows(b, m) && m.cursor < |m.stream|
    ensures WellFormed(r) && From(b, r) && Grows(b, r)
    ensures r.stream == m.stream && r.now == m.now && r.limit == m.limit && r.cursor == |r.stream| - 1
    decreases |m.stream| - m.cursor
  {
    if m.cursor == |m.stream| - 1 {
      r := m;
    } else {
      FromNext(b, m, ReadNew);
      r := ReadUpTo(b, Next(m, ReadNew));
    }
  }

  /** The nack puts the operation at the tail, and once its back-off has passed and what stands before it has
      been delivered, it is next. */
  lemma PutAtTail(b: Broker, d: nat) returns (r: Broker)
    requires WellFormed(b) && d < |b.deliveries| && b.deliveries[d].pc.Nacking? && b.deliveries[d].pc.attempt < b.max
    requires b.stream[b.deliveries[d].entry].msg.readable
    ensures WellFormed(r) && From(b, r) && Grows(b, r) && Limits.Waiting(r, b.deliveries[d].pc.attempt + 1)
    ensures r.stream[r.cursor].msg.op == Dispatch.OpOf(b, b.deliveries[d])
  {
    assert Run(b, []) == b;
    FromNext(b, b, Act(d, Fine));
    r := Next(b, Act(d, Fine));
    FromNext(b, r, Wait(30));
    r := ReadUpTo(b, Next(r, Wait(30)));
  }

  lemma NackStartsAgain(b: Broker, d: nat)
    requires WellFormed(b) && d < |b.deliveries| && b.deliveries[d].pc.Nacking?
    requires b.deliveries[d].pc.attempt < b.max && b.deliveries[d].pc.attempt < b.limit
    requires b.stream[b.deliveries[d].entry].msg.readable
    ensures StartsAgain(b, Dispatch.OpOf(b, b.deliveries[d]))
  {
    var op, k := Dispatch.OpOf(b, b.deliveries[d]), b.deliveries[d].pc.attempt + 1;
    var m := PutAtTail(b, d);
    Limits.RestartKeepsRecord(m, k);
    TimesGrow(b.dispatches, m.dispatches, op);
    Dispatch.LastSnoc(m.dispatches, op, k, op);
    var n := |m.deliveries|;
    FromNext(b, m, ReadNew);
    FromNext(b, Next(m, ReadNew), Act(n, Fine));
    FromNext(b, Next(Next(m, ReadNew), Act(n, Fine)), Act(n, Fine));
    var more :| Run(b, more) == Next(Next(Next(m, ReadNew), Act(n, Fine)), Act(n, Fine));
    assert Dispatch.Times(Run(b, more).dispatches, op) > Dispatch.Times(b.dispatches, op);
  }

  /** When the acknowledgement of a successful run takes effect its entry is acknowledged, and with dead holders
      only the operation is started again in some longer run if and only if the command raised all the same and
      both limits leave room for another attempt. */
  lemma SettledExactly(max: nat, limit: nat, steps: seq<Step>, d: nat, c: Choice)
    requires var b := Run(Init(true, max, limit), steps); d < |b.deliveries| && b.deliveries[d].pc.AckDispatched? && Took(c)
    ensures var b := Run(Init(true, max, limit), steps);
            var r, e, a := Next(b, Act(d, c)), b.deliveries[d].entry, b.deliveries[d].pc.attempt;
            && WellFormed(r) && e < |r.stream| && r.stream[e].acked
            && (StartsAgain(r, b.stream[e].msg.op) <==> c.Raises? && a < limit && a < max)
  {
    var b := Run(Init(true, max, limit), steps);
    Dispatch.RunKeeps(max, limit, steps);
    RunAdmits(true, max, limit, steps);
    AckStep(b, d, c);
    var r, op, a := Next(b, Act(d, c)), Dispatch.OpOf(b, b.deliveries[d]), b.deliveries[d].pc.attempt;
    NextGrows(b, Act(d, c));
    if c.Raises? && a < limit && a < max {
      NackStartsAgain(r, d);
    } else {
      assert Dispatch.ActiveAt(b, d);
      LastEntry(b, r, d, NextPc(b, b.deliveries[d], c));
      FinishedNotAgain(r, op);
    }
  }

  /** The last acknowledgement after a failure acknowledges too; it is the end of the operation unless the entry had
      been acknowledged before, by a command that took effect and raised. */
  lemma GivenUpForGood(max: nat, limit: nat, steps: seq<Step>, d: nat, c: Choice)
    requires var b := Run(Init(true, max, limit), steps);
             && d < |b.deliveries| && Took(c)
             && var pc := b.deliveries[d].pc; pc.AckFinal? || pc.Unreadable? || pc.NackLettered?
    ensures var b := Run(Init(true, max, limit), steps);
            var r, e := Next(b, Act(d, c)), b.deliveries[d].entry;
            && WellFormed(r) && e < |r.stream| && r.stream[e].acked
            && (!b.stream[e].acked ==> !StartsAgain(r, b.stream[e].msg.op))
  {
    var b := Run(Init(true, max, limit), steps);
    Dispatch.RunKeeps(max, limit, steps);
    AckStep(b, d, c);
    var r, op := Next(b, Act(d, c)), Dispatch.OpOf(b, b.deliveries[d]);
    if !b.stream[b.deliveries[d].entry].acked {
      assert Dispatch.LiveAt(b, d);
      LastEntry(b, r, d, NextPc(b, b.deliveries[d], c));
      FinishedNotAgain(r, op);
    }
  }
}
