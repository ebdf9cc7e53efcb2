/**
 Exactly which retry limits and claiming habits make attempt numbers go wrong: when nack dead-letters,
 when attempt numbers fail to increase, and when one is dispatched twice.
 */
module RedisLimits {
  import opened RedisBroker
  import Dispatch = RedisDispatch
  import SoloEntries = RedisSoloEntries

  ghost predicate Reachable(strict: bool, max: nat, limit: nat, b: Broker) {
    exists steps :: Run(Init(strict, max, limit), steps) == b
  }

  lemma ReachNext(strict: bool, max: nat, limit: nat, b: Broker, s: Step)
    requires WellFormed(b) && Reachable(strict, max, limit, b)
    ensures WellFormed(Next(b, s)) && Reachable(strict, max, limit, Next(b, s))
  {
    var steps :| Run(Init(strict, max, limit), steps) == b;
    assert (steps + [s])[..|steps|] == steps;
    assert Run(Init(strict, max, limit), steps + [s]) == Next(b, s);
    NextKeepsWellFormed(b, s);
  }

  /** The first operation, received by a consumer and waiting for a free handler slot. */
  ghost function FirstHeld(strict: bool, max: nat, limit: nat): Broker {
    Broker(strict, max, limit, 0, [Entry(Msg(0, 1, 0, true), false, 0)], 1, [Delivery(0, Held(1))], 1, {}, {}, {}, [])
  }

  lemma ReachFirstHeld(strict: bool, max: nat, limit: nat)
    ensures Reachable(strict, max, limit, FirstHeld(strict, max, limit))
  {
    var b := Init(strict, max, limit);
    assert Run(b, []) == b;
    ReachNext(strict, max, limit, b, Enqueue(true));
    b := Next(b, Enqueue(true));
    ReachNext(strict, max, limit, b, ReadNew);
    b := Next(b, ReadNew);
    assert b.deliveries == [Delivery(0, Received)];
    ReachNext(strict, max, limit, b, Act(0, Fine));
    assert Next(b, Act(0, Fine)) == FirstHeld(strict, max, limit);
  }

  lemma ReachFirst(strict: bool, max: nat, limit: nat) returns (b: Broker)
    requires 1 <= limit
    ensures Newest(b, Dispatching(1)) && b.max == max && b.limit == limit && Reachable(strict, max, limit, b)
  {
    ReachFirstHeld(strict, max, limit);
    b := FirstHeld(strict, max, limit);
    ReachNext(strict, max, limit, b, Act(0, Fine));
    b := Next(b, Act(0, Fine));
  }

  // ----- When nack dead-letters -----

  /** The newest delivery holds the newest entry. */
  ghost predicate Newest(b: Broker, pc: Pc) {
    && WellFormed(b) && b.cursor == |b.stream| > 0 && |b.deliveries| > 0
    && b.deliveries[|b.deliveries| - 1] == Delivery(b.cursor - 1, pc)
    && b.stream[b.cursor - 1].msg.readable
  }

  /** One entry is waiting, with number k, and is due. */
  ghost predicate Waiting(b: Broker, k: nat) {
    && WellFormed(b) && b.cursor == |b.stream| - 1
    && b.stream[b.cursor].msg.readable && b.stream[b.cursor].msg.attempt == k && b.stream[b.cursor].msg.notBefore <= b.now
  }

  /** User code raises below the adapter's limit. */
  lemma Fails(b: Broker, k: nat)
    requires Newest(b, Dispatching(k)) && k < b.limit
    ensures var r := Next(b, Act(|b.deliveries| - 1, Raises(false)));
            Newest(r, Nacking(k)) && r.max == b.max && r.limit == b.limit
  {
    NextKeepsWellFormed(b, Act(|b.deliveries| - 1, Raises(false)));
  }

  /** A nack below the broker's limit brings the operation back with the next number. */
  lemma Retries(b: Broker, k: nat)
    requires Newest(b, Nacking(k)) && k < b.max
    ensures var r := Next(Next(b, Act(|b.deliveries| - 1, Fine)), Wait(30));
            Waiting(r, k + 1) && r.max == b.max && r.limit == b.limit
  {
    NextKeepsWellFormed(b, Act(|b.deliveries| - 1, Fine));
    NextKeepsWellFormed(Next(b, Act(|b.deliveries| - 1, Fine)), Wait(30));
  }

  lemma Delivered(b: Broker, k: nat)
    requires Waiting(b, k)
    ensures var r := Next(b, ReadNew);
            Newest(r, Received) && r.stream == b.stream && r.now == b.now && r.max == b.max && r.limit == b.limit
  {
    NextKeepsWellFormed(b, ReadNew);
  }

  lemma Admitted(b: Broker, k: nat)
    requires Newest(b, Received) && b.stream[b.cursor - 1].msg.attempt == k && b.stream[b.cursor - 1].msg.notBefore <= b.now
    ensures var r := Next(b, Act(|b.deliveries| - 1, Fine));
            Newest(r, Held(k)) && r.max == b.max && r.limit == b.limit
  {
    NextKeepsWellFormed(b, Act(|b.deliveries| - 1, Fine));
  }

  lemma Starts(b: Broker, k: nat)
    requires Newest(b, Held(k)) && k <= b.limit
    ensures var r := Next(b, Act(|b.deliveries| - 1, Fine));
            Newest(r, Dispatching(k)) && r.max == b.max && r.limit == b.limit
  {
    NextKeepsWellFormed(b, Act(|b.deliveries| - 1, Fine));
  }

  /** Below both limits, every attempt number comes up. */
  lemma {:induction false} ReachAttempt(strict: bool, max: nat, limit: nat, k: nat) returns (b: Broker)
    requires 1 <= k <= limit && (k == 1 || k <= max)
    ensures Newest(b, Dispatching(k)) && b.max == max && b.limit == limit && Reachable(strict, max, limit, b)
    decreases k
  {
    if k == 1 {
      b := ReachFirst(strict, max, limit);
    } else {
      b := ReachAttempt(strict, max, limit, k - 1);
      b := ReachNextAttempt(strict, max, limit, b, k);
    }
  }

  lemma ReachNextAttempt(strict: bool, max: nat, limit: nat, b: Broker, k: nat) returns (r: Broker)
    requires 1 < k <= limit && k <= max
    requires Newest(b, Dispatching(k - 1)) && b.max == max && b.limit == limit && Reachable(strict, max, limit, b)
    ensures Newest(r, Dispatching(k)) && r.max == max && r.limit == limit && Reachable(strict, max, limit, r)
  {
    var raise := Act(|b.deliveries| - 1, Raises(false));
    ReachNext(strict, max, limit, b, raise);
    Fails(b, k - 1);
    r := Next(b, raise);
    var nack := Act(|r.deliveries| - 1, Fine);
    ReachNext(strict, max, limit, r, nack);
    ReachNext(strict, max, limit, Next(r, nack), Wait(30));
    Retries(r, k - 1);
    r := ReachRestart(strict, max, limit, Next(Next(r, nack), Wait(30)), k);
  }

  lemma ReachRestart(strict: bool, max: nat, limit: nat, b: Broker, k: nat) returns (r: Broker)
    requires k <= limit && Waiting(b, k) && b.max == max && b.limit == limit && Reachable(strict, max, limit, b)
    ensures Newest(r, Dispatching(k)) && r.max == max && r.limit == limit && Reachable(strict, max, limit, r)
  {
    ReachNext(strict, max, limit, b, ReadNew);
    Delivered(b, k);
    r := Next(b, ReadNew);
    var admit := Act(|r.deliveries| - 1, Fine);
    Admitted(r, k);
    ReachNext(strict, max, limit, r, admit);
    r := ReachStart(strict, max, limit, Next(r, admit), k);
  }

  lemma ReachStart(strict: bool, max: nat, limit: nat, b: Broker, k: nat) returns (r: Broker)
    requires k <= limit && Newest(b, Held(k)) && b.max == max && b.limit == limit && Reachable(strict, max, limit, b)
    ensures Newest(r, Dispatching(k)) && r.max == max && r.limit == limit && Reachable(strict, max, limit, r)
  {
    var start := Act(|b.deliveries| - 1, Fine);
    ReachNext(strict, max, limit, b, start);
    Starts(b, k);
    r := Next(b, start);
  }

  ghost predicate DeadLettersByNack(b: Broker) {
    exists d :: 0 <= d < |b.deliveries| && b.deliveries[d].pc.NackLettered?
  }

  lemma DeadLetters(b: Broker, k: nat)
    requires Newest(b, Nacking(k)) && b.max <= k
    ensures DeadLettersByNack(Next(b, Act(|b.deliveries| - 1, Fine)))
  {
    var d := |b.deliveries| - 1;
    assert Next(b, Act(d, Fine)).deliveries[d].pc.NackLettered?;
  }

  lemma ReachDeadLetter(max: nat, limit: nat) returns (b: Broker)
    requires max < limit && 1 < limit
    ensures Reachable(true, max, limit, b) && DeadLettersByNack(b)
  {
    var k := if max == 0 then 1 else max;
    b := ReachAttempt(true, max, limit, k);
    var raise := Act(|b.deliveries| - 1, Raises(false));
    ReachNext(true, max, limit, b, raise);
    Fails(b, k);
    b := Next(b, raise);
    var nack := Act(|b.deliveries| - 1, Fine);
    ReachNext(true, max, limit, b, nack);
    DeadLetters(b, k);
    b := Next(b, nack);
  }

  /** Nack's dead-letter branch can be reached exactly when the adapter retries beyond the broker's limit. */
  lemma NackDeadLettersExactly(max: nat, limit: nat)
    ensures (exists b :: Reachable(true, max, limit, b) && DeadLettersByNack(b)) <==> max < limit && 1 < limit
  {
    if max < limit && 1 < limit {
      var b := ReachDeadLetter(max, limit);
    }
    forall b | Reachable(true, max, limit, b) && DeadLettersByNack(b) ensures max < limit && 1 < limit {
      var steps :| Run(Init(true, max, limit), steps) == b;
      Dispatch.RunKeeps(max, limit, steps);
      var d :| 0 <= d < |b.deliveries| && b.deliveries[d].pc.NackLettered?;
      assert Dispatch.DeliveryOk(b, b.deliveries[d]);
    }
  }

  // ----- When attempt numbers fail to increase -----

  /** The dispatches of one operation carry increasing attempt numbers. */
  ghost predicate Increasing(ds: seq<(nat, nat)>) {
    forall i, j :: 0 <= i < j < |ds| && ds[i].0 == ds[j].0 ==> ds[i].1 < ds[j].1
  }

  /** An attempt number is dispatched twice for one operation. */
  ghost predicate Repeats(ds: seq<(nat, nat)>) {
    exists i, j :: 0 <= i < j < |ds| && ds[i] == ds[j]
  }

  /** A claim of the first operation's entry, whose holder is slow but alive: `first` says where that is. */
  ghost predicate TwoHolders(b: Broker, max: nat, limit: nat, first: Pc, second: Pc, ds: seq<(nat, nat)>) {
    && WellFormed(b) && b.max == max && b.limit == limit && b.now == 0 && b.cursor == 1
    && |b.stream| == 1 && b.stream[0].msg == Msg(0, 1, 0, true)
    && b.deliveries == [Delivery(0, first), Delivery(0, second)] && b.dispatches == ds
  }

  lemma ReachClaimed(b: Broker, max: nat, limit: nat, first: Pc) returns (r: Broker)
    requires WellFormed(b) && Reachable(false, max, limit, b) && !b.strict && b.max == max && b.limit == limit && b.now == 0
    requires b.stream == [Entry(Msg(0, 1, 0, true), false, 0)] && b.cursor == 1 && b.deliveries == [Delivery(0, first)]
    ensures Reachable(false, max, limit, r)
    ensures TwoHolders(r, max, limit, first, if max < 2 then Poisoned(2) else Held(2), b.dispatches)
  {
    ReachNext(false, max, limit, b, Claim(0));
    r := Next(b, Claim(0));
    assert r.deliveries == [Delivery(0, first), Delivery(0, Claimed)];
    ReachNext(false, max, limit, r, Act(1, Fine));
    r := Next(r, Act(1, Fine));
  }

  /** Claimed too often for the broker, the entry is dead-lettered and handed on all the same. */
  lemma ReachHanded(b: Broker, max: nat, limit: nat, first: Pc) returns (r: Broker)
    requires Reachable(false, max, limit, b) && TwoHolders(b, max, limit, first, Poisoned(2), b.dispatches)
    ensures Reachable(false, max, limit, r) && TwoHolders(r, max, limit, first, Held(2), b.dispatches)
  {
    ReachNext(false, max, limit, b, Act(1, Fine));
    r := Next(b, Act(1, Fine));
    assert TwoHolders(r, max, limit, first, Lettered(2), b.dispatches);
    ReachNext(false, max, limit, r, Act(1, Fine));
    r := Next(r, Act(1, Fine));
  }

  lemma ReachSecondDispatch(b: Broker, max: nat, limit: nat, first: Pc) returns (r: Broker)
    requires Reachable(false, max, limit, b) && limit >= 2 && TwoHolders(b, max, limit, first, Held(2), b.dispatches)
    ensures Reachable(false, max, limit, r)
    ensures TwoHolders(r, max, limit, first, Dispatching(2), b.dispatches + [(0, 2)])
  {
    ReachNext(false, max, limit, b, Act(1, Fine));
    r := Next(b, Act(1, Fine));
  }

  /** The holder waits for a free handler slot while its entry is claimed and dispatched elsewhere. */
  lemma ReachDecrease(max: nat, limit: nat) returns (r: Broker)
    requires limit >= 2
    ensures Reachable(false, max, limit, r) && r.dispatches == [(0, 2), (0, 1)]
  {
    ReachFirstHeld(false, max, limit);
    r := ReachClaimed(FirstHeld(false, max, limit), max, limit, Held(1));
    if max < 2 { r := ReachHanded(r, max, limit, Held(1)); }
    r := ReachSecondDispatch(r, max, limit, Held(1));
    ReachNext(false, max, limit, r, Act(0, Fine));
    r := Next(r, Act(0, Fine));
  }

  /** Attempt numbers increase in every run exactly when only dead holders' entries are claimed or the adapter
      allows a single attempt. */
  lemma AttemptsIncreaseExactly(strict: bool, max: nat, limit: nat)
    ensures (forall b :: Reachable(strict, max, limit, b) ==> Increasing(b.dispatches)) <==> strict || limit <= 1
  {
    if !strict && limit >= 2 {
      var b := ReachDecrease(max, limit);
      assert !Increasing(b.dispatches) by { assert b.dispatches[0].0 == b.dispatches[1].0; }
    } else {
      forall b | Reachable(strict, max, limit, b) ensures Increasing(b.dispatches) {
        var steps :| Run(Init(strict, max, limit), steps) == b;
        forall i, j | 0 <= i < j < |b.dispatches| && b.dispatches[i].0 == b.dispatches[j].0
          ensures b.dispatches[i].1 < b.dispatches[j].1
        {
          if strict {
            Dispatch.AttemptsIncrease(max, limit, steps, i, j);
          } else {
            SoloEntries.NoRepeatWithoutReadd(strict, max, limit, steps, i, j);
          }
        }
      }
    }
  }

  // ----- When an attempt number is dispatched twice -----

  lemma ReachBothRunning(max: nat, limit: nat) returns (r: Broker)
    requires max >= 2 && limit >= 2
    ensures Reachable(false, max, limit, r)
    ensures TwoHolders(r, max, limit, Dispatching(1), Dispatching(2), [(0, 1), (0, 2)])
  {
    ReachFirstHeld(false, max, limit);
    var b := FirstHeld(false, max, limit);
    ReachNext(false, max, limit, b, Act(0, Fine));
    b := Next(b, Act(0, Fine));
    r := ReachClaimed(b, max, limit, Dispatching(1));
    r := ReachSecondDispatch(r, max, limit, Dispatching(1));
  }

  /** The slow holder fails after all, and its nack re-adds the operation with a number already dispatched. */
  lemma ReachReadded(b: Broker, max: nat, limit: nat) returns (r: Broker)
    requires Reachable(false, max, limit, b) && max >= 2 && limit >= 2
    requires TwoHolders(b, max, limit, Dispatching(1), Dispatching(2), [(0, 1), (0, 2)])
    ensures Reachable(false, max, limit, r) && Waiting(r, 2) && r.max == max && r.limit == limit
    ensures r.dispatches == [(0, 1), (0, 2)] && r.stream[r.cursor].msg.op == 0
  {
    ReachNext(false, max, limit, b, Act(0, Raises(false)));
    r := Next(b, Act(0, Raises(false)));
    assert TwoHolders(r, max, limit, Nacking(1), Dispatching(2), [(0, 1), (0, 2)]);
    ReachNext(false, max, limit, r, Act(0, Fine));
    r := Next(r, Act(0, Fine));
    ReachNext(false, max, limit, r, Wait(2));
    r := Next(r, Wait(2));
  }

  lemma RestartKeepsRecord(b: Broker, k: nat)
    requires Waiting(b, k) && k <= b.limit
    ensures var d := |b.deliveries|;
            var r := Next(Next(Next(b, ReadNew), Act(d, Fine)), Act(d, Fine));
            r.dispatches == b.dispatches + [(b.stream[b.cursor].msg.op, k)]
  {
    Delivered(b, k);
    var r := Next(b, ReadNew);
    Admitted(r, k);
    assert Next(r, Act(|b.deliveries|, Fine)).dispatches == b.dispatches;
  }

  lemma ReachRepeat(max: nat, limit: nat) returns (r: Broker)
    requires max >= 2 && limit >= 2
    ensures Reachable(false, max, limit, r) && r.dispatches == [(0, 1), (0, 2), (0, 2)]
  {
    var b := ReachBothRunning(max, limit);
    b := ReachReadded(b, max, limit);
    RestartKeepsRecord(b, 2);
    var d := |b.deliveries|;
    ReachNext(false, max, limit, b, ReadNew);
    r := Next(b, ReadNew);
    ReachNext(false, max, limit, r, Act(d, Fine));
    r := Next(r, Act(d, Fine));
    ReachNext(false, max, limit, r, Act(d, Fine));
    r := Next(r, Act(d, Fine));
  }

  /** An attempt number can be dispatched twice exactly when a slow, living holder's entry may be claimed and
      both limits leave room for a second attempt. */
  lemma AttemptRepeatsExactly(strict: bool, max: nat, limit: nat)
    ensures (exists b :: Reachable(strict, max, limit, b) && Repeats(b.dispatches)) <==> !strict && max >= 2 && limit >= 2
  {
    if !strict && max >= 2 && limit >= 2 {
      var b := ReachRepeat(max, limit);
      assert b.dispatches[1] == b.dispatches[2];
    } else {
      forall b | Reachable(strict, max, limit, b) ensures !Repeats(b.dispatches) {
        var steps :| Run(Init(strict, max, limit), steps) == b;
        forall i, j | 0 <= i < j < |b.dispatches| ensures b.dispatches[i] != b.dispatches[j] {
          if strict {
            if b.dispatches[i].0 == b.dispatches[j].0 { Dispatch.AttemptsIncrease(max, limit, steps, i, j); }
          } else {
            SoloEntries.NoRepeatWithoutReadd(strict, max, limit, steps, i, j);
          }
        }
      }
    }
  }
}
