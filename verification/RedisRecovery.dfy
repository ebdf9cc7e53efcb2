/**
 No operation gets stuck: from every reachable state of the broker, whatever crashed or raised before, the
 operation can still be brought to its end by waiting, reading or claiming its entry, and handling it.
 */
module RedisRecovery {
  import opened RedisBroker
  import Dispatch = RedisDispatch
  import opened RedisSettlement

  /** The operation has been acknowledged after a run or a mark-failed, or dead-lettered. */
  ghost predicate Ended(b: Broker, op: nat) { op in b.settled || op in b.letters }

  ghost function FineActs(d: nat, n: nat): (r: seq<Step>)
    ensures |r| == n
  {
    if n == 0 then [] else FineActs(d, n - 1) + [Act(d, Fine)]
  }

  lemma {:induction false} FineTurns(d: nat, n: nat)
    ensures Turns(FineActs(d, n), d) == n
  {
    if n > 0 {
      FineTurns(d, n - 1);
      assert FineActs(d, n)[..n - 1] == FineActs(d, n - 1);
    }
  }

  /** A delivery whose commands all succeed, its user code included, keeps to this way. */
  ghost predicate OnTrack(b: Broker, d: nat) {
    && WellFormed(b) && d < |b.deliveries|
    && var op := Dispatch.OpOf(b, b.deliveries[d]);
       match b.deliveries[d].pc
       case Received => b.stream[b.deliveries[d].entry].msg.notBefore <= b.now
       case Claimed => b.stream[b.deliveries[d].entry].msg.notBefore <= b.now
       case Unreadable => op in b.letters
       case Rejecting => false
       case Nacking(_) => false
       case NackLettered => false
       case Over => Ended(b, op)
       case _ => true
  }

  lemma FineKeepsTrack(b: Broker, d: nat)
    requires OnTrack(b, d)
    ensures OnTrack(Next(b, Act(d, Fine)), d)
    ensures Dispatch.OpOf(Next(b, Act(d, Fine)), Next(b, Act(d, Fine)).deliveries[d]) == Dispatch.OpOf(b, b.deliveries[d])
  {
    NextKeepsWellFormed(b, Act(d, Fine));
    EffectGrows(b, b.deliveries[d], Fine);
  }

  lemma {:induction false} FineRunKeepsTrack(b: Broker, d: nat, n: nat)
    requires OnTrack(b, d)
    ensures var r := Run(b, FineActs(d, n)); OnTrack(r, d) && Dispatch.OpOf(r, r.deliveries[d]) == Dispatch.OpOf(b, b.deliveries[d])
  {
    if n > 0 {
      FineRunKeepsTrack(b, d, n - 1);
      assert FineActs(d, n)[..n - 1] == FineActs(d, n - 1);
      FineKeepsTrack(Run(b, FineActs(d, n - 1)), d);
    }
  }

  /** So within ten steps its operation has come to its end. */
  lemma FineEnds(b: Broker, d: nat)
    requires OnTrack(b, d)
    ensures Ended(Run(b, FineActs(d, 10)), Dispatch.OpOf(b, b.deliveries[d]))
  {
    FineRunKeepsTrack(b, d, 10);
    FineTurns(d, 10);
    DeliveryEnds(b, FineActs(d, 10), d);
  }

  /** The consumer that holds the entry dies, where only dead consumers' entries may be claimed. */
  lemma HolderDies(b: Broker, e: nat) returns (r: Broker)
    requires WellFormed(b) && (b.strict ==> Dispatch.Unique(b))
    ensures WellFormed(r) && From(b, r)
    ensures r.stream == b.stream && r.cursor == b.cursor && r.strict == b.strict && (r.strict ==> !Live(r, e))
  {
    assert Run(b, []) == b;
    r := b;
    if b.strict && Live(b, e) {
      var d: nat :| d < |b.deliveries| && b.deliveries[d].entry == e && !b.deliveries[d].pc.Over?;
      FromNext(b, b, Act(d, Crash));
      r := Next(b, Act(d, Crash));
      CrashLeaves(b, d);
      forall c | 0 <= c < |r.deliveries| && r.deliveries[c].entry == e ensures r.deliveries[c].pc.Over? {
        if c != d { assert Dispatch.LiveAt(b, d) && (Dispatch.LiveAt(b, c) ==> c == d); }
      }
    }
  }

  lemma CrashLeaves(b: Broker, d: nat)
    requires WellFormed(b) && d < |b.deliveries|
    ensures Next(b, Act(d, Crash)) == b.(deliveries := b.deliveries[d := b.deliveries[d].(pc := Over)])
  {
  }

  /** Entries are read one by one up to e. */
  lemma {:induction false} ReadsThrough(b: Broker, m: Broker, e: nat) returns (r: Broker, d: nat)
    requires WellFormed(b) && WellFormed(m) && From(b, m) && m.cursor <= e < |m.stream|
    requires m.stream[e].msg.notBefore <= m.now
    ensures OnTrack(r, d) && From(b, r) && r.deliveries[d].entry == e && r.stream == m.stream && !r.deliveries[d].pc.Over?
    decreases e - m.cursor
  {
    FromNext(b, m, ReadNew);
    if m.cursor == e {
      r, d := Next(m, ReadNew), |m.deliveries|;
    } else {
      r, d := ReadsThrough(b, Next(m, ReadNew), e);
    }
  }

  /** An open entry can be waited for and taken, by reading it or by claiming it. */
  lemma Takes(b: Broker, e: nat) returns (r: Broker, d: nat)
    requires WellFormed(b) && (b.strict ==> Dispatch.Unique(b)) && Dispatch.Open(b, e)
    ensures OnTrack(r, d) && From(b, r) && e < |r.stream| && r.deliveries[d].entry == e && r.stream[e].msg == b.stream[e].msg
  {
    var m := HolderDies(b, e);
    FromNext(b, m, Wait(b.stream[e].msg.notBefore));
    var due := Next(m, Wait(b.stream[e].msg.notBefore));
    if due.cursor <= e {
      r, d := ReadsThrough(b, due, e);
    } else {
      FromNext(b, due, Claim(e));
      r, d := Next(due, Claim(e)), |due.deliveries|;
    }
  }

  lemma {:induction false} RunsJoin(b: Broker, a: seq<Step>, c: seq<Step>)
    requires WellFormed(b)
    ensures Run(b, a + c) == Run(Run(b, a), c)
    decreases |c|
  {
    if c == [] {
      assert a + c == a;
    } else {
      var n := |c| - 1;
      assert (a + c)[..|a + c| - 1] == a + c[..n];
      RunsJoin(b, a, c[..n]);
    }
  }

  lemma {:induction false} StrictStays(strict: bool, max: nat, limit: nat, steps: seq<Step>)
    ensures Run(Init(strict, max, limit), steps).strict == strict
    decreases |steps|
  {
    if steps != [] { StrictStays(strict, max, limit, steps[..|steps| - 1]); }
  }

  /** From every reachable state, whoever's entries may be claimed and whatever the limits, every operation enqueued so
      far can still be brought to its end. */
  lemma {:induction false} AlwaysCompletable(strict: bool, max: nat, limit: nat, steps: seq<Step>, op: nat)
    requires op < Run(Init(strict, max, limit), steps).ops
    ensures exists more :: Ended(Run(Run(Init(strict, max, limit), steps), more), op)
  {
    var b := Run(Init(strict, max, limit), steps);
    NoOperationLost(strict, max, limit, steps, op);
    StrictStays(strict, max, limit, steps);
    if Ended(b, op) {
      assert Ended(Run(b, []), op);
    } else {
      if strict { Dispatch.RunKeeps(max, limit, steps); }
      var e: nat :| e < |b.stream| && !b.stream[e].acked && b.stream[e].msg.op == op;
      var r, d := Takes(b, e);
      var more :| Run(b, more) == r;
      FineEnds(r, d);
      RunsJoin(b, more, FineActs(d, 10));
    }
  }
}
