/**
 When nack can never re-add an operation, because the broker allows a single attempt or the adapter does:
 each operation has one entry for good, and every claim of it, of dead and of living holders alike, takes a
 number of its own, so no attempt number is dispatched twice.
 */
module RedisSoloEntries {
  import opened RedisBroker

  ghost predicate Solo(b: Broker) { b.max <= 1 || b.limit <= 1 }

  /** The attempt number a delivery will start user code with. */
  function Number(pc: Pc): int {
    match pc
    case Received => 1
    case Poisoned(a) => a
    case Lettered(a) => a
    case Held(a) => a
    case _ => 0
  }

  /** One entry per operation, with its first attempt number, due at once. */
  ghost predicate Single(b: Broker) {
    && (forall e :: 0 <= e < |b.stream| ==> b.stream[e].msg.attempt == 1 && b.stream[e].msg.notBefore == 0)
    && (forall e, f :: 0 <= e < |b.stream| && 0 <= f < |b.stream| && b.stream[e].msg.op == b.stream[f].msg.op ==> e == f)
  }

  ghost predicate NumberOk(b: Broker, x: Delivery)
    requires x.entry < |b.stream|
  {
    && Number(x.pc) <= 1 + b.stream[x.entry].crashes
    && (x.pc.Poisoned? || x.pc.Lettered? || x.pc.Held? ==> 1 <= x.pc.attempt)
    && (Number(x.pc) > 0 ==> (b.stream[x.entry].msg.op, Number(x.pc)) !in b.dispatches)
    && (x.pc.Dispatching? || x.pc.AckDispatched? || x.pc.Nacking? ==> 1 <= x.pc.attempt)
    && (x.pc.Nacking? ==> x.pc.attempt < b.limit)
  }

  ghost predicate NumbersOk(b: Broker)
    requires WellFormed(b)
  {
    && (forall d :: 0 <= d < |b.deliveries| ==> NumberOk(b, b.deliveries[d]))
    && (forall d, c :: 0 <= d < c < |b.deliveries| && b.deliveries[d].entry == b.deliveries[c].entry ==>
          Number(b.deliveries[d].pc) == 0 || Number(b.deliveries[d].pc) != Number(b.deliveries[c].pc))
  }

  ghost predicate RecordOk(b: Broker) {
    && (forall i, j :: 0 <= i < j < |b.dispatches| ==> b.dispatches[i] != b.dispatches[j])
    && (forall i :: 0 <= i < |b.dispatches| ==> b.dispatches[i].0 < b.ops && 1 <= b.dispatches[i].1 <= b.limit)
    && (forall i, e :: 0 <= i < |b.dispatches| && 0 <= e < |b.stream| && b.dispatches[i].0 == b.stream[e].msg.op ==>
          e < b.cursor && b.dispatches[i].1 <= 1 + b.stream[e].crashes)
  }

  ghost predicate SoloInv(b: Broker) {
    WellFormed(b) && Solo(b) && Single(b) && NumbersOk(b) && RecordOk(b)
  }

  // ----- Steps of a delivery -----

  /** Only acknowledgements and claim counts change in the stream. */
  ghost predicate SameEntries(b: Broker, r: Broker) {
    && r == b.(stream := r.stream, deliveries := r.deliveries, letters := r.letters, marked := r.marked, settled := r.settled)
    && |r.stream| == |b.stream|
    && (forall e :: 0 <= e < |b.stream| ==> r.stream[e].msg == b.stream[e].msg && b.stream[e].crashes <= r.stream[e].crashes)
  }

  /** A delivery that keeps or gives up its number, or takes one that nobody has had. */
  lemma MoveKeeps(b: Broker, r: Broker, d: nat)
    requires SoloInv(b) && WellFormed(r) && d < |b.deliveries| && OnlyMoves(b, r, d) && SameEntries(b, r)
    requires NumberOk(r, r.deliveries[d])
    requires var n := Number(r.deliveries[d].pc);
             n == 0 || n == Number(b.deliveries[d].pc) || n > 1 + b.stream[b.deliveries[d].entry].crashes
    ensures SoloInv(r)
  {
    forall c | 0 <= c < |r.deliveries| ensures NumberOk(r, r.deliveries[c]) {
      if c != d { assert NumberOk(b, b.deliveries[c]); }
    }
    forall c, k | 0 <= c < k < |r.deliveries| && r.deliveries[c].entry == r.deliveries[k].entry
      ensures Number(r.deliveries[c].pc) == 0 || Number(r.deliveries[c].pc) != Number(r.deliveries[k].pc)
    {
      assert NumberOk(b, b.deliveries[c]) && NumberOk(b, b.deliveries[k]);
    }
  }

  lemma ClaimedMoves(b: Broker, d: nat, c: Choice)
    requires SoloInv(b) && d < |b.deliveries| && b.deliveries[d].pc.Claimed?
    ensures SoloInv(ActStep(b, d, c))
  {
    var r := ActStep(b, d, c);
    var e := b.deliveries[d].entry;
    assert b.stream[e].msg.notBefore == 0;
    assert NumberOk(b, b.deliveries[d]);
    forall i | 0 <= i < |b.dispatches| && b.dispatches[i].0 == b.stream[e].msg.op
      ensures b.dispatches[i].1 <= 1 + b.stream[e].crashes
    {
    }
    MoveKeeps(b, r, d);
  }

  lemma HeldMoves(b: Broker, d: nat, c: Choice)
    requires SoloInv(b) && d < |b.deliveries| && b.deliveries[d].pc.Held? && !c.Crash? && b.deliveries[d].pc.attempt <= b.limit
    ensures SoloInv(ActStep(b, d, c))
  {
    var x, r := b.deliveries[d], ActStep(b, d, c);
    var op, a := b.stream[x.entry].msg.op, x.pc.attempt;
    assert NumberOk(b, x);
    assert r.dispatches == b.dispatches + [(op, a)];
    forall k | 0 <= k < |r.deliveries| ensures NumberOk(r, r.deliveries[k]) {
      if k != d {
        var y := b.deliveries[k];
        assert NumberOk(b, y);
        assert y.entry == x.entry ==> Number(y.pc) == 0 || Number(y.pc) != a;
      }
    }
  }

  /** The steps left over acknowledge, record or do nothing: in this regime nack dead-letters or is not reached. */
  lemma RestMoves(b: Broker, d: nat, c: Choice)
    requires SoloInv(b) && d < |b.deliveries| && !b.deliveries[d].pc.Claimed?
    requires b.deliveries[d].pc.Held? ==> c.Crash? || b.deliveries[d].pc.attempt > b.limit
    ensures SoloInv(ActStep(b, d, c))
  {
    var x, r := b.deliveries[d], ActStep(b, d, c);
    assert b.stream[x.entry].msg.notBefore == 0 && b.stream[x.entry].msg.attempt == 1;
    assert NumberOk(b, x);
    RestEffect(b, x, c);
    RestNumber(b, x, c);
    MoveKeeps(b, r, d);
  }

  lemma RestEffect(b: Broker, x: Delivery, c: Choice)
    requires WellFormed(b) && Solo(b) && x.entry < |b.stream| && NumberOk(b, x) && !x.pc.Claimed?
    requires x.pc.Held? ==> c.Crash? || x.pc.attempt > b.limit
    requires b.stream[x.entry].msg.notBefore == 0
    ensures SameEntries(b, Effect(b, x, c)) && Effect(b, x, c).dispatches == b.dispatches
  {
  }

  lemma RestNumber(b: Broker, x: Delivery, c: Choice)
    requires x.entry < |b.stream| && NumberOk(b, x) && !x.pc.Claimed?
    requires b.stream[x.entry].msg.notBefore == 0 && b.stream[x.entry].msg.attempt == 1
    ensures var pc := NextPc(b, x, c);
            && (Number(pc) == 0 || Number(pc) == Number(x.pc))
            && (pc.Poisoned? || pc.Lettered? || pc.Held? || pc.Dispatching? || pc.AckDispatched? || pc.Nacking? ==> 1 <= pc.attempt)
            && (pc.Nacking? ==> pc.attempt < b.limit)
  {
  }

  // ----- The other steps -----

  lemma ReadKeeps(b: Broker)
    requires SoloInv(b)
    ensures SoloInv(Next(b, ReadNew))
  {
    if b.cursor < |b.stream| {
      var r := Next(b, ReadNew);
      forall d | 0 <= d < |r.deliveries| ensures NumberOk(r, r.deliveries[d]) {
        if d < |b.deliveries| { assert NumberOk(b, b.deliveries[d]); }
      }
    }
  }

  lemma ClaimKeeps(b: Broker, e: nat)
    requires SoloInv(b)
    ensures SoloInv(Next(b, Claim(e)))
  {
    var r := Next(b, Claim(e));
    forall d | 0 <= d < |r.deliveries| ensures NumberOk(r, r.deliveries[d]) {
      if d < |b.deliveries| { assert NumberOk(b, b.deliveries[d]); }
    }
  }

  lemma EnqueueKeeps(b: Broker, readable: bool)
    requires SoloInv(b)
    ensures SoloInv(Next(b, Enqueue(readable)))
  {
    var r := Next(b, Enqueue(readable));
    NextKeepsWellFormed(b, Enqueue(readable));
    assert forall e :: 0 <= e < |b.stream| ==> r.stream[e] == b.stream[e] && b.stream[e].msg.op < b.ops;
    forall d | 0 <= d < |r.deliveries| ensures NumberOk(r, r.deliveries[d]) { assert NumberOk(b, b.deliveries[d]); }
  }

  lemma WaitKeeps(b: Broker, seconds: nat)
    requires SoloInv(b)
    ensures SoloInv(Next(b, Wait(seconds)))
  {
    var r := Next(b, Wait(seconds));
    forall d | 0 <= d < |r.deliveries| ensures NumberOk(r, r.deliveries[d]) { assert NumberOk(b, b.deliveries[d]); }
  }

  lemma NextKeeps(b: Broker, s: Step)
    requires SoloInv(b)
    ensures SoloInv(Next(b, s))
  {
    match s
    case Wait(seconds) => WaitKeeps(b, seconds);
    case Enqueue(readable) => EnqueueKeeps(b, readable);
    case ReadNew => ReadKeeps(b);
    case Claim(e) => ClaimKeeps(b, e);
    case Act(d, c) =>
      if d < |b.deliveries| {
        var pc := b.deliveries[d].pc;
        if pc.Claimed? {
          ClaimedMoves(b, d, c);
        } else if pc.Held? && !c.Crash? && pc.attempt <= b.limit {
          HeldMoves(b, d, c);
        } else {
          RestMoves(b, d, c);
        }
      }
  }

  lemma {:induction false} RunKeeps(strict: bool, max: nat, limit: nat, steps: seq<Step>)
    requires max <= 1 || limit <= 1
    ensures SoloInv(Run(Init(strict, max, limit), steps))
    ensures Run(Init(strict, max, limit), steps).limit == limit
    decreases |steps|
  {
    if steps != [] {
      var before, s := Run(Init(strict, max, limit), steps[..|steps| - 1]), steps[|steps| - 1];
      RunKeeps(strict, max, limit, steps[..|steps| - 1]);
      NextKeeps(before, s);
      LimitStays(before, s);
    }
  }

  lemma LimitStays(b: Broker, s: Step)
    requires WellFormed(b)
    ensures Next(b, s).limit == b.limit
  {
  }

  /** No (operation, attempt number) pair is dispatched twice, and with a single attempt in the adapter no
      operation is. */
  lemma NoRepeatWithoutReadd(strict: bool, max: nat, limit: nat, steps: seq<Step>, i: nat, j: nat)
    requires max <= 1 || limit <= 1
    requires i < j < |Run(Init(strict, max, limit), steps).dispatches|
    ensures var ds := Run(Init(strict, max, limit), steps).dispatches;
            ds[i] != ds[j] && (limit <= 1 ==> ds[i].0 != ds[j].0)
  {
    RunKeeps(strict, max, limit, steps);
    RecordDistinct(Run(Init(strict, max, limit), steps), i, j);
  }

  lemma RecordDistinct(b: Broker, i: nat, j: nat)
    requires RecordOk(b) && i < j < |b.dispatches|
    ensures b.dispatches[i] != b.dispatches[j] && (b.limit <= 1 ==> b.dispatches[i].0 != b.dispatches[j].0)
  {
  }
}
