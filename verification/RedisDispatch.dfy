/**
 Bounded dispatch: when only entries of dead consumers are claimed, an operation has one carrier at a
 time, the attempt numbers of its successive dispatches strictly increase through nacks, crash claims
 and not-due requeues, and none exceeds the adapter's limit, so user code runs at most that often.
 */
module RedisDispatch {
  import opened RedisBroker

  /** The attempt number of an operation's latest dispatch, 0 before the first. */
  ghost function Last(ds: seq<(nat, nat)>, op: nat): nat {
    if ds == [] then 0
    else if ds[|ds| - 1].0 == op then ds[|ds| - 1].1
    else Last(ds[..|ds| - 1], op)
  }

  /** How often user code was started for an operation. */
  ghost function Times(ds: seq<(nat, nat)>, op: nat): nat {
    if ds == [] then 0 else Times(ds[..|ds| - 1], op) + (if ds[|ds| - 1].0 == op then 1 else 0)
  }

  /** A delivery that may still start user code or add an entry. */
  predicate Active(pc: Pc) {
    pc.Received? || pc.Claimed? || pc.Poisoned? || pc.Lettered? || pc.Held?
    || pc.Dispatching? || pc.AckDispatched? || pc.Nacking?
  }

  ghost function OpOf(b: Broker, x: Delivery): nat
    requires x.entry < |b.stream|
  {
    b.stream[x.entry].msg.op
  }

  // ----- One carrier per operation -----

  ghost predicate Open(b: Broker, e: int) { 0 <= e < |b.stream| && !b.stream[e].acked }

  ghost predicate LiveAt(b: Broker, d: int) { 0 <= d < |b.deliveries| && !b.deliveries[d].pc.Over? }

  ghost predicate ActiveAt(b: Broker, d: int) { 0 <= d < |b.deliveries| && Active(b.deliveries[d].pc) }

  ghost predicate Unique(b: Broker)
    requires WellFormed(b)
  {
    && (forall e, f :: Open(b, e) && Open(b, f) && b.stream[e].msg.op == b.stream[f].msg.op ==> e == f)
    && (forall d, c :: LiveAt(b, d) && LiveAt(b, c) && b.deliveries[d].entry == b.deliveries[c].entry ==> d == c)
    && (forall d, e :: ActiveAt(b, d) && Open(b, e) && OpOf(b, b.deliveries[d]) == b.stream[e].msg.op ==>
          e == b.deliveries[d].entry)
    && (forall d, c :: ActiveAt(b, d) && ActiveAt(b, c) && OpOf(b, b.deliveries[d]) == OpOf(b, b.deliveries[c]) ==> d == c)
  }

  // ----- Attempt arithmetic -----

  /** A waiting entry is numbered above the latest dispatch; a pending one at least as high, counting its
      crashes, and above it while it is not due. */
  ghost predicate EntryOk(b: Broker, e: nat)
    requires e < |b.stream|
  {
    var x := b.stream[e];
    var last := Last(b.dispatches, x.msg.op);
    !x.acked ==>
      if e >= b.cursor then x.crashes == 0 && last < x.msg.attempt
      else last <= x.msg.attempt + x.crashes && (x.msg.notBefore > b.now ==> last < x.msg.attempt)
  }

  ghost predicate DeliveryOk(b: Broker, x: Delivery)
    requires x.entry < |b.stream|
  {
    var e := b.stream[x.entry];
    var last := Last(b.dispatches, e.msg.op);
    match x.pc
    case Received => !e.acked && e.crashes == 0 && last < e.msg.attempt
    case Claimed => !e.acked
    case Poisoned(a) => last < a
    case Lettered(a) => last < a
    case Held(a) => last < a && (!e.acked ==> a == e.msg.attempt + e.crashes && e.msg.notBefore <= b.now)
    case Dispatching(a) => last <= a <= b.limit && 1 <= a
    case AckDispatched(a) => last <= a <= b.limit && 1 <= a
    case Nacking(a) => last <= a < b.limit && 1 <= a
    case NackLettered => b.max < b.limit && 1 < b.limit
    case _ => true
  }

  ghost predicate DispatchesOk(ds: seq<(nat, nat)>, limit: nat, ops: nat) {
    && (forall i, j :: 0 <= i < j < |ds| && ds[i].0 == ds[j].0 ==> ds[i].1 < ds[j].1)
    && (forall i :: 0 <= i < |ds| ==> ds[i].0 < ops && ds[i].1 <= limit && ds[i].1 <= Last(ds, ds[i].0))
    && (forall op :: Times(ds, op) <= Last(ds, op) <= limit)
  }

  ghost predicate Inv(b: Broker) {
    && WellFormed(b) && b.strict && Unique(b)
    && (forall e :: 0 <= e < |b.stream| ==> EntryOk(b, e))
    && (forall e :: b.cursor <= e < |b.stream| ==> !b.stream[e].acked)
    && (forall d :: 0 <= d < |b.deliveries| ==> DeliveryOk(b, b.deliveries[d]))
    && DispatchesOk(b.dispatches, b.limit, b.ops)
  }

  lemma LastSnoc(ds: seq<(nat, nat)>, op: nat, a: nat, other: nat)
    ensures Last(ds + [(op, a)], other) == if other == op then a else Last(ds, other)
    ensures Times(ds + [(op, a)], other) == Times(ds, other) + if other == op then 1 else 0
  {
    assert (ds + [(op, a)])[..|ds|] == ds;
  }

  lemma {:induction false} LastOfUnknown(ds: seq<(nat, nat)>, op: nat)
    requires forall i :: 0 <= i < |ds| ==> ds[i].0 != op
    ensures Last(ds, op) == 0
  {
    if ds != [] { LastOfUnknown(ds[..|ds| - 1], op); }
  }

  /** A dispatch with a higher number extends the record. */
  lemma DispatchKeepsRecord(ds: seq<(nat, nat)>, limit: nat, ops: nat, op: nat, a: nat)
    requires DispatchesOk(ds, limit, ops) && op < ops && Last(ds, op) < a <= limit
    ensures DispatchesOk(ds + [(op, a)], limit, ops)
  {
    var all := ds + [(op, a)];
    forall i, j | 0 <= i < j < |all| && all[i].0 == all[j].0 ensures all[i].1 < all[j].1 {
      assert all[i] == ds[i] && ds[i].1 <= Last(ds, ds[i].0);
      assert j < |ds| ==> all[j] == ds[j];
    }
    forall i | 0 <= i < |all| ensures all[i].0 < ops && all[i].1 <= limit && all[i].1 <= Last(all, all[i].0) {
      LastSnoc(ds, op, a, all[i].0);
      if i < |ds| { assert all[i] == ds[i] && ds[i].1 <= Last(ds, ds[i].0); }
    }
    forall other: nat ensures Times(all, other) <= Last(all, other) <= limit {
      LastSnoc(ds, op, a, other);
      assert Times(ds, other) <= Last(ds, other) <= limit;
    }
  }

  // ----- One carrier per operation, step by step -----

  /** Acknowledging more and moving one delivery forward keeps carriers unique. */
  lemma MoveKeepsUnique(b: Broker, r: Broker, d: nat)
    requires WellFormed(b) && Unique(b) && WellFormed(r) && d < |b.deliveries| && OnlyMoves(b, r, d)
    requires |r.stream| == |b.stream|
    requires forall e :: 0 <= e < |b.stream| ==> r.stream[e].msg == b.stream[e].msg && (b.stream[e].acked ==> r.stream[e].acked)
    requires Active(r.deliveries[d].pc) ==> Active(b.deliveries[d].pc)
    requires b.deliveries[d].pc.Over? ==> r.deliveries[d].pc.Over?
    ensures Unique(r)
  {
    forall c | 0 <= c < |r.deliveries|
      ensures r.deliveries[c].entry == b.deliveries[c].entry && OpOf(r, r.deliveries[c]) == OpOf(b, b.deliveries[c])
      ensures ActiveAt(r, c) ==> ActiveAt(b, c)
      ensures LiveAt(r, c) ==> LiveAt(b, c)
    {
    }
    assert forall e :: Open(r, e) ==> Open(b, e);
  }

  /** An active delivery has handed its operation over to the new entry at the tail and is active no longer. */
  ghost predicate HandsOver(b: Broker, r: Broker, op: nat)
    requires WellFormed(b) && WellFormed(r)
  {
    var n := |b.stream|;
    && |r.stream| == n + 1 && r.stream[n].msg.op == op && |r.deliveries| == |b.deliveries|
    && (forall f :: Open(r, f) && f < n ==> Open(b, f) && r.stream[f].msg == b.stream[f].msg && b.stream[f].msg.op != op)
    && (forall c :: 0 <= c < |r.deliveries| ==>
          r.deliveries[c].entry == b.deliveries[c].entry && OpOf(r, r.deliveries[c]) == OpOf(b, b.deliveries[c]))
    && (forall c :: LiveAt(r, c) ==> LiveAt(b, c))
    && (forall c :: ActiveAt(r, c) ==> ActiveAt(b, c) && OpOf(b, b.deliveries[c]) != op)
  }

  lemma HandOverKeepsUnique(b: Broker, r: Broker, op: nat)
    requires WellFormed(b) && WellFormed(r) && Unique(b) && HandsOver(b, r, op)
    ensures Unique(r)
  {
  }

  lemma ReaddHandsOver(b: Broker, m: Msg, d: nat, pc: Pc)
    requires WellFormed(b) && Unique(b) && ActiveAt(b, d) && !Active(pc)
    requires m.op == OpOf(b, b.deliveries[d])
    ensures HandsOver(b, Goto(Ack(Add(b, m), b.deliveries[d].entry), d, pc), m.op)
  {
    var e := b.deliveries[d].entry;
    var r := Goto(Ack(Add(b, m), e), d, pc);
    assert LiveAt(b, d);
    forall f | Open(r, f) && f < |b.stream|
      ensures Open(b, f) && r.stream[f].msg == b.stream[f].msg && b.stream[f].msg.op != m.op
    {
      assert Open(b, f);
    }
  }

  /** Re-adding an operation keeps its carrier unique. */
  lemma ReaddKeepsUnique(b: Broker, m: Msg, d: nat, pc: Pc)
    requires WellFormed(b) && Unique(b) && ActiveAt(b, d) && !Active(pc)
    requires m.op == OpOf(b, b.deliveries[d])
    ensures Unique(Goto(Ack(Add(b, m), b.deliveries[d].entry), d, pc))
  {
    ReaddHandsOver(b, m, d, pc);
    HandOverKeepsUnique(b, Goto(Ack(Add(b, m), b.deliveries[d].entry), d, pc), m.op);
  }

  /** A delivery of an open entry nobody alive holds. */
  ghost predicate Spawns(b: Broker, r: Broker, x: Delivery) {
    && WellFormed(b) && WellFormed(r) && Open(b, x.entry)
    && r == b.(cursor := r.cursor, deliveries := b.deliveries + [x])
    && (forall d :: LiveAt(b, d) ==> b.deliveries[d].entry != x.entry)
  }

  /** The operation of the new delivery has no other active one. */
  lemma SpawnIsAlone(b: Broker, r: Broker, x: Delivery, d: nat)
    requires Spawns(b, r, x) && Unique(b) && ActiveAt(r, d) && d < |b.deliveries|
    ensures ActiveAt(b, d) && r.deliveries[d] == b.deliveries[d] && OpOf(b, b.deliveries[d]) != OpOf(b, x)
  {
    assert LiveAt(b, d);
    assert ActiveAt(b, d);
  }

  lemma SpawnKeepsEntry(b: Broker, r: Broker, x: Delivery, d: nat, e: nat)
    requires Spawns(b, r, x) && Unique(b)
    requires ActiveAt(r, d) && Open(r, e) && OpOf(r, r.deliveries[d]) == r.stream[e].msg.op
    ensures e == r.deliveries[d].entry
  {
    assert Open(b, e);
    if d < |b.deliveries| { SpawnIsAlone(b, r, x, d); }
  }

  lemma SpawnKeepsActive(b: Broker, r: Broker, x: Delivery, d: nat, c: nat)
    requires Spawns(b, r, x) && Unique(b)
    requires ActiveAt(r, d) && ActiveAt(r, c) && OpOf(r, r.deliveries[d]) == OpOf(r, r.deliveries[c])
    ensures d == c
  {
    if d < |b.deliveries| { SpawnIsAlone(b, r, x, d); }
    if c < |b.deliveries| { SpawnIsAlone(b, r, x, c); }
  }

  lemma SpawnKeepsHolder(b: Broker, r: Broker, x: Delivery, d: nat, c: nat)
    requires Spawns(b, r, x) && Unique(b)
    requires LiveAt(r, d) && LiveAt(r, c) && r.deliveries[d].entry == r.deliveries[c].entry
    ensures d == c
  {
    assert d < |b.deliveries| ==> LiveAt(b, d);
    assert c < |b.deliveries| ==> LiveAt(b, c);
  }

  lemma SpawnKeepsUnique(b: Broker, r: Broker, x: Delivery)
    requires Spawns(b, r, x) && Unique(b)
    ensures Unique(r)
  {
    assert forall e :: Open(r, e) ==> Open(b, e) && r.stream[e] == b.stream[e];
    forall d, c | LiveAt(r, d) && LiveAt(r, c) && r.deliveries[d].entry == r.deliveries[c].entry ensures d == c {
      SpawnKeepsHolder(b, r, x, d, c);
    }
    forall d, e | ActiveAt(r, d) && Open(r, e) && OpOf(r, r.deliveries[d]) == r.stream[e].msg.op
      ensures e == r.deliveries[d].entry
    {
      SpawnKeepsEntry(b, r, x, d, e);
    }
    forall d, c | ActiveAt(r, d) && ActiveAt(r, c) && OpOf(r, r.deliveries[d]) == OpOf(r, r.deliveries[c]) ensures d == c {
      SpawnKeepsActive(b, r, x, d, c);
    }
  }

  // ----- Attempt numbers, step by step -----

  /** A step of delivery d touches only its own entry and, when it is active, its operation's record. */
  ghost predicate Local(b: Broker, r: Broker, d: nat)
    requires WellFormed(b)
  {
    && WellFormed(r) && LiveAt(b, d) && OnlyMoves(b, r, d)
    && r == b.(stream := r.stream, deliveries := r.deliveries, letters := r.letters, marked := r.marked,
               settled := r.settled, dispatches := r.dispatches)
    && |b.stream| <= |r.stream|
    && (forall f :: 0 <= f < |b.stream| && f != b.deliveries[d].entry ==> r.stream[f] == b.stream[f])
    && (forall f :: |b.stream| <= f < |r.stream| ==> !r.stream[f].acked)
    && r.stream[b.deliveries[d].entry].msg == b.stream[b.deliveries[d].entry].msg
    && (forall op :: op != OpOf(b, b.deliveries[d]) ==> Last(r.dispatches, op) == Last(b.dispatches, op))
    && (r.dispatches != b.dispatches ==> ActiveAt(b, d))
  }

  lemma OtherDeliveries(b: Broker, r: Broker, d: nat, c: nat)
    requires Inv(b) && Local(b, r, d) && c < |b.deliveries| && c != d
    ensures DeliveryOk(r, r.deliveries[c])
  {
    assert DeliveryOk(b, b.deliveries[c]);
    if LiveAt(b, c) {
      assert b.deliveries[c].entry != b.deliveries[d].entry;
      if r.dispatches != b.dispatches && ActiveAt(b, c) {
        assert OpOf(b, b.deliveries[c]) != OpOf(b, b.deliveries[d]);
      }
    }
  }

  lemma OtherEntries(b: Broker, r: Broker, d: nat, f: nat)
    requires Inv(b) && Local(b, r, d) && f < |b.stream| && f != b.deliveries[d].entry
    ensures EntryOk(r, f)
  {
    assert EntryOk(b, f);
    if Open(b, f) && r.dispatches != b.dispatches {
      assert b.stream[f].msg.op != OpOf(b, b.deliveries[d]);
    }
  }

  /** So only the step's own entry, a new entry and the moved delivery need to be looked at. */
  lemma Assemble(b: Broker, r: Broker, d: nat)
    requires Inv(b) && Local(b, r, d) && Unique(r)
    requires EntryOk(r, b.deliveries[d].entry)
    requires forall f :: |b.stream| <= f < |r.stream| ==> EntryOk(r, f)
    requires DeliveryOk(r, r.deliveries[d])
    requires DispatchesOk(r.dispatches, r.limit, r.ops)
    ensures Inv(r)
  {
    forall f | 0 <= f < |r.stream| ensures EntryOk(r, f) {
      if f < |b.stream| && f != b.deliveries[d].entry { OtherEntries(b, r, d, f); }
    }
    forall c | 0 <= c < |r.deliveries| ensures DeliveryOk(r, r.deliveries[c]) {
      if c != d { OtherDeliveries(b, r, d, c); }
    }
  }

  lemma ReaddIsLocal(b: Broker, m: Msg, d: nat, pc: Pc)
    requires WellFormed(b) && LiveAt(b, d) && m.op == OpOf(b, b.deliveries[d])
    ensures var r := Goto(Ack(Add(b, m), b.deliveries[d].entry), d, pc);
            && Local(b, r, d)
            && |r.stream| == |b.stream| + 1
            && r.stream[|b.stream|] == Entry(m, false, 0)
            && r.stream[b.deliveries[d].entry].acked
  {
  }

  /** Handing the operation over to a new entry with a higher number. */
  lemma ReaddKeeps(b: Broker, m: Msg, d: nat, pc: Pc)
    requires Inv(b) && ActiveAt(b, d) && (pc.Over? || pc.Marking?)
    requires m.op == OpOf(b, b.deliveries[d]) && Last(b.dispatches, m.op) < m.attempt
    ensures Inv(Goto(Ack(Add(b, m), b.deliveries[d].entry), d, pc))
  {
    ReaddIsLocal(b, m, d, pc);
    ReaddKeepsUnique(b, m, d, pc);
    Assemble(b, Goto(Ack(Add(b, m), b.deliveries[d].entry), d, pc), d);
  }

  /** A due claim is counted; it goes on, or, when the count raised, is dead-lettered. */
  lemma CountKeeps(b: Broker, d: nat, pc: Pc)
    requires Inv(b) && d < |b.deliveries| && b.deliveries[d].pc.Claimed?
    requires var m := b.stream[b.deliveries[d].entry].msg; m.notBefore <= b.now && m.readable
    requires pc.Rejecting? || pc == AdmitPc(b, b.deliveries[d].entry, true, Fine)
    ensures Inv(Goto(Count(b, b.deliveries[d].entry), d, pc))
  {
    var x := b.deliveries[d];
    var r := Goto(Count(b, x.entry), d, pc);
    assert DeliveryOk(b, x) && EntryOk(b, x.entry);
    MoveKeepsUnique(b, r, d);
    Assemble(b, r, d);
  }

  lemma AdmitKeeps(b: Broker, d: nat, c: Choice)
    requires Inv(b) && d < |b.deliveries| && Admits(b, b.deliveries[d], c)
    ensures Inv(ActStep(b, d, c))
  {
    var x := b.deliveries[d];
    var m := b.stream[x.entry].msg;
    assert DeliveryOk(b, x) && EntryOk(b, x.entry);
    if m.notBefore > b.now {
      ReaddKeeps(b, m, d, Over);
    } else {
      CountKeeps(b, d, NextPc(b, x, c));
    }
  }

  lemma DispatchKeeps(b: Broker, d: nat)
    requires Inv(b) && d < |b.deliveries| && b.deliveries[d].pc.Held? && b.deliveries[d].pc.attempt <= b.limit
    ensures Inv(ActStep(b, d, Fine))
  {
    var x := b.deliveries[d];
    var op, a, r := OpOf(b, x), x.pc.attempt, ActStep(b, d, Fine);
    assert DeliveryOk(b, x) && EntryOk(b, x.entry);
    DispatchKeepsRecord(b.dispatches, b.limit, b.ops, op, a);
    forall other: nat ensures Last(r.dispatches, other) == if other == op then a else Last(b.dispatches, other) {
      LastSnoc(b.dispatches, op, a, other);
    }
    MoveKeepsUnique(b, r, d);
    Assemble(b, r, d);
  }

  /** Every other step acknowledges, records or does nothing, and moves on. */
  ghost predicate Quiet(b: Broker, r: Broker, e: nat)
    requires e < |b.stream|
  {
    && r == b.(stream := r.stream, letters := r.letters, marked := r.marked, settled := r.settled)
    && (r.stream == b.stream || r.stream == b.stream[e := b.stream[e].(acked := true)])
  }

  lemma QuietKeeps(b: Broker, d: nat, r: Broker, pc: Pc)
    requires Inv(b) && LiveAt(b, d) && (Active(pc) ==> Active(b.deliveries[d].pc))
    requires Quiet(b, r, b.deliveries[d].entry) && DeliveryOk(r, b.deliveries[d].(pc := pc))
    ensures Inv(Goto(r, d, pc))
  {
    var g := Goto(r, d, pc);
    var e := b.deliveries[d].entry;
    assert EntryOk(b, e);
    MoveKeepsUnique(b, g, d);
    assert EntryOk(g, e);
    Assemble(b, g, d);
  }

  /** An entry just taken is pushed back, or its claim is counted. */
  predicate Admits(b: Broker, x: Delivery, c: Choice)
    requires x.entry < |b.stream|
  {
    var m := b.stream[x.entry].msg;
    && Took(c)
    && if m.notBefore > b.now then x.pc.Received? || x.pc.Claimed? else x.pc.Claimed? && m.readable
  }

  predicate Dispatches(b: Broker, x: Delivery, c: Choice) { !c.Crash? && x.pc.Held? && x.pc.attempt <= b.limit }

  predicate Readds(b: Broker, x: Delivery, c: Choice) { Took(c) && x.pc.Nacking? && x.pc.attempt + 1 <= b.max }

  predicate QuietStep(b: Broker, x: Delivery, c: Choice)
    requires x.entry < |b.stream|
  {
    !Admits(b, x, c) && !Dispatches(b, x, c) && !Readds(b, x, c)
  }

  lemma QuietEffect(b: Broker, x: Delivery, c: Choice)
    requires x.entry < |b.stream| && QuietStep(b, x, c)
    ensures Quiet(b, Effect(b, x, c), x.entry)
  {
  }

  lemma QuietMoves(b: Broker, x: Delivery, c: Choice)
    requires x.entry < |b.stream| && QuietStep(b, x, c) && DeliveryOk(b, x) && Quiet(b, Effect(b, x, c), x.entry)
    ensures DeliveryOk(Effect(b, x, c), x.(pc := NextPc(b, x, c)))
    ensures Active(NextPc(b, x, c)) ==> Active(x.pc)
  {
  }

  lemma OverStays(b: Broker, d: nat, c: Choice)
    requires WellFormed(b) && d < |b.deliveries| && b.deliveries[d].pc.Over?
    ensures ActStep(b, d, c) == b
  {
    assert ActStep(b, d, c).deliveries == b.deliveries;
  }

  lemma QuietActKeeps(b: Broker, d: nat, c: Choice)
    requires Inv(b) && LiveAt(b, d) && QuietStep(b, b.deliveries[d], c)
    ensures Inv(ActStep(b, d, c))
  {
    var x := b.deliveries[d];
    assert DeliveryOk(b, x);
    QuietEffect(b, x, c);
    QuietMoves(b, x, c);
    QuietKeeps(b, d, Effect(b, x, c), NextPc(b, x, c));
  }

  lemma NackActKeeps(b: Broker, d: nat, c: Choice)
    requires Inv(b) && LiveAt(b, d) && Readds(b, b.deliveries[d], c)
    ensures Inv(ActStep(b, d, c))
  {
    var x := b.deliveries[d];
    assert DeliveryOk(b, x);
    var m := b.stream[x.entry].msg.(attempt := x.pc.attempt + 1, notBefore := b.now + Min(x.pc.attempt * 2, 30));
    ReaddKeeps(b, m, d, NextPc(b, x, c));
    NackReadds(b, x, c);
  }

  lemma NackReadds(b: Broker, x: Delivery, c: Choice)
    requires x.entry < |b.stream| && Readds(b, x, c)
    ensures var a := x.pc.attempt;
            Effect(b, x, c) ==
            Ack(Add(b, b.stream[x.entry].msg.(attempt := a + 1, notBefore := b.now + Min(a * 2, 30))), x.entry)
  {
  }

  lemma DispatchStep(b: Broker, d: nat, c: Choice)
    requires WellFormed(b) && d < |b.deliveries| && Dispatches(b, b.deliveries[d], c)
    ensures ActStep(b, d, c) == ActStep(b, d, Fine)
  {
  }

  lemma ActKeeps(b: Broker, d: nat, c: Choice)
    requires Inv(b) && d < |b.deliveries|
    ensures Inv(ActStep(b, d, c))
  {
    var x := b.deliveries[d];
    if x.pc.Over? {
      OverStays(b, d, c);
    } else if Admits(b, x, c) {
      AdmitKeeps(b, d, c);
    } else if Dispatches(b, x, c) {
      DispatchStep(b, d, c);
      DispatchKeeps(b, d);
    } else if Readds(b, x, c) {
      NackActKeeps(b, d, c);
    } else {
      QuietActKeeps(b, d, c);
    }
  }

  lemma ReadKeeps(b: Broker)
    requires Inv(b)
    ensures Inv(Next(b, ReadNew))
  {
    if b.cursor < |b.stream| {
      var r, x := Next(b, ReadNew), Delivery(b.cursor, Received);
      NextKeepsWellFormed(b, ReadNew);
      assert EntryOk(b, b.cursor);
      SpawnKeepsUnique(b, r, x);
      forall e | 0 <= e < |r.stream| ensures EntryOk(r, e) { assert EntryOk(b, e); }
      forall d | 0 <= d < |r.deliveries| ensures DeliveryOk(r, r.deliveries[d]) {
        if d < |b.deliveries| { assert DeliveryOk(b, b.deliveries[d]); }
      }
    }
  }

  lemma ClaimKeeps(b: Broker, e: nat)
    requires Inv(b)
    ensures Inv(Next(b, Claim(e)))
  {
    if e < b.cursor && !b.stream[e].acked && !Live(b, e) {
      var r, x := Next(b, Claim(e)), Delivery(e, Claimed);
      NextKeepsWellFormed(b, Claim(e));
      SpawnKeepsUnique(b, r, x);
      forall f | 0 <= f < |r.stream| ensures EntryOk(r, f) { assert EntryOk(b, f); }
      forall d | 0 <= d < |r.deliveries| ensures DeliveryOk(r, r.deliveries[d]) {
        if d < |b.deliveries| { assert DeliveryOk(b, b.deliveries[d]); }
      }
    }
  }

  lemma EnqueueKeepsUnique(b: Broker, readable: bool)
    requires WellFormed(b) && Unique(b)
    ensures WellFormed(Next(b, Enqueue(readable))) && Unique(Next(b, Enqueue(readable)))
  {
    NextKeepsWellFormed(b, Enqueue(readable));
    var r := Next(b, Enqueue(readable));
    var n := |b.stream|;
    assert r.stream[n].msg.op == b.ops;
    assert forall e :: 0 <= e < n ==> r.stream[e] == b.stream[e] && b.stream[e].msg.op < b.ops;
    assert forall e :: Open(r, e) ==> e == n || Open(b, e);
    assert forall d :: ActiveAt(r, d) ==> ActiveAt(b, d) && OpOf(r, r.deliveries[d]) == OpOf(b, b.deliveries[d]) < b.ops;
    assert forall d :: LiveAt(r, d) ==> LiveAt(b, d);
  }

  lemma EnqueueKeeps(b: Broker, readable: bool)
    requires Inv(b)
    ensures Inv(Next(b, Enqueue(readable)))
  {
    var r := Next(b, Enqueue(readable));
    EnqueueKeepsUnique(b, readable);
    LastOfUnknown(b.dispatches, b.ops);
    forall e | 0 <= e < |r.stream| ensures EntryOk(r, e) { if e < |b.stream| { assert EntryOk(b, e); } }
    forall d | 0 <= d < |r.deliveries| ensures DeliveryOk(r, r.deliveries[d]) { assert DeliveryOk(b, b.deliveries[d]); }
  }

  lemma WaitKeeps(b: Broker, seconds: nat)
    requires Inv(b)
    ensures Inv(Next(b, Wait(seconds)))
  {
    var r := Next(b, Wait(seconds));
    assert forall e :: Open(r, e) <==> Open(b, e);
    assert forall d :: (ActiveAt(r, d) <==> ActiveAt(b, d)) && (LiveAt(r, d) <==> LiveAt(b, d));
    forall e | 0 <= e < |r.stream| ensures EntryOk(r, e) { assert EntryOk(b, e); }
    forall d | 0 <= d < |r.deliveries| ensures DeliveryOk(r, r.deliveries[d]) { assert DeliveryOk(b, b.deliveries[d]); }
  }

  lemma NextKeeps(b: Broker, s: Step)
    requires Inv(b)
    ensures Inv(Next(b, s)) && Next(b, s).max == b.max && Next(b, s).limit == b.limit
  {
    match s
    case Wait(seconds) => WaitKeeps(b, seconds);
    case Enqueue(readable) => EnqueueKeeps(b, readable);
    case ReadNew => ReadKeeps(b);
    case Claim(e) => ClaimKeeps(b, e);
    case Act(d, c) =>
      if d < |b.deliveries| {
        ActKeeps(b, d, c);
        EffectKeepsLimits(b, b.deliveries[d], c);
      }
  }

  lemma EffectKeepsLimits(b: Broker, x: Delivery, c: Choice)
    requires x.entry < |b.stream|
    ensures Effect(b, x, c).max == b.max && Effect(b, x, c).limit == b.limit
  {
  }

  lemma {:induction false} RunKeeps(max: nat, limit: nat, steps: seq<Step>)
    ensures Inv(Run(Init(true, max, limit), steps))
    ensures var r := Run(Init(true, max, limit), steps); r.max == max && r.limit == limit
    decreases |steps|
  {
    if steps != [] {
      var before, s := Run(Init(true, max, limit), steps[..|steps| - 1]), steps[|steps| - 1];
      RunKeeps(max, limit, steps[..|steps| - 1]);
      NextKeeps(before, s);
    }
  }

  // ----- Every run -----

  /** The dispatches of one operation carry strictly increasing attempt numbers up to the limit. */
  lemma AttemptsIncrease(max: nat, limit: nat, steps: seq<Step>, i: nat, j: nat)
    requires var ds := Run(Init(true, max, limit), steps).dispatches;
             i < j < |ds| && ds[i].0 == ds[j].0
    ensures var ds := Run(Init(true, max, limit), steps).dispatches;
            ds[i].1 < ds[j].1 <= limit
  {
    RunKeeps(max, limit, steps);
  }

  /** User code runs at most `limit` times for one operation. */
  lemma BoundedDispatch(max: nat, limit: nat, steps: seq<Step>, op: nat)
    ensures Times(Run(Init(true, max, limit), steps).dispatches, op) <= limit
  {
    RunKeeps(max, limit, steps);
  }

  /** Unless the adapter's limit exceeds the broker's, nack never dead-letters. */
  lemma NackNeverDeadLetters(max: nat, limit: nat, steps: seq<Step>, d: nat)
    requires limit <= max && d < |Run(Init(true, max, limit), steps).deliveries|
    ensures !Run(Init(true, max, limit), steps).deliveries[d].pc.NackLettered?
  {
    RunKeeps(max, limit, steps);
    var b := Run(Init(true, max, limit), steps);
    assert DeliveryOk(b, b.deliveries[d]);
  }
}
