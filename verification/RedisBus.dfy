/**
 The Redis event bus reader: replay, gap-fill and live reads of one stream with one cursor. Entries
 may fail to decode: the first two phases step over them without moving the cursor, or, when the bytes are
 not even text, raise and end the stream; a live read moves the cursor onto the entry and abandons the rest
 of its batch. Stream ids are numbers, "0-0" is 0.
 */
module RedisBus {
  import opened Tasks
  import B = MemoryBus

  /** What the bytes of a stream entry turn out to be. */
  datatype Payload<E> = Event(item: B.Item<E>) | NotAnEvent | NotText

  datatype Record<E> = Record(id: nat, payload: Payload<E>)

  ghost predicate Ordered<E>(log: seq<Record<E>>) {
    && (forall i :: 0 <= i < |log| ==> log[i].id > 0)
    && (forall i, j :: 0 <= i < j < |log| ==> log[i].id < log[j].id)
  }

  /** The decodable entries with lo < id <= hi, in log order. */
  ghost function Span<E>(log: seq<Record<E>>, lo: nat, hi: nat): seq<B.Entry<E>> {
    if log == [] then []
    else
      var r := log[|log| - 1];
      Span(log[..|log| - 1], lo, hi)
      + (if lo < r.id <= hi && r.payload.Event? then [B.Entry(r.id, r.payload.item)] else [])
  }

  /** `XRANGE (last +` when the first n entries are in the stream. */
  function Newer<E>(log: seq<Record<E>>, n: nat, last: nat): seq<Record<E>>
    requires n <= |log|
  {
    if n == 0 then [] else Newer(log, n - 1, last) + (if log[n - 1].id > last then [log[n - 1]] else [])
  }

  /** In an ordered stream that is a suffix of what is visible. */
  lemma {:induction false} NewerIsSuffix<E>(log: seq<Record<E>>, n: nat, last: nat) returns (m: nat)
    requires Ordered(log) && n <= |log|
    ensures m <= n && Newer(log, n, last) == log[m..n]
    ensures forall j :: 0 <= j < n ==> (j < m <==> log[j].id <= last)
  {
    if n == 0 {
      m := 0;
    } else if log[n - 1].id > last {
      m := NewerIsSuffix(log, n - 1, last);
      assert log[m..n] == log[m..n - 1] + [log[n - 1]];
    } else {
      m := NewerIsSuffix(log, n - 1, last);
      assert forall j :: 0 <= j < n - 1 ==> log[j].id < log[n - 1].id;
      assert m == n - 1;
      assert log[m..n - 1] == [];
      m := n;
    }
  }

  /** Moving the upper end over entries that do not decode adds nothing. */
  lemma {:induction false} SpanSame<E>(log: seq<Record<E>>, lo: nat, a: nat, b: nat)
    requires a <= b
    requires forall i :: 0 <= i < |log| && a < log[i].id <= b ==> !log[i].payload.Event?
    ensures Span(log, lo, a) == Span(log, lo, b)
  {
    if log != [] { SpanSame(log[..|log| - 1], lo, a, b); }
  }

  /** Moving it onto the next decodable entry adds exactly that entry. */
  lemma {:induction false} SpanNext<E>(log: seq<Record<E>>, lo: nat, a: nat, j: nat)
    requires Ordered(log) && j < |log| && lo <= a < log[j].id
    requires forall i :: 0 <= i < |log| && a < log[i].id < log[j].id ==> !log[i].payload.Event?
    ensures Span(log, lo, log[j].id) ==
            Span(log, lo, a) + (if log[j].payload.Event? then [B.Entry(log[j].id, log[j].payload.item)] else [])
  {
    var n := |log| - 1;
    if j < n {
      SpanNext(log[..n], lo, a, j);
    } else {
      SpanSame(log[..n], lo, a, log[j].id);
    }
  }

  /** A span is strictly increasing and holds exactly the decodable entries of its range. */
  lemma {:induction false} SpanExact<E>(log: seq<Record<E>>, lo: nat, hi: nat)
    requires Ordered(log)
    ensures B.Increasing(Span(log, lo, hi))
    ensures forall e :: e in Span(log, lo, hi) ==> lo < e.id <= hi && Record(e.id, Event(e.item)) in log
    ensures forall r :: r in log && lo < r.id <= hi && r.payload.Event? ==> B.Entry(r.id, r.payload.item) in Span(log, lo, hi)
  {
    if log != [] {
      var n := |log| - 1;
      SpanExact(log[..n], lo, hi);
      var s := Span(log[..n], lo, hi);
      forall k | 0 <= k < |s| ensures s[k].id < log[n].id {
        assert s[k] in s;
        var r := Record(s[k].id, Event(s[k].item));
        assert r in log[..n];
      }
    }
  }

  /** A stream is cut at its first closing event. */
  ghost predicate Closed<E>(out: seq<B.Entry<E>>, ended: bool) {
    && (forall k :: 0 <= k < |out| - 1 ==> !out[k].item.final)
    && (ended <==> out != [] && out[|out| - 1].item.final)
  }

  /** The entry at this id, among the first n, does not decode. */
  ghost predicate UndecodableAt<E>(log: seq<Record<E>>, id: nat, n: nat)
    requires n <= |log|
  {
    exists j :: 0 <= j < n && log[j].id == id && !log[j].payload.Event?
  }

  // ----- The reader -----

  /** Where a reader starts: at the position bookmarked when it subscribed, behind the id the client sent,
      or, when that id is not a stream id, at the beginning. */
  datatype From = Bookmark(id: nat) | Resume(id: nat) | Garbage

  function StartOf(from: From): nat { if from.Garbage? then 0 else from.id }

  /** What a wait on the Pub/Sub connection brings; `read` is how much of the stream the following read
      sees, None when that read fails. */
  datatype Signal = Wakeup(read: Option<nat>) | Noise | Timeout(read: Option<nat>)

  const POLL_INTERVAL := 30

  /** The tick counter: a wakeup reads at once, a timeout only every 30th time. */
  function Tick(ticks: nat, s: Signal): (r: (nat, bool)) {
    match s
    case Wakeup(_) => (0, true)
    case Noise => (ticks, false)
    case Timeout(_) => if ticks + 1 < POLL_INTERVAL then (ticks + 1, false) else (0, true)
  }

  /** Does the loop read at signal k, starting with this tick count? */
  function ReadsAt(ticks: nat, signals: seq<Signal>, k: nat): bool
    requires k < |signals|
    decreases k
  {
    if k == 0 then Tick(ticks, signals[0]).1 else ReadsAt(Tick(ticks, signals[0]).0, signals[1..], k - 1)
  }

  function Timeouts(signals: seq<Signal>): nat {
    if signals == [] then 0 else (if signals[0].Timeout? then 1 else 0) + Timeouts(signals[1..])
  }

  /** A lost wakeup costs at most thirty timeouts: whatever else the connection brings in between, by the time
      it has timed out thirty times the stream has been read. */
  lemma {:induction false} SafetyPoll(ticks: nat, signals: seq<Signal>) returns (k: nat)
    requires ticks < POLL_INTERVAL && Timeouts(signals) >= POLL_INTERVAL - ticks
    ensures k < |signals| && ReadsAt(ticks, signals, k)
    ensures Timeouts(signals[..k]) < POLL_INTERVAL - ticks
    decreases |signals|
  {
    if Tick(ticks, signals[0]).1 {
      k := 0;
    } else {
      var rest := SafetyPoll(Tick(ticks, signals[0]).0, signals[1..]);
      k := rest + 1;
      assert signals[..k] == [signals[0]] + signals[1..][..rest];
      assert signals[..k][1..] == signals[1..][..rest];
    }
  }

  class Reader<E> {
    var cursor: nat
    var ticks: nat
    var ended: bool
    var broken: bool  // the generator has raised
    var out: seq<B.Entry<E>>

    constructor (from: From)
      ensures cursor == StartOf(from) && ticks == 0 && !ended && !broken && out == []
    {
      cursor, ticks, ended, broken, out := StartOf(from), 0, false, false, [];
    }

    /** The yielded events are the decodable entries in (start, cursor]. */
    ghost predicate At(log: seq<Record<E>>, start: nat)
      reads this
    {
      Ordered(log) && start <= cursor && out == Span(log, start, cursor) && Closed(out, ended)
    }

    /** Everything decodable among the first n entries has been yielded. */
    ghost predicate Done(log: seq<Record<E>>, n: nat)
      requires n <= |log|
      reads this
    {
      forall j :: 0 <= j < n && log[j].id > cursor ==> !log[j].payload.Event?
    }

    /** Yield the decodable entry at index j, behind which the cursor stands. */
    method Emit(log: seq<Record<E>>, ghost start: nat, ghost j: nat, r: Record<E>)
      requires At(log, start) && !ended && !broken && j < |log| && log[j] == r && cursor < r.id && r.payload.Event?
      requires Done(log, j)
      modifies this
      ensures At(log, start) && cursor == r.id && ticks == old(ticks) && Done(log, j + 1) && !broken
    {
      SpanNext(log, start, cursor, j);
      cursor, out, ended := r.id, out + [B.Entry(r.id, r.payload.item)], r.payload.item.final;
    }

    /** Move the cursor onto the undecodable entry at index j. */
    method PassOver(log: seq<Record<E>>, ghost start: nat, ghost j: nat, r: Record<E>)
      requires At(log, start) && !ended && !broken && j < |log| && log[j] == r && cursor < r.id && !r.payload.Event?
      requires Done(log, j)
      modifies this`cursor
      ensures At(log, start) && cursor == r.id
    {
      SpanNext(log, start, cursor, j);
      cursor := r.id;
    }

    /** Replay or gap-fill with n entries visible: entries that are no events are skipped and leave the cursor;
        the first that is not text raises. */
    method Catch(log: seq<Record<E>>, ghost start: nat, n: nat)
      requires At(log, start) && !ended && !broken && n <= |log|
      modifies this
      ensures At(log, start) && old(cursor) <= cursor && ticks == old(ticks)
      ensures cursor == old(cursor) || exists p :: 0 <= p < n && log[p].id == cursor
      ensures broken ==> !ended && exists j :: 0 <= j < n && log[j].payload.NotText? && log[j].id > cursor && Done(log, j)
      ensures !ended && !broken ==> Done(log, n) && forall j :: 0 <= j < n && log[j].payload.NotText? ==> log[j].id <= old(cursor)
    {
      var entries := Newer(log, n, cursor);
      ghost var m := NewerIsSuffix(log, n, cursor);
      for q := 0 to |entries|
        invariant At(log, start) && !ended && !broken && old(cursor) <= cursor && ticks == old(ticks)
        invariant Done(log, m + q)
        invariant forall j :: m <= j < m + q ==> !log[j].payload.NotText?
        invariant cursor == old(cursor) || exists p :: 0 <= p < n && log[p].id == cursor
        invariant m + q < n ==> cursor < log[m + q].id
      {
        var r := entries[q];
        match r.payload {
          case NotText =>
            broken := true;
            return;
          case NotAnEvent =>
          case Event(_) =>
            Emit(log, start, m + q, r);
            if ended { return; }
        }
      }
    }

    /** A live read with n entries visible: the cursor moves onto an undecodable entry and the batch is
        abandoned there, so the next read starts behind it. */
    method Batch(log: seq<Record<E>>, ghost start: nat, n: nat) returns (complete: bool)
      requires At(log, start) && !ended && !broken && n <= |log|
      modifies this
      ensures At(log, start) && old(cursor) <= cursor && ticks == old(ticks) && !broken
      ensures complete && !ended ==> Done(log, n)
      ensures !complete ==> old(cursor) < cursor && !ended && UndecodableAt(log, cursor, n)
    {
      var entries := Newer(log, n, cursor);
      ghost var m := NewerIsSuffix(log, n, cursor);
      for q := 0 to |entries|
        invariant At(log, start) && !ended && !broken && old(cursor) <= cursor && ticks == old(ticks)
        invariant Done(log, m + q)
        invariant m + q < n ==> cursor < log[m + q].id
      {
        var r := entries[q];
        if !r.payload.Event? {
          PassOver(log, start, m + q, r);
          return false;
        }
        Emit(log, start, m + q, r);
        if ended { return true; }
      }
      complete := true;
    }

    /** One turn of the live loop. */
    method Live(log: seq<Record<E>>, ghost start: nat, s: Signal) returns (complete: bool)
      requires At(log, start) && !ended && !broken && ticks < POLL_INTERVAL && !s.Noise?
      requires s.read.Some? ==> s.read.value <= |log|
      modifies this
      ensures At(log, start) && old(cursor) <= cursor && !broken
      ensures ticks == Tick(old(ticks), s).0 < POLL_INTERVAL
      ensures complete && !ended ==> s.read.Some? && Done(log, s.read.value)
      ensures Tick(old(ticks), s).1 && s.read.Some? && !complete ==> UndecodableAt(log, cursor, s.read.value)
    {
      complete := false;
      if s.Timeout? {
        ticks := ticks + 1;
        if ticks < POLL_INTERVAL { return; }
        ticks := 0;
      } else {
        ticks := 0;
      }
      if s.read.Some? { complete := Batch(log, start, s.read.value); }
    }
  }

  ghost predicate Sees<E>(log: seq<Record<E>>, signals: seq<Signal>) {
    forall i :: 0 <= i < |signals| && !signals[i].Noise? && signals[i].read.Some? ==> signals[i].read.value <= |log|
  }

  /** An entry in the way of the first two phases: its bytes are not text. */
  ghost predicate Blocked<E>(log: seq<Record<E>>, after: nat, n: nat)
    requires n <= |log|
  {
    exists j :: 0 <= j < n && log[j].id > after && log[j].payload.NotText?
  }

  /** Nothing blocked the replay, and nothing the gap-fill behind it. */
  lemma NotBlocked<E>(log: seq<Record<E>>, start: nat, passed: nat, replayed: nat, filled: nat)
    requires Ordered(log) && replayed <= filled <= |log|
    requires passed == start || (!Blocked(log, start, replayed) && exists p :: 0 <= p < replayed && log[p].id == passed)
    requires forall j :: 0 <= j < filled && log[j].payload.NotText? ==> log[j].id <= passed
    ensures !Blocked(log, start, filled)
  {
  }

  /** A whole subscription: replay (for a client that resumes), gap-fill, then one live turn per signal.
      At whatever point the client stops listening or the generator raises, it has received exactly the decodable
      entries between its start and the cursor, and, while the stream is open, everything decodable that the
      last completed read could see. It raises only over an entry that is not text, met by replay or gap-fill. */
  method IterEvents<E>(log: seq<Record<E>>, from: From, replayed: nat, filled: nat, signals: seq<Signal>)
    returns (out: seq<B.Entry<E>>, cursor: nat, ended: bool, broken: bool, caught: nat)
    requires Ordered(log) && replayed <= filled <= |log| && Sees(log, signals)
    ensures StartOf(from) <= cursor && out == Span(log, StartOf(from), cursor) && Closed(out, ended)
    ensures caught <= |log|
    ensures broken ==> !ended && Blocked(log, cursor, filled)
    ensures !ended && !broken ==> !Blocked(log, StartOf(from), filled)
    ensures !ended && !broken ==> forall j :: 0 <= j < caught && log[j].id > cursor ==> !log[j].payload.Event?
    ensures signals == [] ==> caught == filled || ended || broken
    ensures signals != [] && signals[|signals| - 1].Wakeup? && !ended && !broken ==>
              match signals[|signals| - 1].read
              case Some(n) => caught == n || UndecodableAt(log, cursor, n)
              case None => true
  {
    var r := new Reader(from);
    ghost var start := StartOf(from);
    SpanEmpty(log, start);
    caught := 0;
    if from.Resume? { r.Catch(log, start, replayed); }
    if !r.ended && !r.broken {
      ghost var passed := r.cursor;
      r.Catch(log, start, filled);
      caught := filled;
      if !r.ended && !r.broken { NotBlocked(log, start, passed, replayed, filled); }
    }
    var k := 0;
    while k < |signals| && !r.ended && !r.broken
      invariant k <= |signals| && r.At(log, start) && r.ticks < POLL_INTERVAL && caught <= |log|
      invariant r.broken ==> !r.ended && Blocked(log, r.cursor, filled)
      invariant !r.ended && !r.broken ==> r.Done(log, caught) && !Blocked(log, start, filled)
      invariant k == 0 && !r.ended && !r.broken ==> caught == filled
      invariant k > 0 && signals[k - 1].Wakeup? && signals[k - 1].read.Some? && !r.ended && !r.broken ==>
                  caught == signals[k - 1].read.value || UndecodableAt(log, r.cursor, signals[k - 1].read.value)
    {
      if !signals[k].Noise? {
        var complete := r.Live(log, start, signals[k]);
        if complete && !r.ended { caught := signals[k].read.value; }
      }
      k := k + 1;
    }
    out, cursor, ended, broken := r.out, r.cursor, r.ended, r.broken;
  }

  lemma {:induction false} SpanEmpty<E>(log: seq<Record<E>>, at: nat)
    ensures Span(log, at, at) == []
  {
    if log != [] { SpanEmpty(log[..|log| - 1], at); }
  }

  /** A client whose resume point is no stream id gets everything decodable up to the cursor, from the first entry on. */
  lemma GarbageStartsOver<E>(log: seq<Record<E>>, cursor: nat, j: nat)
    requires Ordered(log) && j < |log| && log[j].id <= cursor && log[j].payload.Event?
    ensures B.Entry(log[j].id, log[j].payload.item) in Span(log, StartOf(Garbage), cursor)
  {
    SpanExact(log, StartOf(Garbage), cursor);
    assert log[j] in log;
  }
}
