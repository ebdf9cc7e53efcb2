/**
 The Redis and SQL `update_task`: read, merge in Python, commit through a compare-and-set, and for a
 blind write retry up to eight times. Other writers may commit anything between a read and its
 compare-and-set, and between a failed attempt and the next read. Both refine the atomic update of the in-memory store.
 */
module Backends {
  import opened Tasks

  /** A stored task with its version: a Redis hash or a SQL row. */
  datatype Cell = Cell(task: Task, version: nat)

  /** The atomic specification of a committed update. */
  function Atomic(c: Cell, u: Update, now: nat): Cell {
    Cell(Merge(c.task, u, now), c.version + 1)
  }

  // ----- Interference -----

  datatype Write = Write(update: Update, now: nat)

  /** What other writers do, one atomic update after the other; rejected ones change nothing. */
  function Interfere(c: Cell, ws: seq<Write>): Cell {
    if ws == [] then c
    else
      var d := Interfere(c, ws[..|ws| - 1]);
      var w := ws[|ws| - 1];
      if Check(d.task, d.version, w.update).Committed? then Atomic(d, w.update, w.now) else d
  }

  /** The cell after the first k stretches of interference. */
  function After(c: Cell, env: seq<seq<Write>>, k: nat): Cell
    requires k <= |env|
  {
    if k == 0 then c else Interfere(After(c, env, k - 1), env[k - 1])
  }

  /** The first attempts were all outrun: others committed between the read and the write of each. */
  ghost predicate Outrun(c: Cell, env: seq<seq<Write>>, tries: nat) {
    2 * tries <= |env| && forall k :: 0 <= k < tries ==> After(c, env, 2 * k).version < After(c, env, 2 * k + 1).version
  }

  /** Versions count commits: an unchanged version means an unchanged cell, and a terminal state stays. */
  lemma {:induction false} InterferenceCounts(c: Cell, ws: seq<Write>)
    ensures c.version <= Interfere(c, ws).version
    ensures Interfere(c, ws).version == c.version ==> Interfere(c, ws) == c
    ensures Terminal(c.task.status.state) ==> Interfere(c, ws).task.status.state == c.task.status.state
  {
    if ws != [] { InterferenceCounts(c, ws[..|ws| - 1]); }
  }

  // ----- The fields a Redis or SQL update sets -----

  /** The JSON metadata column: transitions, last-modified stamp and free-form entries. */
  datatype Meta = Meta(metadata: map<string, string>, log: seq<Transition>, lastModified: nat)

  /** The `values` dictionary: only the fields present in it are written. */
  datatype Values = Values(
    history: Option<seq<Message>>,
    artifacts: Option<seq<Artifact>>,
    meta: Option<Meta>,
    state: Option<TaskState>,
    timestamp: Option<nat>,
    message: Option<Option<Message>>)

  function GetOr<T>(o: Option<T>, d: T): T { if o.Some? then o.value else d }

  function MetaOf(t: Task): Meta { Meta(t.metadata, t.log, t.lastModified) }

  /** Setting the present fields of a hash or row. */
  function SetFields(t: Task, v: Values): Task {
    var m := GetOr(v.meta, MetaOf(t));
    t.(history := GetOr(v.history, t.history),
       artifacts := GetOr(v.artifacts, t.artifacts),
       metadata := m.metadata, log := m.log, lastModified := m.lastModified,
       status := Status(GetOr(v.state, t.status.state), GetOr(v.timestamp, t.status.timestamp),
                        GetOr(v.message, t.status.message)))
  }

  /** The artifact loop of both backends. */
  method MergeArtifacts(existing: seq<Artifact>, writes: seq<ArtifactWrite>) returns (r: seq<Artifact>)
    ensures r == ApplyAll(existing, writes)
  {
    r := existing;
    for n := 0 to |writes|
      invariant r == ApplyAll(existing, writes[..n])
    {
      assert writes[..n + 1][..n] == writes[..n];
      r := ApplyArtifact(r, writes[n]);
    }
    assert writes[..|writes|] == writes;
  }

  /** The metadata document an update leaves. */
  function MergedMeta(t: Task, u: Update, now: nat): Meta {
    var m := Merge(t, u, now);
    Meta(m.metadata, m.log, m.lastModified)
  }

  /** Merged metadata, with a transition record or a last-modified stamp where the status changes. */
  method BuildMeta(read: Task, u: Update, now: nat) returns (m: Option<Meta>)
    ensures GetOr(m, MetaOf(read)) == MergedMeta(read, u, now)
  {
    m := None;
    if u.metadata != map[] {
      m := Some(MetaOf(read).(metadata := read.metadata + u.metadata));
    }
    assert GetOr(m, MetaOf(read)) == MetaOf(read).(metadata := read.metadata + u.metadata) by {
      assert u.metadata == map[] ==> read.metadata + u.metadata == read.metadata;
    }
    if u.state.Some? {
      var d := GetOr(m, MetaOf(read));
      m := Some(d.(log := d.log + [TransitionRecord(u.state.value, now, u.statusMessage)], lastModified := now));
    } else if u.statusMessage.Some? {
      m := Some(GetOr(m, MetaOf(read)).(lastModified := now));
    }
  }

  /** The Python side of both backends: build the dictionary field by field from the row that was read. */
  method BuildValues(read: Task, u: Update, now: nat) returns (v: Values)
    ensures SetFields(read, v) == Merge(read, u, now)
    ensures Applied(read, u, now, SetFields(read, v))
  {
    MergeApplies(read, u, now);
    v := Values(None, None, None, None, None, None);
    if u.messages != [] { v := v.(history := Some(read.history + u.messages)); }
    assert GetOr(v.history, read.history) == read.history + u.messages;
    if u.artifacts != [] {
      var merged := MergeArtifacts(read.artifacts, u.artifacts);
      v := v.(artifacts := Some(merged));
    }
    assert GetOr(v.artifacts, read.artifacts) == ApplyAll(read.artifacts, u.artifacts);
    var meta := BuildMeta(read, u, now);
    v := v.(meta := meta);
    if u.state.Some? {
      v := v.(state := Some(u.state.value), timestamp := Some(now), message := Some(u.statusMessage));
    } else if u.statusMessage.Some? {
      v := v.(message := Some(u.statusMessage), timestamp := Some(now));
    }
  }

  // ----- Redis -----

  /** The Lua script: version check, terminal guard on the current hash, set the given fields, bump the version. */
  function Script(c: Cell, occ: nat, newState: Option<TaskState>, v: Values): (r: (Cell, Outcome)) {
    if c.version != occ then (c, VersionConflict(Some(c.version)))
    else if newState.Some? && Terminal(c.task.status.state) then (c, TerminalTask)
    else (Cell(SetFields(c.task, v), c.version + 1), Committed(c.version + 1))
  }

  const MAX_ATTEMPTS := 8

  /** The write landed as one atomic update of `replaced`, each field as the update means it. */
  ghost predicate Landed(replaced: Cell, u: Update, now: nat, o: Outcome, cell: Cell) {
    && Check(replaced.task, replaced.version, u) == o && cell == Atomic(replaced, u, now)
    && Applied(replaced.task, u, now, cell.task)
    && o == Committed(replaced.version + 1) && cell.version == replaced.version + 1
  }

  /** What one round of Redis does, read at `read` and with `ws` committed before the script: success is one
      atomic update of the very state it replaces (for a pinned version, if that was no future one), failure
      changes nothing, a conflict reports the version, and a blind one means that others committed in between. */
  ghost predicate RedisRound(read: Cell, ws: seq<Write>, u: Update, now: nat, o: Outcome, cell: Cell) {
    var met := Interfere(read, ws);
    && (!o.Committed? ==> cell == met)
    && (o.Committed? && (u.expected.Some? ==> u.expected.value <= read.version) ==> Landed(met, u, now, o, cell))
    && (o.TerminalTask? ==>
          && u.state.Some? && Terminal(met.task.status.state)
          && met.version == if u.expected.Some? then u.expected.value else read.version)
    && (o.VersionConflict? ==>
          && o.current == Some(met.version)
          && if u.expected.Some? then met.version != u.expected.value else read.version < met.version)
    && !o.NotFound?
  }

  /** The same for SQL, where a lost guard means an interfering commit and does not report the version. */
  ghost predicate SqlRound(read: Cell, ws: seq<Write>, u: Update, now: nat, o: Outcome, cell: Cell) {
    var met := Interfere(read, ws);
    && (!o.Committed? ==> cell == met)
    && (o.Committed? ==> Landed(met, u, now, o, cell))
    && (o.TerminalTask? ==>
          && u.state.Some? && Terminal(met.task.status.state)
          && (u.expected.Some? ==> read.version == u.expected.value))
    && (o.VersionConflict? && o.current.Some? ==>
          u.expected.Some? && o.current == Some(read.version) && read.version != u.expected.value)
    && (o == VersionConflict(None) ==>
          read.version < met.version && (u.expected.Some? ==> read.version == u.expected.value))
    && !o.NotFound?
  }

  /** So many rounds have run, each but the last outrun, and what the last one did. */
  ghost predicate RedisTried(c: Cell, env: seq<seq<Write>>, tries: nat, u: Update, now: nat, o: Outcome, cell: Cell) {
    && 1 <= tries && 2 * tries <= |env| && (u.expected.Some? ==> tries == 1)
    && RedisRound(After(c, env, 2 * tries - 2), env[2 * tries - 2], u, now, o, cell)
    && Outrun(c, env, tries - 1)
  }

  lemma RedisOutrun(c: Cell, env: seq<seq<Write>>, tries: nat, u: Update, now: nat, o: Outcome, cell: Cell)
    requires RedisTried(c, env, tries, u, now, o, cell) && o.VersionConflict? && u.expected.None?
    ensures Outrun(c, env, tries) && Interfere(cell, env[2 * tries - 1]) == After(c, env, 2 * tries)
  {
    AfterNext(c, env, 2 * tries - 2);
    AfterNext(c, env, 2 * tries - 1);
  }

  /** So many rounds have run, each but the last outrun. */
  ghost predicate SqlTried(c: Cell, env: seq<seq<Write>>, tries: nat, u: Update, now: nat, o: Outcome, cell: Cell) {
    && 1 <= tries && 2 * tries <= |env| && (u.expected.Some? ==> tries == 1)
    && SqlRound(After(c, env, 2 * tries - 2), env[2 * tries - 2], u, now, o, cell)
    && Outrun(c, env, tries - 1)
  }

  lemma SqlOutrun(c: Cell, env: seq<seq<Write>>, tries: nat, u: Update, now: nat, o: Outcome, cell: Cell)
    requires SqlTried(c, env, tries, u, now, o, cell) && o.VersionConflict? && u.expected.None?
    ensures Outrun(c, env, tries) && Interfere(cell, env[2 * tries - 1]) == After(c, env, 2 * tries)
  {
    AfterNext(c, env, 2 * tries - 2);
    AfterNext(c, env, 2 * tries - 1);
  }

  lemma AfterNext(c: Cell, env: seq<seq<Write>>, k: nat)
    requires k < |env|
    ensures After(c, env, k + 1) == Interfere(After(c, env, k), env[k])
  {
  }

  /** One task's hash or row; `found` is false when there is none. */
  class Store {
    const found: bool
    var cell: Cell

    constructor (c: Option<Cell>, blank: Cell)
      ensures found == c.Some? && cell == GetOr(c, blank)
    {
      found, cell := c.Some?, GetOr(c, blank);
    }

    /** Other writers' commits while this one awaits. */
    method Others(ws: seq<Write>)
      modifies this
      ensures cell == Interfere(old(cell), ws)
    {
      cell := Interfere(cell, ws);
    }

    /** One read-merge-script round of Redis; `ws` is what others commit between the read and the script. */
    method RedisAttempt(u: Update, ws: seq<Write>, now: nat) returns (o: Outcome)
      modifies this
      ensures RedisRound(old(cell), ws, u, now, o, cell)
    {
      var read := cell;
      var occ := if u.expected.Some? then u.expected.value else read.version;
      var values := BuildValues(read.task, u, now);
      Others(ws);
      InterferenceCounts(read, ws);
      var (c, result) := Script(cell, occ, u.state, values);
      cell, o := c, result;
    }

    /** One select-merge-update round of SQL: the version pre-check and the terminal guard run on the selected
        row, the UPDATE is guarded by the selected version, and a lost guard does not report the current version. */
    method SqlAttempt(u: Update, ws: seq<Write>, now: nat) returns (o: Outcome)
      modifies this
      ensures SqlRound(old(cell), ws, u, now, o, cell)
    {
      var row := cell;
      InterferenceCounts(row, ws);
      if u.expected.Some? && row.version != u.expected.value {
        Others(ws);
        return VersionConflict(Some(row.version));
      }
      if u.state.Some? && Terminal(row.task.status.state) {
        Others(ws);
        return TerminalTask;
      }
      var values := BuildValues(row.task, u, now);
      Others(ws);
      if cell.version != row.version { return VersionConflict(None); }
      cell := Cell(SetFields(cell.task, values), row.version + 1);
      o := Committed(row.version + 1);
    }

    /** `env[2 * k]` is what others commit between the read and the script of attempt k, `env[2 * k + 1]` what
        they commit before the next read. */
    method RedisUpdate(u: Update, env: seq<seq<Write>>, now: nat) returns (o: Outcome, tries: nat)
      requires |env| == 2 * MAX_ATTEMPTS
      modifies this
      ensures !found ==> o == NotFound && tries == 0 && cell == old(cell)
      // Each round but the last was outrun, the last ran on the task as others had left it,
      ensures found ==> tries <= MAX_ATTEMPTS && RedisTried(old(cell), env, tries, u, now, o, cell)
      // and a blind write gives up only when all of them were outrun.
      ensures o.VersionConflict? && u.expected.None? ==> tries == MAX_ATTEMPTS && Outrun(old(cell), env, MAX_ATTEMPTS)
    {
      if !found { return NotFound, 0; }
      tries := 1;
      o := RedisAttempt(u, env[0], now);
      while o.VersionConflict? && u.expected.None? && tries < MAX_ATTEMPTS
        invariant RedisTried(old(cell), env, tries, u, now, o, cell)
        decreases MAX_ATTEMPTS - tries
      {
        RedisOutrun(old(cell), env, tries, u, now, o, cell);
        Others(env[2 * tries - 1]);
        o := RedisAttempt(u, env[2 * tries], now);
        tries := tries + 1;
      }
      if o.VersionConflict? && u.expected.None? { RedisOutrun(old(cell), env, tries, u, now, o, cell); }
    }

    method SqlUpdate(u: Update, env: seq<seq<Write>>, now: nat) returns (o: Outcome, tries: nat)
      requires |env| == 2 * MAX_ATTEMPTS
      modifies this
      ensures !found ==> o == NotFound && tries == 0 && cell == old(cell)
      ensures found ==> tries <= MAX_ATTEMPTS && SqlTried(old(cell), env, tries, u, now, o, cell)
      ensures o.VersionConflict? && u.expected.None? ==> tries == MAX_ATTEMPTS && Outrun(old(cell), env, MAX_ATTEMPTS)
    {
      if !found { return NotFound, 0; }
      tries := 1;
      o := SqlAttempt(u, env[0], now);
      while o.VersionConflict? && u.expected.None? && tries < MAX_ATTEMPTS
        invariant SqlTried(old(cell), env, tries, u, now, o, cell)
        decreases MAX_ATTEMPTS - tries
      {
        SqlOutrun(old(cell), env, tries, u, now, o, cell);
        Others(env[2 * tries - 1]);
        o := SqlAttempt(u, env[2 * tries], now);
        tries := tries + 1;
      }
      if o.VersionConflict? && u.expected.None? { SqlOutrun(old(cell), env, tries, u, now, o, cell); }
    }
  }

  // ----- The one gap in the Redis script -----

  /** The values a Redis attempt computes, as a function of what it read. */
  ghost predicate MergedFrom(read: Task, u: Update, now: nat, v: Values) {
    SetFields(read, v) == Merge(read, u, now)
  }

  /** A pinned Redis write compares with the caller's version and not with the version it read. It
      merges onto a stale read exactly when the caller pins a version that was still in the future
      at the read and came true before the script ran. */
  lemma StalePinnedWrite(read: Cell, ws: seq<Write>, u: Update, v: Values)
    requires u.expected.Some?
    ensures var now' := Interfere(read, ws);
            Script(now', u.expected.value, u.state, v).1.Committed? && now' != read <==>
              && read.version < u.expected.value == now'.version
              && !(u.state.Some? && Terminal(now'.task.status.state))
  {
    InterferenceCounts(read, ws);
  }

  /** Such a write loses the interfering commit: here another writer's message disappears. */
  lemma FuturePinLosesAWrite()
    ensures exists read: Cell, ws, u: Update, v, now ::
              && u.expected.Some? && MergedFrom(read.task, u, now, v)
              && var c := Interfere(read, ws);
                 && Script(c, u.expected.value, u.state, v).1.Committed?
                 && Script(c, u.expected.value, u.state, v).0 != Atomic(c, u, now)
  {
    var nothing := Update(None, None, [], [], map[], None);
    var mine := Message(Client("mine"), User, "", []);
    var theirs := Message(Client("theirs"), User, "", []);
    var t := NewTask("t", "c", Message(Client("first"), User, "", []), "", 0);
    var read := Cell(t, 1);
    var ws := [Write(nothing.(messages := [theirs]), 0)];
    var u := nothing.(messages := [mine], expected := Some(2));
    var v := Values(Some(t.history + [mine]), None, None, None, None, None);
    assert ws[..0] == [];
    var c := Interfere(read, ws);
    assert c == Atomic(read, ws[0].update, 0) by { assert Interfere(read, ws[..0]) == read; }
    assert t.metadata + map[] == t.metadata;
    assert MergedFrom(read.task, u, 0, v);
    assert |Script(c, 2, None, v).0.task.history| == 2;
    assert |Atomic(c, u, 0).task.history| == 3;
  }
}
