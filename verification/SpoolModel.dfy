// The data of dashboard/event_spool.py: the source ledger, checkpoints, batch directories and
// the spool root, with the checks that are plain expressions in the source.
//
// A digest is a free constructor: two contents have the same SHA-256 only if they are equal.

module SpoolModel {
  import opened Prelude
  import opened CanonicalJson

  const VERSION := "1.0.0"
  const MAX_EVENT_BYTES := 262144
  const MAX_BATCH_BYTES := 20971520
  const MAX_BATCH_EVENTS := 1000

  /** The text of a digest field: a hash, some other 64 hexadecimal digits, or anything else. */
  datatype Digest = Sha256(content: string) | OtherHex(digits: nat) | NotHex

  // ---------------------------------------------------------------- the source ledger

  /** A stored payload: text that does not load, or a document with its stored size and whether
      it satisfies the event schema and is already redacted. */
  datatype Payload = Unreadable | Document(event: Json, bytes: nat, conforms: bool)

  /** A row of the `events` table, with its rowid. */
  datatype Row = Row(cursor: nat, eventId: string, exerciseId: string, runId: string,
                     sequence: int, visibility: string, payload: Payload)

  /** Rowids are positive and a query returns them in increasing order. */
  predicate Ordered(rows: seq<Row>)
  {
    && (forall i :: 0 <= i < |rows| ==> rows[i].cursor > 0)
    && (forall i, j :: 0 <= i < j < |rows| ==> rows[i].cursor < rows[j].cursor)
  }

  /** `WHERE exercise_id = ? ORDER BY rowid` */
  function ForExercise(source: seq<Row>, exercise: string): seq<Row>
  {
    if source == [] then [] else
    var rest, last := ForExercise(source[..|source| - 1], exercise), source[|source| - 1];
    if last.exerciseId == exercise then rest + [last] else rest
  }

  /** `SELECT COUNT(*) … WHERE exercise_id = ? AND rowid > ?` */
  function RowsAfter(source: seq<Row>, exercise: string, cursor: int): nat
  {
    if source == [] then 0 else
    var last := source[|source| - 1];
    RowsAfter(source[..|source| - 1], exercise, cursor)
    + if last.exerciseId == exercise && last.cursor > cursor then 1 else 0
  }

  /** `first` is the rowid of the exercise's first row behind `cursor`. */
  ghost predicate IsNextRow(source: seq<Row>, exercise: string, cursor: int, first: int)
  {
    && (exists r :: r in source && r.exerciseId == exercise && r.cursor == first > cursor)
    && forall r :: r in source && r.exerciseId == exercise && r.cursor > cursor ==> r.cursor >= first
  }

  function Lookup(members: Members, key: string): Option<Json>
  {
    match members
    case NoMembers => None
    case Member(k, v, rest) => if k == key then Some(v) else Lookup(rest, key)
  }

  /** The indexed columns repeat what the payload says. */
  predicate IndexMatches(row: Row)
  {
    && row.payload.Document? && row.payload.event.Obj?
    && var members := row.payload.event.members;
    && Lookup(members, "event_id") == Some(Str(row.eventId))
    && Lookup(members, "exercise_id") == Some(Str(row.exerciseId))
    && Lookup(members, "run_id") == Some(Str(row.runId))
    && Lookup(members, "sequence") == Some(Num(row.sequence))
    && Lookup(members, "visibility") == Some(Str(row.visibility))
  }

  function EventOf(row: Row): Json
  {
    match row.payload
    case Unreadable => Null
    case Document(event, _, _) => event
  }

  /** The `{"cursor": …, "event": …}` record that the prefix digest covers. */
  function EntryOf(row: Row): Json
  {
    Obj(Member("cursor", Num(row.cursor), Member("event", EventOf(row), NoMembers)))
  }

  function Events(rows: seq<Row>): (events: seq<Json>)
    ensures |events| == |rows|
  {
    seq(|rows|, i requires 0 <= i < |rows| => EventOf(rows[i]))
  }

  function Entries(rows: seq<Row>): (entries: seq<Json>)
    ensures |entries| == |rows|
  {
    seq(|rows|, i requires 0 <= i < |rows| => EntryOf(rows[i]))
  }

  /** How many of these rows belong to a run: the last sequence number the run has used. */
  function RunCount(rows: seq<Row>, run: string): nat
  {
    if rows == [] then 0 else
    var last := |rows| - 1;
    RunCount(rows[..last], run) + if rows[last].runId == run then 1 else 0
  }

  /** What `_event` accepts for one row, whatever came before it. */
  predicate Admissible(row: Row)
  {
    && row.payload.Document?
    && row.payload.bytes <= MAX_EVENT_BYTES
    && row.payload.conforms
    && IndexMatches(row)
    && |Line(EventOf(row))| <= MAX_EVENT_BYTES
  }

  /** Row `i` is admissible and continues its run without a gap. */
  predicate RowOk(rows: seq<Row>, i: nat)
    requires i < |rows|
  {
    && Admissible(rows[i])
    && rows[i].sequence == RunCount(rows[..i], rows[i].runId) + 1
  }

  /** The bytes of a batch holding rows `a` up to `b`. */
  function Content(rows: seq<Row>, a: nat, b: nat): string
    requires a <= b <= |rows|
  {
    Lines(Events(rows[a..b]))
  }

  // ---------------------------------------------------------------- checkpoints

  datatype Checkpoint = Checkpoint(version: string, exerciseId: string, cursor: int,
                                   eventCount: int, prefix: Digest)

  function Start(exercise: string): Checkpoint
  {
    Checkpoint(VERSION, exercise, 0, 0, Sha256(""))
  }

  function CursorAt(rows: seq<Row>, n: nat): nat
    requires n <= |rows|
  {
    if n == 0 then 0 else rows[n - 1].cursor
  }

  /** The checkpoint after the first `n` rows of an exercise. */
  function StateAt(exercise: string, rows: seq<Row>, n: nat): Checkpoint
    requires n <= |rows|
  {
    Checkpoint(VERSION, exercise, CursorAt(rows, n), n, Sha256(Lines(Entries(rows[..n]))))
  }

  /** `_check_state` */
  predicate CheckState(c: Checkpoint, exercise: string)
  {
    && c.version == VERSION
    && c.exerciseId == exercise
    && c.cursor >= 0 && c.eventCount >= 0
    && c.eventCount <= c.cursor
    && !c.prefix.NotHex?
    && (c.eventCount == 0 ==> c == Start(exercise))
  }

  // ---------------------------------------------------------------- the spool on disk

  datatype Manifest = Manifest(version: string, exerciseId: string, previous: Checkpoint,
                               next: Checkpoint, firstCursor: int, eventCount: int,
                               bytes: int, digest: Digest)

  /** A JSON file: missing, not readable as the record it should hold, or readable. */
  datatype File<T> = Absent | Damaged | Readable(content: T)

  datatype BatchDir = BatchDir(manifest: File<Manifest>, events: Option<string>, extra: bool)

  /** The numbers in `batch-<first>-<last>`; twenty zero-padded digits sort as numbers do. */
  datatype Name = Name(first: int, last: int)

  predicate Before(a: Name, b: Name)
  {
    a.first < b.first || (a.first == b.first && a.last < b.last)
  }

  /** The spool root. `stages` are `.pending-…` directories, `heads` are `.head-…` files, `nextId`
      names the next of them, and `foreign` says that something unrecognized is present. */
  datatype Spool = Spool(head: File<Checkpoint>, locked: bool, batches: map<Name, BatchDir>,
                         stages: map<nat, BatchDir>, heads: map<nat, File<Checkpoint>>,
                         nextId: nat, foreign: bool)

  const EMPTY_SPOOL := Spool(Absent, false, map[], map[], map[], 0, false)

  /** `_batch`: one committed directory against the checkpoint it must follow. */
  function CheckBatch(name: Name, dir: BatchDir, exercise: string, previous: Checkpoint): Result<Manifest>
  {
    if !dir.manifest.Readable? || dir.events.None? || dir.extra then Refused else
    var m, content := dir.manifest.content, dir.events.value;
    if |content| > MAX_BATCH_BYTES then Refused
    else if !CheckState(m.next, exercise) || !CheckState(m.previous, exercise) then Refused
    else if m.version != VERSION || m.exerciseId != exercise || m.previous != previous then Refused
    else if !(previous.cursor < m.firstCursor <= m.next.cursor) then Refused
    else if !(1 <= m.eventCount <= MAX_BATCH_EVENTS) then Refused
    else if m.next.eventCount != previous.eventCount + m.eventCount then Refused
    else if name.first != m.firstCursor || name.last != m.next.cursor then Refused
    else if m.bytes != |content| then Refused
    else if content == "" || content[|content| - 1] != '\n' then Refused
    else if LineCount(content) != m.eventCount then Refused
    else if Sha256(content) != m.digest then Refused
    else Ok(m)
  }

  // ---------------------------------------------------------------- facts about rows

  lemma {:induction false} CursorGrows(rows: seq<Row>, n: nat)
    requires Ordered(rows) && n <= |rows|
    ensures CursorAt(rows, n) >= n
  {
    if n > 0 {
      CursorGrows(rows, n - 1);
    }
  }

  lemma StartIsStateAtZero(exercise: string, rows: seq<Row>)
    ensures StateAt(exercise, rows, 0) == Start(exercise)
  {
    assert Entries(rows[..0]) == [];
  }

  /** Every checkpoint the publisher writes passes `_check_state`. */
  lemma StateAtIsValid(exercise: string, rows: seq<Row>, n: nat)
    requires Ordered(rows) && n <= |rows|
    ensures CheckState(StateAt(exercise, rows, n), exercise)
  {
    CursorGrows(rows, n);
    StartIsStateAtZero(exercise, rows);
  }

  /** Appending to the ledger changes no earlier checkpoint and no earlier batch. */
  lemma PrefixStable(exercise: string, rows: seq<Row>, more: seq<Row>, n: nat)
    requires n <= |rows|
    ensures StateAt(exercise, rows + more, n) == StateAt(exercise, rows, n)
    ensures forall a: nat :: a <= n ==> Content(rows + more, a, n) == Content(rows, a, n)
  {
    assert (rows + more)[..n] == rows[..n];
    forall a: nat | a <= n
      ensures Content(rows + more, a, n) == Content(rows, a, n)
    {
      assert (rows + more)[a..n] == rows[a..n];
    }
  }

  lemma ContentExtends(rows: seq<Row>, a: nat, b: nat, c: nat)
    requires a <= b <= c <= |rows|
    ensures Content(rows, a, b) + Content(rows, b, c) == Content(rows, a, c)
  {
    assert Events(rows[a..b]) + Events(rows[b..c]) == Events(rows[a..c]);
    LinesConcat(Events(rows[a..b]), Events(rows[b..c]));
  }

  lemma ContentOfNone(rows: seq<Row>, a: nat)
    requires a <= |rows|
    ensures Content(rows, a, a) == ""
  {
    assert Events(rows[a..a]) == [];
  }

  lemma ContentOfOne(rows: seq<Row>, a: nat)
    requires a < |rows|
    ensures Content(rows, a, a + 1) == Line(EventOf(rows[a]))
  {
    var es := Events(rows[a..a + 1]);
    assert es == [EventOf(rows[a])] && es[..0] == [];
    assert Lines(es) == Lines([]) + Line(EventOf(rows[a]));
  }

  /** Checkpoints with equal digests come from histories with equal rowids and equal events. */
  lemma StateDeterminesHistory(exercise: string, rows: seq<Row>, other: seq<Row>, n: nat, m: nat)
    requires n <= |rows| && m <= |other|
    requires StateAt(exercise, rows, n) == StateAt(exercise, other, m)
    ensures n == m
    ensures forall i :: 0 <= i < n ==> rows[i].cursor == other[i].cursor && EventOf(rows[i]) == EventOf(other[i])
  {
    LinesInjective(Entries(rows[..n]), Entries(other[..m]));
    forall i | 0 <= i < n
      ensures rows[i].cursor == other[i].cursor && EventOf(rows[i]) == EventOf(other[i])
    {
      assert EntryOf(rows[..n][i]) == Entries(rows[..n])[i] == Entries(other[..m])[i] == EntryOf(other[..m][i]);
    }
  }

  lemma {:induction false} ForExerciseOrdered(source: seq<Row>, exercise: string)
    requires Ordered(source)
    ensures Ordered(ForExercise(source, exercise))
    ensures forall r :: r in ForExercise(source, exercise) ==> r in source && r.exerciseId == exercise
  {
    if source != [] {
      ForExerciseOrdered(source[..|source| - 1], exercise);
    }
  }

  lemma {:induction false} ForExerciseHasAll(source: seq<Row>, exercise: string)
    ensures forall r :: r in ForExercise(source, exercise) <==> r in source && r.exerciseId == exercise
  {
    if source != [] {
      ForExerciseHasAll(source[..|source| - 1], exercise);
      assert source == source[..|source| - 1] + [source[|source| - 1]];
    }
  }

  lemma {:induction false} NoneAfterIff(source: seq<Row>, exercise: string, cursor: int)
    ensures RowsAfter(source, exercise, cursor) == 0
            <==> forall r :: r in source && r.exerciseId == exercise ==> r.cursor <= cursor
  {
    if source != [] {
      NoneAfterIff(source[..|source| - 1], exercise, cursor);
      assert source == source[..|source| - 1] + [source[|source| - 1]];
    }
  }

  /** Counting the raw source behind a row of the exercise counts the rows that follow it. */
  lemma {:induction false} RowsAfterIs(source: seq<Row>, exercise: string, n: nat)
    requires Ordered(source) && n <= |ForExercise(source, exercise)|
    ensures var rows := ForExercise(source, exercise);
            RowsAfter(source, exercise, CursorAt(rows, n)) == |rows| - n
  {
    if source != [] {
      var init, last := source[..|source| - 1], source[|source| - 1];
      var rows := ForExercise(init, exercise);
      if n <= |rows| {
        RowsAfterIs(init, exercise, n);
        ForExerciseHasAll(init, exercise);
        assert n > 0 ==> rows[n - 1] in init;
      } else {
        NoneAfterIff(init, exercise, last.cursor);
      }
    }
  }

  /** The event's own field repeats the column. */
  predicate Repeats(row: Row, field: string, value: Json)
  {
    row.payload.Document? && row.payload.event.Obj? && Lookup(row.payload.event.members, field) == Some(value)
  }

  /** Which of the first `n` rows belong to a run. */
  ghost function OfRun(rows: seq<Row>, n: nat, run: string): set<int>
    requires n <= |rows|
  {
    set k | 0 <= k < n && rows[k].runId == run
  }

  lemma OfRunMore(rows: seq<Row>, n: nat, run: string)
    requires n < |rows|
    ensures OfRun(rows, n + 1, run) == OfRun(rows, n, run) + (if rows[n].runId == run then {n as int} else {})
    ensures n as int !in OfRun(rows, n, run)
  {
  }

  lemma {:induction false} RunCountIs(rows: seq<Row>, n: nat, run: string)
    requires n <= |rows|
    ensures RunCount(rows[..n], run) == |OfRun(rows, n, run)|
  {
    hide OfRun;
    if n == 0 {
      assert OfRun(rows, 0, run) == {} by { NoneOfRun(rows, run); }
    } else {
      assert rows[..n][..n - 1] == rows[..n - 1] && rows[..n][n - 1] == rows[n - 1];
      RunCountIs(rows, n - 1, run);
      OfRunMore(rows, n - 1, run);
    }
  }

  lemma NoneOfRun(rows: seq<Row>, run: string)
    ensures OfRun(rows, 0, run) == {}
  {
  }

  /** A row is taken exactly if its event can be read, conforms, repeats all five columns, is small enough as
      it is stored and as it is written, and has the next number of its run. */
  lemma {:induction false} RowIsTakenIff(rows: seq<Row>, i: nat)
    requires i < |rows|
    ensures var r := rows[i];
            RowOk(rows, i)
            <==> && r.payload.Document? && r.payload.conforms && r.payload.bytes <= 262144
                 && |Line(r.payload.event)| <= 262144
                 && Repeats(r, "event_id", Str(r.eventId)) && Repeats(r, "exercise_id", Str(r.exerciseId))
                 && Repeats(r, "run_id", Str(r.runId)) && Repeats(r, "sequence", Num(r.sequence))
                 && Repeats(r, "visibility", Str(r.visibility))
                 && r.sequence == |OfRun(rows, i, r.runId)| + 1
  {
    hide Line, Lookup, OfRun, RunCount;
    RunCountIs(rows, i, rows[i].runId);
  }
}
