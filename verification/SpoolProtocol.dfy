// Publication as a protocol over disk steps (`export`, `_head`, `_publish`): a publisher that may
// die between any two of them, a source that keeps growing, and what is true in every state.

module SpoolProtocol {
  import opened Prelude
  import opened CanonicalJson
  import opened SpoolModel
  import opened SpoolChain
  import opened SpoolTheorems

  // ---------------------------------------------------------------- the publisher's steps

  /** The batch the publisher has selected and not yet committed. */
  datatype NewBatch = NewBatch(previous: Checkpoint, following: Checkpoint, first: int, content: string)

  /** Where a publisher is in `export`. Everything it knows is here, so a crash forgets it all. */
  datatype Phase =
    | Idle
    | Locked
    | HeadWrite(target: Checkpoint, next: Option<NewBatch>)
    | HeadReplace(id: nat, target: Checkpoint, next: Option<NewBatch>)
    | StageMake(batch: NewBatch)
    | StageEvents(id: nat, batch: NewBatch)
    | StageManifest(id: nat, batch: NewBatch)
    | StageRename(id: nat, batch: NewBatch)

  function ManifestOf(exercise: string, b: NewBatch): Manifest
  {
    Manifest(VERSION, exercise, b.previous, b.following, b.first,
             b.following.eventCount - b.previous.eventCount, |b.content|, Sha256(b.content))
  }

  function AfterHead(next: Option<NewBatch>): Phase
  {
    if next.Some? then StageMake(next.value) else Idle
  }

  /** What to write once the lock is held and the inspection succeeded: repair HEAD if it is missing
      or behind, then publish the selection if there is one. */
  function Decide(head: File<Checkpoint>, found: Inspection, selected: Selection): Phase
  {
    var next := if selected.content != ""
                then Some(NewBatch(found.previous, selected.next, selected.first, selected.content)) else None;
    if !found.initialized || head != Readable(found.previous) then HeadWrite(found.previous, next) else AfterHead(next)
  }

  /** Inspect disk and source under the lock. */
  function Plan(spool: Spool, exercise: string, rows: seq<Row>, limit: nat): Phase
  {
    match Inspect(Some(spool), exercise)
    case Refused => Idle
    case Ok(found) =>
      match Select(exercise, rows, found.previous, limit, found.manifests)
      case Refused => Idle
      case Ok(selected) => Decide(spool.head, found, selected)
  }

  /** The next write, on disk and in the publisher. */
  function Write(spool: Spool, exercise: string, phase: Phase): (Spool, Phase)
  {
    match phase
    case Idle => (spool, Idle)
    case Locked => (spool, Idle)
    case HeadWrite(target, next) =>
      (spool.(heads := spool.heads[spool.nextId := Readable(target)], nextId := spool.nextId + 1),
       HeadReplace(spool.nextId, target, next))
    case HeadReplace(id, target, next) =>
      if id !in spool.heads then (spool, Idle)
      else (spool.(head := spool.heads[id], heads := spool.heads - {id}), AfterHead(next))
    case StageMake(b) =>
      (spool.(stages := spool.stages[spool.nextId := BatchDir(Absent, None, false)], nextId := spool.nextId + 1),
       StageEvents(spool.nextId, b))
    case StageEvents(id, b) =>
      if id !in spool.stages then (spool, Idle)
      else (spool.(stages := spool.stages[id := spool.stages[id].(events := Some(b.content))]), StageManifest(id, b))
    case StageManifest(id, b) =>
      if id !in spool.stages then (spool, Idle)
      else (spool.(stages := spool.stages[id := spool.stages[id].(manifest := Readable(ManifestOf(exercise, b)))]),
            StageRename(id, b))
    case StageRename(id, b) =>
      var name := Name(b.first, b.following.cursor);
      if id !in spool.stages || name in spool.batches then (spool, Idle)
      else (spool.(batches := spool.batches[name := spool.stages[id]], stages := spool.stages - {id}),
            HeadWrite(b.following, None))
  }

  /** A write interrupted half-way: part of a private file reaches the disk and the publisher dies. */
  function TornWrite(spool: Spool, phase: Phase, kept: nat): Spool
  {
    match phase
    case HeadWrite(_, _) => spool.(heads := spool.heads[spool.nextId := Damaged], nextId := spool.nextId + 1)
    case StageEvents(id, b) =>
      if id !in spool.stages || kept > |b.content| then spool
      else spool.(stages := spool.stages[id := spool.stages[id].(events := Some(b.content[..kept]))])
    case StageManifest(id, b) =>
      if id !in spool.stages then spool
      else spool.(stages := spool.stages[id := spool.stages[id].(manifest := Damaged)])
    case _ => spool
  }

  // ---------------------------------------------------------------- the system

  /** The source ledger of every exercise, the spool of one, and the one publisher holding its lock. */
  datatype System = System(source: seq<Row>, root: Option<Spool>, phase: Phase)

  datatype Step =
    | Append(row: Row)
    | MakeRoot
    | TakeLock
    | LookOver(limit: nat)
    | DiskWrite
    | Crash
    | Torn(kept: nat)

  function Rows(s: System, exercise: string): seq<Row>
  {
    ForExercise(s.source, exercise)
  }

  predicate Enabled(s: System, step: Step)
  {
    match step
    case Append(row) => row.cursor > CursorAt(s.source, |s.source|)
    case MakeRoot => s.root.None?
    case TakeLock => s.root.Some? && s.phase.Idle?
    case LookOver(limit) => s.root.Some? && s.phase.Locked? && 1 <= limit <= MAX_BATCH_EVENTS
    case DiskWrite => s.root.Some? && !s.phase.Idle? && !s.phase.Locked?
    case Crash => true
    case Torn(_) => s.root.Some?
  }

  function Next(s: System, exercise: string, step: Step): System
    requires Enabled(s, step)
  {
    match step
    case Append(row) => s.(source := s.source + [row])
    case MakeRoot => s.(root := Some(EMPTY_SPOOL))
    case TakeLock => s.(root := Some(s.root.value.(locked := true)), phase := Locked)
    case LookOver(limit) => s.(phase := Plan(s.root.value, exercise, Rows(s, exercise), limit))
    case DiskWrite =>
      var written := Write(s.root.value, exercise, s.phase);
      s.(root := Some(written.0), phase := written.1)
    case Crash => s.(phase := Idle)
    case Torn(kept) => s.(root := Some(TornWrite(s.root.value, s.phase, kept)), phase := Idle)
  }

  /** A run from an empty directory that is not there yet, with any interleaving of steps. */
  ghost predicate Run(exercise: string, states: seq<System>, steps: seq<Step>)
  {
    && |states| == |steps| + 1
    && states[0] == System([], None, Idle)
    && forall i :: 0 <= i < |steps| ==>
         Enabled(states[i], steps[i]) && states[i + 1] == Next(states[i], exercise, steps[i])
  }

  // ---------------------------------------------------------------- the invariant

  /** The selected batch is the next piece of the source. */
  ghost predicate BatchOk(exercise: string, rows: seq<Row>, pieces: seq<Piece>, b: NewBatch)
  {
    var start, stop := Reached(pieces), b.following.eventCount;
    && start < stop <= |rows|
    && PieceOk(rows, Piece(start, stop, b.first))
    && b == NewBatch(StateAt(exercise, rows, start), StateAt(exercise, rows, stop), b.first, Content(rows, start, stop))
  }

  ghost predicate HeadAt(spool: Spool, exercise: string, rows: seq<Row>, n: nat)
  {
    n <= |rows| && spool.head == Readable(StateAt(exercise, rows, n))
  }

  /** HEAD is the end of the chain, exactly one batch behind it, or not written yet. */
  ghost predicate HeadOk(spool: Spool, exercise: string, rows: seq<Row>, pieces: seq<Piece>)
  {
    || HeadAt(spool, exercise, rows, Reached(pieces))
    || (pieces != [] && HeadAt(spool, exercise, rows, pieces[|pieces| - 1].start))
    || (pieces == [] && spool.head.Absent? && spool.stages == map[])
  }

  /** What the publisher believes is true of the disk. */
  ghost predicate PhaseOk(spool: Spool, exercise: string, rows: seq<Row>, pieces: seq<Piece>, phase: Phase)
  {
    var end := Reached(pieces);
    match phase
    case Idle => true
    case Locked => true
    case HeadWrite(target, next) =>
      && end <= |rows| && target == StateAt(exercise, rows, end)
      && (next.Some? ==> BatchOk(exercise, rows, pieces, next.value))
    case HeadReplace(id, target, next) =>
      && end <= |rows| && target == StateAt(exercise, rows, end)
      && (next.Some? ==> BatchOk(exercise, rows, pieces, next.value))
      && id in spool.heads && spool.heads[id] == Readable(target)
    case StageMake(b) => HeadAt(spool, exercise, rows, end) && BatchOk(exercise, rows, pieces, b)
    case StageEvents(id, b) =>
      && HeadAt(spool, exercise, rows, end) && BatchOk(exercise, rows, pieces, b)
      && id in spool.stages && spool.stages[id] == BatchDir(Absent, None, false)
    case StageManifest(id, b) =>
      && HeadAt(spool, exercise, rows, end) && BatchOk(exercise, rows, pieces, b)
      && id in spool.stages && spool.stages[id] == BatchDir(Absent, Some(b.content), false)
    case StageRename(id, b) =>
      && HeadAt(spool, exercise, rows, end) && BatchOk(exercise, rows, pieces, b)
      && id in spool.stages && spool.stages[id] == BatchDir(Readable(ManifestOf(exercise, b)), Some(b.content), false)
  }

  ghost predicate SpoolOk(spool: Spool, exercise: string, rows: seq<Row>, pieces: seq<Piece>)
  {
    && !spool.foreign
    && Holds(spool.batches, exercise, rows, pieces)
    && HeadOk(spool, exercise, rows, pieces)
  }

  ghost predicate Good(s: System, exercise: string, pieces: seq<Piece>)
  {
    && Ordered(s.source)
    && if s.root.None? then s.phase.Idle? && pieces == [] else
       && SpoolOk(s.root.value, exercise, Rows(s, exercise), pieces)
       && PhaseOk(s.root.value, exercise, Rows(s, exercise), pieces, s.phase)
  }

  // ---------------------------------------------------------------- the source grows

  lemma ForExerciseGrows(source: seq<Row>, exercise: string, row: Row)
    ensures ForExercise(source + [row], exercise)
            == ForExercise(source, exercise) + (if row.exerciseId == exercise then [row] else [])
  {
    assert (source + [row])[..|source|] == source;
  }

  lemma {:induction false} RowsStayOk(rows: seq<Row>, more: seq<Row>)
    ensures forall i :: 0 <= i < |rows| ==> (RowOk(rows + more, i) <==> RowOk(rows, i))
  {
    forall i | 0 <= i < |rows| ensures RowOk(rows + more, i) <==> RowOk(rows, i) {
      assert (rows + more)[..i] == rows[..i];
    }
  }

  /** A piece of the ledger is the same piece of the longer ledger. */
  lemma PieceGrows(exercise: string, rows: seq<Row>, more: seq<Row>, p: Piece)
    requires PieceOk(rows, p)
    ensures PieceOk(rows + more, p)
    ensures NameFor(rows + more, p) == NameFor(rows, p)
    ensures DirFor(exercise, rows + more, p) == DirFor(exercise, rows, p)
    ensures StateAt(exercise, rows + more, p.start) == StateAt(exercise, rows, p.start)
    ensures StateAt(exercise, rows + more, p.stop) == StateAt(exercise, rows, p.stop)
    ensures Content(rows + more, p.start, p.stop) == Content(rows, p.start, p.stop)
  {
    hide Lines, Admissible, Events, Entries;
    PrefixStable(exercise, rows, more, p.start);
    PrefixStable(exercise, rows, more, p.stop);
    RowsStayOk(rows, more);
  }

  lemma HoldsGrows(batches: map<Name, BatchDir>, exercise: string, rows: seq<Row>, more: seq<Row>, pieces: seq<Piece>)
    requires Holds(batches, exercise, rows, pieces)
    ensures Holds(batches, exercise, rows + more, pieces)
  {
    hide PieceOk, NameFor, DirFor, StateAt;
    forall k | 0 <= k < |pieces|
      ensures PieceOk(rows + more, pieces[k]) && NameFor(rows + more, pieces[k]) == NameFor(rows, pieces[k])
      ensures DirFor(exercise, rows + more, pieces[k]) == DirFor(exercise, rows, pieces[k])
    {
      PieceGrows(exercise, rows, more, pieces[k]);
    }
  }

  lemma HeadGrows(spool: Spool, exercise: string, rows: seq<Row>, more: seq<Row>, n: nat)
    requires HeadAt(spool, exercise, rows, n)
    ensures HeadAt(spool, exercise, rows + more, n)
  {
    hide Lines, Content;
    PrefixStable(exercise, rows, more, n);
  }

  lemma BatchGrows(exercise: string, rows: seq<Row>, more: seq<Row>, pieces: seq<Piece>, b: NewBatch)
    requires BatchOk(exercise, rows, pieces, b)
    ensures BatchOk(exercise, rows + more, pieces, b)
  {
    hide PieceOk, Content, StateAt, NameFor, DirFor;
    PieceGrows(exercise, rows, more, Piece(Reached(pieces), b.following.eventCount, b.first));
  }

  lemma HeadOkGrows(spool: Spool, exercise: string, rows: seq<Row>, more: seq<Row>, pieces: seq<Piece>)
    requires HeadOk(spool, exercise, rows, pieces)
    ensures HeadOk(spool, exercise, rows + more, pieces)
  {
    hide HeadAt;
    if HeadAt(spool, exercise, rows, Reached(pieces)) {
      HeadGrows(spool, exercise, rows, more, Reached(pieces));
    } else if pieces != [] {
      HeadGrows(spool, exercise, rows, more, pieces[|pieces| - 1].start);
    }
  }

  /** Rows that arrive while a publisher is at work change nothing it relies on. */
  lemma AppendKeeps(spool: Spool, exercise: string, rows: seq<Row>, more: seq<Row>, pieces: seq<Piece>, phase: Phase)
    requires SpoolOk(spool, exercise, rows, pieces) && PhaseOk(spool, exercise, rows, pieces, phase)
    ensures SpoolOk(spool, exercise, rows + more, pieces) && PhaseOk(spool, exercise, rows + more, pieces, phase)
  {
    hide Content, Holds, HeadOk, BatchOk, Lines, ManifestOf;
    HoldsGrows(spool.batches, exercise, rows, more, pieces);
    HeadOkGrows(spool, exercise, rows, more, pieces);
    var end := Reached(pieces);
    if end <= |rows| {
      PrefixStable(exercise, rows, more, end);
    }
    match phase
    case HeadWrite(_, next) => if next.Some? { BatchGrows(exercise, rows, more, pieces, next.value); }
    case HeadReplace(_, _, next) => if next.Some? { BatchGrows(exercise, rows, more, pieces, next.value); }
    case StageMake(b) => BatchGrows(exercise, rows, more, pieces, b);
    case StageEvents(_, b) => BatchGrows(exercise, rows, more, pieces, b);
    case StageManifest(_, b) => BatchGrows(exercise, rows, more, pieces, b);
    case StageRename(_, b) => BatchGrows(exercise, rows, more, pieces, b);
    case _ =>
  }

  // ---------------------------------------------------------------- inspection

  /** HEAD at the end of the chain or one batch behind is a checkpoint of the chain. */
  lemma HeadOkIsOn(spool: Spool, exercise: string, rows: seq<Row>, pieces: seq<Piece>)
    requires Cuts(rows, pieces) && HeadOk(spool, exercise, rows, pieces) && !spool.head.Absent?
    ensures spool.head.Readable? && HeadOn(spool.head.content, exercise, rows, pieces)
  {
    hide Lines, PieceOk, StateAt;
    StartIsStateAtZero(exercise, rows);
    var last := |pieces| - 1;
    if pieces != [] && !HeadAt(spool, exercise, rows, Reached(pieces)) && last > 0 {
      assert pieces[..last][last - 1] == pieces[last - 1];
      assert pieces[last].start == pieces[last - 1].stop;
    }
  }

  /** Whatever is on disk, inspection is not refused for what was published: only an invalid new row
      can refuse it. It finds the end of the chain and selects the rows after it. */
  lemma PlanFinds(spool: Spool, exercise: string, rows: seq<Row>, pieces: seq<Piece>, limit: nat)
    requires Ordered(rows) && SpoolOk(spool, exercise, rows, pieces)
    ensures Reached(pieces) <= |rows|
    ensures var end := Reached(pieces);
            var taken := Take(rows, end, end, limit);
            var manifests := if spool.head.Absent? then [] else Manifests(exercise, rows, pieces);
            Plan(spool, exercise, rows, limit) ==
              if taken.Refused? then Idle
              else Decide(spool.head, Inspection(StateAt(exercise, rows, end), !spool.head.Absent?, manifests),
                          Selected(exercise, rows, end, taken.value))
  {
    hide Lines, PieceOk, StateAt, RowOk, HeadOn, Take, Walk, UpTo, PrefixOk, Decide, HeadOk, Content, Cuts;
    AllReached(rows, pieces);
    if spool.head.Absent? {
      NothingPublished(spool, exercise, rows, pieces);
      UpToOwnCursor(rows, 0);
      StartIsStateAtZero(exercise, rows);
      NothingToReproduce(exercise, rows);
    } else {
      HeadOkIsOn(spool, exercise, rows, pieces);
      PublishedIsAccepted(spool, exercise, rows, pieces);
      CheckpointCursor(exercise, rows, Reached(pieces));
    }
  }

  lemma NothingPublished(spool: Spool, exercise: string, rows: seq<Row>, pieces: seq<Piece>)
    requires SpoolOk(spool, exercise, rows, pieces) && spool.head.Absent?
    ensures pieces == [] && spool.batches == map[] && spool.stages == map[]
  {
    hide Lines, PieceOk, StateAt;
    assert forall n :: n !in spool.batches;
  }

  /** A non-empty selection is the next piece of the source. */
  lemma SelectedIsNext(exercise: string, rows: seq<Row>, pieces: seq<Piece>, end: nat, e: nat, limit: nat)
    requires Ordered(rows) && end == Reached(pieces) <= |rows| && limit <= MAX_BATCH_EVENTS
    requires Take(rows, end, end, limit) == Ok(e)
    ensures Content(rows, end, e) != "" <==> e > end
    ensures e > end ==>
              BatchOk(exercise, rows, pieces,
                      NewBatch(StateAt(exercise, rows, end), StateAt(exercise, rows, e), rows[end].cursor,
                          Content(rows, end, e)))
  {
    hide Lines, RowOk, Take;
    ContentOfNone(rows, end);
    TakeIsMaximal(rows, end, end, limit);
    TakeBounds(rows, end, limit);
    LinesCount(Events(rows[end..e]));
  }

  lemma TakeBounds(rows: seq<Row>, n: nat, limit: nat)
    requires n <= |rows|
    ensures var r := Take(rows, n, n, limit); r.Ok? ==> n <= r.value <= |rows| && r.value - n <= limit
  {
  }

  lemma PlanKeeps(spool: Spool, exercise: string, rows: seq<Row>, pieces: seq<Piece>, limit: nat)
    requires Ordered(rows) && SpoolOk(spool, exercise, rows, pieces) && limit <= MAX_BATCH_EVENTS
    ensures PhaseOk(spool, exercise, rows, pieces, Plan(spool, exercise, rows, limit))
  {
    hide Lines, PieceOk, StateAt, RowOk, Take, Plan, SpoolOk, Content, BatchOk;
    PlanFinds(spool, exercise, rows, pieces, limit);
    var end := Reached(pieces);
    var taken := Take(rows, end, end, limit);
    if taken.Ok? {
      SelectedIsNext(exercise, rows, pieces, end, taken.value, limit);
    }
  }

  // ---------------------------------------------------------------- writing

  /** Committing a directory appends one piece to the chain. */
  lemma RenameKeeps(spool: Spool, exercise: string, rows: seq<Row>, pieces: seq<Piece>, b: NewBatch)
    requires Ordered(rows) && Holds(spool.batches, exercise, rows, pieces) && BatchOk(exercise, rows, pieces, b)
    ensures var p := Piece(Reached(pieces), b.following.eventCount, b.first);
            var name := Name(b.first, b.following.cursor);
            && PieceOk(rows, p) && name == NameFor(rows, p)
            && name !in spool.batches
            && BatchDir(Readable(ManifestOf(exercise, b)), Some(b.content), false) == DirFor(exercise, rows, p)
            && Holds(spool.batches[name := DirFor(exercise, rows, p)], exercise, rows, pieces + [p])
            && Reached(pieces + [p]) == p.stop
  {
    hide Lines, RowOk, Ordered, Content, PieceOk, Holds;
    var p := Piece(Reached(pieces), b.following.eventCount, b.first);
    HoldsCuts(spool.batches, exercise, rows, pieces);
    CutsMore(rows, pieces, p);
    NameIsNew(spool.batches, exercise, rows, pieces, p);
    HoldsMore(spool.batches, exercise, rows, pieces, p);
  }

  lemma HoldsCuts(batches: map<Name, BatchDir>, exercise: string, rows: seq<Row>, pieces: seq<Piece>)
    requires Holds(batches, exercise, rows, pieces)
    ensures Cuts(rows, pieces)
  {
    hide Lines;
  }

  /** The next piece is named after every batch there is. */
  lemma NameIsNew(batches: map<Name, BatchDir>, exercise: string, rows: seq<Row>, pieces: seq<Piece>, p: Piece)
    requires Ordered(rows) && Holds(batches, exercise, rows, pieces)
    requires PieceOk(rows, p) && p.start == Reached(pieces)
    ensures forall k :: 0 <= k < |pieces| ==> NameFor(rows, pieces[k]) != NameFor(rows, p)
    ensures NameFor(rows, p) !in batches
  {
    hide Lines, PieceOk, Ordered, NameFor, DirFor;
    forall k | 0 <= k < |pieces| ensures NameFor(rows, pieces[k]) != NameFor(rows, p) {
      StopsWithin(rows, pieces, k);
      NamesInOrder(rows, pieces[k], p);
    }
  }

  lemma HoldsMore(batches: map<Name, BatchDir>, exercise: string, rows: seq<Row>, pieces: seq<Piece>, p: Piece)
    requires Holds(batches, exercise, rows, pieces) && Cuts(rows, pieces + [p]) && PieceOk(rows, p)
    requires NameFor(rows, p) !in batches
    ensures Holds(batches[NameFor(rows, p) := DirFor(exercise, rows, p)], exercise, rows, pieces + [p])
  {
    hide Lines, PieceOk, DirFor;
    var more := pieces + [p];
    var updated := batches[NameFor(rows, p) := DirFor(exercise, rows, p)];
    assert more[|pieces|] == p;
    forall n | n in updated
      ensures exists k :: 0 <= k < |more| && NameFor(rows, more[k]) == n
    {
      if n in batches {
        var k :| 0 <= k < |pieces| && NameFor(rows, pieces[k]) == n;
        assert more[k] == pieces[k];
      } else {
        assert NameFor(rows, more[|pieces|]) == n;
      }
    }
  }

  /** The pieces after the next write. */
  ghost function PiecesAfter(pieces: seq<Piece>, phase: Phase): seq<Piece>
  {
    if phase.StageRename? && phase.batch.following.eventCount >= 0
    then pieces + [Piece(Reached(pieces), phase.batch.following.eventCount, phase.batch.first)] else pieces
  }

  /** Every write keeps the spool sound and is never refused by what it finds. */
  lemma WriteKeeps(spool: Spool, exercise: string, rows: seq<Row>, pieces: seq<Piece>, phase: Phase)
    requires Ordered(rows) && SpoolOk(spool, exercise, rows, pieces) && PhaseOk(spool, exercise, rows, pieces, phase)
    ensures var (after, next) := Write(spool, exercise, phase);
            && SpoolOk(after, exercise, rows, PiecesAfter(pieces, phase))
            && PhaseOk(after, exercise, rows, PiecesAfter(pieces, phase), next)
  {
    hide Lines, StateAt, Content, Holds, BatchOk;
    match phase
    case StageRename(id, b) =>
      RenameKeeps(spool, exercise, rows, pieces, b);
      BatchParts(exercise, rows, pieces, b);
    case StageMake(b) =>
      assert spool.head.Readable?;
    case _ =>
  }

  lemma BatchParts(exercise: string, rows: seq<Row>, pieces: seq<Piece>, b: NewBatch)
    requires BatchOk(exercise, rows, pieces, b)
    ensures Reached(pieces) < b.following.eventCount <= |rows|
    ensures b.following == StateAt(exercise, rows, b.following.eventCount)
  {
    hide Lines, PieceOk, Content, StateAt;
  }

  lemma TornKeeps(spool: Spool, exercise: string, rows: seq<Row>, pieces: seq<Piece>, phase: Phase, kept: nat)
    requires SpoolOk(spool, exercise, rows, pieces) && PhaseOk(spool, exercise, rows, pieces, phase)
    ensures SpoolOk(TornWrite(spool, phase, kept), exercise, rows, pieces)
  {
    hide Lines, StateAt, Content, Holds, BatchOk;
  }

  // ---------------------------------------------------------------- every run

  lemma StepKeeps(s: System, exercise: string, pieces: seq<Piece>, step: Step) returns (after: seq<Piece>)
    requires Good(s, exercise, pieces) && Enabled(s, step)
    ensures Good(Next(s, exercise, step), exercise, after)
    ensures pieces <= after
  {
    hide Lines, StateAt, Content, BatchOk, Write, Plan, TornWrite, SpoolOk, PhaseOk, Ordered, ForExercise;
    var rows := Rows(s, exercise);
    SourceStaysOrdered(s.source, exercise, step);
    after := pieces;
    match step
    case Append(row) =>
      ForExerciseGrows(s.source, exercise, row);
      assert rows + [] == rows;
      if s.root.Some? {
        AppendKeeps(s.root.value, exercise, rows, if row.exerciseId == exercise then [row] else [], pieces, s.phase);
      }
    case MakeRoot => EmptySpoolOk(exercise, rows);
    case TakeLock => LockKeeps(s.root.value, exercise, rows, pieces);
    case LookOver(limit) => PlanKeeps(s.root.value, exercise, rows, pieces, limit);
    case DiskWrite =>
      WriteKeeps(s.root.value, exercise, rows, pieces, s.phase);
      after := PiecesAfter(pieces, s.phase);
    case Crash => IdleOk(s.root, exercise, rows, pieces);
    case Torn(kept) =>
      TornKeeps(s.root.value, exercise, rows, pieces, s.phase, kept);
      IdleOk(Some(TornWrite(s.root.value, s.phase, kept)), exercise, rows, pieces);
  }

  lemma SourceStaysOrdered(source: seq<Row>, exercise: string, step: Step)
    requires Ordered(source) && (step.Append? ==> step.row.cursor > CursorAt(source, |source|))
    ensures Ordered(ForExercise(source, exercise))
    ensures step.Append? ==> Ordered(source + [step.row])
  {
    ForExerciseOrdered(source, exercise);
  }

  lemma EmptySpoolOk(exercise: string, rows: seq<Row>)
    ensures SpoolOk(EMPTY_SPOOL, exercise, rows, []) && PhaseOk(EMPTY_SPOOL, exercise, rows, [], Idle)
  {
    hide Lines;
  }

  lemma LockKeeps(spool: Spool, exercise: string, rows: seq<Row>, pieces: seq<Piece>)
    requires SpoolOk(spool, exercise, rows, pieces)
    ensures SpoolOk(spool.(locked := true), exercise, rows, pieces)
    ensures PhaseOk(spool.(locked := true), exercise, rows, pieces, Locked)
  {
    hide Lines, Holds;
  }

  lemma IdleOk(root: Option<Spool>, exercise: string, rows: seq<Row>, pieces: seq<Piece>)
    ensures root.Some? ==> PhaseOk(root.value, exercise, rows, pieces, Idle)
  {
  }

  /** Safety of every run: whatever the interleaving of appends, exports and crashes, the spool is a
      partition of the source's first rows and HEAD is its end or exactly one batch behind. */
  lemma {:induction false} RunIsGood(exercise: string, states: seq<System>, steps: seq<Step>, i: nat)
    returns (pieces: seq<Piece>)
    requires Run(exercise, states, steps) && i < |states|
    ensures Good(states[i], exercise, pieces)
  {
    hide Good, Next, Enabled;
    if i == 0 {
      pieces := [];
      assert Good(states[0], exercise, []) by { StartIsGood(exercise); }
    } else {
      var before := RunIsGood(exercise, states, steps, i - 1);
      assert states[i] == Next(states[i - 1], exercise, steps[i - 1]);
      pieces := StepKeeps(states[i - 1], exercise, before, steps[i - 1]);
    }
  }

  lemma StartIsGood(exercise: string)
    ensures Good(System([], None, Idle), exercise, [])
  {
  }
}
