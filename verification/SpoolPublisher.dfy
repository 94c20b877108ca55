// What publication guarantees, and `export` itself as a class over the spool directory with a
// budget of disk writes: when it runs out, the process has died.

module SpoolPublisher {
  import opened Prelude
  import opened CanonicalJson
  import opened SpoolModel
  import opened SpoolChain
  import opened SpoolTheorems
  import opened SpoolProtocol

  // ---------------------------------------------------------------- exactly once

  /** What a reader of the committed directories sees, in name order. */
  function TextOf(batches: map<Name, BatchDir>, names: seq<Name>): string
    requires forall n :: n in names ==> n in batches
  {
    if names == [] then "" else
    var last := |names| - 1;
    TextOf(batches, names[..last]) + batches[names[last]].events.GetOr("")
  }

  function PublishedText(spool: Spool): string
  {
    TextOf(spool.batches, Sorted(spool.batches.Keys))
  }

  lemma {:induction false} TextOfPieces(batches: map<Name, BatchDir>, exercise: string, rows: seq<Row>,
                                        pieces: seq<Piece>, k: nat)
    requires Holds(batches, exercise, rows, pieces) && k <= |pieces|
    ensures Reached(pieces[..k]) <= |rows|
    ensures forall n :: n in Names(rows, pieces)[..k] ==> n in batches
    ensures TextOf(batches, Names(rows, pieces)[..k]) == Content(rows, 0, Reached(pieces[..k]))
  {
    hide Lines, RowOk, StateAt, Cuts, NameFor, Reached, Content;
    var names := Names(rows, pieces);
    if k == 0 {
      NothingReached();
      ContentOfNone(rows, 0);
    } else {
      TextOfPieces(batches, exercise, rows, pieces, k - 1);
      PieceAt(batches, exercise, rows, pieces, k - 1);
      var p := pieces[k - 1];
      assert names[..k][..k - 1] == names[..k - 1];
      ContentExtends(rows, 0, p.start, p.stop);
    }
  }

  lemma NothingReached()
    ensures forall pieces: seq<Piece> :: Reached(pieces[..0]) == 0
  {
  }

  lemma PublishedIsPrefix(spool: Spool, exercise: string, rows: seq<Row>, pieces: seq<Piece>)
    requires Ordered(rows) && Holds(spool.batches, exercise, rows, pieces)
    ensures Reached(pieces) <= |rows|
    ensures PublishedText(spool) == Lines(Events(rows[..Reached(pieces)]))
  {
    hide Lines, RowOk, StateAt, Cuts, NameFor, Content, DirFor, PieceOk, Reached, TextOf, Ordered;
    SortedNames(spool.batches, exercise, rows, pieces);
    TextOfPieces(spool.batches, exercise, rows, pieces, |pieces|);
    assert pieces[..|pieces|] == pieces && Names(rows, pieces)[..|pieces|] == Names(rows, pieces);
    ContentFromStart(rows, Reached(pieces));
  }

  lemma ContentFromStart(rows: seq<Row>, n: nat)
    requires n <= |rows|
    ensures Content(rows, 0, n) == Lines(Events(rows[..n]))
  {
    hide Lines;
  }

  /** Exactly-once publication: in every state of every run the committed files, read in name order,
      are the lines of the first `n` rows of the exercise, and HEAD records `n` rows, or the `m` rows
      before the last batch, or does not exist yet. */
  lemma {:induction false} ExactlyOnce(exercise: string, states: seq<System>, steps: seq<Step>, i: nat)
    returns (n: nat, m: nat)
    requires Run(exercise, states, steps) && i < |states| && states[i].root.Some?
    ensures var rows, spool := Rows(states[i], exercise), states[i].root.value;
            && m <= n <= |rows| && n - m <= MAX_BATCH_EVENTS
            && PublishedText(spool) == Lines(Events(rows[..n]))
            && (m < n ==>
                  exists p :: PieceOk(rows, p) && p.start == m && p.stop == n && NameFor(rows, p) in spool.batches)
            && (spool.head == Readable(StateAt(exercise, rows, n)) || spool.head == Readable(StateAt(exercise, rows, m))
                || (spool.head.Absent? && n == 0))
  {
    hide Lines, StateAt, Content, RowOk, Run, PhaseOk, PublishedText, PieceOk;
    var pieces := RunIsGood(exercise, states, steps, i);
    var s := states[i];
    ForExerciseOrdered(s.source, exercise);
    PublishedIsPrefix(s.root.value, exercise, Rows(s, exercise), pieces);
    n := Reached(pieces);
    if pieces == [] {
      m := n;
    } else {
      m := pieces[|pieces| - 1].start;
      PieceShape(Rows(s, exercise), pieces[|pieces| - 1]);
    }
  }

  lemma PieceShape(rows: seq<Row>, p: Piece)
    requires PieceOk(rows, p)
    ensures p.start < p.stop <= |rows| && p.stop - p.start <= MAX_BATCH_EVENTS
  {
  }

  /** A committed directory is never changed, renamed or removed. */
  lemma {:induction false} CommittedForever(exercise: string, states: seq<System>, steps: seq<Step>, i: nat, j: nat)
    requires Run(exercise, states, steps) && i <= j < |states| && states[i].root.Some?
    ensures states[j].root.Some?
    ensures forall name :: name in states[i].root.value.batches ==>
              name in states[j].root.value.batches
              && states[j].root.value.batches[name] == states[i].root.value.batches[name]
  {
    hide Next, Enabled;
    if i < j {
      CommittedForever(exercise, states, steps, i, j - 1);
      assert states[j] == Next(states[j - 1], exercise, steps[j - 1]);
      StepCommits(states[j - 1], exercise, steps[j - 1]);
    }
  }

  lemma StepCommits(s: System, exercise: string, step: Step)
    requires Enabled(s, step) && s.root.Some?
    ensures var after := Next(s, exercise, step).root;
            && after.Some?
            && forall name :: name in s.root.value.batches ==>
                 name in after.value.batches && after.value.batches[name] == s.root.value.batches[name]
  {
    hide Plan, Rows, Lines;
  }

  // ---------------------------------------------------------------- one export, cut anywhere

  /** Writes left in a phase. */
  function Rank(phase: Phase): nat
  {
    match phase
    case Idle => 0
    case Locked => 0
    case HeadReplace(_, _, next) => if next.Some? then 7 else 1
    case HeadWrite(_, next) => if next.Some? then 8 else 2
    case StageMake(_) => 6
    case StageEvents(_, _) => 5
    case StageManifest(_, _) => 4
    case StageRename(_, _) => 3
  }

  /** The disk after the writes that a publisher in this phase still makes, or the first `fuel` of them. */
  function Burn(spool: Spool, exercise: string, phase: Phase, fuel: nat): Spool
    decreases fuel
  {
    if fuel == 0 || Rank(phase) == 0 then spool else
    var (after, next) := Write(spool, exercise, phase);
    Burn(after, exercise, next, fuel - 1)
  }

  /** The pieces after those writes. */
  ghost function PiecesBurnt(pieces: seq<Piece>, spool: Spool, exercise: string, phase: Phase, fuel: nat): seq<Piece>
    decreases fuel
  {
    if fuel == 0 || Rank(phase) == 0 then pieces else
    var (after, next) := Write(spool, exercise, phase);
    PiecesBurnt(PiecesAfter(pieces, phase), after, exercise, next, fuel - 1)
  }

  /** A publisher that dies after any number of writes leaves a spool the next one can use. */
  lemma {:induction false} BurnKeeps(spool: Spool, exercise: string, rows: seq<Row>, pieces: seq<Piece>,
                                     phase: Phase, fuel: nat)
    requires Ordered(rows) && SpoolOk(spool, exercise, rows, pieces) && PhaseOk(spool, exercise, rows, pieces, phase)
    ensures SpoolOk(Burn(spool, exercise, phase, fuel), exercise, rows,
                    PiecesBurnt(pieces, spool, exercise, phase, fuel))
    decreases fuel
  {
    hide SpoolOk, PhaseOk, Write, PiecesAfter;
    if fuel != 0 && Rank(phase) != 0 {
      WriteKeeps(spool, exercise, rows, pieces, phase);
      var (after, next) := Write(spool, exercise, phase);
      BurnKeeps(after, exercise, rows, PiecesAfter(pieces, phase), next, fuel - 1);
    }
  }

  // ---------------------------------------------------------------- recovery and drain

  ghost predicate AllValid(rows: seq<Row>)
  {
    forall i :: 0 <= i < |rows| ==> RowOk(rows, i)
  }

  /** An event always fits an empty batch. */
  lemma EventFits(rows: seq<Row>, n: nat)
    requires n < |rows| && RowOk(rows, n)
    ensures |Content(rows, n, n + 1)| <= MAX_BATCH_BYTES
  {
    hide Lines;
    ContentOfOne(rows, n);
  }

  lemma {:induction false} TakeSucceeds(rows: seq<Row>, n: nat, i: nat, limit: nat)
    requires AllValid(rows) && n <= i <= |rows| && i - n <= limit
    ensures Take(rows, n, i, limit).Ok?
    ensures i == n < |rows| && limit > 0 ==> Take(rows, n, i, limit).value > n
    decreases |rows| - i
  {
    hide RowOk, Content;
    if i < |rows| && i - n < limit && |Content(rows, n, i + 1)| <= MAX_BATCH_BYTES {
      TakeSucceeds(rows, n, i + 1, limit);
    }
    if i == n < |rows| {
      EventFits(rows, n);
    }
  }

  /** Everything an undisturbed export writes. */
  function Finish(spool: Spool, exercise: string, rows: seq<Row>, limit: nat): Spool
  {
    Burn(spool.(locked := true), exercise, Plan(spool.(locked := true), exercise, rows, limit), 8)
  }

  /** A whole publication from a phase that holds: HEAD ends up at the end of the chain. */
  lemma {:induction false} BurnFinishes(spool: Spool, exercise: string, rows: seq<Row>, pieces: seq<Piece>,
                                        phase: Phase, fuel: nat)
    requires Ordered(rows) && SpoolOk(spool, exercise, rows, pieces) && PhaseOk(spool, exercise, rows, pieces, phase)
    requires Rank(phase) <= fuel
    requires Rank(phase) == 0 ==> HeadAt(spool, exercise, rows, Reached(pieces))
    ensures var after := PiecesBurnt(pieces, spool, exercise, phase, fuel);
            && HeadAt(Burn(spool, exercise, phase, fuel), exercise, rows, Reached(after))
            && Reached(after) == Target(pieces, phase)
    decreases fuel
  {
    hide SpoolOk, HeadAt, Lines, BatchOk, StateAt, Reached;
    if Rank(phase) != 0 {
      WriteKeeps(spool, exercise, rows, pieces, phase);
      WriteAims(spool, exercise, rows, pieces, phase);
      var (after, next) := Write(spool, exercise, phase);
      BurnFinishes(after, exercise, rows, PiecesAfter(pieces, phase), next, fuel - 1);
    }
  }

  /** How many rows are published when this phase has run to its end. */
  ghost function Target(pieces: seq<Piece>, phase: Phase): int
  {
    match phase
    case Idle => Reached(pieces)
    case Locked => Reached(pieces)
    case HeadWrite(_, next) => if next.Some? then next.value.following.eventCount else Reached(pieces)
    case HeadReplace(_, _, next) => if next.Some? then next.value.following.eventCount else Reached(pieces)
    case StageMake(b) => b.following.eventCount
    case StageEvents(_, b) => b.following.eventCount
    case StageManifest(_, b) => b.following.eventCount
    case StageRename(_, b) => b.following.eventCount
  }

  lemma WriteAims(spool: Spool, exercise: string, rows: seq<Row>, pieces: seq<Piece>, phase: Phase)
    requires Ordered(rows) && SpoolOk(spool, exercise, rows, pieces) && PhaseOk(spool, exercise, rows, pieces, phase)
    requires Rank(phase) != 0
    ensures var (after, next) := Write(spool, exercise, phase);
            && Rank(next) < Rank(phase)
            && Target(PiecesAfter(pieces, phase), next) == Target(pieces, phase)
            && (Rank(next) == 0 ==> HeadAt(after, exercise, rows, Reached(PiecesAfter(pieces, phase))))
  {
    hide Lines, StateAt, Content, Holds, BatchOk;
    match phase
    case StageRename(id, b) =>
      RenameKeeps(spool, exercise, rows, pieces, b);
      BatchParts(exercise, rows, pieces, b);
    case _ =>
  }

  /** Recovery and progress: from any spool a crash can leave, with a valid source, an export is not
      refused, leaves HEAD at the end of the chain, and publishes something whenever anything is pending. */
  lemma {:induction false} ExportProgresses(spool: Spool, exercise: string, rows: seq<Row>, pieces: seq<Piece>,
        limit: nat)
    returns (after: seq<Piece>)
    requires Ordered(rows) && AllValid(rows) && SpoolOk(spool, exercise, rows, pieces)
    requires 1 <= limit <= MAX_BATCH_EVENTS
    ensures SpoolOk(Finish(spool, exercise, rows, limit), exercise, rows, after)
    ensures HeadAt(Finish(spool, exercise, rows, limit), exercise, rows, Reached(after))
    ensures Reached(pieces) <= Reached(after) <= |rows|
    ensures Reached(pieces) < |rows| ==> Reached(after) > Reached(pieces)
  {
    hide Lines, StateAt, Content, Holds, BatchOk, SpoolOk, PhaseOk, Plan, Take, AllValid, Burn, PiecesBurnt, HeadAt,
      Reached;
    var locked := spool.(locked := true);
    var phase := Plan(locked, exercise, rows, limit);
    LockKeeps(spool, exercise, rows, pieces);
    PlanKeeps(locked, exercise, rows, pieces, limit);
    PlanFinds(locked, exercise, rows, pieces, limit);
    TakeSucceeds(rows, Reached(pieces), Reached(pieces), limit);
    PlanAims(locked, exercise, rows, pieces, limit);
    BurnKeeps(locked, exercise, rows, pieces, phase, 8);
    BurnFinishes(locked, exercise, rows, pieces, phase, 8);
    after := PiecesBurnt(pieces, locked, exercise, phase, 8);
  }

  lemma PlanAims(spool: Spool, exercise: string, rows: seq<Row>, pieces: seq<Piece>, limit: nat)
    requires Ordered(rows) && SpoolOk(spool, exercise, rows, pieces) && limit <= MAX_BATCH_EVENTS
    requires Reached(pieces) <= |rows| && Take(rows, Reached(pieces), Reached(pieces), limit).Ok?
    ensures var phase := Plan(spool, exercise, rows, limit);
            var e := Take(rows, Reached(pieces), Reached(pieces), limit).value;
            && Target(pieces, phase) == e && Reached(pieces) <= e <= |rows|
            && (Rank(phase) == 0 ==> HeadAt(spool, exercise, rows, Reached(pieces)))
  {
    hide Lines, PieceOk, RowOk, Take, Plan, SpoolOk, Content, BatchOk, Reached;
    var end := Reached(pieces);
    PlanFinds(spool, exercise, rows, pieces, limit);
    TakeBounds(rows, end, limit);
    SelectedIsNext(exercise, rows, pieces, end, Take(rows, end, end, limit).value, limit);
  }

  /** The spool after `rounds` exports of a quiet source. */
  function Repeat(spool: Spool, exercise: string, rows: seq<Row>, limit: nat, rounds: nat): Spool
    decreases rounds
  {
    if rounds == 0 then spool else Repeat(Finish(spool, exercise, rows, limit), exercise, rows, limit, rounds - 1)
  }

  /** Drain: repeated exports of a quiet source end with the whole source published, each event once. */
  lemma {:induction false} Drains(spool: Spool, exercise: string, rows: seq<Row>, pieces: seq<Piece>, limit: nat,
        rounds: nat)
    requires Ordered(rows) && AllValid(rows) && SpoolOk(spool, exercise, rows, pieces)
    requires 1 <= limit <= MAX_BATCH_EVENTS && |rows| - Reached(pieces) <= rounds
    ensures PublishedText(Repeat(spool, exercise, rows, limit, rounds)) == Lines(Events(rows))
    decreases rounds
  {
    hide Lines, StateAt, Content, Holds, Finish, AllValid, PublishedText, RowOk;
    if rounds == 0 {
      PublishedIsPrefix(spool, exercise, rows, pieces);
      assert rows[..|rows|] == rows;
    } else {
      var after := ExportProgresses(spool, exercise, rows, pieces, limit);
      Drains(Finish(spool, exercise, rows, limit), exercise, rows, after, limit, rounds - 1);
    }
  }

  // ---------------------------------------------------------------- `export`

  /** The inspection that precedes every write: chain and source are valid. */
  function LookAt(root: Option<Spool>, exercise: string, rows: seq<Row>, limit: nat): Result<(Inspection, Selection)>
  {
    match Inspect(root, exercise)
    case Refused => Refused
    case Ok(found) =>
      match Select(exercise, rows, found.previous, limit, found.manifests)
      case Refused => Refused
      case Ok(selected) => Ok((found, selected))
  }

  /** The disk after an export that dies when `fuel` writes are used up. */
  function Exported(root: Option<Spool>, exercise: string, rows: seq<Row>, limit: nat, fuel: nat): Option<Spool>
  {
    if LookAt(root, exercise, rows, limit).Refused? then root
    else if root.None? && fuel == 0 then None
    else
      var spool := if root.None? then EMPTY_SPOOL else root.value;
      var left := if root.None? then fuel - 1 else fuel;
      if left == 0 then Some(spool)
      else Some(Burn(spool.(locked := true), exercise, Plan(spool.(locked := true), exercise, rows, limit), left - 1))
  }

  /** A crash anywhere in an export leaves a spool that the next export accepts and continues. */
  lemma ExportKeeps(root: Option<Spool>, exercise: string, rows: seq<Row>, pieces: seq<Piece>, limit: nat, fuel: nat)
    returns (after: seq<Piece>)
    requires Ordered(rows) && limit <= MAX_BATCH_EVENTS
    requires if root.None? then pieces == [] else SpoolOk(root.value, exercise, rows, pieces)
    ensures var left := Exported(root, exercise, rows, limit, fuel);
            if left.None? then root.None? && after == [] else SpoolOk(left.value, exercise, rows, after)
  {
    hide Lines, SpoolOk, PhaseOk, LookAt, Plan, Burn, PiecesBurnt;
    var spool := if root.None? then EMPTY_SPOOL else root.value;
    var left := if root.None? then fuel - 1 else fuel;
    EmptySpoolOk(exercise, rows);
    LockKeeps(spool, exercise, rows, pieces);
    var locked := spool.(locked := true);
    PlanKeeps(locked, exercise, rows, pieces, limit);
    after := pieces;
    if LookAt(root, exercise, rows, limit).Ok? && left > 0 {
      var phase := Plan(locked, exercise, rows, limit);
      BurnKeeps(locked, exercise, rows, pieces, phase, left - 1);
      after := PiecesBurnt(pieces, locked, exercise, phase, left - 1);
    }
  }

  datatype Outcome = Died | Rejected | Report(selected: int, remaining: nat, published: int)

  /** A refusal is the inspection's; a report counts the selection, and HEAD then marks its end. */
  predicate Reported(outcome: Outcome, seen: Result<(Inspection, Selection)>, head: File<Checkpoint>)
  {
    match outcome
    case Died => seen.Ok?
    case Rejected => seen.Refused?
    case Report(selected, remaining, published) =>
      && seen.Ok?
      && published == seen.value.1.next.eventCount == seen.value.0.previous.eventCount + selected
      && remaining == seen.value.1.pending
      && head == Readable(seen.value.1.next)
  }

  /** A report on the raw source: what is published and what remains are all rows of the exercise, HEAD is
      where the remainder begins, and nothing remains exactly if HEAD has reached the last row. */
  ghost predicate ReportCounts(outcome: Outcome, source: seq<Row>, exercise: string, limit: nat, head: File<Checkpoint>)
  {
    outcome.Report? ==>
      && outcome.published + outcome.remaining == RowsAfter(source, exercise, 0)
      && 0 <= outcome.selected <= limit && head.Readable?
      && outcome.remaining == RowsAfter(source, exercise, head.content.cursor)
      && (outcome.remaining == 0 <==>
            forall r :: r in source && r.exerciseId == exercise ==> r.cursor <= head.content.cursor)
  }

  /** What an accepted inspection selects goes into a directory that does not exist yet, and an empty
      selection leaves the checkpoint where it is. */
  lemma SelectionIsNew(spool: Spool, exercise: string, rows: seq<Row>, limit: nat)
    requires Ordered(rows) && limit <= MAX_BATCH_EVENTS && LookAt(Some(spool), exercise, rows, limit).Ok?
    ensures var (found, selected) := LookAt(Some(spool), exercise, rows, limit).value;
            && (selected.content == "" ==> selected.next == found.previous)
            && (selected.content != "" ==> Name(selected.first, selected.next.cursor) !in spool.batches)
  {
    hide Lines, Inspect, Take, PrefixOk, StateAt, RowOk, Content, PieceOk, UpTo, Holds, HeadOn;
    var (found, selected) := LookAt(Some(spool), exercise, rows, limit).value;
    var n := UpTo(rows, found.previous.cursor);
    var e := Take(rows, n, n, limit).value;
    SelectUnfolds(exercise, rows, found.previous, limit, found.manifests);
    TakeBounds(rows, n, limit);
    SelectedPiece(exercise, rows, n, e, limit);
    if spool.head.Absent? {
      NoBatches(spool, exercise);
    } else {
      var pieces := AcceptedIsPublished(spool, exercise, rows);
      if e > n {
        var p := Piece(n, e, rows[n].cursor);
        NameIsNew(spool.batches, exercise, rows, pieces, p);
        PieceName(exercise, rows, p);
      }
    }
  }

  lemma NoBatches(spool: Spool, exercise: string)
    requires spool.head.Absent? && Inspect(Some(spool), exercise).Ok?
    ensures spool.batches == map[]
  {
    hide Walk;
  }

  lemma PieceName(exercise: string, rows: seq<Row>, p: Piece)
    requires PieceOk(rows, p)
    ensures NameFor(rows, p) == Name(p.first, StateAt(exercise, rows, p.stop).cursor)
  {
    hide Lines;
  }

  lemma SelectedPiece(exercise: string, rows: seq<Row>, n: nat, e: nat, limit: nat)
    requires Ordered(rows) && n <= |rows| && limit <= MAX_BATCH_EVENTS && Take(rows, n, n, limit) == Ok(e)
    ensures n <= e <= |rows|
    ensures Content(rows, n, e) != "" <==> e > n
    ensures e > n ==> PieceOk(rows, Piece(n, e, rows[n].cursor))
  {
    hide Lines, RowOk, Take;
    ContentOfNone(rows, n);
    TakeIsMaximal(rows, n, n, limit);
    TakeBounds(rows, n, limit);
    LinesCount(Events(rows[n..e]));
  }

  /** Creating an empty directory and taking the lock do not change what inspection finds. */
  lemma LockChangesNothing(root: Option<Spool>, exercise: string)
    ensures Inspect(Some((if root.None? then EMPTY_SPOOL else root.value).(locked := true)), exercise)
            == Inspect(root, exercise)
  {
    hide Walk;
  }

  /** The spool directory of one exercise. `fuel` is how many more writes the machine survives. */
  class SpoolDirectory {
    const exercise: string
    var root: Option<Spool>
    var fuel: nat

    constructor (exercise: string, root: Option<Spool>, fuel: nat)
      ensures this.exercise == exercise && this.root == root && this.fuel == fuel
    {
      this.exercise := exercise;
      this.root := root;
      this.fuel := fuel;
    }

    /** One atomic disk step: it happens, or the process is dead already. */
    method Step(changed: Spool) returns (alive: bool)
      modifies this
      ensures alive == (old(fuel) > 0)
      ensures alive ==> root == Some(changed) && fuel == old(fuel) - 1
      ensures !alive ==> root == old(root) && fuel == 0
    {
      alive := fuel > 0;
      if alive {
        root := Some(changed);
        fuel := fuel - 1;
      }
    }

    /** `_head`: write the checkpoint to a private file, then replace HEAD with it. */
    method Head(state: Checkpoint, ghost next: Option<NewBatch>) returns (alive: bool)
      requires root.Some?
      modifies this
      ensures root.Some? && root.value.batches == old(root.value.batches)
      ensures alive ==> Burn(root.value, exercise, AfterHead(next), fuel)
                        == Burn(old(root.value), exercise, HeadWrite(state, next), old(fuel))
      ensures alive ==> root.value.head == Readable(state)
      ensures !alive ==> fuel == 0
      ensures !alive ==> root.value == Burn(old(root.value), exercise, HeadWrite(state, next), old(fuel))
    {
      var spool := root.value;
      var id := spool.nextId;
      alive := Step(spool.(heads := spool.heads[id := Readable(state)], nextId := id + 1));
      if alive {
        spool := root.value;
        alive := Step(spool.(head := spool.heads[id], heads := spool.heads - {id}));
      }
    }

    /** `_publish`: stage the events and the manifest, then rename the stage into place. */
    method Publish(b: NewBatch) returns (alive: bool, refused: bool)
      requires root.Some?
      modifies this
      ensures root.Some?
      ensures !alive ==> fuel == 0
      ensures refused ==> alive && Name(b.first, b.following.cursor) in old(root.value.batches)
      ensures alive && !refused ==>
                Burn(root.value, exercise, HeadWrite(b.following, None), fuel)
                == Burn(old(root.value), exercise, StageMake(b), old(fuel))
      ensures !alive ==> root.value == Burn(old(root.value), exercise, StageMake(b), old(fuel))
    {
      ghost var all := Burn(root.value, exercise, StageMake(b), fuel);
      refused := false;
      var spool := root.value;
      var id := spool.nextId;
      alive := Step(spool.(stages := spool.stages[id := BatchDir(Absent, None, false)], nextId := id + 1));
      if alive {
        assert Burn(root.value, exercise, StageEvents(id, b), fuel) == all;
        spool := root.value;
        alive := Step(spool.(stages := spool.stages[id := spool.stages[id].(events := Some(b.content))]));
      }
      if alive {
        assert Burn(root.value, exercise, StageManifest(id, b), fuel) == all;
        spool := root.value;
        var manifest := ManifestOf(exercise, b);
        alive := Step(spool.(stages := spool.stages[id := spool.stages[id].(manifest := Readable(manifest))]));
      }
      if alive {
        assert Burn(root.value, exercise, StageRename(id, b), fuel) == all;
        spool := root.value;
        var name := Name(b.first, b.following.cursor);
        if name in spool.batches {
          refused := true;
        } else {
          alive := Step(spool.(batches := spool.batches[name := spool.stages[id]], stages := spool.stages - {id}));
        }
      }
    }

    /** `inspect_and_publish`, with the lock held. */
    method InspectAndPublish(source: seq<Row>, limit: nat) returns (outcome: Outcome)
      requires root.Some? && Ordered(source) && 1 <= limit <= MAX_BATCH_EVENTS
      modifies this
      ensures root.Some?
      ensures var rows := ForExercise(source, exercise);
              && root.value == Burn(old(root.value), exercise, Plan(old(root.value), exercise, rows, limit), old(fuel))
              && Reported(outcome, LookAt(old(root), exercise, rows, limit), root.value.head)
      ensures ReportCounts(outcome, source, exercise, limit, root.value.head)
      ensures outcome.Died? ==> fuel == 0
    {
      hide ForExercise, Inspect, Select, Ordered, Write, IsNextRow, RowsAfter;
      var rows := ForExercise(source, exercise);
      var inspected := Batches(root, exercise);
      if inspected.Refused? {
        return Rejected;
      }
      var found := inspected.value;
      var read := Read(source, exercise, found.previous, limit, found.manifests);
      if read.Refused? {
        return Rejected;
      }
      var selected := read.value;
      ForExerciseOrdered(source, exercise);
      SelectionIsNew(root.value, exercise, rows, limit);
      var batch := NewBatch(found.previous, selected.next, selected.first, selected.content);
      ghost var next := if selected.content != "" then Some(batch) else None;
      ghost var all := Burn(root.value, exercise, Plan(root.value, exercise, rows, limit), fuel);
      assert Plan(root.value, exercise, rows, limit) == Decide(root.value.head, found, selected);
      var alive := true;
      if !found.initialized || root.value.head != Readable(found.previous) {
        alive := Head(found.previous, next);
        if !alive {
          return Died;
        }
      }
      assert Burn(root.value, exercise, AfterHead(next), fuel) == all;
      if selected.content != "" {
        var refused;
        alive, refused := Publish(batch);
        assert !refused;
        if !alive {
          return Died;
        }
        alive := Head(selected.next, None);
        if !alive {
          return Died;
        }
      }
      assert Burn(root.value, exercise, Idle, fuel) == all;
      NoneAfterIff(source, exercise, selected.next.cursor);
      return Report(selected.next.eventCount - found.previous.eventCount, selected.pending, selected.next.eventCount);
    }

    /** `export --execute`: inspect, create the directory if there is none, take the lock, then
        inspect again and publish at most one batch. */
    method Export(source: seq<Row>, limit: nat) returns (outcome: Outcome)
      requires Ordered(source) && 1 <= limit <= MAX_BATCH_EVENTS
      modifies this
      ensures var rows := ForExercise(source, exercise);
              && root == Exported(old(root), exercise, rows, limit, old(fuel))
              && Reported(outcome, LookAt(old(root), exercise, rows, limit),
                   if root.Some? then root.value.head else Absent)
      ensures outcome.Report? ==> root.Some?
      ensures outcome.Died? ==> fuel == 0
      ensures ReportCounts(outcome, source, exercise, limit, if root.Some? then root.value.head else Absent)
    {
      hide ForExercise, Inspect, Select, Ordered, Write, Burn, RowsAfter, Accounts;
      LockChangesNothing(root, exercise);
      var first := Batches(root, exercise);
      if first.Refused? {
        return Rejected;
      }
      var ahead := Read(source, exercise, first.value.previous, limit, first.value.manifests);
      if ahead.Refused? {
        return Rejected;
      }
      var alive: bool;
      if root.None? {
        alive := Step(EMPTY_SPOOL);
        if !alive {
          return Died;
        }
      }
      alive := Step(root.value.(locked := true));
      if !alive {
        return Died;
      }
      outcome := InspectAndPublish(source, limit);
    }
  }
}
