// Validation of what is already published: the batch chain on disk (`_batches`) and the source
// prefix it must reproduce (`_read`). The loops are methods proved against functions on values;
// the two theorems at the end say exactly which disks are accepted.

module SpoolChain {
  import opened Prelude
  import opened CanonicalJson
  import opened SpoolModel

  // ---------------------------------------------------------------- sorted directory listing

  predicate IsLeast(least: Name, names: set<Name>)
  {
    least in names && forall m :: m in names ==> m == least || Before(least, m)
  }

  lemma {:induction false} LeastExists(names: set<Name>)
    requires names != {}
    ensures exists least :: IsLeast(least, names)
  {
    var n :| n in names;
    if names == {n} {
      assert IsLeast(n, names);
    } else {
      var rest := names - {n};
      LeastExists(rest);
      var l :| IsLeast(l, rest);
      assert forall m :: m in names ==> m == n || m in rest;
      assert IsLeast(if Before(n, l) then n else l, names);
    }
  }

  function Least(names: set<Name>): (least: Name)
    requires names != {}
    ensures IsLeast(least, names)
  {
    LeastExists(names);
    var least :| IsLeast(least, names);
    least
  }

  /** `sorted(paths)` */
  function Sorted(names: set<Name>): (sorted: seq<Name>)
    ensures |sorted| == |names|
    ensures forall n :: n in sorted <==> n in names
    ensures forall i, j :: 0 <= i < j < |sorted| ==> Before(sorted[i], sorted[j])
  {
    if names == {} then [] else
    var least := Least(names);
    [least] + Sorted(names - {least})
  }

  ghost predicate Increasing(names: seq<Name>)
  {
    forall i, j :: 0 <= i < j < |names| ==> Before(names[i], names[j])
  }

  lemma NonEmptyHasMember(a: seq<Name>)
    ensures a != [] ==> exists n :: n in a
  {
    if a != [] {
      assert a[0] in a;
    }
  }

  /** A listing has one sorted order. */
  lemma {:induction false} SortedIsUnique(a: seq<Name>, b: seq<Name>)
    requires Increasing(a) && Increasing(b)
    requires forall n :: n in a <==> n in b
    ensures a == b
  {
    if a == [] || b == [] {
      NonEmptyHasMember(a);
      NonEmptyHasMember(b);
    } else {
      assert a[0] in b && b[0] in a;
      assert a[0] == b[0];
      forall n ensures n in a[1..] <==> n in b[1..] {
        assert n in a[1..] ==> n in b && n != b[0];
        assert n in b[1..] ==> n in a && n != a[0];
      }
      SortedIsUnique(a[1..], b[1..]);
    }
  }

  // ---------------------------------------------------------------- `_batches`

  /** What inspection finds: the end of the chain, whether HEAD exists, and the manifests. */
  datatype Inspection = Inspection(previous: Checkpoint, initialized: bool, manifests: seq<Manifest>)

  /** Check directories in order, each against the checkpoint the one before it ends at. */
  function Walk(batches: map<Name, BatchDir>, names: seq<Name>, exercise: string,
                previous: Checkpoint): (r: Result<seq<Manifest>>)
    requires forall n :: n in names ==> n in batches
    ensures r.Ok? ==> |r.value| == |names|
  {
    if names == [] then Ok([]) else
    match CheckBatch(names[0], batches[names[0]], exercise, previous)
    case Refused => Refused
    case Ok(m) =>
      match Walk(batches, names[1..], exercise, m.next)
      case Refused => Refused
      case Ok(rest) => Ok([m] + rest)
  }

  function ChainEnd(exercise: string, manifests: seq<Manifest>): Checkpoint
  {
    if manifests == [] then Start(exercise) else manifests[|manifests| - 1].next
  }

  /** HEAD marks the start or the end of one of the batches. */
  predicate HeadSeen(exercise: string, head: Checkpoint, manifests: seq<Manifest>)
  {
    head == Start(exercise) || exists i :: 0 <= i < |manifests| && manifests[i].next == head
  }

  function Inspect(root: Option<Spool>, exercise: string): Result<Inspection>
  {
    if root.None? then Ok(Inspection(Start(exercise), false, [])) else
    var spool := root.value;
    if spool.head.Absent? then
      if spool.batches == map[] && spool.stages == map[] && !spool.foreign
      then Ok(Inspection(Start(exercise), false, [])) else Refused
    else if spool.head.Damaged? || !CheckState(spool.head.content, exercise) || spool.foreign then Refused
    else
      match Walk(spool.batches, Sorted(spool.batches.Keys), exercise, Start(exercise))
      case Refused => Refused
      case Ok(manifests) =>
        if HeadSeen(exercise, spool.head.content, manifests)
        then Ok(Inspection(ChainEnd(exercise, manifests), true, manifests)) else Refused
  }

  lemma HeadSeenMore(exercise: string, head: Checkpoint, manifests: seq<Manifest>, m: Manifest)
    ensures HeadSeen(exercise, head, manifests + [m]) <==> HeadSeen(exercise, head, manifests) || head == m.next
  {
    var more := manifests + [m];
    assert more[|manifests|] == m;
    assert forall k :: 0 <= k < |manifests| ==> more[k] == manifests[k];
  }

  lemma WalkStep(batches: map<Name, BatchDir>, names: seq<Name>, i: nat, exercise: string,
                 previous: Checkpoint, done: seq<Manifest>)
    requires i < |names| && forall n :: n in names ==> n in batches
    ensures var here := CheckBatch(names[i], batches[names[i]], exercise, previous);
            var all := Walk(batches, names[i..], exercise, previous);
            if here.Refused? then all == Refused else
            var rest := Walk(batches, names[i + 1..], exercise, here.value.next);
            && all.Ok? == rest.Ok?
            && (all.Ok? ==> done + all.value == done + [here.value] + rest.value)
  {
    assert names[i..][1..] == names[i + 1..];
  }

  /** The loop of `_batches`: one directory after another, remembering whether HEAD went by. */
  method WalkBatches(batches: map<Name, BatchDir>, paths: seq<Name>, exercise: string, head: Checkpoint)
    returns (r: Result<seq<Manifest>>, headSeen: bool)
    requires forall n :: n in paths ==> n in batches
    ensures r == Walk(batches, paths, exercise, Start(exercise))
    ensures r.Ok? ==> headSeen == HeadSeen(exercise, head, r.value)
  {
    var previous := Start(exercise);
    headSeen := head == previous;
    var manifests: seq<Manifest> := [];
    ghost var all := Walk(batches, paths, exercise, Start(exercise));
    assert paths[0..] == paths;
    var i := 0;
    while i < |paths|
      invariant 0 <= i <= |paths|
      invariant headSeen == HeadSeen(exercise, head, manifests)
      invariant var rest := Walk(batches, paths[i..], exercise, previous);
                all.Ok? == rest.Ok? && (all.Ok? ==> all.value == manifests + rest.value)
    {
      WalkStep(batches, paths, i, exercise, previous, manifests);
      var manifest := CheckBatch(paths[i], batches[paths[i]], exercise, previous);
      if manifest.Refused? {
        return Refused, headSeen;
      }
      HeadSeenMore(exercise, head, manifests, manifest.value);
      previous := manifest.value.next;
      headSeen := headSeen || head == previous;
      manifests := manifests + [manifest.value];
      i := i + 1;
    }
    assert paths[i..] == [] && manifests + [] == manifests;
    return Ok(manifests), headSeen;
  }

  /** `_batches` */
  method Batches(root: Option<Spool>, exercise: string) returns (r: Result<Inspection>)
    ensures r == Inspect(root, exercise)
  {
    if root.None? {
      return Ok(Inspection(Start(exercise), false, []));
    }
    var spool := root.value;
    if spool.head.Absent? {
      if spool.batches == map[] && spool.stages == map[] && !spool.foreign {
        return Ok(Inspection(Start(exercise), false, []));
      }
      return Refused;
    }
    if spool.head.Damaged? || !CheckState(spool.head.content, exercise) || spool.foreign {
      return Refused;
    }
    var manifests, headSeen := WalkBatches(spool.batches, Sorted(spool.batches.Keys), exercise, spool.head.content);
    if manifests.Refused? || !headSeen {
      return Refused;
    }
    return Ok(Inspection(ChainEnd(exercise, manifests.value), true, manifests.value));
  }

  // ---------------------------------------------------------------- `_read`

  datatype Selection = Selection(content: string, first: nat, next: Checkpoint, pending: nat)

  /** Rows with `rowid <= cursor`. */
  function UpTo(rows: seq<Row>, cursor: int): (n: nat)
    ensures n <= |rows|
  {
    if rows == [] then 0
    else if rows[|rows| - 1].cursor <= cursor then |rows|
    else UpTo(rows[..|rows| - 1], cursor)
  }

  /** A batch that ends before row `next` holds exactly the rows from `start`. */
  predicate BatchMatches(exercise: string, rows: seq<Row>, batch: Manifest, start: nat, next: nat)
    requires start <= next <= |rows|
  {
    && batch.digest == Sha256(Content(rows, start, next))
    && batch.eventCount == next - start
    && batch.bytes == |Content(rows, start, next)|
    && batch.next == StateAt(exercise, rows, next)
  }

  /** From row `i` on, with batch `b` begun at row `start`, the first `n` rows are the published ones. */
  predicate PrefixOk(exercise: string, rows: seq<Row>, n: nat, manifests: seq<Manifest>,
                     i: nat, b: nat, start: nat)
    requires start <= i <= n <= |rows| && b <= |manifests|
    decreases n - i
  {
    if i == n then b == |manifests| else
    && RowOk(rows, i)
    && b < |manifests|
    && manifests[b].firstCursor <= rows[i].cursor <= manifests[b].next.cursor
    && if rows[i].cursor == manifests[b].next.cursor
       then BatchMatches(exercise, rows, manifests[b], start, i + 1)
            && PrefixOk(exercise, rows, n, manifests, i + 1, b + 1, i + 1)
       else PrefixOk(exercise, rows, n, manifests, i + 1, b, start)
  }

  /** The end of the next batch when rows `n` up to `i` are in it already. */
  function Take(rows: seq<Row>, n: nat, i: nat, limit: nat): (r: Result<nat>)
    requires n <= i <= |rows| && i - n <= limit
    ensures r.Ok? ==> i <= r.value <= |rows| && r.value - n <= limit
    decreases |rows| - i
  {
    if i == |rows| || i - n == limit then Ok(i)
    else if !RowOk(rows, i) then Refused
    else if |Content(rows, n, i + 1)| > MAX_BATCH_BYTES then Ok(i)
    else Take(rows, n, i + 1, limit)
  }

  /** A batch is as long as the limit and the size allow, and every row in it is valid. */
  lemma {:induction false} TakeIsMaximal(rows: seq<Row>, n: nat, i: nat, limit: nat)
    requires n <= i <= |rows| && i - n <= limit
    requires |Content(rows, n, i)| <= MAX_BATCH_BYTES
    ensures var r := Take(rows, n, i, limit);
            r.Ok? ==>
              && (forall k :: i <= k < r.value ==> RowOk(rows, k))
              && |Content(rows, n, r.value)| <= 20971520
              && (r.value < |rows| && r.value - n < limit ==> |Content(rows, n, r.value + 1)| > 20971520)
    decreases |rows| - i
  {
    hide Lines, Admissible;
    if i < |rows| && i - n < limit && RowOk(rows, i) && |Content(rows, n, i + 1)| <= MAX_BATCH_BYTES {
      TakeIsMaximal(rows, n, i + 1, limit);
    }
  }

  /** The selection when the next batch is rows `n` up to `e`. */
  function Selected(exercise: string, rows: seq<Row>, n: nat, e: nat): Selection
    requires n <= e <= |rows|
  {
    Selection(Content(rows, n, e), if e > n then rows[n].cursor else 0, StateAt(exercise, rows, e), |rows| - e)
  }

  function SelectNew(exercise: string, rows: seq<Row>, n: nat, limit: nat): Result<Selection>
    requires n <= |rows|
  {
    match Take(rows, n, n, limit)
    case Refused => Refused
    case Ok(e) => Ok(Selected(exercise, rows, n, e))
  }

  /** The chain reproduces the first `n` rows and ends at the checkpoint after them. */
  predicate Reproduces(exercise: string, rows: seq<Row>, n: nat, state: Checkpoint, manifests: seq<Manifest>)
    requires n <= |rows|
  {
    PrefixOk(exercise, rows, n, manifests, 0, 0, 0) && StateAt(exercise, rows, n) == state
  }

  /** What one inspection of the source yields for rows of the exercise, given the chain. */
  function Select(exercise: string, rows: seq<Row>, state: Checkpoint, limit: nat,
                  manifests: seq<Manifest>): Result<Selection>
  {
    var n := UpTo(rows, state.cursor);
    if Reproduces(exercise, rows, n, state, manifests) then SelectNew(exercise, rows, n, limit) else Refused
  }

  /** `sequences`: the last sequence number of every run seen in `rows`. */
  ghost predicate Counts(sequences: map<string, nat>, rows: seq<Row>)
  {
    forall run :: (if run in sequences then sequences[run] else 0) == RunCount(rows, run)
  }

  lemma NothingCounted(rows: seq<Row>)
    ensures Counts(map[], rows[..0])
  {
  }

  /** `_event`: validate one row against the runs seen so far and remember its sequence number. */
  method CheckEvent(rows: seq<Row>, i: nat, sequences: map<string, nat>)
    returns (ok: bool, line: string, updated: map<string, nat>)
    requires i < |rows| && Counts(sequences, rows[..i])
    ensures ok == RowOk(rows, i)
    ensures line == Line(EventOf(rows[i]))
    ensures ok ==> Counts(updated, rows[..i + 1])
  {
    var row := rows[i];
    var expected := (if row.runId in sequences then sequences[row.runId] else 0) + 1;
    line := Line(EventOf(row));
    ok := Admissible(row) && row.sequence == expected;
    updated := sequences[row.runId := expected];
    assert rows[..i + 1][..i] == rows[..i];
  }

  lemma EntriesMore(rows: seq<Row>, n: nat)
    requires n < |rows|
    ensures Lines(Entries(rows[..n + 1])) == Lines(Entries(rows[..n])) + Line(EntryOf(rows[n]))
  {
    var more := Entries(rows[..n + 1]);
    assert more[..n] == Entries(rows[..n]);
  }

  /** `digest.update(_json({"cursor": …, "event": …}))`: the text hashed so far, one entry longer. */
  method UpdateDigest(text: string, rows: seq<Row>, i: nat) returns (updated: string)
    requires i < |rows| && text == Lines(Entries(rows[..i]))
    ensures updated == Lines(Entries(rows[..i + 1]))
  {
    EntriesMore(rows, i);
    updated := text + Line(EntryOf(rows[i]));
  }

  lemma ContentMore(rows: seq<Row>, a: nat, b: nat)
    requires a <= b < |rows|
    ensures Content(rows, a, b + 1) == Content(rows, a, b) + Line(EventOf(rows[b]))
  {
    ContentExtends(rows, a, b, b + 1);
    ContentOfOne(rows, b);
  }

  lemma UpToCounts(rows: seq<Row>, cursor: int, i: nat)
    requires Ordered(rows) && i <= |rows|
    requires forall k :: 0 <= k < i ==> rows[k].cursor <= cursor
    requires i < |rows| ==> rows[i].cursor > cursor
    ensures UpTo(rows, cursor) == i
  {
    if i < |rows| {
      UpToCounts(rows[..|rows| - 1], cursor, i);
    }
  }

  lemma BelowUpTo(rows: seq<Row>, cursor: int, i: nat)
    requires Ordered(rows) && i < |rows| && rows[i].cursor <= cursor
    ensures i < UpTo(rows, cursor)
  {
    if rows[|rows| - 1].cursor > cursor {
      BelowUpTo(rows[..|rows| - 1], cursor, i);
    }
  }

  /** The first loop of `_read`: stream the published prefix past the manifests. `digest` and
      `batchText` stand for the text fed to the two running hashes. */
  method ReadPrefix(exercise: string, rows: seq<Row>, state: Checkpoint, manifests: seq<Manifest>)
    returns (ok: bool, count: nat, digest: string, sequences: map<string, nat>)
    requires Ordered(rows)
    ensures var n := UpTo(rows, state.cursor);
            && ok == Reproduces(exercise, rows, n, state, manifests)
            && (ok ==> count == n && digest == Lines(Entries(rows[..n])) && Counts(sequences, rows[..n]))
  {
    hide Lines, Render, RenderMembers, RowOk, Counts;
    sequences := map[];
    digest := "";
    count := 0;
    var cursor := 0;
    var batchIndex := 0;
    var batchText := "";
    var batchCount := 0;
    ghost var n := UpTo(rows, state.cursor);
    ghost var start := 0;
    assert Entries(rows[..0]) == [];
    NothingCounted(rows);
    ContentOfNone(rows, 0);
    while count < |rows| && rows[count].cursor <= state.cursor
      invariant 0 <= start <= count <= |rows|
      invariant forall k :: 0 <= k < count ==> rows[k].cursor <= state.cursor
      invariant count <= n && batchIndex <= |manifests|
      invariant cursor == CursorAt(rows, count)
      invariant Counts(sequences, rows[..count])
      invariant digest == Lines(Entries(rows[..count]))
      invariant batchText == Content(rows, start, count) && batchCount == count - start
      invariant PrefixOk(exercise, rows, n, manifests, 0, 0, 0) ==
                PrefixOk(exercise, rows, n, manifests, count, batchIndex, start)
    {
      BelowUpTo(rows, state.cursor, count);
      var valid, line, updated := CheckEvent(rows, count, sequences);
      if !valid {
        return false, count, digest, sequences;
      }
      ContentMore(rows, start, count);
      sequences := updated;
      digest := UpdateDigest(digest, rows, count);
      cursor := rows[count].cursor;
      count := count + 1;
      if batchIndex >= |manifests| {
        return false, count, digest, sequences;
      }
      var batch := manifests[batchIndex];
      if !(batch.firstCursor <= cursor <= batch.next.cursor) {
        return false, count, digest, sequences;
      }
      batchText := batchText + line;
      batchCount := batchCount + 1;
      if cursor == batch.next.cursor {
        if Sha256(batchText) != batch.digest || batchCount != batch.eventCount || |batchText| != batch.bytes
           || Checkpoint(VERSION, exercise, cursor, count, Sha256(digest)) != batch.next {
          return false, count, digest, sequences;
        }
        batchIndex := batchIndex + 1;
        batchText := "";
        batchCount := 0;
        start := count;
        ContentOfNone(rows, count);
      }
    }
    UpToCounts(rows, state.cursor, count);
    ok := batchIndex == |manifests| && Checkpoint(VERSION, exercise, cursor, count, Sha256(digest)) == state;
  }

  lemma TakeStep(rows: seq<Row>, n: nat, i: nat, limit: nat)
    requires n <= i < |rows| && i - n < limit
    ensures !RowOk(rows, i) ==> Take(rows, n, i, limit) == Refused
    ensures RowOk(rows, i) ==>
              var size := |Content(rows, n, i)| + |Line(EventOf(rows[i]))|;
              Take(rows, n, i, limit) == if size > MAX_BATCH_BYTES then Ok(i) else Take(rows, n, i + 1, limit)
  {
    ContentMore(rows, n, i);
  }

  /** The second loop of `_read`: as many new rows as the limit and the batch size allow. */
  method TakeRows(rows: seq<Row>, n: nat, limit: nat, digest: string, seen: map<string, nat>)
    returns (ok: bool, content: string, first: nat, count: nat, text: string)
    requires Ordered(rows) && n <= |rows|
    requires digest == Lines(Entries(rows[..n])) && Counts(seen, rows[..n])
    ensures ok == Take(rows, n, n, limit).Ok?
    ensures ok ==> n <= count <= |rows| && Take(rows, n, n, limit) == Ok(count)
    ensures ok ==> content == Content(rows, n, count) && text == Lines(Entries(rows[..count]))
    ensures ok ==> first == if count > n then rows[n].cursor else 0
  {
    hide Lines, Render, RenderMembers, RowOk, Counts;
    var sequences := seen;
    content, first, count, text := "", 0, n, digest;
    ContentOfNone(rows, n);
    ghost var taken := Take(rows, n, n, limit);
    while count < |rows| && count - n < limit
      invariant n <= count <= |rows| && count - n <= limit
      invariant taken == Take(rows, n, count, limit)
      invariant content == Content(rows, n, count)
      invariant text == Lines(Entries(rows[..count]))
      invariant Counts(sequences, rows[..count])
      invariant first == if count > n then rows[n].cursor else 0
    {
      TakeStep(rows, n, count, limit);
      var valid, line, updated := CheckEvent(rows, count, sequences);
      if !valid {
        return false, content, first, count, text;
      }
      if |content| + |line| > MAX_BATCH_BYTES {
        return true, content, first, count, text;
      }
      ContentMore(rows, n, count);
      sequences := updated;
      text := UpdateDigest(text, rows, count);
      first := if first != 0 then first else rows[count].cursor;
      content := content + line;
      count := count + 1;
    }
    ok := true;
  }

  lemma SelectUnfolds(exercise: string, rows: seq<Row>, state: Checkpoint, limit: nat, manifests: seq<Manifest>)
    ensures var n := UpTo(rows, state.cursor);
            var r, t := Select(exercise, rows, state, limit, manifests), Take(rows, n, n, limit);
            && (!Reproduces(exercise, rows, n, state, manifests) || t.Refused? ==> r == Refused)
            && (Reproduces(exercise, rows, n, state, manifests) && t.Ok? ==>
                  r == Ok(Selected(exercise, rows, n, t.value)))
  {
  }

  lemma {:induction false} UpToSplits(rows: seq<Row>, cursor: int)
    requires Ordered(rows)
    ensures var n := UpTo(rows, cursor);
            && (forall k :: 0 <= k < n ==> rows[k].cursor <= cursor)
            && forall k :: n <= k < |rows| ==> rows[k].cursor > cursor
  {
    if rows != [] && rows[|rows| - 1].cursor > cursor {
      UpToSplits(rows[..|rows| - 1], cursor);
    }
  }

  /** What a selection says of the raw source: it begins with the exercise's next row, holds as many rows
      as the checkpoints are apart, and leaves pending exactly the rows behind its own checkpoint. */
  ghost predicate Accounts(source: seq<Row>, exercise: string, state: Checkpoint, limit: nat, s: Selection)
  {
    && s.pending == RowsAfter(source, exercise, s.next.cursor)
    && s.next.eventCount + s.pending == RowsAfter(source, exercise, 0)
    && 0 <= s.next.eventCount - state.eventCount <= limit
    && (s.content == "" <==> s.next.eventCount == state.eventCount)
    && (s.content != "" ==> IsNextRow(source, exercise, state.cursor, s.first))
  }

  lemma SelectionAccounts(source: seq<Row>, exercise: string, state: Checkpoint, limit: nat, manifests: seq<Manifest>)
    requires Ordered(source)
    ensures var r := Select(exercise, ForExercise(source, exercise), state, limit, manifests);
            r.Ok? ==> Accounts(source, exercise, state, limit, r.value)
  {
    hide Lines, PrefixOk, Take, RowOk, Content, UpTo, IsNextRow, RowsAfter, ForExercise, Events, Select, Ordered;
    var rows := ForExercise(source, exercise);
    var n := UpTo(rows, state.cursor);
    SelectUnfolds(exercise, rows, state, limit, manifests);
    RowsAfterIs(source, exercise, 0);
    if Take(rows, n, n, limit).Ok? {
      var e := Take(rows, n, n, limit).value;
      TakeBounded(rows, n, limit);
      RowsAfterIs(source, exercise, e);
      ContentIsEmptyIff(rows, n, e);
      if e > n {
        NextRowIs(source, exercise, state.cursor);
      }
    }
  }

  lemma ContentIsEmptyIff(rows: seq<Row>, n: nat, e: nat)
    requires n <= e <= |rows|
    ensures Content(rows, n, e) == "" <==> e == n
  {
    hide Lines;
    ContentOfNone(rows, n);
    LinesCount(Events(rows[n..e]));
  }

  lemma NextRowIs(source: seq<Row>, exercise: string, cursor: int)
    requires Ordered(source) && UpTo(ForExercise(source, exercise), cursor) < |ForExercise(source, exercise)|
    ensures var rows := ForExercise(source, exercise);
            IsNextRow(source, exercise, cursor, rows[UpTo(rows, cursor)].cursor)
  {
    hide ForExercise, UpTo;
    var rows := ForExercise(source, exercise);
    var n := UpTo(rows, cursor);
    ForExerciseOrdered(source, exercise);
    ForExerciseHasAll(source, exercise);
    UpToSplits(rows, cursor);
    assert rows[n] in rows;
    forall r | r in source && r.exerciseId == exercise && r.cursor > cursor ensures r.cursor >= rows[n].cursor {
      assert r in rows;
      var k :| 0 <= k < |rows| && rows[k] == r;
    }
  }

  lemma TakeBounded(rows: seq<Row>, n: nat, limit: nat)
    requires n <= |rows|
    ensures Take(rows, n, n, limit).Ok? ==> n <= Take(rows, n, n, limit).value <= |rows|
    ensures Take(rows, n, n, limit).Ok? ==> Take(rows, n, n, limit).value - n <= limit
  {
  }

  /** `_read` */
  method Read(source: seq<Row>, exercise: string, state: Checkpoint, limit: nat, manifests: seq<Manifest>)
    returns (r: Result<Selection>)
    requires Ordered(source)
    ensures r == Select(exercise, ForExercise(source, exercise), state, limit, manifests)
    ensures r.Ok? ==> Accounts(source, exercise, state, limit, r.value)
  {
    hide Lines, Render, RenderMembers, PrefixOk, Take, RowOk, Counts, Ordered, Reproduces, Accounts;
    ForExerciseOrdered(source, exercise);
    SelectionAccounts(source, exercise, state, limit, manifests);
    var rows := ForExercise(source, exercise);
    SelectUnfolds(exercise, rows, state, limit, manifests);
    var ok, n, digest, sequences := ReadPrefix(exercise, rows, state, manifests);
    r := Refused;
    if ok {
      var taken, content, first, count, text := TakeRows(rows, n, limit, digest, sequences);
      if taken {
        var cursor := if count == 0 then 0 else rows[count - 1].cursor;
        var following := Checkpoint(VERSION, exercise, cursor, count, Sha256(text));
        assert following == StateAt(exercise, rows, count);
        r := Ok(Selection(content, first, following, |rows| - count));
      }
    }
  }

  // ---------------------------------------------------------------- what a published spool is

  /** One batch: rows `start` up to `stop`, in a directory whose name begins at `first`. */
  datatype Piece = Piece(start: nat, stop: nat, first: int)

  ghost predicate PieceOk(rows: seq<Row>, p: Piece)
  {
    && p.start < p.stop <= |rows|
    && p.stop - p.start <= 1000
    && |Content(rows, p.start, p.stop)| <= 20971520
    && CursorAt(rows, p.start) < p.first <= rows[p.start].cursor
    && forall i :: p.start <= i < p.stop ==> RowOk(rows, i)
  }

  function Reached(pieces: seq<Piece>): nat
  {
    if pieces == [] then 0 else pieces[|pieces| - 1].stop
  }

  /** Consecutive pieces that cover the rows from the first one on, without gap or overlap. */
  ghost predicate Cuts(rows: seq<Row>, pieces: seq<Piece>)
  {
    forall k :: 0 <= k < |pieces| ==> PieceOk(rows, pieces[k]) && pieces[k].start == Reached(pieces[..k])
  }

  ghost function NameFor(rows: seq<Row>, p: Piece): Name
    requires PieceOk(rows, p)
  {
    Name(p.first, rows[p.stop - 1].cursor)
  }

  ghost function ManifestFor(exercise: string, rows: seq<Row>, p: Piece): Manifest
    requires PieceOk(rows, p)
  {
    var content := Content(rows, p.start, p.stop);
    Manifest(VERSION, exercise, StateAt(exercise, rows, p.start), StateAt(exercise, rows, p.stop),
             p.first, p.stop - p.start, |content|, Sha256(content))
  }

  ghost function DirFor(exercise: string, rows: seq<Row>, p: Piece): BatchDir
    requires PieceOk(rows, p)
  {
    BatchDir(Readable(ManifestFor(exercise, rows, p)), Some(Content(rows, p.start, p.stop)), false)
  }

  /** The batch directories are those of the pieces, byte for byte, and there are no others. */
  ghost predicate Holds(batches: map<Name, BatchDir>, exercise: string, rows: seq<Row>, pieces: seq<Piece>)
  {
    && Cuts(rows, pieces)
    && (forall k :: 0 <= k < |pieces| ==>
          NameFor(rows, pieces[k]) in batches && batches[NameFor(rows, pieces[k])] == DirFor(exercise, rows, pieces[k]))
    && (forall n :: n in batches ==> exists k :: 0 <= k < |pieces| && NameFor(rows, pieces[k]) == n)
  }

  /** HEAD marks the start or the end of one of the pieces. */
  ghost predicate HeadOn(head: Checkpoint, exercise: string, rows: seq<Row>, pieces: seq<Piece>)
    requires Cuts(rows, pieces)
  {
    head == Start(exercise) || exists k :: 0 <= k < |pieces| && head == StateAt(exercise, rows, pieces[k].stop)
  }

  ghost function Names(rows: seq<Row>, pieces: seq<Piece>): (names: seq<Name>)
    requires Cuts(rows, pieces)
    ensures |names| == |pieces|
  {
    seq(|pieces|, k requires 0 <= k < |pieces| => NameFor(rows, pieces[k]))
  }

  ghost function Manifests(exercise: string, rows: seq<Row>, pieces: seq<Piece>): (manifests: seq<Manifest>)
    requires Cuts(rows, pieces)
    ensures |manifests| == |pieces|
  {
    seq(|pieces|, k requires 0 <= k < |pieces| => ManifestFor(exercise, rows, pieces[k]))
  }

  // ---------------------------------------------------------------- geometry of pieces

  lemma {:induction false} PiecesAdvance(rows: seq<Row>, pieces: seq<Piece>, i: nat, j: nat)
    requires Cuts(rows, pieces) && i < j < |pieces|
    ensures pieces[i].stop <= pieces[j].start
  {
    hide Lines, RowOk, Content;
    assert pieces[..j][j - 1] == pieces[j - 1];
    if i < j - 1 {
      PiecesAdvance(rows, pieces, i, j - 1);
    }
  }

  lemma CutsReach(rows: seq<Row>, pieces: seq<Piece>)
    requires Cuts(rows, pieces)
    ensures Reached(pieces) <= |rows|
    ensures forall k :: 0 <= k < |pieces| ==> pieces[k].stop <= Reached(pieces)
  {
    hide Lines, RowOk;
    forall k | 0 <= k < |pieces| - 1 ensures pieces[k].stop <= Reached(pieces) {
      PiecesAdvance(rows, pieces, k, |pieces| - 1);
    }
  }

  lemma NamesInOrder(rows: seq<Row>, a: Piece, b: Piece)
    requires Ordered(rows) && PieceOk(rows, a) && PieceOk(rows, b) && a.stop <= b.start
    ensures Before(NameFor(rows, a), NameFor(rows, b))
  {
    hide Lines, RowOk, Content;
    assert rows[a.start].cursor <= rows[a.stop - 1].cursor <= CursorAt(rows, b.start);
  }

  lemma NamesIncrease(rows: seq<Row>, pieces: seq<Piece>)
    requires Ordered(rows) && Cuts(rows, pieces)
    ensures Increasing(Names(rows, pieces))
  {
    hide Lines, RowOk, Content, Before;
    forall i, j | 0 <= i < j < |pieces|
      ensures Before(Names(rows, pieces)[i], Names(rows, pieces)[j])
    {
      PiecesAdvance(rows, pieces, i, j);
      NamesInOrder(rows, pieces[i], pieces[j]);
    }
  }

  lemma SortedNames(batches: map<Name, BatchDir>, exercise: string, rows: seq<Row>, pieces: seq<Piece>)
    requires Ordered(rows) && Holds(batches, exercise, rows, pieces)
    ensures Sorted(batches.Keys) == Names(rows, pieces)
  {
    hide Lines, DirFor, RowOk;
    var names := Names(rows, pieces);
    NamesIncrease(rows, pieces);
    forall n ensures n in Sorted(batches.Keys) <==> n in names {
      if n in batches {
        var k :| 0 <= k < |pieces| && NameFor(rows, pieces[k]) == n;
        assert names[k] == n;
      }
    }
    SortedIsUnique(Sorted(batches.Keys), names);
  }
}
