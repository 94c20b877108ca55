// Exactly which spools the publisher accepts: those whose batches are, byte for byte, the
// canonical encoding of consecutive rows of the source.

module SpoolTheorems {
  import opened Prelude
  import opened CanonicalJson
  import opened SpoolModel
  import opened SpoolChain

  /** The chain is intact and the source reproduces it. */
  predicate Accepted(root: Option<Spool>, exercise: string, rows: seq<Row>)
  {
    var found := Inspect(root, exercise);
    && found.Ok?
    && Reproduces(exercise, rows, UpTo(rows, found.value.previous.cursor), found.value.previous, found.value.manifests)
  }

  /** Nothing is published yet, or the batches are a partition of the first rows and HEAD is on it. */
  ghost predicate Published(root: Option<Spool>, exercise: string, rows: seq<Row>)
  {
    root.None? ||
    var spool := root.value;
    if spool.head.Absent? then spool.batches == map[] && spool.stages == map[] && !spool.foreign
    else
      && spool.head.Readable? && !spool.foreign
      && exists pieces :: Holds(spool.batches, exercise, rows, pieces)
                          && HeadOn(spool.head.content, exercise, rows, pieces)
  }

  // ---------------------------------------------------------------- published is accepted

  /** A manifest the publisher writes is one that `_batch` accepts. */
  lemma WrittenBatchAccepted(exercise: string, rows: seq<Row>, p: Piece)
    requires Ordered(rows) && PieceOk(rows, p)
    ensures CheckBatch(NameFor(rows, p), DirFor(exercise, rows, p), exercise, StateAt(exercise, rows, p.start))
            == Ok(ManifestFor(exercise, rows, p))
  {
    hide Lines, LineCount, RowOk;
    StateAtIsValid(exercise, rows, p.start);
    StateAtIsValid(exercise, rows, p.stop);
    LinesCount(Events(rows[p.start..p.stop]));
    assert rows[p.start].cursor <= rows[p.stop - 1].cursor;
  }

  /** Where piece `k` lies, and what the publisher wrote for it. */
  lemma PieceAt(batches: map<Name, BatchDir>, exercise: string, rows: seq<Row>, pieces: seq<Piece>, k: nat)
    requires Holds(batches, exercise, rows, pieces) && k < |pieces|
    ensures PieceOk(rows, pieces[k])
    ensures pieces[k].start == Reached(pieces[..k]) && pieces[k].stop == Reached(pieces[..k + 1])
    ensures var name := Names(rows, pieces)[k];
            && name == NameFor(rows, pieces[k])
            && name in batches && batches[name] == DirFor(exercise, rows, pieces[k])
    ensures Manifests(exercise, rows, pieces)[k] == ManifestFor(exercise, rows, pieces[k])
  {
    hide Lines, RowOk, Content;
    assert pieces[..k + 1][k] == pieces[k];
  }

  lemma {:induction false} WalkAccepts(batches: map<Name, BatchDir>, exercise: string, rows: seq<Row>,
                                       pieces: seq<Piece>, k: nat)
    requires Ordered(rows) && Holds(batches, exercise, rows, pieces) && k <= |pieces|
    ensures Reached(pieces[..k]) <= |rows|
    ensures forall n :: n in Names(rows, pieces)[k..] ==> n in batches
    ensures Walk(batches, Names(rows, pieces)[k..], exercise, StateAt(exercise, rows, Reached(pieces[..k])))
            == Ok(Manifests(exercise, rows, pieces)[k..])
    decreases |pieces| - k
  {
    hide Lines, CheckBatch, RowOk, StateAt, Cuts, Ordered, NameFor, DirFor, Content, Reached;
    var names, manifests := Names(rows, pieces), Manifests(exercise, rows, pieces);
    if k < |pieces| {
      PieceAt(batches, exercise, rows, pieces, k);
      WrittenBatchAccepted(exercise, rows, pieces[k]);
      WalkAccepts(batches, exercise, rows, pieces, k + 1);
      assert names[k..] == [names[k]] + names[k + 1..];
      assert names[k..][1..] == names[k + 1..];
      assert manifests[k..] == [manifests[k]] + manifests[k + 1..];
    } else {
      AllReached(rows, pieces);
      assert pieces[..k] == pieces && names[k..] == [] && manifests[k..] == [];
    }
  }

  lemma AllReached(rows: seq<Row>, pieces: seq<Piece>)
    requires Cuts(rows, pieces)
    ensures Reached(pieces) <= |rows|
  {
    hide Lines, RowOk;
  }

  lemma {:induction false} PrefixAccepts(batches: map<Name, BatchDir>, exercise: string, rows: seq<Row>,
                                         pieces: seq<Piece>, i: nat, b: nat, start: nat)
    requires Ordered(rows) && Holds(batches, exercise, rows, pieces)
    requires b <= |pieces| && start == Reached(pieces[..b]) && start <= i <= Reached(pieces) <= |rows|
    requires if b < |pieces| then i < pieces[b].stop else i == start
    ensures PrefixOk(exercise, rows, Reached(pieces), Manifests(exercise, rows, pieces), i, b, start)
    decreases Reached(pieces) - i
  {
    hide Lines, Content, RowOk, Cuts, Ordered, Reached, NameFor, DirFor;
    if b == |pieces| {
      assert pieces[..b] == pieces;
    } else {
      var p := pieces[b];
      PieceAt(batches, exercise, rows, pieces, b);
      StopsWithin(rows, pieces, b);
      CursorBetween(rows, p, i);
      if i + 1 == p.stop {
        if b + 1 < |pieces| {
          PieceAt(batches, exercise, rows, pieces, b + 1);
        }
        PrefixAccepts(batches, exercise, rows, pieces, i + 1, b + 1, i + 1);
      } else {
        PrefixAccepts(batches, exercise, rows, pieces, i + 1, b, start);
      }
    }
  }

  lemma StopsWithin(rows: seq<Row>, pieces: seq<Piece>, k: nat)
    requires Cuts(rows, pieces) && k < |pieces|
    ensures pieces[k].stop <= Reached(pieces)
  {
    CutsReach(rows, pieces);
  }

  lemma CursorBetween(rows: seq<Row>, p: Piece, i: nat)
    requires Ordered(rows) && PieceOk(rows, p) && p.start <= i < p.stop
    ensures p.first <= rows[i].cursor <= rows[p.stop - 1].cursor
    ensures rows[i].cursor == rows[p.stop - 1].cursor <==> i + 1 == p.stop
  {
    hide Lines, RowOk;
    assert rows[p.start].cursor <= rows[i].cursor;
  }

  lemma UpToOwnCursor(rows: seq<Row>, n: nat)
    requires Ordered(rows) && n <= |rows|
    ensures UpTo(rows, CursorAt(rows, n)) == n
  {
    UpToCounts(rows, CursorAt(rows, n), n);
  }

  lemma HeadIsSeen(head: Checkpoint, exercise: string, rows: seq<Row>, pieces: seq<Piece>)
    requires Cuts(rows, pieces)
    ensures HeadOn(head, exercise, rows, pieces) <==> HeadSeen(exercise, head, Manifests(exercise, rows, pieces))
  {
    hide Lines, RowOk;
    var manifests := Manifests(exercise, rows, pieces);
    assert forall k :: 0 <= k < |pieces| ==> manifests[k].next == StateAt(exercise, rows, pieces[k].stop);
  }

  /** Recovery: whatever point of publication a crash left behind, the next export is not refused,
      and finds the end of the chain. */
  lemma {:induction false} PublishedIsAccepted(spool: Spool, exercise: string, rows: seq<Row>, pieces: seq<Piece>)
    requires Ordered(rows) && spool.head.Readable? && !spool.foreign
    requires Holds(spool.batches, exercise, rows, pieces)
    requires HeadOn(spool.head.content, exercise, rows, pieces)
    ensures Reached(pieces) <= |rows|
    ensures Inspect(Some(spool), exercise)
            == Ok(Inspection(StateAt(exercise, rows, Reached(pieces)), true, Manifests(exercise, rows, pieces)))
    ensures UpTo(rows, CursorAt(rows, Reached(pieces))) == Reached(pieces)
    ensures Reproduces(exercise, rows, Reached(pieces), StateAt(exercise, rows, Reached(pieces)),
                       Manifests(exercise, rows, pieces))
  {
    hide Lines, RowOk, PieceOk, Walk, PrefixOk, CheckState, Content, HeadOn, HeadSeen, StateAt, Ordered, UpTo, Inspect,
      Reproduces, Reached, Names, Manifests;
    CutsReach(rows, pieces);
    PublishedInspects(spool, exercise, rows, pieces);
    PublishedReproduces(spool, exercise, rows, pieces);
    UpToOwnCursor(rows, Reached(pieces));
  }

  lemma PublishedInspects(spool: Spool, exercise: string, rows: seq<Row>, pieces: seq<Piece>)
    requires Ordered(rows) && spool.head.Readable? && !spool.foreign
    requires Holds(spool.batches, exercise, rows, pieces)
    requires HeadOn(spool.head.content, exercise, rows, pieces)
    ensures Reached(pieces) <= |rows|
    ensures Inspect(Some(spool), exercise)
            == Ok(Inspection(StateAt(exercise, rows, Reached(pieces)), true, Manifests(exercise, rows, pieces)))
  {
    hide Lines, RowOk, PieceOk, Walk, PrefixOk, CheckState, Content, HeadOn, HeadSeen, StateAt, Ordered, Names,
      Manifests, Reached, Sorted;
    var head := spool.head.content;
    CutsReach(rows, pieces);
    PublishedWalks(spool.batches, exercise, rows, pieces);
    HeadIsSeen(head, exercise, rows, pieces);
    HeadIsValid(head, exercise, rows, pieces);
    ChainEndIsReached(exercise, rows, pieces);
  }

  lemma PublishedWalks(batches: map<Name, BatchDir>, exercise: string, rows: seq<Row>, pieces: seq<Piece>)
    requires Ordered(rows) && Holds(batches, exercise, rows, pieces)
    ensures Walk(batches, Sorted(batches.Keys), exercise, Start(exercise)) == Ok(Manifests(exercise, rows, pieces))
  {
    hide Lines, RowOk, PieceOk, Walk, Content, StateAt, Ordered, Sorted;
    CutsReach(rows, pieces);
    SortedNames(batches, exercise, rows, pieces);
    WalkAccepts(batches, exercise, rows, pieces, 0);
    StartIsStateAtZero(exercise, rows);
    if pieces != [] {
      FirstPiece(rows, pieces);
    }
    assert Names(rows, pieces)[0..] == Names(rows, pieces);
    assert Manifests(exercise, rows, pieces)[0..] == Manifests(exercise, rows, pieces);
  }

  lemma PublishedReproduces(spool: Spool, exercise: string, rows: seq<Row>, pieces: seq<Piece>)
    requires Ordered(rows) && Holds(spool.batches, exercise, rows, pieces)
    ensures Reached(pieces) <= |rows|
    ensures Reproduces(exercise, rows, Reached(pieces), StateAt(exercise, rows, Reached(pieces)),
                       Manifests(exercise, rows, pieces))
  {
    hide Lines, RowOk, PieceOk, PrefixOk, Content, StateAt, Ordered;
    CutsReach(rows, pieces);
    if pieces != [] {
      FirstPiece(rows, pieces);
    }
    PrefixAccepts(spool.batches, exercise, rows, pieces, 0, 0, 0);
  }

  lemma FirstPiece(rows: seq<Row>, pieces: seq<Piece>)
    requires Cuts(rows, pieces) && pieces != []
    ensures pieces[0].start == 0 < pieces[0].stop
  {
    assert pieces[..0] == [];
  }

  lemma HeadIsValid(head: Checkpoint, exercise: string, rows: seq<Row>, pieces: seq<Piece>)
    requires Ordered(rows) && Cuts(rows, pieces) && HeadOn(head, exercise, rows, pieces)
    ensures CheckState(head, exercise)
  {
    hide Lines, RowOk;
    if head != Start(exercise) {
      var k :| 0 <= k < |pieces| && head == StateAt(exercise, rows, pieces[k].stop);
      StateAtIsValid(exercise, rows, pieces[k].stop);
    }
  }

  lemma ChainEndIsReached(exercise: string, rows: seq<Row>, pieces: seq<Piece>)
    requires Cuts(rows, pieces) && Reached(pieces) <= |rows|
    ensures ChainEnd(exercise, Manifests(exercise, rows, pieces)) == StateAt(exercise, rows, Reached(pieces))
  {
    hide RowOk;
    StartIsStateAtZero(exercise, rows);
  }

  // ---------------------------------------------------------------- accepted is published

  /** Directory `k` was checked against the checkpoint before it. */
  ghost predicate CheckedAt(batches: map<Name, BatchDir>, names: seq<Name>, exercise: string,
                            previous: Checkpoint, manifests: seq<Manifest>, k: nat)
    requires k < |names| == |manifests|
  {
    && names[k] in batches
    && var before := if k == 0 then previous else manifests[k - 1].next;
    CheckBatch(names[k], batches[names[k]], exercise, before) == Ok(manifests[k])
  }

  ghost predicate Chained(batches: map<Name, BatchDir>, names: seq<Name>, exercise: string,
                          previous: Checkpoint, manifests: seq<Manifest>)
  {
    && |names| == |manifests|
    && forall k :: 0 <= k < |names| ==> CheckedAt(batches, names, exercise, previous, manifests, k)
  }

  lemma {:induction false} WalkIsChained(batches: map<Name, BatchDir>, names: seq<Name>, exercise: string,
                                         previous: Checkpoint)
    requires forall n :: n in names ==> n in batches
    requires Walk(batches, names, exercise, previous).Ok?
    ensures Chained(batches, names, exercise, previous, Walk(batches, names, exercise, previous).value)
  {
    hide CheckBatch;
    if names != [] {
      var m := CheckBatch(names[0], batches[names[0]], exercise, previous).value;
      WalkIsChained(batches, names[1..], exercise, m.next);
      var rest := Walk(batches, names[1..], exercise, m.next).value;
      var all := Walk(batches, names, exercise, previous).value;
      forall k | 0 <= k < |names|
        ensures CheckedAt(batches, names, exercise, previous, all, k)
      {
        if k > 0 {
          assert names[1..][k - 1] == names[k] && rest[k - 1] == all[k];
          assert CheckedAt(batches, names[1..], exercise, m.next, rest, k - 1);
        }
      }
    }
  }

  /** The first directories are those of the pieces found so far. */
  ghost predicate Explains(batches: map<Name, BatchDir>, names: seq<Name>, exercise: string, rows: seq<Row>,
                           manifests: seq<Manifest>, pieces: seq<Piece>)
  {
    && Cuts(rows, pieces)
    && |pieces| <= |names| == |manifests|
    && forall k :: 0 <= k < |pieces| ==>
         && names[k] == NameFor(rows, pieces[k])
         && names[k] in batches && batches[names[k]] == DirFor(exercise, rows, pieces[k])
         && manifests[k] == ManifestFor(exercise, rows, pieces[k])
  }

  /** A directory that passed `_batch` and matches the source is the directory of those rows. */
  lemma MatchedBatchIsWritten(name: Name, dir: BatchDir, exercise: string, rows: seq<Row>, m: Manifest, p: Piece)
    requires Ordered(rows) && p.start < p.stop <= |rows| && p.first == m.firstCursor
    requires CheckBatch(name, dir, exercise, StateAt(exercise, rows, p.start)) == Ok(m)
    requires BatchMatches(exercise, rows, m, p.start, p.stop)
    requires m.firstCursor <= rows[p.start].cursor
    requires forall i :: p.start <= i < p.stop ==> RowOk(rows, i)
    ensures PieceOk(rows, p) && name == NameFor(rows, p)
    ensures dir == DirFor(exercise, rows, p) && m == ManifestFor(exercise, rows, p)
  {
    hide Lines, LineCount, CheckState, RowOk;
  }

  lemma CutsMore(rows: seq<Row>, pieces: seq<Piece>, p: Piece)
    requires Cuts(rows, pieces) && PieceOk(rows, p) && p.start == Reached(pieces)
    ensures Cuts(rows, pieces + [p]) && Reached(pieces + [p]) == p.stop
  {
    hide PieceOk;
    var more := pieces + [p];
    forall k | 0 <= k < |more|
      ensures PieceOk(rows, more[k]) && more[k].start == Reached(more[..k])
    {
      assert more[..k] == pieces[..k];
      assert pieces[..|pieces|] == pieces;
    }
  }

  /** The directory after the explained ones was checked against the checkpoint they end at. */
  lemma NextIsChecked(batches: map<Name, BatchDir>, names: seq<Name>, exercise: string, rows: seq<Row>,
                      manifests: seq<Manifest>, pieces: seq<Piece>)
    requires Chained(batches, names, exercise, Start(exercise), manifests)
    requires Explains(batches, names, exercise, rows, manifests, pieces)
    requires Reached(pieces) <= |rows| && |pieces| < |manifests|
    ensures var b := |pieces|;
            && names[b] in batches
            && CheckBatch(names[b], batches[names[b]], exercise, StateAt(exercise, rows,
                 Reached(pieces))) == Ok(manifests[b])
  {
    hide Lines, CheckBatch, PieceOk, StateAt, Explains, Reached;
    PreviousIsStateAt(batches, names, exercise, rows, manifests, pieces);
    assert CheckedAt(batches, names, exercise, Start(exercise), manifests, |pieces|);
  }

  /** Rebuild the pieces from a successful pass over the source. */
  lemma {:induction false} Rebuild(batches: map<Name, BatchDir>, names: seq<Name>, exercise: string, rows: seq<Row>,
                                   n: nat, manifests: seq<Manifest>, i: nat, pieces: seq<Piece>)
    returns (all: seq<Piece>)
    requires Ordered(rows) && Chained(batches, names, exercise, Start(exercise), manifests)
    requires Explains(batches, names, exercise, rows, manifests, pieces)
    requires Reached(pieces) <= i <= n <= |rows|
    requires PrefixOk(exercise, rows, n, manifests, i, |pieces|, Reached(pieces))
    requires i > Reached(pieces) ==>
               |pieces| < |manifests| && manifests[|pieces|].firstCursor <= rows[Reached(pieces)].cursor
    requires forall k :: Reached(pieces) <= k < i ==> RowOk(rows, k)
    ensures Explains(batches, names, exercise, rows, manifests, all)
    ensures |all| == |manifests| && Reached(all) == n
    decreases n - i
  {
    hide Lines, Content, CheckBatch, PieceOk, RowOk, StateAt, DirFor, ManifestFor, NameFor;
    var b, start := |pieces|, Reached(pieces);
    if i == n {
      all := pieces;
    } else if rows[i].cursor == manifests[b].next.cursor {
      var p := Piece(start, i + 1, manifests[b].firstCursor);
      NextIsChecked(batches, names, exercise, rows, manifests, pieces);
      MatchedBatchIsWritten(names[b], batches[names[b]], exercise, rows, manifests[b], p);
      CutsMore(rows, pieces, p);
      all := Rebuild(batches, names, exercise, rows, n, manifests, i + 1, pieces + [p]);
    } else {
      all := Rebuild(batches, names, exercise, rows, n, manifests, i + 1, pieces);
    }
  }

  lemma PreviousIsStateAt(batches: map<Name, BatchDir>, names: seq<Name>, exercise: string, rows: seq<Row>,
                          manifests: seq<Manifest>, pieces: seq<Piece>)
    requires Explains(batches, names, exercise, rows, manifests, pieces) && Reached(pieces) <= |rows|
    ensures StateAt(exercise, rows, Reached(pieces))
            == if |pieces| == 0 then Start(exercise) else manifests[|pieces| - 1].next
  {
    hide Lines;
    StartIsStateAtZero(exercise, rows);
  }

  lemma NothingExplained(batches: map<Name, BatchDir>, names: seq<Name>, exercise: string, rows: seq<Row>,
                         manifests: seq<Manifest>)
    requires |names| == |manifests|
    ensures Explains(batches, names, exercise, rows, manifests, [])
  {
  }

  lemma ExplainedIsHeld(batches: map<Name, BatchDir>, names: seq<Name>, exercise: string, rows: seq<Row>,
                        manifests: seq<Manifest>, pieces: seq<Piece>)
    requires Explains(batches, names, exercise, rows, manifests, pieces) && |pieces| == |names|
    requires forall n :: n in batches ==> n in names
    ensures Cuts(rows, pieces) && Holds(batches, exercise, rows, pieces)
    ensures manifests == Manifests(exercise, rows, pieces)
  {
    hide Lines, PieceOk, DirFor;
    forall m | m in batches
      ensures exists k :: 0 <= k < |pieces| && NameFor(rows, pieces[k]) == m
    {
      var k :| 0 <= k < |names| && names[k] == m;
      assert NameFor(rows, pieces[k]) == m;
    }
  }

  /** Soundness on arbitrary disk contents: an accepted chain holds exactly the canonical lines of
      the source rows it claims, and HEAD is on it. */
  lemma {:induction false} AcceptedIsPublished(spool: Spool, exercise: string,
        rows: seq<Row>) returns (pieces: seq<Piece>)
    requires Ordered(rows) && !spool.head.Absent?
    requires Accepted(Some(spool), exercise, rows)
    ensures spool.head.Readable? && !spool.foreign
    ensures Holds(spool.batches, exercise, rows, pieces)
    ensures HeadOn(spool.head.content, exercise, rows, pieces)
    ensures Reached(pieces) == UpTo(rows, Inspect(Some(spool), exercise).value.previous.cursor)
  {
    hide Lines, Content, CheckBatch, PieceOk, RowOk, PrefixOk, CheckState, Walk, StateAt, UpTo, HeadOn, HeadSeen,
      Explains, Holds;
    var names := Sorted(spool.batches.Keys);
    var manifests := Walk(spool.batches, names, exercise, Start(exercise)).value;
    var n := UpTo(rows, ChainEnd(exercise, manifests).cursor);
    WalkIsChained(spool.batches, names, exercise, Start(exercise));
    NothingExplained(spool.batches, names, exercise, rows, manifests);
    pieces := Rebuild(spool.batches, names, exercise, rows, n, manifests, 0, []);
    ExplainedIsHeld(spool.batches, names, exercise, rows, manifests, pieces);
    HeadIsSeen(spool.head.content, exercise, rows, pieces);
  }

  /** Acceptance and being a partition of the source are the same thing. */
  lemma {:induction false} AcceptedIffPublished(root: Option<Spool>, exercise: string, rows: seq<Row>)
    requires Ordered(rows)
    ensures Accepted(root, exercise, rows) <==> Published(root, exercise, rows)
  {
    hide Lines, Content, CheckBatch, PieceOk, RowOk, CheckState, Walk, Cuts, HeadOn, UpTo, PrefixOk, StateAt;
    if root.None? || root.value.head.Absent? {
      UpToOwnCursor(rows, 0);
      StartIsStateAtZero(exercise, rows);
      NothingToReproduce(exercise, rows);
    } else {
      var spool := root.value;
      if Accepted(root, exercise, rows) {
        var pieces := AcceptedIsPublished(spool, exercise, rows);
      }
      if Published(root, exercise, rows) {
        var pieces :|
          Holds(spool.batches, exercise, rows, pieces) && HeadOn(spool.head.content, exercise, rows, pieces);
        PublishedIsAccepted(spool, exercise, rows, pieces);
        assert StateAt(exercise, rows, Reached(pieces)).cursor == CursorAt(rows, Reached(pieces)) by {
          CheckpointCursor(exercise, rows, Reached(pieces));
        }
      }
    }
  }

  lemma NothingToReproduce(exercise: string, rows: seq<Row>)
    ensures PrefixOk(exercise, rows, 0, [], 0, 0, 0)
  {
  }

  lemma CheckpointCursor(exercise: string, rows: seq<Row>, n: nat)
    requires n <= |rows|
    ensures StateAt(exercise, rows, n).cursor == CursorAt(rows, n)
  {
  }

  /** Tampering is refused: once a spool was accepted against a source, no other source is accepted
      unless its first rows have the same rowids and the same events. */
  lemma {:induction false} TamperingIsRefused(root: Option<Spool>, exercise: string, rows: seq<Row>, altered: seq<Row>)
    requires Ordered(rows) && Ordered(altered) && Accepted(root, exercise, rows)
    ensures var n := UpTo(rows, Inspect(root, exercise).value.previous.cursor);
            n > |altered|
            || (exists i :: 0 <= i < n
                            && (rows[i].cursor != altered[i].cursor || EventOf(rows[i]) != EventOf(altered[i])))
            ==> !Accepted(root, exercise, altered)
  {
    hide Lines, PrefixOk, Inspect, UpTo;
    var previous := Inspect(root, exercise).value.previous;
    if Accepted(root, exercise, altered) {
      StateDeterminesHistory(exercise, rows, altered, UpTo(rows, previous.cursor), UpTo(altered, previous.cursor));
    }
  }
}
