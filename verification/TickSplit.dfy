// One-second ticks and one large jump leave the same evidence: when, and exactly when.

module TickSplit {
  import opened Prelude
  import opened ExerciseEngine
  import opened EngineFrames

  // ---------------------------------------------------------------- splitting the schedule

  /** Due items up to `to` are those up to `mid`, in order, followed by the later ones, in order. */
  lemma {:induction false} InsertEarly(item: Item, early: seq<Item>, late: seq<Item>)
    requires forall i :: i in late ==> Seconds(item) < Seconds(i)
    ensures Insert(item, early + late) == Insert(item, early) + late
  {
    if early == [] {
      assert early + late == late;
      assert late != [] ==> late[0] in late;
    } else {
      assert (early + late)[1..] == early[1..] + late;
      if KeyLess(early[0], item) {
        InsertEarly(item, early[1..], late);
      } else {
        assert [item] + (early + late) == [item] + early + late;
      }
    }
  }

  lemma {:induction false} InsertLate(item: Item, early: seq<Item>, late: seq<Item>)
    requires forall i :: i in early ==> Seconds(i) < Seconds(item)
    ensures Insert(item, early + late) == early + Insert(item, late)
  {
    if early == [] {
      assert early + late == late;
    } else {
      assert early[0] in early;
      assert (early + late)[1..] == early[1..] + late;
      InsertLate(item, early[1..], late);
      assert [early[0]] + (early[1..] + Insert(item, late)) == early + Insert(item, late);
    }
  }

  lemma {:induction false} DueSplits(items: seq<Item>, e: Engine, from: int, mid: int, to: int)
    requires from <= mid <= to
    ensures Sort(DueItems(items, e, from, to))
            == Sort(DueItems(items, e, from, mid)) + Sort(DueItems(items, e, mid, to))
  {
    if items != [] {
      var item, rest := items[0], items[1..];
      var early, late := Sort(DueItems(rest, e, from, mid)), Sort(DueItems(rest, e, mid, to));
      DueSplits(rest, e, from, mid, to);
      DueItemsAre(rest, e, from, mid);
      DueItemsAre(rest, e, mid, to);
      SortKeepsMembers(DueItems(rest, e, from, mid));
      SortKeepsMembers(DueItems(rest, e, mid, to));
      if IsDue(e, item, from, to) {
        if Seconds(item) <= mid {
          DueHead(items, e, from, mid);
          InsertEarly(item, early, late);
        } else {
          DueHead(items, e, mid, to);
          InsertLate(item, early, late);
        }
        DueHead(items, e, from, to);
      }
    }
  }

  lemma DueHead(items: seq<Item>, e: Engine, from: int, to: int)
    requires items != [] && IsDue(e, items[0], from, to)
    ensures Sort(DueItems(items, e, from, to)) == Insert(items[0], Sort(DueItems(items[1..], e, from, to)))
  {
    var rest := DueItems(items[1..], e, from, to);
    assert ([items[0]] + rest)[1..] == rest;
  }

  lemma {:induction false} ProcessConcat(cfg: Config, e: Engine, a: seq<Item>, b: seq<Item>)
    ensures Process(cfg, e, a + b) == Process(cfg, Process(cfg, e, a), b)
  {
    if b == [] {
      assert a + b == a;
    } else {
      assert (a + b)[..|a + b| - 1] == a + b[..|b| - 1];
      ProcessConcat(cfg, e, a, b[..|b| - 1]);
    }
  }

  // ---------------------------------------------------------------- the clock forgets detours

  /** No challenge is waiting whose identity is already blocked. */
  predicate NoneBlocked(cfg: Config, e: Engine)
  {
    e.mfa.open ==> BlockedReason(cfg, e.world).None?
  }

  /** After the observer has run, nothing pending is blocked or expired. */
  lemma ClockSettles(cfg: Config, e: Engine, seconds: int)
    requires MfaOk(e.mfa)
    ensures NoneBlocked(cfg, Clock(cfg, e, seconds))
  {
  }

  /** A stop on the way changes nothing unless a blocked challenge is waiting: an expiry is recorded at
      the instant it fell due, whenever it is noticed. */
  lemma ClockCollapses(cfg: Config, e: Engine, t: int, s: int)
    requires MfaOk(e.mfa) && t <= s && (t == s || NoneBlocked(cfg, e))
    ensures Clock(cfg, Clock(cfg, e, t), s) == Clock(cfg, e, s)
  {
  }

  lemma VisitKeepsNoneBlocked(cfg: Config, e: Engine, item: Item)
    requires Inert(cfg) && MfaOk(e.mfa)
    ensures NoneBlocked(cfg, Visit(cfg, e, item))
  {
    hide Clock, Deliver, BlockedReason, MfaOk;
    var now := Clock(cfg, e, Seconds(item));
    ClockSettles(cfg, e, Seconds(item));
    MakeDueFrame(cfg, now, item);
    DeliverKeepsNoneBlocked(cfg, now, item);
  }

  lemma DeliverKeepsNoneBlocked(cfg: Config, e: Engine, item: Item)
    requires Inert(cfg) && NoneBlocked(cfg, e)
    ensures NoneBlocked(cfg, Deliver(cfg, e, item))
  {
    hide BlockedReason, MfaOk, Close;
    DeliverFrame(cfg, e, item);
    MfaAdvanceFrame(cfg, e);
  }

  lemma ProcessKeepsNoneBlocked(cfg: Config, e: Engine, due: seq<Item>)
    requires Inert(cfg) && MfaOk(e.mfa) && (due == [] ==> NoneBlocked(cfg, e))
    ensures NoneBlocked(cfg, Process(cfg, e, due)) && MfaOk(Process(cfg, e, due).mfa)
  {
    if due != [] {
      ProcessFrame(cfg, e, due[..|due| - 1]);
      ProcessFrame(cfg, e, due);
      VisitKeepsNoneBlocked(cfg, Process(cfg, e, due[..|due| - 1]), due[|due| - 1]);
    }
  }

  // ---------------------------------------------------------------- two legs

  /** Advance as the scheduler does: not at all once play has ended. */
  function Leg(cfg: Config, e: Engine, seconds: int): Engine
  {
    if e.state == Running then Advance(cfg, e, seconds) else e
  }

  /** What remains due after the first leg is what was due later from the start. */
  lemma {:induction false} LaterItems(items: seq<Item>, cfg: Config, e: Engine, after: Engine, mid: int, to: int)
    requires mid <= to
    requires forall i :: i in items ==>
               if IsDue(e, i, -1, mid) then RuntimeOf(after, i.id).status != Pending
               else RuntimeOf(after, i.id) == RuntimeOf(e, i.id)
    ensures DueItems(items, after, -1, to) == DueItems(items, e, mid, to)
  {
    if items != [] {
      LaterItems(items[1..], cfg, e, after, mid, to);
    }
  }

  lemma DueAfterLeg(cfg: Config, e: Engine, mid: int, to: int)
    requires Inert(cfg) && UniqueIds(cfg.items) && mid <= to
    ensures Due(cfg, Advance(cfg, e, mid), to) == Sort(DueItems(cfg.items, e, mid, to))
  {
    hide Process, MfaAdvance, BlockedReason, MfaOk, Sort;
    var due := Due(cfg, e, mid);
    var done := Process(cfg, e, due);
    var after := Advance(cfg, e, mid);
    ProcessFrame(cfg, e, due);
    MfaAdvanceFrame(cfg, done.(elapsed := mid));
    DueItemsAre(cfg.items, e, -1, mid);
    SortKeepsMembers(DueItems(cfg.items, e, -1, mid));
    forall i | i in cfg.items
      ensures if IsDue(e, i, -1, mid) then RuntimeOf(after, i.id).status != Pending
              else RuntimeOf(after, i.id) == RuntimeOf(e, i.id)
    {
      assert RuntimeOf(after, i.id) == RuntimeOf(done, i.id);
      if !IsDue(e, i, -1, mid) {
        forall d | d in due ensures d.id != i.id {
          if d.id == i.id {
            SameItem(cfg.items, d, i);
          }
        }
      }
    }
    LaterItems(cfg.items, cfg, e, after, mid, to);
  }

  /** The second leg from `Clock(done, mid)` is the second leg from `done`. */
  lemma {:induction false} ProcessAfterClock(cfg: Config, e: Engine, mid: int, due: seq<Item>, to: int)
    requires Inert(cfg) && MfaOk(e.mfa) && mid <= to
    requires (due == [] && mid == to) || NoneBlocked(cfg, e)
    requires forall i :: i in due ==> mid < Seconds(i)
    ensures Clock(cfg, Process(cfg, Clock(cfg, e, mid), due), to) == Clock(cfg, Process(cfg, e, due), to)
    ensures due != [] ==> Process(cfg, Clock(cfg, e, mid), due) == Process(cfg, e, due)
  {
    hide Clock, BlockedReason;
    if due == [] {
      ClockCollapses(cfg, e, mid, to);
    } else {
      var init, last := due[..|due| - 1], due[|due| - 1];
      assert forall i :: i in init ==> i in due;
      assert last in due;
      if init == [] {
        ClockCollapses(cfg, e, mid, Seconds(last));
      } else {
        ProcessAfterClock(cfg, e, mid, init, to);
      }
    }
  }

  /** Two legs and one jump agree exactly if the jump is no longer than the first leg, or the run is
      still going after it and no blocked challenge was waiting when the first leg began, unless some
      delivery in it noticed the block. */
  lemma {:induction false} SplitIffUndisturbed(cfg: Config, e: Engine, mid: int, to: int)
    requires Inert(cfg) && UniqueIds(cfg.items) && MfaOk(e.mfa)
    requires e.state == Running && 0 <= e.elapsed <= mid <= to
    ensures Leg(cfg, Advance(cfg, e, mid), to) == Advance(cfg, e, to)
            <==> mid == to
                 || (Advance(cfg, e, mid).state == Running && (NoneBlocked(cfg, e) || Due(cfg, e, mid) != []))
  {
    hide Process, MfaAdvance, BlockedReason, Sort, DueItems;
    var first := Advance(cfg, e, mid);
    ElapsedIs(cfg, e, mid);
    ElapsedIs(cfg, e, to);
    if first.state == Running && (mid == to || NoneBlocked(cfg, e) || Due(cfg, e, mid) != []) {
      SplitAgrees(cfg, e, mid, to);
    } else if first.state == Running {
      SplitDiffers(cfg, e, mid, to);
      LegGrows(cfg, first, to);
    }
  }

  lemma ElapsedIs(cfg: Config, e: Engine, seconds: int)
    ensures Advance(cfg, e, seconds).elapsed == seconds
  {
    MfaAdvanceFrame(cfg, Process(cfg, e, Due(cfg, e, seconds)).(elapsed := seconds));
  }

  lemma {:induction false} SplitAgrees(cfg: Config, e: Engine, mid: int, to: int)
    requires Inert(cfg) && UniqueIds(cfg.items) && MfaOk(e.mfa) && 0 <= mid <= to
    requires mid == to || NoneBlocked(cfg, e) || Due(cfg, e, mid) != []
    ensures Advance(cfg, Advance(cfg, e, mid), to) == Advance(cfg, e, to)
  {
    hide Process, MfaAdvance, BlockedReason, Sort, Clock;
    var early, late := Due(cfg, e, mid), Sort(DueItems(cfg.items, e, mid, to));
    var done := Process(cfg, e, early);
    DueAfterLeg(cfg, e, mid, to);
    DueSplits(cfg.items, e, -1, mid, to);
    ProcessConcat(cfg, e, early, late);
    ProcessFrame(cfg, e, early);
    if mid == to {
      NothingDueBetween(cfg.items, e, mid);
      NothingSorted();
    } else {
      ProcessKeepsNoneBlocked(cfg, e, early);
    }
    DueItemsAre(cfg.items, e, mid, to);
    SortKeepsMembers(DueItems(cfg.items, e, mid, to));
    ProcessAfterClock(cfg, done, mid, late, to);
  }

  lemma NothingProcessed(cfg: Config, e: Engine)
    ensures Process(cfg, e, []) == e
  {
  }

  lemma NothingSorted()
    ensures Sort([]) == []
  {
  }

  lemma {:induction false} NothingDueBetween(items: seq<Item>, e: Engine, mid: int)
    ensures DueItems(items, e, mid, mid) == []
  {
    if items != [] {
      NothingDueBetween(items[1..], e, mid);
    }
  }

  // ---------------------------------------------------------------- why the condition is needed

  /** The first event after those of `e` records a challenge, at the given time. */
  ghost predicate FirstRecordAt(e: Engine, after: Engine, at: int)
  {
    |after.log| > |e.log| && after.log[|e.log|].MfaRecorded? && after.log[|e.log|].at == at
  }

  /** With a blocked challenge waiting, the observer records its cancellation at the time it is told. */
  lemma BlockedIsCancelledNow(cfg: Config, e: Engine, seconds: int)
    requires MfaOk(e.mfa) && !NoneBlocked(cfg, e)
    ensures FirstRecordAt(e, Clock(cfg, e, seconds), seconds)
  {
  }

  lemma FirstRecordStays(cfg: Config, e: Engine, seconds: int, due: seq<Item>, last: int)
    requires Inert(cfg) && MfaOk(e.mfa) && !NoneBlocked(cfg, e)
    requires if due == [] then seconds == last else Seconds(due[0]) == seconds
    ensures FirstRecordAt(e, Clock(cfg, Process(cfg, e, due), last), seconds)
  {
    hide MfaOk, NoneBlocked, MfaAdvance;
    BlockedIsCancelledNow(cfg, e, seconds);
    if due != [] {
      var now := Clock(cfg, e, seconds);
      var rest := Process(cfg, Visit(cfg, e, due[0]), due[1..]);
      assert due == [due[0]] + due[1..];
      ProcessConcat(cfg, e, [due[0]], due[1..]);
      assert Process(cfg, e, [due[0]]) == Visit(cfg, e, due[0]) by {
        assert [due[0]][..0] == [];
      }
      MakeDueFrame(cfg, now, due[0]);
      ProcessFrame(cfg, Visit(cfg, e, due[0]), due[1..]);
      MfaAdvanceFrame(cfg, rest.(elapsed := last));
    }
  }

  lemma {:induction false} SplitDiffers(cfg: Config, e: Engine, mid: int, to: int)
    requires Inert(cfg) && UniqueIds(cfg.items) && MfaOk(e.mfa) && 0 <= mid < to
    requires !NoneBlocked(cfg, e) && Due(cfg, e, mid) == []
    ensures FirstRecordAt(e, Advance(cfg, e, mid), mid)
    ensures exists t :: mid < t && FirstRecordAt(e, Advance(cfg, e, to), t)
  {
    hide MfaOk, NoneBlocked, MfaAdvance, Sort, DueItems, Clock;
    var late := Due(cfg, e, to);
    DueSplits(cfg.items, e, -1, mid, to);
    assert late == [] + Sort(DueItems(cfg.items, e, mid, to));
    FirstRecordStays(cfg, e, mid, [], mid);
    if late != [] {
      DueItemsAre(cfg.items, e, mid, to);
      SortKeepsMembers(DueItems(cfg.items, e, mid, to));
      assert late[0] in Sort(DueItems(cfg.items, e, mid, to));
    }
    var t := if late == [] then to else Seconds(late[0]);
    FirstRecordStays(cfg, e, t, late, to);
    assert mid < t && FirstRecordAt(e, Advance(cfg, e, to), t);
  }

  lemma LegGrows(cfg: Config, e: Engine, seconds: int)
    ensures e.log <= Leg(cfg, e, seconds).log
  {
    hide MfaAdvance, MfaOk, Due;
    var due := Due(cfg, e, seconds);
    ProcessFrame(cfg, e, due);
    MfaAdvanceFrame(cfg, Process(cfg, e, due).(elapsed := seconds));
  }

  // ---------------------------------------------------------------- the same evidence

  /** The same logical evidence: events with their order and data, item table, checkpoint results and
      challenge history. The clock and the run state are not part of it. */
  ghost predicate SameEvidence(a: Engine, b: Engine)
  {
    a.log == b.log && a.items == b.items && a.results == b.results && a.mfa == b.mfa
  }

  /** The pending challenge, if there is one, runs out by then. */
  predicate Expires(m: Mfa, until: int)
  {
    MfaOk(m) && m.open && Current(m).expiresAt <= until
  }

  /** Nothing of the schedule, and no deadline, is left between the end of play and `to`. */
  predicate NothingLeft(cfg: Config, e: Engine, ended: Engine, to: int)
  {
    DueItems(cfg.items, e, ended.elapsed, to) == [] && !Expires(ended.mfa, to)
  }

  /** No challenge was waiting with its identity blocked, or the first leg notices it when it delivers. */
  predicate Undisturbed(cfg: Config, e: Engine, mid: int, to: int)
  {
    mid == to || NoneBlocked(cfg, e) || Due(cfg, e, mid) != []
  }

  /** With nothing left to deliver, the jump and the ended leg differ by the expiry of the challenge the
      leg left open, and in nothing if there is none. */
  lemma {:induction false} EndedWithNothingDue(cfg: Config, e: Engine, mid: int, to: int)
    requires Inert(cfg) && UniqueIds(cfg.items) && MfaOk(e.mfa)
    requires e.state == Running && 0 <= mid <= to
    requires Advance(cfg, e, mid).state != Running && DueItems(cfg.items, e, mid, to) == []
    ensures var ended, jump := Advance(cfg, e, mid), Advance(cfg, e, to);
            if Expires(ended.mfa, to) then |jump.log| > |ended.log| else jump == ended.(elapsed := to)
  {
    hide Process, BlockedReason, Sort, DueItems;
    var early := Due(cfg, e, mid);
    var done := Process(cfg, e, early);
    DueSplits(cfg.items, e, -1, mid, to);
    NothingSorted();
    assert Due(cfg, e, to) == early + [] == early;
    MfaAdvanceFrame(cfg, done.(elapsed := mid));
    NothingProcessed(cfg, e);
    ProcessKeepsNoneBlocked(cfg, e, early);
    ClockCollapses(cfg, done, mid, to);
    ClockSettles(cfg, done, mid);
  }

  /** Two legs and one jump leave the same evidence exactly if the run was still going after the first
      leg and no blocked challenge had waited through it, or the leg ended play and nothing of the
      schedule and no challenge deadline was left. They then agree in everything but the clock. */
  lemma {:induction false} EvidenceSplitIff(cfg: Config, e: Engine, mid: int, to: int)
    requires Inert(cfg) && UniqueIds(cfg.items) && MfaOk(e.mfa)
    requires e.state == Running && 0 <= e.elapsed <= mid <= to
    ensures var first, jump := Advance(cfg, e, mid), Advance(cfg, e, to);
            && (SameEvidence(Leg(cfg, first, to), jump)
                <==> if first.state == Running then Undisturbed(cfg, e, mid, to) else NothingLeft(cfg, e, first, to))
            && (SameEvidence(Leg(cfg, first, to), jump) ==> jump == Leg(cfg, first, to).(elapsed := to))
  {
    hide Process, MfaAdvance, BlockedReason, Sort, DueItems, MfaOk, Expires, NoneBlocked, Advance;
    var first := Advance(cfg, e, mid);
    ElapsedIs(cfg, e, mid);
    ElapsedIs(cfg, first, to);
    if first.state == Running {
      if Undisturbed(cfg, e, mid, to) {
        SplitAgrees(cfg, e, mid, to);
      } else {
        SplitDiffers(cfg, e, mid, to);
        LegGrows(cfg, first, to);
      }
    } else if DueItems(cfg.items, e, mid, to) == [] {
      EndedWithNothingDue(cfg, e, mid, to);
    } else {
      var later := DueItems(cfg.items, e, mid, to)[0];
      DueItemsAre(cfg.items, e, mid, to);
      JumpPassesTheEnd(cfg, e, mid, to, later);
    }
  }

  // ---------------------------------------------------------------- many legs

  /** Successive advances, each taken only while the run is still going. */
  function Legs(cfg: Config, e: Engine, targets: seq<int>): Engine
  {
    if targets == [] then e else Leg(cfg, Legs(cfg, e, targets[..|targets| - 1]), targets[|targets| - 1])
  }

  ghost predicate NonDecreasing(from: int, targets: seq<int>)
  {
    && (targets != [] ==> from <= targets[0])
    && forall i, j :: 0 <= i < j < |targets| ==> targets[i] <= targets[j]
  }

  /** Tick-split equivalence: for any schedule and any non-decreasing targets, if the run is still
      going before the last of them and no blocked challenge waited through the first, the legs and the
      single jump leave the same item table, event order and data, challenge history, world and clock. */
  lemma {:induction false} TicksEqualJump(cfg: Config, e: Engine, targets: seq<int>)
    requires Inert(cfg) && UniqueIds(cfg.items) && MfaOk(e.mfa)
    requires e.state == Running && 0 <= e.elapsed && NonDecreasing(e.elapsed, targets) && targets != []
    requires Undisturbed(cfg, e, targets[0], targets[|targets| - 1])
    requires Legs(cfg, e, targets[..|targets| - 1]).state == Running
    ensures Legs(cfg, e, targets) == Advance(cfg, e, targets[|targets| - 1])
  {
    hide Advance, MfaOk, NoneBlocked, DueItems, Sort;
    var init, last := targets[..|targets| - 1], targets[|targets| - 1];
    if init != [] {
      var shorter := init[..|init| - 1];
      if Legs(cfg, e, shorter).state == Running {
        TicksEqualJump(cfg, e, init);
        DueSplits(cfg.items, e, -1, targets[0], init[|init| - 1]);
        SplitAgrees(cfg, e, init[|init| - 1], last);
      }
    }
  }

  /** However many legs there are, the last one taken could have been taken alone. */
  lemma {:induction false} LegsAreOneLeg(cfg: Config, e: Engine, targets: seq<int>)
    requires Inert(cfg) && UniqueIds(cfg.items) && MfaOk(e.mfa)
    requires e.state == Running && 0 <= e.elapsed && NonDecreasing(e.elapsed, targets) && targets != []
    requires Undisturbed(cfg, e, targets[0], targets[|targets| - 1])
    ensures var end := Legs(cfg, e, targets);
            && targets[0] <= end.elapsed <= targets[|targets| - 1] && end == Advance(cfg, e, end.elapsed)
            && (end.state == Running ==> end.elapsed == targets[|targets| - 1])
  {
    hide Advance, MfaOk, NoneBlocked, Due;
    var init, last := targets[..|targets| - 1], targets[|targets| - 1];
    if Legs(cfg, e, init).state == Running {
      TicksEqualJump(cfg, e, targets);
      ElapsedIs(cfg, e, last);
    } else {
      LegsAreOneLeg(cfg, e, init);
    }
  }

  lemma {:induction false} LegsGrow(cfg: Config, e: Engine, targets: seq<int>)
    requires targets != []
    ensures Leg(cfg, e, targets[0]).log <= Legs(cfg, e, targets).log
  {
    hide Leg;
    var init := targets[..|targets| - 1];
    LegGrows(cfg, Legs(cfg, e, init), targets[|targets| - 1]);
    if init != [] {
      LegsGrow(cfg, e, init);
    } else {
      assert Legs(cfg, e, []) == e;
    }
  }

  /** The same for any number of ticks: they leave the evidence of one jump exactly if no blocked
      challenge waited through the first of them, and play went on to the last or ended with nothing of
      the schedule and no challenge deadline left. */
  lemma {:induction false} TicksShowTheSameIff(cfg: Config, e: Engine, targets: seq<int>)
    requires Inert(cfg) && UniqueIds(cfg.items) && MfaOk(e.mfa)
    requires e.state == Running && 0 <= e.elapsed && NonDecreasing(e.elapsed, targets) && targets != []
    ensures var last, end := targets[|targets| - 1], Legs(cfg, e, targets);
            SameEvidence(end, Advance(cfg, e, last))
            <==> Undisturbed(cfg, e, targets[0], last)
                 && (end.state == Running || NothingLeft(cfg, e, end, last))
  {
    hide Advance, MfaOk, NoneBlocked, Due, Legs, NothingLeft;
    var last, end := targets[|targets| - 1], Legs(cfg, e, targets);
    if Undisturbed(cfg, e, targets[0], last) {
      LegsAreOneLeg(cfg, e, targets);
      if end.state != Running {
        EvidenceSplitIff(cfg, e, end.elapsed, last);
      }
    } else {
      SplitDiffers(cfg, e, targets[0], last);
      LegsGrow(cfg, e, targets);
    }
  }

  // ---------------------------------------------------------------- when play ends on the way

  /** Making the item due ends play: it is still pending and delivered automatically, and it is an end
      marker whose delivery succeeds or its handler calls the fail-safe stop. */
  predicate EndsPlay(cfg: Config, e: Engine, item: Item)
  {
    && RuntimeOf(e, item.id).status == Pending && !item.byFacilitator && !item.kind.Checkpoint?
    && ((item.kind.End? && Succeeds(cfg, e, item)) || StopsRun(cfg, e, item))
  }

  /** The engine in which a batch makes its `k`-th item due. */
  function VisitedIn(cfg: Config, e: Engine, due: seq<Item>, k: nat): Engine
    requires k < |due|
  {
    Clock(cfg, Process(cfg, e, due[..k]), Seconds(due[k]))
  }

  lemma VisitEnds(cfg: Config, e: Engine, item: Item)
    ensures var now := Clock(cfg, e, Seconds(item));
            Visit(cfg, e, item).state == Running <==> e.state == Running && !EndsPlay(cfg, now, item)
  {
    hide MfaAdvance, Deliver, Succeeds, StopsRun;
    var now := Clock(cfg, e, Seconds(item));
    MfaAdvanceFrame(cfg, e.(elapsed := Seconds(item)));
    DeliveredIff(cfg, now, item);
  }

  lemma LastVisitEnds(cfg: Config, e: Engine, due: seq<Item>)
    requires due != []
    ensures var last := |due| - 1;
            Process(cfg, e, due).state == Running
            <==> Process(cfg, e, due[..last]).state == Running
                 && !EndsPlay(cfg, VisitedIn(cfg, e, due, last), due[last])
  {
    hide EndsPlay, Visit, Clock;
    VisitEnds(cfg, Process(cfg, e, due[..|due| - 1]), due[|due| - 1]);
  }

  lemma VisitedEarlier(cfg: Config, e: Engine, due: seq<Item>, k: nat)
    requires k < |due| - 1
    ensures VisitedIn(cfg, e, due, k) == VisitedIn(cfg, e, due[..|due| - 1], k)
  {
    assert due[..k] == due[..|due| - 1][..k];
  }

  /** Play is still going after a batch exactly if none of its items ended it when it was visited,
      whatever actions the end markers carry and whatever the handlers do. */
  lemma {:induction false} StillRunningIff(cfg: Config, e: Engine, due: seq<Item>)
    requires e.state == Running
    ensures Process(cfg, e, due).state == Running
            <==> forall k :: 0 <= k < |due| ==> !EndsPlay(cfg, VisitedIn(cfg, e, due, k), due[k])
  {
    hide EndsPlay, VisitedIn, Process;
    if due == [] {
      NothingProcessed(cfg, e);
    } else {
      var init, last := due[..|due| - 1], |due| - 1;
      StillRunningIff(cfg, e, init);
      LastVisitEnds(cfg, e, due);
      forall k | 0 <= k < last ensures VisitedIn(cfg, e, due, k) == VisitedIn(cfg, e, init, k) {
        VisitedEarlier(cfg, e, due, k);
      }
    }
  }

  lemma PlainEndEndsPlay(cfg: Config, e: Engine, due: seq<Item>)
    requires e.state == Running && due != [] && RuntimeOf(e, due[0].id).status == Pending
    requires due[0].kind.End? && !due[0].byFacilitator && due[0].action.None?
    ensures Process(cfg, e, due).state != Running
  {
    hide MfaAdvance;
    StillRunningIff(cfg, e, due);
    NothingProcessed(cfg, e);
    MfaAdvanceFrame(cfg, e.(elapsed := Seconds(due[0])));
    assert due[..0] == [];
    assert EndsPlay(cfg, VisitedIn(cfg, e, due, 0), due[0]);
  }

  /** Once a leg has ended play, a later item is never delivered by ticking, while one jump that
      starts before the end always processes it: the delivery loop does not look at the state again. */
  lemma JumpPassesTheEnd(cfg: Config, e: Engine, mid: int, to: int, later: Item)
    requires Inert(cfg) && UniqueIds(cfg.items) && 0 <= mid <= to
    requires Advance(cfg, e, mid).state != Running
    requires later in cfg.items && IsDue(e, later, mid, to)
    ensures RuntimeOf(Leg(cfg, Advance(cfg, e, mid), to), later.id).status == Pending
    ensures RuntimeOf(Advance(cfg, e, to), later.id).status != Pending
  {
    hide Process, MfaAdvance, BlockedReason, MfaOk, Sort, DueItems;
    var early, all := Due(cfg, e, mid), Due(cfg, e, to);
    ProcessFrame(cfg, e, early);
    ProcessFrame(cfg, e, all);
    MfaAdvanceFrame(cfg, Process(cfg, e, early).(elapsed := mid));
    MfaAdvanceFrame(cfg, Process(cfg, e, all).(elapsed := to));
    DueItemsAre(cfg.items, e, -1, mid);
    DueItemsAre(cfg.items, e, -1, to);
    SortKeepsMembers(DueItems(cfg.items, e, -1, mid));
    SortKeepsMembers(DueItems(cfg.items, e, -1, to));
    forall d | d in early ensures d.id != later.id {
      if d.id == later.id {
        SameItem(cfg.items, d, later);
      }
    }
  }

  /** The claim fails without the condition: with an end marker at second 1 and an inject at second 2,
      one jump to second 2 processes the inject after the end of play, and ticking never does. */
  lemma JumpIsNotTicks(world: World)
    ensures var end := Item("END", End, false, Elapsed(1, 0), None);
            var inject := Item("INJ", Inject, false, Elapsed(2, 0), None);
            var cfg := Config([end, inject], map[], 60, 0);
            var e := Initial(cfg, world).(state := Running);
            && RuntimeOf(Advance(cfg, e, 2), "INJ").status != Pending
            && RuntimeOf(Legs(cfg, e, [1, 2]), "INJ").status == Pending
  {
    hide Process, MfaAdvance, Sort, DueItems, MfaOk, BlockedReason;
    var end := Item("END", End, false, Elapsed(1, 0), None);
    var inject := Item("INJ", Inject, false, Elapsed(2, 0), None);
    var cfg := Config([end, inject], map[], 60, 0);
    var e := Initial(cfg, world).(state := Running);
    assert cfg.items[0] == end && cfg.items[1] == inject;
    assert RuntimeOf(e, "END") == RuntimeOf(e, "INJ") == Runtime(Pending, None);
    var due := Due(cfg, e, 1);
    DueItemsAre(cfg.items, e, -1, 1);
    SortKeepsMembers(DueItems(cfg.items, e, -1, 1));
    assert end in due && due[0] in due;
    PlainEndEndsPlay(cfg, e, due);
    MfaAdvanceFrame(cfg, Process(cfg, e, due).(elapsed := 1));
    JumpPassesTheEnd(cfg, e, 1, 2, inject);
    assert [1, 2][..1] == [1] && [1][..0] == [];
    assert Legs(cfg, e, [1]) == Leg(cfg, Legs(cfg, e, []), 1) == Advance(cfg, e, 1);
  }
}
