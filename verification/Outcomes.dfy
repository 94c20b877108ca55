// What the calls of the controller do to the item table, to the run state and to the challenges, said of
// the tables before and after alone: no statement here names a step of the engine but the call itself.

module Outcomes {
  import opened Prelude
  import opened ExerciseEngine
  import opened EngineFrames
  import opened Controller
  import opened Branches
  import Text

  // ---------------------------------------------------------------- what becomes of an item that falls due

  /** The entry of a pending item after it fell due at second `at`: facilitators' items and checkpoints are
      offered and wait; every other item is delivered then and there, or has failed. It cannot fail
      without an action, and cannot succeed with an action that nothing handles. */
  predicate Settled(cfg: Config, item: Item, at: int, before: Runtime, after: Runtime)
  {
    if item.byFacilitator || item.kind == Checkpoint then after == before.(status := Offered)
    else
      && (after == Runtime(Delivered, Some(at)) || after == before.(status := Failed))
      && (item.action.None? ==> after.status == Delivered)
      && (item.action.Some? && item.action.value != MFA_ACTION && item.action.value !in cfg.handlers ==>
            after.status == Failed)
  }

  lemma MakeDueSettles(cfg: Config, e: Engine, item: Item)
    requires RuntimeOf(e, item.id).status == Pending
    ensures Settled(cfg, item, e.elapsed, RuntimeOf(e, item.id), RuntimeOf(MakeDue(cfg, e, item), item.id))
  {
    hide ExerciseEngine.Deliver, MfaDeliver;
    DeliveredIff(cfg, e, item);
  }

  lemma VisitSettles(cfg: Config, e: Engine, item: Item)
    requires RuntimeOf(e, item.id).status == Pending
    ensures Settled(cfg, item, Seconds(item), RuntimeOf(e, item.id), RuntimeOf(Visit(cfg, e, item), item.id))
  {
    hide MakeDue, MfaAdvance, Settled;
    MfaAdvanceFrame(cfg, e.(elapsed := Seconds(item)));
    MakeDueSettles(cfg, Clock(cfg, e, Seconds(item)), item);
  }

  lemma {:induction false} ProcessSettlesEach(cfg: Config, e: Engine, due: seq<Item>, item: Item)
    requires UniqueIds(cfg.items) && (forall i :: i in due ==> i in cfg.items) && item in due
    requires RuntimeOf(e, item.id).status == Pending
    ensures Settled(cfg, item, Seconds(item), RuntimeOf(e, item.id), RuntimeOf(Process(cfg, e, due), item.id))
  {
    hide Visit, Settled, Inert, OnlyTouches;
    var init, last := due[..|due| - 1], due[|due| - 1];
    var before := Process(cfg, e, init);
    ProcessTouches(cfg, e, init);
    if item in init {
      ProcessSettlesEach(cfg, e, init, item);
      VisitElsewhere(cfg, before, last, item.id);
    } else {
      assert item == last;
      forall i | i in init ensures i.id != item.id {
        if i.id == item.id {
          SameItem(cfg.items, i, item);
        }
      }
      VisitSettles(cfg, before, item);
    }
  }

  /** A visit changes no other item, and none that is not pending. */
  lemma VisitElsewhere(cfg: Config, e: Engine, item: Item, id: string)
    requires id != item.id || RuntimeOf(e, id).status != Pending
    ensures RuntimeOf(Visit(cfg, e, item), id) == RuntimeOf(e, id)
  {
    hide Visit, Inert;
    VisitFrame(cfg, e, item);
  }

  /** An accepted advance settles exactly the pending items whose second has come, each at its own second,
      and leaves every other entry as it was. */
  lemma {:induction false} AdvanceSettles(cfg: Config, e: Engine, seconds: int, item: Item)
    requires UniqueIds(cfg.items) && item in cfg.items && DoAdvance(cfg, e, seconds).ok
    ensures var before, after := RuntimeOf(e, item.id), RuntimeOf(DoAdvance(cfg, e, seconds).engine, item.id);
            if before.status == Pending && item.trigger.Elapsed? && item.trigger.seconds <= seconds
            then Settled(cfg, item, item.trigger.seconds, before, after)
            else after == before
  {
    hide Process, MfaAdvance, Settled, Due, Inert;
    var due := Due(cfg, e, seconds);
    DueAre(cfg, e, seconds);
    ProcessFrame(cfg, e, due);
    MfaAdvanceFrame(cfg, Process(cfg, e, due).(elapsed := seconds));
    if item in due {
      ProcessSettlesEach(cfg, e, due, item);
    } else {
      forall i | i in due ensures i.id != item.id {
        if i.id == item.id {
          SameItem(cfg.items, i, item);
        }
      }
    }
  }

  lemma {:induction false} MakeAllSettles(cfg: Config, e: Engine, items: seq<Item>, item: Item)
    requires UniqueIds(cfg.items) && (forall i :: i in items ==> i in cfg.items) && item in cfg.items
    ensures var before, a := RuntimeOf(e, item.id), MakeAll(cfg, e, items);
            && a.elapsed == e.elapsed
            && if item in items && before.status == Pending
               then Settled(cfg, item, e.elapsed, before, RuntimeOf(a, item.id))
               else RuntimeOf(a, item.id) == before
  {
    hide MakeDue, Settled, Inert;
    if items != [] {
      var init, last := items[..|items| - 1], items[|items| - 1];
      var now := MakeAll(cfg, e, init);
      MakeAllSettles(cfg, e, init, item);
      MakeDueFrame(cfg, now, last);
      if last.id == item.id {
        SameItem(cfg.items, last, item);
        if RuntimeOf(now, item.id).status == Pending {
          MakeDueSettles(cfg, now, item);
          SettledIsNotPending(cfg, item, e.elapsed, RuntimeOf(e, item.id), RuntimeOf(now, item.id));
        }
      }
    }
  }

  lemma SettledIsNotPending(cfg: Config, item: Item, at: int, before: Runtime, after: Runtime)
    ensures Settled(cfg, item, at, before, after) ==> after.status != Pending
  {
  }

  /** Preparation settles exactly the pending pre-exercise items. */
  lemma {:induction false} PrepareSettles(cfg: Config, e: Engine, item: Item)
    requires UniqueIds(cfg.items) && item in cfg.items && DoPrepare(cfg, e).ok
    ensures var before, after := RuntimeOf(e, item.id), RuntimeOf(DoPrepare(cfg, e).engine, item.id);
            if before.status == Pending && item.trigger.PreExercise?
            then Settled(cfg, item, e.elapsed, before, after)
            else after == before
  {
    hide MakeAll, Settled, Sort, Selected;
    var which := (i: Item) => i.trigger.PreExercise?;
    SelectedAre(cfg.items, which);
    SortKeepsMembers(Selected(cfg.items, which));
    MakeAllSettles(cfg, e, Sort(Selected(cfg.items, which)), item);
  }

  /** What a resolution leaves of one item: the chosen side settled as far as it was pending, the other
      side skipped. */
  predicate Resolves(cfg: Config, item: Item, chosen: bool, at: int, before: Runtime, after: Runtime)
  {
    if !chosen then after == before.(status := Skipped)
    else if before.status == Pending then Settled(cfg, item, at, before, after)
    else after == before
  }

  lemma {:induction false} RunBranchesSettlesEach(cfg: Config, e: Engine, branches: seq<Item>, result: Branch,
        item: Item)
    requires UniqueIds(cfg.items) && (forall b :: b in branches ==> b in cfg.items) && item in cfg.items
    requires RunBranches(cfg, e, branches, result).ok && RunBranches(cfg, e, branches, result).engine.state != Stopped
    ensures var before, a := RuntimeOf(e, item.id), RunBranches(cfg, e, branches, result).engine;
            if item in branches then Resolves(cfg, item, Chosen(item, result), e.elapsed, before, RuntimeOf(a, item.id))
            else RuntimeOf(a, item.id) == before
    decreases |branches|
  {
    hide MakeDue, Settled, DoSkip, Inert, Chosen;
    if branches != [] && e.state != Stopped {
      var b, rest := branches[0], branches[1..];
      assert forall x :: x in branches <==> x == b || x in rest;
      if Chosen(b, result) {
        var now := MakeDue(cfg, e, b);
        MakeDueFrame(cfg, e, b);
        RunBranchesSettlesEach(cfg, now, rest, result, item);
        if b.id == item.id {
          SameItem(cfg.items, b, item);
          if RuntimeOf(e, b.id).status == Pending {
            MakeDueSettles(cfg, e, b);
          }
        }
      } else {
        var skipped := DoSkip(cfg, e, b.id, "opposite branch selected");
        SkipIs(cfg, e, b.id, "opposite branch selected");
        RunBranchesSettlesEach(cfg, skipped.engine, rest, result, item);
        if b.id == item.id {
          SameItem(cfg.items, b, item);
        }
      }
    }
  }

  lemma SkipIs(cfg: Config, e: Engine, id: string, reason: string)
    ensures var s := DoSkip(cfg, e, id, reason);
            s.ok ==>
              && RuntimeOf(s.engine, id) == RuntimeOf(e, id).(status := Skipped) && s.engine.elapsed == e.elapsed
              && forall other :: other != id ==> RuntimeOf(s.engine, other) == RuntimeOf(e, other)
  {
  }

  /** A resolution that returns normally, with play not stopped on the way: the checkpoint is delivered, its
      pending items on the chosen side are settled, all on the other side are skipped, and every other
      entry is as it was. */
  lemma {:induction false} ResolveSettles(cfg: Config, e: Engine, id: string, branch: Branch, reason: string,
        item: Item)
    requires UniqueIds(cfg.items) && item in cfg.items
    requires var s := DoResolve(cfg, e, id, branch, reason); s.ok && s.engine.state != Stopped
    ensures var before := RuntimeOf(e, item.id);
            var after := RuntimeOf(DoResolve(cfg, e, id, branch, reason).engine, item.id);
            if item.id == id then after == Runtime(Delivered, Some(e.elapsed))
            else if item.trigger.AfterCheckpoint? && item.trigger.checkpoint == id
            then Resolves(cfg, item, item.trigger.branch == branch, e.elapsed, before, after)
            else after == before
  {
    hide RunBranches, BranchItems, Settled, Text.Blank, Find;
    var now := Resolved(e, id, branch, reason);
    BranchItemsAre(cfg, id);
    RunBranchesSettlesEach(cfg, now, BranchItems(cfg, id), branch, item);
    if item.id == id && item in BranchItems(cfg, id) && !Chosen(item, branch) {
      CannotSkipTwice(cfg, now, BranchItems(cfg, id), branch, item);
    }
  }

  /** A checkpoint among its own opposite branch makes the resolution raise. */
  lemma {:induction false} CannotSkipTwice(cfg: Config, e: Engine, branches: seq<Item>, result: Branch, item: Item)
    requires item in branches && !Chosen(item, result) && RuntimeOf(e, item.id).status == Delivered
    requires UniqueIds(cfg.items) && item in cfg.items && forall b :: b in branches ==> b in cfg.items
    ensures var s := RunBranches(cfg, e, branches, result); s.ok ==> s.engine.state == Stopped
    decreases |branches|
  {
    hide MakeDue, Inert, Chosen;
    if e.state != Stopped {
      var b, rest := branches[0], branches[1..];
      if Chosen(b, result) {
        MakeDueFrame(cfg, e, b);
        CannotSkipTwice(cfg, MakeDue(cfg, e, b), rest, result, item);
      } else if b != item {
        var skipped := DoSkip(cfg, e, b.id, "opposite branch selected");
        if skipped.ok {
          SkipIs(cfg, e, b.id, "opposite branch selected");
          if b.id == item.id {
            SameItem(cfg.items, b, item);
          }
          CannotSkipTwice(cfg, skipped.engine, rest, result, item);
        }
      }
    }
  }

  // ---------------------------------------------------------------- in which order it is recorded

  /** The event says what became of the item. */
  predicate Names(event: Event, id: string)
  {
    (event.ItemOffered? || event.ItemDelivered? || event.ItemFailed?) && event.id == id
  }

  lemma MakeDueTells(cfg: Config, e: Engine, item: Item)
    requires RuntimeOf(e, item.id).status == Pending
    ensures var log := MakeDue(cfg, e, item).log;
            |e.log| < |log| && e.log <= log && Names(log[|log| - 1], item.id)
  {
    hide ExerciseEngine.Deliver;
    DeliverTells(cfg, e, item);
  }

  lemma SettleTells(e: Engine, item: Item, stamp: Option<int>)
    ensures forall a :: a in {Completes(e, item, stamp), Fail(e, item, stamp)} ==>
              |a.log| == |e.log| + 1 && e.log <= a.log && Names(a.log[|e.log|], item.id)
  {
  }

  lemma DeliverTells(cfg: Config, e: Engine, item: Item)
    ensures var log := ExerciseEngine.Deliver(cfg, e, item).log;
            |e.log| < |log| && e.log <= log && Names(log[|log| - 1], item.id)
  {
    hide MfaDeliver, Completes, Fail, Ran, Inert, MfaOk, BlockedReason, Names;
    if item.action.None? {
      SettleTells(e, item, None);
    } else if item.action.value == MFA_ACTION {
      MfaDeliverFrame(cfg, e, item);
      SettleTells(MfaDeliver(cfg, e, item).0, item, None);
    } else if item.action.value !in cfg.handlers {
      SettleTells(e, item, None);
    } else {
      var effect := cfg.handlers[item.action.value](item, e);
      RanFrame(cfg, e, item, item.action.value);
      var stamp := if effect.verdict.Success? || effect.verdict.Failure? then effect.verdict.stamp else None;
      SettleTells(Ran(e, effect), item, stamp);
    }
  }

  lemma VisitTells(cfg: Config, e: Engine, item: Item)
    requires RuntimeOf(e, item.id).status == Pending
    ensures var log := Visit(cfg, e, item).log;
            |e.log| < |log| && e.log <= log && Names(log[|log| - 1], item.id)
  {
    hide MakeDue, MfaAdvance;
    MfaAdvanceFrame(cfg, e.(elapsed := Seconds(item)));
    MakeDueTells(cfg, Clock(cfg, e, Seconds(item)), item);
  }

  /** Some event from number `from` up to `to` names the item. */
  predicate Told(log: seq<Event>, from: nat, to: nat, id: string)
  {
    exists p :: from <= p < to <= |log| && Names(log[p], id)
  }

  lemma {:induction false} ProcessTells(cfg: Config, e: Engine, due: seq<Item>, k: nat)
    requires UniqueIds(due) && k < |due| && RuntimeOf(e, due[k].id).status == Pending
    ensures var from, to := |Process(cfg, e, due[..k]).log|, |Process(cfg, e, due[..k + 1]).log|;
            && Process(cfg, e, due[..k]).log <= Process(cfg, e, due).log
            && Process(cfg, e, due[..k + 1]).log <= Process(cfg, e, due).log
            && Told(Process(cfg, e, due).log, from, to, due[k].id)
  {
    hide Visit, Told, Inert, MfaOk, BlockedReason;
    var init, last := due[..|due| - 1], |due| - 1;
    if k < last {
      assert init[..k] == due[..k] && init[..k + 1] == due[..k + 1];
      ProcessTells(cfg, e, init, k);
      VisitFrame(cfg, Process(cfg, e, init), due[last]);
      var from, to := |Process(cfg, e, due[..k]).log|, |Process(cfg, e, due[..k + 1]).log|;
      ToldWider(Process(cfg, e, init).log, Process(cfg, e, due).log, from, to, from, to, due[k].id);
    } else {
      assert due[..k + 1] == due;
      LastTells(cfg, e, due);
    }
  }

  lemma LastTells(cfg: Config, e: Engine, due: seq<Item>)
    requires UniqueIds(due) && due != [] && RuntimeOf(e, due[|due| - 1].id).status == Pending
    ensures var before, log := Process(cfg, e, due[..|due| - 1]).log, Process(cfg, e, due).log;
            before <= log && Told(log, |before|, |log|, due[|due| - 1].id)
  {
    hide Visit, Names, Inert, MfaOk, BlockedReason;
    var last := due[|due| - 1];
    ProcessTouches(cfg, e, due[..|due| - 1]);
    VisitTells(cfg, Process(cfg, e, due[..|due| - 1]), last);
    var log := Process(cfg, e, due).log;
    assert Names(log[|log| - 1], last.id);
  }

  /** Due items are recorded in the reviewed order: of two that fall due in one advance, the one with the
      earlier second, or at the same second the smaller order, is told first. */
  lemma {:induction false} AdvanceTellsInOrder(cfg: Config, e: Engine, seconds: int, a: Item, b: Item)
    requires UniqueIds(cfg.items) && a in cfg.items && b in cfg.items && DoAdvance(cfg, e, seconds).ok
    requires forall i :: i in {a, b} ==>
               RuntimeOf(e, i.id).status == Pending && i.trigger.Elapsed? && i.trigger.seconds <= seconds
    requires a.trigger.seconds < b.trigger.seconds
             || (a.trigger.seconds == b.trigger.seconds && a.trigger.order < b.trigger.order)
    ensures var log := DoAdvance(cfg, e, seconds).engine.log;
            exists middle :: |e.log| <= middle <= |log|
                             && Told(log, |e.log|, middle, a.id) && Told(log, middle, |log|, b.id)
  {
    hide Process, Sort, DueItems, Told, Inert, MfaOk, BlockedReason, MfaAdvance;
    assert a in {a, b} && b in {a, b};
    var due := Due(cfg, e, seconds);
    DueAre(cfg, e, seconds);
    SortSorts(DueItems(cfg.items, e, -1, seconds));
    DueAreUnique(cfg, e, seconds);
    var i :| 0 <= i < |due| && due[i] == a;
    var j :| 0 <= j < |due| && due[j] == b;
    assert i < j;
    ProcessTells(cfg, e, due, i);
    ProcessTells(cfg, e, due, j);
    var done := Process(cfg, e, due);
    MfaAdvanceFrame(cfg, done.(elapsed := seconds));
    var log := DoAdvance(cfg, e, seconds).engine.log;
    var middle := |Process(cfg, e, due[..i + 1]).log|;
    ProcessGrows(cfg, e, due[..i]);
    LongerIsLonger(cfg, e, due, i + 1, j);
    ToldWider(done.log, log, |Process(cfg, e, due[..i]).log|, middle, |e.log|, middle, a.id);
    ToldWider(done.log, log, |Process(cfg, e, due[..j]).log|, |Process(cfg, e, due[..j + 1]).log|, middle, |log|, b.id);
  }

  lemma ProcessGrows(cfg: Config, e: Engine, due: seq<Item>)
    ensures e.log <= Process(cfg, e, due).log
  {
    hide Process, Inert, MfaOk, BlockedReason;
    ProcessFrame(cfg, e, due);
  }

  lemma LongerIsLonger(cfg: Config, e: Engine, due: seq<Item>, i: nat, j: nat)
    requires i <= j <= |due|
    ensures |Process(cfg, e, due[..i]).log| <= |Process(cfg, e, due[..j]).log|
    decreases j - i
  {
    hide Visit, Inert, MfaOk, BlockedReason;
    if i < j {
      LongerIsLonger(cfg, e, due, i, j - 1);
      assert due[..j][..j - 1] == due[..j - 1];
      VisitFrame(cfg, Process(cfg, e, due[..j - 1]), due[j - 1]);
    }
  }

  lemma ToldWider(log: seq<Event>, more: seq<Event>, from: nat, to: nat, low: nat, high: nat, id: string)
    requires log <= more && Told(log, from, to, id) && low <= from && to <= high <= |more|
    ensures Told(more, low, high, id)
  {
    var p :| from <= p < to <= |log| && Names(log[p], id);
    assert Names(more[p], id);
  }

  lemma DueAreUnique(cfg: Config, e: Engine, seconds: int)
    requires UniqueIds(cfg.items)
    ensures UniqueIds(Due(cfg, e, seconds))
  {
    hide Sort;
    DueItemsUnique(cfg.items, e, -1, seconds);
    SortSorts(DueItems(cfg.items, e, -1, seconds));
    PermutedUnique(DueItems(cfg.items, e, -1, seconds), Due(cfg, e, seconds));
  }

  lemma {:induction false} DueItemsUnique(items: seq<Item>, e: Engine, from: int, to: int)
    requires UniqueIds(items)
    ensures UniqueIds(DueItems(items, e, from, to))
  {
    if items != [] {
      HeadIsAlone(items);
      DueItemsUnique(items[1..], e, from, to);
      DueItemsAre(items[1..], e, from, to);
      var rest := DueItems(items[1..], e, from, to);
      forall k | 0 <= k < |rest| ensures rest[k].id != items[0].id {
        assert rest[k] in rest;
      }
    }
  }

  // ---------------------------------------------------------------- which calls are accepted

  /** Play has not ended. */
  predicate NotEnded(state: RunState)
  {
    state == Ready || state == Running || state == Paused
  }

  predicate Waits(e: Engine, id: string)
  {
    RuntimeOf(e, id).status == Pending || RuntimeOf(e, id).status == Offered
  }

  /** The identity behind a challenge is as it was when the exercise was set up. */
  predicate Undisturbed(cfg: Config, w: World)
  {
    w.enabled && w.sessionActive && w.factorActive && w.credentialVersion == cfg.credentialVersion
  }

  /** The challenge of that item can still be decided. */
  predicate Awaits(cfg: Config, e: Engine, item: string)
  {
    && e.mfa.open && e.mfa.history != []
    && var c := e.mfa.history[|e.mfa.history| - 1];
    && c.item == item && e.elapsed < c.expiresAt && Undisturbed(cfg, e.world)
  }

  /** When each call is accepted; resolutions, which may raise half-way, are `Branches.ResolveSucceedsIff`. */
  ghost predicate Accepts(cfg: Config, e: Engine, op: Op)
  {
    match op
    case Prepare => e.state == Ready
    case Start => e.state == Ready
    case Pause => e.state == Running
    case Resume => e.state == Paused
    case AdvanceTo(seconds) => e.state == Running && e.elapsed <= seconds
    case AdvanceCut(_, _) => false
    case Deliver(id) => NotEnded(e.state) && (exists i :: i in cfg.items && i.id == id) && Waits(e, id)
    case Skip(id, reason) =>
      NotEnded(e.state) && (exists i :: i in cfg.items && i.id == id) && Waits(e, id) && Text.Strip(reason) != ""
    case Resolve(id, _, reason) =>
      && (e.state == Running || e.state == Paused) && Text.Strip(reason) != ""
      && (exists i :: i in cfg.items && i.id == id && i.kind == Checkpoint) && Waits(e, id)
    case FailSafeStop(reason) => NotEnded(e.state) && Text.Strip(reason) != ""
    case Reset(_) => e.state == Stopped || e.state == Completed
    case Decide(item, _) => e.state == Running && Awaits(cfg, e, item)
    case _ => true
  }

  /** The state a call leaves, if nothing in it ends play. */
  function Heads(e: Engine, op: Op): RunState
  {
    match op
    case Start => Running
    case Pause => Paused
    case Resume => Running
    case FailSafeStop(_) => Stopped
    case Reset(_) => Ready
    case _ => e.state
  }

  lemma {:induction false} AcceptedIff(cfg: Config, e: Engine, op: Op)
    requires Good(cfg, e) && UniqueIds(cfg.items)
    ensures !op.Resolve? ==> (Apply(cfg, e, op).ok <==> Accepts(cfg, e, op))
    ensures op.Resolve? && !Accepts(cfg, e, op) ==> Apply(cfg, e, op) == Step(e, false)
    ensures var a := Apply(cfg, e, op).engine;
            Accepts(cfg, e, op) ==> a.state == Heads(e, op) || (a.state in {Stopped, Completed} && RunsItems(op))
  {
    hide Process, Due, MakeAll, Selected, Sort, RunBranches, BranchItems, ExerciseEngine.Deliver, Find, Inert,
      NotOverdue;
    if op.Deliver? || op.Skip? || op.Resolve? {
      FindIs(cfg, op.id);
    }
    match op {
      case Prepare =>
        MakeAllState(cfg, e, Sort(Selected(cfg.items, (i: Item) => i.trigger.PreExercise?)));
      case Start => AdvanceEnds(cfg, e.(state := Running, log := e.log + [RunStarted(e.elapsed)]), 0);
      case AdvanceTo(seconds) => AdvanceEnds(cfg, e, seconds);
      case Deliver(id) =>
        if Find(cfg.items, id).Some? {
          DeliverFrame(cfg, e, Find(cfg.items, id).value);
        }
      case Resolve(id, branch, reason) =>
        BranchItemsAre(cfg, id);
        RunBranchesState(cfg, Resolved(e, id, branch, reason), BranchItems(cfg, id), branch);
      case _ => MfaAdvanceFrame(cfg, e);
    }
  }

  /** Calls in which items are delivered, so that a handler or an end marker may end play. */
  predicate RunsItems(op: Op)
  {
    op.Prepare? || op.Start? || op.AdvanceTo? || op.Deliver? || op.Resolve?
  }

  lemma FindIs(cfg: Config, id: string)
    requires UniqueIds(cfg.items)
    ensures Find(cfg.items, id).Some? <==> exists i :: i in cfg.items && i.id == id
    ensures (Find(cfg.items, id).Some? && Find(cfg.items, id).value.kind.Checkpoint?)
            <==> exists i :: i in cfg.items && i.id == id && i.kind == Checkpoint
  {
    FindFinds(cfg.items, id);
    if i :| i in cfg.items && i.id == id {
      SameItem(cfg.items, i, Find(cfg.items, id).value);
    }
    if i :| i in cfg.items && i.id == id && i.kind == Checkpoint {
      SameItem(cfg.items, i, Find(cfg.items, id).value);
    }
  }

  lemma AdvanceEnds(cfg: Config, e: Engine, seconds: int)
    ensures Advance(cfg, e, seconds).state == e.state || Advance(cfg, e, seconds).state in {Stopped, Completed}
  {
    hide MfaAdvance, Inert, MfaOk, BlockedReason;
    ProcessFrame(cfg, e, Due(cfg, e, seconds));
    MfaAdvanceFrame(cfg, Process(cfg, e, Due(cfg, e, seconds)).(elapsed := seconds));
  }

  lemma {:induction false} MakeAllState(cfg: Config, e: Engine, items: seq<Item>)
    ensures MakeAll(cfg, e, items).state == e.state || MakeAll(cfg, e, items).state in {Stopped, Completed}
  {
    hide MakeDue, Inert;
    if items != [] {
      MakeAllState(cfg, e, items[..|items| - 1]);
      MakeDueFrame(cfg, MakeAll(cfg, e, items[..|items| - 1]), items[|items| - 1]);
    }
  }

  lemma {:induction false} RunBranchesState(cfg: Config, e: Engine, branches: seq<Item>, result: Branch)
    ensures var a := RunBranches(cfg, e, branches, result).engine;
            a.state == e.state || a.state in {Stopped, Completed}
    decreases |branches|
  {
    hide MakeDue, Inert, Text.Blank, Find;
    if branches != [] && e.state != Stopped {
      MakeDueFrame(cfg, e, branches[0]);
      RunBranchesState(cfg, MakeDue(cfg, e, branches[0]), branches[1..], result);
      RunBranchesState(cfg, DoSkip(cfg, e, branches[0].id, "opposite branch selected").engine, branches[1..], result);
    }
  }

  /** An item that is skipped, and one that is delivered by hand, changes as it says and alone. */
  lemma {:induction false} ByHand(cfg: Config, e: Engine, op: Op, item: Item)
    requires UniqueIds(cfg.items) && item in cfg.items && Apply(cfg, e, op).ok && (op.Skip? || op.Deliver?)
    ensures var before, after := RuntimeOf(e, item.id), RuntimeOf(Apply(cfg, e, op).engine, item.id);
            if item.id != op.id then after == before
            else if op.Skip? then after == before.(status := Skipped)
            else
              && (after == Runtime(Delivered, Some(e.elapsed)) || after == before.(status := Failed))
              && (item.action.None? ==> after.status == Delivered)
  {
    hide ExerciseEngine.Deliver, Inert, MfaDeliver;
    FindFinds(cfg.items, op.id);
    var found := Find(cfg.items, op.id).value;
    if op.Skip? {
      SkipIs(cfg, e, op.id, op.reason);
    } else {
      DeliverFrame(cfg, e, found);
      DeliveredIff(cfg, e, found);
    }
    if item.id == op.id {
      SameItem(cfg.items, item, found);
    }
  }

  /** A reset run knows nothing of the one before: every item waits, no checkpoint has a result, no challenge
      was made, the clock is at zero, and the log says so at its end. */
  lemma ResetIs(cfg: Config, e: Engine, world: World)
    requires UniqueIds(cfg.items) && Apply(cfg, e, Reset(world)).ok
    ensures var a := Apply(cfg, e, Reset(world)).engine;
            && (forall i :: i in cfg.items ==> i.id in a.items)
            && (forall id :: id in a.items ==> a.items[id] == Runtime(Pending, None))
            && a.results == map[] && a.mfa.history == [] && !a.mfa.open && a.elapsed == 0 && a.state == Ready
            && a.world == world && a.log == e.log + [RunReset]
  {
  }

  /** A recovery review that a handler comes to is recorded as it came out, before the item's own event and
      before the run's end. */
  lemma ReviewIsTold(cfg: Config, e: Engine, item: Item)
    requires item.action.Some? && item.action.value != MFA_ACTION && item.action.value in cfg.handlers
    ensures var effect := cfg.handlers[item.action.value](item, e);
            var a := ExerciseEngine.Deliver(cfg, e, item);
            && a.world == effect.world
            && (effect.review.Some? ==>
                  |a.log| > |e.log| + 1 && a.log[|e.log|] == RecoveryReviewed(effect.review.value, e.elapsed))
  {
  }

  // ---------------------------------------------------------------- challenges

  /** Which change of the identity blocks a challenge: the first of the four that applies. */
  predicate Blocks(cfg: Config, w: World, reason: Reason)
  {
    match reason
    case AccountDisabled => !w.enabled
    case SessionRevoked => w.enabled && !w.sessionActive
    case FactorRemoved => w.enabled && w.sessionActive && !w.factorActive
    case CredentialRotated =>
      w.enabled && w.sessionActive && w.factorActive && w.credentialVersion != cfg.credentialVersion
    case _ => false
  }

  /** `a` is `e` with one more entry for a challenge, recorded at `at`, which is decided in the world too. */
  predicate Tells(e: Engine, a: Engine, c: Challenge, at: int)
  {
    a.log == e.log + [MfaRecorded(c, at)] && a.world.decision == Some(c.outcome)
    && a.state == e.state && a.elapsed == e.elapsed && a.items == e.items && a.results == e.results
  }

  /** The pending challenge is closed with this outcome, and only its last entry changes. */
  predicate Closes(e: Engine, a: Engine, outcome: Outcome, reason: Reason, at: int)
    requires e.mfa.history != []
  {
    var last := |e.mfa.history| - 1;
    var c := e.mfa.history[last].(outcome := outcome, reason := reason);
    Tells(e, a, c, at) && !a.mfa.open && a.mfa.history == e.mfa.history[..last] + [c]
  }

  /** The observer cancels a pending challenge whose identity has changed, expires one that has run out, at
      the second at which it did, and does nothing else. */
  lemma ObserverIs(cfg: Config, e: Engine)
    requires MfaOk(e.mfa)
    ensures var a := MfaAdvance(cfg, e);
            if !e.mfa.open then a == e else
            var c := e.mfa.history[|e.mfa.history| - 1];
            && (forall reason :: Blocks(cfg, e.world, reason) ==> Closes(e, a, Cancelled, reason, e.elapsed))
            && (Undisturbed(cfg, e.world) && c.expiresAt <= e.elapsed ==> Closes(e, a, Expired, Timeout, c.expiresAt))
            && (Undisturbed(cfg, e.world) && e.elapsed < c.expiresAt ==> a == e)
  {
  }

  /** A human decision is recorded as it was made: approved if approved and denied if not, on the entry of
      the pending challenge, now. A refused one leaves what the observer leaves, or nothing. */
  lemma DecisionIsRecorded(cfg: Config, e: Engine, item: string, approve: bool)
    requires MfaOk(e.mfa)
    ensures var s := DoDecide(cfg, e, item, approve);
            && (s.ok <==> e.state == Running && Awaits(cfg, e, item))
            && (s.ok && approve ==> Closes(e, s.engine, Approved, HumanDecision, e.elapsed))
            && (s.ok && !approve ==> Closes(e, s.engine, Denied, HumanDecision, e.elapsed))
            && (!s.ok ==> s.engine == if e.state == Running then MfaAdvance(cfg, e) else e)
  {
  }

  /** A stop of the challenges cancels the pending one, if there is one. */
  lemma StopIsRecorded(cfg: Config, e: Engine)
    requires MfaOk(e.mfa)
    ensures var a := Apply(cfg, e, CancelChallenge).engine;
            if e.mfa.open then Closes(e, a, Cancelled, Reason.FailSafeStop, e.elapsed) else a == e
  {
  }

  /** A challenge is delivered in running play if none is pending once the observer has looked: sent and
      pushed if the identity is unchanged, recorded as blocked and closed otherwise. */
  lemma ChallengeIsOpened(cfg: Config, e: Engine, item: Item)
    requires MfaOk(e.mfa)
    ensures var now, (a, ok) := MfaAdvance(cfg, e), MfaDeliver(cfg, e, item);
            && (ok <==> e.state == Running && !now.mfa.open)
            && (!ok ==> a == if e.state == Running then now else e)
            && (ok ==>
                  && |a.mfa.history| == |now.mfa.history| + 1 && a.mfa.history[..|now.mfa.history|] == now.mfa.history
                  && var c := a.mfa.history[|now.mfa.history|];
                  && Tells(now, a, c, e.elapsed)
                  && c.item == item.id && c.deliveredAt == e.elapsed && c.expiresAt == e.elapsed + cfg.timeout
                  && (Undisturbed(cfg, now.world) ==>
                        c.outcome == Sent && c.reason == AwaitingDecision && a.mfa.open
                        && a.world.pushes == now.world.pushes + 1)
                  && (forall reason :: Blocks(cfg, now.world, reason) ==>
                        c.outcome == Outcome.Blocked && c.reason == reason && !a.mfa.open
                        && a.world.pushes == now.world.pushes))
  {
    MfaAdvanceFrame(cfg, e);
  }
}
