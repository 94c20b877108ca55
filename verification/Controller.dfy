// Every operation of the exercise controller and of the scheduled challenges, over every sequence of
// calls: items only move forward, the clock never goes back, and an ended run stays as it is.

module Controller {
  import opened Prelude
  import opened ExerciseEngine
  import opened EngineFrames
  import opened Text

  datatype Op =
    | Prepare | Start | Pause | Resume
    | AdvanceTo(seconds: int)
    | AdvanceCut(seconds: int, visits: nat) // `advance_to` left by an exception of a time observer
    | Deliver(id: string) | Skip(id: string, reason: string)
    | Resolve(id: string, branch: Branch, reason: string)
    | FailSafeStop(reason: string)
    | Reset(world: World)
    | Decide(item: string, approve: bool) // a human decision on the challenge of that item
    | CancelChallenge | AdvanceChallenge
    | Intervene(world: World) // a participant's action on the synthetic identity

  /** The engine after a call, and whether the call returned normally. A call that raises may already
      have changed something. */
  datatype Step = Step(engine: Engine, ok: bool)

  // ---------------------------------------------------------------- operations

  /** `_definition` */
  function Find(items: seq<Item>, id: string): Option<Item>
  {
    if items == [] then None else if items[0].id == id then Some(items[0]) else Find(items[1..], id)
  }

  function Selected(items: seq<Item>, which: Item -> bool): seq<Item>
  {
    if items == [] then [] else if which(items[0]) then [items[0]] + Selected(items[1..], which)
    else Selected(items[1..], which)
  }

  function BranchItems(cfg: Config, checkpoint: string): seq<Item>
  {
    Sort(Selected(cfg.items, (i: Item) => i.trigger.AfterCheckpoint? && i.trigger.checkpoint == checkpoint))
  }

  /** `prepare`'s loop */
  function MakeAll(cfg: Config, e: Engine, items: seq<Item>): Engine
  {
    if items == [] then e else MakeDue(cfg, MakeAll(cfg, e, items[..|items| - 1]), items[|items| - 1])
  }

  function DoPrepare(cfg: Config, e: Engine): Step
  {
    if e.state != Ready then Step(e, false) else
    Step(MakeAll(cfg, e, Sort(Selected(cfg.items, (i: Item) => i.trigger.PreExercise?))), true)
  }

  function DoAdvance(cfg: Config, e: Engine, seconds: int): Step
  {
    var r := ExerciseEngine.AdvanceTo(cfg, e, seconds);
    if r.Ok? then Step(r.value, true) else Step(e, false)
  }

  /** The observer has been told of visit number `visits`, or of the final time, and has raised. */
  function DoAdvanceCut(cfg: Config, e: Engine, seconds: int, visits: nat): Step
  {
    if e.state != Running || seconds < e.elapsed then Step(e, false) else
    var due := Due(cfg, e, seconds);
    if visits < |due| then Step(Process(cfg, e, due[..visits]).(elapsed := Seconds(due[visits])), false)
    else Step(Process(cfg, e, due).(elapsed := seconds), false)
  }

  function DoStart(cfg: Config, e: Engine): Step
  {
    if e.state != Ready then Step(e, false)
    else DoAdvance(cfg, e.(state := Running, log := e.log + [RunStarted(e.elapsed)]), 0)
  }

  function DoPause(e: Engine): Step
  {
    if e.state != Running then Step(e, false)
    else Step(e.(state := Paused, log := e.log + [RunPaused(e.elapsed)]), true)
  }

  function DoResume(e: Engine): Step
  {
    if e.state != Paused then Step(e, false)
    else Step(e.(state := Running, log := e.log + [RunResumed(e.elapsed)]), true)
  }

  /** Items may still be processed from these. */
  predicate Unprocessed(status: Status)
  {
    status in {Pending, Offered}
  }

  function DoDeliver(cfg: Config, e: Engine, id: string): Step
  {
    var found := Find(cfg.items, id);
    if !Live(e.state) || found.None? || !Unprocessed(RuntimeOf(e, id).status) then Step(e, false)
    else Step(ExerciseEngine.Deliver(cfg, e, found.value), true)
  }

  function DoSkip(cfg: Config, e: Engine, id: string, reason: string): Step
  {
    if !Live(e.state) || Blank(reason) || Find(cfg.items, id).None? || !Unprocessed(RuntimeOf(e, id).status)
    then Step(e, false)
    else Step(e.(items := e.items[id := RuntimeOf(e, id).(status := Skipped)],
                 log := e.log + [ItemSkipped(id, e.elapsed)]), true)
  }

  predicate Chosen(item: Item, result: Branch)
  {
    item.trigger.AfterCheckpoint? && item.trigger.branch == result
  }

  /** The loop over a checkpoint's branches: each is made due or skipped, in reviewed order. It ends
      early when a handler has stopped the run, and is left by the first branch that cannot be skipped. */
  function RunBranches(cfg: Config, e: Engine, branches: seq<Item>, result: Branch): Step
    decreases |branches|
  {
    if branches == [] || e.state == Stopped then Step(e, true)
    else if Chosen(branches[0], result)
    then RunBranches(cfg, MakeDue(cfg, e, branches[0]), branches[1..], result)
    else
      var skipped := DoSkip(cfg, e, branches[0].id, "opposite branch selected");
      if skipped.ok then RunBranches(cfg, skipped.engine, branches[1..], result) else skipped
  }

  predicate CanResolve(cfg: Config, e: Engine, id: string, reason: string)
  {
    && e.state in {Running, Paused} && !Blank(reason)
    && Find(cfg.items, id).Some? && Find(cfg.items, id).value.kind.Checkpoint?
    && Unprocessed(RuntimeOf(e, id).status)
  }

  function Resolved(e: Engine, id: string, branch: Branch, reason: string): Engine
  {
    e.(items := e.items[id := Runtime(Delivered, Some(e.elapsed))],
       results := e.results[id := branch],
       log := e.log + [CheckpointResolved(id, branch, Strip(reason), e.elapsed)])
  }

  function DoResolve(cfg: Config, e: Engine, id: string, branch: Branch, reason: string): Step
  {
    if !CanResolve(cfg, e, id, reason) then Step(e, false)
    else RunBranches(cfg, Resolved(e, id, branch, reason), BranchItems(cfg, id), branch)
  }

  function DoStop(e: Engine, reason: string): Step
  {
    if !Live(e.state) || Blank(reason) then Step(e, false) else Step(Stop(e), true)
  }

  function DoReset(cfg: Config, e: Engine, world: World): Step
  {
    if e.state !in {Stopped, Completed} then Step(e, false)
    else Step(Initial(cfg, world).(log := e.log + [RunReset]), true)
  }

  /** `ScheduledMfa.decide` */
  function DoDecide(cfg: Config, e: Engine, item: string, approve: bool): Step
  {
    if e.state != Running then Step(e, false) else
    var now := MfaAdvance(cfg, e);
    if MfaOk(now.mfa) && now.mfa.open && Current(now.mfa).item == item
    then Step(Close(now, if approve then Approved else Denied, HumanDecision, now.elapsed), true)
    else Step(now, false)
  }

  /** `ScheduledMfa.stop` */
  function CancelPending(e: Engine): Engine
  {
    if MfaOk(e.mfa) && e.mfa.open then Close(e, Cancelled, Reason.FailSafeStop, e.elapsed) else e
  }

  function Apply(cfg: Config, e: Engine, op: Op): Step
  {
    match op
    case Prepare => DoPrepare(cfg, e)
    case Start => DoStart(cfg, e)
    case Pause => DoPause(e)
    case Resume => DoResume(e)
    case AdvanceTo(seconds) => DoAdvance(cfg, e, seconds)
    case AdvanceCut(seconds, visits) => DoAdvanceCut(cfg, e, seconds, visits)
    case Deliver(id) => DoDeliver(cfg, e, id)
    case Skip(id, reason) => DoSkip(cfg, e, id, reason)
    case Resolve(id, branch, reason) => DoResolve(cfg, e, id, branch, reason)
    case FailSafeStop(reason) => DoStop(e, reason)
    case Reset(world) => DoReset(cfg, e, world)
    case Decide(item, approve) => DoDecide(cfg, e, item, approve)
    case CancelChallenge => Step(CancelPending(e), true)
    case AdvanceChallenge => Step(MfaAdvance(cfg, e), true)
    case Intervene(world) => Step(e.(world := world), true)
  }

  function Run(cfg: Config, e: Engine, ops: seq<Op>): Engine
  {
    if ops == [] then e else Apply(cfg, Run(cfg, e, ops[..|ops| - 1]), ops[|ops| - 1]).engine
  }

  // ---------------------------------------------------------------- the invariant

  /** No elapsed item still waits for a time before the present one. */
  ghost predicate NotOverdue(cfg: Config, e: Engine)
  {
    forall i :: i in cfg.items && i.trigger.Elapsed? && RuntimeOf(e, i.id).status == Pending
                ==> e.elapsed <= i.trigger.seconds
  }

  ghost predicate Good(cfg: Config, e: Engine)
  {
    && (forall i :: i in cfg.items ==> i.id in e.items)
    && NotOverdue(cfg, e)
    && 0 <= e.elapsed && (e.state == Ready ==> e.elapsed == 0)
    && (forall c :: c in e.results ==> RuntimeOf(e, c).status == Delivered)
    && MfaOk(e.mfa)
  }

  /** Pending to Offered to one terminal status, or Pending straight to terminal; a terminal entry is
      never touched again. */
  predicate Evolves(before: Runtime, after: Runtime)
  {
    || before == after
    || (before.status == Pending && after.status != Pending)
    || (before.status == Offered && after.status !in {Pending, Offered})
  }

  /** Within one run: the clock does not go back, items only evolve, results are written once, and
      evidence is only added. */
  ghost predicate Progress(e: Engine, a: Engine)
  {
    && e.elapsed <= a.elapsed
    && (forall id :: Evolves(RuntimeOf(e, id), RuntimeOf(a, id)))
    && a.items.Keys == e.items.Keys
    && (forall c :: c in e.results ==> c in a.results && a.results[c] == e.results[c])
    && e.log <= a.log
  }

  /** An ended run: nothing about items, results, clock or state may change. */
  predicate SamePlay(e: Engine, a: Engine)
  {
    a.items == e.items && a.results == e.results && a.elapsed == e.elapsed && a.state == e.state
  }

  // ---------------------------------------------------------------- each loop keeps it

  lemma {:induction false} FindFinds(items: seq<Item>, id: string)
    ensures Find(items, id).Some? ==> Find(items, id).value in items && Find(items, id).value.id == id
    ensures Find(items, id).None? <==> forall i :: i in items ==> i.id != id
  {
    if items != [] {
      FindFinds(items[1..], id);
      assert items == [items[0]] + items[1..];
    }
  }

  lemma {:induction false} SelectedAre(items: seq<Item>, which: Item -> bool)
    ensures forall i :: i in Selected(items, which) <==> i in items && which(i)
  {
    if items != [] {
      SelectedAre(items[1..], which);
    }
  }

  lemma BranchItemsAre(cfg: Config, checkpoint: string)
    ensures forall i :: i in BranchItems(cfg, checkpoint) <==>
              i in cfg.items && i.trigger.AfterCheckpoint? && i.trigger.checkpoint == checkpoint
  {
    var which := (i: Item) => i.trigger.AfterCheckpoint? && i.trigger.checkpoint == checkpoint;
    SelectedAre(cfg.items, which);
    SortKeepsMembers(Selected(cfg.items, which));
  }

  lemma ProgressTrans(e: Engine, b: Engine, a: Engine)
    requires Progress(e, b) && Progress(b, a)
    ensures Progress(e, a)
  {
    forall id ensures Evolves(RuntimeOf(e, id), RuntimeOf(a, id)) {
      assert Evolves(RuntimeOf(e, id), RuntimeOf(b, id)) && Evolves(RuntimeOf(b, id), RuntimeOf(a, id));
    }
  }

  /** A change to one unprocessed item and to no clock keeps the invariant. */
  lemma TouchKeeps(cfg: Config, e: Engine, a: Engine, id: string)
    requires Good(cfg, e) && OnlyTouches(cfg, e, a, id) && id in e.items
    requires Evolves(RuntimeOf(e, id), RuntimeOf(a, id)) && RuntimeOf(a, id).status != Pending
    ensures Good(cfg, a) && Progress(e, a)
  {
    hide Inert;
    forall other ensures Evolves(RuntimeOf(e, other), RuntimeOf(a, other)) {
    }
    forall c | c in a.results ensures RuntimeOf(a, c).status == Delivered {
      assert RuntimeOf(e, c).status == Delivered;
    }
  }

  lemma MakeDueKeeps(cfg: Config, e: Engine, item: Item)
    requires Good(cfg, e) && item in cfg.items
    ensures Good(cfg, MakeDue(cfg, e, item)) && Progress(e, MakeDue(cfg, e, item))
  {
    hide MakeDue, Good, Progress, OnlyTouches;
    MakeDueFrame(cfg, e, item);
    assert item.id in e.items by { assert Good(cfg, e); ItemKnown(cfg, e, item); }
    TouchKeeps(cfg, e, MakeDue(cfg, e, item), item.id);
  }

  lemma ItemKnown(cfg: Config, e: Engine, item: Item)
    requires Good(cfg, e) && item in cfg.items
    ensures item.id in e.items
  {
  }

  lemma {:induction false} MakeAllKeeps(cfg: Config, e: Engine, items: seq<Item>)
    requires Good(cfg, e) && forall i :: i in items ==> i in cfg.items
    ensures Good(cfg, MakeAll(cfg, e, items)) && Progress(e, MakeAll(cfg, e, items))
  {
    hide Good, Progress, MakeDue;
    if items == [] {
      ProgressRefl(e);
    } else {
      var init := items[..|items| - 1];
      MakeAllKeeps(cfg, e, init);
      MakeDueKeeps(cfg, MakeAll(cfg, e, init), items[|items| - 1]);
      ProgressTrans(e, MakeAll(cfg, e, init), MakeAll(cfg, e, items));
    }
  }

  lemma ProgressRefl(e: Engine)
    ensures Progress(e, e)
  {
  }

  /** What `Due` selects, in which order. */
  lemma DueAre(cfg: Config, e: Engine, seconds: int)
    ensures forall i :: i in Due(cfg, e, seconds) <==> i in cfg.items && IsDue(e, i, -1, seconds)
    ensures SortedByKey(Due(cfg, e, seconds))
  {
    DueItemsAre(cfg.items, e, -1, seconds);
    SortKeepsMembers(DueItems(cfg.items, e, -1, seconds));
    SortSorts(DueItems(cfg.items, e, -1, seconds));
  }

  /** Inside a batch the clock is assigned without a comparison, and still never goes back: the batch
      visits its items at `BatchTime(0) <= BatchTime(1) <= ...`, from the present to the target. */
  function BatchTime(cfg: Config, e: Engine, seconds: int, k: nat): int
  {
    var due := Due(cfg, e, seconds);
    if k < |due| then Seconds(due[k]) else seconds
  }

  lemma BatchClockIsMonotone(cfg: Config, e: Engine, seconds: int, j: nat, k: nat)
    requires Good(cfg, e) && e.elapsed <= seconds && j <= k
    ensures e.elapsed <= BatchTime(cfg, e, seconds, j) <= BatchTime(cfg, e, seconds, k) <= seconds
  {
    hide Sort, DueItems, Due;
    var due := Due(cfg, e, seconds);
    DueAre(cfg, e, seconds);
    if j < |due| {
      assert due[j] in due;
      if j < k < |due| {
        assert !KeyLess(due[k], due[j]);
      }
    }
    if k < |due| {
      assert due[k] in due;
    }
  }

  /** After `k` visits of a batch and the assignment of the next time, observers aside. */
  lemma {:induction false} CutKeeps(cfg: Config, e: Engine, seconds: int, k: nat)
    requires Good(cfg, e) && UniqueIds(cfg.items) && e.state != Ready && e.elapsed <= seconds
    requires k <= |Due(cfg, e, seconds)|
    ensures var a := Process(cfg, e, Due(cfg, e, seconds)[..k]).(elapsed := BatchTime(cfg, e, seconds, k));
            Good(cfg, a) && Progress(e, a) && a.state != Ready
  {
    hide Sort, DueItems, Process, Due, Inert, BlockedReason, MfaOk, KeyLess;
    var due := Due(cfg, e, seconds);
    var done := due[..k];
    var a := Process(cfg, e, done).(elapsed := BatchTime(cfg, e, seconds, k));
    DueAre(cfg, e, seconds);
    ProcessFrame(cfg, e, done);
    ProcessSettles(cfg, e, done);
    BatchClockIsMonotone(cfg, e, seconds, k, k);
    forall id ensures Evolves(RuntimeOf(e, id), RuntimeOf(a, id)) {
      assert RuntimeOf(a, id) == RuntimeOf(Process(cfg, e, done), id);
      if i :| i in done && i.id == id {
        assert i in due;
      }
    }
    forall i | i in cfg.items && i.trigger.Elapsed? && RuntimeOf(a, i.id).status == Pending
      ensures a.elapsed <= i.trigger.seconds
    {
      assert RuntimeOf(e, i.id).status == Pending;
      WaitsForLater(cfg, e, seconds, k, i);
    }
    forall c | c in a.results ensures RuntimeOf(a, c).status == Delivered {
      assert RuntimeOf(e, c).status == Delivered;
    }
  }

  /** An item still pending after `k` visits is due at or after the `k`th time. */
  lemma WaitsForLater(cfg: Config, e: Engine, seconds: int, k: nat, item: Item)
    requires k <= |Due(cfg, e, seconds)| && item in cfg.items && item.trigger.Elapsed?
    requires RuntimeOf(e, item.id).status == Pending
    requires RuntimeOf(Process(cfg, e, Due(cfg, e, seconds)[..k]), item.id).status == Pending
    ensures BatchTime(cfg, e, seconds, k) <= item.trigger.seconds
  {
    hide Sort, DueItems, Process, Due;
    var due := Due(cfg, e, seconds);
    DueAre(cfg, e, seconds);
    ProcessFrame(cfg, e, due[..k]);
    if item in due {
      var n :| 0 <= n < |due| && due[n] == item;
      if n > k {
        assert !KeyLess(due[n], due[k]);
      }
    } else {
      assert seconds < item.trigger.seconds;
      if k < |due| {
        assert due[k] in due;
      }
    }
  }

  lemma ClockKeeps(cfg: Config, e: Engine)
    requires Good(cfg, e)
    ensures Good(cfg, MfaAdvance(cfg, e)) && Progress(e, MfaAdvance(cfg, e))
  {
    hide MfaAdvance, MfaOk;
    MfaAdvanceFrame(cfg, e);
    assert forall id :: RuntimeOf(MfaAdvance(cfg, e), id) == RuntimeOf(e, id);
  }

  lemma {:induction false} AdvanceKeeps(cfg: Config, e: Engine, seconds: int)
    requires Good(cfg, e) && UniqueIds(cfg.items) && e.state != Ready && e.elapsed <= seconds
    ensures Good(cfg, Advance(cfg, e, seconds)) && Progress(e, Advance(cfg, e, seconds))
    ensures Advance(cfg, e, seconds).state != Ready
  {
    hide Sort, DueItems, Process, Due, Good, Progress, MfaAdvance;
    var due := Due(cfg, e, seconds);
    assert due[..|due|] == due;
    CutKeeps(cfg, e, seconds, |due|);
    var a := Process(cfg, e, due).(elapsed := seconds);
    ClockKeeps(cfg, a);
    MfaAdvanceFrame(cfg, a);
    ProgressTrans(e, a, Advance(cfg, e, seconds));
  }

  lemma SkipKeeps(cfg: Config, e: Engine, id: string, reason: string)
    requires Good(cfg, e)
    ensures var s := DoSkip(cfg, e, id, reason);
            && Good(cfg, s.engine) && Progress(e, s.engine) && s.engine.state == e.state
            && (s.ok ==> OnlyTouches(cfg, e, s.engine, id) && RuntimeOf(s.engine, id).status == Skipped)
  {
    hide Good, Inert, Progress, BlockedReason, Blank, MfaOk;
    var s := DoSkip(cfg, e, id, reason);
    if s.ok {
      FindFinds(cfg.items, id);
      ItemKnown(cfg, e, Find(cfg.items, id).value);
      TouchKeeps(cfg, e, s.engine, id);
    } else {
      ProgressRefl(e);
    }
  }

  lemma {:induction false} RunBranchesKeeps(cfg: Config, e: Engine, branches: seq<Item>, result: Branch)
    requires Good(cfg, e) && e.state != Ready && forall i :: i in branches ==> i in cfg.items
    ensures var s := RunBranches(cfg, e, branches, result);
            Good(cfg, s.engine) && Progress(e, s.engine) && s.engine.state != Ready
    decreases |branches|
  {
    hide Good, Progress, MakeDue, DoSkip;
    if branches == [] || e.state == Stopped {
      ProgressRefl(e);
    } else if Chosen(branches[0], result) {
      var now := MakeDue(cfg, e, branches[0]);
      MakeDueKeeps(cfg, e, branches[0]);
      MakeDueFrame(cfg, e, branches[0]);
      RunBranchesKeeps(cfg, now, branches[1..], result);
      ProgressTrans(e, now, RunBranches(cfg, e, branches, result).engine);
    } else {
      var skipped := DoSkip(cfg, e, branches[0].id, "opposite branch selected");
      SkipKeeps(cfg, e, branches[0].id, "opposite branch selected");
      if skipped.ok {
        RunBranchesKeeps(cfg, skipped.engine, branches[1..], result);
        ProgressTrans(e, skipped.engine, RunBranches(cfg, e, branches, result).engine);
      }
    }
  }

  lemma ResolvedKeeps(cfg: Config, e: Engine, id: string, branch: Branch, reason: string)
    requires Good(cfg, e) && id in e.items && Unprocessed(RuntimeOf(e, id).status)
    ensures Good(cfg, Resolved(e, id, branch, reason)) && Progress(e, Resolved(e, id, branch, reason))
  {
    var a := Resolved(e, id, branch, reason);
    forall other ensures Evolves(RuntimeOf(e, other), RuntimeOf(a, other)) {
    }
    assert id !in e.results;
  }

  lemma ResolveKeeps(cfg: Config, e: Engine, id: string, branch: Branch, reason: string)
    requires Good(cfg, e) && UniqueIds(cfg.items)
    ensures var a := DoResolve(cfg, e, id, branch, reason).engine;
            Good(cfg, a) && Progress(e, a)
  {
    hide Good, Progress, RunBranches, BranchItems, Blank;
    if CanResolve(cfg, e, id, reason) {
      FindFinds(cfg.items, id);
      ItemKnown(cfg, e, Find(cfg.items, id).value);
      ResolvedKeeps(cfg, e, id, branch, reason);
      BranchItemsAre(cfg, id);
      RunBranchesKeeps(cfg, Resolved(e, id, branch, reason), BranchItems(cfg, id), branch);
      ProgressTrans(e, Resolved(e, id, branch, reason), DoResolve(cfg, e, id, branch, reason).engine);
    } else {
      ProgressRefl(e);
    }
  }

  /** Changes that leave items, results and the clock alone. */
  lemma AsideKeeps(cfg: Config, e: Engine, a: Engine)
    requires Good(cfg, e) && a.items == e.items && a.results == e.results && a.elapsed == e.elapsed
    requires e.log <= a.log && MfaOk(a.mfa) && (a.state == Ready ==> e.state == Ready)
    ensures Good(cfg, a) && Progress(e, a)
  {
    hide MfaOk;
    assert forall id :: RuntimeOf(a, id) == RuntimeOf(e, id);
  }

  lemma MfaOpsKeep(cfg: Config, e: Engine, op: Op)
    requires Good(cfg, e) && (op.Decide? || op.CancelChallenge?)
    ensures var a := Apply(cfg, e, op).engine;
            Good(cfg, a) && Progress(e, a)
  {
    hide Good, Progress, BlockedReason, Close, MfaAdvance, Current, MfaOk;
    GoodMfa(cfg, e);
    var now := if op.Decide? then MfaAdvance(cfg, e) else e;
    MfaAdvanceFrame(cfg, e);
    if now.mfa.open {
      var outcome := if op.CancelChallenge? then Cancelled else if op.approve then Approved else Denied;
      CloseFrame(now, outcome, if op.Decide? then HumanDecision else Reason.FailSafeStop, now.elapsed);
    }
    AsideKeeps(cfg, e, Apply(cfg, e, op).engine);
  }

  lemma GoodMfa(cfg: Config, e: Engine)
    requires Good(cfg, e)
    ensures MfaOk(e.mfa) && 0 <= e.elapsed && (e.state == Ready ==> e.elapsed == 0)
  {
  }

  lemma DeliverKeeps(cfg: Config, e: Engine, id: string)
    requires Good(cfg, e) && UniqueIds(cfg.items)
    ensures var a := DoDeliver(cfg, e, id).engine;
            Good(cfg, a) && Progress(e, a)
  {
    hide Good, Progress, ExerciseEngine.Deliver, OnlyTouches;
    if DoDeliver(cfg, e, id).ok {
      FindFinds(cfg.items, id);
      var item := Find(cfg.items, id).value;
      ItemKnown(cfg, e, item);
      DeliverFrame(cfg, e, item);
      TouchKeeps(cfg, e, ExerciseEngine.Deliver(cfg, e, item), id);
    } else {
      ProgressRefl(e);
    }
  }

  // ---------------------------------------------------------------- every call, every run

  /** Every operation keeps the invariant and, unless it starts a new run, only makes progress. */
  lemma {:induction false} StepKeeps(cfg: Config, e: Engine, op: Op)
    requires Good(cfg, e) && UniqueIds(cfg.items)
    ensures var a := Apply(cfg, e, op).engine;
            Good(cfg, a) && (!op.Reset? ==> Progress(e, a))
  {
    hide Good, Progress, Process, Due, MfaAdvance, RunBranches, ExerciseEngine.Deliver, MakeAll, Selected, Sort, Blank,
      BranchItems, BlockedReason, MfaOk;
    GoodMfa(cfg, e);
    ProgressRefl(e);
    match op {
      case Prepare =>
        var which := (i: Item) => i.trigger.PreExercise?;
        SelectedAre(cfg.items, which);
        SortKeepsMembers(Selected(cfg.items, which));
        MakeAllKeeps(cfg, e, Sort(Selected(cfg.items, which)));
      case Start =>
        if e.state == Ready {
          var started := e.(state := Running, log := e.log + [RunStarted(e.elapsed)]);
          AsideKeeps(cfg, e, started);
          AdvanceKeeps(cfg, started, 0);
          ProgressTrans(e, started, Advance(cfg, started, 0));
        }
      case Pause => AsideKeeps(cfg, e, Apply(cfg, e, op).engine);
      case Resume => AsideKeeps(cfg, e, Apply(cfg, e, op).engine);
      case AdvanceTo(seconds) =>
        if e.state == Running && e.elapsed <= seconds {
          AdvanceKeeps(cfg, e, seconds);
        }
      case AdvanceCut(seconds, visits) =>
        if e.state == Running && e.elapsed <= seconds {
          var due := Due(cfg, e, seconds);
          assert due[..|due|] == due;
          CutKeeps(cfg, e, seconds, if visits < |due| then visits else |due|);
        }
      case Deliver(id) => DeliverKeeps(cfg, e, id);
      case Skip(id, reason) => SkipKeeps(cfg, e, id, reason);
      case Resolve(id, branch, reason) => ResolveKeeps(cfg, e, id, branch, reason);
      case FailSafeStop(reason) => AsideKeeps(cfg, e, Apply(cfg, e, op).engine);
      case Reset(world) => InitialGood(cfg, world, e.log + [RunReset]);
      case Decide(item, approve) => MfaOpsKeep(cfg, e, op);
      case CancelChallenge => MfaOpsKeep(cfg, e, op);
      case AdvanceChallenge => ClockKeeps(cfg, e);
      case Intervene(world) => AsideKeeps(cfg, e, Apply(cfg, e, op).engine);
    }
  }

  lemma InitialGood(cfg: Config, world: World, log: seq<Event>)
    ensures Good(cfg, Initial(cfg, world).(log := log))
  {
  }

  /** Monotone clock and forward-only items, for every sequence of calls within one run. */
  lemma {:induction false} RunKeeps(cfg: Config, e: Engine, ops: seq<Op>)
    requires Good(cfg, e) && UniqueIds(cfg.items)
    ensures Good(cfg, Run(cfg, e, ops))
    ensures (forall op :: op in ops ==> !op.Reset?) ==> Progress(e, Run(cfg, e, ops))
  {
    hide Good, Progress, Apply;
    if ops == [] {
      ProgressRefl(e);
    } else {
      var init, last := ops[..|ops| - 1], ops[|ops| - 1];
      RunKeeps(cfg, e, init);
      StepKeeps(cfg, Run(cfg, e, init), last);
      if forall op :: op in ops ==> !op.Reset? {
        ProgressTrans(e, Run(cfg, e, init), Run(cfg, e, ops));
      }
    }
  }

  /** After STOPPED or COMPLETED no call but a reset changes an item, a result, the clock or the state. */
  lemma {:induction false} EndedStaysEnded(cfg: Config, e: Engine, ops: seq<Op>)
    requires e.state in {Stopped, Completed} && forall op :: op in ops ==> !op.Reset?
    ensures SamePlay(e, Run(cfg, e, ops))
  {
    hide MfaAdvance, Process, Due, MakeAll, RunBranches, ExerciseEngine.Deliver, Blank, BlockedReason;
    if ops != [] {
      var init := ops[..|ops| - 1];
      EndedStaysEnded(cfg, e, init);
      MfaAdvanceFrame(cfg, Run(cfg, e, init));
    }
  }

  /** And the only events it still emits are about the challenges: no item, checkpoint or run event. */
  lemma {:induction false} EndedSaysNothingOfPlay(cfg: Config, e: Engine, ops: seq<Op>)
    requires e.state in {Stopped, Completed} && forall op :: op in ops ==> !op.Reset?
    ensures e.log <= Run(cfg, e, ops).log
    ensures forall k :: |e.log| <= k < |Run(cfg, e, ops).log| ==> Run(cfg, e, ops).log[k].MfaRecorded?
  {
    hide Process, Due, MakeAll, RunBranches, ExerciseEngine.Deliver, Blank, BlockedReason;
    if ops != [] {
      var init := ops[..|ops| - 1];
      EndedSaysNothingOfPlay(cfg, e, init);
      EndedStaysEnded(cfg, e, init);
      var before := Run(cfg, e, init);
      assert Run(cfg, e, ops) == Apply(cfg, before, ops[|ops| - 1]).engine;
    }
  }

  /** A cut-short advance can leave an item pending at the present instant; a completed one cannot leave
      any pending at or before it. */
  lemma NothingWaitsAfterAdvance(cfg: Config, e: Engine, seconds: int, item: Item)
    requires UniqueIds(cfg.items) && item in cfg.items && item.trigger.Elapsed?
    requires ExerciseEngine.AdvanceTo(cfg, e, seconds).Ok?
    ensures RuntimeOf(Advance(cfg, e, seconds), item.id).status == Pending ==> seconds < item.trigger.seconds
  {
    hide Sort, DueItems, Process, Due, MfaAdvance;
    var due := Due(cfg, e, seconds);
    DueAre(cfg, e, seconds);
    ProcessFrame(cfg, e, due);
    MfaAdvanceFrame(cfg, Process(cfg, e, due).(elapsed := seconds));
    if RuntimeOf(Advance(cfg, e, seconds), item.id).status == Pending {
      if RuntimeOf(e, item.id).status != Pending {
        forall d | d in due ensures d.id != item.id {
        }
      }
    }
  }
}
