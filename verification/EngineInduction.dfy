// Every call of the controller is made of a few elementary steps, so what each of them keeps holds in
// every reachable engine, also half-way through a batch and after a call that raised.

module EngineInduction {
  import opened Prelude
  import opened ExerciseEngine
  import opened Controller
  import opened Text

  datatype Elementary =
    | Delivers(item: Item) | Offers(item: Item) | Skips(id: string, reason: string)
    | Resolves(id: string, branch: Branch, reason: string)
    | Starts | Pauses | Resumes | Stops
    | ClockReads(seconds: int) | Observes | Decides(outcome: Outcome, why: Reason) | Intervenes(world: World)
    | Restarts(world: World)

  predicate Enabled(cfg: Config, e: Engine, m: Elementary)
  {
    match m
    case Delivers(item) => item in cfg.items && Unprocessed(RuntimeOf(e, item.id).status)
    case Offers(item) => item in cfg.items && RuntimeOf(e, item.id).status == Pending
    case Skips(id, reason) => DoSkip(cfg, e, id, reason).ok
    case Resolves(id, branch, reason) => CanResolve(cfg, e, id, reason)
    case Starts => e.state == Ready
    case Pauses => e.state == Running
    case Resumes => e.state == Paused
    case Stops => Live(e.state)
    case Decides(outcome, why) => outcome in {Approved, Denied, Cancelled} && MfaOk(e.mfa) && e.mfa.open
    case Restarts(world) => e.state in {Stopped, Completed}
    case _ => true
  }

  function Does(cfg: Config, e: Engine, m: Elementary): Engine
    requires Enabled(cfg, e, m)
  {
    match m
    case Delivers(item) => ExerciseEngine.Deliver(cfg, e, item)
    case Offers(item) => e.(items := e.items[item.id := RuntimeOf(e, item.id).(status := Offered)],
                            log := e.log + [ItemOffered(item.id, e.elapsed)])
    case Skips(id, reason) => DoSkip(cfg, e, id, reason).engine
    case Resolves(id, branch, reason) => Resolved(e, id, branch, reason)
    case Starts => e.(state := Running, log := e.log + [RunStarted(e.elapsed)])
    case Pauses => DoPause(e).engine
    case Resumes => DoResume(e).engine
    case Stops => Stop(e)
    case ClockReads(seconds) => e.(elapsed := seconds)
    case Observes => MfaAdvance(cfg, e)
    case Decides(outcome, why) => Close(e, outcome, why, e.elapsed)
    case Intervenes(world) => e.(world := world)
    case Restarts(world) => DoReset(cfg, e, world).engine
  }

  /** Kept by every elementary step. */
  ghost predicate Stable(cfg: Config, inv: Engine -> bool)
  {
    forall e, m :: inv(e) && Enabled(cfg, e, m) ==> inv(Does(cfg, e, m))
  }

  /** Kept by every elementary step within one run. */
  ghost predicate PlayStable(cfg: Config, inv: Engine -> bool)
  {
    forall e, m :: inv(e) && Enabled(cfg, e, m) && !m.Restarts? ==> inv(Does(cfg, e, m))
  }

  lemma MakeDueStable(cfg: Config, inv: Engine -> bool, e: Engine, item: Item)
    requires PlayStable(cfg, inv) && inv(e) && item in cfg.items
    ensures inv(MakeDue(cfg, e, item))
  {
    hide ExerciseEngine.Deliver;
    var offer, deliver := Offers(item), Delivers(item);
    if RuntimeOf(e, item.id).status == Pending {
      assert Enabled(cfg, e, offer) && Enabled(cfg, e, deliver);
      assert inv(Does(cfg, e, offer)) && inv(Does(cfg, e, deliver));
    }
  }

  lemma {:induction false} MakeAllStable(cfg: Config, inv: Engine -> bool, e: Engine, items: seq<Item>)
    requires PlayStable(cfg, inv) && inv(e) && forall i :: i in items ==> i in cfg.items
    ensures inv(MakeAll(cfg, e, items))
  {
    hide PlayStable, MakeDue;
    if items != [] {
      MakeAllStable(cfg, inv, e, items[..|items| - 1]);
      MakeDueStable(cfg, inv, MakeAll(cfg, e, items[..|items| - 1]), items[|items| - 1]);
    }
  }

  lemma ClockStable(cfg: Config, inv: Engine -> bool, e: Engine, seconds: int)
    requires PlayStable(cfg, inv) && inv(e)
    ensures inv(e.(elapsed := seconds)) && inv(Clock(cfg, e, seconds))
  {
    hide MfaAdvance;
    var now := e.(elapsed := seconds);
    assert Enabled(cfg, e, ClockReads(seconds)) && Does(cfg, e, ClockReads(seconds)) == now;
    assert Enabled(cfg, now, Observes) && Does(cfg, now, Observes) == MfaAdvance(cfg, now);
  }

  lemma {:induction false} ProcessStable(cfg: Config, inv: Engine -> bool, e: Engine, due: seq<Item>)
    requires PlayStable(cfg, inv) && inv(e) && forall i :: i in due ==> i in cfg.items
    ensures inv(Process(cfg, e, due))
  {
    hide PlayStable, MakeDue, Clock;
    if due != [] {
      var before, item := Process(cfg, e, due[..|due| - 1]), due[|due| - 1];
      ProcessStable(cfg, inv, e, due[..|due| - 1]);
      ClockStable(cfg, inv, before, Seconds(item));
      MakeDueStable(cfg, inv, Clock(cfg, before, Seconds(item)), item);
    }
  }

  lemma AdvanceStable(cfg: Config, inv: Engine -> bool, e: Engine, seconds: int)
    requires PlayStable(cfg, inv) && inv(e)
    ensures inv(Advance(cfg, e, seconds))
  {
    hide PlayStable, Process, Clock, Due;
    DueAre(cfg, e, seconds);
    ProcessStable(cfg, inv, e, Due(cfg, e, seconds));
    ClockStable(cfg, inv, Process(cfg, e, Due(cfg, e, seconds)), seconds);
  }

  lemma AdvanceCutStable(cfg: Config, inv: Engine -> bool, e: Engine, seconds: int, visits: nat)
    requires PlayStable(cfg, inv) && inv(e)
    ensures inv(DoAdvanceCut(cfg, e, seconds, visits).engine)
  {
    hide PlayStable, Process, Due;
    var due := Due(cfg, e, seconds);
    DueAre(cfg, e, seconds);
    var done := if visits < |due| then due[..visits] else due;
    ProcessStable(cfg, inv, e, done);
    ClockStable(cfg, inv, Process(cfg, e, done), BatchTime(cfg, e, seconds, visits));
  }

  lemma SkipStable(cfg: Config, inv: Engine -> bool, e: Engine, id: string, reason: string)
    requires PlayStable(cfg, inv) && inv(e)
    ensures inv(DoSkip(cfg, e, id, reason).engine)
  {
    hide DoSkip;
    var m := Skips(id, reason);
    assert Enabled(cfg, e, m) ==> inv(Does(cfg, e, m));
    SkipRefusedIsSame(cfg, e, id, reason);
  }

  lemma SkipRefusedIsSame(cfg: Config, e: Engine, id: string, reason: string)
    ensures !DoSkip(cfg, e, id, reason).ok ==> DoSkip(cfg, e, id, reason).engine == e
  {
  }

  lemma {:induction false} RunBranchesStable(cfg: Config, inv: Engine -> bool, e: Engine, branches: seq<Item>,
        result: Branch)
    requires PlayStable(cfg, inv) && inv(e) && forall i :: i in branches ==> i in cfg.items
    ensures inv(RunBranches(cfg, e, branches, result).engine)
    decreases |branches|
  {
    hide PlayStable, MakeDue, DoSkip;
    if branches != [] && e.state != Stopped {
      MakeDueStable(cfg, inv, e, branches[0]);
      var skipped := DoSkip(cfg, e, branches[0].id, "opposite branch selected");
      SkipStable(cfg, inv, e, branches[0].id, "opposite branch selected");
      if Chosen(branches[0], result) {
        RunBranchesStable(cfg, inv, MakeDue(cfg, e, branches[0]), branches[1..], result);
      } else if skipped.ok {
        RunBranchesStable(cfg, inv, skipped.engine, branches[1..], result);
      }
    }
  }

  lemma ResolveStable(cfg: Config, inv: Engine -> bool, e: Engine, id: string, branch: Branch, reason: string)
    requires PlayStable(cfg, inv) && inv(e)
    ensures inv(DoResolve(cfg, e, id, branch, reason).engine)
  {
    hide RunBranches, BranchItems, Blank;
    var m := Resolves(id, branch, reason);
    if CanResolve(cfg, e, id, reason) {
      assert Enabled(cfg, e, m) && Does(cfg, e, m) == Resolved(e, id, branch, reason);
      BranchItemsAre(cfg, id);
      RunBranchesStable(cfg, inv, Resolved(e, id, branch, reason), BranchItems(cfg, id), branch);
    }
  }

  lemma DeliverStable(cfg: Config, inv: Engine -> bool, e: Engine, id: string)
    requires PlayStable(cfg, inv) && inv(e)
    ensures inv(DoDeliver(cfg, e, id).engine)
  {
    hide ExerciseEngine.Deliver;
    if DoDeliver(cfg, e, id).ok {
      FindFinds(cfg.items, id);
      var m := Delivers(Find(cfg.items, id).value);
      assert Enabled(cfg, e, m) && Does(cfg, e, m) == DoDeliver(cfg, e, id).engine;
    }
  }

  /** The calls that are one elementary step. */
  lemma SimpleStable(cfg: Config, inv: Engine -> bool, e: Engine, op: Op)
    requires PlayStable(cfg, inv) && inv(e)
    requires op.Pause? || op.Resume? || op.FailSafeStop? || op.AdvanceChallenge? || op.Intervene?
    ensures inv(Apply(cfg, e, op).engine)
  {
    hide MfaAdvance, Close, Blank, Initial, BlockedReason;
    var m := if op.Pause? then Pauses else if op.Resume? then Resumes else if op.FailSafeStop? then Stops
             else if op.Intervene? then Intervenes(op.world) else Observes;
    assert Enabled(cfg, e, m) ==> inv(Does(cfg, e, m));
  }

  /** The calls that decide the pending challenge; a human decision is preceded by the observer. */
  lemma DecisionStable(cfg: Config, inv: Engine -> bool, e: Engine, op: Op)
    requires PlayStable(cfg, inv) && inv(e) && (op.Decide? || op.CancelChallenge?)
    ensures inv(Apply(cfg, e, op).engine)
  {
    hide MfaAdvance, Close, Blank, Initial, BlockedReason, Current;
    assert Enabled(cfg, e, Observes) && Does(cfg, e, Observes) == MfaAdvance(cfg, e);
    var now := if op.Decide? then MfaAdvance(cfg, e) else e;
    var m := if op.CancelChallenge? then Decides(Cancelled, Reason.FailSafeStop)
             else Decides(if op.approve then Approved else Denied, HumanDecision);
    assert Enabled(cfg, now, m) ==> inv(Does(cfg, now, m));
  }

  /** What every elementary step keeps, every call keeps. */
  lemma StepStable(cfg: Config, inv: Engine -> bool, e: Engine, op: Op)
    requires Stable(cfg, inv) && inv(e)
    ensures inv(Apply(cfg, e, op).engine)
  {
    hide Does, Enabled, Apply;
    if op.Reset? {
      ResetStable(cfg, inv, e, op.world);
    } else {
      CallStable(cfg, inv, e, op);
    }
  }

  lemma ResetStable(cfg: Config, inv: Engine -> bool, e: Engine, world: World)
    requires Stable(cfg, inv) && inv(e)
    ensures inv(Apply(cfg, e, Reset(world)).engine)
  {
    hide Initial;
    assert Enabled(cfg, e, Restarts(world)) ==> inv(Does(cfg, e, Restarts(world)));
  }

  /** What every elementary step within a run keeps, every call but a reset keeps. */
  lemma CallStable(cfg: Config, inv: Engine -> bool, e: Engine, op: Op)
    requires PlayStable(cfg, inv) && inv(e) && !op.Reset?
    ensures inv(Apply(cfg, e, op).engine)
  {
    hide PlayStable, MakeAll, DoDeliver, DoAdvanceCut, DoSkip, DoResolve, Advance, Selected, Sort;
    match op {
      case Prepare =>
        var which := (i: Item) => i.trigger.PreExercise?;
        SelectedAre(cfg.items, which);
        SortKeepsMembers(Selected(cfg.items, which));
        MakeAllStable(cfg, inv, e, Sort(Selected(cfg.items, which)));
      case Start =>
        if e.state == Ready {
          var started := e.(state := Running, log := e.log + [RunStarted(e.elapsed)]);
          StartStable(cfg, inv, e);
          AdvanceStable(cfg, inv, started, 0);
        }
      case AdvanceTo(seconds) => AdvanceStable(cfg, inv, e, seconds);
      case AdvanceCut(seconds, visits) => AdvanceCutStable(cfg, inv, e, seconds, visits);
      case Deliver(id) => DeliverStable(cfg, inv, e, id);
      case Skip(id, reason) => SkipStable(cfg, inv, e, id, reason);
      case Resolve(id, branch, reason) => ResolveStable(cfg, inv, e, id, branch, reason);
      case Decide(_, _) => DecisionStable(cfg, inv, e, op);
      case CancelChallenge => DecisionStable(cfg, inv, e, op);
      case _ => SimpleStable(cfg, inv, e, op);
    }
  }

  lemma StartStable(cfg: Config, inv: Engine -> bool, e: Engine)
    requires PlayStable(cfg, inv) && inv(e) && e.state == Ready
    ensures inv(e.(state := Running, log := e.log + [RunStarted(e.elapsed)]))
  {
    assert Enabled(cfg, e, Starts);
    assert inv(Does(cfg, e, Starts));
  }

  lemma {:induction false} RunStable(cfg: Config, inv: Engine -> bool, e: Engine, ops: seq<Op>)
    requires Stable(cfg, inv) && inv(e)
    ensures inv(Run(cfg, e, ops))
  {
    hide Stable, Apply;
    if ops != [] {
      RunStable(cfg, inv, e, ops[..|ops| - 1]);
      StepStable(cfg, inv, Run(cfg, e, ops[..|ops| - 1]), ops[|ops| - 1]);
    }
  }
}
