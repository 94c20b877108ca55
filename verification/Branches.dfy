// Checkpoint branching: one side runs, the other is skipped, and guarded handlers make both sides
// impossible for every sequence of calls.

module Branches {
  import opened Prelude
  import opened ExerciseEngine
  import opened EngineFrames
  import opened Controller
  import opened EngineInduction
  import Text

  // ---------------------------------------------------------------- one resolution

  /** What the loop over `branches` must have done to each of them when it returns normally with the run
      not stopped. */
  ghost predicate Settled(e: Engine, branches: seq<Item>, result: Branch)
  {
    forall b :: b in branches ==>
      if Chosen(b, result) then RuntimeOf(e, b.id).status != Pending
      else RuntimeOf(e, b.id).status == Skipped
  }

  ghost predicate Elsewhere(e: Engine, a: Engine, branches: seq<Item>)
  {
    forall id :: (forall b :: b in branches ==> b.id != id) ==> RuntimeOf(a, id) == RuntimeOf(e, id)
  }

  lemma {:induction false} RunBranchesSettles(cfg: Config, e: Engine, branches: seq<Item>, result: Branch)
    ensures var s := RunBranches(cfg, e, branches, result);
            && Elsewhere(e, s.engine, branches)
            && (forall id :: Evolves(RuntimeOf(e, id), RuntimeOf(s.engine, id)))
            && s.engine.results == e.results
            && (s.ok && s.engine.state != Stopped ==> Settled(s.engine, branches, result))
    decreases |branches|
  {
    hide MakeDue, DoSkip, Inert;
    if branches != [] && e.state != Stopped {
      var b, rest := branches[0], branches[1..];
      assert forall x :: x in branches <==> x == b || x in rest;
      if Chosen(b, result) {
        var now := MakeDue(cfg, e, b);
        MakeDueFrame(cfg, e, b);
        MakeDueEvolves(cfg, e, b);
        RunBranchesSettles(cfg, now, rest, result);
      } else {
        var skipped := DoSkip(cfg, e, b.id, "opposite branch selected");
        SkipTouches(cfg, e, b.id, "opposite branch selected");
        if skipped.ok {
          RunBranchesSettles(cfg, skipped.engine, rest, result);
        }
      }
    }
  }

  lemma MakeDueEvolves(cfg: Config, e: Engine, item: Item)
    ensures forall id :: Evolves(RuntimeOf(e, id), RuntimeOf(MakeDue(cfg, e, item), id))
  {
    hide MakeDue, Inert;
    MakeDueFrame(cfg, e, item);
  }

  lemma SkipTouches(cfg: Config, e: Engine, id: string, reason: string)
    ensures var s := DoSkip(cfg, e, id, reason);
            && (s.ok ==> RuntimeOf(s.engine, id).status == Skipped)
            && (!s.ok ==> s.engine == e)
            && s.engine.results == e.results && s.engine.state == e.state
            && (forall other :: other != id ==> RuntimeOf(s.engine, other) == RuntimeOf(e, other))
            && (forall other :: Evolves(RuntimeOf(e, other), RuntimeOf(s.engine, other)))
  {
  }

  /** Branch exclusivity: when a checkpoint was resolved without an exception and no handler stopped the
      run, every item of the opposite branch is skipped, every item of the matching one has been made
      due, the result is recorded, and no other item but the checkpoint has changed. */
  lemma ResolveRunsOneBranch(cfg: Config, e: Engine, id: string, branch: Branch, reason: string)
    requires Good(cfg, e) && UniqueIds(cfg.items) && CanResolve(cfg, e, id, reason)
    requires DoResolve(cfg, e, id, branch, reason).ok
    ensures var a := DoResolve(cfg, e, id, branch, reason).engine;
            && id in a.results && a.results[id] == branch
            && RuntimeOf(a, id) == Runtime(Delivered, Some(e.elapsed))
            && (forall b :: b in cfg.items && OfBranch(b, id, branch) && a.state != Stopped ==>
                  RuntimeOf(a, b.id).status != Pending)
            && (forall b :: b in cfg.items && OfBranch(b, id, Opposite(branch)) && a.state != Stopped ==>
                  RuntimeOf(a, b.id).status == Skipped)
            && (forall other :: other != id && (forall b :: b in BranchItems(cfg, id) ==> b.id != other) ==>
                  RuntimeOf(a, other) == RuntimeOf(e, other))
  {
    hide RunBranches, BranchItems, Good;
    BranchItemsAre(cfg, id);
    RunBranchesSettles(cfg, Resolved(e, id, branch, reason), BranchItems(cfg, id), branch);
    var a := DoResolve(cfg, e, id, branch, reason).engine;
    assert Evolves(Runtime(Delivered, Some(e.elapsed)), RuntimeOf(a, id));
    forall b | b in cfg.items && b.trigger.AfterCheckpoint? && b.trigger.checkpoint == id
      ensures b in BranchItems(cfg, id) {
    }
  }

  predicate OfBranch(item: Item, checkpoint: string, branch: Branch)
  {
    item.trigger.AfterCheckpoint? && item.trigger.checkpoint == checkpoint && item.trigger.branch == branch
  }

  function Opposite(branch: Branch): Branch
  {
    if branch == Pass then Miss else Pass
  }

  // ---------------------------------------------------------------- when the loop returns normally

  lemma MakeDueKeepsState(cfg: Config, e: Engine, item: Item)
    requires NeverStops(cfg) && (!item.kind.End? || item.byFacilitator)
    ensures MakeDue(cfg, e, item).state == e.state
  {
    hide Inert;
    MfaDeliverFrame(cfg, e, item);
  }

  /** Without an automatic end marker on the matching side and without handlers that stop the run, the
      loop raises exactly if some opposite item has already been processed. */
  lemma {:induction false} RunBranchesSucceedsIff(cfg: Config, e: Engine, branches: seq<Item>, result: Branch)
    requires NeverStops(cfg) && Live(e.state) && UniqueIds(branches)
    requires forall b :: b in branches ==> b in cfg.items
    requires forall b :: b in branches && Chosen(b, result) ==> !b.kind.End? || b.byFacilitator
    ensures var s := RunBranches(cfg, e, branches, result);
            && s.engine.state == e.state
            && (s.ok <==> forall b :: b in branches && !Chosen(b, result) ==> Unprocessed(RuntimeOf(e, b.id).status))
    decreases |branches|
  {
    hide MakeDue, DoSkip, NeverStops, OnlyTouches, Live;
    if branches != [] {
      var b, rest := branches[0], branches[1..];
      assert forall x :: x in branches <==> x == b || x in rest;
      HeadIsAlone(branches);
      assert e.state != Stopped by { LiveIsNotStopped(e.state); }
      if Chosen(b, result) {
        var now := MakeDue(cfg, e, b);
        MakeDueElsewhere(cfg, e, b);
        MakeDueKeepsState(cfg, e, b);
        RunBranchesSucceedsIff(cfg, now, rest, result);
        assert forall x :: x in rest ==> RuntimeOf(now, x.id) == RuntimeOf(e, x.id);
      } else {
        var skipped := DoSkip(cfg, e, b.id, "opposite branch selected");
        SkipsIff(cfg, e, b);
        SkipTouches(cfg, e, b.id, "opposite branch selected");
        if skipped.ok {
          RunBranchesSucceedsIff(cfg, skipped.engine, rest, result);
          assert forall x :: x in rest ==> RuntimeOf(skipped.engine, x.id) == RuntimeOf(e, x.id);
        }
      }
    }
  }

  lemma LiveIsNotStopped(state: RunState)
    ensures Live(state) ==> state != Stopped
  {
  }

  lemma HeadIsAlone(items: seq<Item>)
    requires UniqueIds(items) && items != []
    ensures forall x :: x in items[1..] ==> x.id != items[0].id
    ensures UniqueIds(items[1..])
  {
    forall x | x in items[1..] ensures x.id != items[0].id {
      var k :| 0 <= k < |items[1..]| && items[1..][k] == x;
      assert items[k + 1] == x;
    }
  }

  lemma MakeDueElsewhere(cfg: Config, e: Engine, item: Item)
    ensures forall id :: id != item.id ==> RuntimeOf(MakeDue(cfg, e, item), id) == RuntimeOf(e, id)
  {
    hide MakeDue, Inert;
    MakeDueFrame(cfg, e, item);
  }

  lemma SkipsIff(cfg: Config, e: Engine, item: Item)
    requires item in cfg.items && Live(e.state)
    ensures DoSkip(cfg, e, item.id, "opposite branch selected").ok <==> Unprocessed(RuntimeOf(e, item.id).status)
  {
    FindFinds(cfg.items, item.id);
    OppositeReason();
  }

  /** A resolution raises half-way exactly if some item of the opposite branch, or the checkpoint itself
      listed among them, cannot be skipped any more. */
  lemma ResolveSucceedsIff(cfg: Config, e: Engine, id: string, branch: Branch, reason: string)
    requires NeverStops(cfg) && UniqueIds(cfg.items) && CanResolve(cfg, e, id, reason)
    requires forall b :: b in cfg.items && OfBranch(b, id, branch) ==> !b.kind.End? || b.byFacilitator
    ensures DoResolve(cfg, e, id, branch, reason).ok
            <==> forall b :: b in cfg.items && OfBranch(b, id, Opposite(branch)) ==>
                   b.id != id && Unprocessed(RuntimeOf(e, b.id).status)
  {
    hide RunBranches, BranchItems, NeverStops, Find, Text.Blank;
    var now := Resolved(e, id, branch, reason);
    BranchItemsAre(cfg, id);
    BranchItemsAreUnique(cfg, id);
    RunBranchesSucceedsIff(cfg, now, BranchItems(cfg, id), branch);
    forall b | b in BranchItems(cfg, id) ensures Chosen(b, branch) <==> OfBranch(b, id, branch) {
    }
    assert forall other :: other != id ==> RuntimeOf(now, other) == RuntimeOf(e, other);
  }

  lemma BranchItemsAreUnique(cfg: Config, checkpoint: string)
    requires UniqueIds(cfg.items)
    ensures UniqueIds(BranchItems(cfg, checkpoint))
  {
    hide Sort, Selected;
    var which := (i: Item) => i.trigger.AfterCheckpoint? && i.trigger.checkpoint == checkpoint;
    var chosen := Selected(cfg.items, which);
    SelectedAreUnique(cfg.items, which);
    SortSorts(chosen);
    PermutedUnique(chosen, Sort(chosen));
  }

  lemma {:induction false} SelectedAreUnique(items: seq<Item>, which: Item -> bool)
    requires UniqueIds(items)
    ensures UniqueIds(Selected(items, which))
  {
    if items != [] {
      HeadIsAlone(items);
      SelectedAreUnique(items[1..], which);
      SelectedAre(items[1..], which);
      var rest := Selected(items[1..], which);
      forall k | 0 <= k < |rest| ensures rest[k].id != items[0].id {
        assert rest[k] in rest;
      }
    }
  }

  lemma PermutedUnique(a: seq<Item>, b: seq<Item>)
    requires UniqueIds(a) && multiset(a) == multiset(b)
    ensures UniqueIds(b)
  {
    forall i, j | 0 <= i < j < |b| ensures b[i].id != b[j].id {
      if b[i].id == b[j].id {
        assert b[i] in multiset(b) && b[j] in multiset(b);
        assert b[i] in a && b[j] in a;
        SameItem(a, b[i], b[j]);
        TwiceIsTwo(b, i, j);
        UniqueIsOne(a, b[i]);
      }
    }
  }

  lemma TwiceIsTwo(s: seq<Item>, i: nat, j: nat)
    requires i < j < |s| && s[i] == s[j]
    ensures multiset(s)[s[i]] >= 2
  {
    assert s == s[..i] + [s[i]] + s[i + 1..j] + [s[j]] + s[j + 1..];
  }

  lemma {:induction false} UniqueIsOne(s: seq<Item>, item: Item)
    requires UniqueIds(s)
    ensures multiset(s)[item] <= 1
  {
    if s != [] {
      HeadIsAlone(s);
      UniqueIsOne(s[1..], item);
      assert s == [s[0]] + s[1..];
      assert s[0] !in s[1..];
    }
  }

  lemma OppositeReason()
    ensures !Text.Blank("opposite branch selected")
  {
    Text.TrimmedIsFixed("opposite branch selected");
  }

  // ---------------------------------------------------------------- guarded branches, over every run

  /** The item's own handler refuses unless the checkpoint was resolved to the item's branch, as those
      of the cloud and impact stages do. */
  ghost predicate Guarded(cfg: Config, item: Item)
  {
    && item.trigger.AfterCheckpoint? && !item.kind.Checkpoint?
    && item.action.Some? && item.action.value != MFA_ACTION && item.action.value in cfg.handlers
    && forall e: Engine :: Matches(e, item) || !cfg.handlers[item.action.value](item, e).verdict.Success?
  }

  predicate Matches(e: Engine, item: Item)
    requires item.trigger.AfterCheckpoint?
  {
    item.trigger.checkpoint in e.results && e.results[item.trigger.checkpoint] == item.trigger.branch
  }

  /** A delivered guarded item is on the side its checkpoint was resolved to. */
  ghost predicate Truthful(cfg: Config, e: Engine)
  {
    && (forall i :: i in cfg.items && Guarded(cfg, i) && RuntimeOf(e, i.id).status == Delivered ==> Matches(e, i))
    && (forall c :: c in e.results ==> RuntimeOf(e, c).status == Delivered)
  }

  /** The result a step demands of a checkpoint before it does anything. */
  datatype Side = Side(checkpoint: string, branch: Branch)

  /** A stage's handler: it compares the recorded result first, and on the wrong side, or before the
      checkpoint is resolved, returns a failure and touches nothing; otherwise the stage goes on. */
  function GuardedBy(demands: Item -> Option<Side>, stage: Handler): Handler
  {
    (item: Item, e: Engine) =>
      var side := demands(item);
      if side.Some? && !(side.value.checkpoint in e.results && e.results[side.value.checkpoint] == side.value.branch)
      then Effect(e.world, None, false, Failure(None))
      else stage(item, e)
  }

  /** What the impact stage demands of its two variants. */
  function ImpactSide(item: Item): Option<Side>
  {
    if !("ACT-08" <= item.id) then None
    else Some(Side("DP4", if item.id == "ACT-08A" then Pass else Miss))
  }

  /** An item of a stage whose handler demands the item's own branch. */
  ghost predicate HasGuard(cfg: Config, item: Item, demands: Item -> Option<Side>, stage: Handler)
  {
    && item.trigger.AfterCheckpoint? && demands(item) == Some(Side(item.trigger.checkpoint, item.trigger.branch))
    && !item.kind.Checkpoint? && item.action.Some? && item.action.value != MFA_ACTION
    && item.action.value in cfg.handlers
    && forall e: Engine :: cfg.handlers[item.action.value](item, e) == GuardedBy(demands, stage)(item, e)
  }

  /** Whatever the stage does behind it, the guard is enough. */
  lemma GuardHolds(cfg: Config, item: Item, demands: Item -> Option<Side>, stage: Handler)
    requires HasGuard(cfg, item, demands, stage)
    ensures Guarded(cfg, item)
  {
    forall e: Engine ensures Matches(e, item) || !cfg.handlers[item.action.value](item, e).verdict.Success? {
      assert cfg.handlers[item.action.value](item, e) == GuardedBy(demands, stage)(item, e);
    }
  }

  lemma GuardedDeliver(cfg: Config, e: Engine, item: Item)
    requires Guarded(cfg, item)
    ensures var a := ExerciseEngine.Deliver(cfg, e, item);
            RuntimeOf(a, item.id).status == Delivered ==> Matches(e, item)
  {
  }

  lemma DeliverIsTruthful(cfg: Config, e: Engine, item: Item)
    requires Truthful(cfg, e) && UniqueIds(cfg.items) && item in cfg.items && Unprocessed(RuntimeOf(e, item.id).status)
    ensures Truthful(cfg, ExerciseEngine.Deliver(cfg, e, item))
  {
    hide ExerciseEngine.Deliver, Inert, Guarded;
    var a := ExerciseEngine.Deliver(cfg, e, item);
    DeliverFrame(cfg, e, item);
    forall i | i in cfg.items && Guarded(cfg, i) && RuntimeOf(a, i.id).status == Delivered
      ensures i.trigger.AfterCheckpoint? && Matches(a, i)
    {
      GuardedHasTrigger(cfg, i);
      if i.id == item.id {
        SameItem(cfg.items, i, item);
        GuardedDeliver(cfg, e, item);
      }
    }
    forall c | c in a.results ensures RuntimeOf(a, c).status == Delivered {
    }
  }

  lemma GuardedHasTrigger(cfg: Config, item: Item)
    requires Guarded(cfg, item)
    ensures item.trigger.AfterCheckpoint? && !item.kind.Checkpoint?
  {
  }

  lemma ResolvedIsTruthful(cfg: Config, e: Engine, id: string, branch: Branch, reason: string)
    requires Truthful(cfg, e) && UniqueIds(cfg.items) && CanResolve(cfg, e, id, reason)
    ensures Truthful(cfg, Resolved(e, id, branch, reason))
  {
    hide Guarded, Find;
    var a := Resolved(e, id, branch, reason);
    FindFinds(cfg.items, id);
    assert id !in e.results;
    forall i | i in cfg.items && Guarded(cfg, i) && RuntimeOf(a, i.id).status == Delivered
      ensures i.trigger.AfterCheckpoint? && Matches(a, i)
    {
      GuardedHasTrigger(cfg, i);
      if i.id == id {
        SameItem(cfg.items, i, Find(cfg.items, id).value);
      }
    }
  }

  lemma ElementaryIsTruthful(cfg: Config, e: Engine, m: Elementary)
    requires Truthful(cfg, e) && UniqueIds(cfg.items) && Enabled(cfg, e, m)
    ensures Truthful(cfg, Does(cfg, e, m))
  {
    hide MfaAdvance, ExerciseEngine.Deliver, Guarded, BlockedReason, Text.Blank, Find;
    if m.Delivers? {
      DeliverIsTruthful(cfg, e, m.item);
    } else if m.Resolves? {
      ResolvedIsTruthful(cfg, e, m.id, m.branch, m.reason);
    } else if m.Restarts? {
    } else {
      MfaAdvanceFrame(cfg, e);
      StaysTruthful(cfg, e, Does(cfg, e, m));
    }
  }

  /** Nothing newly delivered and the same results. */
  lemma StaysTruthful(cfg: Config, e: Engine, a: Engine)
    requires Truthful(cfg, e) && a.results == e.results
    requires forall id :: RuntimeOf(a, id).status == Delivered <==> RuntimeOf(e, id).status == Delivered
    ensures Truthful(cfg, a)
  {
    hide Guarded;
    forall i | i in cfg.items && Guarded(cfg, i) && RuntimeOf(a, i.id).status == Delivered
      ensures i.trigger.AfterCheckpoint? && Matches(a, i) {
      GuardedHasTrigger(cfg, i);
      assert Matches(e, i);
    }
  }

  /** For every sequence of calls, manual deliveries and resets included: a delivered branch item with a
      guarded handler is on the recorded side, so the two sides of a checkpoint are never both delivered. */
  lemma {:induction false} NeverBothSides(cfg: Config, world: World, ops: seq<Op>, a: Item, b: Item)
    requires UniqueIds(cfg.items) && a in cfg.items && b in cfg.items && Guarded(cfg, a) && Guarded(cfg, b)
    requires a.trigger.checkpoint == b.trigger.checkpoint && a.trigger.branch != b.trigger.branch
    ensures var e := Run(cfg, Initial(cfg, world), ops);
            && (RuntimeOf(e, a.id).status == Delivered ==> Matches(e, a))
            && !(RuntimeOf(e, a.id).status == Delivered && RuntimeOf(e, b.id).status == Delivered)
  {
    hide Run, Does, Enabled, Guarded;
    GuardedHasTrigger(cfg, a);
    GuardedHasTrigger(cfg, b);
    var inv := (e: Engine) => Truthful(cfg, e);
    forall e, m | inv(e) && Enabled(cfg, e, m) ensures inv(Does(cfg, e, m)) {
      ElementaryIsTruthful(cfg, e, m);
    }
    RunStable(cfg, inv, Initial(cfg, world), ops);
    assert Truthful(cfg, Run(cfg, Initial(cfg, world), ops));
  }

  /** The realized and the blocked variant of the reviewed impact, delivered by hand or not, in any order
      and over any resets: never both in one run, and neither against the result of DP4. */
  lemma {:induction false} ImpactNeverBothWays(cfg: Config, world: World, ops: seq<Op>, a: Item, b: Item,
        stage: Handler)
    requires UniqueIds(cfg.items) && a in cfg.items && b in cfg.items && a.id == "ACT-08A" && b.id == "ACT-08B"
    requires a.trigger.AfterCheckpoint? && a.trigger.checkpoint == "DP4" && a.trigger.branch == Pass
    requires b.trigger.AfterCheckpoint? && b.trigger.checkpoint == "DP4" && b.trigger.branch == Miss
    requires forall item :: item in {a, b} ==> HasGuard(cfg, item, ImpactSide, stage)
    ensures var e := Run(cfg, Initial(cfg, world), ops);
            && (RuntimeOf(e, a.id).status == Delivered ==> "DP4" in e.results && e.results["DP4"] == Pass)
            && (RuntimeOf(e, b.id).status == Delivered ==> "DP4" in e.results && e.results["DP4"] == Miss)
  {
    hide Run, Guarded, HasGuard;
    assert a in {a, b} && b in {a, b};
    GuardHolds(cfg, a, ImpactSide, stage);
    GuardHolds(cfg, b, ImpactSide, stage);
    NeverBothSides(cfg, world, ops, a, b);
    NeverBothSides(cfg, world, ops, b, a);
  }
}
