// From the controller's decision to the evaluator's screen: what the machine observes of a checkpoint is
// what the controller recorded for it, in every run, and it can always be read.

module ReviewedResults {
  import opened Prelude
  import opened ExerciseEngine
  import opened EngineFrames
  import opened EngineInduction
  import opened ReviewedRuns
  import Controller
  import J = Judgments
  import O = Observations
  import Text

  // ---------------------------------------------------------------- resolutions on the controller's log

  /** The resolutions of a checkpoint since the last reset. */
  function Resolutions(log: seq<Event>, checkpoint: string): seq<Event>
  {
    if log == [] then [] else
    var rest, last := Resolutions(log[..|log| - 1], checkpoint), log[|log| - 1];
    if last.RunReset? then []
    else if last.CheckpointResolved? && last.id == checkpoint then rest + [last] else rest
  }

  /** A checkpoint with a result has exactly one resolution, with that result, and is delivered; one
      without has none. */
  ghost predicate Filed(e: Engine, checkpoint: string)
  {
    var found := Resolutions(e.log, checkpoint);
    if checkpoint in e.results then
      && |found| == 1 && found[0].CheckpointResolved? && found[0].id == checkpoint
      && found[0].branch == e.results[checkpoint] && RuntimeOf(e, checkpoint).status == Delivered
    else found == []
  }

  /** More of the log, with events that resolve nothing and start no run. */
  ghost predicate Quietly(log: seq<Event>, more: seq<Event>)
  {
    log <= more && forall k :: |log| <= k < |more| ==> !more[k].RunReset? && !more[k].CheckpointResolved?
  }

  lemma {:induction false} QuietlyResolves(log: seq<Event>, more: seq<Event>, checkpoint: string)
    requires Quietly(log, more)
    ensures Resolutions(more, checkpoint) == Resolutions(log, checkpoint)
  {
    if |more| > |log| {
      QuietlyResolves(log, more[..|more| - 1], checkpoint);
    } else {
      assert more == log;
    }
  }

  lemma QuietlyTrans(a: seq<Event>, b: seq<Event>, c: seq<Event>)
    requires Quietly(a, b) && Quietly(b, c)
    ensures Quietly(a, c)
  {
  }

  lemma MfaIsQuiet(cfg: Config, e: Engine, item: Item)
    ensures Quietly(e.log, MfaAdvance(cfg, e).log) && Quietly(e.log, MfaDeliver(cfg, e, item).0.log)
  {
    hide BlockedReason;
  }

  lemma DeliverIsQuiet(cfg: Config, e: Engine, item: Item)
    ensures Quietly(e.log, ExerciseEngine.Deliver(cfg, e, item).log)
  {
    hide MfaDeliver, Completes, Fail, Ran, Quietly;
    if item.action.None? {
      SettleIsQuiet(e, e, item, None);
    } else if item.action.value == MFA_ACTION {
      MfaIsQuiet(cfg, e, item);
      SettleIsQuiet(e, MfaDeliver(cfg, e, item).0, item, None);
    } else if item.action.value !in cfg.handlers {
      SettleIsQuiet(e, e, item, None);
    } else {
      var effect := cfg.handlers[item.action.value](item, e);
      RanIsQuiet(e, effect);
      var stamp := if effect.verdict.Success? || effect.verdict.Failure? then effect.verdict.stamp else None;
      SettleIsQuiet(e, Ran(e, effect), item, stamp);
    }
  }

  lemma RanIsQuiet(e: Engine, effect: Effect)
    ensures Quietly(e.log, Ran(e, effect).log)
  {
  }

  lemma SettleIsQuiet(e: Engine, b: Engine, item: Item, stamp: Option<int>)
    requires Quietly(e.log, b.log) || e == b
    ensures Quietly(e.log, Completes(b, item, stamp).log) && Quietly(e.log, Fail(b, item, stamp).log)
  {
  }

  lemma ElementaryFiles(cfg: Config, e: Engine, m: Elementary, checkpoint: string)
    requires Filed(e, checkpoint) && Enabled(cfg, e, m)
    ensures Filed(Does(cfg, e, m), checkpoint)
  {
    hide MfaAdvance, ExerciseEngine.Deliver, BlockedReason, Text.Strip, Text.Blank, Resolutions, Quietly, Inert,
      Controller.Find;
    var a := Does(cfg, e, m);
    if m.Delivers? {
      DeliverIsQuiet(cfg, e, m.item);
      QuietlyResolves(e.log, a.log, checkpoint);
      DeliverFrame(cfg, e, m.item);
    } else if m.Resolves? {
      ResolutionMore(e.log, CheckpointResolved(m.id, m.branch, Text.Strip(m.reason), e.elapsed), checkpoint);
    } else if m.Restarts? {
      ResolutionMore(e.log, RunReset, checkpoint);
    } else if m.Observes? {
      MfaIsQuiet(cfg, e, Item("", End, false, Elapsed(0, 0), None));
      MfaAdvanceFrame(cfg, e);
      QuietlyResolves(e.log, a.log, checkpoint);
    } else {
      OtherIsQuiet(cfg, e, m);
      QuietlyResolves(e.log, a.log, checkpoint);
    }
  }

  lemma ResolutionMore(log: seq<Event>, last: Event, checkpoint: string)
    ensures Resolutions(log + [last], checkpoint)
            == if last.RunReset? then []
               else if last.CheckpointResolved? && last.id == checkpoint then Resolutions(log, checkpoint) + [last]
               else Resolutions(log, checkpoint)
  {
    assert (log + [last])[..|log|] == log;
  }

  lemma OtherIsQuiet(cfg: Config, e: Engine, m: Elementary)
    requires Enabled(cfg, e, m) && !m.Delivers? && !m.Resolves? && !m.Restarts? && !m.Observes?
    ensures var a := Does(cfg, e, m);
            && Quietly(e.log, a.log) && a.results == e.results
            && forall id :: RuntimeOf(e, id).status == Delivered ==> RuntimeOf(a, id).status == Delivered
  {
    hide Text.Strip, Text.Blank, Controller.Find;
  }

  lemma {:induction false} EveryResultIsFiled(cfg: Config, world: World, ops: seq<Controller.Op>, checkpoint: string)
    ensures Filed(Controller.Run(cfg, Initial(cfg, world), ops), checkpoint)
  {
    hide Controller.Run, Does, Enabled, Filed;
    var inv := (e: Engine) => Filed(e, checkpoint);
    forall e, m | inv(e) && Enabled(cfg, e, m) ensures inv(Does(cfg, e, m)) {
      ElementaryFiles(cfg, e, m, checkpoint);
    }
    assert inv(Initial(cfg, world)) by { InitialFiles(cfg, world, checkpoint); }
    RunStable(cfg, inv, Initial(cfg, world), ops);
  }

  lemma InitialFiles(cfg: Config, world: World, checkpoint: string)
    ensures Filed(Initial(cfg, world), checkpoint)
  {
  }

  // ---------------------------------------------------------------- the log and the ledger

  /** More of the log within the same run. */
  ghost predicate SameRun(log: seq<Event>, more: seq<Event>)
  {
    log <= more && forall k :: |log| <= k < |more| ==> !more[k].RunReset?
  }

  lemma ElementaryStays(cfg: Config, log: seq<Event>, e: Engine, m: Elementary)
    requires SameRun(log, e.log) && Enabled(cfg, e, m) && !m.Restarts?
    ensures SameRun(log, Does(cfg, e, m).log)
  {
    hide MfaAdvance, ExerciseEngine.Deliver, BlockedReason, Text.Strip, Text.Blank, Inert, Controller.Find;
    if m.Delivers? {
      DeliverIsQuiet(cfg, e, m.item);
    } else if m.Observes? {
      MfaIsQuiet(cfg, e, Item("", End, false, Elapsed(0, 0), None));
    } else if !m.Resolves? {
      OtherIsQuiet(cfg, e, m);
    }
  }

  /** A call other than a reset only adds to the log of its run. */
  lemma CallStays(cfg: Config, e: Engine, op: Controller.Op)
    requires !op.Reset?
    ensures SameRun(e.log, Controller.Apply(cfg, e, op).engine.log)
  {
    hide Controller.Apply, Does, Enabled, SameRun;
    var inv := (x: Engine) => SameRun(e.log, x.log);
    forall x, m | inv(x) && Enabled(cfg, x, m) && !m.Restarts? ensures inv(Does(cfg, x, m)) {
      ElementaryStays(cfg, e.log, x, m);
    }
    assert inv(e) by { SameRunRefl(e.log); }
    CallStable(cfg, inv, e, op);
  }

  lemma SameRunRefl(log: seq<Event>)
    ensures SameRun(log, log)
  {
  }

  function Kinds(cfg: Config, events: seq<Event>): seq<J.Kind>
  {
    seq(|events|, i requires 0 <= i < |events| => KindOf(cfg, events[i]))
  }

  lemma KindsMore(cfg: Config, events: seq<Event>, e: Event)
    ensures Kinds(cfg, events + [e]) == Kinds(cfg, events) + [KindOf(cfg, e)]
  {
  }

  /** The ledger shows the checkpoint's resolutions as the log has them. */
  ghost predicate Shows(cfg: Config, ledger: seq<J.Event>, log: seq<Event>, checkpoint: string)
  {
    J.Resolutions(J.Readings(ledger), checkpoint) == Kinds(cfg, Resolutions(log, checkpoint))
  }

  lemma ShowsMore(cfg: Config, ledger: seq<J.Event>, log: seq<Event>, id: string, last: Event, checkpoint: string)
    requires Shows(cfg, ledger, log, checkpoint) && !last.RunReset?
    ensures Shows(cfg, ledger + [J.Event(id, KindOf(cfg, last))], log + [last], checkpoint)
  {
    hide J.Readings, Kinds, Resolutions;
    J.ReadingsGrow(ledger, J.Event(id, KindOf(cfg, last)));
    ResolutionMore(log, last, checkpoint);
    KindsMore(cfg, Resolutions(log, checkpoint), last);
    LaterReading(J.Readings(ledger), KindOf(cfg, last), checkpoint);
    assert J.Readings(ledger) + [] == J.Readings(ledger);
  }

  lemma LaterReading(readings: seq<J.Kind>, k: J.Kind, checkpoint: string)
    ensures J.Resolutions(readings + [k], checkpoint)
            == if k.CheckpointResolved? && k.checkpoint == checkpoint then J.Resolutions(readings, checkpoint) + [k]
               else J.Resolutions(readings, checkpoint)
  {
    assert (readings + [k])[..|readings|] == readings;
  }

  lemma {:induction false} EntriesShow(cfg: Config, names: nat -> string, ledger: seq<J.Event>, log: seq<Event>,
        more: seq<Event>, checkpoint: string)
    requires Shows(cfg, ledger, log, checkpoint) && SameRun(log, more)
    ensures Shows(cfg, ledger + Entries(cfg, names, more, |log|), more, checkpoint)
    decreases |more|
  {
    hide Shows;
    if |more| == |log| {
      assert more == log && ledger + [] == ledger;
    } else {
      var init, last := more[..|more| - 1], |more| - 1;
      EntriesShow(cfg, names, ledger, log, init, checkpoint);
      ShowsMore(cfg, ledger + Entries(cfg, names, init, |log|), init, names(last), more[last], checkpoint);
      assert init + [more[last]] == more;
      assert ledger + Entries(cfg, names, init, |log|) + [J.Event(names(last), KindOf(cfg, more[last]))]
             == ledger + Entries(cfg, names, more, |log|);
    }
  }

  /** An event that is no resolution changes nothing that is shown. */
  lemma AsideShows(cfg: Config, ledger: seq<J.Event>, x: J.Event, log: seq<Event>, checkpoint: string)
    requires Shows(cfg, ledger, log, checkpoint) && !J.IsReading(x.kind)
    ensures Shows(cfg, ledger + [x], log, checkpoint)
  {
    J.ReadingsGrow(ledger, x);
  }

  lemma StepShows(cfg: Config, names: nat -> string, s: State, step: Step, checkpoint: string)
    requires Shows(cfg, s.review.events, s.engine.log, checkpoint)
    ensures var a := Next(cfg, names, s, step);
            Shows(cfg, a.review.events, a.engine.log, checkpoint)
  {
    hide Controller.Apply, Shows, J.Readings;
    match step {
      case Call(op) =>
        if op.Reset? {
          ResetShows(cfg, names, s, op, checkpoint);
        } else {
          CallStays(cfg, s.engine, op);
          var more := Controller.Apply(cfg, s.engine, op).engine.log;
          EntriesShow(cfg, names, s.review.events, s.engine.log, more, checkpoint);
        }
      case Append(id) => AsideShows(cfg, s.review.events, J.Event(id, J.Other), s.engine.log, checkpoint);
      case Submit(reference) =>
      case JudgeBy(p, role, id) =>
        if J.Judge(s.review, p, role, id).Ok? {
          var judged := J.Judge(s.review, p, role, id).value;
          AsideShows(cfg, s.review.events, judged.events[|s.review.events|], s.engine.log, checkpoint);
        }
    }
  }

  lemma ResetShows(cfg: Config, names: nat -> string, s: State, op: Controller.Op, checkpoint: string)
    requires Shows(cfg, s.review.events, s.engine.log, checkpoint) && op.Reset?
    ensures var a := Next(cfg, names, s, Call(op));
            Shows(cfg, a.review.events, a.engine.log, checkpoint)
  {
    hide Shows, Initial;
    var log := s.engine.log;
    if Ended(s.engine) {
      ResolutionMore(log, RunReset, checkpoint);
      assert (log + [RunReset])[..|log|] == log;
      assert Entries(cfg, names, log, |log|) == [];
      assert Entries(cfg, names, log + [RunReset], |log|) == [J.Event(names(|log|), J.Other)];
      FreshShows(cfg, names(|log|), log + [RunReset], checkpoint);
      assert [] + [J.Event(names(|log|), J.Other)] == [J.Event(names(|log|), J.Other)];
    } else {
      assert Entries(cfg, names, log, |log|) == [];
      assert s.review.events + [] == s.review.events;
    }
  }

  lemma FreshShows(cfg: Config, id: string, log: seq<Event>, checkpoint: string)
    requires Resolutions(log, checkpoint) == []
    ensures Shows(cfg, [J.Event(id, J.Other)], log, checkpoint)
  {
    assert [J.Event(id, J.Other)][..0] == [];
  }

  // ---------------------------------------------------------------- decisions as they are observed

  /** The calls among the steps. */
  function Calls(steps: seq<Step>): seq<Controller.Op>
  {
    if steps == [] then [] else
    var rest, last := Calls(steps[..|steps| - 1]), steps[|steps| - 1];
    if last.Call? then rest + [last.op] else rest
  }

  lemma {:induction false} RunIsInStep(cfg: Config, names: nat -> string, world: World, steps: seq<Step>,
        checkpoint: string)
    ensures var s := Run(cfg, names, Fresh(cfg, world), steps);
            && s.engine == Controller.Run(cfg, Initial(cfg, world), Calls(steps))
            && Shows(cfg, s.review.events, s.engine.log, checkpoint)
  {
    hide Controller.Apply, Shows;
    if steps == [] {
      assert Shows(cfg, [], [], checkpoint) by { NothingShows(cfg, checkpoint); }
    } else {
      var init, last := steps[..|steps| - 1], steps[|steps| - 1];
      var before := Run(cfg, names, Fresh(cfg, world), init);
      RunIsInStep(cfg, names, world, init, checkpoint);
      StepShows(cfg, names, before, last, checkpoint);
      assert (Calls(init) + [Controller.Prepare])[..|Calls(init)|] == Calls(init);
      if last.Call? {
        assert (Calls(init) + [last.op])[..|Calls(init)|] == Calls(init);
      }
    }
  }

  lemma NothingShows(cfg: Config, checkpoint: string)
    ensures Shows(cfg, [], [], checkpoint)
  {
  }

  /** In every run, with judgments and other components' events in between and over any resets, the machine
      observes containment and recovery as the controller decided them: not at all while the checkpoint is
      open, and after that met if it was passed and not met if it was missed, unless the recorded reason
      says that the verifier's state was missing. No such observation ever fails to be made. */
  lemma {:induction false} DecisionsAreObserved(cfg: Config, names: nat -> string, world: World, steps: seq<Step>,
        objective: string)
    requires objective == "LO3" || objective == "LO4"
    ensures var s := Run(cfg, names, Fresh(cfg, world), steps);
            var checkpoint := if objective == "LO3" then "DP2" else "DP3";
            if checkpoint !in s.engine.results then O.Says(s.review.events, objective, J.NotObserved)
            else exists reason, at ::
              && CheckpointResolved(checkpoint, s.engine.results[checkpoint], reason, at) in s.engine.log
              && O.Says(s.review.events, objective,
                        if MISSING <= reason then J.NotObserved
                        else if s.engine.results[checkpoint] == Pass then J.Met else J.NotMet)
  {
    hide Run, Controller.Run, O.Says, J.Readings, J.Resolutions, Resolutions;
    var s := Run(cfg, names, Fresh(cfg, world), steps);
    var checkpoint := if objective == "LO3" then "DP2" else "DP3";
    RunIsInStep(cfg, names, world, steps, checkpoint);
    EveryResultIsFiled(cfg, world, Calls(steps), checkpoint);
    var found := Resolutions(s.engine.log, checkpoint);
    if checkpoint in s.engine.results {
      ResolutionsAreLogged(s.engine.log, checkpoint);
      var reason := found[0].reason;
      assert found[0] in s.engine.log;
      assert found[0] == CheckpointResolved(checkpoint, s.engine.results[checkpoint], reason, found[0].at);
      O.ObserveIff(s.review.events, objective,
                   if MISSING <= reason then J.NotObserved
                   else if s.engine.results[checkpoint] == Pass then J.Met else J.NotMet);
    } else {
      O.ObserveIff(s.review.events, objective, J.NotObserved);
    }
  }

  lemma {:induction false} ResolutionsAreLogged(log: seq<Event>, checkpoint: string)
    ensures forall x :: x in Resolutions(log, checkpoint) ==> x in log
  {
    if log != [] {
      ResolutionsAreLogged(log[..|log| - 1], checkpoint);
    }
  }
}
