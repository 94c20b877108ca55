// The evidence log is a complete account: folding it rebuilds the controller, for every sequence of calls.

module EventSourcing {
  import opened Prelude
  import opened ExerciseEngine
  import opened EngineFrames
  import opened Controller
  import opened EngineInduction
  import Text

  datatype View = View(state: RunState, items: map<string, Runtime>, results: map<string, Branch>)

  function FreshView(cfg: Config): View
  {
    View(Ready, FreshItems(cfg), map[])
  }

  function Seen(v: View, id: string): Runtime
  {
    if id in v.items then v.items[id] else Runtime(Pending, None)
  }

  predicate IsEnd(cfg: Config, id: string)
  {
    Find(cfg.items, id).Some? && Find(cfg.items, id).value.kind.End?
  }

  /** What a reader of the log learns from one event. */
  function Absorb(cfg: Config, v: View, event: Event): View
  {
    match event
    case RunStarted(_) => v.(state := Running)
    case RunPaused(_) => v.(state := Paused)
    case RunResumed(_) => v.(state := Running)
    case RunStopped(_) => v.(state := Stopped)
    case RunReset => FreshView(cfg)
    case ItemOffered(id, _) => v.(items := v.items[id := Seen(v, id).(status := Offered)])
    case ItemDelivered(id, at) =>
      v.(items := v.items[id := Runtime(Delivered, Some(at))], state := if IsEnd(cfg, id) then Completed else v.state)
    case ItemSkipped(id, _) => v.(items := v.items[id := Seen(v, id).(status := Skipped)])
    case ItemFailed(id, _) => v.(items := v.items[id := Seen(v, id).(status := Failed)])
    case CheckpointResolved(id, branch, _, at) =>
      v.(items := v.items[id := Runtime(Delivered, Some(at))], results := v.results[id := branch])
    case RecoveryReviewed(_, _) => v
    case MfaRecorded(_, _) => v
  }

  function Replay(cfg: Config, log: seq<Event>): View
  {
    if log == [] then FreshView(cfg) else Absorb(cfg, Replay(cfg, log[..|log| - 1]), log[|log| - 1])
  }

  lemma ReplayAppend(cfg: Config, log: seq<Event>, event: Event)
    ensures Replay(cfg, log + [event]) == Absorb(cfg, Replay(cfg, log), event)
  {
    assert (log + [event])[..|log|] == log;
  }

  /** The view has the engine's state, results and item statuses and, if `timed`, its delivery times. */
  ghost predicate ViewOf(v: View, e: Engine, timed: bool)
  {
    && v.state == e.state && v.results == e.results && v.items.Keys == e.items.Keys
    && forall id :: id in e.items ==>
         v.items[id].status == e.items[id].status && (timed ==> v.items[id] == e.items[id])
  }

  ghost predicate Told(cfg: Config, e: Engine, timed: bool)
  {
    ViewOf(Replay(cfg, e.log), e, timed) && forall i :: i in cfg.items ==> i.id in e.items
  }

  /** Handlers whose result data does not carry another time than the controller's. */
  ghost predicate Honest(cfg: Config)
  {
    forall name, item, e :: name in cfg.handlers ==> HonestVerdict(cfg.handlers[name](item, e).verdict, e)
  }

  predicate HonestVerdict(verdict: Verdict, e: Engine)
  {
    verdict.Success? ==> verdict.stamp.GetOr(e.elapsed) == e.elapsed
  }

  // ---------------------------------------------------------------- elementary steps

  /** Events that say nothing about items, results or state change nothing in the view. */
  lemma MfaIsAside(cfg: Config, e: Engine)
    ensures Replay(cfg, MfaAdvance(cfg, e).log) == Replay(cfg, e.log)
    ensures MfaOk(e.mfa) && e.mfa.open ==> forall outcome, reason, at ::
              Replay(cfg, Close(e, outcome, reason, at).log) == Replay(cfg, e.log)
  {
    hide BlockedReason;
    forall event: Event | event.MfaRecorded? ensures Replay(cfg, e.log + [event]) == Replay(cfg, e.log) {
      ReplayAppend(cfg, e.log, event);
    }
  }

  lemma MfaDeliverIsAside(cfg: Config, e: Engine, item: Item)
    ensures Replay(cfg, MfaDeliver(cfg, e, item).0.log) == Replay(cfg, e.log)
  {
    hide BlockedReason, MfaAdvance, Replay;
    MfaIsAside(cfg, e);
    forall event: Event | event.MfaRecorded?
      ensures Replay(cfg, MfaAdvance(cfg, e).log + [event]) == Replay(cfg, MfaAdvance(cfg, e).log) {
      ReplayAppend(cfg, MfaAdvance(cfg, e).log, event);
    }
  }

  /** A delivery is told with its time exactly if the event's time is the controller's. */
  lemma CompletesIsTold(cfg: Config, e: Engine, item: Item, stamp: Option<int>, timed: bool)
    requires Told(cfg, e, timed) && UniqueIds(cfg.items) && item in cfg.items
    ensures Told(cfg, Completes(e, item, stamp), timed) <==> (timed ==> stamp.GetOr(e.elapsed) == e.elapsed)
  {
    hide Replay, Find;
    var a := Completes(e, item, stamp);
    ReplayAppend(cfg, e.log, ItemDelivered(item.id, stamp.GetOr(e.elapsed)));
    FindFinds(cfg.items, item.id);
    if Find(cfg.items, item.id).Some? {
      SameItem(cfg.items, Find(cfg.items, item.id).value, item);
    }
    if timed && stamp.GetOr(e.elapsed) != e.elapsed {
      assert item.id in a.items;
    }
  }

  lemma FailIsTold(cfg: Config, e: Engine, item: Item, stamp: Option<int>, timed: bool)
    requires Told(cfg, e, timed) && item in cfg.items
    ensures Told(cfg, Fail(e, item, stamp), timed)
  {
    hide Replay, Find;
    ReplayAppend(cfg, e.log, ItemFailed(item.id, stamp.GetOr(e.elapsed)));
  }

  lemma RanIsTold(cfg: Config, e: Engine, effect: Effect, timed: bool)
    requires Told(cfg, e, timed)
    ensures Told(cfg, Ran(e, effect), timed) && Ran(e, effect).elapsed == e.elapsed
  {
    hide Replay, Find;
    var reviewed := Reviewed(e, effect);
    if effect.review.Some? {
      ReplayAppend(cfg, e.log, RecoveryReviewed(effect.review.value, e.elapsed));
    }
    ReplayAppend(cfg, reviewed.log, RunStopped(e.elapsed));
  }

  lemma DeliverIsTold(cfg: Config, e: Engine, item: Item, timed: bool)
    requires Told(cfg, e, timed) && UniqueIds(cfg.items) && item in cfg.items && (timed ==> Honest(cfg))
    ensures Told(cfg, ExerciseEngine.Deliver(cfg, e, item), timed)
  {
    hide Replay, Find, MfaDeliver, Completes, Fail, Ran;
    if item.action.None? {
      CompletesIsTold(cfg, e, item, None, timed);
    } else if item.action.value == MFA_ACTION {
      var after := MfaDeliver(cfg, e, item).0;
      MfaDeliverIsAside(cfg, e, item);
      MfaDeliverFrame(cfg, e, item);
      CompletesIsTold(cfg, after, item, None, timed);
      FailIsTold(cfg, after, item, None, timed);
    } else if item.action.value !in cfg.handlers {
      FailIsTold(cfg, e, item, None, timed);
    } else {
      var effect := cfg.handlers[item.action.value](item, e);
      RanIsTold(cfg, e, effect, timed);
      assert timed ==> HonestVerdict(effect.verdict, e);
      var stamp := if effect.verdict.Success? || effect.verdict.Failure? then effect.verdict.stamp else None;
      CompletesIsTold(cfg, Ran(e, effect), item, stamp, timed);
      FailIsTold(cfg, Ran(e, effect), item, stamp, timed);
    }
  }

  lemma ElementaryIsTold(cfg: Config, e: Engine, m: Elementary, timed: bool)
    requires Told(cfg, e, timed) && UniqueIds(cfg.items) && (timed ==> Honest(cfg)) && Enabled(cfg, e, m)
    ensures Told(cfg, Does(cfg, e, m), timed)
  {
    hide Replay, MfaAdvance, ExerciseEngine.Deliver, Close, BlockedReason, Honest;
    var a := Does(cfg, e, m);
    if m.Delivers? {
      DeliverIsTold(cfg, e, m.item, timed);
    } else if m.Observes? {
      MfaIsAside(cfg, e);
      MfaAdvanceFrame(cfg, e);
    } else if m.Decides? {
      CloseIsTold(cfg, e, m.outcome, m.why, timed);
    } else if m.ClockReads? || m.Intervenes? {
      assert a.log == e.log;
    } else if m.Restarts? {
      ReplayAppend(cfg, e.log, RunReset);
    } else if m.Offers? || m.Skips? || m.Resolves? {
      ItemEventIsTold(cfg, e, m, timed);
    } else {
      StateEventIsTold(cfg, e, m, timed);
    }
  }

  lemma CloseIsTold(cfg: Config, e: Engine, outcome: Outcome, reason: Reason, timed: bool)
    requires Told(cfg, e, timed) && MfaOk(e.mfa) && e.mfa.open
    ensures Told(cfg, Close(e, outcome, reason, e.elapsed), timed)
  {
    hide Replay;
    MfaIsAside(cfg, e);
  }

  lemma ItemEventIsTold(cfg: Config, e: Engine, m: Elementary, timed: bool)
    requires Told(cfg, e, timed) && Enabled(cfg, e, m)
    requires m.Offers? || m.Skips? || m.Resolves?
    ensures Told(cfg, Does(cfg, e, m), timed)
  {
    hide Replay, MfaAdvance, ExerciseEngine.Deliver, Close, FreshView, Find;
    if m.Skips? || m.Resolves? {
      FindFinds(cfg.items, m.id);
    }
    ReplayAppend(cfg, e.log, if m.Offers? then ItemOffered(m.item.id, e.elapsed)
                             else if m.Skips? then ItemSkipped(m.id, e.elapsed)
                             else CheckpointResolved(m.id, m.branch, Text.Strip(m.reason), e.elapsed));
  }

  lemma StateEventIsTold(cfg: Config, e: Engine, m: Elementary, timed: bool)
    requires Told(cfg, e, timed) && Enabled(cfg, e, m)
    requires m.Starts? || m.Pauses? || m.Resumes? || m.Stops?
    ensures Told(cfg, Does(cfg, e, m), timed)
  {
    hide Replay, MfaAdvance, ExerciseEngine.Deliver, Close, FreshView, Find;
    ReplayAppend(cfg, e.log, if m.Starts? then RunStarted(e.elapsed) else if m.Pauses? then RunPaused(e.elapsed)
                             else if m.Resumes? then RunResumed(e.elapsed) else RunStopped(e.elapsed));
  }

  // ---------------------------------------------------------------- every run

  lemma {:induction false} RunIsTold(cfg: Config, world: World, ops: seq<Op>, timed: bool)
    requires UniqueIds(cfg.items) && (timed ==> Honest(cfg))
    ensures Told(cfg, Run(cfg, Initial(cfg, world), ops), timed)
  {
    hide Replay, Honest, Does, Enabled, Run;
    var inv := (e: Engine) => Told(cfg, e, timed);
    forall e, m | inv(e) && Enabled(cfg, e, m) ensures inv(Does(cfg, e, m)) {
      ElementaryIsTold(cfg, e, m, timed);
    }
    assert Told(cfg, Initial(cfg, world), timed) by {
      FreshIsTold(cfg, world, timed);
    }
    RunStable(cfg, inv, Initial(cfg, world), ops);
  }

  lemma FreshIsTold(cfg: Config, world: World, timed: bool)
    ensures Told(cfg, Initial(cfg, world), timed)
  {
  }

  /** Whatever the handlers return and however often the run was reset, replaying the evidence rebuilds
      the run state, every checkpoint result and every item status. */
  lemma {:induction false} ReplayRebuilds(cfg: Config, world: World, ops: seq<Op>)
    requires UniqueIds(cfg.items)
    ensures var e := Run(cfg, Initial(cfg, world), ops);
            var v := Replay(cfg, e.log);
            && v.state == e.state && v.results == e.results && v.items.Keys == e.items.Keys
            && forall id :: id in e.items ==> v.items[id].status == e.items[id].status
  {
    hide Replay, Run;
    RunIsTold(cfg, world, ops, false);
  }

  /** With honest handlers it also rebuilds every delivery time: the view is the whole item table. */
  lemma {:induction false} ReplayRebuildsTimes(cfg: Config, world: World, ops: seq<Op>)
    requires UniqueIds(cfg.items) && Honest(cfg)
    ensures var e := Run(cfg, Initial(cfg, world), ops);
            Replay(cfg, e.log) == View(e.state, e.items, e.results)
  {
    hide Replay, Run, Honest;
    RunIsTold(cfg, world, ops, true);
  }

  /** One delivery by a handler keeps the delivery times told exactly if the handler's data brings no
      time of its own, or the controller's. */
  lemma TimeIsToldIff(cfg: Config, e: Engine, item: Item)
    requires Told(cfg, e, true) && UniqueIds(cfg.items) && item in cfg.items
    requires item.action.Some? && item.action.value != MFA_ACTION && item.action.value in cfg.handlers
    ensures Told(cfg, ExerciseEngine.Deliver(cfg, e, item), true)
            <==> HonestVerdict(cfg.handlers[item.action.value](item, e).verdict, e)
  {
    hide Replay, Find, Completes, Fail, Ran;
    var effect := cfg.handlers[item.action.value](item, e);
    RanIsTold(cfg, e, effect, true);
    if effect.verdict.Success? {
      CompletesIsTold(cfg, Ran(e, effect), item, effect.verdict.stamp, true);
    } else {
      FailIsTold(cfg, Ran(e, effect), item, if effect.verdict.Failure? then effect.verdict.stamp else None, true);
    }
  }

  /** Such a handler: its data claims second 7, and the log says so for a delivery made at second 0. */
  lemma StampMisleads(world: World)
    ensures var item := Item("INJ", Inject, false, Elapsed(5, 0), Some("note"));
            var claim: Handler := (i: Item, now: Engine) => Effect(now.world, None, false, Success(Some(7)));
            var cfg := Config([item], map["note" := claim], 60, 0);
            var e := Run(cfg, Initial(cfg, world), [Op.Deliver("INJ")]);
            && RuntimeOf(e, "INJ") == Runtime(Delivered, Some(0))
            && Seen(Replay(cfg, e.log), "INJ") == Runtime(Delivered, Some(7))
  {
    hide Replay;
    var item := Item("INJ", Inject, false, Elapsed(5, 0), Some("note"));
    var claim: Handler := (i: Item, now: Engine) => Effect(now.world, None, false, Success(Some(7)));
    var cfg := Config([item], map["note" := claim], 60, 0);
    var start := Initial(cfg, world);
    var ops := [Op.Deliver("INJ")];
    assert ops[..0] == [];
    assert item in cfg.items && RuntimeOf(start, "INJ") == Runtime(Pending, None);
    assert MFA_ACTION[0] == 'i';
    assert Run(cfg, start, ops) == DoDeliver(cfg, start, "INJ").engine;
    ReplayAppend(cfg, [], ItemDelivered("INJ", 7));
  }
}
