// The challenge evidence in the log is the whole history of the scheduled challenges.

module Challenges {
  import opened Prelude
  import opened ExerciseEngine
  import opened EngineFrames
  import opened Controller
  import opened EngineInduction
  import Text

  /** A first record opens an entry, or enters it as blocked; any later record closes the last one. */
  function Absorb(m: Mfa, event: Event): Mfa
  {
    match event
    case MfaRecorded(c, _) =>
      if c.outcome in {Sent, Blocked} then Mfa(m.history + [c], c.outcome == Sent)
      else if m.history == [] then m
      else Mfa(m.history[|m.history| - 1 := c], false)
    case RunReset => Mfa([], false)
    case _ => m
  }

  function Replay(log: seq<Event>): Mfa
  {
    if log == [] then Mfa([], false) else Absorb(Replay(log[..|log| - 1]), log[|log| - 1])
  }

  lemma ReplayAppend(log: seq<Event>, event: Event)
    ensures Replay(log + [event]) == Absorb(Replay(log), event)
  {
    assert (log + [event])[..|log|] == log;
  }

  /** The log tells the history; only the last challenge can be awaiting a decision, and it is the
      pending one. */
  ghost predicate Told(e: Engine)
  {
    && Replay(e.log) == e.mfa && MfaOk(e.mfa)
    && forall k :: 0 <= k < |e.mfa.history| ==>
         (e.mfa.history[k].outcome == Sent <==> e.mfa.open && k == |e.mfa.history| - 1)
  }

  lemma CloseIsTold(e: Engine, outcome: Outcome, reason: Reason, at: int)
    requires Told(e) && e.mfa.open && outcome !in {Sent, Blocked}
    ensures Told(Close(e, outcome, reason, at))
  {
    hide Replay;
    ReplayAppend(e.log, MfaRecorded(Current(e.mfa).(outcome := outcome, reason := reason), at));
  }

  lemma AdvanceIsTold(cfg: Config, e: Engine)
    requires Told(e)
    ensures Told(MfaAdvance(cfg, e))
  {
    hide Replay, Told, Close, BlockedReason;
    if e.mfa.open {
      assert MfaOk(e.mfa) by { assert Told(e); TellsMfa(e); }
      forall reason, at { CloseIsTold(e, Cancelled, reason, at); }
      forall reason, at { CloseIsTold(e, Expired, reason, at); }
    }
  }

  lemma TellsMfa(e: Engine)
    requires Told(e)
    ensures MfaOk(e.mfa)
  {
  }

  lemma MfaDeliverIsTold(cfg: Config, e: Engine, item: Item)
    requires Told(e)
    ensures Told(MfaDeliver(cfg, e, item).0)
  {
    hide Replay, MfaAdvance, BlockedReason;
    AdvanceIsTold(cfg, e);
    var now := MfaAdvance(cfg, e);
    forall event ensures Replay(now.log + [event]) == Absorb(Replay(now.log), event) {
      ReplayAppend(now.log, event);
    }
  }

  /** Other events leave the history alone. */
  lemma AsideIsTold(e: Engine, a: Engine, event: Event)
    requires Told(e) && a.mfa == e.mfa && !event.MfaRecorded? && !event.RunReset?
    requires a.log == e.log || a.log == e.log + [event]
    ensures Told(a)
  {
    hide Replay;
    ReplayAppend(e.log, event);
  }

  lemma RanIsTold(e: Engine, effect: Effect)
    requires Told(e)
    ensures Told(Ran(e, effect))
  {
    hide Told;
    AsideIsTold(e, Reviewed(e, effect), RecoveryReviewed(effect.review.GetOr(false), e.elapsed));
    AsideIsTold(Reviewed(e, effect), Ran(e, effect), RunStopped(e.elapsed));
  }

  lemma DeliverIsTold(cfg: Config, e: Engine, item: Item)
    requires Told(e)
    ensures Told(ExerciseEngine.Deliver(cfg, e, item))
  {
    hide Told, MfaDeliver, Replay;
    var before :=
      if item.action.Some? && item.action.value == MFA_ACTION then MfaDeliver(cfg, e, item).0
      else if item.action.Some? && item.action.value in cfg.handlers
      then Ran(e, cfg.handlers[item.action.value](item, e))
      else e;
    assert Told(before) by {
      MfaDeliverIsTold(cfg, e, item);
      if item.action.Some? && item.action.value != MFA_ACTION && item.action.value in cfg.handlers {
        RanIsTold(e, cfg.handlers[item.action.value](item, e));
      }
    }
    var a := ExerciseEngine.Deliver(cfg, e, item);
    AsideIsTold(before, a, a.log[|before.log|]);
  }

  lemma ElementaryIsTold(cfg: Config, e: Engine, m: Elementary)
    requires Told(e) && Enabled(cfg, e, m)
    ensures Told(Does(cfg, e, m))
  {
    hide Told, ExerciseEngine.Deliver, MfaAdvance, Close, BlockedReason, Text.Blank, Find;
    var a := Does(cfg, e, m);
    if m.Delivers? {
      DeliverIsTold(cfg, e, m.item);
    } else if m.Observes? {
      AdvanceIsTold(cfg, e);
    } else if m.Decides? {
      CloseIsTold(e, m.outcome, m.why, e.elapsed);
    } else if m.Restarts? {
      RestartIsTold(cfg, e, m.world);
    } else {
      AsideIsTold(e, a, if |a.log| > |e.log| then a.log[|e.log|] else RunStarted(0));
    }
  }

  lemma RestartIsTold(cfg: Config, e: Engine, world: World)
    ensures e.state in {Stopped, Completed} ==> Told(DoReset(cfg, e, world).engine)
  {
    ReplayAppend(e.log, RunReset);
  }

  /** For every sequence of calls and resets, the recorded challenge events alone rebuild the history and
      which challenge is pending; no other challenge ever awaits a decision. */
  lemma {:induction false} ChallengesAreTold(cfg: Config, world: World, ops: seq<Op>)
    ensures Told(Run(cfg, Initial(cfg, world), ops))
  {
    hide Does, Enabled, Run, Told;
    var inv := (e: Engine) => Told(e);
    forall e, m | inv(e) && Enabled(cfg, e, m) ensures inv(Does(cfg, e, m)) {
      ElementaryIsTold(cfg, e, m);
    }
    assert Told(Initial(cfg, world)) by {
      InitialIsTold(cfg, world);
    }
    RunStable(cfg, inv, Initial(cfg, world), ops);
  }

  lemma InitialIsTold(cfg: Config, world: World)
    ensures Told(Initial(cfg, world))
  {
  }

  // ---------------------------------------------------------------- a decision is final

  predicate SameChallenge(c: Challenge, d: Challenge)
  {
    && c.item == d.item && c.deliveredAt == d.deliveredAt && c.expiresAt == d.expiresAt
    && (c.outcome != Sent ==> d == c)
  }

  /** Every entry is still there, and one that was closed is as it was. */
  ghost predicate Keeps(m: Mfa, n: Mfa)
  {
    |m.history| <= |n.history| && forall k :: 0 <= k < |m.history| ==> SameChallenge(m.history[k], n.history[k])
  }

  ghost predicate Since(origin: Engine, e: Engine)
  {
    && Told(e) && origin.log <= e.log
    && (RunReset !in e.log[|origin.log|..] ==> Keeps(origin.mfa, e.mfa))
  }

  lemma KeepsTrans(m: Mfa, n: Mfa, o: Mfa)
    requires Keeps(m, n) && Keeps(n, o)
    ensures Keeps(m, o)
  {
    forall k | 0 <= k < |m.history| ensures SameChallenge(m.history[k], o.history[k]) {
      assert SameChallenge(m.history[k], n.history[k]) && SameChallenge(n.history[k], o.history[k]);
    }
  }

  lemma AdvanceKeepsClosed(cfg: Config, e: Engine)
    requires Told(e)
    ensures Keeps(e.mfa, MfaAdvance(cfg, e).mfa)
  {
    hide BlockedReason, Replay;
  }

  lemma DeliverKeepsClosed(cfg: Config, e: Engine, item: Item)
    requires Told(e)
    ensures Keeps(e.mfa, ExerciseEngine.Deliver(cfg, e, item).mfa)
  {
    hide MfaAdvance, BlockedReason, Replay;
    var now, a := MfaAdvance(cfg, e).mfa, ExerciseEngine.Deliver(cfg, e, item).mfa;
    if item.action.Some? && item.action.value == MFA_ACTION && e.state == Running {
      AdvanceKeepsClosed(cfg, e);
      KeepsTrans(e.mfa, now, a);
    } else {
      assert a == e.mfa;
    }
  }

  lemma ElementarySince(cfg: Config, origin: Engine, e: Engine, m: Elementary)
    requires Since(origin, e) && Enabled(cfg, e, m)
    ensures Since(origin, Does(cfg, e, m))
  {
    hide Told, ExerciseEngine.Deliver, MfaAdvance, BlockedReason, Text.Blank, Find, Keeps, Replay, Initial;
    var a := Does(cfg, e, m);
    ElementaryIsTold(cfg, e, m);
    if m.Delivers? {
      DeliverFrame(cfg, e, m.item);
      DeliverKeepsClosed(cfg, e, m.item);
    } else if m.Observes? {
      MfaAdvanceFrame(cfg, e);
      AdvanceKeepsClosed(cfg, e);
    } else if m.Decides? {
      CloseKeepsClosed(cfg, e, m.outcome, m.why);
    } else if m.Restarts? {
      assert a.log == e.log + [RunReset];
      assert a.log[|origin.log|..][|e.log| - |origin.log|] == RunReset;
    } else {
      KeepsSame(e.mfa);
    }
    assert e.log <= a.log;
    assert e.log[|origin.log|..] <= a.log[|origin.log|..];
    if RunReset !in a.log[|origin.log|..] {
      KeepsTrans(origin.mfa, e.mfa, a.mfa);
    }
  }

  lemma CloseKeepsClosed(cfg: Config, e: Engine, outcome: Outcome, reason: Reason)
    requires Told(e) && e.mfa.open
    ensures Keeps(e.mfa, Close(e, outcome, reason, e.elapsed).mfa)
  {
    hide Replay;
  }

  lemma KeepsSame(m: Mfa)
    ensures Keeps(m, m)
  {
  }

  /** A decision is final: from any reachable engine, after any further calls and unless the log shows a
      reset since, every closed challenge is exactly as it was and every other is still the same one. */
  lemma {:induction false} DecisionsAreFinal(cfg: Config, origin: Engine, ops: seq<Op>)
    requires Told(origin)
    ensures Since(origin, Run(cfg, origin, ops))
  {
    hide Does, Enabled, Run, Since, Told;
    var inv := (e: Engine) => Since(origin, e);
    forall e, m | inv(e) && Enabled(cfg, e, m) ensures inv(Does(cfg, e, m)) {
      ElementarySince(cfg, origin, e, m);
    }
    assert Since(origin, origin) by {
      SinceSame(origin);
    }
    RunStable(cfg, inv, origin, ops);
  }

  lemma SinceSame(e: Engine)
    requires Told(e)
    ensures Since(e, e)
  {
  }
}
