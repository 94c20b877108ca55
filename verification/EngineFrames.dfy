// What one delivery, one visit and one whole batch leave alone, whatever the handlers do.

module EngineFrames {
  import opened Prelude
  import opened ExerciseEngine

  /** Handlers read state and exercise time, and leave the conditions that block a challenge alone. */
  ghost predicate Inert(cfg: Config)
  {
    forall name, item, e :: name in cfg.handlers ==>
      BlockedReason(cfg, cfg.handlers[name](item, e).world) == BlockedReason(cfg, e.world)
  }

  /** No handler calls the fail-safe stop. */
  ghost predicate NeverStops(cfg: Config)
  {
    forall name, item, e :: name in cfg.handlers ==> !cfg.handlers[name](item, e).stops
  }

  /** `a` is `e` after something happened to one item: the others, the clock, the checkpoint results and
      (for inert handlers) the block conditions are as before, evidence was only added, and play can
      only have ended. */
  ghost predicate OnlyTouches(cfg: Config, e: Engine, a: Engine, id: string)
  {
    && (forall other :: other != id ==> RuntimeOf(a, other) == RuntimeOf(e, other))
    && a.items.Keys <= e.items.Keys + {id} && e.items.Keys <= a.items.Keys
    && a.elapsed == e.elapsed && a.results == e.results
    && (Inert(cfg) ==> BlockedReason(cfg, a.world) == BlockedReason(cfg, e.world))
    && e.log <= a.log
    && (MfaOk(e.mfa) ==> MfaOk(a.mfa))
    && (a.state == e.state || a.state in {Stopped, Completed})
  }

  lemma CloseFrame(e: Engine, outcome: Outcome, reason: Reason, at: int)
    requires MfaOk(e.mfa) && e.mfa.open
    ensures var a := Close(e, outcome, reason, at);
            && a.items == e.items && a.elapsed == e.elapsed && a.state == e.state && a.results == e.results
            && e.log <= a.log && MfaOk(a.mfa)
  {
  }

  lemma MfaAdvanceFrame(cfg: Config, e: Engine)
    ensures var a := MfaAdvance(cfg, e);
            && a.items == e.items && a.elapsed == e.elapsed && a.state == e.state && a.results == e.results
            && BlockedReason(cfg, a.world) == BlockedReason(cfg, e.world)
            && e.log <= a.log
            && (MfaOk(e.mfa) ==> MfaOk(a.mfa))
  {
  }

  lemma MfaDeliverFrame(cfg: Config, e: Engine, item: Item)
    ensures var a := MfaDeliver(cfg, e, item).0;
            && a.items == e.items && a.elapsed == e.elapsed && a.state == e.state && a.results == e.results
            && BlockedReason(cfg, a.world) == BlockedReason(cfg, e.world)
            && e.log <= a.log
            && (MfaOk(e.mfa) ==> MfaOk(a.mfa))
  {
    MfaAdvanceFrame(cfg, e);
  }

  lemma RanFrame(cfg: Config, e: Engine, item: Item, name: string)
    requires name in cfg.handlers
    ensures var a := Ran(e, cfg.handlers[name](item, e));
            && a.items == e.items && a.elapsed == e.elapsed && a.results == e.results && a.mfa == e.mfa
            && (Inert(cfg) ==> BlockedReason(cfg, a.world) == BlockedReason(cfg, e.world))
            && e.log <= a.log
            && (a.state == e.state || a.state == Stopped)
  {
    hide BlockedReason;
  }

  /** Completing or failing an item changes that item, adds one event, and may end play. */
  lemma SettleFrame(cfg: Config, e: Engine, item: Item, stamp: Option<int>)
    ensures OnlyTouches(cfg, e, Completes(e, item, stamp), item.id)
    ensures OnlyTouches(cfg, e, Fail(e, item, stamp), item.id)
    ensures RuntimeOf(Completes(e, item, stamp), item.id).status == Delivered
    ensures RuntimeOf(Fail(e, item, stamp), item.id).status == Failed
  {
    hide MfaOk, BlockedReason, Inert;
  }

  lemma DeliverFrame(cfg: Config, e: Engine, item: Item)
    ensures var a := Deliver(cfg, e, item);
            OnlyTouches(cfg, e, a, item.id) && RuntimeOf(a, item.id).status in {Delivered, Failed}
  {
    hide MfaDeliver, MfaOk, BlockedReason, Inert, Completes, Fail, Ran;
    if item.action.None? {
      SettleFrame(cfg, e, item, None);
    } else if item.action.value == MFA_ACTION {
      MfaDeliverFrame(cfg, e, item);
      SettleFrame(cfg, MfaDeliver(cfg, e, item).0, item, None);
    } else if item.action.value !in cfg.handlers {
      SettleFrame(cfg, e, item, None);
    } else {
      var effect := cfg.handlers[item.action.value](item, e);
      RanFrame(cfg, e, item, item.action.value);
      var stamp := if effect.verdict.Success? || effect.verdict.Failure? then effect.verdict.stamp else None;
      SettleFrame(cfg, Ran(e, effect), item, stamp);
    }
  }

  /** What makes a delivery succeed: there is no action, or its challenge is processed, or its reviewed
      handler returns a successful result. */
  predicate Succeeds(cfg: Config, e: Engine, item: Item)
  {
    if item.action.None? then true
    else if item.action.value == MFA_ACTION then MfaDeliver(cfg, e, item).1
    else item.action.value in cfg.handlers && cfg.handlers[item.action.value](item, e).verdict.Success?
  }

  /** The item's reviewed handler calls the fail-safe stop. */
  predicate StopsRun(cfg: Config, e: Engine, item: Item)
  {
    && item.action.Some? && item.action.value != MFA_ACTION && item.action.value in cfg.handlers
    && cfg.handlers[item.action.value](item, e).stops
  }

  /** An item is delivered exactly if its delivery succeeds; everything else fails it. An end marker ends
      play only when it is delivered, and otherwise only a stop from inside a handler changes the state. */
  lemma DeliveredIff(cfg: Config, e: Engine, item: Item)
    ensures RuntimeOf(Deliver(cfg, e, item), item.id)
            == if Succeeds(cfg, e, item) then Runtime(Delivered, Some(e.elapsed))
               else RuntimeOf(e, item.id).(status := Failed)
    ensures Deliver(cfg, e, item).state
            == if Succeeds(cfg, e, item) && item.kind.End? then Completed
               else if StopsRun(cfg, e, item) && Live(e.state) then Stopped
               else e.state
  {
    hide BlockedReason, MfaDeliver;
    MfaDeliverFrame(cfg, e, item);
  }

  lemma MakeDueFrame(cfg: Config, e: Engine, item: Item)
    ensures var a := MakeDue(cfg, e, item);
            && OnlyTouches(cfg, e, a, item.id) && RuntimeOf(a, item.id).status != Pending
            && (RuntimeOf(e, item.id).status != Pending ==> a == e)
  {
    hide Deliver, MfaOk, Inert, BlockedReason;
    DeliverFrame(cfg, e, item);
  }

  /** Visiting an item touches no other item, takes it out of the pending ones, and only adds evidence. */
  lemma VisitFrame(cfg: Config, e: Engine, item: Item)
    ensures var a := Visit(cfg, e, item);
            && OnlyTouches(cfg, e.(elapsed := Seconds(item)), a, item.id)
            && RuntimeOf(a, item.id).status != Pending
            && (RuntimeOf(e, item.id).status != Pending ==> RuntimeOf(a, item.id) == RuntimeOf(e, item.id))
  {
    hide MakeDue, MfaAdvance, MfaOk, Inert, BlockedReason;
    var now := e.(elapsed := Seconds(item));
    MfaAdvanceFrame(cfg, now);
    MakeDueFrame(cfg, MfaAdvance(cfg, now), item);
  }

  /** A batch touches no item that is not in it, and settles each that is. */
  lemma {:induction false} ProcessTouches(cfg: Config, e: Engine, due: seq<Item>)
    ensures var a := Process(cfg, e, due);
            && (forall id :: (forall i :: i in due ==> i.id != id) ==> RuntimeOf(a, id) == RuntimeOf(e, id))
            && (forall i :: i in due ==> RuntimeOf(a, i.id).status != Pending)
  {
    hide Visit, MfaOk, BlockedReason, Inert;
    if due != [] {
      var init, last := due[..|due| - 1], due[|due| - 1];
      ProcessTouches(cfg, e, init);
      VisitFrame(cfg, Process(cfg, e, init), last);
      assert due == init + [last];
    }
  }

  lemma {:induction false} ProcessFrame(cfg: Config, e: Engine, due: seq<Item>)
    ensures var a := Process(cfg, e, due);
            && (forall id :: (forall i :: i in due ==> i.id != id) ==> RuntimeOf(a, id) == RuntimeOf(e, id))
            && (forall i :: i in due ==> RuntimeOf(a, i.id).status != Pending)
            && a.results == e.results
            && (Inert(cfg) ==> BlockedReason(cfg, a.world) == BlockedReason(cfg, e.world))
            && e.log <= a.log
            && (MfaOk(e.mfa) ==> MfaOk(a.mfa))
            && a.elapsed == (if due == [] then e.elapsed else Seconds(due[|due| - 1]))
            && (a.state == e.state || a.state in {Stopped, Completed})
  {
    hide Visit, MfaOk, BlockedReason, Inert;
    ProcessTouches(cfg, e, due);
    if due != [] {
      ProcessFrame(cfg, e, due[..|due| - 1]);
      VisitFrame(cfg, Process(cfg, e, due[..|due| - 1]), due[|due| - 1]);
    }
  }

  /** A batch never changes an item that was already out of the pending ones, and adds no entry. */
  lemma {:induction false} ProcessSettles(cfg: Config, e: Engine, due: seq<Item>)
    requires forall i :: i in due ==> i.id in e.items
    ensures var a := Process(cfg, e, due);
            && (forall id :: RuntimeOf(e, id).status != Pending ==> RuntimeOf(a, id) == RuntimeOf(e, id))
            && a.items.Keys == e.items.Keys
  {
    hide Visit, MfaOk, BlockedReason, Inert;
    if due != [] {
      var init, last := due[..|due| - 1], due[|due| - 1];
      ProcessSettles(cfg, e, init);
      VisitFrame(cfg, Process(cfg, e, init), last);
    }
  }
}
