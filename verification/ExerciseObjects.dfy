// ScenarioController and ScheduledMfa as they are: objects updated in place, with the pending challenge
// and the last history entry being one object. Every method is proved against the engine on values.

module ExerciseObjects {
  import opened Prelude
  import opened ExerciseEngine
  import opened Controller
  import Text

  /** One challenge of the history. */
  class ChallengeRecord {
    const item: string
    const deliveredAt: int
    const expiresAt: int
    var outcome: Outcome
    var reason: Reason

    constructor (item: string, deliveredAt: int, expiresAt: int, outcome: Outcome, reason: Reason)
      ensures Value() == Challenge(item, deliveredAt, expiresAt, outcome, reason)
    {
      this.item, this.deliveredAt, this.expiresAt := item, deliveredAt, expiresAt;
      this.outcome, this.reason := outcome, reason;
    }

    function Value(): Challenge
      reads this
    {
      Challenge(item, deliveredAt, expiresAt, outcome, reason)
    }
  }

  function Values(records: seq<ChallengeRecord>): (r: seq<Challenge>)
    reads records
    ensures |r| == |records| && forall k :: 0 <= k < |r| ==> r[k] == records[k].Value()
  {
    if records == [] then [] else Values(records[..|records| - 1]) + [records[|records| - 1].Value()]
  }

  class ScheduledMfa {
    var history: seq<ChallengeRecord>
    var pending: ChallengeRecord?

    constructor ()
      ensures history == [] && pending == null && fresh(this)
    {
      history, pending := [], null;
    }

    /** `pending` aliases the last history entry, and no entry occurs twice. */
    ghost predicate Valid()
      reads this, history
    {
      && (pending != null ==> history != [] && pending == history[|history| - 1])
      && forall i, j :: 0 <= i < j < |history| ==> history[i] != history[j]
    }

    function Value(): Mfa
      reads this, history
    {
      Mfa(Values(history), pending != null)
    }

    /** `_record` for the pending challenge, then forget that it is pending: the history entry changes
        with it, because it is the same object. */
    method ClosePending(c: ScenarioController, outcome: Outcome, reason: Reason, at: int)
      requires c.Valid() && c.mfa == this && pending != null
      modifies this`pending, pending, c`sink, c`world
      ensures c.Valid()
      ensures c.Value() == Close(old(c.Value()), outcome, reason, at)
    {
      ghost var before := c.Value();
      var challenge := pending;
      c.sink := c.sink + [MfaRecorded(challenge.Value().(outcome := outcome, reason := reason), at)];
      challenge.outcome, challenge.reason := outcome, reason;
      c.world := c.world.(decision := Some(outcome));
      pending := null;
      assert c.Value().mfa.history == Close(before, outcome, reason, at).mfa.history;
    }

    method Advance(c: ScenarioController)
      requires c.Valid() && c.mfa == this
      modifies this`pending, pending, c`sink, c`world
      ensures c.Valid()
      ensures c.Value() == MfaAdvance(c.cfg, old(c.Value()))
    {
      if pending == null {
        return;
      }
      var reason := BlockedReason(c.cfg, c.world);
      if reason.Some? {
        ClosePending(c, Cancelled, reason.value, c.elapsed);
      } else if c.elapsed >= pending.expiresAt {
        ClosePending(c, Expired, Timeout, pending.expiresAt);
      }
    }

    method Deliver(c: ScenarioController, item: Item) returns (ok: bool)
      requires c.Valid() && c.mfa == this
      modifies this, pending, c`sink, c`world, c`Repr
      ensures c.Valid() && fresh(c.Repr - old(c.Repr)) && old(c.Repr) <= c.Repr
      ensures (c.Value(), ok) == MfaDeliver(c.cfg, old(c.Value()), item)
    {
      if c.state != Running {
        return false;
      }
      Advance(c);
      if pending != null {
        return false;
      }
      Open(c, item);
      ok := true;
    }

    method Open(c: ScenarioController, item: Item)
      requires c.Valid() && c.mfa == this && pending == null
      modifies this, c`sink, c`world, c`Repr
      ensures c.Valid() && fresh(c.Repr - old(c.Repr)) && old(c.Repr) <= c.Repr
      ensures c.Value() == Opened(c.cfg, old(c.Value()), item)
    {
      hide BlockedReason, Values;
      var reason := BlockedReason(c.cfg, c.world);
      var challenge := new ChallengeRecord(item.id, c.elapsed, c.elapsed + c.cfg.timeout,
        if reason.Some? then Blocked else Sent, if reason.Some? then reason.value else AwaitingDecision);
      Announce(c, challenge, reason.None?);
    }

    /** Append the challenge to the history and emit its first record; keep it as pending if it was sent. */
    method Announce(c: ScenarioController, challenge: ChallengeRecord, sent: bool)
      requires c.Valid() && c.mfa == this && pending == null && challenge !in c.Repr
      modifies this, c`sink, c`world, c`Repr
      ensures c.Valid() && c.Repr == old(c.Repr) + {challenge}
      ensures var e := old(c.Value());
              c.Value() == e.(log := e.log + [MfaRecorded(challenge.Value(), e.elapsed)],
                              mfa := Mfa(e.mfa.history + [challenge.Value()], sent),
                              world := e.world.(decision := Some(challenge.outcome),
                                                pushes := if sent then e.world.pushes + 1 else e.world.pushes))
    {
      hide Values;
      Append(challenge);
      pending := if sent then challenge else null;
      c.sink, c.world, c.Repr := c.sink + [MfaRecorded(challenge.Value(), c.elapsed)],
        c.world.(decision := Some(challenge.outcome), pushes := if sent then c.world.pushes + 1 else c.world.pushes),
        c.Repr + {challenge};
    }

    method Append(challenge: ChallengeRecord)
      requires challenge !in history && pending == null && Valid()
      modifies this`history
      ensures Valid() && history == old(history) + [challenge]
      ensures Values(history) == old(Values(history)) + [challenge.Value()]
    {
      history := history + [challenge];
      assert history[..|history| - 1] == old(history);
    }

    method Decide(c: ScenarioController, item: string, approve: bool) returns (ok: bool)
      requires c.Valid() && c.mfa == this
      modifies this`pending, pending, c`sink, c`world
      ensures c.Valid()
      ensures Step(c.Value(), ok) == DoDecide(c.cfg, old(c.Value()), item, approve)
    {
      if c.state != Running {
        return false;
      }
      Advance(c);
      if pending == null || pending.item != item {
        return false;
      }
      ClosePending(c, if approve then Approved else Denied, HumanDecision, c.elapsed);
      ok := true;
    }

    method Stop(c: ScenarioController)
      requires c.Valid() && c.mfa == this
      modifies this`pending, pending, c`sink, c`world
      ensures c.Valid()
      ensures c.Value() == CancelPending(old(c.Value()))
    {
      if pending != null {
        ClosePending(c, Cancelled, Reason.FailSafeStop, c.elapsed);
      }
    }
  }

  class ScenarioController {
    const cfg: Config
    var state: RunState
    var elapsed: int
    var items: map<string, Runtime>
    var results: map<string, Branch>
    var sink: seq<Event>
    var world: World
    var mfa: ScheduledMfa
    ghost var Repr: set<object>

    constructor (cfg: Config, world: World)
      ensures Valid() && fresh(Repr) && this.cfg == cfg && Value() == Initial(cfg, world)
    {
      this.cfg, this.world, state, elapsed := cfg, world, Ready, 0;
      items := FreshItems(cfg);
      results, sink := map[], [];
      var challenges := new ScheduledMfa();
      mfa, Repr := challenges, {this, challenges};
    }

    ghost predicate Valid(): (v: bool)
      reads this, Repr
      ensures v ==> this in Repr && mfa in Repr && (mfa.pending != null ==> mfa.pending in Repr)
    {
      && this in Repr && mfa in Repr && (forall r :: r in mfa.history ==> r in Repr)
      && mfa.Valid()
    }

    function Value(): (e: Engine)
      requires Valid()
      reads this, Repr
      ensures e.state == state && e.elapsed == elapsed && e.items == items && e.results == results
      ensures e.log == sink && e.world == world && e.mfa.open == (mfa.pending != null)
    {
      Engine(state, elapsed, items, results, sink, mfa.Value(), world)
    }

    method CompleteItem(item: Item, stamp: Option<int>)
      requires Valid()
      modifies this`items, this`sink, this`state
      ensures Valid() && Value() == Completes(old(Value()), item, stamp)
    {
      items := items[item.id := Runtime(Delivered, Some(elapsed))];
      sink := sink + [ItemDelivered(item.id, stamp.GetOr(elapsed))];
      if item.kind.End? {
        state := Completed;
      }
    }

    method FailItem(item: Item, stamp: Option<int>)
      requires Valid()
      modifies this`items, this`sink
      ensures Valid() && Value() == Fail(old(Value()), item, stamp)
    {
      var runtime := if item.id in items then items[item.id] else Runtime(Pending, None);
      items := items[item.id := runtime.(status := Failed)];
      sink := sink + [ItemFailed(item.id, stamp.GetOr(elapsed))];
    }

    method StopNow()
      requires Valid()
      modifies this`state, this`sink
      ensures Valid() && Value() == Stop(old(Value()))
    {
      if Live(state) {
        state := Stopped;
        sink := sink + [RunStopped(elapsed)];
      }
    }

    method Undergo(effect: Effect)
      requires Valid()
      modifies this`world, this`state, this`sink
      ensures Valid() && Value() == Ran(old(Value()), effect)
    {
      hide Reviewed, Stop;
      Receive(effect);
      if effect.stops {
        StopNow();
      }
    }

    method Receive(effect: Effect)
      requires Valid()
      modifies this`world, this`sink
      ensures Valid() && Value() == Reviewed(old(Value()), effect)
    {
      world := effect.world;
      if effect.review.Some? {
        sink := sink + [RecoveryReviewed(effect.review.value, elapsed)];
      }
    }

    method DeliverItem(item: Item)
      requires Valid()
      modifies Repr
      ensures Valid() && fresh(Repr - old(Repr)) && Value() == ExerciseEngine.Deliver(cfg, old(Value()), item)
    {
      hide Completes, Fail, Ran, MfaDeliver, Valid, Value;
      if item.action.None? {
        CompleteItem(item, None);
      } else if item.action.value == MFA_ACTION {
        var ok := mfa.Deliver(this, item);
        if ok {
          CompleteItem(item, None);
        } else {
          FailItem(item, None);
        }
      } else if item.action.value !in cfg.handlers {
        FailItem(item, None);
      } else {
        var effect := cfg.handlers[item.action.value](item, Value());
        Undergo(effect);
        match effect.verdict {
          case Success(stamp) => CompleteItem(item, stamp);
          case Failure(stamp) => FailItem(item, stamp);
          case _ => FailItem(item, None);
        }
      }
    }

    method MakeItemDue(item: Item)
      requires Valid()
      modifies Repr
      ensures Valid() && fresh(Repr - old(Repr)) && Value() == MakeDue(cfg, old(Value()), item)
    {
      hide ExerciseEngine.Deliver;
      var runtime := if item.id in items then items[item.id] else Runtime(Pending, None);
      if runtime.status != Pending {
        return;
      }
      if item.byFacilitator || item.kind.Checkpoint? {
        items := items[item.id := runtime.(status := Offered)];
        sink := sink + [ItemOffered(item.id, elapsed)];
      } else {
        DeliverItem(item);
      }
    }

    /** `_advance_clock` with its one observer. */
    method AdvanceClock(seconds: int)
      requires Valid()
      modifies Repr
      ensures Valid() && fresh(Repr - old(Repr)) && Value() == Clock(cfg, old(Value()), seconds)
    {
      elapsed := seconds;
      mfa.Advance(this);
    }

    method AdvanceTo(seconds: int) returns (ok: bool)
      requires Valid()
      modifies Repr
      ensures Valid() && fresh(Repr - old(Repr))
      ensures Step(Value(), ok) == DoAdvance(cfg, old(Value()), seconds)
    {
      hide MakeDue, Clock, Due, Valid, Value;
      if state != Running || seconds < elapsed {
        return false;
      }
      var due := Due(cfg, Value(), seconds);
      var k := 0;
      while k < |due|
        invariant 0 <= k <= |due| && Valid() && fresh(Repr - old(Repr))
        invariant Value() == Process(cfg, old(Value()), due[..k])
      {
        AdvanceClock(Seconds(due[k]));
        MakeItemDue(due[k]);
        assert due[..k + 1][..k] == due[..k];
        k := k + 1;
      }
      assert due[..k] == due;
      AdvanceClock(seconds);
      ok := true;
    }

    method Prepare() returns (ok: bool)
      requires Valid()
      modifies Repr
      ensures Valid() && fresh(Repr - old(Repr))
      ensures Step(Value(), ok) == DoPrepare(cfg, old(Value()))
    {
      hide MakeDue, Sort, Selected, Valid, Value;
      if state != Ready {
        return false;
      }
      var due := Sort(Selected(cfg.items, (i: Item) => i.trigger.PreExercise?));
      var k := 0;
      while k < |due|
        invariant 0 <= k <= |due| && Valid() && fresh(Repr - old(Repr))
        invariant Value() == MakeAll(cfg, old(Value()), due[..k])
      {
        MakeItemDue(due[k]);
        assert due[..k + 1][..k] == due[..k];
        k := k + 1;
      }
      assert due[..k] == due;
      ok := true;
    }

    method Start() returns (ok: bool)
      requires Valid()
      modifies Repr
      ensures Valid() && fresh(Repr - old(Repr))
      ensures Step(Value(), ok) == DoStart(cfg, old(Value()))
    {
      hide DoAdvance;
      if state != Ready {
        return false;
      }
      state := Running;
      sink := sink + [RunStarted(elapsed)];
      ok := AdvanceTo(0);
    }

    method Pause() returns (ok: bool)
      requires Valid()
      modifies this`state, this`sink
      ensures Valid() && Step(Value(), ok) == DoPause(old(Value()))
    {
      if state != Running {
        return false;
      }
      state := Paused;
      sink := sink + [RunPaused(elapsed)];
      ok := true;
    }

    method Resume() returns (ok: bool)
      requires Valid()
      modifies this`state, this`sink
      ensures Valid() && Step(Value(), ok) == DoResume(old(Value()))
    {
      if state != Paused {
        return false;
      }
      state := Running;
      sink := sink + [RunResumed(elapsed)];
      ok := true;
    }

    method DeliverNow(id: string) returns (ok: bool)
      requires Valid()
      modifies Repr
      ensures Valid() && fresh(Repr - old(Repr))
      ensures Step(Value(), ok) == DoDeliver(cfg, old(Value()), id)
    {
      hide ExerciseEngine.Deliver;
      var found := Find(cfg.items, id);
      var runtime := if id in items then items[id] else Runtime(Pending, None);
      if !Live(state) || found.None? || !Unprocessed(runtime.status) {
        return false;
      }
      DeliverItem(found.value);
      ok := true;
    }

    method Skip(id: string, reason: string) returns (ok: bool)
      requires Valid()
      modifies this`items, this`sink
      ensures Valid() && Step(Value(), ok) == DoSkip(cfg, old(Value()), id, reason)
    {
      var runtime := if id in items then items[id] else Runtime(Pending, None);
      if !Live(state) || Text.Blank(reason) || Find(cfg.items, id).None? || !Unprocessed(runtime.status) {
        return false;
      }
      items := items[id := runtime.(status := Skipped)];
      sink := sink + [ItemSkipped(id, elapsed)];
      ok := true;
    }

    method RecordResult(id: string, branch: Branch, reason: string)
      requires Valid()
      modifies this`items, this`results, this`sink
      ensures Valid() && Value() == Resolved(old(Value()), id, branch, reason)
    {
      items := items[id := Runtime(Delivered, Some(elapsed))];
      results := results[id := branch];
      sink := sink + [CheckpointResolved(id, branch, Text.Strip(reason), elapsed)];
    }

    method ResolveCheckpoint(id: string, branch: Branch, reason: string) returns (ok: bool)
      requires Valid()
      modifies Repr
      ensures Valid() && fresh(Repr - old(Repr))
      ensures Step(Value(), ok) == DoResolve(cfg, old(Value()), id, branch, reason)
    {
      hide MakeDue, DoSkip, BranchItems, Resolved, CanResolve, Valid, Value;
      if !CanResolve(cfg, Value(), id, reason) {
        return false;
      }
      RecordResult(id, branch, reason);
      ghost var resolved := Value();
      var branches := BranchItems(cfg, id);
      var k := 0;
      while k < |branches|
        invariant 0 <= k <= |branches| && Valid() && fresh(Repr - old(Repr))
        invariant RunBranches(cfg, Value(), branches[k..], branch) == RunBranches(cfg, resolved, branches, branch)
      {
        if state == Stopped {
          break;
        }
        assert branches[k..][1..] == branches[k + 1..];
        if Chosen(branches[k], branch) {
          MakeItemDue(branches[k]);
        } else {
          var skipped := Skip(branches[k].id, "opposite branch selected");
          if !skipped {
            return false;
          }
        }
        k := k + 1;
      }
      ok := true;
    }

    method FailSafeStop(reason: string) returns (ok: bool)
      requires Valid()
      modifies this`state, this`sink
      ensures Valid() && Step(Value(), ok) == DoStop(old(Value()), reason)
    {
      if !Live(state) || Text.Blank(reason) {
        return false;
      }
      StopNow();
      ok := true;
    }

    method StartOver(world: World)
      requires Valid()
      modifies this
      ensures Valid() && fresh(Repr - old(Repr))
      ensures Value() == Initial(cfg, world).(log := old(sink) + [RunReset])
    {
      hide FreshItems;
      mfa := new ScheduledMfa();
      Repr := Repr + {mfa};
      state, elapsed, items, results, sink, this.world := Ready, 0, FreshItems(cfg), map[], sink + [RunReset], world;
    }

    /** Reset for a new run, with the challenge component that the run builds anew. */
    method Reset(world: World) returns (ok: bool)
      requires Valid()
      modifies this
      ensures Valid() && fresh(Repr - old(Repr))
      ensures Step(Value(), ok) == DoReset(cfg, old(Value()), world)
    {
      if state !in {Stopped, Completed} {
        return false;
      }
      StartOver(world);
      ok := true;
    }
  }
}
