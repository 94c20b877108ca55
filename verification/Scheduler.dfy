// Real time drives the deterministic clock: whole seconds are delivered, the rest is carried, and
// nothing is lost or counted twice over any placement of ticks, pauses, resumes, jumps and resets,
// except by a time observer that raises.

module Scheduler {
  import opened Prelude
  import opened ExerciseEngine
  import opened EngineFrames
  import opened Controller
  import opened TickSplit

  /** ScenarioScheduler over its controller. */
  datatype Timed = Timed(engine: Engine, last: Option<real>, fraction: real)

  /** `cut` says at which visit of its batch a time observer raises, if one does. */
  datatype Call =
    | Start | Tick(cut: Option<nat>) | Pause(cut: Option<nat>) | Resume | Jump(seconds: int)
    | Reset(world: World) // the controller's reset, then the scheduler's
    | Other(op: Controller.Op) // a call that goes to the controller directly

  datatype Outcome = Outcome(timed: Timed, ok: bool)

  /** Calls the portal makes on the controller without the scheduler. */
  predicate Direct(op: Controller.Op)
  {
    op.Prepare? || op.Deliver? || op.Skip? || op.Resolve? || op.FailSafeStop? || op.Decide? || op.CancelChallenge?
    || op.AdvanceChallenge? || op.Intervene?
  }

  function DoStart(cfg: Config, s: Timed, now: real): Outcome
  {
    var r := Controller.DoStart(cfg, s.engine);
    if r.ok then Outcome(Timed(r.engine, Some(now), 0.0), true) else Outcome(s.(engine := r.engine), false)
  }

  /** `tick` */
  function DoTick(cfg: Config, s: Timed, now: real, cut: Option<nat>): Outcome
  {
    if s.engine.state != Running then Outcome(s, true)
    else if s.last.None? then Outcome(s.(last := Some(now)), true)
    else if now < s.last.value then Outcome(s, false)
    else
      var elapsed := s.fraction + (now - s.last.value);
      var complete := elapsed.Floor;
      var read := s.(last := Some(now), fraction := elapsed - complete as real);
      if complete == 0 then Outcome(read, true)
      else if cut.Some? then
        Outcome(read.(engine := DoAdvanceCut(cfg, s.engine, s.engine.elapsed + complete, cut.value).engine), false)
      else Outcome(read.(engine := Advance(cfg, s.engine, s.engine.elapsed + complete)), true)
  }

  function DoPause(cfg: Config, s: Timed, now: real, cut: Option<nat>): Outcome
  {
    var t := DoTick(cfg, s, now, cut);
    if !t.ok then t else
    var r := Controller.DoPause(t.timed.engine);
    if r.ok then Outcome(t.timed.(engine := r.engine, last := None), true) else Outcome(t.timed, false)
  }

  function DoResume(s: Timed, now: real): Outcome
  {
    var r := Controller.DoResume(s.engine);
    if r.ok then Outcome(s.(engine := r.engine, last := Some(now)), true) else Outcome(s, false)
  }

  function DoJump(cfg: Config, s: Timed, seconds: int, now: real): Outcome
  {
    var r := Controller.DoAdvance(cfg, s.engine, seconds);
    if r.ok then Outcome(Timed(r.engine, Some(now), 0.0), true) else Outcome(s, false)
  }

  function DoReset(cfg: Config, s: Timed, world: World): Outcome
  {
    var r := Controller.DoReset(cfg, s.engine, world);
    if r.ok then Outcome(Timed(r.engine, None, 0.0), true) else Outcome(s, false)
  }

  function Apply(cfg: Config, s: Timed, call: Call, now: real): Outcome
  {
    match call
    case Start => DoStart(cfg, s, now)
    case Tick(cut) => DoTick(cfg, s, now, cut)
    case Pause(cut) => DoPause(cfg, s, now, cut)
    case Resume => DoResume(s, now)
    case Jump(seconds) => DoJump(cfg, s, seconds, now)
    case Reset(world) => DoReset(cfg, s, world)
    case Other(op) =>
      var r := Controller.Apply(cfg, s.engine, op);
      Outcome(s.(engine := r.engine), r.ok)
  }

  // ---------------------------------------------------------------- direct calls leave the clock alone

  ghost predicate SameClock(e: Engine, a: Engine)
  {
    a.elapsed == e.elapsed && (a.state == e.state || a.state in {Stopped, Completed})
  }

  lemma {:induction false} MakeAllClock(cfg: Config, e: Engine, items: seq<Item>)
    ensures SameClock(e, MakeAll(cfg, e, items))
  {
    hide MakeDue, Inert;
    if items != [] {
      MakeAllClock(cfg, e, items[..|items| - 1]);
      MakeDueFrame(cfg, MakeAll(cfg, e, items[..|items| - 1]), items[|items| - 1]);
    }
  }

  lemma {:induction false} RunBranchesClock(cfg: Config, e: Engine, branches: seq<Item>, result: Branch)
    ensures SameClock(e, RunBranches(cfg, e, branches, result).engine)
    decreases |branches|
  {
    hide MakeDue, Inert, Text.Blank, Find;
    if branches != [] && e.state != Stopped {
      MakeDueFrame(cfg, e, branches[0]);
      RunBranchesClock(cfg, MakeDue(cfg, e, branches[0]), branches[1..], result);
      RunBranchesClock(cfg, DoSkip(cfg, e, branches[0].id, "opposite branch selected").engine, branches[1..], result);
    }
  }

  lemma DirectKeepsClock(cfg: Config, e: Engine, op: Controller.Op)
    requires Direct(op)
    ensures SameClock(e, Controller.Apply(cfg, e, op).engine)
  {
    hide MakeAll, RunBranches, ExerciseEngine.Deliver, MfaAdvance, Selected, Sort, BranchItems, Inert, Text.Blank,
      BlockedReason;
    MfaAdvanceFrame(cfg, e);
    match op {
      case Prepare =>
        MakeAllClock(cfg, e, Sort(Selected(cfg.items, (i: Item) => i.trigger.PreExercise?)));
      case Deliver(id) =>
        if DoDeliver(cfg, e, id).ok {
          DeliverFrame(cfg, e, Find(cfg.items, id).value);
        }
      case Resolve(id, branch, reason) =>
        if CanResolve(cfg, e, id, reason) {
          RunBranchesClock(cfg, Resolved(e, id, branch, reason), BranchItems(cfg, id), branch);
        }
      case _ =>
    }
  }

  lemma AdvanceState(cfg: Config, e: Engine, seconds: int)
    ensures Advance(cfg, e, seconds).elapsed == seconds
    ensures Advance(cfg, e, seconds).state in {e.state, Stopped, Completed}
  {
    hide Process, MfaAdvance, Due, Inert;
    ProcessFrame(cfg, e, Due(cfg, e, seconds));
    MfaAdvanceFrame(cfg, Process(cfg, e, Due(cfg, e, seconds)).(elapsed := seconds));
  }

  lemma CutState(cfg: Config, e: Engine, seconds: int, visits: nat)
    requires e.state == Running && e.elapsed <= seconds
    ensures var a := DoAdvanceCut(cfg, e, seconds, visits).engine;
            && a.elapsed == BatchTime(cfg, e, seconds, visits) <= seconds
            && a.state in {Running, Stopped, Completed}
  {
    hide Process, Due, Inert;
    var due := Due(cfg, e, seconds);
    DueAre(cfg, e, seconds);
    if visits < |due| {
      assert due[visits] in due;
      ProcessFrame(cfg, e, due[..visits]);
    } else {
      ProcessFrame(cfg, e, due);
    }
  }

  // ---------------------------------------------------------------- conservation of time

  datatype Timestamped = At(call: Call, now: real)

  function Play(cfg: Config, s: Timed, trace: seq<Timestamped>): Timed
  {
    if trace == [] then s
    else Apply(cfg, Play(cfg, s, trace[..|trace| - 1]), trace[|trace| - 1].call, trace[|trace| - 1].now).timed
  }

  ghost predicate TimeGoesOn(trace: seq<Timestamped>)
  {
    forall i, j :: 0 <= i < j < |trace| ==> trace[i].now <= trace[j].now
  }

  ghost predicate OnlyDirect(trace: seq<Timestamped>)
  {
    forall t :: t in trace && t.call.Other? ==> Direct(t.call.op)
  }

  /** A stop-watch beside the exercise: it runs while the controller is RUNNING, is set by a start or a
      jump, and knows nothing of whole seconds. Beside it, what raising observers have cost. */
  datatype Watch = Watch(anchor: int, ran: real, now: real, lost: int)

  /** An observer that raises leaves the exercise at the time it was told, and the reading is taken: the
      rest of the way to the target is not made up for. */
  function Lost(cfg: Config, s: Timed, call: Call, now: real): int
  {
    if !(call.Tick? || call.Pause?) || call.cut.None? || s.engine.state != Running || s.last.None? || now < s.last.value
    then 0 else
    var complete := (s.fraction + (now - s.last.value)).Floor;
    var target := s.engine.elapsed + complete;
    if complete == 0 then 0 else target - BatchTime(cfg, s.engine, target, call.cut.value)
  }

  /** `Start` and `Jump` set it, when they succeed. */
  predicate Sets(cfg: Config, s: Timed, call: Call, now: real)
  {
    (call.Start? || call.Jump?) && Apply(cfg, s, call, now).ok
  }

  function Stopwatch(cfg: Config, s: Timed, trace: seq<Timestamped>): Watch
  {
    if trace == [] then Watch(0, 0.0, 0.0, 0) else
    var init, last := trace[..|trace| - 1], trace[|trace| - 1];
    Watched(cfg, Play(cfg, s, init), Stopwatch(cfg, s, init), last.call, last.now)
  }

  /** One call later. */
  function Watched(cfg: Config, s: Timed, w: Watch, call: Call, now: real): Watch
  {
    if Sets(cfg, s, call, now) then Watch(if call.Jump? then call.seconds else 0, 0.0, now, 0)
    else Watch(w.anchor, if s.engine.state == Running then w.ran + (now - w.now) else w.ran, now,
               w.lost + Lost(cfg, s, call, now))
  }

  /** Elapsed time, the carried fraction, the time since the last reading and the lost seconds add up to
      the stop-watch. */
  predicate Conserved(s: Timed, w: Watch)
  {
    && 0.0 <= s.fraction < 1.0 && 0 <= w.lost
    && (s.engine.state == Ready ==> s.last.None? && s.engine.elapsed == 0)
    && (s.engine.state == Running ==>
          s.last.Some? && s.last.value <= w.now
          && s.engine.elapsed as real + s.fraction + (w.now - s.last.value) + w.lost as real
             == w.anchor as real + w.ran)
    && (s.engine.state == Paused ==>
          s.engine.elapsed as real + s.fraction + w.lost as real == w.anchor as real + w.ran)
  }

  lemma TickConserves(cfg: Config, s: Timed, w: Watch, now: real, cut: Option<nat>)
    requires Conserved(s, w) && w.now <= now
    ensures var a := DoTick(cfg, s, now, cut);
            var lost := w.lost + Lost(cfg, s, Tick(cut), now);
            && 0.0 <= a.timed.fraction < 1.0 && w.lost <= lost
            && (s.engine.state != Running ==> a.ok && a.timed == s && lost == w.lost)
            && (s.engine.state == Running ==>
                  && a.timed.last == Some(now)
                  && a.timed.engine.state in {Running, Stopped, Completed}
                  && a.timed.engine.elapsed as real + a.timed.fraction + lost as real
                     == w.anchor as real + w.ran + (now - w.now))
  {
    hide Advance, DoAdvanceCut, BatchTime;
    if s.engine.state == Running {
      var target := s.engine.elapsed + (s.fraction + (now - s.last.value)).Floor;
      AdvanceState(cfg, s.engine, target);
      if cut.Some? {
        CutState(cfg, s.engine, target, cut.value);
      }
    }
  }

  lemma StepConserves(cfg: Config, s: Timed, w: Watch, call: Call, now: real)
    requires Conserved(s, w) && w.now <= now && (call.Other? ==> Direct(call.op))
    ensures Conserved(Apply(cfg, s, call, now).timed, Watched(cfg, s, w, call, now))
  {
    hide Advance, Controller.Apply, DoTick, BatchTime;
    match call {
      case Start =>
        AdvanceState(cfg, s.engine.(state := Running, log := s.engine.log + [RunStarted(s.engine.elapsed)]), 0);
      case Tick(cut) => TickConserves(cfg, s, w, now, cut);
      case Pause(cut) => TickConserves(cfg, s, w, now, cut);
      case Resume =>
      case Jump(seconds) => AdvanceState(cfg, s.engine, seconds);
      case Reset(world) =>
      case Other(op) => DirectKeepsClock(cfg, s.engine, op);
    }
  }

  /** No observer raises. */
  ghost predicate NoCut(trace: seq<Timestamped>)
  {
    forall t :: t in trace ==> (t.call.Tick? || t.call.Pause? ==> t.call.cut.None?)
  }

  /** Time conservation over every trace of calls with a clock that does not go back, resets and raising
      observers included: paused time is never counted, running time is lost only where an observer
      raised, and the exercise second with what was lost is the floor of the total. */
  lemma {:induction false} TimeIsConserved(cfg: Config, world: World, trace: seq<Timestamped>)
    requires TimeGoesOn(trace) && OnlyDirect(trace) && (trace != [] ==> 0.0 <= trace[0].now)
    ensures var start := Timed(Initial(cfg, world), None, 0.0);
            var s, w := Play(cfg, start, trace), Stopwatch(cfg, start, trace);
            && Conserved(s, w)
            && (trace != [] && s.engine.state == Running && trace[|trace| - 1].call.Tick? ==>
                  s.engine.elapsed + w.lost == (w.anchor as real + w.ran).Floor)
            && (s.engine.state == Paused ==> s.engine.elapsed + w.lost == (w.anchor as real + w.ran).Floor)
            && (NoCut(trace) ==> w.lost == 0)
  {
    hide Apply, Sets, Lost;
    var start := Timed(Initial(cfg, world), None, 0.0);
    if trace != [] {
      var init, last := trace[..|trace| - 1], trace[|trace| - 1];
      var before, w := Play(cfg, start, init), Stopwatch(cfg, start, init);
      TimeIsConserved(cfg, world, init);
      assert w.now <= last.now by {
        WatchNow(cfg, start, init);
      }
      StepConserves(cfg, before, w, last.call, last.now);
      if last.call.Tick? {
        TickReads(cfg, before, w, last.now, last.call.cut);
      }
      if NoCut(trace) {
        assert last in trace && NoCut(init);
        NothingLost(cfg, before, last.call, last.now);
      }
    }
  }

  lemma NothingLost(cfg: Config, s: Timed, call: Call, now: real)
    requires call.Tick? || call.Pause? ==> call.cut.None?
    ensures Lost(cfg, s, call, now) == 0
  {
  }

  lemma WatchNow(cfg: Config, s: Timed, trace: seq<Timestamped>)
    ensures Stopwatch(cfg, s, trace).now == if trace == [] then 0.0 else trace[|trace| - 1].now
  {
    hide Sets, Play;
  }

  lemma TickReads(cfg: Config, s: Timed, w: Watch, now: real, cut: Option<nat>)
    requires Conserved(s, w) && w.now <= now
    ensures !Sets(cfg, s, Tick(cut), now)
    ensures var a := Apply(cfg, s, Tick(cut), now).timed.engine;
            a.state == Running ==>
              a.elapsed + w.lost + Lost(cfg, s, Tick(cut), now) == (w.anchor as real + w.ran + (now - w.now)).Floor
  {
    hide DoTick, Lost;
    TickConserves(cfg, s, w, now, cut);
  }

  // ---------------------------------------------------------------- where the ticks fall does not matter

  function Ticks(cfg: Config, s: Timed, readings: seq<real>): Timed
  {
    if readings == [] then s
    else DoTick(cfg, Ticks(cfg, s, readings[..|readings| - 1]), readings[|readings| - 1], None).timed
  }

  ghost predicate ReadingsGoOn(from: real, readings: seq<real>)
  {
    && (forall i :: 0 <= i < |readings| ==> from <= readings[i])
    && forall i, j :: 0 <= i < j < |readings| ==> readings[i] <= readings[j]
  }

  lemma {:induction false} TwoTicks(cfg: Config, s: Timed, mid: real, now: real)
    requires Inert(cfg) && UniqueIds(cfg.items) && MfaOk(s.engine.mfa) && NoneBlocked(cfg, s.engine)
    requires s.engine.state == Running && 0 <= s.engine.elapsed && 0.0 <= s.fraction < 1.0
    requires s.last.Some? && s.last.value <= mid <= now
    requires DoTick(cfg, s, mid, None).timed.engine.state == Running
    ensures DoTick(cfg, DoTick(cfg, s, mid, None).timed, now, None) == DoTick(cfg, s, now, None)
  {
    hide Advance, NoneBlocked, MfaOk, Inert;
    var first := (s.fraction + (mid - s.last.value)).Floor;
    var all := (s.fraction + (now - s.last.value)).Floor;
    var e := s.engine;
    CarryAddsUp(s.fraction, mid - s.last.value, now - mid);
    assert s.fraction + (mid - s.last.value) + (now - mid) == s.fraction + (now - s.last.value);
    AdvanceState(cfg, e, e.elapsed + first);
    if first > 0 && all > first {
      SplitAgrees(cfg, e, e.elapsed + first, e.elapsed + all);
    }
  }

  /** Carrying the fraction over one reading more gives the same whole seconds and the same fraction. */
  lemma CarryAddsUp(fraction: real, a: real, b: real)
    requires 0.0 <= fraction < 1.0 && 0.0 <= a && 0.0 <= b
    ensures var carried := fraction + a - (fraction + a).Floor as real;
            && (fraction + a).Floor + (carried + b).Floor == (fraction + a + b).Floor
            && 0 <= (fraction + a).Floor <= (fraction + a + b).Floor
  {
  }

  /** Any number of ticks at any readings leave exactly what one tick at the last reading leaves: the same
      items, evidence, challenges, elapsed second and carried fraction. */
  lemma {:induction false} TicksEqualOneTick(cfg: Config, s: Timed, readings: seq<real>)
    requires Inert(cfg) && UniqueIds(cfg.items) && MfaOk(s.engine.mfa) && NoneBlocked(cfg, s.engine)
    requires s.engine.state == Running && 0 <= s.engine.elapsed && 0.0 <= s.fraction < 1.0
    requires s.last.Some? && readings != [] && ReadingsGoOn(s.last.value, readings)
    requires Ticks(cfg, s, readings[..|readings| - 1]).engine.state == Running
    ensures Ticks(cfg, s, readings) == DoTick(cfg, s, readings[|readings| - 1], None).timed
  {
    hide DoTick, NoneBlocked, MfaOk, Inert;
    var init, last := readings[..|readings| - 1], readings[|readings| - 1];
    if init != [] {
      var shorter := Ticks(cfg, s, init[..|init| - 1]);
      if shorter.engine.state != Running {
        NoTick(cfg, shorter, init[|init| - 1]);
      }
      TicksEqualOneTick(cfg, s, init);
      TwoTicks(cfg, s, init[|init| - 1], last);
    }
  }

  lemma NoTick(cfg: Config, s: Timed, now: real)
    requires s.engine.state != Running
    ensures DoTick(cfg, s, now, None).timed == s
  {
  }

  // ---------------------------------------------------------------- when a call returns normally

  /** A tick raises exactly if the clock went back in a running exercise, or a time observer raises in the
      second or more that it has to deliver. A start needs a run that is ready, a resume a paused one, a
      jump a running one and a second that is not past, a reset an ended run. */
  lemma {:induction false} AnswersIff(cfg: Config, s: Timed, call: Call, now: real)
    requires Controller.Good(cfg, s.engine) && 0.0 <= s.fraction < 1.0
    ensures var ok, e := Apply(cfg, s, call, now).ok, s.engine;
            match call
            case Start => ok <==> e.state == Ready
            case Tick(cut) =>
              ok <==> || e.state != Running || s.last.None?
                      || (s.last.value <= now && (cut.None? || s.fraction + (now - s.last.value) < 1.0))
            case Pause(cut) =>
              ok ==> e.state == Running && Apply(cfg, s, Tick(cut), now).ok && Apply(cfg, s, call, now).timed.last.None?
            case Resume => ok <==> e.state == Paused
            case Jump(seconds) => ok <==> e.state == Running && e.elapsed <= seconds
            case Reset(_) => ok <==> e.state == Stopped || e.state == Completed
            case Other(op) => ok <==> Controller.Apply(cfg, e, op).ok
  {
    hide Advance, DoAdvanceCut, Initial, Controller.Apply;
  }

  /** A pause succeeds exactly if its tick does and leaves the run going. */
  lemma PauseIff(cfg: Config, s: Timed, now: real, cut: Option<nat>)
    ensures var ticked := Apply(cfg, s, Tick(cut), now);
            Apply(cfg, s, Call.Pause(cut), now).ok <==> ticked.ok && ticked.timed.engine.state == Running
  {
    hide DoTick;
  }
}
