// ClockSupervisor around the scheduler: stale play is never caught up, and a fault, once latched,
// freezes the run until it is reset.

module Supervisor {
  import opened Prelude
  import opened ExerciseEngine
  import opened EngineFrames
  import opened Controller
  import opened Scheduler
  import Text

  datatype Code = HeartbeatStale | InvalidMonotonic | DriverUnavailable | TickFailed | DriverFailed

  datatype Health = Healthy | Unmonitored | Detached | InvalidClock | Stale | Faulted

  const STALE_AFTER := 30.0

  /** The portal's run, scheduler and supervisor, all behind the run lock. */
  datatype Portal = Portal(timed: Timed, attached: bool, managed: bool, heartbeat: Option<real>, ticks: nat,
                           fault: Option<Code>, cleanup: Option<bool>, audit: Option<bool>)

  /** What may go wrong around a stop: the event sink, and the audit ledger. */
  datatype Trouble = Trouble(sinkDown: bool, ledgerDown: bool)

  datatype ResetEnd = NotArchived | NotVerified | Verified

  /** The clock readings of one supervised tick in the order in which they are taken: for the gate, by the
      scheduler, for the gate after it, for the heartbeat, and for the last gate. `None` is a provider that
      raised or was not finite. */
  datatype Readings = Readings(gate: Option<real>, tick: Option<real>, check: Option<real>, beat: Option<real>,
                               confirm: Option<real>)

  datatype Call =
    | Attach(reading: Option<real>, check: Option<real>) | Detach
    | Beat(readings: Readings, cut: Option<nat>) // the supervised tick
    | Mutate(gate: Option<real>, reading: Option<real>, call: Scheduler.Call) // a guarded request of anyone
    | StopRun(reason: string)
    | DriverFault
    | Reset(reading: Option<real>, world: World, end: ResetEnd)

  function Fresh(cfg: Config, world: World): Portal
  {
    Portal(Timed(Initial(cfg, world), None, 0.0), false, false, None, 0, None, None, None)
  }

  /** `_age` */
  function Age(p: Portal, reading: Option<real>): Option<real>
  {
    if p.heartbeat.None? || reading.None? || reading.value < p.heartbeat.value then None
    else Some(reading.value - p.heartbeat.value)
  }

  function HealthOf(p: Portal, reading: Option<real>): Health
  {
    if p.fault.Some? then Faulted
    else if !p.managed then Unmonitored
    else if !p.attached then Detached
    else if Age(p, reading).None? then InvalidClock
    else if Age(p, reading).value > STALE_AFTER then Stale
    else Healthy
  }

  /** The run's fail-safe stop tries every latch: an unavailable sink costs the evidence, not the stop. */
  function Halt(e: Engine, sinkDown: bool): Engine
  {
    if e.state == Completed then e
    else if sinkDown then e.(state := Stopped, mfa := Mfa(e.mfa.history, false))
    else CancelPending(Stop(e))
  }

  /** `fault` */
  function Latch(p: Portal, code: Code, t: Trouble): Portal
  {
    if p.fault.Some? then p else
    p.(fault := Some(code), cleanup := Some(p.timed.engine.state == Completed || !t.sinkDown),
       timed := p.timed.(engine := Halt(p.timed.engine, t.sinkDown)), audit := Some(!t.ledgerDown))
  }

  predicate AnyFailed(e: Engine)
  {
    exists id :: id in e.items && e.items[id].status == Failed
  }

  /** `require_healthy`: the portal afterwards, and whether the caller may go on. */
  function Gate(p: Portal, reading: Option<real>, t: Trouble): (Portal, bool)
  {
    match HealthOf(p, reading)
    case Faulted => (p, false)
    case Unmonitored => (p, true)
    case Healthy =>
      if p.timed.engine.state in {Running, Paused} && AnyFailed(p.timed.engine)
      then (Latch(p, TickFailed, t), false) else (p, true)
    case Stale => (Latch(p, HeartbeatStale, t), false)
    case InvalidClock => (Latch(p, InvalidMonotonic, t), false)
    case Detached => (Latch(p, DriverUnavailable, t), false)
  }

  function Claimed(p: Portal, reading: Option<real>): Portal
  {
    p.(managed := true, attached := true, heartbeat := if reading.Some? then reading else p.heartbeat)
  }

  function DoAttach(p: Portal, reading: Option<real>, check: Option<real>, t: Trouble): Portal
  {
    if p.attached then p else
    var claimed := Claimed(p, reading);
    if reading.None? || Age(claimed, check).None? then Latch(claimed, InvalidMonotonic, t) else claimed
  }

  /** The scheduler's tick, which reads the clock only while the run is going. */
  function TickAt(cfg: Config, s: Timed, reading: Option<real>, cut: Option<nat>): Scheduler.Outcome
  {
    if s.engine.state != Running then Outcome(s, true)
    else if reading.None? then Outcome(s, false)
    else DoTick(cfg, s, reading.value, cut)
  }

  function DoBeat(cfg: Config, p: Portal, r: Readings, cut: Option<nat>, t: Trouble): Portal
  {
    if p.fault.Some? || !p.attached then p else
    var (gated, ok) := Gate(p, r.gate, t);
    if !ok then Latch(gated, TickFailed, t) else
    var out := TickAt(cfg, gated.timed, r.tick, cut);
    var ticked := gated.(timed := out.timed);
    var wasRunning := gated.timed.engine.state == Running;
    if !out.ok || (wasRunning && (out.timed.engine.state == Stopped || AnyFailed(out.timed.engine)))
    then Latch(ticked, TickFailed, t)
    else Confirm(ticked, r, t)
  }

  /** The end of a tick: still healthy, take the heartbeat, and healthy with it. */
  function Confirm(p: Portal, r: Readings, t: Trouble): Portal
  {
    var (gated, ok) := Gate(p, r.check, t);
    if !ok || r.beat.None? then Latch(gated, TickFailed, t) else
    Beaten(Gate(gated.(heartbeat := r.beat, ticks := gated.ticks + 1), r.confirm, t), t)
  }

  function Beaten(gate: (Portal, bool), t: Trouble): Portal
  {
    if gate.1 then gate.0 else Latch(gate.0, TickFailed, t)
  }

  function DoMutate(cfg: Config, p: Portal, gate: Option<real>, reading: Option<real>, call: Scheduler.Call,
      t: Trouble): Portal
  {
    var (gated, ok) := Gate(p, gate, t);
    if !ok || reading.None? then gated
    else gated.(timed := Scheduler.Apply(cfg, gated.timed, call, reading.value).timed)
  }

  function DoDetach(p: Portal, t: Trouble): Portal
  {
    var loose := p.(attached := false);
    if p.timed.engine.state !in {Running, Paused} then loose else
    var halted := loose.(timed := p.timed.(engine := Halt(p.timed.engine, t.sinkDown)));
    if t.sinkDown then Latch(halted, DriverFailed, t) else halted
  }

  /** `reset_run`: the run and the scheduler are reset once the review is archived, and only a verified
      baseline and a usable clock clear the latch. */
  function DoReset(cfg: Config, p: Portal, reading: Option<real>, world: World, end: ResetEnd): Portal
  {
    if p.timed.engine.state !in {Stopped, Completed} || end == NotArchived then p else
    var renewed := p.(timed := Timed(Controller.DoReset(cfg, p.timed.engine, world).engine, None, 0.0));
    if end == NotVerified || (p.attached && reading.None?) then renewed
    else renewed.(fault := None, cleanup := None, audit := None, ticks := 0,
                heartbeat := if p.attached then reading else None)
  }

  function Apply(cfg: Config, p: Portal, call: Call, t: Trouble): Portal
  {
    match call
    case Attach(reading, check) => DoAttach(p, reading, check, t)
    case Detach => DoDetach(p, t)
    case Beat(readings, cut) => DoBeat(cfg, p, readings, cut, t)
    case Mutate(gate, reading, c) => DoMutate(cfg, p, gate, reading, c, t)
    case StopRun(reason) =>
      if Text.Blank(reason) then p else p.(timed := p.timed.(engine := Halt(p.timed.engine, t.sinkDown)))
    case DriverFault => Latch(p, DriverFailed, t)
    case Reset(reading, world, end) => DoReset(cfg, p, reading, world, end)
  }

  datatype Request = Request(call: Call, trouble: Trouble)

  function Serve(cfg: Config, p: Portal, requests: seq<Request>): Portal
  {
    if requests == [] then p else
    Apply(cfg, Serve(cfg, p, requests[..|requests| - 1]), requests[|requests| - 1].call,
        requests[|requests| - 1].trouble)
  }

  // ---------------------------------------------------------------- when a tick keeps the bound

  /** Running time the scheduler has not delivered yet, at a reading. */
  function Behind(s: Timed, now: real): real
    requires s.last.Some?
  {
    s.fraction + (now - s.last.value)
  }

  lemma TickIs(cfg: Config, s: Timed, now: real, cut: Option<nat>)
    requires 0.0 <= s.fraction < 1.0
    ensures var a := DoTick(cfg, s, now, cut).timed;
            && 0.0 <= a.fraction < 1.0
            && (a == s || (s.engine.state == Running && a.last == Some(now)
                           && a.engine.state in {Running, Stopped, Completed}))
            && (s.engine.state == Running && DoTick(cfg, s, now, cut).ok ==> a.last == Some(now))
            && a.engine.elapsed ==
               if s.engine.state != Running || s.last.None? || now < s.last.value || Behind(s, now) < 1.0
               then s.engine.elapsed
               else var target := s.engine.elapsed + Behind(s, now).Floor;
                    if cut.Some? then BatchTime(cfg, s.engine, target, cut.value) else target
  {
    hide Advance, DoAdvanceCut, BatchTime;
    if s.engine.state == Running && s.last.Some? && s.last.value <= now {
      var target := s.engine.elapsed + Behind(s, now).Floor;
      AdvanceState(cfg, s.engine, target);
      if cut.Some? {
        CutState(cfg, s.engine, target, cut.value);
      }
    }
  }

  lemma HaltStops(e: Engine, sinkDown: bool)
    ensures var a := Halt(e, sinkDown);
            && a.state == (if e.state == Completed then Completed else Stopped)
            && a.items == e.items && a.results == e.results && a.elapsed == e.elapsed
            && (e.state == Completed ==> a == e)
  {
  }

  lemma LatchKeepsTime(p: Portal, code: Code, t: Trouble)
    ensures Latch(p, code, t).timed.engine.elapsed == p.timed.engine.elapsed
    ensures Latch(p, code, t).timed.engine.state != Ready || Latch(p, code, t) == p
  {
    hide Halt;
    HaltStops(p.timed.engine, t.sinkDown);
  }

  /** The supervisor lets the scheduler tick. */
  ghost predicate GoesThrough(p: Portal, gate: Option<real>)
  {
    && p.fault.None? && p.attached && HealthOf(p, gate) in {Healthy, Unmonitored}
    && (p.managed && p.timed.engine.state in {Running, Paused} ==> !AnyFailed(p.timed.engine))
  }

  lemma GateIs(p: Portal, reading: Option<real>, t: Trouble)
    ensures var (gated, ok) := Gate(p, reading, t);
            && gated.timed.engine.elapsed == p.timed.engine.elapsed
            && (ok ==> gated == p)
            && (p.fault.None? && p.attached ==> (ok <==> GoesThrough(p, reading)))
  {
    hide Latch, AnyFailed;
    forall code ensures Latch(p, code, t).timed.engine.elapsed == p.timed.engine.elapsed {
      LatchKeepsTime(p, code, t);
    }
  }

  /** A supervised tick moves the clock as the scheduler's tick does, if it gets that far; what it checks
      afterwards, and a fault it latches, move nothing. */
  lemma BeatElapses(cfg: Config, p: Portal, r: Readings, cut: Option<nat>, t: Trouble)
    ensures DoBeat(cfg, p, r, cut, t).timed.engine.elapsed
            == if GoesThrough(p, r.gate) then TickAt(cfg, p.timed, r.tick, cut).timed.engine.elapsed
               else p.timed.engine.elapsed
  {
    hide TickAt, Latch, Gate, AnyFailed, GoesThrough, Confirm;
    var (gated, ok) := Gate(p, r.gate, t);
    GateIs(p, r.gate, t);
    LatchKeepsTime(gated, TickFailed, t);
    if p.fault.Some? || !p.attached {
      assert !GoesThrough(p, r.gate) by { NotThrough(p, r.gate); }
    } else if ok {
      var ticked := p.(timed := TickAt(cfg, p.timed, r.tick, cut).timed);
      LatchKeepsTime(ticked, TickFailed, t);
      ConfirmKeepsTime(ticked, r, t);
    }
  }

  lemma NotThrough(p: Portal, gate: Option<real>)
    ensures GoesThrough(p, gate) ==> p.fault.None? && p.attached
  {
  }

  lemma ConfirmKeepsTime(p: Portal, r: Readings, t: Trouble)
    ensures Confirm(p, r, t).timed.engine.elapsed == p.timed.engine.elapsed
  {
    hide Latch, Gate;
    GateIs(p, r.check, t);
    var again := Gate(p, r.check, t).0;
    LatchKeepsTime(again, TickFailed, t);
    var beaten := again.(heartbeat := r.beat, ticks := again.ticks + 1);
    GateIs(beaten, r.confirm, t);
    LatchKeepsTime(Gate(beaten, r.confirm, t).0, TickFailed, t);
  }

  /** A supervised tick advances the exercise by more than thirty seconds exactly if it goes through on a
      running exercise that is thirty-one seconds behind or more at the scheduler's reading, and no time
      observer raises before the clock is that far. */
  lemma {:induction false} BoundIff(cfg: Config, p: Portal, r: Readings, cut: Option<nat>, t: Trouble)
    requires 0.0 <= p.timed.fraction < 1.0
    ensures var e := p.timed.engine;
            DoBeat(cfg, p, r, cut, t).timed.engine.elapsed > e.elapsed + 30
            <==> && GoesThrough(p, r.gate) && e.state == Running
                 && p.timed.last.Some? && r.tick.Some? && p.timed.last.value <= r.tick.value
                 && Behind(p.timed, r.tick.value) >= 31.0
                 && (cut.Some? ==>
                       BatchTime(cfg, e, e.elapsed + Behind(p.timed, r.tick.value).Floor, cut.value) > e.elapsed + 30)
  {
    hide DoBeat, DoTick, GoesThrough, BatchTime;
    BeatElapses(cfg, p, r, cut, t);
    if p.timed.engine.state == Running && r.tick.Some? {
      TickIs(cfg, p.timed, r.tick.value, cut);
      if p.timed.last.Some? {
        var behind := Behind(p.timed, r.tick.value);
        assert behind >= 31.0 <==> behind.Floor >= 31;
        if cut.Some? && 0 <= behind.Floor {
          CutState(cfg, p.timed.engine, p.timed.engine.elapsed + behind.Floor, cut.value);
        }
      }
    }
  }

  // ---------------------------------------------------------------- no catch-up

  /** The last heartbeat is less than a second of undelivered play later than the last reading. */
  ghost predicate Anchored(p: Portal)
  {
    && 0.0 <= p.timed.fraction < 1.0
    && (p.attached ==> p.managed)
    && (p.timed.engine.state == Ready ==> p.timed.last.None? && p.timed.engine.elapsed == 0)
    && (p.managed && p.timed.engine.state == Running ==>
          p.timed.last.Some? && p.heartbeat.Some? && Behind(p.timed, p.heartbeat.value) < 1.0)
  }

  /** What is left of `Behind` after a tick. */
  function Carried(s: Timed, now: real): real
    requires s.last.Some?
  {
    Behind(s, now) - Behind(s, now).Floor as real
  }

  /** A driver that attaches to a run that is already going does so before it is a second behind; a tick
      takes its heartbeat before the exercise is a second behind again; a request reads the clock after its
      gate does, and goes through the scheduler if the clock is concerned. */
  predicate Prompt(p: Portal, call: Call)
  {
    match call
    case Attach(reading, check) =>
      reading.Some? && !p.attached && p.timed.engine.state == Running ==>
        p.timed.last.Some? && Behind(p.timed, reading.value) < 1.0
    case Beat(r, cut) =>
      p.timed.engine.state == Running && p.timed.last.Some? && r.tick.Some? && r.beat.Some? ==>
        Carried(p.timed, r.tick.value) + (r.beat.value - r.tick.value) < 1.0
    case Mutate(gate, reading, c) =>
      && (c.Other? ==> Direct(c.op))
      && (gate.Some? && reading.Some? ==> gate.value <= reading.value)
    case _ => true
  }

  ghost predicate Disciplined(cfg: Config, p: Portal, requests: seq<Request>)
  {
    forall k :: 0 <= k < |requests| ==> Prompt(Serve(cfg, p, requests[..k]), requests[k].call)
  }

  lemma LatchAnchors(p: Portal, code: Code, t: Trouble)
    requires Anchored(p)
    ensures Anchored(Latch(p, code, t))
  {
    hide Halt;
    HaltStops(p.timed.engine, t.sinkDown);
  }

  lemma LatchStops(p: Portal, code: Code, t: Trouble)
    requires p.fault.None?
    ensures var a := Latch(p, code, t);
            a.timed.engine.state in {Stopped, Completed} && a.timed == p.timed.(engine := a.timed.engine)
            && a.attached == p.attached && a.managed == p.managed
  {
    hide Halt;
    HaltStops(p.timed.engine, t.sinkDown);
  }

  lemma GateAnchors(p: Portal, reading: Option<real>, t: Trouble)
    requires Anchored(p)
    ensures var (gated, ok) := Gate(p, reading, t);
            && Anchored(gated)
            && (ok ==> gated == p && (p.managed ==>
                  p.heartbeat.Some? && reading.Some?
                  && p.heartbeat.value <= reading.value <= p.heartbeat.value + STALE_AFTER))
  {
    hide Latch, Anchored;
    forall code ensures Anchored(Latch(p, code, t)) {
      LatchAnchors(p, code, t);
    }
  }

  lemma {:induction false} BeatAnchors(cfg: Config, p: Portal, r: Readings, cut: Option<nat>, t: Trouble)
    requires Anchored(p) && Prompt(p, Beat(r, cut))
    ensures Anchored(DoBeat(cfg, p, r, cut, t))
  {
    hide TickAt, Latch, Gate, AnyFailed, Confirm;
    GateAnchors(p, r.gate, t);
    var (gated, ok) := Gate(p, r.gate, t);
    LatchAnchors(gated, TickFailed, t);
    if p.fault.None? && p.attached && ok {
      var ticked := p.(timed := TickAt(cfg, p.timed, r.tick, cut).timed);
      TickAnchors(cfg, p, r, cut);
      LatchAnchors(ticked, TickFailed, t);
      ConfirmAnchors(ticked, r, t, TickAt(cfg, p.timed, r.tick, cut).ok);
    }
  }

  /** After the scheduler's tick the old heartbeat is still anchored, and so will be the new one. */
  lemma TickAnchors(cfg: Config, p: Portal, r: Readings, cut: Option<nat>)
    requires Anchored(p) && Prompt(p, Beat(r, cut)) && p.attached
    ensures var out := TickAt(cfg, p.timed, r.tick, cut);
            && Anchored(p.(timed := out.timed))
            && (out.ok && r.beat.Some? && out.timed.engine.state == Running ==> Behind(out.timed, r.beat.value) < 1.0)
  {
    hide Advance, DoAdvanceCut, BatchTime;
    if p.timed.engine.state == Running && r.tick.Some? {
      TickIs(cfg, p.timed, r.tick.value, cut);
    }
  }

  lemma ConfirmAnchors(p: Portal, r: Readings, t: Trouble, ok: bool)
    requires Anchored(p) && p.attached
    requires ok && r.beat.Some? && p.timed.engine.state == Running ==> Behind(p.timed, r.beat.value) < 1.0
    ensures ok ==> Anchored(Confirm(p, r, t))
  {
    hide Latch, Gate;
    GateAnchors(p, r.check, t);
    var again := Gate(p, r.check, t).0;
    LatchAnchors(again, TickFailed, t);
    if ok && Gate(p, r.check, t).1 && r.beat.Some? {
      var beaten := again.(heartbeat := r.beat, ticks := again.ticks + 1);
      GateAnchors(beaten, r.confirm, t);
      LatchAnchors(Gate(beaten, r.confirm, t).0, TickFailed, t);
    }
  }

  lemma MutateAnchors(cfg: Config, p: Portal, gate: Option<real>, reading: Option<real>, call: Scheduler.Call,
      t: Trouble)
    requires Anchored(p) && Prompt(p, Mutate(gate, reading, call))
    ensures Anchored(DoMutate(cfg, p, gate, reading, call, t))
  {
    hide DoTick, Latch, Gate, Advance, Controller.Apply, DoAdvanceCut, BatchTime;
    GateAnchors(p, gate, t);
    var (gated, ok) := Gate(p, gate, t);
    if ok && reading.Some? {
      match call {
        case Start =>
          var e := p.timed.engine;
          AdvanceState(cfg, e.(state := Running, log := e.log + [RunStarted(e.elapsed)]), 0);
        case Tick(cut) => TickIs(cfg, p.timed, reading.value, cut);
        case Pause(cut) => TickIs(cfg, p.timed, reading.value, cut);
        case Reset(world) =>
          if p.timed.engine.state in {Stopped, Completed} {
            ResetIsReady(cfg, p.timed.engine, world);
          }
        case Jump(seconds) => AdvanceState(cfg, p.timed.engine, seconds);
        case Other(op) => DirectKeepsClock(cfg, p.timed.engine, op);
        case _ =>
      }
    }
  }

  lemma StepAnchors(cfg: Config, p: Portal, call: Call, t: Trouble)
    requires Anchored(p) && Latched(p) && Prompt(p, call)
    ensures Anchored(Apply(cfg, p, call, t))
  {
    hide DoBeat, DoMutate, Halt, Controller.DoReset;
    HaltStops(p.timed.engine, t.sinkDown);
    match call {
      case Attach(reading, check) =>
        if !p.attached && p.fault.None? {
          LatchStops(Claimed(p, reading), InvalidMonotonic, t);
        }
      case Beat(r, cut) => BeatAnchors(cfg, p, r, cut, t);
      case Mutate(gate, reading, c) => MutateAnchors(cfg, p, gate, reading, c, t);
      case Detach =>
        HaltStops(Halt(p.timed.engine, t.sinkDown), t.sinkDown);
      case Reset(reading, world, end) =>
        if p.timed.engine.state in {Stopped, Completed} {
          ResetIsReady(cfg, p.timed.engine, world);
        }
      case _ =>
    }
  }

  lemma {:induction false} ServeAnchors(cfg: Config, world: World, requests: seq<Request>)
    requires Disciplined(cfg, Fresh(cfg, world), requests)
    ensures Anchored(Serve(cfg, Fresh(cfg, world), requests))
  {
    hide Apply, Prompt;
    if requests != [] {
      var init, last := requests[..|requests| - 1], requests[|requests| - 1];
      forall k | 0 <= k < |init|
        ensures Prompt(Serve(cfg, Fresh(cfg, world), init[..k]), init[k].call)
      {
        assert init[..k] == requests[..k] && init[k] == requests[k];
      }
      ServeAnchors(cfg, world, init);
      assert init == requests[..|init|];
      FaultFreezes(cfg, Fresh(cfg, world), init);
      StepAnchors(cfg, Serve(cfg, Fresh(cfg, world), init), last.call, last.trouble);
    }
  }

  /** The scheduler reads the clock before the run is a second further behind than its last heartbeat was. */
  predicate ReadsPromptly(p: Portal, r: Readings)
  {
    && p.timed.last.Some? && p.heartbeat.Some? && r.gate.Some? && r.tick.Some? ==>
      Behind(p.timed, p.heartbeat.value) + (r.tick.value - r.gate.value) < 1.0
  }

  /** Calls that take no time are prompt, so that only an attach to a running exercise can be late. */
  lemma InstantIsPrompt(p: Portal, r: Readings, cut: Option<nat>)
    requires Anchored(p) && p.managed && p.timed.engine.state == Running && r.gate == r.tick == r.beat
    ensures Prompt(p, Beat(r, cut)) && ReadsPromptly(p, r)
  {
  }

  /** No catch-up: in every portal reached with the driver attached before play, or less than a second
      behind it, and with prompt calls, no supervised tick advances the exercise by more than thirty
      seconds, however late it comes and whatever fails in it. */
  lemma {:induction false} NoCatchUp(cfg: Config, world: World, requests: seq<Request>, r: Readings,
        cut: Option<nat>, t: Trouble)
    requires Disciplined(cfg, Fresh(cfg, world), requests)
    requires ReadsPromptly(Serve(cfg, Fresh(cfg, world), requests), r)
    ensures var p := Serve(cfg, Fresh(cfg, world), requests);
            DoBeat(cfg, p, r, cut, t).timed.engine.elapsed <= p.timed.engine.elapsed + 30
  {
    hide Serve, Disciplined, DoBeat, BatchTime;
    ServeAnchors(cfg, world, requests);
    BoundIff(cfg, Serve(cfg, Fresh(cfg, world), requests), r, cut, t);
  }

  /** Which late attaches keep the bound, for ticks that take no time to begin: exactly those to a run less
      than a second behind, and those after which no tick goes through, because an item has failed. */
  lemma {:induction false} LateAttachIff(cfg: Config, p: Portal, at: real, quiet: Trouble)
    requires 0.0 <= p.timed.fraction < 1.0 && p.timed.engine.state == Running && p.timed.last.Some?
    requires p.fault.None? && !p.attached
    ensures var claimed := DoAttach(p, Some(at), Some(at), quiet);
            (forall r: Readings, cut, t :: r.gate == r.tick ==>
               DoBeat(cfg, claimed, r, cut, t).timed.engine.elapsed <= claimed.timed.engine.elapsed + 30)
            <==> Behind(p.timed, at) < 1.0 || AnyFailed(p.timed.engine)
  {
    hide DoBeat, BatchTime, AnyFailed, Latch;
    var claimed := DoAttach(p, Some(at), Some(at), quiet);
    forall r: Readings, cut, t | r.gate == r.tick
      ensures Behind(p.timed, at) < 1.0 || AnyFailed(p.timed.engine) ==>
                DoBeat(cfg, claimed, r, cut, t).timed.engine.elapsed <= claimed.timed.engine.elapsed + 30
    {
      BoundIff(cfg, claimed, r, cut, t);
    }
    if Behind(p.timed, at) >= 1.0 && !AnyFailed(p.timed.engine) {
      var late := AllAt(at + STALE_AFTER);
      BoundIff(cfg, claimed, late, None, quiet);
      assert DoBeat(cfg, claimed, late, None, quiet).timed.engine.elapsed > claimed.timed.engine.elapsed + 30;
    }
  }

  /** A tick that takes no time. */
  function AllAt(now: real): Readings
  {
    Readings(Some(now), Some(now), Some(now), Some(now), Some(now))
  }

  /** The bound needs the order: a run started at second 0 without a driver, which is attached at 100,
      is caught up by a hundred seconds on the first tick, and no fault is latched. */
  lemma LateDriverCatchesUp(world: World)
    ensures var cfg := Config([], map[], 60, 0);
            var quiet := Trouble(false, false);
            var requests := [Request(Mutate(Some(0.0), Some(0.0), Scheduler.Call.Start), quiet),
                             Request(Attach(Some(100.0), Some(100.0)), quiet)];
            var p := Serve(cfg, Fresh(cfg, world), requests);
            var after := DoBeat(cfg, p, AllAt(100.0), None, quiet);
            after.fault.None? && after.timed.engine.elapsed == p.timed.engine.elapsed + 100
  {
    hide Serve, MfaAdvance, Process, Due, DoBeat;
    var cfg := Config([], map[], 60, 0);
    var quiet := Trouble(false, false);
    var requests := [Request(Mutate(Some(0.0), Some(0.0), Scheduler.Call.Start), quiet),
                     Request(Attach(Some(100.0), Some(100.0)), quiet)];
    var idle := Fresh(cfg, world);
    TwoRequests(cfg, idle, requests);
    var started := Apply(cfg, idle, requests[0].call, quiet);
    StartsEmpty(cfg, idle, 0.0, quiet);
    var attached := Apply(cfg, started, requests[1].call, quiet);
    assert attached == started.(managed := true, attached := true, heartbeat := Some(100.0));
    BeatsEmpty(cfg, attached, AllAt(100.0), quiet);
    assert Behind(attached.timed, 100.0).Floor == 100;
  }

  /** And it needs prompt calls: with the driver attached in time, a tick whose handlers take twenty-nine
      seconds takes its heartbeat at their end, and the next tick, thirty seconds later, catches up
      fifty-nine. */
  lemma SlowTickCatchesUp(world: World)
    ensures var cfg := Config([], map[], 60, 0);
            var quiet := Trouble(false, false);
            var slow := Readings(Some(0.0), Some(0.0), Some(29.0), Some(29.0), Some(29.0));
            var requests := [Request(Attach(Some(0.0), Some(0.0)), quiet),
                             Request(Mutate(Some(0.0), Some(0.0), Scheduler.Call.Start), quiet)];
            var p := Apply(cfg, Serve(cfg, Fresh(cfg, world), requests), Beat(slow, None), quiet);
            var after := DoBeat(cfg, p, AllAt(59.0), None, quiet);
            after.fault.None? && p.timed.engine.elapsed == 0 && after.timed.engine.elapsed == 59
  {
    hide Serve, MfaAdvance, Process, Due, DoBeat;
    var cfg := Config([], map[], 60, 0);
    var quiet := Trouble(false, false);
    var slow := Readings(Some(0.0), Some(0.0), Some(29.0), Some(29.0), Some(29.0));
    var requests := [Request(Attach(Some(0.0), Some(0.0)), quiet),
                     Request(Mutate(Some(0.0), Some(0.0), Scheduler.Call.Start), quiet)];
    var idle := Fresh(cfg, world);
    TwoRequests(cfg, idle, requests);
    var attached := Apply(cfg, idle, requests[0].call, quiet);
    assert attached == idle.(managed := true, attached := true, heartbeat := Some(0.0));
    StartsEmpty(cfg, attached, 0.0, quiet);
    var started := Apply(cfg, attached, requests[1].call, quiet);
    BeatsEmpty(cfg, started, slow, quiet);
    var p := DoBeat(cfg, started, slow, None, quiet);
    BeatsEmpty(cfg, p, AllAt(59.0), quiet);
    assert Behind(started.timed, 0.0).Floor == 0 && Behind(p.timed, 59.0).Floor == 59;
  }

  /** With nothing scheduled, a start only sets the anchor. */
  lemma StartsEmpty(cfg: Config, p: Portal, now: real, quiet: Trouble)
    requires cfg.items == [] && p.timed.engine.state == Ready && p.timed.engine.elapsed == 0 && !p.timed.engine.mfa.open
    requires p.fault.None? && (p.managed ==> p.attached && p.heartbeat == Some(now))
    ensures var e := p.timed.engine;
            DoMutate(cfg, p, Some(now), Some(now), Scheduler.Call.Start, quiet)
            == p.(timed := Timed(e.(state := Running, log := e.log + [RunStarted(0)]), Some(now), 0.0))
  {
    hide MfaAdvance, Process, Due;
    var e := p.timed.engine;
    var going := e.(state := Running, log := e.log + [RunStarted(0)]);
    EmptyAdvance(cfg, going, 0);
    assert going.(elapsed := 0) == going;
    assert Controller.DoStart(cfg, e) == Step(going, true);
  }

  /** And a timely tick only moves the clock and the heartbeat. */
  lemma BeatsEmpty(cfg: Config, p: Portal, r: Readings, quiet: Trouble)
    requires cfg.items == [] && p.timed.engine.state == Running && !p.timed.engine.mfa.open
    requires p.timed.engine.items == map[] && 0.0 <= p.timed.fraction < 1.0
    requires p.fault.None? && p.attached && p.managed && p.timed.last.Some? && r.tick.Some?
    requires p.timed.last.value <= r.tick.value && r.beat.Some?
    requires Timely(p.heartbeat, r.gate) && Timely(p.heartbeat, r.check) && Timely(r.beat, r.confirm)
    ensures var e, behind := p.timed.engine, Behind(p.timed, r.tick.value);
            DoBeat(cfg, p, r, None, quiet)
            == p.(timed := Timed(e.(elapsed := e.elapsed + behind.Floor), r.tick, Carried(p.timed, r.tick.value)),
                  heartbeat := r.beat, ticks := p.ticks + 1)
  {
    hide MfaAdvance, Process, Due, DoBeat, Advance;
    BeatFaultsIff(cfg, p, r, None, quiet);
    EmptyAdvance(cfg, p.timed.engine, p.timed.engine.elapsed + Behind(p.timed, r.tick.value).Floor);
    assert !AnyFailed(p.timed.engine);
  }

  lemma TwoRequests(cfg: Config, p: Portal, requests: seq<Request>)
    requires |requests| == 2
    ensures Serve(cfg, p, requests)
            == Apply(cfg, Apply(cfg, p, requests[0].call, requests[0].trouble), requests[1].call, requests[1].trouble)
  {
    hide Apply;
    assert requests[..1][..0] == [] && requests[..1][0] == requests[0];
    assert Serve(cfg, p, requests[..1]) == Apply(cfg, p, requests[0].call, requests[0].trouble);
  }

  /** With nothing scheduled and no challenge, advancing only moves the clock. */
  lemma EmptyAdvance(cfg: Config, e: Engine, seconds: int)
    requires cfg.items == [] && !e.mfa.open
    ensures Advance(cfg, e, seconds) == e.(elapsed := seconds)
  {
    assert DueItems([], e, -1, seconds) == [];
  }

  /** What the tick itself may go wrong with, given the play before and after it. */
  predicate TickIsSound(before: Engine, r: Scheduler.Outcome)
  {
    && r.ok
    && !(before.state in {Running, Paused} && AnyFailed(before))
    && !(before.state == Running && (r.timed.engine.state == Stopped || AnyFailed(r.timed.engine)))
    && !(r.timed.engine.state in {Running, Paused} && AnyFailed(r.timed.engine))
  }

  /** The reading is not before the heartbeat and within thirty seconds of it. */
  predicate Timely(heartbeat: Option<real>, reading: Option<real>)
  {
    heartbeat.Some? && reading.Some? && heartbeat.value <= reading.value <= heartbeat.value + STALE_AFTER
  }

  /** A supervised tick latches a fault exactly if one of its three gates finds no heartbeat within thirty
      seconds, the heartbeat cannot be taken, or the tick is not sound; otherwise it advances play, takes
      the heartbeat and is counted. */
  lemma BeatFaultsIff(cfg: Config, p: Portal, r: Readings, cut: Option<nat>, t: Trouble)
    requires p.fault.None? && p.attached && p.managed
    ensures var after, out := DoBeat(cfg, p, r, cut, t), TickAt(cfg, p.timed, r.tick, cut);
            && (after.fault.None?
                <==> && Timely(p.heartbeat, r.gate) && TickIsSound(p.timed.engine, out)
                     && Timely(p.heartbeat, r.check) && Timely(r.beat, r.confirm))
            && (after.fault.None? ==> after == p.(timed := out.timed, heartbeat := r.beat, ticks := p.ticks + 1))
  {
    hide TickAt, AnyFailed, Halt;
  }

  // ---------------------------------------------------------------- gate, fault and driver, field by field

  /** An item of a run that is going, or paused, has failed. */
  ghost predicate SeesFailure(e: Engine)
  {
    (e.state == Running || e.state == Paused) && exists id :: id in e.items && e.items[id].status == Failed
  }

  /** Play is over, with its items, results and clock as they were. */
  predicate StoppedFrom(e: Engine, a: Engine)
  {
    && a.items == e.items && a.results == e.results && a.elapsed == e.elapsed
    && a.state == (if e.state == Completed then Completed else Stopped)
  }

  /** A request goes on exactly without a fault, and if the clock is managed with a driver, a heartbeat of the
      last thirty seconds and no failed item in live play. Otherwise the first fault is latched under the
      code of what was found, and play is stopped. */
  lemma {:induction false} GateIff(p: Portal, reading: Option<real>, t: Trouble)
    ensures var (a, ok) := Gate(p, reading, t);
            && (ok <==>
                  && p.fault.None?
                  && (p.managed ==> p.attached && Timely(p.heartbeat, reading) && !SeesFailure(p.timed.engine)))
            && (ok || p.fault.Some? ==> a == p)
            && (!ok && p.fault.None? ==>
                  && a.fault == Some(
                       if !p.attached then DriverUnavailable
                       else if p.heartbeat.None? || reading.None? || reading.value < p.heartbeat.value
                       then InvalidMonotonic
                       else if reading.value - p.heartbeat.value > 30.0 then HeartbeatStale
                       else TickFailed)
                  && StoppedFrom(p.timed.engine, a.timed.engine) && a.audit == Some(!t.ledgerDown)
                  && a.cleanup == Some(p.timed.engine.state == Completed || !t.sinkDown)
                  && a.heartbeat == p.heartbeat && a.ticks == p.ticks && a.attached == p.attached)
  {
    hide Halt;
    HaltIs(p.timed.engine, t.sinkDown);
  }

  /** A guarded request reaches the scheduler exactly if the gate lets it through with a clock that can be
      read; then it does what the scheduler does, and else only what the gate does. */
  lemma {:induction false} MutateIs(cfg: Config, p: Portal, gate: Option<real>, reading: Option<real>,
        call: Scheduler.Call, t: Trouble)
    ensures var a, ok := DoMutate(cfg, p, gate, reading, call, t), Gate(p, gate, t).1;
            && (ok && reading.Some? ==>
                  a == p.(timed := Scheduler.Apply(cfg, p.timed, call, reading.value).timed))
            && (ok && reading.None? ==> a == p)
            && (!ok ==> a == Gate(p, gate, t).0 && a.fault.Some?)
  {
    hide Halt, Scheduler.Apply;
  }

  /** The stop of a run: a completed one stays as it is; any other is stopped, with the pending challenge
      cancelled on the record, or only dropped if the record cannot be written. */
  lemma HaltIs(e: Engine, sinkDown: bool)
    ensures var a := Halt(e, sinkDown);
            && (e.state == Completed ==> a == e)
            && (e.state != Completed && MfaOk(e.mfa) ==> !a.mfa.open)
            && StoppedFrom(e, a)
            && (e.state != Completed && sinkDown ==> a.log == e.log && a.mfa.history == e.mfa.history)
            && (e.state != Completed && !sinkDown && MfaOk(e.mfa) && e.mfa.open ==>
                  && |a.mfa.history| == |e.mfa.history|
                  && var c := a.mfa.history[|a.mfa.history| - 1];
                  && c.outcome == Cancelled && c.reason == Reason.FailSafeStop && c.item == Current(e.mfa).item
                  && a.log[|a.log| - 1] == MfaRecorded(c, e.elapsed))
  {
  }

  /** A first driver is taken, and the clock is managed from then on; a clock that cannot be read twice in
      order is a fault. A second driver is refused. */
  lemma {:induction false} AttachIs(p: Portal, reading: Option<real>, check: Option<real>, t: Trouble)
    ensures var a := DoAttach(p, reading, check, t);
            && (p.attached ==> a == p)
            && (!p.attached ==>
                  && a.attached && a.managed && a.heartbeat == (if reading.Some? then reading else p.heartbeat)
                  && (p.fault.Some? ==> a.fault == p.fault && a.timed == p.timed)
                  && (p.fault.None? ==>
                        (a.fault.None? <==> reading.Some? && check.Some? && reading.value <= check.value))
                  && (p.fault.None? && a.fault.None? ==> a.timed == p.timed)
                  && (p.fault.None? && a.fault.Some? ==> a.fault == Some(InvalidMonotonic)))
  {
    hide Halt;
  }

  /** A driver that leaves stops live play; only a stop that cannot be recorded is a fault. */
  lemma {:induction false} DetachIs(p: Portal, t: Trouble)
    ensures var a, live := DoDetach(p, t), p.timed.engine.state == Running || p.timed.engine.state == Paused;
            && !a.attached && a.managed == p.managed && a.heartbeat == p.heartbeat
            && (!live ==> a.timed == p.timed && a.fault == p.fault)
            && (live ==> a.timed.engine.state == Stopped && a.timed.engine.elapsed == p.timed.engine.elapsed)
            && (a.fault != p.fault <==> live && t.sinkDown && p.fault.None?)
            && (a.fault != p.fault ==> a.fault == Some(DriverFailed))
  {
    hide Halt;
    HaltStops(p.timed.engine, t.sinkDown);
    HaltStops(Halt(p.timed.engine, t.sinkDown), t.sinkDown);
  }

  /** A reset starts over exactly from an ended run whose review was archived, and clears the fault exactly
      if the baseline was verified and an attached driver's clock can be read. */
  lemma {:induction false} ResetIs(cfg: Config, p: Portal, reading: Option<real>, world: World, end: ResetEnd)
    ensures var a, ended := DoReset(cfg, p, reading, world, end), p.timed.engine.state in {Stopped, Completed};
            && (!ended || end == NotArchived ==> a == p)
            && (ended && end != NotArchived ==>
                  && a.timed.engine.state == Ready && a.timed.engine.elapsed == 0 && a.timed.last.None?
                  && a.timed.fraction == 0.0 && a.attached == p.attached && a.managed == p.managed
                  && var cleared := end == Verified && (p.attached ==> reading.Some?);
                  && a.fault == (if cleared then None else p.fault)
                  && a.heartbeat == (if !cleared then p.heartbeat else if p.attached then reading else None)
                  && a.ticks == (if cleared then 0 else p.ticks))
  {
  }

  // ---------------------------------------------------------------- the latch

  /** A latched fault means that play is not going on. */
  predicate Latched(p: Portal)
  {
    p.fault.Some? ==> p.timed.engine.state in {Ready, Stopped, Completed}
  }

  /** Items, results and clock exactly as before; at most, a run that was being prepared is stopped. */
  predicate Frozen(e: Engine, a: Engine)
  {
    && a.items == e.items && a.results == e.results && a.elapsed == e.elapsed
    && (a.state == e.state || a.state == Stopped)
  }

  lemma LatchIsLatched(p: Portal, code: Code, t: Trouble)
    requires Latched(p)
    ensures Latched(Latch(p, code, t)) && Latch(p, code, t).fault.Some?
    ensures p.fault.Some? ==> Latch(p, code, t) == p
  {
    hide Halt;
    HaltStops(p.timed.engine, t.sinkDown);
  }

  lemma GateIsLatched(p: Portal, reading: Option<real>, t: Trouble)
    requires Latched(p)
    ensures var (gated, ok) := Gate(p, reading, t);
            Latched(gated) && (!ok ==> gated.fault.Some?) && (ok ==> gated == p && p.fault.None?)
            && (p.fault.Some? ==> gated == p)
  {
    hide Latch, Latched;
    forall code ensures Latched(Latch(p, code, t)) && Latch(p, code, t).fault.Some? {
      LatchIsLatched(p, code, t);
    }
  }

  lemma BeatIsLatched(cfg: Config, p: Portal, r: Readings, cut: Option<nat>, t: Trouble)
    requires Latched(p)
    ensures Latched(DoBeat(cfg, p, r, cut, t))
    ensures p.fault.Some? ==> DoBeat(cfg, p, r, cut, t) == p
  {
    hide Latch, Gate, TickAt, AnyFailed;
    if p.fault.None? && p.attached {
      GateIsLatched(p, r.gate, t);
      var (gated, ok) := Gate(p, r.gate, t);
      LatchIsLatched(gated, TickFailed, t);
      if ok {
        var ticked := gated.(timed := TickAt(cfg, gated.timed, r.tick, cut).timed);
        LatchIsLatched(ticked, TickFailed, t);
        GateIsLatched(ticked, r.check, t);
        var again := Gate(ticked, r.check, t).0;
        LatchIsLatched(again, TickFailed, t);
        if Gate(ticked, r.check, t).1 {
          var beaten := again.(heartbeat := r.beat, ticks := again.ticks + 1);
          GateIsLatched(beaten, r.confirm, t);
          LatchIsLatched(Gate(beaten, r.confirm, t).0, TickFailed, t);
        }
      }
    }
  }

  /** Every request keeps the latch closed; while a fault is latched, no request but a reset that got as
      far as the run changes anything, even if stopping or auditing fails. */
  lemma StepIsLatched(cfg: Config, p: Portal, call: Call, t: Trouble)
    requires Latched(p)
    ensures var a := Apply(cfg, p, call, t);
            && Latched(a)
            && (p.fault.Some? && !call.Reset? ==> a.fault == p.fault && Frozen(p.timed.engine, a.timed.engine))
            && (p.fault.Some? && a.fault.None? ==> call.Reset? && call.end == Verified && a.timed.engine.state == Ready)
  {
    hide Latch, Gate, DoBeat, Halt, Initial, Controller.DoReset;
    HaltStops(p.timed.engine, t.sinkDown);
    match call {
      case Attach(reading, check) => LatchIsLatched(Claimed(p, reading), InvalidMonotonic, t);
      case Detach =>
        var loose := p.(attached := false);
        LatchIsLatched(loose.(timed := p.timed.(engine := Halt(p.timed.engine, t.sinkDown))), DriverFailed, t);
      case Beat(r, cut) => BeatIsLatched(cfg, p, r, cut, t);
      case Mutate(gate, reading, c) => GateIsLatched(p, gate, t);
      case StopRun(reason) =>
      case DriverFault => LatchIsLatched(p, DriverFailed, t);
      case Reset(reading, world, end) =>
        if p.timed.engine.state in {Stopped, Completed} {
          ResetIsReady(cfg, p.timed.engine, world);
        }
    }
  }

  lemma ResetIsReady(cfg: Config, e: Engine, world: World)
    requires e.state in {Stopped, Completed}
    ensures Controller.DoReset(cfg, e, world).engine.state == Ready
    ensures Controller.DoReset(cfg, e, world).engine.elapsed == 0
  {
  }

  /** The fault latch, over every sequence of requests: with a fault set the run is neither running nor
      paused, and until a reset its clock and every item stay as they were. */
  lemma {:induction false} FaultFreezes(cfg: Config, p: Portal, requests: seq<Request>)
    requires Latched(p)
    ensures var a := Serve(cfg, p, requests);
            && Latched(a)
            && (p.fault.Some? && (forall r :: r in requests ==> !r.call.Reset?) ==>
                  a.fault == p.fault && a.timed.engine.state in {Ready, Stopped, Completed}
                  && Frozen(p.timed.engine, a.timed.engine))
  {
    hide Apply;
    if requests != [] {
      var init, last := requests[..|requests| - 1], requests[|requests| - 1];
      FaultFreezes(cfg, p, init);
      StepIsLatched(cfg, Serve(cfg, p, init), last.call, last.trouble);
    }
  }
}
