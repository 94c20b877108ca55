// ScenarioScheduler and ClockSupervisor as objects around one controller.

module ClockObjects {
  import opened Prelude
  import opened ExerciseEngine
  import opened Controller
  import opened ExerciseObjects
  import opened Scheduler
  import opened Supervisor
  import Text

  class ScenarioScheduler {
    const controller: ScenarioController
    var last: Option<real>
    var fraction: real

    constructor (controller: ScenarioController)
      requires controller.Valid()
      ensures Valid() && this.controller == controller && fresh(this)
      ensures Value() == Timed(controller.Value(), None, 0.0)
    {
      this.controller, last, fraction := controller, None, 0.0;
    }

    ghost predicate Valid()
      reads this, controller, controller.Repr
    {
      controller.Valid() && this !in controller.Repr && 0.0 <= fraction < 1.0
    }

    function Value(): (s: Timed)
      requires Valid()
      reads this, controller, controller.Repr
      ensures s == Timed(controller.Value(), last, fraction)
    {
      Timed(controller.Value(), last, fraction)
    }

    method Start(now: real) returns (ok: bool)
      requires Valid()
      modifies this, controller.Repr
      ensures Valid() && fresh(controller.Repr - old(controller.Repr))
      ensures Outcome(Value(), ok) == Scheduler.DoStart(controller.cfg, old(Value()), now)
    {
      hide Controller.DoStart, ScenarioController.Valid, ScenarioController.Value;
      ok := controller.Start();
      if ok {
        last, fraction := Some(now), 0.0;
      }
    }

    method Tick(now: real) returns (ok: bool)
      requires Valid()
      modifies this, controller.Repr
      ensures Valid() && fresh(controller.Repr - old(controller.Repr))
      ensures Outcome(Value(), ok) == DoTick(controller.cfg, old(Value()), now, None)
    {
      hide Advance, ScenarioController.Valid, ScenarioController.Value;
      if controller.state != Running {
        return true;
      }
      if last.None? {
        last := Some(now);
        return true;
      }
      var delta := now - last.value;
      if delta < 0.0 {
        return false;
      }
      last := Some(now);
      var elapsed := fraction + delta;
      var complete := elapsed.Floor;
      fraction := elapsed - complete as real;
      if complete != 0 {
        var advanced := controller.AdvanceTo(controller.elapsed + complete);
      }
      ok := true;
    }

    method Pause(now: real) returns (ok: bool)
      requires Valid()
      modifies this, controller.Repr
      ensures Valid() && fresh(controller.Repr - old(controller.Repr))
      ensures Outcome(Value(), ok) == Scheduler.DoPause(controller.cfg, old(Value()), now, None)
    {
      hide DoTick, ScenarioController.Valid, ScenarioController.Value;
      ok := Tick(now);
      if !ok {
        return;
      }
      ok := controller.Pause();
      if ok {
        last := None;
      }
    }

    method Resume(now: real) returns (ok: bool)
      requires Valid()
      modifies this, controller.Repr
      ensures Valid() && fresh(controller.Repr - old(controller.Repr))
      ensures Outcome(Value(), ok) == Scheduler.DoResume(old(Value()), now)
    {
      hide ScenarioController.Valid, ScenarioController.Value;
      ok := controller.Resume();
      if ok {
        last := Some(now);
      }
    }

    method Jump(seconds: int, now: real) returns (ok: bool)
      requires Valid()
      modifies this, controller.Repr
      ensures Valid() && fresh(controller.Repr - old(controller.Repr))
      ensures Outcome(Value(), ok) == DoJump(controller.cfg, old(Value()), seconds, now)
    {
      hide Advance, ScenarioController.Valid, ScenarioController.Value;
      ok := controller.AdvanceTo(seconds);
      if ok {
        last, fraction := Some(now), 0.0;
      }
    }
  }

  /** The run's fail-safe stop, reduced to its controller and challenges. */
  method HaltRun(c: ScenarioController, sinkDown: bool)
    requires c.Valid()
    modifies c.Repr
    ensures c.Valid() && c.Repr == old(c.Repr) && c.Value() == Halt(old(c.Value()), sinkDown)
  {
    if c.state == Completed {
      return;
    }
    if sinkDown {
      c.state := Stopped;
      c.mfa.pending := null;
    } else {
      c.StopNow();
      c.mfa.Stop(c);
    }
  }

  class ClockSupervisor {
    const scheduler: ScenarioScheduler
    var attached: bool
    var managed: bool
    var heartbeat: Option<real>
    var ticks: nat
    var fault: Option<Code>
    var cleanup: Option<bool>
    var audit: Option<bool>

    constructor (scheduler: ScenarioScheduler)
      requires scheduler.Valid()
      ensures Valid() && fresh(this) && this.scheduler == scheduler
      ensures Value() == Portal(scheduler.Value(), false, false, None, 0, None, None, None)
    {
      this.scheduler := scheduler;
      attached, managed, heartbeat, ticks, fault, cleanup, audit := false, false, None, 0, None, None, None;
    }

    /** While a fault is latched, play is not going on. */
    ghost predicate Valid()
      reads this, scheduler, scheduler.controller, scheduler.controller.Repr
    {
      && scheduler.Valid() && this !in scheduler.controller.Repr
      && (fault.Some? ==> scheduler.controller.state !in {Running, Paused})
    }

    function Value(): (p: Portal)
      requires Valid()
      reads this, scheduler, scheduler.controller, scheduler.controller.Repr
      ensures p == Portal(scheduler.Value(), attached, managed, heartbeat, ticks, fault, cleanup, audit)
    {
      Portal(scheduler.Value(), attached, managed, heartbeat, ticks, fault, cleanup, audit)
    }

    method Fault(code: Code, t: Trouble)
      requires Valid()
      modifies this, scheduler.controller.Repr
      ensures Valid() && fresh(scheduler.controller.Repr - old(scheduler.controller.Repr))
      ensures Value() == Latch(old(Value()), code, t)
    {
      hide Halt, ScenarioController.Valid, ScenarioController.Value;
      var c := scheduler.controller;
      HaltStops(c.Value(), t.sinkDown);
      if fault.Some? {
        return;
      }
      var completed := c.state == Completed;
      if !completed {
        HaltRun(c, t.sinkDown);
      }
      fault, cleanup, audit := Some(code), Some(completed || !t.sinkDown), Some(!t.ledgerDown);
    }

    method RequireHealthy(reading: Option<real>, t: Trouble) returns (ok: bool)
      requires Valid()
      modifies this, scheduler.controller.Repr
      ensures Valid() && fresh(scheduler.controller.Repr - old(scheduler.controller.Repr))
      ensures (Value(), ok) == Gate(old(Value()), reading, t)
    {
      hide Latch, HealthOf, ScenarioController.Valid, ScenarioController.Value;
      var health := HealthOf(Value(), reading);
      var c := scheduler.controller;
      if health == Healthy && c.state in {Running, Paused} && AnyFailed(c.Value()) {
        Fault(TickFailed, t);
        return false;
      }
      match health {
        case Healthy => ok := true;
        case Unmonitored => ok := true;
        case Faulted => ok := false;
        case Stale => Fault(HeartbeatStale, t); ok := false;
        case InvalidClock => Fault(InvalidMonotonic, t); ok := false;
        case Detached => Fault(DriverUnavailable, t); ok := false;
      }
    }

    method Tick(r: Readings, t: Trouble)
      requires Valid()
      modifies this, scheduler, scheduler.controller.Repr
      ensures Valid() && fresh(scheduler.controller.Repr - old(scheduler.controller.Repr))
      ensures Value() == DoBeat(scheduler.controller.cfg, old(Value()), r, None, t)
    {
      hide Latch, Gate, DoTick, AnyFailed, Confirm, GoesThrough, ScenarioController.Valid, ScenarioController.Value;
      if fault.Some? || !attached {
        return;
      }
      GateIs(Value(), r.gate, t);
      var ok := RequireHealthy(r.gate, t);
      if !ok {
        Fault(TickFailed, t);
        return;
      }
      var wasRunning := scheduler.controller.state == Running;
      if wasRunning {
        ok := false;
        if r.tick.Some? {
          ok := scheduler.Tick(r.tick.value);
        }
      }
      if !ok || (wasRunning && (scheduler.controller.state == Stopped || AnyFailed(scheduler.controller.Value()))) {
        Fault(TickFailed, t);
        return;
      }
      ConfirmHealth(r, t);
    }

    method ConfirmHealth(r: Readings, t: Trouble)
      requires Valid()
      modifies this, scheduler.controller.Repr
      ensures Valid() && fresh(scheduler.controller.Repr - old(scheduler.controller.Repr))
      ensures Value() == Confirm(old(Value()), r, t)
    {
      hide Latch, Gate, ScenarioController.Valid, ScenarioController.Value;
      var ok := RequireHealthy(r.check, t);
      if !ok || r.beat.None? {
        Fault(TickFailed, t);
        return;
      }
      heartbeat, ticks := r.beat, ticks + 1;
      ok := RequireHealthy(r.confirm, t);
      if !ok {
        Fault(TickFailed, t);
      }
    }

    method Attach(reading: Option<real>, check: Option<real>, t: Trouble)
      requires Valid()
      modifies this, scheduler.controller.Repr
      ensures Valid() && fresh(scheduler.controller.Repr - old(scheduler.controller.Repr))
      ensures Value() == DoAttach(old(Value()), reading, check, t)
    {
      hide Latch, ScenarioController.Valid, ScenarioController.Value;
      if attached {
        return;
      }
      managed, attached := true, true;
      if reading.Some? {
        heartbeat := reading;
      }
      if reading.None? || Age(Value(), check).None? {
        Fault(InvalidMonotonic, t);
      }
    }

    method Detach(t: Trouble)
      requires Valid()
      modifies this, scheduler.controller.Repr
      ensures Valid() && fresh(scheduler.controller.Repr - old(scheduler.controller.Repr))
      ensures Value() == DoDetach(old(Value()), t)
    {
      hide Latch, Halt, ScenarioController.Valid, ScenarioController.Value;
      attached := false;
      if scheduler.controller.state in {Running, Paused} {
        HaltRun(scheduler.controller, t.sinkDown);
        if t.sinkDown {
          Fault(DriverFailed, t);
        }
      }
    }
  }
}
