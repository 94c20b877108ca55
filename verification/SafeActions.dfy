// SafeActionAdapter: which calls start a handler, what a repeat gets, and what a stop prevents.

module SafeActions {
  import opened Prelude

  datatype Request = Request(id: string, key: string, exercise: string, run: string, actor: string, role: string,
                             action: string, target: string, parameters: string, dryRun: bool, timeout: nat)

  /** `_fingerprint`, a collision-free digest of exactly these fields. */
  datatype Print = Print(exercise: string, run: string, actor: string, role: string, action: string, target: string,
                         parameters: string, dryRun: bool, timeout: nat)

  function PrintOf(r: Request): Print
  {
    Print(r.exercise, r.run, r.actor, r.role, r.action, r.target, r.parameters, r.dryRun, r.timeout)
  }

  datatype Status = Executed | DryRun | Denied | Failed | TimedOut | Cancelled

  datatype Result = Result(request: string, action: string, status: Status, successful: bool, cached: bool,
                           effects: seq<string>, token: Option<string>, code: string, message: string)

  datatype Definition = Definition(roles: set<string>, targets: set<string>, runStates: set<string>, maxTimeout: nat,
                                   effects: seq<string>, invalid: string -> Option<string>)

  datatype Config = Config(exercise: string, run: string, registry: map<string, Definition>)

  /** How a handler ends. */
  datatype Ending =
    | Returns(effects: seq<string>, token: Option<string>)
    | ReturnsNothing
    | RaisesCancelled(message: string) | RaisesTimeout(message: string)
    | RaisesFailure(code: string, message: string)
    | Crashes(kind: string)
    | Escapes // raises what is not an `Exception`, such as the interpreter's own exit

  /** One handler run: how it ends, whether the run was stopped under it, and whether its deadline passed. */
  datatype Handling = Handling(ending: Ending, stopped: bool, late: bool)

  /** `execute` answers, or raises because its result does not meet the action schema. */
  datatype Reply = Answer(result: Result) | Raises

  datatype Key = Key(run: string, key: string)

  datatype Adapter = Adapter(results: map<Key, Result>, prints: map<Key, Print>,
                             executions: map<string, Option<string>>, stopped: set<string>)

  const CANCELLED := "action cancelled by fail-safe stop"
  const LATE := "action deadline exceeded"

  predicate Distinct(values: seq<string>)
  {
    forall i, j :: 0 <= i < j < |values| ==> values[i] != values[j]
  }

  /** The part of the result schema that a handler can break: a message of 1 to 1024 characters, and
      effects that do not repeat. */
  predicate MeetsSchema(r: Result)
  {
    1 <= |r.message| <= 1024 && Distinct(r.effects)
  }

  function KeyOf(r: Request): Key
  {
    Key(r.run, r.key)
  }

  // ---------------------------------------------------------------- authorization

  function Deny(r: Request, code: string, message: string): Reply
  {
    var result := Result(r.id, r.action, Denied, false, false, [], None, code, message);
    if MeetsSchema(result) then Answer(result) else Raises
  }

  /** The checks before a request may run, in order; `None` grants it. */
  function Refusal(cfg: Config, a: Adapter, r: Request, runState: string): Option<Reply>
  {
    if r.action !in cfg.registry then Some(Deny(r, "unregistered_action", "Action is not registered")) else
    var d := cfg.registry[r.action];
    if r.run in a.stopped then Some(Deny(r, "run_stopped", "Run is under fail-safe stop"))
    else if runState !in d.runStates then Some(Deny(r, "invalid_run_state",
        "Action is not allowed in the current run state"))
    else if r.role !in d.roles then Some(Deny(r, "role_denied", "Actor role is not authorized"))
    else if r.target !in d.targets then Some(Deny(r, "target_denied", "Target is outside the action allowlist"))
    else if r.timeout > d.maxTimeout then Some(Deny(r, "timeout_exceeds_policy",
        "Requested timeout exceeds action policy"))
    else if d.invalid(r.parameters).Some? then Some(Deny(r, "invalid_parameters", d.invalid(r.parameters).value))
    else None
  }

  predicate Mismatched(cfg: Config, r: Request)
  {
    r.exercise != cfg.exercise || r.run != cfg.run
  }

  // ---------------------------------------------------------------- execution

  /** The result of a handler run; the checkpoint after it sees a stop first, then the deadline. */
  function ResultOf(r: Request, h: Handling): Option<Result>
  {
    var failed := (status, code, message) =>
      Some(Result(r.id, r.action, status, false, false, [], None, code, message));
    match h.ending
    case RaisesCancelled(message) => failed(Cancelled, "cancelled", message)
    case RaisesTimeout(message) => failed(TimedOut, "timed_out", message)
    case RaisesFailure(code, message) => failed(Failed, code, message)
    case Crashes(kind) => failed(Failed, "handler_error", "Handler failed: " + kind)
    case Escapes => None
    case _ =>
      if h.stopped then failed(Cancelled, "cancelled", CANCELLED)
      else if h.late then failed(TimedOut, "timed_out", LATE)
      else match h.ending
        case Returns(effects, token) =>
          Some(Result(r.id, r.action, Executed, true, false, effects, token, "", "Action executed successfully"))
        case _ => None
  }

  /** The handler run leaves a result that can be reported, and therefore kept. */
  predicate Reportable(r: Request, h: Handling)
  {
    ResultOf(r, h).Some? && MeetsSchema(ResultOf(r, h).value)
  }

  function Store(a: Adapter, r: Request, result: Result): Adapter
  {
    a.(results := a.results[KeyOf(r) := result], prints := a.prints[KeyOf(r) := PrintOf(r)])
  }

  /** The run is stopped by whatever stopped it under the handler. */
  function After(a: Adapter, r: Request, h: Handling): Adapter
  {
    if h.stopped then a.(stopped := a.stopped + {r.run}) else a
  }

  function Handle(a: Adapter, r: Request, h: Handling): (Adapter, Reply)
  {
    var now := After(a, r, h);
    if !Reportable(r, h) then (now, Raises) else
    var result := ResultOf(r, h).value;
    var kept := if result.successful then now.(executions := now.executions[r.id := result.token]) else now;
    (Store(kept, r, result), Answer(result))
  }

  datatype Outcome = Outcome(adapter: Adapter, reply: Reply, started: bool)

  /** `execute`; `h` is what the handler would do if it were started. */
  function Perform(cfg: Config, a: Adapter, r: Request, runState: string, h: Handling): Outcome
  {
    if Mismatched(cfg, r) then Outcome(a, Deny(r, "correlation_mismatch", "Request is for another exercise run"), false)
    else if KeyOf(r) in a.results then
      if KeyOf(r) !in a.prints || a.prints[KeyOf(r)] != PrintOf(r)
      then Outcome(a, Deny(r, "idempotency_conflict", "Idempotency key was reused for a different action"), false)
      else Outcome(a, Answer(a.results[KeyOf(r)].(cached := true)), false)
    else
      var refusal := Refusal(cfg, a, r, runState);
      if refusal.Some? then Outcome(a, refusal.value, false)
      else if r.dryRun then
        var result := Result(r.id, r.action, DryRun, true, false, cfg.registry[r.action].effects, None, "",
                             "Dry run passed; handler was not invoked");
        if MeetsSchema(result) then Outcome(Store(a, r, result), Answer(result), false) else Outcome(a, Raises, false)
      else
        var (after, reply) := Handle(a, r, h);
        Outcome(after, reply, true)
  }

  /** `activate_fail_safe` */
  function Stop(a: Adapter, run: string): Adapter
  {
    a.(stopped := a.stopped + {run})
  }

  // ---------------------------------------------------------------- sequences of calls

  datatype Call = Executing(request: Request, runState: string, handling: Handling) | Stopping(run: string)

  /** A handler that was started, and how it went. */
  datatype Start = Start(request: Request, handling: Handling)

  datatype Trace = Trace(adapter: Adapter, starts: seq<Start>)

  const EMPTY := Adapter(map[], map[], map[], {})

  function Step(cfg: Config, t: Trace, call: Call): Trace
  {
    match call
    case Stopping(run) => t.(adapter := Stop(t.adapter, run))
    case Executing(r, runState, h) =>
      var o := Perform(cfg, t.adapter, r, runState, h);
      Trace(o.adapter, if o.started then t.starts + [Start(r, h)] else t.starts)
  }

  function Run(cfg: Config, calls: seq<Call>): Trace
  {
    if calls == [] then Trace(EMPTY, []) else Step(cfg, Run(cfg, calls[..|calls| - 1]), calls[|calls| - 1])
  }

  // ---------------------------------------------------------------- at most once

  /** A handler that left a reportable result is the last one started under its key, and its result is kept. */
  ghost predicate Good(t: Trace)
  {
    && (forall i :: 0 <= i < |t.starts| && Reportable(t.starts[i].request, t.starts[i].handling) ==>
          KeyOf(t.starts[i].request) in t.adapter.results)
    && (forall i, j :: 0 <= i < j < |t.starts| && KeyOf(t.starts[i].request) == KeyOf(t.starts[j].request) ==>
          !Reportable(t.starts[i].request, t.starts[i].handling))
    && t.adapter.prints.Keys == t.adapter.results.Keys
    && (forall i :: 0 <= i < |t.starts| && t.starts[i].handling.stopped ==>
          t.starts[i].request.run in t.adapter.stopped)
  }

  /** Everything kept is still kept, under the same fingerprint. */
  ghost predicate KeepsAll(a: Adapter, n: Adapter)
  {
    && (forall k :: k in a.results ==> k in n.results && n.results[k] == a.results[k])
    && (forall k :: k in a.results && k in a.prints ==> k in n.prints && n.prints[k] == a.prints[k])
    && a.stopped <= n.stopped
    && (a.prints.Keys == a.results.Keys ==> n.prints.Keys == n.results.Keys)
  }

  lemma StoreKeepsAll(a: Adapter, r: Request, result: Result)
    requires KeyOf(r) !in a.results
    ensures KeepsAll(a, Store(a, r, result))
  {
  }

  lemma HandleKeepsAll(a: Adapter, r: Request, h: Handling)
    requires KeyOf(r) !in a.results
    ensures KeepsAll(a, Handle(a, r, h).0)
  {
    hide MeetsSchema, ResultOf, Store, KeepsAll;
    var now := After(a, r, h);
    assert KeepsAll(a, now) by { AfterKeepsAll(a, r, h); }
    if Reportable(r, h) {
      var result := ResultOf(r, h).value;
      var kept := if result.successful then now.(executions := now.executions[r.id := result.token]) else now;
      StoreKeepsAll(kept, r, result);
      KeepsAllThrough(a, kept, Store(kept, r, result));
    }
  }

  lemma AfterKeepsAll(a: Adapter, r: Request, h: Handling)
    ensures KeepsAll(a, After(a, r, h)) && After(a, r, h).results == a.results
  {
  }

  lemma KeepsAllThrough(a: Adapter, b: Adapter, n: Adapter)
    requires b.results == a.results && b.prints == a.prints && a.stopped <= b.stopped && KeepsAll(b, n)
    ensures KeepsAll(a, n)
  {
  }

  lemma KeepsAllSame(a: Adapter)
    ensures KeepsAll(a, a)
  {
  }

  lemma RefusalKnows(cfg: Config, a: Adapter, r: Request, runState: string)
    ensures Refusal(cfg, a, r, runState).None? ==> r.action in cfg.registry && r.run !in a.stopped
  {
    hide Deny;
  }

  /** A handler starts only under a new key and in a run that is not stopped; nothing kept is lost. */
  lemma ExecuteStarts(cfg: Config, a: Adapter, r: Request, runState: string, h: Handling)
    ensures var o := Perform(cfg, a, r, runState, h);
            && KeepsAll(a, o.adapter)
            && (o.started ==> KeyOf(r) !in a.results && r.run !in a.stopped && o.adapter == Handle(a, r, h).0)
  {
    hide MeetsSchema, Refusal, Deny, Handle, Store, KeepsAll;
    KeepsAllSame(a);
    RefusalKnows(cfg, a, r, runState);
    if !Mismatched(cfg, r) && KeyOf(r) !in a.results && Refusal(cfg, a, r, runState).None? {
      HandleKeepsAll(a, r, h);
      StoreKeepsAll(a, r, Result(r.id, r.action, DryRun, true, false, cfg.registry[r.action].effects, None, "",
                                 "Dry run passed; handler was not invoked"));
    }
  }

  lemma StepKeeps(cfg: Config, t: Trace, call: Call)
    requires Good(t)
    ensures Good(Step(cfg, t, call))
  {
    hide MeetsSchema, ResultOf, Perform;
    if call.Executing? {
      ExecuteStarts(cfg, t.adapter, call.request, call.runState, call.handling);
      HandleKeeps(t.adapter, call.request, call.handling);
    }
  }

  lemma HandleKeeps(a: Adapter, r: Request, h: Handling)
    ensures var n := Handle(a, r, h).0;
            (KeyOf(r) in n.results <==> Reportable(r, h) || KeyOf(r) in a.results)
            && (h.stopped ==> r.run in n.stopped)
  {
    hide MeetsSchema, ResultOf;
  }

  lemma {:induction false} RunKeeps(cfg: Config, calls: seq<Call>)
    ensures Good(Run(cfg, calls))
  {
    hide Step, Good;
    if calls == [] {
      assert Good(Trace(EMPTY, [])) by { EmptyIsGood(); }
    } else {
      RunKeeps(cfg, calls[..|calls| - 1]);
      StepKeeps(cfg, Run(cfg, calls[..|calls| - 1]), calls[|calls| - 1]);
    }
  }

  lemma EmptyIsGood()
    ensures Good(Trace(EMPTY, []))
  {
  }

  /** At most once, exactly: of the handlers ever started under one key, each but the last left a result
      that could not be reported. If handlers keep to the result schema, there is only one. */
  lemma {:induction false} StartedAgainOnlyIfUnreportable(cfg: Config, calls: seq<Call>, i: nat, j: nat)
    requires i < j < |Run(cfg, calls).starts|
    requires KeyOf(Run(cfg, calls).starts[i].request) == KeyOf(Run(cfg, calls).starts[j].request)
    ensures !Reportable(Run(cfg, calls).starts[i].request, Run(cfg, calls).starts[i].handling)
  {
    hide Run, Reportable;
    RunKeeps(cfg, calls);
  }

  /** After a handler was started, the same request is answered from the store exactly if the handler's
      result could be reported; otherwise, while the run goes on, the handler is started again. */
  lemma {:induction false} RepeatIff(cfg: Config, a: Adapter, r: Request, runState: string, first: Handling,
        second: Handling)
    requires Perform(cfg, a, r, runState, first).started && !first.stopped
    ensures var once := Perform(cfg, a, r, runState, first);
            var again := Perform(cfg, once.adapter, r, runState, second);
            && (Reportable(r, first) <==> !again.started)
            && (Reportable(r, first) ==>
                  again.reply == Answer(once.reply.result.(cached := true)) && again.adapter == once.adapter)
  {
    hide MeetsSchema, ResultOf;
  }

  /** Such a handler: one that names an effect twice is run again by a retry with the same key. */
  lemma DuplicateEffectsRunTwice(cfg: Config, r: Request, d: Definition)
    requires cfg.registry == map[r.action := d] && !Mismatched(cfg, r) && !r.dryRun
    requires r.role in d.roles && r.target in d.targets && r.timeout <= d.maxTimeout && d.invalid(r.parameters).None?
    ensures var twice := Handling(Returns(["done", "done"], None), false, false);
            var call := Executing(r, "running", twice);
            "running" in d.runStates ==> |Run(cfg, [call, call]).starts| == 2
  {
    var twice := Handling(Returns(["done", "done"], None), false, false);
    var call := Executing(r, "running", twice);
    assert !Distinct(["done", "done"]) by {
      assert ["done", "done"][0] == ["done", "done"][1];
    }
    if "running" in d.runStates {
      assert Perform(cfg, EMPTY, r, "running", twice) == Outcome(EMPTY, Raises, true);
      assert [call, call][..1] == [call] && [call][..0] == [];
      assert Run(cfg, [call]) == Step(cfg, Run(cfg, []), call);
      assert Run(cfg, [call, call]) == Step(cfg, Run(cfg, [call]), call);
    }
  }

  // ---------------------------------------------------------------- repeats, conflicts, stops

  /** What is kept under a key is never replaced: every later request with the fingerprint gets the first
      result, marked cached, without a handler; every other is denied. */
  lemma {:induction false} KeptForEver(cfg: Config, t: Trace, calls: seq<Call>, r: Request, runState: string,
        h: Handling)
    requires Good(t) && KeyOf(r) in t.adapter.results && !Mismatched(cfg, r)
    ensures var o := Perform(cfg, Steps(cfg, t, calls).adapter, r, runState, h);
            && !o.started
            && (if t.adapter.prints[KeyOf(r)] == PrintOf(r)
                then o.reply == Answer(t.adapter.results[KeyOf(r)].(cached := true))
                else o.reply == Deny(r, "idempotency_conflict", "Idempotency key was reused for a different action"))
  {
    hide Steps, MeetsSchema, Refusal;
    StepsKeep(cfg, t, calls, KeyOf(r));
  }

  function Steps(cfg: Config, t: Trace, calls: seq<Call>): Trace
  {
    if calls == [] then t else Step(cfg, Steps(cfg, t, calls[..|calls| - 1]), calls[|calls| - 1])
  }

  lemma {:induction false} StepsKeep(cfg: Config, t: Trace, calls: seq<Call>, key: Key)
    requires Good(t)
    ensures var n := Steps(cfg, t, calls);
            && Good(n) && t.adapter.stopped <= n.adapter.stopped
            && (key in t.adapter.results ==>
                  key in n.adapter.results && n.adapter.results[key] == t.adapter.results[key]
                  && n.adapter.prints[key] == t.adapter.prints[key])
  {
    hide Good, Perform;
    GoodPrints(t);
    if calls != [] {
      var before, call := Steps(cfg, t, calls[..|calls| - 1]), calls[|calls| - 1];
      StepsKeep(cfg, t, calls[..|calls| - 1], key);
      StepKeeps(cfg, before, call);
      GoodPrints(before);
      GoodPrints(Step(cfg, before, call));
      if call.Executing? {
        ExecuteStarts(cfg, before.adapter, call.request, call.runState, call.handling);
      }
    }
  }

  lemma GoodPrints(t: Trace)
    requires Good(t)
    ensures t.adapter.prints.Keys == t.adapter.results.Keys
  {
    hide Reportable;
  }

  /** No handler starts after a stop of its run, whatever else is called. */
  lemma {:induction false} NoStartAfterStop(cfg: Config, t: Trace, calls: seq<Call>, run: string)
    requires Good(t) && run in t.adapter.stopped
    ensures var n := Steps(cfg, t, calls);
            && t.starts <= n.starts
            && forall i :: |t.starts| <= i < |n.starts| ==> n.starts[i].request.run != run
  {
    hide Good, Perform;
    if calls != [] {
      var before, call := Steps(cfg, t, calls[..|calls| - 1]), calls[|calls| - 1];
      NoStartAfterStop(cfg, t, calls[..|calls| - 1], run);
      StepsKeep(cfg, t, calls[..|calls| - 1], Key("", ""));
      if call.Executing? {
        ExecuteStarts(cfg, before.adapter, call.request, call.runState, call.handling);
      }
    }
  }

  /** An execution under which its run was stopped is never reported successful, now or to any repeat,
      and is not offered for rollback. */
  lemma {:induction false} StoppedIsNeverSuccessful(cfg: Config, a: Adapter, r: Request, runState: string, h: Handling)
    requires Perform(cfg, a, r, runState, h).started && h.stopped
    ensures var o := Perform(cfg, a, r, runState, h);
            && (o.reply.Answer? ==> !o.reply.result.successful)
            && (KeyOf(r) in o.adapter.results ==> !o.adapter.results[KeyOf(r)].successful)
            && r.run in o.adapter.stopped && o.adapter.executions == a.executions
  {
    hide MeetsSchema, Refusal, Deny;
  }

  // ---------------------------------------------------------------- authority and dry runs

  /** The request is one that this adapter's policy allows now. */
  predicate Allowed(cfg: Config, a: Adapter, r: Request, runState: string)
  {
    && r.exercise == cfg.exercise && r.run == cfg.run && r.action in cfg.registry && r.run !in a.stopped
    && var d := cfg.registry[r.action];
    && runState in d.runStates && r.role in d.roles && r.target in d.targets && r.timeout <= d.maxTimeout
    && d.invalid(r.parameters).None?
  }

  /** A handler is started exactly for an allowed request that is no dry run, under a new key. */
  lemma StartedIff(cfg: Config, a: Adapter, r: Request, runState: string, h: Handling)
    ensures Perform(cfg, a, r, runState, h).started
            <==> Allowed(cfg, a, r, runState) && Key(r.run, r.key) !in a.results && !r.dryRun
  {
    hide Handle, MeetsSchema, Deny, Store, Refusal;
    if !Mismatched(cfg, r) {
      RefusedIff(cfg, a, r, runState);
    }
  }

  /** An allowed dry run under a new key is answered as such, with the effects that the action would have,
      and changes nothing but what is kept under its key. */
  lemma DryRunIs(cfg: Config, a: Adapter, r: Request, runState: string, h: Handling)
    requires Allowed(cfg, a, r, runState) && Key(r.run, r.key) !in a.results && r.dryRun
    ensures var o, effects := Perform(cfg, a, r, runState, h), cfg.registry[r.action].effects;
            && !o.started && o.adapter.executions == a.executions && o.adapter.stopped == a.stopped
            && (if Distinct(effects) then
                  && o.reply.Answer? && var x := o.reply.result;
                  && x.status == DryRun && x.successful && !x.cached && x.effects == effects && x.token.None?
                  && x.request == r.id && x.action == r.action
                  && o.adapter.results == a.results[Key(r.run, r.key) := x]
                  && o.adapter.prints == a.prints[Key(r.run, r.key) := PrintOf(r)]
                else o.reply == Raises && o.adapter == a)
  {
  }

  /** The first check that fails, as it is reported. */
  function FirstFailure(cfg: Config, a: Adapter, r: Request, runState: string): string
  {
    if r.exercise != cfg.exercise || r.run != cfg.run then "correlation_mismatch"
    else if r.action !in cfg.registry then "unregistered_action"
    else if r.run in a.stopped then "run_stopped"
    else if runState !in cfg.registry[r.action].runStates then "invalid_run_state"
    else if r.role !in cfg.registry[r.action].roles then "role_denied"
    else if r.target !in cfg.registry[r.action].targets then "target_denied"
    else if r.timeout > cfg.registry[r.action].maxTimeout then "timeout_exceeds_policy"
    else "invalid_parameters"
  }

  predicate IsDenial(reply: Reply, r: Request, code: string)
  {
    reply.Answer? ==>
      && var x := reply.result;
      && x.request == r.id && x.action == r.action && x.status == Denied && !x.successful && !x.cached
      && x.effects == [] && x.token.None? && x.code == code
  }

  lemma DenyIs(r: Request, code: string, message: string)
    ensures IsDenial(Deny(r, code, message), r, code)
  {
    hide MeetsSchema;
  }

  lemma RefusedIff(cfg: Config, a: Adapter, r: Request, runState: string)
    requires !Mismatched(cfg, r)
    ensures Refusal(cfg, a, r, runState).None? <==> Allowed(cfg, a, r, runState)
  {
    hide Deny;
  }

  lemma RefusalIs(cfg: Config, a: Adapter, r: Request, runState: string)
    requires !Mismatched(cfg, r) && !Allowed(cfg, a, r, runState)
    ensures Refusal(cfg, a, r, runState).Some?
    ensures IsDenial(Refusal(cfg, a, r, runState).value, r, FirstFailure(cfg, a, r, runState))
  {
    hide Deny, IsDenial;
    if r.action !in cfg.registry {
      DenyIs(r, "unregistered_action", "Action is not registered");
    } else {
      var d := cfg.registry[r.action];
      if r.run in a.stopped {
        DenyIs(r, "run_stopped", "Run is under fail-safe stop");
      } else if runState !in d.runStates {
        DenyIs(r, "invalid_run_state", "Action is not allowed in the current run state");
      } else if r.role !in d.roles {
        DenyIs(r, "role_denied", "Actor role is not authorized");
      } else if r.target !in d.targets {
        DenyIs(r, "target_denied", "Target is outside the action allowlist");
      } else if r.timeout > d.maxTimeout {
        DenyIs(r, "timeout_exceeds_policy", "Requested timeout exceeds action policy");
      } else {
        DenyIs(r, "invalid_parameters", d.invalid(r.parameters).value);
      }
    }
  }

  /** A request that is not allowed is denied with the code of the first check that fails, starts nothing
      and changes nothing. */
  lemma {:induction false} DenialIs(cfg: Config, a: Adapter, r: Request, runState: string, h: Handling)
    requires Key(r.run, r.key) !in a.results && !Allowed(cfg, a, r, runState)
    ensures var o := Perform(cfg, a, r, runState, h);
            !o.started && o.adapter == a && IsDenial(o.reply, r, FirstFailure(cfg, a, r, runState))
  {
    hide Deny, IsDenial, Refusal, Handle, Store, MeetsSchema, Allowed;
    DenyIs(r, "correlation_mismatch", "Request is for another exercise run");
    if !Mismatched(cfg, r) {
      RefusedIff(cfg, a, r, runState);
      RefusalIs(cfg, a, r, runState);
    }
  }

  /** What a handler's ending is reported as: executed exactly if it returned an effect in time and with its
      run going on; cancelled, timed out or failed as it says itself, or as the check behind it finds. */
  lemma EndingIs(r: Request, h: Handling)
    ensures var x := ResultOf(r, h);
            var quiet := h.ending.Returns? || h.ending.ReturnsNothing?;
            && (x.None? <==> h.ending.Escapes? || (h.ending.ReturnsNothing? && !h.stopped && !h.late))
            && (x.Some? ==>
                  && x.value.request == r.id && x.value.action == r.action && !x.value.cached
                  && (x.value.status == Executed <==> h.ending.Returns? && !h.stopped && !h.late)
                  && (x.value.status == Cancelled <==> h.ending.RaisesCancelled? || (quiet && h.stopped))
                  && (x.value.status == TimedOut <==> h.ending.RaisesTimeout? || (quiet && !h.stopped && h.late))
                  && (x.value.status == Failed <==> h.ending.RaisesFailure? || h.ending.Crashes?)
                  && (x.value.successful <==> x.value.status == Executed)
                  && (x.value.successful ==> x.value.effects == h.ending.effects && x.value.token == h.ending.token)
                  && (!x.value.successful ==> x.value.effects == [] && x.value.token.None?))
  {
  }

  /** No dry run has started a handler. */
  ghost predicate NoDryStart(t: Trace)
  {
    forall i :: 0 <= i < |t.starts| ==> !t.starts[i].request.dryRun
  }

  /** What is kept is what was asked for: under a dry run's fingerprint a dry run, under any other one what
      its handler came to. */
  ghost predicate KeptAsAsked(t: Trace)
  {
    forall k :: k in t.adapter.results ==>
      && k in t.adapter.prints
      && (t.adapter.prints[k].dryRun <==> t.adapter.results[k].status == DryRun)
      && t.adapter.results[k].status != Denied
      && (t.adapter.results[k].successful <==> t.adapter.results[k].status in {Executed, DryRun})
  }

  /** What is offered for rollback was executed. */
  ghost predicate OffersExecuted(t: Trace)
  {
    forall id :: id in t.adapter.executions ==>
      exists i :: 0 <= i < |t.starts| && Offers(t.starts[i], id, t.adapter.executions[id])
  }

  predicate Offers(start: Start, id: string, token: Option<string>)
  {
    start.request.id == id && start.handling.ending.Returns? && start.handling.ending.token == token
  }

  ghost predicate Truthful(t: Trace)
  {
    NoDryStart(t) && KeptAsAsked(t) && OffersExecuted(t)
  }

  /** A result that may be kept for this request. */
  predicate Fitting(r: Request, x: Result)
  {
    && (r.dryRun <==> x.status == DryRun) && x.status != Denied
    && (x.successful <==> x.status in {Executed, DryRun})
  }

  lemma HandleIsFitting(a: Adapter, r: Request, h: Handling)
    requires KeyOf(r) !in a.results && !r.dryRun
    ensures var n := Handle(a, r, h).0;
            && n.results.Keys <= a.results.Keys + {KeyOf(r)}
            && (KeyOf(r) in n.results ==>
                  KeyOf(r) in n.prints && n.prints[KeyOf(r)] == PrintOf(r) && Fitting(r, n.results[KeyOf(r)]))
            && (n.executions == a.executions
                || (h.ending.Returns? && n.executions == a.executions[r.id := h.ending.token]))
  {
    hide MeetsSchema, ResultOf;
    EndingIs(r, h);
  }

  /** One request adds at most a fitting result under its own key and an execution under its own name. */
  lemma PerformIsFitting(cfg: Config, a: Adapter, r: Request, runState: string, h: Handling)
    ensures var o := Perform(cfg, a, r, runState, h);
            && o.adapter.results.Keys <= a.results.Keys + {KeyOf(r)}
            && (KeyOf(r) !in a.results && KeyOf(r) in o.adapter.results ==>
                  KeyOf(r) in o.adapter.prints && o.adapter.prints[KeyOf(r)] == PrintOf(r)
                  && Fitting(r, o.adapter.results[KeyOf(r)]))
            && (o.adapter.executions == a.executions
                || (o.started && h.ending.Returns? && o.adapter.executions == a.executions[r.id := h.ending.token]))
  {
    hide Perform, Handle, Fitting, Allowed, IsDenial, Distinct, KeepsAll;
    if KeyOf(r) in a.results {
      KeptIsSame(cfg, a, r, runState, h);
    } else if !Allowed(cfg, a, r, runState) {
      DenialIs(cfg, a, r, runState, h);
    } else if r.dryRun {
      DryRunIs(cfg, a, r, runState, h);
      assert forall x: Result :: x.status == DryRun && x.successful ==> Fitting(r, x) by { DryRunFits(r); }
    } else {
      StartedIff(cfg, a, r, runState, h);
      ExecuteStarts(cfg, a, r, runState, h);
      HandleIsFitting(a, r, h);
    }
  }

  lemma DryRunFits(r: Request)
    requires r.dryRun
    ensures forall x: Result :: x.status == DryRun && x.successful ==> Fitting(r, x)
  {
  }

  lemma KeptIsSame(cfg: Config, a: Adapter, r: Request, runState: string, h: Handling)
    requires KeyOf(r) in a.results
    ensures Perform(cfg, a, r, runState, h).adapter == a
  {
    hide Deny;
  }

  lemma {:induction false} StepIsTruthful(cfg: Config, t: Trace, call: Call)
    requires Truthful(t)
    ensures Truthful(Step(cfg, t, call))
  {
    hide Perform, KeptAsAsked, OffersExecuted;
    if call.Executing? {
      StartedIff(cfg, t.adapter, call.request, call.runState, call.handling);
    }
    StepKeepsAsAsked(cfg, t, call);
    StepOffersExecuted(cfg, t, call);
  }

  lemma StepKeepsAsAsked(cfg: Config, t: Trace, call: Call)
    requires KeptAsAsked(t)
    ensures KeptAsAsked(Step(cfg, t, call))
  {
    hide Perform;
    if call.Executing? {
      PerformIsFitting(cfg, t.adapter, call.request, call.runState, call.handling);
      ExecuteStarts(cfg, t.adapter, call.request, call.runState, call.handling);
    }
  }

  lemma StepOffersExecuted(cfg: Config, t: Trace, call: Call)
    requires OffersExecuted(t)
    ensures OffersExecuted(Step(cfg, t, call))
  {
    hide Perform, Fitting;
    if call.Executing? {
      var r, h, n := call.request, call.handling, Step(cfg, t, call);
      PerformIsFitting(cfg, t.adapter, r, call.runState, h);
      if n.adapter.executions != t.adapter.executions {
        assert n.starts[|t.starts|] == Start(r, h);
      }
      forall id | id in n.adapter.executions
        ensures exists i :: 0 <= i < |n.starts| && Offers(n.starts[i], id, n.adapter.executions[id])
      {
        if id in t.adapter.executions && n.adapter.executions[id] == t.adapter.executions[id] {
          var i :| 0 <= i < |t.starts| && Offers(t.starts[i], id, t.adapter.executions[id]);
          assert n.starts[i] == t.starts[i];
        }
      }
    }
  }

  /** Over every sequence of calls: no dry run ever started a handler, nothing kept for a dry run was
      executed and nothing kept for another request is a dry run, and only executions whose handler
      returned are offered for rollback. */
  lemma {:induction false} DryRunsStartNothing(cfg: Config, calls: seq<Call>)
    ensures Truthful(Run(cfg, calls))
  {
    hide Step, Truthful;
    if calls == [] {
      assert Truthful(Trace(EMPTY, [])) by { EmptyIsTruthful(); }
    } else {
      DryRunsStartNothing(cfg, calls[..|calls| - 1]);
      StepIsTruthful(cfg, Run(cfg, calls[..|calls| - 1]), calls[|calls| - 1]);
    }
  }

  lemma EmptyIsTruthful()
    ensures Truthful(Trace(EMPTY, []))
  {
  }

  // ---------------------------------------------------------------- the adapter as an object

  class SafeActionAdapter {
    const cfg: Config
    var results: map<Key, Result>
    var prints: map<Key, Print>
    var executions: map<string, Option<string>>
    var stopped: set<string>

    constructor (cfg: Config)
      ensures this.cfg == cfg && Value() == EMPTY
    {
      this.cfg, results, prints, executions, stopped := cfg, map[], map[], map[], {};
    }

    function Value(): Adapter
      reads this
    {
      Adapter(results, prints, executions, stopped)
    }

    method Execute(r: Request, runState: string, h: Handling) returns (reply: Reply, started: bool)
      modifies this
      ensures Outcome(Value(), reply, started) == Perform(cfg, old(Value()), r, runState, h)
    {
      hide MeetsSchema, Refusal, ResultOf;
      started := false;
      if Mismatched(cfg, r) {
        return Deny(r, "correlation_mismatch", "Request is for another exercise run"), false;
      }
      var key := KeyOf(r);
      if key in results {
        if key !in prints || prints[key] != PrintOf(r) {
          return Deny(r, "idempotency_conflict", "Idempotency key was reused for a different action"), false;
        }
        return Answer(results[key].(cached := true)), false;
      }
      var refusal := Refusal(cfg, Value(), r, runState);
      if refusal.Some? {
        return refusal.value, false;
      }
      if r.dryRun {
        RefusalKnows(cfg, Value(), r, runState);
        var result := Result(r.id, r.action, DryRun, true, false, cfg.registry[r.action].effects, None, "",
                             "Dry run passed; handler was not invoked");
        if !MeetsSchema(result) {
          return Raises, false;
        }
        Keep(r, result);
        return Answer(result), false;
      }
      reply := RunHandler(r, h);
      started := true;
    }

    method Keep(r: Request, result: Result)
      modifies this`results, this`prints
      ensures Value() == Store(old(Value()), r, result)
    {
      prints, results := prints[KeyOf(r) := PrintOf(r)], results[KeyOf(r) := result];
    }

    method RunHandler(r: Request, h: Handling) returns (reply: Reply)
      modifies this
      ensures (Value(), reply) == Handle(old(Value()), r, h)
    {
      hide MeetsSchema, ResultOf;
      if h.stopped {
        ActivateFailSafe(r.run);
      }
      var result := ResultOf(r, h);
      if result.None? || !MeetsSchema(result.value) {
        return Raises;
      }
      if result.value.successful {
        executions := executions[r.id := result.value.token];
      }
      Keep(r, result.value);
      reply := Answer(result.value);
    }

    method ActivateFailSafe(run: string)
      modifies this`stopped
      ensures Value() == Stop(old(Value()), run)
    {
      stopped := stopped + {run};
    }
  }
}
