// The help desk as it writes: two guarded appends to a ledger that other producers share. Everything it
// ever wrote is accepted by the validator that later reads it.

module SupportDesk {
  import opened Prelude
  import opened SupportIndex
  import ExerciseEngine
  import Text

  type RunState = ExerciseEngine.RunState

  function StateName(state: RunState): string
  {
    match state
    case Ready => "ready"
    case Running => "running"
    case Paused => "paused"
    case Stopped => "stopped"
    case Completed => "completed"
  }

  datatype Principal = Principal(id: string, role: string)

  /** A request to the desk, as the browser sends it. */
  datatype Op =
    | Ask(run: string, key: string, objective: string, message: string)
    | Answer(run: string, key: string, request: string, kind: string, message: string, scope: seq<string>)

  datatype Receipt = Receipt(run: string, event: string, request: string, replayed: bool)

  datatype Response =
    | Accepted(receipt: Receipt)
    | Rejected    // 409: nothing was appended
    | Unavailable // 503: the event may have been committed

  /** What becomes of one append: stored, not stored, or stored although an error came back. */
  datatype Fate = Stored(id: string, at: string) | NotStored | StoredButRaised(id: string, at: string)

  /** The run, its sequencer and clock, and every run's ledger. `ids` are the primary keys in use. */
  datatype Desk = Desk(exercise: string, run: string, state: RunState, elapsed: int, sequence: nat,
                       ledgers: map<string, seq<Event>>, ids: set<string>)

  function LedgerOf(d: Desk, run: string): seq<Event>
  {
    if run in d.ledgers then d.ledgers[run] else []
  }

  function Ledger(d: Desk): seq<Event>
  {
    LedgerOf(d, d.run)
  }

  // ---------------------------------------------------------------- what is written

  function AskEvent(d: Desk, who: Principal, key: string, objective: string, message: string, id: string,
        at: string): Event
  {
    Event(id, d.exercise, d.run, d.sequence + 1, REQUEST, "control", "participant", COMPONENT,
          Actor("participant", who.id, who.role), "exercise.support.request", Target("support_queue", d.run),
          "success", "facilitator", false, InOrder(OBJECTIVES, [objective]), [], at,
          map["request_key" := Str(key), "objective_id" := Str(objective), "text" := Str(message),
              "elapsed_seconds" := Int(d.elapsed), "run_state" := Str(StateName(d.state))])
  }

  function AnswerEvent(d: Desk, who: Principal, key: string, request: string, kind: string, message: string,
      scope: seq<string>, id: string, at: string): Event
  {
    Event(id, d.exercise, d.run, d.sequence + 1, RESPONSE, "control", "facilitator", COMPONENT,
          Actor("facilitator", who.id, who.role), "exercise.support.respond", Target("support_request", request),
          "success", "facilitator", false, InOrder(OBJECTIVES, scope), [request], at,
          map["request_id" := Str(request), "response_key" := Str(key), "kind" := Str(kind), "text" := Str(message),
              "elapsed_seconds" := Int(d.elapsed), "run_state" := Str(StateName(d.state))])
  }

  predicate Contiguous(events: seq<Event>)
  {
    forall i :: 0 <= i < |events| ==> events[i].sequence == i + 1
  }

  function Store(d: Desk, e: Event): Desk
  {
    d.(sequence := d.sequence + 1, ledgers := d.ledgers[d.run := Ledger(d) + [e]], ids := d.ids + {e.id})
  }

  /** The fail-safe stop that follows a failed append. */
  function Halted(d: Desk): Desk
  {
    if d.state == ExerciseEngine.Completed then d else d.(state := ExerciseEngine.Stopped)
  }

  function ReceiptOf(e: Event, replayed: bool): Receipt
  {
    Receipt(e.run, e.id, if IsRequest(e) then e.id else Answers(e), replayed)
  }

  /** `_append`: `e` is the event built with the id and time of `fate`. */
  function Append(d: Desk, e: Event, fate: Fate): (Desk, Response)
  {
    if !Contiguous(Ledger(d)) || d.sequence != |Ledger(d)| then (d, Rejected)
    else if fate.NotStored? || fate.id in d.ids then (Halted(d.(sequence := d.sequence + 1)), Unavailable)
    else if fate.StoredButRaised? then (Halted(Store(d, e)), Unavailable)
    else (Store(d, e), Accepted(ReceiptOf(e, false)))
  }

  // ---------------------------------------------------------------- retries

  /** The first earlier event under the same kind, actor and key. */
  function Earlier(events: seq<Event>, kind: string, actor: string, field: string, key: string): Option<Event>
  {
    if events == [] then None
    else if events[0].kind == kind && events[0].actor.id == actor && Field(events[0], field) == key then Some(events[0])
    else Earlier(events[1..], kind, actor, field, key)
  }

  predicate SameAsk(e: Event, objective: string, message: string)
  {
    Field(e, "objective_id") == objective && Field(e, "text") == message && e.objectives == [objective]
  }

  predicate SameAnswer(e: Event, request: string, kind: string, message: string, scope: seq<string>)
  {
    Answers(e) == request && Field(e, "kind") == kind && Field(e, "text") == message && e.objectives == scope
  }

  // ---------------------------------------------------------------- the two requests

  /** The records of one requester, in order. */
  function Own(ix: Index, order: seq<string>, who: string): seq<string>
  {
    if order == [] then [] else
    var rest := Own(ix, order[..|order| - 1], who);
    var id := order[|order| - 1];
    if id in ix.table && ix.table[id].requester == who then rest + [id] else rest
  }

  /** No open request of one's own, and both limits respected. */
  predicate MayAsk(ix: Index, who: string)
  {
    var own := Own(ix, ix.order, who);
    && (forall id :: id in own && id in ix.table ==> ix.table[id].response.Some?)
    && |own| < MAX_ACTOR_REQUESTS && |ix.order| < MAX_REQUESTS
  }

  function IdOf(fate: Fate): string
  {
    if fate.NotStored? then "" else fate.id
  }

  function TimeOf(fate: Fate): string
  {
    if fate.NotStored? then "" else fate.at
  }

  /** `request` */
  function DoAsk(d: Desk, who: Principal, op: Op, fate: Fate): (Desk, Response)
    requires op.Ask?
  {
    var message, key := TextOf(Str(op.message), 1024), TextOf(Str(op.key), 128);
    if who.role !in LEARNER_ROLES || op.run != d.run || message.Refused? || key.Refused? || op.objective !in OBJECTIVES
    then (d, Rejected) else
    var ix := Pass(Ledger(d));
    if ix.Refused? then (d, Rejected) else
    var earlier := Earlier(Ledger(d), REQUEST, who.id, "request_key", key.value);
    if earlier.Some? then
      (d, if SameAsk(earlier.value, op.objective, message.value)
          then Accepted(ReceiptOf(earlier.value, true)) else Rejected)
    else if d.state !in {ExerciseEngine.Running, ExerciseEngine.Paused} || !MayAsk(ix.value, who.id) then (d, Rejected)
    else Append(d, AskEvent(d, who, key.value, op.objective, message.value, IdOf(fate), TimeOf(fate)), fate)
  }

  predicate MayAnswer(d: Desk, ix: Index, request: string, kind: string)
  {
    && d.state in {ExerciseEngine.Running, ExerciseEngine.Paused, ExerciseEngine.Stopped}
    && (d.state == ExerciseEngine.Stopped ==> kind == "platform_issue")
    && request in ix.order && request in ix.table && ix.table[request].response.None?
  }

  /** `respond` */
  function DoAnswer(d: Desk, who: Principal, op: Op, fate: Fate): (Desk, Response)
    requires op.Answer?
  {
    var message, request, key :=
      TextOf(Str(op.message), 1024), TextOf(Str(op.request), 128), TextOf(Str(op.key), 128);
    var scope := ScopeOf(op.scope);
    if || who.role !in RESPONDER_ROLES || op.run != d.run || op.kind !in KINDS
       || (who.role == "technical_operator" && op.kind != "platform_issue")
       || message.Refused? || request.Refused? || key.Refused? || scope.Refused?
    then (d, Rejected) else
    var ix := Pass(Ledger(d));
    if ix.Refused? then (d, Rejected) else
    var earlier := Earlier(Ledger(d), RESPONSE, who.id, "response_key", key.value);
    if earlier.Some? then
      (d, if SameAnswer(earlier.value, request.value, op.kind, message.value, scope.value)
          then Accepted(ReceiptOf(earlier.value, true)) else Rejected)
    else if !MayAnswer(d, ix.value, request.value, op.kind) then (d, Rejected)
    else Append(d, AnswerEvent(d, who, key.value, request.value, op.kind, message.value, scope.value,
                               IdOf(fate), TimeOf(fate)), fate)
  }

  function Handle(d: Desk, who: Principal, op: Op, fate: Fate): (Desk, Response)
  {
    if op.Ask? then DoAsk(d, who, op, fate) else DoAnswer(d, who, op, fate)
  }

  // ---------------------------------------------------------------- everything else that happens to the ledger

  datatype Step =
    | Serve(who: Principal, op: Op, fate: Fate)
    | Other(event: Event) | OtherLost // another producer's event, stored or not
    | Play(elapsed: int, state: RunState) // the exercise goes on
    | NewRun(run: string)

  /** What the rest of the platform promises: its own component name and kinds, the shared sequencer, a
      clock that does not go back within a run, and unused run ids. */
  predicate Lawful(d: Desk, step: Step)
  {
    match step
    case Serve(who, op, fate) => true
    case Other(e) =>
      e.id !in d.ids && e.sequence == d.sequence + 1 && !IsSupport(e) && e.component != COMPONENT
    case OtherLost => true
    case Play(elapsed, state) => d.elapsed <= elapsed
    case NewRun(run) => run !in d.ledgers && run != d.run
  }

  function Next(d: Desk, step: Step): Desk
    requires Lawful(d, step)
  {
    match step
    case Serve(who, op, fate) => Handle(d, who, op, fate).0
    case Other(e) => Store(d, e)
    case OtherLost => d.(sequence := d.sequence + 1)
    case Play(elapsed, state) => d.(elapsed := elapsed, state := state)
    case NewRun(run) => d.(run := run, state := ExerciseEngine.Ready, elapsed := 0, sequence := 0)
  }

  function Fresh(exercise: string, run: string): Desk
  {
    Desk(exercise, run, ExerciseEngine.Ready, 0, 0, map[], {})
  }

  // ---------------------------------------------------------------- the invariant

  /** A support event as this desk writes it: keys and texts are stored stripped. */
  predicate Made(exercise: string, run: string, e: Event)
  {
    && e.exercise == exercise && e.run == run && ShapeOk(e)
    && Field(e, if IsRequest(e) then "request_key" else "response_key") == KeyOf(e).key
  }

  ghost predicate AllMade(exercise: string, run: string, events: seq<Event>)
  {
    forall e :: e in events && IsSupport(e) ==> Made(exercise, run, e)
  }

  ghost predicate KnownIds(ids: set<string>, events: seq<Event>)
  {
    forall e :: e in events ==> e.id in ids
  }

  ghost predicate LedgerOk(d: Desk, run: string)
    requires run in d.ledgers
  {
    Pass(d.ledgers[run]).Ok? && AllMade(d.exercise, run, d.ledgers[run]) && KnownIds(d.ids, d.ledgers[run])
  }

  /** The current ledger lags neither the sequencer nor the clock. */
  ghost predicate InStep(d: Desk)
  {
    && 0 <= d.elapsed
    && forall e :: e in Ledger(d) ==> e.sequence <= d.sequence && (IsSupport(e) ==> ElapsedOf(e) <= d.elapsed)
  }

  ghost predicate DeskOk(d: Desk)
  {
    (forall run :: run in d.ledgers ==> LedgerOk(d, run)) && InStep(d)
  }

  // ---------------------------------------------------------------- text survives its own check

  lemma StripIsOk(s: string, maximum: nat)
    requires TextOk(s, maximum)
    ensures TextOk(Text.Strip(s), maximum) && Text.Strip(Text.Strip(s)) == Text.Strip(s)
  {
    Text.StripTrims(s);
    Text.StripLeftTrims(s);
    Text.StripRightTrims(Text.StripLeft(s));
    var t := Text.Strip(s);
    var from := |s| - |Text.StripLeft(s)|;
    forall i | 0 <= i < |t| ensures t[i] >= ' ' || t[i] in {'\n', '\r', '\t'} {
      assert t[i] == Text.StripLeft(s)[i] == s[from + i];
    }
  }

  lemma {:induction false} InOrderIs(all: seq<string>, values: seq<string>)
    ensures forall v :: v in InOrder(all, values) <==> v in all && v in values
    ensures |InOrder(all, values)| <= |all|
  {
    if all != [] {
      InOrderIs(all[1..], values);
      assert all == [all[0]] + all[1..];
    }
  }

  lemma {:induction false} InOrderDistinct(all: seq<string>, values: seq<string>)
    requires Distinct(all)
    ensures Distinct(InOrder(all, values))
  {
    if all != [] {
      var rest := InOrder(all[1..], values);
      assert Distinct(all[1..]) by {
        forall i, j | 0 <= i < j < |all[1..]| ensures all[1..][i] != all[1..][j] {
          assert all[i + 1] != all[j + 1];
        }
      }
      InOrderDistinct(all[1..], values);
      InOrderIs(all[1..], values);
      forall k | 0 <= k < |rest| ensures rest[k] != all[0] {
        assert rest[k] in all[1..];
        var n :| 0 <= n < |all[1..]| && all[1..][n] == rest[k];
        assert all[n + 1] == rest[k];
      }
    }
  }

  lemma {:induction false} InOrderDependsOnMembers(all: seq<string>, a: seq<string>, b: seq<string>)
    requires forall v :: v in a <==> v in b
    ensures InOrder(all, a) == InOrder(all, b)
  {
    if all != [] {
      InOrderDependsOnMembers(all[1..], a, b);
    }
  }

  /** A validated scope is non-empty, distinct, within the objectives, and in their order already. */
  lemma ScopeIsOk(values: seq<string>)
    requires ObjectivesOk(values)
    ensures ObjectivesOk(InOrder(OBJECTIVES, values))
    ensures InOrder(OBJECTIVES, InOrder(OBJECTIVES, values)) == InOrder(OBJECTIVES, values)
  {
    InOrderIs(OBJECTIVES, values);
    InOrderDistinct(OBJECTIVES, values);
    InOrderDependsOnMembers(OBJECTIVES, InOrder(OBJECTIVES, values), values);
    assert values[0] in values;
    assert InOrder(OBJECTIVES, values) != [];
  }

  lemma {:induction false} InOrderOne(all: seq<string>, value: string)
    requires Distinct(all)
    ensures InOrder(all, [value]) == if value in all then [value] else []
  {
    if all != [] {
      var rest := all[1..];
      assert all == [all[0]] + rest;
      assert Distinct(rest) && all[0] !in rest by {
        forall i, j | 0 <= i < j < |rest| ensures rest[i] != rest[j] {
          assert all[i + 1] != all[j + 1];
        }
      }
      InOrderOne(rest, value);
    }
  }

  // ---------------------------------------------------------------- what the scans find

  lemma {:induction false} EarlierFinds(events: seq<Event>, kind: string, actor: string, field: string, key: string)
    ensures var r := Earlier(events, kind, actor, field, key);
            if r.Some? then
              r.value in events && r.value.kind == kind && r.value.actor.id == actor && Field(r.value, field) == key
            else forall e :: e in events && e.kind == kind && e.actor.id == actor ==> Field(e, field) != key
  {
    if events != [] {
      EarlierFinds(events[1..], kind, actor, field, key);
      assert events == [events[0]] + events[1..];
    }
  }

  lemma {:induction false} OwnAre(ix: Index, order: seq<string>, who: string)
    ensures forall id :: id in Own(ix, order, who) <==> id in order && id in ix.table && ix.table[id].requester == who
  {
    if order != [] {
      var init := order[..|order| - 1];
      OwnAre(ix, init, who);
      assert order == init + [order[|order| - 1]];
    }
  }

  /** The participant's records are the participant's requests in the ledger. */
  lemma {:induction false} OwnCount(ix: Index, events: seq<Event>, who: string)
    requires forall p :: p in events && IsRequest(p) ==> p.id in ix.table && ix.table[p.id].requester == p.actor.id
    ensures |Own(ix, Requests(events), who)| == CountBy(events, who)
  {
    if events != [] {
      var init, e := events[..|events| - 1], events[|events| - 1];
      OwnCount(ix, init, who);
      if IsRequest(e) {
        assert Requests(events)[..|Requests(events)| - 1] == Requests(init);
      }
    }
  }

  lemma {:induction false} RequestsAre(events: seq<Event>)
    ensures forall id :: id in Requests(events) <==> exists p :: p in events && IsRequest(p) && p.id == id
  {
    if events != [] {
      var init, e := events[..|events| - 1], events[|events| - 1];
      RequestsAre(init);
      assert events == init + [e];
      forall id ensures id in Requests(events) <==> exists p :: p in events && IsRequest(p) && p.id == id {
        if id in Requests(init) {
          var p :| p in init && IsRequest(p) && p.id == id;
          assert p in events;
        }
      }
    }
  }

  // ---------------------------------------------------------------- a new event fits

  /** The current ledger, which may not have its first event yet. */
  ghost predicate Current(d: Desk, ix: Index)
  {
    && Pass(Ledger(d)) == Ok(ix) && Means(ix, Ledger(d)) && AllMade(d.exercise, d.run, Ledger(d))
    && KnownIds(d.ids, Ledger(d)) && InStep(d)
  }

  lemma CurrentIs(d: Desk)
    requires DeskOk(d)
    ensures Pass(Ledger(d)).Ok? && Current(d, Pass(Ledger(d)).value)
  {
    hide Pass, Means, Made;
    assert Pass([]) == Ok(EMPTY) by { PassEmpty(); }
    AcceptsIffWellFormed(Ledger(d));
  }

  lemma PassEmpty()
    ensures Pass([]) == Ok(EMPTY)
  {
  }

  /** The part of `Fits` that is common to both: scope, sequence and a new key. */
  lemma NewKeyFits(d: Desk, ix: Index, e: Event)
    requires Current(d, ix) && e.exercise == d.exercise && e.run == d.run && e.sequence == d.sequence + 1
    requires KeyOf(e).kind == e.kind && IsSupport(e)
    requires forall p :: p in Ledger(d) && p.kind == e.kind && p.actor.id == e.actor.id ==>
               Field(p, if IsRequest(p) then "request_key" else "response_key") != KeyOf(e).key
    ensures (ix.scope.None? || ix.scope.value == (e.exercise, e.run)) && e.sequence > ix.last && KeyOf(e) !in ix.keys
  {
    hide Pass, ShapeOk, TableMeans, RepliesMean, PendingMeans, ReplyOf, RecordOf, Requests, CountBy, Field;
    forall p | p in Ledger(d) && IsSupport(p) ensures KeyOf(p) != KeyOf(e) {
      assert Made(d.exercise, d.run, p);
    }
    if ix.scope.Some? {
      var p :| p in Ledger(d) && IsSupport(p) && ix.scope == Some((p.exercise, p.run)) && p.sequence == ix.last;
      assert Made(d.exercise, d.run, p);
    }
  }

  lemma MayAskFits(d: Desk, ix: Index, who: string, id: string)
    requires Current(d, ix) && MayAsk(ix, who) && id !in d.ids
    ensures who !in ix.pending && id !in ix.table && CountOf(ix, who) < MAX_ACTOR_REQUESTS && |ix.order| < MAX_REQUESTS
  {
    hide Pass, ShapeOk, Made, KeysMean, ScopeMeans, RepliesMean, ReplyOf, Requests, CountBy, Bare, RecordOf;
    var events := Ledger(d);
    OwnAre(ix, ix.order, who);
    RequestsAre(events);
    OwnCount(ix, events, who);
    assert forall p :: p in events && IsRequest(p) ==> p.id != id;
    forall open | Open(ix, open) ensures ix.table[open].requester != who {
      assert open in ix.order;
    }
  }

  lemma AskEventShape(d: Desk, who: Principal, key: string, objective: string, message: string, id: string, at: string)
    requires who.role in LEARNER_ROLES && objective in OBJECTIVES && 0 <= d.elapsed
    requires TextOk(message, 1024) && TextOk(key, 128) && Text.Strip(key) == key
    requires d.state in {ExerciseEngine.Running, ExerciseEngine.Paused}
    ensures var e := AskEvent(d, who, key, objective, message, id, at);
            && Made(d.exercise, d.run, e) && IsRequest(e) && KeyOf(e) == Key(REQUEST, who.id, key)
            && ElapsedOf(e) == d.elapsed && SameAsk(e, objective, message)
  {
    hide Text.Strip, TextOk, InOrder;
    InOrderOne(OBJECTIVES, objective);
    assert REQUEST[|REQUEST| - 3] == 't';
  }

  lemma AnswerEventShape(d: Desk, who: Principal, key: string, request: string, kind: string, message: string,
      scope: seq<string>, id: string, at: string)
    requires who.role in RESPONDER_ROLES && kind in KINDS && 0 <= d.elapsed
    requires who.role == "technical_operator" ==> kind == "platform_issue"
    requires TextOk(message, 1024) && TextOk(key, 128) && Text.Strip(key) == key
    requires ObjectivesOk(scope) && InOrder(OBJECTIVES, scope) == scope
    requires d.state in {ExerciseEngine.Running, ExerciseEngine.Paused, ExerciseEngine.Stopped}
    requires d.state == ExerciseEngine.Stopped ==> kind == "platform_issue"
    ensures var e := AnswerEvent(d, who, key, request, kind, message, scope, id, at);
            && Made(d.exercise, d.run, e) && IsReply(e) && !IsRequest(e) && KeyOf(e) == Key(RESPONSE, who.id, key)
            && ElapsedOf(e) == d.elapsed && SameAnswer(e, request, kind, message, scope)
  {
    hide Text.Strip, TextOk, InOrder;
    assert REQUEST[|REQUEST| - 3] != RESPONSE[|RESPONSE| - 3] || |REQUEST| != |RESPONSE|;
  }

  // ---------------------------------------------------------------- every request keeps the ledger acceptable

  /** The event is the one that `who` asked for with `op`: kind, actor, run, key and payload, stripped. */
  predicate Matches(e: Event, who: Principal, op: Op)
  {
    && e.actor.id == who.id && e.run == op.run
    && match op
       case Ask(_, key, objective, message) =>
         IsRequest(e) && KeyOf(e) == Key(REQUEST, who.id, Text.Strip(key)) && SameAsk(e, objective, Text.Strip(message))
       case Answer(_, key, request, kind, message, scope) =>
         IsReply(e) && KeyOf(e) == Key(RESPONSE, who.id, Text.Strip(key))
         && SameAnswer(e, Text.Strip(request), kind, Text.Strip(message), InOrder(OBJECTIVES, scope))
  }

  /** Every ledger is as it was, or the current one has one event more. */
  ghost predicate Adds(d: Desk, a: Desk, e: Event)
  {
    && a.exercise == d.exercise && a.run == d.run
    && ((a.ledgers == d.ledgers && a.ids == d.ids)
        || (a.ledgers == d.ledgers[d.run := Ledger(d) + [e]] && a.ids == d.ids + {e.id} && e.id !in d.ids))
  }

  lemma PassGrows(events: seq<Event>, e: Event)
    requires Pass(events).Ok? && Visit(Pass(events).value, e).Ok?
    ensures Pass(events + [e]).Ok?
  {
    assert (events + [e])[..|events|] == events;
  }

  lemma StoreKeeps(d: Desk, e: Event)
    requires DeskOk(d) && e.sequence == d.sequence + 1
    requires Pass(Ledger(d)).Ok? && Visit(Pass(Ledger(d)).value, e).Ok?
    requires IsSupport(e) ==> Made(d.exercise, d.run, e) && ElapsedOf(e) <= d.elapsed
    ensures DeskOk(Store(d, e))
  {
    hide Pass, Visit, Made, ElapsedOf, IsSupport;
    var a := Store(d, e);
    CurrentIs(d);
    PassGrows(Ledger(d), e);
    forall run | run in a.ledgers ensures LedgerOk(a, run) {
      if run != d.run {
        assert LedgerOk(d, run);
      }
    }
  }

  lemma AsideKeeps(d: Desk, a: Desk)
    requires DeskOk(d) && a.ledgers == d.ledgers && a.exercise == d.exercise && a.ids == d.ids
    requires a.run == d.run && a.sequence >= d.sequence && a.elapsed >= d.elapsed
    ensures DeskOk(a)
  {
    hide Pass, Made, ElapsedOf, IsSupport;
    forall run | run in a.ledgers ensures LedgerOk(a, run) {
      assert LedgerOk(d, run);
    }
  }

  lemma AppendKeeps(d: Desk, e: Event, fate: Fate)
    requires DeskOk(d) && e.sequence == d.sequence + 1 && IsSupport(e) && Made(d.exercise, d.run, e)
    requires ElapsedOf(e) <= d.elapsed && e.id == IdOf(fate)
    requires e.id !in d.ids && !fate.NotStored? ==> Pass(Ledger(d)).Ok? && Visit(Pass(Ledger(d)).value, e).Ok?
    ensures var (a, r) := Append(d, e, fate);
            && DeskOk(a) && Adds(d, a, e)
            && (r.Accepted? ==> e in Ledger(a) && r.receipt == ReceiptOf(e, false))
            && (r.Rejected? ==> a == d)
  {
    hide Pass, Visit, Made, ElapsedOf, IsSupport, DeskOk, Contiguous;
    var a := Append(d, e, fate).0;
    if Contiguous(Ledger(d)) && d.sequence == |Ledger(d)| {
      if fate.NotStored? || fate.id in d.ids {
        AsideKeeps(d, a);
      } else {
        StoreKeeps(d, e);
        StoreKeepsInStep(d, e);
        AsideKeeps(Store(d, e), a);
      }
    }
  }

  lemma StoreKeepsInStep(d: Desk, e: Event)
    ensures Store(d, e).run == d.run && Store(d, e).elapsed == d.elapsed && Store(d, e).exercise == d.exercise
    ensures Ledger(Store(d, e)) == Ledger(d) + [e]
  {
  }

  /** The receipt names an event in the ledger of the operation's run that is the operation's. */
  ghost predicate Confirmed(d: Desk, who: Principal, op: Op, receipt: Receipt)
  {
    exists e :: e in LedgerOf(d, op.run) && Matches(e, who, op) && receipt.event == e.id && receipt.run == op.run
  }

  ghost predicate Writes(d: Desk, a: Desk, who: Principal, op: Op)
  {
    exists e :: Matches(e, who, op) && op.run == d.run && Adds(d, a, e)
  }

  /** What any request does: nothing, or one event that is its own; an accepted one is confirmed. */
  ghost predicate Served(d: Desk, a: Desk, r: Response, who: Principal, op: Op)
  {
    && DeskOk(a) && (a == d || Writes(d, a, who, op))
    && (r.Accepted? ==> Confirmed(a, who, op, r.receipt))
    && (r.Rejected? ==> a == d)
  }

  lemma ReplayServed(d: Desk, ix: Index, e: Event, who: Principal, op: Op)
    requires DeskOk(d) && Current(d, ix) && e in Ledger(d) && e.actor.id == who.id && op.run == d.run
    requires match op
             case Ask(_, key, objective, message) =>
               IsRequest(e) && Field(e, "request_key") == Text.Strip(key) && SameAsk(e, objective, Text.Strip(message))
             case Answer(_, key, request, kind, message, scope) =>
               IsReply(e) && Field(e, "response_key") == Text.Strip(key)
               && SameAnswer(e, Text.Strip(request), kind, Text.Strip(message), InOrder(OBJECTIVES, scope))
    ensures Served(d, d, Accepted(ReceiptOf(e, true)), who, op)
  {
    hide DeskOk, Means, Pass, SameAsk, SameAnswer, ShapeOk, Text.Strip, Field, InOrder;
    assert Made(d.exercise, d.run, e);
    NotBoth(e);
    assert Matches(e, who, op);
  }

  lemma AppendServed(d: Desk, e: Event, fate: Fate, who: Principal, op: Op)
    requires DeskOk(d) && e.sequence == d.sequence + 1 && IsSupport(e) && Made(d.exercise, d.run, e)
    requires ElapsedOf(e) <= d.elapsed && e.id == IdOf(fate) && Matches(e, who, op) && op.run == d.run
    requires e.id !in d.ids && !fate.NotStored? ==> Pass(Ledger(d)).Ok? && Visit(Pass(Ledger(d)).value, e).Ok?
    ensures Served(d, Append(d, e, fate).0, Append(d, e, fate).1, who, op)
  {
    hide Pass, Visit, Made, ElapsedOf, IsSupport, DeskOk, Append, KeyOf, SameAsk, SameAnswer;
    AppendKeeps(d, e, fate);
    var (a, r) := Append(d, e, fate);
    assert Adds(d, a, e);
    assert Writes(d, a, who, op);
  }

  lemma AskServed(d: Desk, who: Principal, op: Op, fate: Fate)
    requires DeskOk(d) && op.Ask?
    ensures Served(d, DoAsk(d, who, op, fate).0, DoAsk(d, who, op, fate).1, who, op)
  {
    hide Pass, Visit, Made, DeskOk, Means, Append, Served, MayAsk, Text.Strip, TextOk, AskEvent, SameAsk, KeyOf;
    CurrentIs(d);
    RejectedServed(d, who, op);
    var message, key := TextOf(Str(op.message), 1024), TextOf(Str(op.key), 128);
    if who.role in LEARNER_ROLES && op.run == d.run && message.Ok? && key.Ok? && op.objective in OBJECTIVES {
      StripIsOk(op.message, 1024);
      StripIsOk(op.key, 128);
      var ix := Pass(Ledger(d)).value;
      EarlierFinds(Ledger(d), REQUEST, who.id, "request_key", key.value);
      var earlier := Earlier(Ledger(d), REQUEST, who.id, "request_key", key.value);
      if earlier.Some? {
        if SameAsk(earlier.value, op.objective, message.value) {
          ReplayServed(d, ix, earlier.value, who, op);
        }
      } else if d.state in {ExerciseEngine.Running, ExerciseEngine.Paused} && MayAsk(ix, who.id) {
        AskFits(d, ix, who, key.value, op.objective, message.value, fate);
        var e := AskEvent(d, who, key.value, op.objective, message.value, IdOf(fate), TimeOf(fate));
        AskEventShape(d, who, key.value, op.objective, message.value, IdOf(fate), TimeOf(fate));
        AppendServed(d, e, fate, who, op);
      }
    }
  }

  lemma RejectedServed(d: Desk, who: Principal, op: Op)
    requires DeskOk(d)
    ensures Served(d, d, Rejected, who, op)
  {
  }

  lemma AskFits(d: Desk, ix: Index, who: Principal, key: string, objective: string, message: string, fate: Fate)
    requires DeskOk(d) && Current(d, ix) && MayAsk(ix, who.id) && who.role in LEARNER_ROLES && objective in OBJECTIVES
    requires TextOk(message, 1024) && TextOk(key, 128) && Text.Strip(key) == key
    requires d.state in {ExerciseEngine.Running, ExerciseEngine.Paused}
    requires Earlier(Ledger(d), REQUEST, who.id, "request_key", key).None?
    ensures var e := AskEvent(d, who, key, objective, message, IdOf(fate), TimeOf(fate));
            && e.sequence == d.sequence + 1 && e.id == IdOf(fate) && e.run == d.run && e.actor.id == who.id
            && (IdOf(fate) !in d.ids ==> Visit(ix, e).Ok?)
  {
    hide Pass, DeskOk, Means, MayAsk, Text.Strip, TextOk, SameAsk, ShapeOk, KeyOf, Field, Enter;
    var e := AskEvent(d, who, key, objective, message, IdOf(fate), TimeOf(fate));
    AskEventShape(d, who, key, objective, message, IdOf(fate), TimeOf(fate));
    EarlierFinds(Ledger(d), REQUEST, who.id, "request_key", key);
    NewKeyFits(d, ix, e);
    if IdOf(fate) !in d.ids {
      MayAskFits(d, ix, who.id, IdOf(fate));
    }
  }

  lemma AnswerServed(d: Desk, who: Principal, op: Op, fate: Fate)
    requires DeskOk(d) && op.Answer?
    ensures Served(d, DoAnswer(d, who, op, fate).0, DoAnswer(d, who, op, fate).1, who, op)
  {
    hide Pass, Visit, Made, DeskOk, Means, Append, Served, MayAnswer, Text.Strip, TextOk, AnswerEvent, SameAnswer,
      KeyOf, ObjectivesOk, InOrder;
    CurrentIs(d);
    RejectedServed(d, who, op);
    var message, request, key :=
      TextOf(Str(op.message), 1024), TextOf(Str(op.request), 128), TextOf(Str(op.key), 128);
    var scope := ScopeOf(op.scope);
    if && who.role in RESPONDER_ROLES && op.run == d.run && op.kind in KINDS
       && (who.role == "technical_operator" ==> op.kind == "platform_issue")
       && message.Ok? && request.Ok? && key.Ok? && scope.Ok?
    {
      StripIsOk(op.message, 1024);
      StripIsOk(op.key, 128);
      ScopeIsOk(op.scope);
      var ix := Pass(Ledger(d)).value;
      EarlierFinds(Ledger(d), RESPONSE, who.id, "response_key", key.value);
      var earlier := Earlier(Ledger(d), RESPONSE, who.id, "response_key", key.value);
      if earlier.Some? {
        if SameAnswer(earlier.value, request.value, op.kind, message.value, scope.value) {
          ReplayServed(d, ix, earlier.value, who, op);
        }
      } else if MayAnswer(d, ix, request.value, op.kind) {
        AnswerFits(d, ix, who, key.value, request.value, op.kind, message.value, scope.value, fate);
        var e := AnswerEvent(d, who, key.value, request.value, op.kind, message.value, scope.value, IdOf(fate),
            TimeOf(fate));
        AppendServed(d, e, fate, who, op);
      }
    }
  }

  lemma {:induction false} AnswerFits(d: Desk, ix: Index, who: Principal, key: string, request: string, kind: string,
        message: string, scope: seq<string>, fate: Fate)
    requires DeskOk(d) && Current(d, ix) && MayAnswer(d, ix, request, kind)
    requires who.role in RESPONDER_ROLES && kind in KINDS
    requires who.role == "technical_operator" ==> kind == "platform_issue"
    requires TextOk(message, 1024) && TextOk(key, 128) && Text.Strip(key) == key
    requires ObjectivesOk(scope) && InOrder(OBJECTIVES, scope) == scope
    requires Earlier(Ledger(d), RESPONSE, who.id, "response_key", key).None?
    ensures var e := AnswerEvent(d, who, key, request, kind, message, scope, IdOf(fate), TimeOf(fate));
            && e.sequence == d.sequence + 1 && e.id == IdOf(fate) && e.run == d.run && e.actor.id == who.id
            && Made(d.exercise, d.run, e) && IsReply(e) && KeyOf(e) == Key(RESPONSE, who.id, key)
            && ElapsedOf(e) == d.elapsed && SameAnswer(e, request, kind, message, scope)
            && Visit(ix, e).Ok?
  {
    hide Pass, DeskOk, Means, Text.Strip, TextOk, SameAnswer, ShapeOk, KeyOf, Field, Enter, ObjectivesOk, InOrder,
      AnswerEvent;
    var e := AnswerEvent(d, who, key, request, kind, message, scope, IdOf(fate), TimeOf(fate));
    AnswerEventShape(d, who, key, request, kind, message, scope, IdOf(fate), TimeOf(fate));
    AnswerEventFields(d, who, key, request, kind, message, scope, IdOf(fate), TimeOf(fate));
    EarlierFinds(Ledger(d), RESPONSE, who.id, "response_key", key);
    forall p | p in Ledger(d) && p.kind == e.kind && p.actor.id == e.actor.id
      ensures Field(p, if IsRequest(p) then "request_key" else "response_key") != KeyOf(e).key {
      NotBoth(p);
    }
    NewKeyFits(d, ix, e);
    RecordIsPast(d, ix, request);
  }

  lemma AnswerEventFields(d: Desk, who: Principal, key: string, request: string, kind: string, message: string,
      scope: seq<string>, id: string, at: string)
    ensures var e := AnswerEvent(d, who, key, request, kind, message, scope, id, at);
            && e.sequence == d.sequence + 1 && e.id == id && e.run == d.run && e.exercise == d.exercise
            && e.actor.id == who.id && Answers(e) == request
  {
  }

  /** The clock has not gone back since the request. */
  lemma RecordIsPast(d: Desk, ix: Index, request: string)
    requires Current(d, ix) && request in ix.table
    ensures ix.table[request].elapsed <= d.elapsed
  {
    hide Pass, AllMade, KeysMean, ScopeMeans, RepliesMean, PendingMeans, Requests, CountBy, Answered;
    var p :| p in Ledger(d) && IsRequest(p) && p.id == request;
    assert Bare(ix.table[request]) == RecordOf(p);
  }

  lemma HandleServed(d: Desk, who: Principal, op: Op, fate: Fate)
    requires DeskOk(d)
    ensures Served(d, Handle(d, who, op, fate).0, Handle(d, who, op, fate).1, who, op)
  {
    hide DoAsk, DoAnswer, Served, DeskOk;
    if op.Ask? {
      AskServed(d, who, op, fate);
    } else {
      AnswerServed(d, who, op, fate);
    }
  }

  // ---------------------------------------------------------------- every run

  lemma NextKeeps(d: Desk, step: Step)
    requires DeskOk(d) && Lawful(d, step)
    ensures DeskOk(Next(d, step))
  {
    hide Pass, Made, Handle, Visit, ElapsedOf, DeskOk, Served;
    match step {
      case Serve(who, op, fate) =>
        HandleServed(d, who, op, fate);
        ServedOk(d, Handle(d, who, op, fate).0, Handle(d, who, op, fate).1, who, op);
      case Other(e) =>
        CurrentIs(d);
        AsideVisit(Pass(Ledger(d)).value, e);
        StoreKeeps(d, e);
      case OtherLost => AsideKeeps(d, Next(d, step));
      case Play(elapsed, state) => AsideKeeps(d, Next(d, step));
      case NewRun(run) => NewRunKeeps(d, run);
    }
  }

  lemma ServedOk(d: Desk, a: Desk, r: Response, who: Principal, op: Op)
    requires Served(d, a, r, who, op)
    ensures DeskOk(a) && (r.Accepted? ==> Confirmed(a, who, op, r.receipt))
  {
  }

  lemma AsideVisit(ix: Index, e: Event)
    requires !IsSupport(e) && e.component != COMPONENT
    ensures Visit(ix, e).Ok?
  {
  }

  lemma NewRunKeeps(d: Desk, run: string)
    requires DeskOk(d) && run !in d.ledgers
    ensures DeskOk(d.(run := run, state := ExerciseEngine.Ready, elapsed := 0, sequence := 0))
  {
    hide Pass, Made, ElapsedOf;
    var a := d.(run := run, state := ExerciseEngine.Ready, elapsed := 0, sequence := 0);
    forall r | r in a.ledgers ensures LedgerOk(a, r) {
      assert LedgerOk(d, r);
    }
  }

  function Steps(d: Desk, steps: seq<Step>): Desk
  {
    if steps == [] then d else
    var before := Steps(d, steps[..|steps| - 1]);
    if Lawful(before, steps[|steps| - 1]) then Next(before, steps[|steps| - 1]) else before
  }

  lemma {:induction false} StepsKeep(d: Desk, steps: seq<Step>)
    requires DeskOk(d)
    ensures DeskOk(Steps(d, steps))
  {
    hide DeskOk, Next, Lawful;
    if steps != [] {
      StepsKeep(d, steps[..|steps| - 1]);
      if Lawful(Steps(d, steps[..|steps| - 1]), steps[|steps| - 1]) {
        NextKeeps(Steps(d, steps[..|steps| - 1]), steps[|steps| - 1]);
      }
    }
  }

  lemma FreshOk(exercise: string, run: string)
    ensures DeskOk(Fresh(exercise, run))
  {
  }

  /** Writer and validator agree: whatever was asked and answered, whatever failed, whatever else was
      appended and however often the run was reset, the validator accepts every run's ledger. */
  lemma {:induction false} EveryLedgerIsAccepted(exercise: string, run: string, steps: seq<Step>, which: string)
    ensures var d := Steps(Fresh(exercise, run), steps);
            Pass(LedgerOf(d, which)).Ok? && WellFormed(LedgerOf(d, which))
  {
    hide Pass, WellFormed, Steps, Made;
    var d := Steps(Fresh(exercise, run), steps);
    FreshOk(exercise, run);
    StepsKeep(Fresh(exercise, run), steps);
    PassEmpty();
    if which in d.ledgers {
      assert LedgerOk(d, which);
    }
    AcceptsIffWellFormed(LedgerOf(d, which));
  }

  // ---------------------------------------------------------------- a retry is answered, whatever has happened since

  /** What the desk checks before it looks at the ledger or at the run state. */
  predicate WellPut(who: Principal, op: Op)
  {
    match op
    case Ask(_, key, objective, message) =>
      who.role in LEARNER_ROLES && TextOk(message, 1024) && TextOk(key, 128) && objective in OBJECTIVES
    case Answer(_, key, request, kind, message, scope) =>
      && who.role in RESPONDER_ROLES && kind in KINDS && (who.role == "technical_operator" ==> kind == "platform_issue")
      && TextOk(message, 1024) && TextOk(request, 128) && TextOk(key, 128) && ObjectivesOk(scope)
  }

  /** Once recorded, a message is confirmed to every retry within its run, as a replay and without a
      further event, also when the run has been paused, stopped or completed since. */
  lemma {:induction false} RetryConfirms(d: Desk, who: Principal, op: Op, fate: Fate, i: nat)
    requires DeskOk(d) && WellPut(who, op) && op.run == d.run
    requires i < |Ledger(d)| && Matches(Ledger(d)[i], who, op)
    ensures Handle(d, who, op, fate) == (d, Accepted(ReceiptOf(Ledger(d)[i], true)))
  {
    hide Pass, DeskOk, Means, Text.Strip, TextOk, ObjectivesOk, InOrder, SameAsk, SameAnswer, ShapeOk, ReceiptOf,
      Append,
      MayAsk, MayAnswer, Field, AskEvent, AnswerEvent;
    var events, e := Ledger(d), Ledger(d)[i];
    CurrentIs(d);
    NotBoth(e);
    var kind, field := if op.Ask? then REQUEST else RESPONSE, if op.Ask? then "request_key" else "response_key";
    var key := Text.Strip(op.key);
    EarlierFinds(events, kind, who.id, field, key);
    assert Made(d.exercise, d.run, e);
    var earlier := Earlier(events, kind, who.id, field, key);
    assert earlier.Some?;
    NotBoth(earlier.value);
    assert Made(d.exercise, d.run, earlier.value);
    assert KeyOf(earlier.value) == KeyOf(e);
    SameKeySameEvent(events, e, earlier.value);
  }

  lemma SameKeySameEvent(events: seq<Event>, a: Event, b: Event)
    requires Pass(events).Ok? && a in events && b in events && IsSupport(a) && IsSupport(b) && KeyOf(a) == KeyOf(b)
    ensures a == b
  {
    hide Pass, ShapeOk, KeyOf, IsSupport;
    AcceptsIffWellFormed(events);
    var i :| 0 <= i < |events| && events[i] == a;
    var j :| 0 <= j < |events| && events[j] == b;
    KeyAt(events, i, j);
    KeyAt(events, j, i);
  }

  /** No two events of an accepted ledger carry the same actor, kind and key. */
  lemma KeyAt(events: seq<Event>, i: nat, j: nat)
    requires WellFormed(events) && i < |events| && j < |events| && IsSupport(events[i]) && IsSupport(events[j])
    ensures i < j ==> KeyOf(events[i]) != KeyOf(events[j])
  {
    hide ShapeOk, KeyOf;
    if i < j {
      assert Admissible(events[..j], events[j]);
      assert events[..j][i] == events[i];
    }
  }

  // ---------------------------------------------------------------- when a new message is taken

  /** Read off the ledger: every question of this participant has been answered, and both limits hold. */
  ghost predicate FreeToAsk(events: seq<Event>, who: string)
  {
    && (forall p :: p in events && IsRequest(p) && p.actor.id == who ==> Answered(events, p.id))
    && CountBy(events, who) < 10 && |Requests(events)| < 50
  }

  lemma MayAskIff(d: Desk, ix: Index, who: string)
    requires Current(d, ix)
    ensures MayAsk(ix, who) <==> FreeToAsk(Ledger(d), who)
  {
    hide Pass, AllMade, KeysMean, ScopeMeans, RepliesMean, PendingMeans, Requests, CountBy, Bare, RecordOf, Answered,
      IsRequest;
    var events := Ledger(d);
    OwnAre(ix, ix.order, who);
    RequestsAre(events);
    OwnCount(ix, events, who);
    var own := Own(ix, ix.order, who);
    forall p | p in events && IsRequest(p) && p.actor.id == who ensures p.id in own {
      assert p.id in ix.order;
    }
    forall id | id in own ensures exists p :: p in events && IsRequest(p) && p.id == id && p.actor.id == who {
      var p :| p in events && IsRequest(p) && p.id == id;
      assert Bare(ix.table[p.id]) == RecordOf(p);
    }
  }

  /** The shared ledger is whole: numbered 1 to n, with the sequencer at n. */
  predicate Whole(d: Desk)
  {
    Contiguous(Ledger(d)) && d.sequence == |Ledger(d)|
  }

  /** No event of that kind by that actor carries the key yet. */
  ghost predicate NewKey(events: seq<Event>, kind: string, actor: string, field: string, key: string)
  {
    forall e :: e in events && e.kind == kind && e.actor.id == actor ==> Field(e, field) != key
  }

  /** A question under a new key is recorded exactly if it is well put, in live play of its run, and its
      participant is free to ask; then it is the one event the ledger gains. */
  lemma NewQuestionIsRecordedIff(d: Desk, who: Principal, op: Op, id: string, at: string)
    requires DeskOk(d) && Whole(d) && op.Ask? && id !in d.ids
    requires NewKey(Ledger(d), REQUEST, who.id, "request_key", Text.Strip(op.key))
    ensures var (a, r) := DoAsk(d, who, op, Stored(id, at));
            && (r.Accepted? <==>
                  WellPut(who, op) && op.run == d.run && d.state in {ExerciseEngine.Running, ExerciseEngine.Paused}
                  && FreeToAsk(Ledger(d), who.id))
            && (r.Accepted? ==> exists e :: Ledger(a) == Ledger(d) + [e] && Matches(e, who, op) && e.id == id)
            && (!r.Accepted? ==> a == d && r.Rejected?)
  {
    hide Pass, Visit, DeskOk, Means, MayAsk, Text.Strip, TextOk, AskEvent, SameAsk, KeyOf, FreeToAsk, ShapeOk;
    CurrentIs(d);
    var ix := Pass(Ledger(d)).value;
    MayAskIff(d, ix, who.id);
    EarlierFinds(Ledger(d), REQUEST, who.id, "request_key", Text.Strip(op.key));
    if && WellPut(who, op) && op.run == d.run && d.state in {ExerciseEngine.Running, ExerciseEngine.Paused}
       && MayAsk(ix, who.id)
    {
      var message, key := Text.Strip(op.message), Text.Strip(op.key);
      StripIsOk(op.message, 1024);
      StripIsOk(op.key, 128);
      AskEventShape(d, who, key, op.objective, message, id, at);
      AskFits(d, ix, who, key, op.objective, message, Stored(id, at));
      var e := AskEvent(d, who, key, op.objective, message, id, at);
      assert Matches(e, who, op);
      assert Ledger(Store(d, e)) == Ledger(d) + [e];
    }
  }

  /** Likewise for a reply: its request must be on the ledger of the run and not be answered yet. */
  lemma NewReplyIsRecordedIff(d: Desk, who: Principal, op: Op, id: string, at: string)
    requires DeskOk(d) && Whole(d) && op.Answer? && id !in d.ids
    requires NewKey(Ledger(d), RESPONSE, who.id, "response_key", Text.Strip(op.key))
    ensures var (a, r) := DoAnswer(d, who, op, Stored(id, at));
            && (r.Accepted? <==>
                  WellPut(who, op) && op.run == d.run && PlayAllowsReply(d.state, op.kind)
                  && Text.Strip(op.request) in Requests(Ledger(d)) && !Answered(Ledger(d), Text.Strip(op.request)))
            && (r.Accepted? ==> exists e :: Ledger(a) == Ledger(d) + [e] && Matches(e, who, op) && e.id == id)
            && (!r.Accepted? ==> a == d && r.Rejected?)
  {
    hide Pass, Visit, DeskOk, Means, MayAnswer, Text.Strip, TextOk, AnswerEvent, SameAnswer, KeyOf, ShapeOk,
      ObjectivesOk,
      InOrder, Answered, Requests;
    CurrentIs(d);
    var ix, request := Pass(Ledger(d)).value, Text.Strip(op.request);
    MayAnswerIff(d, ix, request, op.kind);
    EarlierFinds(Ledger(d), RESPONSE, who.id, "response_key", Text.Strip(op.key));
    if WellPut(who, op) && op.run == d.run && MayAnswer(d, ix, request, op.kind) {
      var message, key, scope := Text.Strip(op.message), Text.Strip(op.key), InOrder(OBJECTIVES, op.scope);
      StripIsOk(op.message, 1024);
      StripIsOk(op.key, 128);
      ScopeIsOk(op.scope);
      AnswerFits(d, ix, who, key, request, op.kind, message, scope, Stored(id, at));
      var e := AnswerEvent(d, who, key, request, op.kind, message, scope, id, at);
      assert Matches(e, who, op);
      assert Ledger(Store(d, e)) == Ledger(d) + [e];
    }
  }

  /** Replies need live play, or a stopped run whose platform is being explained. */
  predicate PlayAllowsReply(state: RunState, kind: string)
  {
    || state in {ExerciseEngine.Running, ExerciseEngine.Paused}
    || (state == ExerciseEngine.Stopped && kind == "platform_issue")
  }

  lemma MayAnswerIff(d: Desk, ix: Index, request: string, kind: string)
    requires Current(d, ix)
    ensures MayAnswer(d, ix, request, kind)
            <==> PlayAllowsReply(d.state, kind) && request in Requests(Ledger(d)) && !Answered(Ledger(d), request)
  {
    hide Pass, AllMade, KeysMean, ScopeMeans, RepliesMean, PendingMeans, Requests, CountBy, Bare, RecordOf, Answered,
      IsRequest;
    RequestsAre(Ledger(d));
  }
}
