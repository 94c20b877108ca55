// SupportWorkflow and SupportSession as objects that change in place. Whatever a request meets, the
// workflow keeps every ledger one that the validator accepts.

module SupportObjects {
  import opened Prelude
  import opened SupportIndex
  import opened SupportDesk
  import ExerciseEngine
  import P = SupportProtocol
  import Text

  lemma Serving(d: Desk, who: Principal, op: Op, fate: Fate)
    requires DeskOk(d)
    ensures var (a, r) := if op.Ask? then DoAsk(d, who, op, fate) else DoAnswer(d, who, op, fate);
            DeskOk(a) && (r.Accepted? ==> Confirmed(a, who, op, r.receipt))
  {
    hide DoAsk, DoAnswer, Served, DeskOk, Confirmed;
    HandleServed(d, who, op, fate);
    ServedOk(d, Handle(d, who, op, fate).0, Handle(d, who, op, fate).1, who, op);
  }

  class SupportWorkflow {
    const exercise: string
    var run: string
    var state: RunState
    var elapsed: int
    var sequence: nat
    var ledgers: map<string, seq<Event>>
    var ids: set<string>

    constructor (exercise: string, run: string)
      ensures Valid() && Value() == Fresh(exercise, run)
    {
      this.exercise, this.run, state, elapsed, sequence := exercise, run, ExerciseEngine.Ready, 0, 0;
      ledgers, ids := map[], {};
      new;
      FreshOk(exercise, run);
    }

    /** Every run's ledger is one that the validator accepts. */
    ghost predicate Valid()
      reads this
    {
      DeskOk(Value())
    }

    function Value(): (d: Desk)
      reads this
      ensures d.run == run && d.state == state && d.elapsed == elapsed && d.sequence == sequence
    {
      Desk(exercise, run, state, elapsed, sequence, ledgers, ids)
    }

    /** `[event["sequence"] for event in events] == list(range(1, len(events) + 1))` */
    method IsContiguous(events: seq<Event>) returns (r: bool)
      ensures r == Contiguous(events)
    {
      var k := 0;
      while k < |events|
        invariant 0 <= k <= |events| && Contiguous(events[..k])
      {
        if events[k].sequence != k + 1 {
          return false;
        }
        k := k + 1;
      }
      assert events[..k] == events;
      r := true;
    }

    method FindEarlier(events: seq<Event>, kind: string, actor: string, field: string, key: string)
      returns (r: Option<Event>)
      ensures r == Earlier(events, kind, actor, field, key)
    {
      hide Field;
      var k := 0;
      while k < |events|
        invariant 0 <= k <= |events|
        invariant Earlier(events[k..], kind, actor, field, key) == Earlier(events, kind, actor, field, key)
      {
        var event := events[k];
        if event.kind == kind && event.actor.id == actor && Field(event, field) == key {
          return Some(event);
        }
        k := k + 1;
      }
      r := None;
    }

    method Persist(e: Event)
      modifies this`sequence, this`ledgers, this`ids
      ensures Value() == Store(old(Value()), e)
    {
      var ledger := if run in ledgers then ledgers[run] else [];
      sequence, ledgers, ids := sequence + 1, ledgers[run := ledger + [e]], ids + {e.id};
    }

    method FailSafeStop()
      modifies this`state
      ensures Value() == Halted(old(Value()))
    {
      if state != ExerciseEngine.Completed {
        state := ExerciseEngine.Stopped;
      }
    }

    method AppendEvent(e: Event, fate: Fate) returns (r: Response)
      modifies this`sequence, this`ledgers, this`ids, this`state
      ensures (Value(), r) == Append(old(Value()), e, fate)
    {
      hide Contiguous, ReceiptOf;
      var ledger := if run in ledgers then ledgers[run] else [];
      var contiguous := IsContiguous(ledger);
      if !contiguous || sequence != |ledger| {
        return Rejected;
      }
      if fate.NotStored? || fate.id in ids {
        sequence := sequence + 1;
        FailSafeStop();
        return Unavailable;
      }
      Persist(e);
      if fate.StoredButRaised? {
        FailSafeStop();
        return Unavailable;
      }
      r := Accepted(ReceiptOf(e, false));
    }

    method Request(who: Principal, op: Op, fate: Fate) returns (r: Response)
      requires Valid() && op.Ask?
      modifies this`sequence, this`ledgers, this`ids, this`state
      ensures Valid() && (r.Accepted? ==> Confirmed(Value(), who, op, r.receipt))
      ensures (Value(), r) == DoAsk(old(Value()), who, op, fate)
    {
      hide Pass, Append, Earlier, MayAsk, SameAsk, AskEvent, ReceiptOf, TextOf, DeskOk, Confirmed;
      Serving(Value(), who, op, fate);
      var message, key := TextOf(Str(op.message), 1024), TextOf(Str(op.key), 128);
      if || who.role !in LEARNER_ROLES || op.run != run || message.Refused? || key.Refused?
         || op.objective !in OBJECTIVES
      {
        return Rejected;
      }
      var events := if run in ledgers then ledgers[run] else [];
      var index := SupportIndex.SupportIndex(events);
      if index.Refused? {
        return Rejected;
      }
      var earlier := FindEarlier(events, REQUEST, who.id, "request_key", key.value);
      if earlier.Some? {
        return if SameAsk(earlier.value, op.objective, message.value)
          then Accepted(ReceiptOf(earlier.value, true)) else Rejected;
      }
      if state !in {ExerciseEngine.Running, ExerciseEngine.Paused} || !MayAsk(index.value, who.id) {
        return Rejected;
      }
      r := AppendEvent(AskEvent(Value(), who, key.value, op.objective, message.value, IdOf(fate), TimeOf(fate)), fate);
    }

    method Respond(who: Principal, op: Op, fate: Fate) returns (r: Response)
      requires Valid() && op.Answer?
      modifies this`sequence, this`ledgers, this`ids, this`state
      ensures Valid() && (r.Accepted? ==> Confirmed(Value(), who, op, r.receipt))
      ensures (Value(), r) == DoAnswer(old(Value()), who, op, fate)
    {
      hide Pass, Append, Earlier, MayAnswer, SameAnswer, AnswerEvent, ReceiptOf, TextOf, ScopeOf, DeskOk, Confirmed;
      Serving(Value(), who, op, fate);
      var message, request, key :=
        TextOf(Str(op.message), 1024), TextOf(Str(op.request), 128), TextOf(Str(op.key), 128);
      var scope := ScopeOf(op.scope);
      if || who.role !in RESPONDER_ROLES || op.run != run || op.kind !in KINDS
         || (who.role == "technical_operator" && op.kind != "platform_issue")
         || message.Refused? || request.Refused? || key.Refused? || scope.Refused?
      {
        return Rejected;
      }
      var events := if run in ledgers then ledgers[run] else [];
      var index := SupportIndex.SupportIndex(events);
      if index.Refused? {
        return Rejected;
      }
      var earlier := FindEarlier(events, RESPONSE, who.id, "response_key", key.value);
      if earlier.Some? {
        return if SameAnswer(earlier.value, request.value, op.kind, message.value, scope.value)
          then Accepted(ReceiptOf(earlier.value, true)) else Rejected;
      }
      if !MayAnswer(Value(), index.value, request.value, op.kind) {
        return Rejected;
      }
      r := AppendEvent(AnswerEvent(Value(), who, key.value, request.value, op.kind, message.value, scope.value,
                                   IdOf(fate), TimeOf(fate)), fate);
    }
  }

  /** The browser object; `submit` and `refresh` are split where they await their call. */
  class SupportSession {
    const staff: bool
    const observer: bool
    var token: string
    var credential: string
    var generation: nat
    var contextRun: Option<string>
    var snapshot: Option<P.Snapshot>
    var operation: Option<Op>
    var serial: nat
    var activity: nat
    var flight: Option<P.Flight>

    constructor (staff: bool, observer: bool)
      ensures Value() == P.Session(staff, observer, "", "", 1, None, None, None, 1, 0, None)
    {
      this.staff, this.observer, token, credential, generation, serial, activity := staff, observer, "", "", 1, 1, 0;
      contextRun, snapshot, operation, flight := None, None, None, None;
    }

    function Value(): P.Session
      reads this
    {
      P.Session(staff, observer, token, credential, generation, contextRun, snapshot, operation, serial, activity,
          flight)
    }

    method Reset()
      modifies this
      ensures Value() == P.Reset(old(Value()))
    {
      generation, serial := generation + 1, serial + 1;
      snapshot, contextRun, operation := None, None, None;
    }

    method SyncCredential()
      modifies this
      ensures Value() == P.Sync(old(Value()))
    {
      if token != credential {
        credential := token;
        Reset();
      }
    }

    method Submit(form: P.Form, key: string) returns (sent: Option<Op>)
      modifies this
      ensures (Value(), sent) == P.Begin(old(Value()), form, key)
    {
      hide P.CanWrite;
      SyncCredential();
      if flight.Some? || credential == "" || snapshot.None? || observer {
        return None;
      }
      if operation.None? {
        if !P.CanWrite(Value(), form) {
          return None;
        }
        operation := Some(P.Freeze(form, snapshot.value.run, key));
      }
      activity, serial, snapshot := activity + 1, serial + 1, None;
      flight := Some(P.Flight(credential, generation, operation.value));
      sent := operation;
    }

    method Settle(outcome: P.Outcome) returns (recorded: bool)
      requires flight.Some?
      modifies this
      ensures (Value(), recorded) == P.End(old(Value()), outcome)
    {
      var f := flight.value;
      SyncCredential();
      recorded := false;
      if P.Owns(Value(), f) {
        match outcome {
          case Received(receipt) =>
            if receipt.run == f.op.run {
              operation := None;
              recorded := true;
            }
          case Status(code) =>
            if 400 <= code < 500 {
              operation := None;
              if code == 401 || code == 403 {
                Reset();
              }
            }
          case NoAnswer =>
        }
      }
      flight, activity, serial, snapshot := None, activity + 1, serial + 1, None;
    }

    method Refresh() returns (ticket: Option<P.Ticket>)
      modifies this
      ensures (Value(), ticket) == P.StartRead(old(Value()))
    {
      SyncCredential();
      if credential == "" {
        return None;
      }
      serial := serial + 1;
      ticket := Some(P.Ticket(credential, generation, serial, activity));
    }

    method Show(ticket: P.Ticket, answer: P.Answered)
      modifies this
      ensures Value() == P.Show(old(Value()), ticket, answer)
    {
      SyncCredential();
      if P.Ticket(credential, generation, serial, activity) != ticket {
        return;
      }
      match answer {
        case Told(seen) =>
          if contextRun.Some? && contextRun.value != seen.run {
            Reset();
          }
          contextRun, snapshot := Some(seen.run), Some(seen);
        case ReadFailed(status) =>
          snapshot := None;
          if status == 401 || status == 403 {
            Reset();
          }
      }
    }
  }
}
