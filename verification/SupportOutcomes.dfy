// What a request to the help desk leaves behind, with every failure of the append, and what the browser
// sends and shows: said of the tables, the events and the session's own fields.

module SupportOutcomes {
  import opened Prelude
  import opened SupportIndex
  import opened SupportDesk
  import ExerciseEngine
  import P = SupportProtocol
  import Text

  // ---------------------------------------------------------------- the event that is written

  predicate Has(e: Event, field: string, v: Val)
  {
    field in e.data && e.data[field] == v
  }

  predicate NamesState(name: string, state: RunState)
  {
    || (name == "ready" && state == ExerciseEngine.Ready) || (name == "running" && state == ExerciseEngine.Running)
    || (name == "paused" && state == ExerciseEngine.Paused) || (name == "stopped" && state == ExerciseEngine.Stopped)
    || (name == "completed" && state == ExerciseEngine.Completed)
  }

  predicate HasText(e: Event, field: string, maximum: nat)
  {
    && field in e.data && e.data[field].Str?
    && var s := e.data[field].s;
    && Text.Strip(s) != "" && |s| <= maximum
    && forall i :: 0 <= i < |s| ==> ' ' <= s[i] || s[i] == '\n' || s[i] == '\r' || s[i] == '\t'
  }

  predicate HasSecond(e: Event)
  {
    "elapsed_seconds" in e.data && e.data["elapsed_seconds"].Int? && e.data["elapsed_seconds"].n >= 0
  }

  /** What every event of the help desk has in common. */
  predicate FromDesk(e: Event, who: string)
  {
    && e.component == "exercise-support" && e.visibility == "facilitator" && e.phase == "control"
    && e.status == "success" && !e.dryRun && e.actor.kind == who && e.sourceKind == who
    && HasSecond(e) && HasText(e, "text", 1024)
  }

  /** A question that the validator reads: by a learner, in live play, about one objective, under a key. */
  lemma {:induction false} QuestionShapeIff(e: Event)
    requires e.kind == "exercise.support.requested"
    ensures ShapeOk(e)
            <==> && FromDesk(e, "participant")
                 && e.data.Keys == {"request_key", "objective_id", "text", "elapsed_seconds", "run_state"}
                 && e.actor.role in {"incident_lead", "soc_analyst", "identity_responder", "endpoint_responder",
                                     "cloud_responder"}
                 && (exists o :: o in ["LO1", "LO2", "LO3", "LO4", "LO5"] && Has(e, "objective_id", Str(o))
                                 && e.objectives == [o])
                 && (Has(e, "run_state", Str("running")) || Has(e, "run_state", Str("paused")))
                 && e.action == "exercise.support.request" && e.target == Target("support_queue", e.run)
                 && HasText(e, "request_key", 128)
  {
    hide Text.Strip;
    if Get(e, "objective_id").Str? {
      assert Has(e, "objective_id", Str(Get(e, "objective_id").s));
    }
  }

  /** A reply that the validator reads: by staff, of a kind its author may give in that state of play, to one
      request, about one to five objectives, under a key. */
  lemma {:induction false} ReplyShapeIff(e: Event)
    requires e.kind == "exercise.support.responded"
    ensures ShapeOk(e)
            <==> && FromDesk(e, "facilitator")
                 && e.data.Keys == {"request_id", "response_key", "kind", "text", "elapsed_seconds", "run_state"}
                 && (exists k :: k in {"hint", "clarification", "platform_issue"} && Has(e, "kind", Str(k))
                       && (e.actor.role == "facilitator"
                           || (e.actor.role == "technical_operator" && k == "platform_issue"))
                       && (Has(e, "run_state", Str("running")) || Has(e, "run_state", Str("paused"))
                           || (Has(e, "run_state", Str("stopped")) && k == "platform_issue")))
                 && (exists r :: Has(e, "request_id", Str(r)) && e.correlation == [r]
                                 && e.target == Target("support_request", r))
                 && e.action == "exercise.support.respond" && HasText(e, "response_key", 128)
                 && 1 <= |e.objectives| <= 5
                 && (forall o :: o in e.objectives ==> o in ["LO1", "LO2", "LO3", "LO4", "LO5"])
                 && (forall i, j :: 0 <= i < j < |e.objectives| ==> e.objectives[i] != e.objectives[j])
  {
    hide Text.Strip;
    if Get(e, "kind").Str? {
      assert Has(e, "kind", Str(Get(e, "kind").s));
    }
    if Get(e, "request_id").Str? {
      assert Has(e, "request_id", Str(Get(e, "request_id").s));
    }
  }

  /** What staff read of a question: who asked what, when and in which state of play. */
  ghost predicate Shows(r: Record, e: Event)
  {
    && r.requester == e.actor.id && r.role == e.actor.role && r.at == e.at
    && Has(e, "objective_id", Str(r.objective)) && Has(e, "elapsed_seconds", Int(r.elapsed))
    && Has(e, "run_state", Str(r.runState))
    && "text" in e.data && e.data["text"].Str? && r.question == Text.Strip(e.data["text"].s)
  }

  /** And of a reply. */
  ghost predicate ShowsReply(r: Reply, e: Event)
  {
    && r.event == e.id && r.responder == e.actor.id && r.role == e.actor.role && r.at == e.at
    && Has(e, "kind", Str(r.kind)) && Has(e, "elapsed_seconds", Int(r.elapsed)) && Has(e, "run_state", Str(r.runState))
    && "text" in e.data && e.data["text"].Str? && r.text == Text.Strip(e.data["text"].s)
    && (forall o :: o in r.scope <==> o in e.objectives)
  }

  /** The index of an accepted ledger: its records are the questions in ledger order, each as it was asked,
      with the reply to it as it was given, or none. */
  lemma {:induction false} IndexIs(events: seq<Event>)
    requires Pass(events).Ok?
    ensures var ix := Pass(events).value;
            && (forall id :: id in ix.table <==> exists e :: e in events && IsRequest(e) && e.id == id)
            && (forall e :: e in events && IsRequest(e) ==> Shows(ix.table[e.id], e))
            && (forall e :: e in events && IsReply(e) ==>
                  exists id :: Has(e, "request_id", Str(id)) && id in ix.table && ix.table[id].response.Some?
                               && ShowsReply(ix.table[id].response.value, e))
            && (forall id :: id in ix.table ==>
                  (ix.table[id].response.Some? <==> exists e :: e in events && IsReply(e) && Answers(e) == id))
  {
    hide Pass, Shows, ShowsReply, ShapeOk, Text.Strip, RecordOf, ReplyOf, Bare, IsRequest, IsReply;
    AcceptsIffWellFormed(events);
    var ix := Pass(events).value;
    TableIs(ix, events);
    forall e | e in events && IsRequest(e) ensures Shows(ix.table[e.id], e) {
      ShapesHold(events, e);
      RecordShows(ix.table[e.id], e);
    }
    forall e | e in events && IsReply(e)
      ensures exists id :: Has(e, "request_id", Str(id)) && id in ix.table && ix.table[id].response.Some?
                           && ShowsReply(ix.table[id].response.value, e)
    {
      ShapesHold(events, e);
      ReplyShows(e);
      assert Has(e, "request_id", Str(Answers(e)));
    }
  }

  lemma TableIs(ix: Index, events: seq<Event>)
    requires Means(ix, events)
    ensures forall e :: e in events && IsRequest(e) ==> e.id in ix.table && Bare(ix.table[e.id]) == RecordOf(e)
    ensures forall id :: id in ix.table <==> exists e :: e in events && IsRequest(e) && e.id == id
    ensures forall e :: e in events && IsReply(e) ==>
              Answers(e) in ix.table && ix.table[Answers(e)].response == Some(ReplyOf(e))
    ensures forall id :: id in ix.table ==>
              (ix.table[id].response.Some? <==> exists e :: e in events && IsReply(e) && Answers(e) == id)
  {
    hide RecordOf, ReplyOf, Bare, KeyOf, Answers;
  }

  lemma ShapesHold(events: seq<Event>, e: Event)
    requires WellFormed(events) && e in events && (IsRequest(e) || IsReply(e))
    ensures ShapeOk(e)
  {
    hide ShapeOk;
    var i :| 0 <= i < |events| && events[i] == e;
    assert Admissible(events[..i], events[i]);
  }

  lemma RecordShows(r: Record, e: Event)
    requires ShapeOk(e) && IsRequest(e) && Bare(r) == RecordOf(e)
    ensures Shows(r, e)
  {
    hide Text.Strip, TextOk;
  }

  lemma {:induction false} ReplyShows(e: Event)
    requires ShapeOk(e) && IsReply(e)
    ensures ShowsReply(ReplyOf(e), e) && Has(e, "request_id", Str(Answers(e)))
  {
    hide Text.Strip, TextOk, InOrder;
    NotBoth(e);
    InOrderIs(OBJECTIVES, e.objectives);
  }

  /** A message as it is recorded: by whom, for staff to see, at which exercise second and in which state of
      play, with its texts stripped. */
  ghost predicate Written(d: Desk, who: Principal, op: Op, e: Event)
  {
    && e.exercise == d.exercise && e.run == d.run && e.sequence == d.sequence + 1
    && e.component == "exercise-support" && e.visibility == "facilitator" && !e.dryRun
    && e.actor.id == who.id && e.actor.role == who.role
    && Has(e, "text", Str(Text.Strip(op.message))) && Has(e, "elapsed_seconds", Int(d.elapsed))
    && "run_state" in e.data && e.data["run_state"].Str? && NamesState(e.data["run_state"].s, d.state)
    && match op
       case Ask(_, key, objective, _) =>
         && e.kind == "exercise.support.requested" && Has(e, "request_key", Str(Text.Strip(key)))
         && Has(e, "objective_id", Str(objective)) && e.correlation == []
       case Answer(_, key, request, kind, _, _) =>
         && e.kind == "exercise.support.responded" && Has(e, "response_key", Str(Text.Strip(key)))
         && Has(e, "request_id", Str(Text.Strip(request))) && Has(e, "kind", Str(kind))
         && e.correlation == [Text.Strip(request)]
  }

  lemma AskIsWritten(d: Desk, who: Principal, op: Op, id: string, at: string)
    requires op.Ask?
    ensures var e := AskEvent(d, who, Text.Strip(op.key), op.objective, Text.Strip(op.message), id, at);
            Written(d, who, op, e) && e.id == id && e.at == at
  {
    hide InOrder, Text.Strip;
  }

  lemma AnswerIsWritten(d: Desk, who: Principal, op: Op, id: string, at: string)
    requires op.Answer?
    ensures var e := AnswerEvent(d, who, Text.Strip(op.key), Text.Strip(op.request), op.kind, Text.Strip(op.message),
                                 InOrder(OBJECTIVES, op.scope), id, at);
            Written(d, who, op, e) && e.id == id && e.at == at
  {
    hide InOrder, Text.Strip;
  }

  /** A request is rejected, or confirmed by an event that is there, or appends the event it describes. */
  lemma Cases(d: Desk, who: Principal, op: Op, fate: Fate)
    ensures var h := Handle(d, who, op, fate);
            || h == (d, Rejected)
            || (exists e :: e in Ledger(d) && h == (d, Accepted(ReceiptOf(e, true))))
            || (exists e :: Written(d, who, op, e) && (!fate.NotStored? ==> e.id == fate.id && e.at == fate.at)
                            && h == Append(d, e, fate))
  {
    hide Pass, Append, MayAsk, MayAnswer, SameAsk, SameAnswer, AskEvent, AnswerEvent, ReceiptOf, TextOk, Text.Strip,
      InOrder, ObjectivesOk, Written;
    var events, key := Ledger(d), Text.Strip(op.key);
    if op.Ask? {
      EarlierFinds(events, REQUEST, who.id, "request_key", key);
      AskIsWritten(d, who, op, IdOf(fate), TimeOf(fate));
    } else {
      EarlierFinds(events, RESPONSE, who.id, "response_key", key);
      AnswerIsWritten(d, who, op, IdOf(fate), TimeOf(fate));
    }
  }

  // ---------------------------------------------------------------- what a response means

  /** The event is on the ledger for certain, is there although the desk was told otherwise, or is not. */
  predicate Lands(d: Desk, fate: Fate)
  {
    !fate.NotStored? && fate.id !in d.ids
  }

  /** The response tells what happened. A rejection and a confirmed retry change nothing. A new receipt names
      the one event that the ledger gained. An unavailable ledger stops play, whether or not the event
      reached it, uses up a sequence number and promises nothing; play is stopped in no other case. */
  lemma {:induction false} ResponseIs(d: Desk, who: Principal, op: Op, fate: Fate)
    ensures var (a, r) := Handle(d, who, op, fate);
            && a.run == d.run && a.exercise == d.exercise && a.elapsed == d.elapsed
            && (r.Rejected? ==> a == d)
            && (r.Accepted? && r.receipt.replayed ==>
                  a == d && exists e :: e in Ledger(d) && r.receipt.event == e.id && r.receipt.run == e.run
                                        && (e.kind == "exercise.support.requested" ==> r.receipt.request == e.id)
                                        && (e.kind != "exercise.support.requested" ==>
                                              Has(e, "request_id", Str(r.receipt.request)) || r.receipt.request == ""))
            && (r.Accepted? && !r.receipt.replayed ==>
                  && fate.Stored? && fate.id !in d.ids && a.state == d.state && a.sequence == d.sequence + 1
                  && r.receipt.event == fate.id && r.receipt.run == d.run
                  && r.receipt.request == (if op.Ask? then fate.id else Text.Strip(op.request))
                  && exists e :: Written(d, who, op, e) && e.id == fate.id && Ledger(a) == Ledger(d) + [e])
            && (r.Unavailable? ==>
                  && !(fate.Stored? && fate.id !in d.ids) && a.sequence == d.sequence + 1
                  && a.state == (if d.state == ExerciseEngine.Completed then d.state else ExerciseEngine.Stopped)
                  && (if Lands(d, fate)
                      then exists e :: Written(d, who, op, e) && e.id == fate.id && Ledger(a) == Ledger(d) + [e]
                      else a.ledgers == d.ledgers))
  {
    hide Written, Contiguous, Text.Strip;
    Cases(d, who, op, fate);
    if h: Event :| Written(d, who, op, h) && (!fate.NotStored? ==> h.id == fate.id && h.at == fate.at)
                   && Handle(d, who, op, fate) == Append(d, h, fate) {
      WrittenIs(d, who, op, h);
      assert Ledger(Store(d, h)) == Ledger(d) + [h];
    }
  }

  lemma WrittenIs(d: Desk, who: Principal, op: Op, e: Event)
    requires Written(d, who, op, e)
    ensures e.run == d.run && (IsRequest(e) <==> op.Ask?) && (op.Answer? ==> Answers(e) == Text.Strip(op.request))
  {
    hide Text.Strip;
  }

  /** A new message that the ledger would take is acknowledged exactly if the append succeeds: if the event
      is not stored, or its identifier is taken, or an error comes back after it was stored, the desk says
      that evidence is unavailable. */
  lemma {:induction false} FateDecides(d: Desk, who: Principal, op: Op, fate: Fate, id: string, at: string)
    requires var r := Handle(d, who, op, Stored(id, at)).1; r.Accepted? && !r.receipt.replayed
    ensures var r := Handle(d, who, op, fate).1;
            if fate.Stored? && fate.id !in d.ids then r.Accepted? && !r.receipt.replayed else r.Unavailable?
  {
    hide Pass, MayAsk, MayAnswer, SameAsk, SameAnswer, AskEvent, AnswerEvent, TextOk, Text.Strip, InOrder,
      ObjectivesOk, Earlier, Contiguous;
  }

  // ---------------------------------------------------------------- the browser's side

  predicate InPlay(state: string)
  {
    state == "running" || state == "paused"
  }

  /** What the page may freeze for sending, given what it shows: a learner's question in live play when all
      earlier ones are answered, a facilitator's reply to an open request, or an operator's platform reply. */
  predicate MayFreeze(c: P.Session, seen: P.Snapshot, form: P.Form)
  {
    match form
    case Question(_, _) =>
      && !c.staff && seen.role in LEARNER_ROLES && InPlay(seen.runState) && |seen.requests| < 10
      && forall i :: 0 <= i < |seen.requests| ==> seen.requests[i].answered
    case Reply(request, kind, _, _) =>
      && c.staff && (seen.role == "facilitator" || (seen.role == "technical_operator" && kind == "platform_issue"))
      && (InPlay(seen.runState) || (seen.runState == "stopped" && kind == "platform_issue"))
      && P.Item(request, false) in seen.requests
  }

  /** The operation says what the form said, under the run that was shown. */
  predicate Freezes(op: Op, form: P.Form, run: string, key: string)
  {
    match form
    case Question(objective, message) => op == Ask(run, key, objective, message)
    case Reply(request, kind, message, scope) => op == Answer(run, key, request, kind, message, scope)
  }

  /** Something is sent exactly if somebody is logged in who is no observer, nothing is in flight, a snapshot
      is shown, and either an operation is still unconfirmed or the page may freeze this one. An
      unconfirmed operation is sent again as it is, whatever the form says now. */
  lemma SubmitIsSentIff(c: P.Session, form: P.Form, key: string)
    ensures var (a, sent) := P.Begin(c, form, key);
            && (sent.Some? <==>
                  && c.token != "" && c.credential == c.token && !c.observer && c.flight.None? && c.snapshot.Some?
                  && (c.operation.Some? || MayFreeze(c, c.snapshot.value, form)))
            && (sent.Some? ==>
                  && (c.operation.Some? ==> sent == c.operation)
                  && (c.operation.None? ==> Freezes(sent.value, form, c.snapshot.value.run, key))
                  && a.flight == Some(P.Flight(c.token, c.generation, sent.value))
                  && a.operation == sent && a.snapshot.None?
                  && a.generation == c.generation && a.contextRun == c.contextRun
                  && a.activity == c.activity + 1 && a.serial == c.serial + 1)
  {
  }

  /** An answer is believed by the session that sent the operation: a receipt of its run confirms and drops
      it, a refusal drops it, and anything else, or any other session, keeps it for a retry. */
  lemma SettleIs(c: P.Session, outcome: P.Outcome)
    requires c.flight.Some? && c.credential == c.token
    ensures var (a, recorded) := P.End(c, outcome);
            var f := c.flight.value;
            var own := c.token == f.credential && c.generation == f.generation && c.contextRun == Some(f.op.run);
            && (recorded <==> own && outcome.Received? && outcome.receipt.run == f.op.run)
            && a.flight.None? && a.snapshot.None? && a.activity == c.activity + 1 && a.serial > c.serial
            && a.operation == (if recorded || (own && outcome.Status? && 400 <= outcome.code < 500) then None
                               else c.operation)
            && (a.generation != c.generation <==> own && outcome.Status? && outcome.code in {401, 403})
            && (a.contextRun == if own && outcome.Status? && outcome.code in {401, 403} then None else c.contextRun)
  {
  }

  /** A read is taken exactly if no other read, no submission and no login came after it. */
  lemma ShowIs(c: P.Session, t: P.Ticket, answer: P.Answered)
    requires c.credential == c.token
    ensures var a := P.Show(c, t, answer);
            var current := c.token == t.credential && c.generation == t.generation && c.serial == t.serial
                           && c.activity == t.activity;
            && (!current ==> a == c)
            && (current && answer.Told? ==>
                  && a.snapshot == Some(answer.snapshot) && a.contextRun == Some(answer.snapshot.run)
                  && a.operation == (if c.contextRun.None? || c.contextRun == a.contextRun then c.operation else None))
            && (current && answer.ReadFailed? && answer.status !in {401, 403} ==> a == c.(snapshot := None))
            && (current && answer.ReadFailed? && answer.status in {401, 403} ==>
                  a.snapshot.None? && a.contextRun.None? && a.operation.None? && a.generation == c.generation + 1)
  {
  }
}
