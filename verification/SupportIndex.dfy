// The offline validator of the help desk: one pass over a ledger, against a reading of the whole ledger.

module SupportIndex {
  import opened Prelude
  import Text

  // ---------------------------------------------------------------- canonical events

  datatype Val = Str(s: string) | Int(n: int) | Opaque

  datatype Actor = Actor(kind: string, id: string, role: string)

  datatype Target = Target(kind: string, id: string)

  /** The fields of a canonical event that the help desk reads or writes. */
  datatype Event = Event(
    id: string, exercise: string, run: string, sequence: int, kind: string, phase: string,
    sourceKind: string, component: string, actor: Actor, action: string, target: Target, status: string,
    visibility: string, dryRun: bool, objectives: seq<string>, correlation: seq<string>, at: string,
    data: map<string, Val>)

  const REQUEST := "exercise.support.requested"
  const RESPONSE := "exercise.support.responded"
  const COMPONENT := "exercise-support"
  const LEARNER_ROLES :=
    {"incident_lead", "soc_analyst", "identity_responder", "endpoint_responder", "cloud_responder"}
  const RESPONDER_ROLES := {"facilitator", "technical_operator"}
  const OBJECTIVES := ["LO1", "LO2", "LO3", "LO4", "LO5"]
  const KINDS := {"hint", "clarification", "platform_issue"}
  const MAX_REQUESTS := 50
  const MAX_ACTOR_REQUESTS := 10

  const REQUEST_FIELDS := {"request_key", "objective_id", "text", "elapsed_seconds", "run_state"}
  const RESPONSE_FIELDS := {"request_id", "response_key", "kind", "text", "elapsed_seconds", "run_state"}

  // ---------------------------------------------------------------- text and objectives

  predicate Printable(s: string)
  {
    forall i :: 0 <= i < |s| ==> s[i] >= ' ' || s[i] in {'\n', '\r', '\t'}
  }

  predicate TextOk(s: string, maximum: nat)
  {
    !Text.Blank(s) && |s| <= maximum && Printable(s)
  }

  /** `text` */
  function TextOf(v: Val, maximum: nat): Result<string>
  {
    if v.Str? && TextOk(v.s, maximum) then Ok(Text.Strip(v.s)) else Refused
  }

  predicate Distinct(values: seq<string>)
  {
    forall i, j :: 0 <= i < j < |values| ==> values[i] != values[j]
  }

  predicate ObjectivesOk(values: seq<string>)
  {
    1 <= |values| <= 5 && (forall v :: v in values ==> v in OBJECTIVES) && Distinct(values)
  }

  /** `sorted(…)` of distinct objective ids. */
  function InOrder(all: seq<string>, values: seq<string>): seq<string>
  {
    if all == [] then []
    else if all[0] in values then [all[0]] + InOrder(all[1..], values)
    else InOrder(all[1..], values)
  }

  /** `objectives` */
  function ScopeOf(values: seq<string>): Result<seq<string>>
  {
    if ObjectivesOk(values) then Ok(InOrder(OBJECTIVES, values)) else Refused
  }

  // ---------------------------------------------------------------- what one event must look like

  predicate IsRequest(e: Event)
  {
    e.kind == REQUEST
  }

  predicate IsReply(e: Event)
  {
    e.kind == RESPONSE
  }

  predicate IsSupport(e: Event)
  {
    IsRequest(e) || IsReply(e)
  }

  function Get(e: Event, field: string): Val
  {
    if field in e.data then e.data[field] else Opaque
  }

  predicate SourceOk(e: Event)
  {
    && e.component == COMPONENT && e.visibility == "facilitator" && e.phase == "control" && e.status == "success"
    && !e.dryRun
    && Get(e, "elapsed_seconds").Int? && Get(e, "elapsed_seconds").n >= 0
    && TextOf(Get(e, "text"), 1024).Ok?
  }

  predicate RequestOk(e: Event)
  {
    && e.data.Keys == REQUEST_FIELDS
    && e.actor.kind == "participant" && e.actor.role in LEARNER_ROLES && e.sourceKind == "participant"
    && Get(e, "objective_id").Str? && Get(e, "objective_id").s in OBJECTIVES
    && e.objectives == [Get(e, "objective_id").s]
    && Get(e, "run_state") in {Str("running"), Str("paused")}
    && e.action == "exercise.support.request" && e.target == Target("support_queue", e.run)
    && TextOf(Get(e, "request_key"), 128).Ok?
  }

  predicate ReplyOk(e: Event)
  {
    && e.data.Keys == RESPONSE_FIELDS
    && e.actor.kind == "facilitator" && e.actor.role in RESPONDER_ROLES && e.sourceKind == "facilitator"
    && Get(e, "kind").Str? && Get(e, "kind").s in KINDS
    && (e.actor.role == "technical_operator" ==> Get(e, "kind") == Str("platform_issue"))
    && Get(e, "run_state") in {Str("running"), Str("paused"), Str("stopped")}
    && (Get(e, "run_state") == Str("stopped") ==> Get(e, "kind") == Str("platform_issue"))
    && e.action == "exercise.support.respond"
    && Get(e, "request_id").Str? && e.target == Target("support_request", Get(e, "request_id").s)
    && e.correlation == [Get(e, "request_id").s]
    && ObjectivesOk(e.objectives)
    && TextOf(Get(e, "response_key"), 128).Ok?
  }

  predicate ShapeOk(e: Event)
  {
    SourceOk(e) && (if IsRequest(e) then RequestOk(e) else ReplyOk(e))
  }

  function ElapsedOf(e: Event): int
  {
    if Get(e, "elapsed_seconds").Int? then Get(e, "elapsed_seconds").n else 0
  }

  function Field(e: Event, field: string): string
  {
    if Get(e, field).Str? then Get(e, field).s else ""
  }

  /** The request that a reply answers. */
  function Answers(e: Event): string
  {
    Field(e, "request_id")
  }

  datatype Key = Key(kind: string, actor: string, key: string)

  function KeyOf(e: Event): Key
  {
    Key(e.kind, e.actor.id, Text.Strip(Field(e, if IsRequest(e) then "request_key" else "response_key")))
  }

  // ---------------------------------------------------------------- the pass

  datatype Reply = Reply(event: string, kind: string, text: string, scope: seq<string>, responder: string, role: string,
                         at: string, elapsed: int, runState: string)

  datatype Record = Record(requester: string, role: string, objective: string, question: string, at: string,
                           elapsed: int, runState: string, response: Option<Reply>)

  /** The accumulators of `support_index`; `order` is the insertion order of its dictionary. */
  datatype Index = Index(order: seq<string>, table: map<string, Record>, keys: set<Key>, counts: map<string, nat>,
                         pending: set<string>, scope: Option<(string, string)>, last: int)

  const EMPTY := Index([], map[], {}, map[], {}, None, 0)

  function CountOf(ix: Index, actor: string): nat
  {
    if actor in ix.counts then ix.counts[actor] else 0
  }

  predicate Fits(ix: Index, e: Event)
  {
    && (ix.scope.None? || ix.scope.value == (e.exercise, e.run)) && e.sequence > ix.last
    && KeyOf(e) !in ix.keys
    && if IsRequest(e) then
         && e.actor.id !in ix.pending && e.id !in ix.table
         && CountOf(ix, e.actor.id) < MAX_ACTOR_REQUESTS && |ix.order| < MAX_REQUESTS
       else
         && Answers(e) in ix.table && ix.table[Answers(e)].response.None?
         && ElapsedOf(e) >= ix.table[Answers(e)].elapsed
  }

  function RecordOf(e: Event): (r: Record)
    ensures r.response.None? && r.requester == e.actor.id && r.elapsed == ElapsedOf(e)
  {
    Record(e.actor.id, e.actor.role, Field(e, "objective_id"), Text.Strip(Field(e, "text")), e.at, ElapsedOf(e),
           Field(e, "run_state"), None)
  }

  function ReplyOf(e: Event): Reply
  {
    Reply(e.id, Field(e, "kind"), Text.Strip(Field(e, "text")), InOrder(OBJECTIVES, e.objectives), e.actor.id,
          e.actor.role, e.at, ElapsedOf(e), Field(e, "run_state"))
  }

  function Enter(ix: Index, e: Event): Index
    requires Fits(ix, e)
  {
    var seen := ix.(scope := Some((e.exercise, e.run)), last := e.sequence, keys := ix.keys + {KeyOf(e)});
    if IsRequest(e) then
      seen.(order := ix.order + [e.id], table := ix.table[e.id := RecordOf(e)],
            counts := ix.counts[e.actor.id := CountOf(ix, e.actor.id) + 1], pending := ix.pending + {e.actor.id})
    else
      var record := ix.table[Answers(e)];
      seen.(table := ix.table[Answers(e) := record.(response := Some(ReplyOf(e)))],
            pending := ix.pending - {record.requester})
  }

  function Visit(ix: Index, e: Event): Result<Index>
  {
    if !IsSupport(e) then if e.component == COMPONENT then Refused else Ok(ix)
    else if ShapeOk(e) && Fits(ix, e) then Ok(Enter(ix, e)) else Refused
  }

  /** The state of the pass after all of `events`. */
  function Pass(events: seq<Event>): Result<Index>
  {
    if events == [] then Ok(EMPTY) else
    var before := Pass(events[..|events| - 1]);
    if before.Ok? then Visit(before.value, events[|events| - 1]) else Refused
  }

  /** `support_index` */
  method SupportIndex(events: seq<Event>) returns (r: Result<Index>)
    ensures r == Pass(events)
  {
    hide Visit;
    var ix := EMPTY;
    var k := 0;
    while k < |events|
      invariant 0 <= k <= |events|
      invariant Pass(events[..k]) == Ok(ix)
    {
      assert events[..k + 1][..k] == events[..k];
      var next := Visit(ix, events[k]);
      if next.Refused? {
        StaysRefused(events, k + 1);
        return Refused;
      }
      ix := next.value;
      k := k + 1;
    }
    assert events[..k] == events;
    r := Ok(ix);
  }

  lemma {:induction false} StaysRefused(events: seq<Event>, k: nat)
    requires k <= |events| && Pass(events[..k]).Refused?
    ensures Pass(events).Refused?
    decreases |events| - k
  {
    hide Visit;
    if k == |events| {
      assert events[..k] == events;
    } else {
      assert events[..k + 1][..k] == events[..k];
      StaysRefused(events, k + 1);
    }
  }

  // ---------------------------------------------------------------- a reading of the whole ledger

  function Requests(events: seq<Event>): seq<string>
  {
    if events == [] then []
    else if IsRequest(events[|events| - 1]) then Requests(events[..|events| - 1]) + [events[|events| - 1].id]
    else Requests(events[..|events| - 1])
  }

  function CountBy(events: seq<Event>, actor: string): nat
  {
    if events == [] then 0 else
    CountBy(events[..|events| - 1], actor)
    + (if IsRequest(events[|events| - 1]) && events[|events| - 1].actor.id == actor then 1 else 0)
  }

  ghost predicate Answered(events: seq<Event>, request: string)
  {
    exists p :: p in events && IsReply(p) && Answers(p) == request
  }

  ghost predicate Asked(events: seq<Event>, request: string, at: int)
  {
    exists p :: p in events && IsRequest(p) && p.id == request && ElapsedOf(p) <= at
  }

  /** What `e` may be after `events`, with no accumulators: one scope, rising sequence numbers, a new
      retry key, one open request per participant, one reply per request and not before it. */
  ghost predicate Admissible(events: seq<Event>, e: Event)
  {
    if !IsSupport(e) then e.component != COMPONENT else
    && ShapeOk(e) && e.sequence > 0
    && (forall p :: p in events && IsSupport(p) ==>
          p.exercise == e.exercise && p.run == e.run && p.sequence < e.sequence && KeyOf(p) != KeyOf(e))
    && if IsRequest(e) then
         && (forall p :: p in events && IsRequest(p) ==> p.id != e.id)
         && (forall p :: p in events && IsRequest(p) && p.actor.id == e.actor.id ==> Answered(events, p.id))
         && CountBy(events, e.actor.id) < 10 && |Requests(events)| < 50
       else Asked(events, Answers(e), ElapsedOf(e)) && !Answered(events, Answers(e))
  }

  /** Every event was admissible after those before it. */
  ghost predicate WellFormed(events: seq<Event>)
  {
    forall k :: 0 <= k < |events| ==> Admissible(events[..k], events[k])
  }

  // ---------------------------------------------------------------- the accumulators mean what they should

  function Bare(r: Record): (b: Record)
    ensures b.requester == r.requester && b.elapsed == r.elapsed && (r.response.None? ==> b == r)
  {
    r.(response := None)
  }

  ghost predicate TableMeans(ix: Index, events: seq<Event>)
  {
    && (forall p :: p in events && IsRequest(p) ==> p.id in ix.table && Bare(ix.table[p.id]) == RecordOf(p))
    && (forall id :: id in ix.table ==> exists p :: p in events && IsRequest(p) && p.id == id)
    && (forall id :: id in ix.table ==> (ix.table[id].response.Some? <==> Answered(events, id)))
  }

  ghost predicate RepliesMean(ix: Index, events: seq<Event>)
  {
    forall p :: p in events && IsReply(p) ==>
      Answers(p) in ix.table && ix.table[Answers(p)].response == Some(ReplyOf(p))
  }

  /** Who has an open request, and each has only one. */
  ghost predicate PendingMeans(ix: Index)
  {
    && (forall id :: Open(ix, id) ==> ix.table[id].requester in ix.pending)
    && (forall a :: a in ix.pending ==> exists id :: Open(ix, id) && ix.table[id].requester == a)
    && forall i, j :: Open(ix, i) && Open(ix, j) && ix.table[i].requester == ix.table[j].requester ==> i == j
  }

  predicate Open(ix: Index, id: string)
  {
    id in ix.table && ix.table[id].response.None?
  }

  ghost predicate KeysMean(ix: Index, events: seq<Event>)
  {
    forall k :: k in ix.keys <==> exists p :: p in events && IsSupport(p) && KeyOf(p) == k
  }

  ghost predicate ScopeMeans(ix: Index, events: seq<Event>)
  {
    && ix.last >= 0
    && (forall p :: p in events && IsSupport(p) ==> ix.scope == Some((p.exercise, p.run)) && p.sequence <= ix.last)
    && (ix.scope.Some? ==>
          exists p :: p in events && IsSupport(p) && ix.scope == Some((p.exercise, p.run)) && p.sequence == ix.last)
    && (ix.scope.None? ==> ix.last == 0)
  }

  ghost predicate Means(ix: Index, events: seq<Event>)
  {
    && TableMeans(ix, events) && RepliesMean(ix, events) && PendingMeans(ix) && KeysMean(ix, events)
    && ScopeMeans(ix, events)
    && ix.order == Requests(events)
    && forall a :: CountOf(ix, a) == CountBy(events, a)
  }

  lemma FitsIff(ix: Index, events: seq<Event>, e: Event)
    requires Means(ix, events) && IsSupport(e) && ShapeOk(e)
    ensures Fits(ix, e) <==> Admissible(events, e)
  {
    hide ShapeOk, RepliesMean, KeyOf, ElapsedOf, Answers;
    ContextIff(ix, events, e);
    if IsRequest(e) {
      AskIff(ix, events, e);
    } else {
      ReplyIff(ix, events, e);
    }
  }

  lemma ContextIff(ix: Index, events: seq<Event>, e: Event)
    requires KeysMean(ix, events) && ScopeMeans(ix, events)
    ensures ((ix.scope.None? || ix.scope.value == (e.exercise, e.run)) && e.sequence > ix.last && KeyOf(e) !in ix.keys)
            <==> e.sequence > 0 && forall p :: p in events && IsSupport(p) ==>
                   p.exercise == e.exercise && p.run == e.run && p.sequence < e.sequence && KeyOf(p) != KeyOf(e)
  {
    hide KeyOf, IsSupport;
  }

  lemma AskIff(ix: Index, events: seq<Event>, e: Event)
    requires TableMeans(ix, events) && PendingMeans(ix)
    ensures (e.actor.id !in ix.pending && e.id !in ix.table)
            <==> (forall p :: p in events && IsRequest(p) ==> p.id != e.id)
                 && (forall p :: p in events && IsRequest(p) && p.actor.id == e.actor.id ==> Answered(events, p.id))
  {
    hide Answered, IsRequest;
    forall p | p in events && IsRequest(p) ensures p.id in ix.table && ix.table[p.id].requester == p.actor.id {
    }
    if e.actor.id in ix.pending {
      var id :| Open(ix, id) && ix.table[id].requester == e.actor.id;
      var p :| p in events && IsRequest(p) && p.id == id;
      assert !Answered(events, p.id);
    }
  }

  lemma ReplyIff(ix: Index, events: seq<Event>, e: Event)
    requires TableMeans(ix, events)
    ensures (&& Answers(e) in ix.table && ix.table[Answers(e)].response.None?
             && ElapsedOf(e) >= ix.table[Answers(e)].elapsed)
            <==> Asked(events, Answers(e), ElapsedOf(e)) && !Answered(events, Answers(e))
  {
    hide Answered, IsRequest, Answers, ElapsedOf;
    forall p | p in events && IsRequest(p) ensures p.id in ix.table && ix.table[p.id].elapsed == ElapsedOf(p) {
    }
    if Answers(e) in ix.table {
      var p :| p in events && IsRequest(p) && p.id == Answers(e);
    }
  }

  // ---------------------------------------------------------------- every event keeps the meaning

  lemma Appended(events: seq<Event>, e: Event)
    ensures var all := events + [e];
            && (forall p :: p in all <==> p in events || p == e)
            && Requests(all) == Requests(events) + (if IsRequest(e) then [e.id] else [])
            && (forall a :: CountBy(all, a) == CountBy(events, a) + (if IsRequest(e) && e.actor.id == a then 1 else 0))
            && (forall id :: Answered(all, id) <==> Answered(events, id) || (IsReply(e) && Answers(e) == id))
  {
    hide Answers;
    var all := events + [e];
    assert all[..|all| - 1] == events;
    assert forall p :: p in all <==> p in events || p == e;
    forall id ensures Answered(all, id) <==> Answered(events, id) || (IsReply(e) && Answers(e) == id) {
      if IsReply(e) && Answers(e) == id {
        assert e in all;
      }
    }
  }

  lemma KeysStayMeant(ix: Index, events: seq<Event>, e: Event)
    requires KeysMean(ix, events) && ScopeMeans(ix, events) && IsSupport(e) && Fits(ix, e)
    ensures KeysMean(Enter(ix, e), events + [e]) && ScopeMeans(Enter(ix, e), events + [e])
  {
    hide KeyOf, Requests, CountBy, Answered, RecordOf, ReplyOf;
    var all, a := events + [e], Enter(ix, e);
    Appended(events, e);
    assert e in all;
    forall k ensures k in a.keys <==> exists p :: p in all && IsSupport(p) && KeyOf(p) == k {
      if k in ix.keys {
        var p :| p in events && IsSupport(p) && KeyOf(p) == k;
        assert p in all;
      }
    }
  }

  lemma AskStaysMeant(ix: Index, events: seq<Event>, e: Event)
    requires TableMeans(ix, events) && RepliesMean(ix, events) && IsRequest(e) && Fits(ix, e)
    ensures TableMeans(Enter(ix, e), events + [e]) && RepliesMean(Enter(ix, e), events + [e])
  {
    hide KeyOf, Requests, CountBy, ReplyOf, RecordOf, Bare, Answers, Answered, ElapsedOf;
    var all, a := events + [e], Enter(ix, e);
    Appended(events, e);
    assert a.table == ix.table[e.id := RecordOf(e)] && e.id !in ix.table;
    assert e in all && !IsReply(e);
    TableKnown(ix, events, all, a.table.Keys - {e.id});
    NotAnswered(ix, events, e.id);
    forall p | p in all && IsReply(p)
      ensures Answers(p) in a.table && a.table[Answers(p)].response == Some(ReplyOf(p))
    {
      assert p in events;
    }
  }

  /** Old table entries still have their requests in a longer ledger. */
  lemma TableKnown(ix: Index, events: seq<Event>, all: seq<Event>, ids: set<string>)
    requires TableMeans(ix, events) && ids <= ix.table.Keys && forall p :: p in events ==> p in all
    ensures forall id :: id in ids ==> exists p :: p in all && IsRequest(p) && p.id == id
  {
    hide RecordOf, Bare, Answered;
    forall id | id in ids ensures exists p :: p in all && IsRequest(p) && p.id == id {
      var p :| p in events && IsRequest(p) && p.id == id;
      assert p in all;
    }
  }

  lemma NotAnswered(ix: Index, events: seq<Event>, id: string)
    requires RepliesMean(ix, events) && id !in ix.table
    ensures !Answered(events, id)
  {
    hide ReplyOf, Answers;
  }

  lemma AskStaysPending(ix: Index, e: Event)
    requires PendingMeans(ix) && IsRequest(e) && Fits(ix, e)
    ensures PendingMeans(Enter(ix, e))
  {
    hide KeyOf, ReplyOf, Answers, ElapsedOf;
    var a := Enter(ix, e);
    assert Open(a, e.id);
    forall id ensures Open(a, id) <==> Open(ix, id) || id == e.id {
    }
    forall who | who in a.pending ensures exists id :: Open(a, id) && a.table[id].requester == who {
      if who != e.actor.id {
        var id :| Open(ix, id) && ix.table[id].requester == who;
        assert Open(a, id);
      }
    }
    forall i, j | Open(a, i) && Open(a, j) && a.table[i].requester == a.table[j].requester ensures i == j {
      assert i != e.id ==> ix.table[i].requester in ix.pending;
      assert j != e.id ==> ix.table[j].requester in ix.pending;
    }
  }

  lemma BareForgets(r: Record, reply: Reply)
    ensures Bare(r.(response := Some(reply))) == Bare(r)
  {
  }

  lemma NotBoth(e: Event)
    ensures !(IsRequest(e) && IsReply(e))
  {
  }

  lemma ReplyStaysMeant(ix: Index, events: seq<Event>, e: Event)
    requires TableMeans(ix, events) && IsReply(e) && Fits(ix, e)
    ensures TableMeans(Enter(ix, e), events + [e])
  {
    hide KeyOf, Requests, CountBy, ReplyOf, RecordOf, Bare, Answers, ElapsedOf, Answered, IsRequest;
    var all, a := events + [e], Enter(ix, e);
    var id := Answers(e);
    NotBoth(e);
    BareForgets(ix.table[id], ReplyOf(e));
    Appended(events, e);
    assert a.table == ix.table[id := ix.table[id].(response := Some(ReplyOf(e)))];
    TableKnown(ix, events, all, a.table.Keys);
    forall p | p in all && IsRequest(p) ensures p.id in a.table && Bare(a.table[p.id]) == RecordOf(p) {
      assert p in events;
    }
  }

  lemma RepliesStayMeant(ix: Index, events: seq<Event>, e: Event)
    requires RepliesMean(ix, events) && IsReply(e) && Fits(ix, e)
    ensures RepliesMean(Enter(ix, e), events + [e])
  {
    hide KeyOf, ReplyOf, RecordOf, Answers, ElapsedOf, IsRequest;
    var all, a := events + [e], Enter(ix, e);
    var id := Answers(e);
    NotBoth(e);
    assert a.table == ix.table[id := ix.table[id].(response := Some(ReplyOf(e)))];
    forall p | p in all && IsReply(p)
      ensures Answers(p) in a.table && a.table[Answers(p)].response == Some(ReplyOf(p))
    {
      if p != e {
        assert p in events;
        assert ix.table[Answers(p)].response.Some?;
      }
    }
  }

  lemma ReplyStaysPending(ix: Index, e: Event)
    requires PendingMeans(ix) && IsReply(e) && Fits(ix, e)
    ensures PendingMeans(Enter(ix, e))
  {
    hide KeyOf, ReplyOf, RecordOf, Answers, ElapsedOf;
    var a := Enter(ix, e);
    assert !IsRequest(e);
    assert Open(ix, Answers(e));
    forall x ensures Open(a, x) <==> Open(ix, x) && x != Answers(e) {
    }
    forall who | who in a.pending ensures exists x :: Open(a, x) && a.table[x].requester == who {
      var x :| Open(ix, x) && ix.table[x].requester == who;
      assert Open(a, x);
    }
  }

  lemma VisitStaysMeant(ix: Index, events: seq<Event>, e: Event)
    requires Means(ix, events)
    ensures Visit(ix, e).Ok? <==> Admissible(events, e)
    ensures Visit(ix, e).Ok? ==> Means(Visit(ix, e).value, events + [e])
  {
    hide ShapeOk, KeyOf, RecordOf, ReplyOf, TableMeans, RepliesMean, PendingMeans, KeysMean, ScopeMeans;
    Appended(events, e);
    if !IsSupport(e) {
      AsideStaysMeant(ix, events, e);
      AsideStaysKeyed(ix, events, e);
    } else if ShapeOk(e) {
      FitsIff(ix, events, e);
      if Fits(ix, e) {
        KeysStayMeant(ix, events, e);
        if IsRequest(e) {
          AskStaysMeant(ix, events, e);
          AskStaysPending(ix, e);
        } else {
          ReplyStaysMeant(ix, events, e);
          RepliesStayMeant(ix, events, e);
          ReplyStaysPending(ix, e);
        }
      }
    }
  }

  lemma AsideStaysMeant(ix: Index, events: seq<Event>, e: Event)
    requires !IsSupport(e) && TableMeans(ix, events) && RepliesMean(ix, events)
    ensures TableMeans(ix, events + [e]) && RepliesMean(ix, events + [e])
  {
    hide Requests, CountBy, ReplyOf, RecordOf, Bare, Answers, Answered, IsRequest, IsReply;
    var all := events + [e];
    Appended(events, e);
    assert !IsRequest(e) && !IsReply(e);
    TableKnown(ix, events, all, ix.table.Keys);
  }

  lemma AsideStaysKeyed(ix: Index, events: seq<Event>, e: Event)
    requires !IsSupport(e) && KeysMean(ix, events) && ScopeMeans(ix, events)
    ensures KeysMean(ix, events + [e]) && ScopeMeans(ix, events + [e])
  {
    hide IsSupport, KeyOf;
    var all := events + [e];
    assert forall p :: p in all && IsSupport(p) <==> p in events && IsSupport(p);
    forall k ensures k in ix.keys <==> exists p :: p in all && IsSupport(p) && KeyOf(p) == k {
      if k in ix.keys {
        var p :| p in events && IsSupport(p) && KeyOf(p) == k;
        assert p in all;
      }
    }
    if ix.scope.Some? {
      var p :| p in events && IsSupport(p) && ix.scope == Some((p.exercise, p.run)) && p.sequence == ix.last;
      assert p in all;
    }
  }

  lemma EmptyMeans()
    ensures Means(EMPTY, [])
  {
  }

  lemma WellFormedGrows(events: seq<Event>, e: Event)
    ensures WellFormed(events + [e]) <==> WellFormed(events) && Admissible(events, e)
  {
    hide Admissible;
    var all := events + [e];
    forall k | 0 <= k < |all| ensures all[..k] == (if k < |events| then events[..k] else events) {
    }
    if WellFormed(all) {
      forall k | 0 <= k < |events| ensures Admissible(events[..k], events[k]) {
        assert Admissible(all[..k], all[k]);
      }
      assert Admissible(all[..|events|], all[|events|]);
    }
  }

  /** The validator accepts a ledger exactly if every event was admissible after those before it, and the
      index it returns then describes the ledger: one record per request, its reply, who has an open one. */
  lemma {:induction false} AcceptsIffWellFormed(events: seq<Event>)
    ensures Pass(events).Ok? <==> WellFormed(events)
    ensures Pass(events).Ok? ==> Means(Pass(events).value, events)
  {
    hide Visit, Admissible, Means;
    if events == [] {
      EmptyMeans();
    } else {
      hide WellFormed;
      var init, e := events[..|events| - 1], events[|events| - 1];
      AcceptsIffWellFormed(init);
      assert init + [e] == events;
      WellFormedGrows(init, e);
      if Pass(init).Ok? {
        VisitStaysMeant(Pass(init).value, init, e);
      }
    }
  }
}
