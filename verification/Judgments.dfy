// Evaluators' judgments: what was accepted online is accepted by every later offline replay of the run.

module Judgments {
  import opened Prelude
  import Text

  datatype Improvement = Improvement(fields: map<string, string>)

  datatype Payload = Payload(objective: string, rating: string, rationale: string, expected: int, evidence: seq<string>,
                             overrideReason: string, platformReason: string, actions: seq<Improvement>)

  /** What the replay reads of an event. `missing` says that a checkpoint's reason reports a missing
      verifier state; an optional number or flag is `None` when it is absent or of another type. */
  datatype Kind =
    | CheckpointResolved(checkpoint: string, result: string, elapsed: Option<int>, missing: bool)
    | InjectDelivered(elapsed: Option<int>)
    | RecoveryReviewed(passed: Option<bool>)
    | Judged(payload: Payload, revision: int, supersedes: Option<string>, actorKind: string, role: string,
             visibility: string, scope: seq<string>, target: string)
    | Other

  datatype Event = Event(id: string, kind: Kind)

  const OBJECTIVES := {"LO1", "LO2", "LO3", "LO4", "LO5"}
  const RATINGS := {"performed", "performed_with_support", "partially_performed", "not_performed", "not_observed"}
  const ACTION_FIELDS := {"description", "owner", "priority", "target_date"}
  const JUDGES := {"evaluator", "facilitator"}

  // ---------------------------------------------------------------- machine observations

  datatype Observation = Met | NotMet | NotObserved | HumanReview

  predicate IsReading(k: Kind)
  {
    k.CheckpointResolved? || k.InjectDelivered? || k.RecoveryReviewed?
  }

  /** The events that an observation looks at. */
  function Readings(events: seq<Event>): seq<Kind>
  {
    if events == [] then []
    else if IsReading(events[|events| - 1].kind) then Readings(events[..|events| - 1]) + [events[|events| - 1].kind]
    else Readings(events[..|events| - 1])
  }

  function Resolutions(readings: seq<Kind>, checkpoint: string): seq<Kind>
  {
    if readings == [] then [] else
    var last := readings[|readings| - 1];
    var rest := Resolutions(readings[..|readings| - 1], checkpoint);
    if last.CheckpointResolved? && last.checkpoint == checkpoint then rest + [last] else rest
  }

  function Reviews(readings: seq<Kind>): seq<Kind>
  {
    if readings == [] then [] else
    var last := readings[|readings| - 1];
    if last.RecoveryReviewed? then Reviews(readings[..|readings| - 1]) + [last] else Reviews(readings[..|readings| - 1])
  }

  function InjectTimes(readings: seq<Kind>): seq<Option<int>>
  {
    if readings == [] then [] else
    var last := readings[|readings| - 1];
    if last.InjectDelivered? then InjectTimes(readings[..|readings| - 1]) + [last.elapsed]
    else InjectTimes(readings[..|readings| - 1])
  }

  function Earliest(times: seq<Option<int>>): int
    requires times != []
  {
    var last := times[|times| - 1].GetOr(0);
    if |times| == 1 then last
    else if last < Earliest(times[..|times| - 1]) then last else Earliest(times[..|times| - 1])
  }

  function CheckpointOf(objective: string): string
  {
    if objective == "LO1" then "DP1" else if objective == "LO3" then "DP2" else "DP3"
  }

  function StatusOf(passed: bool): Observation
  {
    if passed then Met else NotMet
  }

  /** `objective_observation` */
  function Observe(readings: seq<Kind>, objective: string): Result<Observation>
  {
    if objective !in OBJECTIVES then Refused
    else if objective == "LO2" then Ok(HumanReview)
    else if objective == "LO5" then
      var reviews := Reviews(readings);
      if reviews == [] then Ok(NotObserved) else
      var last := reviews[|reviews| - 1];
      if last.RecoveryReviewed? && last.passed.Some? then Ok(StatusOf(last.passed.value)) else Refused
    else
      var resolved := Resolutions(readings, CheckpointOf(objective));
      if resolved == [] then Ok(NotObserved)
      else if |resolved| != 1 || !resolved[0].CheckpointResolved? || resolved[0].result !in {"pass", "miss"}
      then Refused
      else
        var r := resolved[0];
        var passed := r.result == "pass";
        if objective != "LO1" then if r.missing then Ok(NotObserved) else Ok(StatusOf(passed))
        else
          var times := InjectTimes(readings);
          if None in times then Refused
          else if times == [] || r.elapsed.None? || r.missing then Ok(NotObserved)
          else Ok(StatusOf(passed && r.elapsed.value <= Earliest(times) + 1500))
  }

  // ---------------------------------------------------------------- one judgment

  /** The latest judgment of an objective: its revision and its event. */
  datatype Latest = Latest(revision: int, event: string)

  predicate TextOk(s: string, maximum: nat)
  {
    !Text.Blank(s) && |s| <= maximum
  }

  predicate Distinct(values: seq<string>)
  {
    forall i, j :: 0 <= i < j < |values| ==> values[i] != values[j]
  }

  predicate ActionOk(a: Improvement)
  {
    && a.fields.Keys == ACTION_FIELDS && (forall f :: f in a.fields ==> TextOk(a.fields[f], 512))
    && a.fields["priority"] in {"high", "medium", "low"}
  }

  function RevisionOf(previous: Option<Latest>): int
  {
    if previous.Some? then previous.value.revision else 0
  }

  /** `validate_judgment` */
  predicate JudgmentOk(p: Payload, references: set<string>, previous: Option<Latest>, observation: Observation)
  {
    && p.objective in OBJECTIVES && p.rating in RATINGS && TextOk(p.rationale, 2048)
    && p.expected >= 0 && p.expected == RevisionOf(previous)
    && |p.evidence| <= 20 && Distinct(p.evidence) && (forall e :: e in p.evidence ==> e in references)
    && |p.overrideReason| <= 2048 && |p.platformReason| <= 2048
    && (if p.rating == "not_observed" then TextOk(p.platformReason, 2048) else p.evidence != [])
    && ((p.rating in {"performed", "performed_with_support"} && observation == NotMet)
        || (observation == NotObserved && p.rating != "not_observed") || previous.Some?
        ==> TextOk(p.overrideReason, 2048))
    && |p.actions| <= 5 && forall i :: 0 <= i < |p.actions| ==> ActionOk(p.actions[i])
  }

  // ---------------------------------------------------------------- the offline replay

  datatype Review = Review(latest: map<string, Latest>, earlier: set<string>)

  function Previous(r: Review, objective: string): Option<Latest>
  {
    if objective in r.latest then Some(r.latest[objective]) else None
  }

  function SupersededBy(previous: Option<Latest>): Option<string>
  {
    if previous.Some? then Some(previous.value.event) else None
  }

  predicate Attributable(k: Kind)
    requires k.Judged?
  {
    k.role in JUDGES && k.actorKind == "facilitator" && k.visibility == "evaluator"
    && k.scope == [k.payload.objective] && k.target == k.payload.objective
  }

  /** `event` is a judgment that fits after the events of `r`, with the observations of the whole ledger. */
  predicate Fits(r: Review, readings: seq<Kind>, k: Kind)
    requires k.Judged?
  {
    var observation := Observe(readings, k.payload.objective);
    var previous := Previous(r, k.payload.objective);
    && Attributable(k) && observation.Ok?
    && JudgmentOk(k.payload, r.earlier, previous, observation.value)
    && k.revision == k.payload.expected + 1 && k.supersedes == SupersededBy(previous)
  }

  function Visit(r: Review, readings: seq<Kind>, e: Event): Result<Review>
  {
    if !e.kind.Judged? then Ok(r.(earlier := r.earlier + {e.id}))
    else if !Fits(r, readings, e.kind) then Refused
    else Ok(Review(r.latest[e.kind.payload.objective := Latest(e.kind.revision, e.id)], r.earlier + {e.id}))
  }

  /** The replay of `events` as part of a ledger with `readings`; all submissions count as earlier. */
  function Replay(events: seq<Event>, readings: seq<Kind>, submissions: set<string>): Result<Review>
  {
    if events == [] then Ok(Review(map[], submissions)) else
    var before := Replay(events[..|events| - 1], readings, submissions);
    if before.Ok? then Visit(before.value, readings, events[|events| - 1]) else Refused
  }

  /** `_validate_judgments` */
  method ValidateJudgments(events: seq<Event>, submissions: set<string>) returns (r: Result<Review>)
    ensures r == Replay(events, Readings(events), submissions)
  {
    hide Visit, Readings;
    var readings := Readings(events);
    var review := Review(map[], submissions);
    var k := 0;
    while k < |events|
      invariant 0 <= k <= |events| && Replay(events[..k], readings, submissions) == Ok(review)
    {
      assert events[..k + 1][..k] == events[..k];
      var next := Visit(review, readings, events[k]);
      if next.Refused? {
        StaysRefused(events, k + 1, readings, submissions);
        return Refused;
      }
      review := next.value;
      k := k + 1;
    }
    assert events[..k] == events;
    r := Ok(review);
  }

  lemma {:induction false} StaysRefused(events: seq<Event>, k: nat, readings: seq<Kind>, submissions: set<string>)
    requires k <= |events| && Replay(events[..k], readings, submissions).Refused?
    ensures Replay(events, readings, submissions).Refused?
    decreases |events| - k
  {
    hide Visit;
    if k == |events| {
      assert events[..k] == events;
    } else {
      assert events[..k + 1][..k] == events[..k];
      StaysRefused(events, k + 1, readings, submissions);
    }
  }

  // ---------------------------------------------------------------- judging online

  /** A run as its evaluators see it. */
  datatype Run = Run(terminal: bool, events: seq<Event>, submissions: set<string>)

  function Ids(events: seq<Event>): set<string>
  {
    set e | e in events :: e.id
  }

  /** `judge_objective` of a staff member, with the identifier of the event it would append. */
  function Judge(run: Run, p: Payload, role: string, id: string): Result<Run>
  {
    var readings := Readings(run.events);
    var report := Replay(run.events, readings, run.submissions);
    var observation := Observe(readings, p.objective);
    if !run.terminal || role !in JUDGES || id in Ids(run.events) || report.Refused? || observation.Refused?
    then Refused else
    var previous := Previous(report.value, p.objective);
    if !JudgmentOk(p, Ids(run.events) + run.submissions, previous, observation.value) then Refused
    else Ok(run.(events := run.events
                           + [Event(id, Judged(p, p.expected + 1, SupersededBy(previous), "facilitator", role,
                                               "evaluator", [p.objective], p.objective))]))
  }

  datatype Step =
    | Play(event: Event) // while play goes on
    | End                // stop or completion
    | Aftermath(event: Event) // anything else that is appended after it
    | Submit(reference: string)
    | JudgeBy(payload: Payload, role: string, id: string)

  /** Judgments come only from `judge_objective`, and nothing an observation reads is emitted once play
      has ended. That the exercise engine obeys this law is `ReviewedRuns.Refines`. */
  predicate Lawful(run: Run, step: Step)
  {
    match step
    case Play(e) => !run.terminal && !e.kind.Judged?
    case Aftermath(e) => run.terminal && !e.kind.Judged? && !IsReading(e.kind)
    case _ => true
  }

  function Next(run: Run, step: Step): Run
  {
    match step
    case Play(e) => run.(events := run.events + [e])
    case Aftermath(e) => run.(events := run.events + [e])
    case End => run.(terminal := true)
    case Submit(reference) => run.(submissions := run.submissions + {reference})
    case JudgeBy(p, role, id) => if Judge(run, p, role, id).Ok? then Judge(run, p, role, id).value else run
  }

  function Steps(run: Run, steps: seq<Step>): Run
  {
    if steps == [] then run else
    var before := Steps(run, steps[..|steps| - 1]);
    if Lawful(before, steps[|steps| - 1]) then Next(before, steps[|steps| - 1]) else before
  }

  // ---------------------------------------------------------------- what later events cannot change

  lemma ReadingsGrow(events: seq<Event>, e: Event)
    ensures Readings(events + [e]) == Readings(events) + (if IsReading(e.kind) then [e.kind] else [])
  {
    assert (events + [e])[..|events|] == events;
  }

  lemma ReplayGrows(events: seq<Event>, e: Event, readings: seq<Kind>, submissions: set<string>)
    ensures var before := Replay(events, readings, submissions);
            Replay(events + [e], readings, submissions)
            == (if before.Ok? then Visit(before.value, readings, e) else Refused)
  {
    assert (events + [e])[..|events|] == events;
  }

  /** A replay of judgments is a matter of what came before each of them, so more submissions only help. */
  lemma {:induction false} MoreSubmissions(events: seq<Event>, readings: seq<Kind>, some: set<string>,
        more: set<string>)
    requires some <= more && Replay(events, readings, some).Ok?
    ensures var a, b := Replay(events, readings, some), Replay(events, readings, more);
            b.Ok? && b.value.latest == a.value.latest && b.value.earlier == a.value.earlier + more
  {
    hide Observe, JudgmentOk;
    if events != [] {
      var init, e := events[..|events| - 1], events[|events| - 1];
      MoreSubmissions(init, readings, some, more);
      if e.kind.Judged? {
        var a, b := Replay(init, readings, some).value, Replay(init, readings, more).value;
        MoreReferences(e.kind.payload, a.earlier, b.earlier, Previous(a, e.kind.payload.objective),
                       Observe(readings, e.kind.payload.objective));
      }
    }
  }

  lemma MoreReferences(p: Payload, some: set<string>, more: set<string>, previous: Option<Latest>,
        o: Result<Observation>)
    requires some <= more
    ensures o.Ok? && JudgmentOk(p, some, previous, o.value) ==> JudgmentOk(p, more, previous, o.value)
  {
  }

  lemma {:induction false} NothingJudged(events: seq<Event>, readings: seq<Kind>, submissions: set<string>)
    requires forall e :: e in events ==> !e.kind.Judged?
    ensures Replay(events, readings, submissions) == Ok(Review(map[], submissions + Ids(events)))
  {
    if events == [] {
      assert submissions + Ids(events) == submissions;
    } else {
      var init, e := events[..|events| - 1], events[|events| - 1];
      assert e in events && forall x :: x in init ==> x in events;
      NothingJudged(init, readings, submissions);
      assert Ids(events) == Ids(init) + {e.id};
      assert submissions + Ids(events) == submissions + Ids(init) + {e.id};
    }
  }

  lemma {:induction false} EarlierAre(events: seq<Event>, readings: seq<Kind>, submissions: set<string>)
    requires Replay(events, readings, submissions).Ok?
    ensures Replay(events, readings, submissions).value.earlier == submissions + Ids(events)
  {
    hide Fits;
    if events != [] {
      var init, e := events[..|events| - 1], events[|events| - 1];
      EarlierAre(init, readings, submissions);
      assert Ids(events) == Ids(init) + {e.id};
    }
  }

  /** Nothing is judged before the end, and the replay of what there is succeeds. */
  ghost predicate Good(run: Run)
  {
    && (!run.terminal ==> forall e :: e in run.events ==> !e.kind.Judged?)
    && Replay(run.events, Readings(run.events), run.submissions).Ok?
  }

  lemma JudgeKeeps(run: Run, p: Payload, role: string, id: string)
    requires Good(run) && Judge(run, p, role, id).Ok?
    ensures Good(Judge(run, p, role, id).value)
  {
    hide Observe, JudgmentOk, Replay, Readings, Visit;
    var after := Judge(run, p, role, id).value;
    var e := after.events[|run.events|];
    var readings := Readings(run.events);
    ReadingsGrow(run.events, e);
    assert readings + [] == readings;
    ReplayGrows(run.events, e, readings, run.submissions);
    JudgedFits(run, p, role, id);
  }

  /** What was judged online fits the replay of the ledger so far. */
  lemma JudgedFits(run: Run, p: Payload, role: string, id: string)
    requires Good(run) && Judge(run, p, role, id).Ok?
    ensures var e, readings := Judge(run, p, role, id).value.events[|run.events|], Readings(run.events);
            e.kind.Judged? && Visit(Replay(run.events, readings, run.submissions).value, readings, e).Ok?
  {
    hide Observe, JudgmentOk, Replay, Readings;
    EarlierAre(run.events, Readings(run.events), run.submissions);
    assert run.submissions + Ids(run.events) == Ids(run.events) + run.submissions;
  }

  lemma StepKeeps(run: Run, step: Step)
    requires Good(run) && Lawful(run, step)
    ensures Good(Next(run, step))
  {
    hide Observe, JudgmentOk, Judge;
    match step {
      case Play(e) => NothingJudged(run.events + [e], Readings(run.events + [e]), run.submissions);
      case Aftermath(e) =>
        ReadingsGrow(run.events, e);
        ReplayGrows(run.events, e, Readings(run.events), run.submissions);
      case End =>
      case Submit(reference) =>
        MoreSubmissions(run.events, Readings(run.events), run.submissions, run.submissions + {reference});
      case JudgeBy(p, role, id) =>
        if Judge(run, p, role, id).Ok? {
          JudgeKeeps(run, p, role, id);
          JudgeEnds(run, p, role, id);
        }
    }
  }

  lemma JudgeEnds(run: Run, p: Payload, role: string, id: string)
    ensures Judge(run, p, role, id).Ok? ==> run.terminal && Judge(run, p, role, id).value.terminal
  {
  }

  /** Judgment stability: whatever is played, submitted, judged and appended afterwards, the offline replay
      accepts the ledger at every moment, so a judgment accepted online is never invalidated. */
  lemma {:induction false} AcceptedStaysAccepted(steps: seq<Step>)
    ensures var run := Steps(Run(false, [], {}), steps);
            Replay(run.events, Readings(run.events), run.submissions).Ok?
  {
    StepsKeep(steps);
    hide Steps, Replay, Readings;
  }

  lemma {:induction false} StepsKeep(steps: seq<Step>)
    ensures Good(Steps(Run(false, [], {}), steps))
  {
    hide Good, Next, Lawful;
    if steps == [] {
      assert Good(Run(false, [], {})) by { FreshIsGood(); }
    } else {
      StepsKeep(steps[..|steps| - 1]);
      var before := Steps(Run(false, [], {}), steps[..|steps| - 1]);
      if Lawful(before, steps[|steps| - 1]) {
        StepKeeps(before, steps[|steps| - 1]);
      }
    }
  }

  lemma FreshIsGood()
    ensures Good(Run(false, [], {}))
  {
  }

  /** Once play has ended, no step changes what any objective's observation is made from. */
  lemma {:induction false} ObservationsFreeze(run: Run, steps: seq<Step>)
    requires run.terminal
    ensures Steps(run, steps).terminal && Readings(Steps(run, steps).events) == Readings(run.events)
  {
    hide Observe, JudgmentOk, Readings, Replay;
    if steps != [] {
      var before, step := Steps(run, steps[..|steps| - 1]), steps[|steps| - 1];
      ObservationsFreeze(run, steps[..|steps| - 1]);
      var after := Next(before, step);
      if |after.events| == |before.events| + 1 {
        ReadingsGrow(before.events, after.events[|before.events|]);
      }
    }
  }

  // ---------------------------------------------------------------- revisions

  /** The judgments of one objective, in ledger order. */
  function History(events: seq<Event>, objective: string): seq<Event>
  {
    if events == [] then [] else
    var last := events[|events| - 1];
    var rest := History(events[..|events| - 1], objective);
    if last.kind.Judged? && last.kind.payload.objective == objective then rest + [last] else rest
  }

  /** Revisions count up from 1, each expecting and superseding the one before. */
  ghost predicate Chained(history: seq<Event>)
  {
    forall i :: 0 <= i < |history| ==> IsLink(history, i)
  }

  predicate IsLink(history: seq<Event>, i: nat)
    requires i < |history|
  {
    && history[i].kind.Judged? && history[i].kind.revision == i + 1 && history[i].kind.payload.expected == i
    && history[i].kind.supersedes == if i == 0 then None else Some(history[i - 1].id)
  }

  lemma FitsMeans(r: Review, readings: seq<Kind>, k: Kind)
    requires k.Judged? && Fits(r, readings, k)
    ensures var previous := Previous(r, k.payload.objective);
            && k.payload.expected == RevisionOf(previous) && k.revision == k.payload.expected + 1
            && k.supersedes == SupersededBy(previous)
  {
    hide Observe;
  }

  /** In an accepted ledger the judgments of each objective are chained, and the replay knows the last. */
  lemma {:induction false} RevisionsAreChained(events: seq<Event>, readings: seq<Kind>, submissions: set<string>,
        objective: string)
    requires Replay(events, readings, submissions).Ok?
    ensures var history := History(events, objective);
            && Chained(history)
            && Previous(Replay(events, readings, submissions).value, objective)
               == (if history == [] then None else Some(Latest(|history|, history[|history| - 1].id)))
  {
    hide Fits, Chained;
    if events == [] {
      assert Chained([]) by { EmptyIsChained(); }
    } else {
      var init, e := events[..|events| - 1], events[|events| - 1];
      RevisionsAreChained(init, readings, submissions, objective);
      if e.kind.Judged? && e.kind.payload.objective == objective {
        FitsMeans(Replay(init, readings, submissions).value, readings, e.kind);
        ChainGrows(History(init, objective), e);
      }
    }
  }

  lemma EmptyIsChained()
    ensures Chained([])
  {
  }

  lemma ChainGrows(history: seq<Event>, e: Event)
    requires Chained(history) && e.kind.Judged?
    requires e.kind.revision == |history| + 1 && e.kind.payload.expected == |history|
    requires e.kind.supersedes == if history == [] then None else Some(history[|history| - 1].id)
    ensures Chained(history + [e])
  {
    forall i | 0 <= i < |history| + 1 ensures IsLink(history + [e], i) {
      if i < |history| {
        assert IsLink(history, i);
      }
    }
  }

  /** Every judgment of an accepted ledger is grounded: it is attributable, cites only submissions and
      events before it, cites something unless nothing was observed, and explains itself where it
      contradicts the machine's observation or revises an earlier judgment. */
  lemma {:induction false} AcceptedJudgmentsAreGrounded(events: seq<Event>, readings: seq<Kind>,
        submissions: set<string>, i: nat)
    requires Replay(events, readings, submissions).Ok? && i < |events| && events[i].kind.Judged?
    ensures var k := events[i].kind;
            && Attributable(k)
            && (forall cited :: cited in k.payload.evidence ==>
                  cited in submissions || exists j :: 0 <= j < i && events[j].id == cited)
            && (k.payload.evidence == [] ==>
                  k.payload.rating == "not_observed" && !Text.Blank(k.payload.platformReason))
            && (var observed := Observe(readings, k.payload.objective);
                || k.revision > 1
                || (k.payload.rating in {"performed", "performed_with_support"} && observed == Ok(NotMet))
                || (k.payload.rating != "not_observed" && observed == Ok(NotObserved))
                ==> !Text.Blank(k.payload.overrideReason))
    decreases |events|
  {
    hide Observe, Text.Blank, ActionOk;
    var init := events[..|events| - 1];
    if i < |init| {
      AcceptedJudgmentsAreGrounded(init, readings, submissions, i);
    } else {
      var k, before := events[i].kind, Replay(init, readings, submissions).value;
      assert Fits(before, readings, k);
      EarlierAre(init, readings, submissions);
      forall cited | cited in k.payload.evidence
        ensures cited in submissions || exists j :: 0 <= j < i && events[j].id == cited {
        assert cited in before.earlier;
        if cited !in submissions {
          var e :| e in init && e.id == cited;
          var j :| 0 <= j < |init| && init[j] == e;
          assert events[j].id == cited;
        }
      }
    }
  }

  /** Of two judgments that expected the same revision of an objective, at most one is ever recorded. */
  lemma {:induction false} OneJudgmentPerRevision(steps: seq<Step>, objective: string, i: nat, j: nat)
    requires i < j < |History(Steps(Run(false, [], {}), steps).events, objective)|
    ensures var history := History(Steps(Run(false, [], {}), steps).events, objective);
            && history[i].kind.Judged? && history[j].kind.Judged?
            && history[i].kind.payload.expected != history[j].kind.payload.expected
  {
    hide Steps, Replay, History;
    var run := Steps(Run(false, [], {}), steps);
    AcceptedStaysAccepted(steps);
    RevisionsAreChained(run.events, Readings(run.events), run.submissions, objective);
    var history := History(run.events, objective);
    assert IsLink(history, i) && IsLink(history, j);
  }
}
