// Evaluators' judgments beside the engine they judge: what the controller emits is the ledger the
// judgments are replayed on, and the controller itself sees to it that nothing read there comes late.

module ReviewedRuns {
  import opened Prelude
  import opened ExerciseEngine
  import Controller
  import J = Judgments

  /** The engine and the ledger of its present run, both behind the run lock. */
  datatype State = State(engine: Engine, review: J.Run)

  /** Judgments, submissions and the events of other components come between the calls of the controller,
      never inside one. */
  datatype Step =
    | Call(op: Controller.Op)
    | Append(id: string) // another component's event
    | Submit(reference: string)
    | JudgeBy(payload: J.Payload, role: string, id: string)

  const MISSING := "Verifier state is missing"

  predicate IsInject(cfg: Config, id: string)
  {
    Controller.Find(cfg.items, id).Some? && Controller.Find(cfg.items, id).value.kind.Inject?
  }

  /** What a review reads in an event of the engine. */
  function KindOf(cfg: Config, event: Event): J.Kind
  {
    match event
    case CheckpointResolved(id, branch, reason, at) =>
      J.CheckpointResolved(id, if branch.Pass? then "pass" else "miss", Some(at), MISSING <= reason)
    case ItemDelivered(id, at) => if IsInject(cfg, id) then J.InjectDelivered(Some(at)) else J.Other
    case RecoveryReviewed(passed, at) => J.RecoveryReviewed(Some(passed))
    case _ => J.Other
  }

  /** The ledger entries of the events from number `from` on; `names` gives each its identifier. */
  function Entries(cfg: Config, names: nat -> string, log: seq<Event>, from: nat): seq<J.Event>
  {
    if |log| <= from then [] else
    var last := |log| - 1;
    Entries(cfg, names, log[..last], from) + [J.Event(names(last), KindOf(cfg, log[last]))]
  }

  predicate Ended(e: Engine)
  {
    e.state in {Stopped, Completed}
  }

  const NEW_REVIEW := J.Run(false, [], {})

  /** A reset gives the run another identifier, under which nothing has been recorded yet. */
  function Base(s: State, step: Step): J.Run
  {
    if step.Call? && step.op.Reset? && Ended(s.engine) then NEW_REVIEW else s.review
  }

  function Next(cfg: Config, names: nat -> string, s: State, step: Step): State
  {
    match step
    case Call(op) =>
      var after := Controller.Apply(cfg, s.engine, op).engine;
      var base := Base(s, step);
      State(after, J.Run(Ended(after), base.events + Entries(cfg, names, after.log, |s.engine.log|), base.submissions))
    case Append(id) => s.(review := s.review.(events := s.review.events + [J.Event(id, J.Other)]))
    case Submit(reference) => s.(review := s.review.(submissions := s.review.submissions + {reference}))
    case JudgeBy(p, role, id) =>
      var judged := J.Judge(s.review, p, role, id);
      if judged.Ok? then s.(review := judged.value) else s
  }

  function Run(cfg: Config, names: nat -> string, s: State, steps: seq<Step>): State
  {
    if steps == [] then s
    else Next(cfg, names, Run(cfg, names, s, steps[..|steps| - 1]), steps[|steps| - 1])
  }

  function Fresh(cfg: Config, world: World): State
  {
    State(Initial(cfg, world), NEW_REVIEW)
  }

  // ---------------------------------------------------------------- the controller obeys the review's law

  /** The review sees the end of play when the controller does. */
  predicate Synced(s: State)
  {
    s.review.terminal == Ended(s.engine)
  }

  /** The steps of the review that one step here amounts to: everything a call emits while play is live
      counts as play, even after an end on the way, because nobody judges before the call is over. */
  function ReviewSteps(cfg: Config, names: nat -> string, s: State, step: Step): seq<J.Step>
  {
    match step
    case Call(op) =>
      var after := Controller.Apply(cfg, s.engine, op).engine;
      var entries := Entries(cfg, names, after.log, |s.engine.log|);
      if Base(s, step).terminal then Appended(entries, true)
      else Appended(entries, false) + if Ended(after) then [J.End] else []
    case Append(id) => Appended([J.Event(id, J.Other)], s.review.terminal)
    case Submit(reference) => [J.Submit(reference)]
    case JudgeBy(p, role, id) => [J.JudgeBy(p, role, id)]
  }

  function Appended(events: seq<J.Event>, terminal: bool): seq<J.Step>
  {
    if events == [] then [] else
    var last := events[|events| - 1];
    Appended(events[..|events| - 1], terminal) + [if terminal then J.Aftermath(last) else J.Play(last)]
  }

  lemma {:induction false} StepsConcat(run: J.Run, a: seq<J.Step>, b: seq<J.Step>)
    ensures J.Steps(run, a + b) == J.Steps(J.Steps(run, a), b)
  {
    hide J.Lawful, J.Next;
    if b == [] {
      assert a + b == a;
    } else {
      assert (a + b)[..|a + b| - 1] == a + b[..|b| - 1];
      StepsConcat(run, a, b[..|b| - 1]);
    }
  }

  lemma OneStep(run: J.Run, step: J.Step)
    ensures J.Steps(run, [step]) == if J.Lawful(run, step) then J.Next(run, step) else run
  {
    hide J.Lawful, J.Next;
    assert [step][..0] == [];
  }

  lemma {:induction false} AppendedRuns(run: J.Run, events: seq<J.Event>)
    requires forall x :: x in events ==> !x.kind.Judged? && (run.terminal ==> !J.IsReading(x.kind))
    ensures J.Steps(run, Appended(events, run.terminal)) == run.(events := run.events + events)
  {
    if events != [] {
      var init, last := events[..|events| - 1], events[|events| - 1];
      AppendedRuns(run, init);
      var step := if run.terminal then J.Aftermath(last) else J.Play(last);
      assert last in events;
      StepsConcat(run, Appended(init, run.terminal), [step]);
      OneStep(run.(events := run.events + init), step);
      assert init + [last] == events;
      assert run.events + init + [last] == run.events + events;
    } else {
      assert run.events + events == run.events;
    }
  }

  lemma {:induction false} EntriesAre(cfg: Config, names: nat -> string, log: seq<Event>, from: nat)
    ensures forall x :: x in Entries(cfg, names, log, from) ==>
              !x.kind.Judged? && exists k :: from <= k < |log| && x.kind == KindOf(cfg, log[k])
  {
    if from < |log| {
      var last := |log| - 1;
      EntriesAre(cfg, names, log[..last], from);
      forall x | x in Entries(cfg, names, log, from)
        ensures !x.kind.Judged? && exists k :: from <= k < |log| && x.kind == KindOf(cfg, log[k])
      {
        if x in Entries(cfg, names, log[..last], from) {
          var k :| from <= k < last && x.kind == KindOf(cfg, log[..last][k]);
          assert x.kind == KindOf(cfg, log[k]);
        } else {
          assert x.kind == KindOf(cfg, log[last]);
        }
      }
    }
  }

  /** Once play has ended, a call other than a reset emits nothing that an observation reads. */
  lemma NothingReadAfterTheEnd(cfg: Config, names: nat -> string, e: Engine, op: Controller.Op)
    requires Ended(e) && !op.Reset?
    ensures var after := Controller.Apply(cfg, e, op).engine;
            && Ended(after)
            && forall x :: x in Entries(cfg, names, after.log, |e.log|) ==> !J.IsReading(x.kind)
  {
    hide Controller.Apply, Entries;
    var after := Controller.Apply(cfg, e, op).engine;
    assert [op][..0] == [];
    assert Controller.Run(cfg, e, [op]) == after;
    Controller.EndedSaysNothingOfPlay(cfg, e, [op]);
    Controller.EndedStaysEnded(cfg, e, [op]);
    EntriesAre(cfg, names, after.log, |e.log|);
  }

  /** One call, or one step between calls, is a lawful run of the review. */
  lemma StepRefines(cfg: Config, names: nat -> string, s: State, step: Step)
    requires Synced(s)
    ensures Synced(Next(cfg, names, s, step))
    ensures J.Steps(Base(s, step), ReviewSteps(cfg, names, s, step)) == Next(cfg, names, s, step).review
  {
    hide Controller.Apply, Entries, J.Judge;
    match step {
      case Call(op) =>
        var after := Controller.Apply(cfg, s.engine, op).engine;
        var entries := Entries(cfg, names, after.log, |s.engine.log|);
        var base := Base(s, step);
        EntriesAre(cfg, names, after.log, |s.engine.log|);
        if base.terminal {
          NothingReadAfterTheEnd(cfg, names, s.engine, op);
        }
        AppendedRuns(base, entries);
        if !base.terminal {
          StepsConcat(base, Appended(entries, false), if Ended(after) then [J.End] else []);
          OneStep(base.(events := base.events + entries), J.End);
        }
      case Append(id) => AppendedRuns(s.review, [J.Event(id, J.Other)]);
      case Submit(reference) => OneStep(s.review, J.Submit(reference));
      case JudgeBy(p, role, id) =>
        OneStep(s.review, J.JudgeBy(p, role, id));
        J.JudgeEnds(s.review, p, role, id);
    }
  }

  /** What the review has seen since it began, or since the last reset. */
  function Seen(cfg: Config, names: nat -> string, s: State, steps: seq<Step>): (J.Run, seq<J.Step>)
  {
    if steps == [] then (s.review, []) else
    var init, last := steps[..|steps| - 1], steps[|steps| - 1];
    var before := Run(cfg, names, s, init);
    var mine := ReviewSteps(cfg, names, before, last);
    if last.Call? && last.op.Reset? && Ended(before.engine) then (NEW_REVIEW, mine)
    else (Seen(cfg, names, s, init).0, Seen(cfg, names, s, init).1 + mine)
  }

  /** Every run of the controller, with judgments placed anywhere between its calls, is a lawful run of
      the review: the engine never emits what the law forbids. */
  lemma {:induction false} Refines(cfg: Config, names: nat -> string, s: State, steps: seq<Step>)
    requires Synced(s)
    ensures var (base, seen) := Seen(cfg, names, s, steps);
            && Synced(Run(cfg, names, s, steps))
            && Run(cfg, names, s, steps).review == J.Steps(base, seen)
            && base in {s.review, NEW_REVIEW}
            && ((forall step :: step in steps && step.Call? ==> !step.op.Reset?) ==> base == s.review)
  {
    hide Next, ReviewSteps, J.Steps;
    if steps == [] {
      assert J.Steps(s.review, []) == s.review by { NoSteps(s.review); }
    } else {
      var init, last := steps[..|steps| - 1], steps[|steps| - 1];
      var before := Run(cfg, names, s, init);
      Refines(cfg, names, s, init);
      StepRefines(cfg, names, before, last);
      assert last in steps;
      var (base, seen) := Seen(cfg, names, s, init);
      StepsConcat(base, seen, ReviewSteps(cfg, names, before, last));
    }
  }

  lemma NoSteps(run: J.Run)
    ensures J.Steps(run, []) == run
  {
  }

  // ---------------------------------------------------------------- judgment stability

  /** Whatever the exercise does, at whatever time it is judged, the offline replay accepts the ledger. */
  lemma {:induction false} AcceptedStaysAccepted(cfg: Config, names: nat -> string, world: World, steps: seq<Step>)
    ensures var review := Run(cfg, names, Fresh(cfg, world), steps).review;
            J.Replay(review.events, J.Readings(review.events), review.submissions).Ok?
  {
    hide Run, Seen, J.Replay, J.Readings, J.Steps;
    Refines(cfg, names, Fresh(cfg, world), steps);
    J.AcceptedStaysAccepted(Seen(cfg, names, Fresh(cfg, world), steps).1);
  }

  /** Once the controller has ended play, every objective's observation is frozen until a reset: no call
      of the controller, no other component's event and no judgment changes what it is made from. */
  lemma {:induction false} ObservationsFreeze(cfg: Config, names: nat -> string, world: World, played: seq<Step>,
        later: seq<Step>, objective: string)
    requires var s := Run(cfg, names, Fresh(cfg, world), played); Ended(s.engine)
    requires forall step :: step in later && step.Call? ==> !step.op.Reset?
    ensures var s := Run(cfg, names, Fresh(cfg, world), played);
            var a := Run(cfg, names, s, later);
            && Ended(a.engine)
            && J.Readings(a.review.events) == J.Readings(s.review.events)
            && J.Observe(J.Readings(a.review.events), objective) == J.Observe(J.Readings(s.review.events), objective)
  {
    hide Run, Seen, J.Readings, J.Steps, J.Observe;
    var s := Run(cfg, names, Fresh(cfg, world), played);
    Refines(cfg, names, Fresh(cfg, world), played);
    Refines(cfg, names, s, later);
    J.ObservationsFreeze(s.review, Seen(cfg, names, s, later).1);
  }

  /** A judgment that was accepted is never lost or reordered: until a reset the ledger only grows. */
  lemma {:induction false} LedgerGrows(cfg: Config, names: nat -> string, s: State, steps: seq<Step>)
    requires forall step :: step in steps && step.Call? ==> !step.op.Reset?
    ensures s.review.events <= Run(cfg, names, s, steps).review.events
  {
    hide Controller.Apply, Entries;
    if steps != [] {
      assert steps[|steps| - 1] in steps;
      LedgerGrows(cfg, names, s, steps[..|steps| - 1]);
    }
  }
}
