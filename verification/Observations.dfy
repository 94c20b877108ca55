// What the machine observes of each objective, read off the ledger itself, and which judgments that
// admits: the desk's answers without the desk's own steps.

module Observations {
  import opened Prelude
  import opened Judgments
  import Text

  // ---------------------------------------------------------------- single events of the ledger

  predicate Resolves(events: seq<Event>, i: int, checkpoint: string)
  {
    0 <= i < |events| && events[i].kind.CheckpointResolved? && events[i].kind.checkpoint == checkpoint
  }

  predicate Injects(events: seq<Event>, i: int)
  {
    0 <= i < |events| && events[i].kind.InjectDelivered?
  }

  predicate Reviews(events: seq<Event>, i: int)
  {
    0 <= i < |events| && events[i].kind.RecoveryReviewed?
  }

  /** The checkpoint was resolved at `i` and nowhere else, with a result that can be read. */
  ghost predicate ResolvedOnce(events: seq<Event>, i: int, checkpoint: string)
  {
    && Resolves(events, i, checkpoint) && (forall j :: Resolves(events, j, checkpoint) ==> j == i)
    && (events[i].kind.result == "pass" || events[i].kind.result == "miss")
  }

  ghost predicate NeverResolved(events: seq<Event>, checkpoint: string)
  {
    forall i :: !Resolves(events, i, checkpoint)
  }

  ghost predicate LastReview(events: seq<Event>, i: int)
  {
    Reviews(events, i) && forall j :: Reviews(events, j) ==> j <= i
  }

  ghost predicate InjectsTimed(events: seq<Event>)
  {
    forall j :: Injects(events, j) ==> events[j].kind.elapsed.Some?
  }

  /** The identity checkpoint's time can be compared: it and every inject carry one, and there is one. */
  ghost predicate Comparable(events: seq<Event>, i: int)
    requires Resolves(events, i, "DP1") && InjectsTimed(events)
  {
    events[i].kind.elapsed.Some? && !events[i].kind.missing && exists j :: Injects(events, j)
  }

  /** Resolved no later than 1500 seconds after the earliest delivered inject. */
  ghost predicate InTime(events: seq<Event>, i: int)
    requires Resolves(events, i, "DP1") && InjectsTimed(events) && Comparable(events, i)
  {
    forall j :: Injects(events, j) ==> events[i].kind.elapsed.value <= events[j].kind.elapsed.value + 1500
  }

  // ---------------------------------------------------------------- the observation of each objective

  /** Containment and recovery decisions: the checkpoint's one result, unless the verifier state was missing. */
  ghost predicate SaysCheckpoint(events: seq<Event>, checkpoint: string, o: Observation)
  {
    match o
    case Met =>
      exists i :: ResolvedOnce(events, i, checkpoint) && events[i].kind.result == "pass" && !events[i].kind.missing
    case NotMet =>
      exists i :: ResolvedOnce(events, i, checkpoint) && events[i].kind.result == "miss" && !events[i].kind.missing
    case NotObserved =>
      NeverResolved(events, checkpoint) || exists i :: ResolvedOnce(events, i, checkpoint) && events[i].kind.missing
    case HumanReview => false
  }

  /** The identity decision is also a matter of time. */
  ghost predicate SaysIdentity(events: seq<Event>, o: Observation)
  {
    match o
    case Met =>
      exists i :: && ResolvedOnce(events, i, "DP1") && InjectsTimed(events) && Comparable(events, i)
                  && events[i].kind.result == "pass" && InTime(events, i)
    case NotMet =>
      exists i :: && ResolvedOnce(events, i, "DP1") && InjectsTimed(events) && Comparable(events, i)
                  && (events[i].kind.result == "miss" || !InTime(events, i))
    case NotObserved =>
      NeverResolved(events, "DP1")
      || exists i :: ResolvedOnce(events, i, "DP1") && InjectsTimed(events) && !Comparable(events, i)
    case HumanReview => false
  }

  /** The last recovery review decides. */
  ghost predicate SaysRecovery(events: seq<Event>, o: Observation)
  {
    match o
    case Met => exists i :: LastReview(events, i) && events[i].kind.passed == Some(true)
    case NotMet => exists i :: LastReview(events, i) && events[i].kind.passed == Some(false)
    case NotObserved => forall i :: !Reviews(events, i)
    case HumanReview => false
  }

  ghost predicate Says(events: seq<Event>, objective: string, o: Observation)
  {
    if objective == "LO1" then SaysIdentity(events, o)
    else if objective == "LO2" then o == HumanReview
    else if objective == "LO3" then SaysCheckpoint(events, "DP2", o)
    else if objective == "LO4" then SaysCheckpoint(events, "DP3", o)
    else objective == "LO5" && SaysRecovery(events, o)
  }

  // ---------------------------------------------------------------- the computed observation says this

  /** Where in the ledger events of a kind are. */
  function Places(events: seq<Event>, which: Kind -> bool): seq<int>
  {
    if events == [] then [] else
    var last := |events| - 1;
    if which(events[last].kind) then Places(events[..last], which) + [last] else Places(events[..last], which)
  }

  lemma {:induction false} PlacesAre(events: seq<Event>, which: Kind -> bool)
    ensures var places := Places(events, which);
            && (forall i :: i in places <==> 0 <= i < |events| && which(events[i].kind))
            && forall m, n :: 0 <= m < n < |places| ==> places[m] < places[n]
  {
    if events != [] {
      PlacesAre(events[..|events| - 1], which);
      var rest := Places(events[..|events| - 1], which);
      assert forall n :: 0 <= n < |rest| ==> rest[n] in rest;
    }
  }

  ghost predicate AreKinds(events: seq<Event>, places: seq<int>, kinds: seq<Kind>)
  {
    && |kinds| == |places|
    && forall n :: 0 <= n < |places| ==> 0 <= places[n] < |events| && kinds[n] == events[places[n]].kind
  }

  lemma AreKindsMore(events: seq<Event>, e: Event, places: seq<int>, kinds: seq<Kind>)
    requires AreKinds(events, places, kinds)
    ensures AreKinds(events + [e], places, kinds)
    ensures AreKinds(events + [e], places + [|events|], kinds + [e.kind])
  {
  }

  function IsResolution(checkpoint: string): Kind -> bool
  {
    (k: Kind) => k.CheckpointResolved? && k.checkpoint == checkpoint
  }

  const IS_INJECT := (k: Kind) => k.InjectDelivered?
  const IS_REVIEW := (k: Kind) => k.RecoveryReviewed?

  lemma {:induction false} ResolutionsAre(events: seq<Event>, checkpoint: string)
    ensures AreKinds(events, Places(events, IsResolution(checkpoint)), Resolutions(Readings(events), checkpoint))
  {
    hide AreKinds;
    if events == [] {
      assert AreKinds([], [], []) by { NoKinds(); }
    } else {
      var init, e := events[..|events| - 1], events[|events| - 1];
      ResolutionsAre(init, checkpoint);
      assert init + [e] == events;
      AreKindsMore(init, e, Places(init, IsResolution(checkpoint)), Resolutions(Readings(init), checkpoint));
      assert (Readings(init) + [e.kind])[..|Readings(init)|] == Readings(init);
    }
  }

  lemma NoKinds()
    ensures AreKinds([], [], [])
  {
  }

  lemma {:induction false} ReviewsAre(events: seq<Event>)
    ensures AreKinds(events, Places(events, IS_REVIEW), Judgments.Reviews(Readings(events)))
  {
    hide AreKinds;
    if events == [] {
      assert AreKinds([], [], []) by { NoKinds(); }
    } else {
      var init, e := events[..|events| - 1], events[|events| - 1];
      ReviewsAre(init);
      assert init + [e] == events;
      AreKindsMore(init, e, Places(init, IS_REVIEW), Judgments.Reviews(Readings(init)));
      assert (Readings(init) + [e.kind])[..|Readings(init)|] == Readings(init);
    }
  }

  lemma {:induction false} InjectTimesAre(events: seq<Event>)
    ensures forall t :: t in InjectTimes(Readings(events)) <==>
              exists j :: Injects(events, j) && events[j].kind.elapsed == t
  {
    if events != [] {
      var init, e := events[..|events| - 1], events[|events| - 1];
      InjectTimesAre(init);
      assert (Readings(init) + [e.kind])[..|Readings(init)|] == Readings(init);
      assert forall j :: Injects(init, j) ==> Injects(events, j) && events[j] == init[j];
      assert forall j :: Injects(events, j) && j < |init| ==> Injects(init, j);
      forall t ensures t in InjectTimes(Readings(events)) <==>
                         exists j :: Injects(events, j) && events[j].kind.elapsed == t
      {
        if e.kind.InjectDelivered? && t == e.kind.elapsed {
          assert Injects(events, |init|);
        } else if j :| Injects(events, j) && events[j].kind.elapsed == t {
          assert j < |init| ==> Injects(init, j);
        }
      }
    }
  }

  lemma {:induction false} EarliestIs(times: seq<Option<int>>)
    requires times != []
    ensures Some(Earliest(times)) in times || None in times
    ensures None !in times ==> forall t :: t in times ==> Earliest(times) <= t.value
  {
    assert times == times[..|times| - 1] + [times[|times| - 1]];
    if |times| > 1 {
      EarliestIs(times[..|times| - 1]);
    }
  }

  /** A single resolution is found, and what is found alone is the single one. */
  lemma ResolvedOnceIff(events: seq<Event>, checkpoint: string)
    ensures var found := Resolutions(Readings(events), checkpoint);
            && (found == [] <==> NeverResolved(events, checkpoint))
            && (|found| == 1 && found[0].CheckpointResolved? && (found[0].result == "pass" || found[0].result == "miss")
                <==> exists i :: ResolvedOnce(events, i, checkpoint))
            && forall i :: ResolvedOnce(events, i, checkpoint) ==> found == [events[i].kind]
  {
    var found, places := Resolutions(Readings(events), checkpoint), Places(events, IsResolution(checkpoint));
    ResolutionsAre(events, checkpoint);
    PlacesAre(events, IsResolution(checkpoint));
    assert forall i :: Resolves(events, i, checkpoint) <==> i in places;
    if found == [] {
    } else {
      assert places[0] in places;
      assert Resolves(events, places[0], checkpoint);
      if |found| == 1 {
        assert found == [events[places[0]].kind];
        assert forall i :: ResolvedOnce(events, i, checkpoint) ==> i == places[0];
        if found[0].result == "pass" || found[0].result == "miss" {
          assert ResolvedOnce(events, places[0], checkpoint);
        }
      } else {
        assert places[1] in places;
        assert Resolves(events, places[1], checkpoint);
      }
    }
  }

  lemma {:induction false} SaysCheckpointIff(events: seq<Event>, objective: string, o: Observation)
    requires objective == "LO3" || objective == "LO4"
    ensures Observe(Readings(events), objective) == Ok(o)
            <==> SaysCheckpoint(events, if objective == "LO3" then "DP2" else "DP3", o)
  {
    hide Readings, Resolutions, NeverResolved, ResolvedOnce;
    var checkpoint := if objective == "LO3" then "DP2" else "DP3";
    ResolvedOnceIff(events, checkpoint);
  }

  lemma {:induction false} SaysRecoveryIff(events: seq<Event>, o: Observation)
    ensures Observe(Readings(events), "LO5") == Ok(o) <==> SaysRecovery(events, o)
  {
    hide Readings, Resolutions, Judgments.Reviews;
    var found, places := Judgments.Reviews(Readings(events)), Places(events, IS_REVIEW);
    ReviewsAre(events);
    PlacesAre(events, IS_REVIEW);
    assert forall i :: Reviews(events, i) <==> i in places;
    if found != [] {
      var last := places[|places| - 1];
      assert last in places;
      assert LastReview(events, last);
      assert found[|found| - 1] == events[last].kind;
      assert forall i :: LastReview(events, i) ==> i == last;
    }
  }

  lemma {:induction false} SaysIdentityIff(events: seq<Event>, o: Observation)
    ensures Observe(Readings(events), "LO1") == Ok(o) <==> SaysIdentity(events, o)
  {
    hide Readings, Resolutions, InjectTimes, Earliest, NeverResolved, ResolvedOnce, InTime, Comparable, InjectsTimed;
    var times := InjectTimes(Readings(events));
    ResolvedOnceIff(events, "DP1");
    TimesAre(events);
    if i :| ResolvedOnce(events, i, "DP1") {
      assert forall j :: ResolvedOnce(events, j, "DP1") ==> j == i by { OnlyOne(events, i); }
      assert Resolves(events, i, "DP1") by { OnlyOne(events, i); }
      if InjectsTimed(events) {
        ComparableIff(events, i);
      }
    }
  }

  lemma OnlyOne(events: seq<Event>, i: int)
    requires ResolvedOnce(events, i, "DP1")
    ensures Resolves(events, i, "DP1") && forall j :: ResolvedOnce(events, j, "DP1") ==> j == i
    ensures events[i].kind.result == "pass" || events[i].kind.result == "miss"
  {
  }

  lemma TimesAre(events: seq<Event>)
    ensures None !in InjectTimes(Readings(events)) <==> InjectsTimed(events)
  {
    hide Readings, InjectTimes;
    InjectTimesAre(events);
  }

  lemma ComparableIff(events: seq<Event>, i: int)
    requires Resolves(events, i, "DP1") && InjectsTimed(events)
    ensures var times, k := InjectTimes(Readings(events)), events[i].kind;
            && (Comparable(events, i) <==> times != [] && k.elapsed.Some? && !k.missing)
            && (Comparable(events, i) ==> (InTime(events, i) <==> k.elapsed.value <= Earliest(times) + 1500))
  {
    hide Readings, InjectTimes, Earliest;
    var times := InjectTimes(Readings(events));
    InjectTimesAre(events);
    TimesAre(events);
    if j :| Injects(events, j) {
      assert events[j].kind.elapsed in times;
    }
    if times != [] {
      EarliestIs(times);
      assert times[0] in times;
      var j :| Injects(events, j) && events[j].kind.elapsed == Some(Earliest(times));
    }
  }

  /** The observation of every objective, on every ledger: computed exactly as it reads. */
  lemma {:induction false} ObserveIff(events: seq<Event>, objective: string, o: Observation)
    ensures Observe(Readings(events), objective) == Ok(o) <==> Says(events, objective, o)
  {
    hide Readings, SaysCheckpoint, SaysRecovery, SaysIdentity;
    if objective == "LO1" {
      SaysIdentityIff(events, o);
    } else if objective == "LO3" || objective == "LO4" {
      SaysCheckpointIff(events, objective, o);
    } else if objective == "LO5" {
      SaysRecoveryIff(events, o);
    }
  }

  // ---------------------------------------------------------------- which judgments are recorded

  /** A reason is owed for a good rating of a missed objective, for any rating of an unobserved one but
      that it was not observed, and for every revision. */
  predicate OwesReason(rating: string, o: Observation, revised: bool)
  {
    || revised
    || ((rating == "performed" || rating == "performed_with_support") && o == NotMet)
    || (rating != "not_observed" && o == NotObserved)
  }

  /** The payload is complete in itself, reasons aside. */
  ghost predicate Complete(run: Run, p: Payload)
  {
    && p.objective in OBJECTIVES && p.rating in RATINGS && TextOk(p.rationale, 2048)
    && |p.evidence| <= 20 && Distinct(p.evidence)
    && (forall cited :: cited in p.evidence ==>
          cited in run.submissions || exists e :: e in run.events && e.id == cited)
    && |p.overrideReason| <= 2048 && |p.platformReason| <= 2048
    && (if p.rating == "not_observed" then !Text.Blank(p.platformReason) else p.evidence != [])
    && |p.actions| <= 5 && forall i :: 0 <= i < |p.actions| ==> ActionOk(p.actions[i])
  }

  /** When a judgment is recorded, on a ledger that the replay accepts: after the end, from a judge, under a
      new identifier, complete, expecting the number of judgments the objective has, and with a reason
      where one is owed. */
  ghost predicate Admits(run: Run, p: Payload, role: string, id: string)
  {
    var history := History(run.events, p.objective);
    && run.terminal && (role == "evaluator" || role == "facilitator")
    && (forall e :: e in run.events ==> e.id != id)
    && Complete(run, p) && p.expected == |history|
    && exists o :: Says(run.events, p.objective, o)
                   && (OwesReason(p.rating, o, history != []) ==> !Text.Blank(p.overrideReason))
  }

  lemma {:induction false} JudgeIff(run: Run, p: Payload, role: string, id: string)
    requires Good(run)
    ensures Judge(run, p, role, id).Ok? <==> Admits(run, p, role, id)
  {
    hide Readings, Observe, Says, Text.Blank, ActionOk, History;
    var readings := Readings(run.events);
    var review := Replay(run.events, readings, run.submissions).value;
    RevisionsAreChained(run.events, readings, run.submissions, p.objective);
    forall o ensures Observe(readings, p.objective) == Ok(o) <==> Says(run.events, p.objective, o) {
      ObserveIff(run.events, p.objective, o);
    }
    assert forall cited :: cited in Ids(run.events) <==> exists e :: e in run.events && e.id == cited;
    if Observe(readings, p.objective).Ok? {
      var o := Observe(readings, p.objective).value;
      assert Says(run.events, p.objective, o) && forall x :: Says(run.events, p.objective, x) ==> x == o;
    }
  }

  /** What is recorded: one event more, attributable, the next revision, superseding the one before. */
  lemma JudgeRecords(run: Run, p: Payload, role: string, id: string)
    requires Good(run) && Judge(run, p, role, id).Ok?
    ensures var history, a := History(run.events, p.objective), Judge(run, p, role, id).value;
            && a.terminal && a.submissions == run.submissions && |a.events| == |run.events| + 1
            && a.events[..|run.events|] == run.events
            && var e := a.events[|run.events|];
            && e.id == id && e.kind.Judged? && e.kind.payload == p && e.kind.role == role
            && e.kind.revision == |history| + 1
            && e.kind.supersedes == (if history == [] then None else Some(history[|history| - 1].id))
            && e.kind.visibility == "evaluator" && e.kind.target == p.objective
  {
    hide Readings, Observe, JudgmentOk;
    var readings := Readings(run.events);
    RevisionsAreChained(run.events, readings, run.submissions, p.objective);
    assert JudgmentOk(p, Ids(run.events) + run.submissions,
                      Previous(Replay(run.events, readings, run.submissions).value, p.objective),
                      Observe(readings, p.objective).value);
    ExpectsRevision(p, Ids(run.events) + run.submissions,
                    Previous(Replay(run.events, readings, run.submissions).value, p.objective),
                    Observe(readings, p.objective).value);
  }

  lemma ExpectsRevision(p: Payload, references: set<string>, previous: Option<Latest>, o: Observation)
    requires JudgmentOk(p, references, previous, o)
    ensures p.expected == RevisionOf(previous)
  {
  }

  /** The first judgment "performed" without a reason is recorded exactly if one with a reason would be and
      the objective is not observed as missed or not observed at all. */
  lemma {:induction false} PerformedNeedsReasonIff(run: Run, p: Payload, role: string, id: string, reason: string)
    requires Good(run) && History(run.events, p.objective) == [] && TextOk(reason, 2048)
    requires p.rating == "performed" || p.rating == "performed_with_support"
    ensures Judge(run, p.(overrideReason := ""), role, id).Ok?
            <==> && Judge(run, p.(overrideReason := reason), role, id).Ok?
                 && !Says(run.events, p.objective, NotMet) && !Says(run.events, p.objective, NotObserved)
  {
    hide Judge, Says, History, ActionOk, Good;
    JudgeIff(run, p.(overrideReason := ""), role, id);
    JudgeIff(run, p.(overrideReason := reason), role, id);
    SaysOne(run.events, p.objective);
    assert Text.Blank("");
  }

  lemma SaysOne(events: seq<Event>, objective: string)
    ensures forall a, b :: Says(events, objective, a) && Says(events, objective, b) ==> a == b
  {
    hide Says, Observe, Readings;
    forall a, b | Says(events, objective, a) && Says(events, objective, b) ensures a == b {
      ObserveIff(events, objective, a);
      ObserveIff(events, objective, b);
    }
  }
}
