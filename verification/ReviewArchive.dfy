// The run's ledger under its shared sequencer, and review archives that commit together with their audit.

module ReviewArchive {
  import opened Prelude

  datatype Event = Event(id: string, sequence: int, payload: string)

  /** The frozen bundle. Its digest is collision-free and covers everything in it, so that it stands for
      the digest as well. */
  datatype Bundle = Bundle(run: string, state: string, events: seq<Event>, submissions: seq<string>)

  datatype Archive = Archive(id: string, bundle: Bundle, audit: string)

  /** What becomes of the one transaction, and whether the ledger can be read again after a failure. */
  datatype Fate = Commits | NotBuilt(readable: bool) | RollsBack(readable: bool) | CommitsButRaises(readable: bool)

  /** The run in progress, its sequencer, every run's events and submissions, and the archives. */
  datatype Portal = Portal(run: string, state: string, sequence: nat, ledgers: map<string, seq<Event>>,
                           submissions: map<string, seq<string>>, archives: seq<Archive>)

  datatype Reply = Captured(id: string) | AlreadyCaptured(id: string) | Failed

  function Ledger(p: Portal, run: string): seq<Event>
  {
    if run in p.ledgers then p.ledgers[run] else []
  }

  function BundleOf(p: Portal): Bundle
  {
    Bundle(p.run, p.state, Ledger(p, p.run), if p.run in p.submissions then p.submissions[p.run] else [])
  }

  predicate Contiguous(events: seq<Event>)
  {
    forall i :: 0 <= i < |events| ==> events[i].sequence == i + 1
  }

  predicate Terminal(p: Portal)
  {
    p.state in {"stopped", "completed"}
  }

  function Add(p: Portal, e: Event): Portal
  {
    p.(ledgers := p.ledgers[p.run := Ledger(p, p.run) + [e]])
  }

  /** `_capture_review`: reserve a number, then commit the archive and its audit together or neither; after
      a failure give the number back only if the ledger is seen to be as it was. */
  function CaptureReview(p: Portal, id: string, audit: string, fate: Fate): (Portal, bool)
  {
    var bundle := BundleOf(p);
    if p.sequence != |bundle.events| || !Contiguous(bundle.events) then (p, false) else
    var reserved := p.(sequence := p.sequence + 1);
    var added := Archive(id, bundle, audit);
    var committed := Add(reserved, Event(audit, reserved.sequence, id)).(archives := p.archives + [added]);
    match fate
    case Commits => (committed, true)
    case NotBuilt(readable) => (if readable then p else reserved, false)
    case RollsBack(readable) => (if readable then p else reserved, false)
    case CommitsButRaises(readable) => (committed, false)
  }

  function ByHash(archives: seq<Archive>, bundle: Bundle): Option<Archive>
  {
    if archives == [] then None
    else if archives[0].bundle == bundle then Some(archives[0]) else ByHash(archives[1..], bundle)
  }

  const REVIEW_ROLES := {"facilitator", "evaluator"}

  /** `capture_review_archive` for a member of staff who reviewed `expected`. */
  function Capture(p: Portal, role: string, run: string, expected: Bundle, id: string, audit: string, fate: Fate):
    (Portal, Reply)
  {
    if role !in REVIEW_ROLES then (p, Failed)
    else if run != p.run || !Terminal(p) || expected.run != run then (p, Failed) else
    var existing := ByHash(p.archives, expected);
    if existing.Some? then (p, AlreadyCaptured(existing.value.id))
    else if expected != BundleOf(p) then (p, Failed)
    else
      var (after, ok) := CaptureReview(p, id, audit, fate);
      (after, if ok then Captured(id) else Failed)
  }

  datatype Step =
    | Produce(event: Event)      // a component builds an event and stores it
    | Submit(submission: string)
    | SetState(state: string)
    | StaffCapture(role: string, run: string, expected: Bundle, id: string, audit: string, fate: Fate)
    | Reset(next: string, id: string, audit: string, fate: Fate)

  /** Producers take their number from the sequencer; identifiers are new; a new run is unused. */
  predicate Lawful(p: Portal, step: Step)
  {
    match step
    case Produce(e) => e.sequence == p.sequence + 1
    case Reset(next, id, audit, fate) => next != p.run && next !in p.ledgers
    case _ => true
  }

  function Next(p: Portal, step: Step): Portal
  {
    match step
    case Produce(e) => Add(p.(sequence := p.sequence + 1), e)
    case Submit(submission) =>
      p.(submissions := p.submissions[p.run := BundleOf(p).submissions + [submission]])
    case SetState(state) => p.(state := state)
    case StaffCapture(role, run, expected, id, audit, fate) => Capture(p, role, run, expected, id, audit, fate).0
    case Reset(next, id, audit, fate) =>
      if !Terminal(p) then p else
      var (after, ok) := CaptureReview(p, id, audit, fate);
      if ok then after.(run := next, state := "ready", sequence := 0) else after
  }

  function Run(p: Portal, steps: seq<Step>): Portal
  {
    if steps == [] then p else
    var before := Run(p, steps[..|steps| - 1]);
    if Lawful(before, steps[|steps| - 1]) then Next(before, steps[|steps| - 1]) else before
  }

  function Fresh(run: string): Portal
  {
    Portal(run, "ready", 0, map[], map[], [])
  }

  // ---------------------------------------------------------------- contiguity

  /** Every run's stored numbers are 1 to n; the live sequencer is at n, or past it if a reservation could
      not be confirmed to be free. */
  ghost predicate Numbered(p: Portal)
  {
    && (forall run :: run in p.ledgers && run != p.run ==> Contiguous(p.ledgers[run]))
    && (p.sequence == |Ledger(p, p.run)| ==> Contiguous(Ledger(p, p.run)))
    && p.sequence >= |Ledger(p, p.run)|
  }

  /** No reservation has been left behind in this run. */
  predicate InStep(p: Portal)
  {
    p.sequence == |Ledger(p, p.run)|
  }

  ghost predicate AllReadable(steps: seq<Step>)
  {
    forall s :: s in steps ==>
      match s
      case StaffCapture(_, _, _, _, _, fate) => fate.Commits? || fate.readable
      case Reset(_, _, _, fate) => fate.Commits? || fate.readable
      case _ => true
  }

  lemma AddIs(p: Portal, e: Event)
    ensures Ledger(Add(p, e), p.run) == Ledger(p, p.run) + [e]
    ensures Contiguous(Ledger(p, p.run)) && e.sequence == |Ledger(p, p.run)| + 1 ==>
              Contiguous(Ledger(Add(p, e), p.run))
    ensures forall run :: run != p.run ==> Ledger(Add(p, e), run) == Ledger(p, run)
  {
  }

  lemma CaptureKeeps(p: Portal, id: string, audit: string, fate: Fate)
    requires Numbered(p)
    ensures var (after, ok) := CaptureReview(p, id, audit, fate);
            && Numbered(after) && after.run == p.run && after.state == p.state
            && after.ledgers.Keys <= p.ledgers.Keys + {p.run}
            && (ok ==> InStep(after)) && (InStep(p) && (fate.Commits? || fate.readable) ==> InStep(after))
  {
    hide Contiguous;
    var bundle := BundleOf(p);
    AddIs(p.(sequence := p.sequence + 1), Event(audit, p.sequence + 1, id));
  }

  lemma StepKeeps(p: Portal, step: Step)
    requires Numbered(p) && Lawful(p, step) && InStep(p)
    ensures Numbered(Next(p, step))
    ensures AllReadable([step]) ==> InStep(Next(p, step))
  {
    hide Contiguous, CaptureReview;
    match step {
      case Produce(e) => AddIs(p.(sequence := p.sequence + 1), e);
      case StaffCapture(role, run, expected, id, audit, fate) =>
        assert step in [step];
        CaptureKeeps(p, id, audit, fate);
      case Reset(next, id, audit, fate) =>
        assert step in [step];
        CaptureKeeps(p, id, audit, fate);
        assert Contiguous([]) by { EmptyIsContiguous(); }
      case _ =>
    }
  }

  lemma EmptyIsContiguous()
    ensures Contiguous([])
  {
  }

  /** Ledger contiguity over every run: as long as the ledger can be read again after each failed capture,
      the sequencer equals the number of stored events and they are numbered 1 to n, in this run and in
      every run before it, whatever was captured, rolled back, half-failed and reset. */
  lemma {:induction false} LedgersAreContiguous(run: string, steps: seq<Step>)
    requires AllReadable(steps)
    ensures var p := Run(Fresh(run), steps);
            && InStep(p) && Numbered(p)
            && forall which :: Contiguous(Ledger(p, which))
  {
    hide Next, Lawful, Contiguous;
    EmptyIsContiguous();
    if steps != [] {
      var init, last := steps[..|steps| - 1], steps[|steps| - 1];
      assert forall s :: s in init ==> s in steps;
      LedgersAreContiguous(run, init);
      assert last in steps;
      assert AllReadable([last]);
      if Lawful(Run(Fresh(run), init), last) {
        StepKeeps(Run(Fresh(run), init), last);
      }
    }
  }

  // ---------------------------------------------------------------- archives

  /** The archive holds a prefix of its run's ledger, and the very next event is its audit. */
  predicate IsFrozen(p: Portal, a: Archive)
  {
    var ledger, n := Ledger(p, a.bundle.run), |a.bundle.events|;
    n < |ledger| && ledger[..n] == a.bundle.events && ledger[n].id == a.audit && ledger[n].payload == a.id
  }

  ghost predicate Archived(p: Portal)
  {
    && (forall a :: a in p.archives ==> IsFrozen(p, a))
    && forall i, j :: 0 <= i < j < |p.archives| ==> p.archives[i].bundle != p.archives[j].bundle
  }

  ghost predicate LedgersGrow(p: Portal, q: Portal)
  {
    forall run :: Ledger(p, run) <= Ledger(q, run)
  }

  lemma FrozenStays(p: Portal, q: Portal, a: Archive)
    requires IsFrozen(p, a) && LedgersGrow(p, q)
    ensures IsFrozen(q, a)
  {
    var n := |a.bundle.events|;
    assert Ledger(p, a.bundle.run) <= Ledger(q, a.bundle.run);
    assert Ledger(q, a.bundle.run)[..n] == Ledger(p, a.bundle.run)[..n];
  }

  lemma ArchivesStay(p: Portal, q: Portal)
    requires Archived(p) && q.archives == p.archives && LedgersGrow(p, q)
    ensures Archived(q)
  {
    hide IsFrozen, LedgersGrow;
    forall a | a in q.archives ensures IsFrozen(q, a) {
      FrozenStays(p, q, a);
    }
  }

  /** A bundle of the present ledger is none of the archived ones: each of those has its audit after it. */
  lemma BundleIsNew(p: Portal, a: Archive)
    requires IsFrozen(p, a)
    ensures a.bundle != BundleOf(p)
  {
  }

  lemma CaptureArchives(p: Portal, id: string, audit: string, fate: Fate)
    requires Archived(p)
    ensures var q := CaptureReview(p, id, audit, fate).0;
            && Archived(q) && LedgersGrow(p, q) && q.run == p.run
            && (q.archives == p.archives || q.archives == p.archives + [Archive(id, BundleOf(p), audit)])
            && (CaptureReview(p, id, audit, fate).1 ==> q.archives == p.archives + [Archive(id, BundleOf(p), audit)])
  {
    hide IsFrozen, Contiguous, Archived, LedgersGrow;
    var q := CaptureReview(p, id, audit, fate).0;
    CaptureGrows(p, id, audit, fate);
    if q.archives != p.archives {
      var added := Archive(id, BundleOf(p), audit);
      NewIsFrozen(p, q, added);
      ArchiveAdded(p, q, added);
    } else {
      ArchivesStay(p, q);
    }
  }

  lemma CaptureGrows(p: Portal, id: string, audit: string, fate: Fate)
    ensures LedgersGrow(p, CaptureReview(p, id, audit, fate).0)
  {
    hide Contiguous;
  }

  lemma ArchiveAdded(p: Portal, q: Portal, added: Archive)
    requires Archived(p) && LedgersGrow(p, q) && q.archives == p.archives + [added]
    requires IsFrozen(q, added) && added.bundle == BundleOf(p)
    ensures Archived(q)
  {
    hide IsFrozen, LedgersGrow, BundleOf;
    forall a | a in p.archives ensures IsFrozen(q, a) && a.bundle != BundleOf(p) {
      FrozenStays(p, q, a);
      BundleIsNew(p, a);
    }
  }

  lemma NewIsFrozen(p: Portal, q: Portal, a: Archive)
    requires a.bundle == BundleOf(p)
    requires Ledger(q, p.run) == Ledger(p, p.run) + [Event(a.audit, p.sequence + 1, a.id)]
    ensures IsFrozen(q, a)
  {
  }

  lemma StepArchives(p: Portal, step: Step)
    requires Archived(p) && Lawful(p, step)
    ensures Archived(Next(p, step)) && p.archives <= Next(p, step).archives
  {
    hide IsFrozen, Contiguous, CaptureReview, Archived, BundleOf, LedgersGrow;
    match step {
      case Produce(e) => ProduceGrows(p, e); ArchivesStay(p, Next(p, step));
      case Submit(submission) => SameLedgers(p, Next(p, step)); ArchivesStay(p, Next(p, step));
      case SetState(state) => SameLedgers(p, Next(p, step)); ArchivesStay(p, Next(p, step));
      case StaffCapture(role, run, expected, id, audit, fate) => CaptureArchives(p, id, audit, fate);
      case Reset(next, id, audit, fate) =>
        CaptureArchives(p, id, audit, fate);
        if Terminal(p) {
          var after := CaptureReview(p, id, audit, fate).0;
          SameLedgers(after, Next(p, step));
          ArchivesStay(after, Next(p, step));
        }
    }
  }

  lemma ProduceGrows(p: Portal, e: Event)
    ensures LedgersGrow(p, Next(p, Produce(e)))
  {
  }

  lemma SameLedgers(p: Portal, q: Portal)
    requires q.ledgers == p.ledgers
    ensures LedgersGrow(p, q)
  {
  }

  /** Over every run: archives are only added, no bundle is archived twice, and each archive is a frozen
      prefix of its ledger with its audit stored right behind it. */
  lemma {:induction false} ArchivesAreFrozen(run: string, steps: seq<Step>)
    ensures Archived(Run(Fresh(run), steps))
  {
    hide Next, Lawful, IsFrozen;
    if steps != [] {
      var init, last := steps[..|steps| - 1], steps[|steps| - 1];
      ArchivesAreFrozen(run, init);
      if Lawful(Run(Fresh(run), init), last) {
        StepArchives(Run(Fresh(run), init), last);
      }
    }
  }

  lemma {:induction false} ByHashFinds(archives: seq<Archive>, bundle: Bundle)
    ensures ByHash(archives, bundle).Some? <==> exists a :: a in archives && a.bundle == bundle
    ensures ByHash(archives, bundle).Some? ==>
              ByHash(archives, bundle).value in archives && ByHash(archives, bundle).value.bundle == bundle
  {
    if archives != [] {
      ByHashFinds(archives[1..], bundle);
      assert archives == [archives[0]] + archives[1..];
    }
  }

  /** A retried capture of the same review never adds a second archive: it answers with the first one. */
  lemma {:induction false} RetriedCaptureIsReplayed(p: Portal, role: string, steps: seq<Step>, expected: Bundle,
        id: string, audit: string, whose: string, again: string, other: string, fate: Fate)
    requires Archived(p) && Capture(p, role, p.run, expected, id, audit, Commits).1 == Captured(id)
    ensures var later := Run(Capture(p, role, p.run, expected, id, audit, Commits).0, steps);
            var retry := Capture(later, whose, p.run, expected, again, other, fate);
            retry.0 == later && (retry.1 == AlreadyCaptured(id) || retry.1.Failed?)
            && (retry.1.Failed? <==> whose !in REVIEW_ROLES || later.run != p.run || !Terminal(later))
  {
    hide IsFrozen, Contiguous, CaptureReview, Terminal;
    var done := Capture(p, role, p.run, expected, id, audit, Commits).0;
    CaptureArchives(p, id, audit, Commits);
    var first := Archive(id, expected, audit);
    assert done.archives[|p.archives|] == first;
    RunArchives(done, steps);
    var later := Run(done, steps);
    assert later.archives[|p.archives|] == first;
    ByHashFinds(later.archives, expected);
    var found := ByHash(later.archives, expected).value;
    var k :| 0 <= k < |later.archives| && later.archives[k] == found;
    assert k == |p.archives|;
  }

  lemma {:induction false} RunArchives(p: Portal, steps: seq<Step>)
    requires Archived(p)
    ensures Archived(Run(p, steps)) && p.archives <= Run(p, steps).archives
  {
    hide Next, Lawful, IsFrozen, Archived;
    if steps != [] {
      var init, last := steps[..|steps| - 1], steps[|steps| - 1];
      RunArchives(p, init);
      if Lawful(Run(p, init), last) {
        StepArchives(Run(p, init), last);
      }
    }
  }

  // ---------------------------------------------------------------- what is captured, and when

  function StoredEvents(p: Portal): seq<Event>
  {
    if p.run in p.ledgers then p.ledgers[p.run] else []
  }

  function StoredSubmissions(p: Portal): seq<string>
  {
    if p.run in p.submissions then p.submissions[p.run] else []
  }

  /** Every stored number is its place, and the sequencer is at the last. */
  predicate Consistent(p: Portal)
  {
    && p.sequence == |StoredEvents(p)|
    && forall i :: 0 <= i < |StoredEvents(p)| ==> StoredEvents(p)[i].sequence == i + 1
  }

  /** The archive has been added, holding the run as it is, and the ledger has its audit and nothing else. */
  predicate HasCaptured(p: Portal, a: Portal, id: string, audit: string)
  {
    && a.archives == p.archives + [Archive(id, Bundle(p.run, p.state, StoredEvents(p), StoredSubmissions(p)), audit)]
    && a.ledgers == p.ledgers[p.run := StoredEvents(p) + [Event(audit, |StoredEvents(p)| + 1, id)]]
    && a.sequence == p.sequence + 1 && a.run == p.run && a.state == p.state && a.submissions == p.submissions
  }

  /** A capture needs a consistent ledger. It commits archive and audit together or neither, whatever is
      reported; a reservation that is not used is given back if the ledger can be read. */
  lemma {:induction false} CaptureReviewIs(p: Portal, id: string, audit: string, fate: Fate)
    ensures var (a, ok) := CaptureReview(p, id, audit, fate);
            && (ok <==> Consistent(p) && fate.Commits?)
            && (!Consistent(p) ==> a == p)
            && (Consistent(p) && (fate.Commits? || fate.CommitsButRaises?) ==> HasCaptured(p, a, id, audit))
            && (Consistent(p) && (fate.NotBuilt? || fate.RollsBack?) ==>
                  a == if fate.readable then p else p.(sequence := p.sequence + 1))
  {
  }

  /** A staff capture succeeds exactly for a reviewer who names the ended run in progress and has seen it as it
      is now, if it was not captured so before and its ledger is consistent. The archive then holds the
      run's state, every stored event and every submission. */
  lemma {:induction false} CaptureIff(p: Portal, role: string, run: string, expected: Bundle, id: string, audit: string,
        fate: Fate)
    ensures var (a, reply) := Capture(p, role, run, expected, id, audit, fate);
            var may := (role == "facilitator" || role == "evaluator") && run == p.run
                       && (p.state == "stopped" || p.state == "completed") && expected.run == run;
            var now := Bundle(p.run, p.state, StoredEvents(p), StoredSubmissions(p));
            && (reply.AlreadyCaptured? <==> may && exists x :: x in p.archives && x.bundle == expected)
            && (reply == Captured(id) <==>
                  && may && expected == now && Consistent(p) && fate.Commits?
                  && forall x :: x in p.archives ==> x.bundle != expected)
            && (reply == Captured(id) ==> HasCaptured(p, a, id, audit))
            && (reply.AlreadyCaptured? || !may || expected != now ==> a == p)
  {
    hide CaptureReview, ByHash, HasCaptured, Consistent;
    ByHashFinds(p.archives, expected);
    CaptureReviewIs(p, id, audit, fate);
  }
}
