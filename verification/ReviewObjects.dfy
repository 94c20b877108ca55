// The portal's review operations as methods that change the run's ledger, sequencer and archives, and
// keep them numbered, frozen and accepted by the offline replay.

module ReviewObjects {
  import opened Prelude
  import R = ReviewArchive
  import J = Judgments
  import O = Observations

  class ReviewService {
    var run: string
    var state: string
    var sequence: nat
    var ledgers: map<string, seq<R.Event>>
    var submissions: map<string, seq<string>>
    var archives: seq<R.Archive>

    constructor (run: string)
      ensures Valid() && Value() == R.Fresh(run)
    {
      this.run, state, sequence, ledgers, submissions, archives := run, "ready", 0, map[], map[], [];
    }

    /** Numbers run from 1 to n, and every archive is a frozen prefix of its ledger. */
    ghost predicate Valid()
      reads this
    {
      R.Numbered(Value()) && R.Archived(Value())
    }

    function Value(): (p: R.Portal)
      reads this
      ensures p.run == run && p.state == state && p.sequence == sequence
      ensures p.ledgers == ledgers && p.archives == archives
    {
      R.Portal(run, state, sequence, ledgers, submissions, archives)
    }

    method IsContiguous(events: seq<R.Event>) returns (r: bool)
      ensures r == R.Contiguous(events)
    {
      var k := 0;
      while k < |events|
        invariant 0 <= k <= |events| && R.Contiguous(events[..k])
      {
        if events[k].sequence != k + 1 {
          return false;
        }
        k := k + 1;
      }
      assert events[..k] == events;
      r := true;
    }

    method FindByHash(bundle: R.Bundle) returns (found: Option<R.Archive>)
      ensures found == R.ByHash(archives, bundle)
    {
      var k := 0;
      while k < |archives|
        invariant 0 <= k <= |archives|
        invariant R.ByHash(archives[k..], bundle) == R.ByHash(archives, bundle)
      {
        if archives[k].bundle == bundle {
          return Some(archives[k]);
        }
        k := k + 1;
      }
      found := None;
    }

    /** Reserve, build, commit; on failure cancel the reservation if the ledger reads as before. */
    method CaptureReview(id: string, audit: string, fate: R.Fate) returns (ok: bool)
      requires Valid()
      modifies this`sequence, this`ledgers, this`archives
      ensures Valid()
      ensures (Value(), ok) == R.CaptureReview(old(Value()), id, audit, fate)
    {
      hide R.Contiguous, R.Numbered, R.Archived;
      R.CaptureKeeps(Value(), id, audit, fate);
      R.CaptureArchives(Value(), id, audit, fate);
      var bundle := R.BundleOf(Value());
      var contiguous := IsContiguous(bundle.events);
      if sequence != |bundle.events| || !contiguous {
        return false;
      }
      sequence := sequence + 1;
      if fate.Commits? || fate.CommitsButRaises? {
        ledgers := ledgers[run := bundle.events + [R.Event(audit, sequence, id)]];
        archives := archives + [R.Archive(id, bundle, audit)];
      }
      ok := fate.Commits?;
      if !ok && fate.readable && R.Ledger(Value(), run) == bundle.events {
        sequence := |bundle.events|;
      }
    }

    method CaptureReviewArchive(role: string, runId: string, expected: R.Bundle, id: string, audit: string,
        fate: R.Fate)
      returns (reply: R.Reply)
      requires Valid()
      modifies this`sequence, this`ledgers, this`archives
      ensures Valid()
      ensures (Value(), reply) == R.Capture(old(Value()), role, runId, expected, id, audit, fate)
    {
      hide R.CaptureReview, R.ByHash, R.Numbered, R.Archived;
      if role !in R.REVIEW_ROLES {
        return R.Failed;
      }
      if runId != run || !R.Terminal(Value()) || expected.run != runId {
        return R.Failed;
      }
      var existing := FindByHash(expected);
      if existing.Some? {
        return R.AlreadyCaptured(existing.value.id);
      }
      if expected != R.BundleOf(Value()) {
        return R.Failed;
      }
      var ok := CaptureReview(id, audit, fate);
      reply := if ok then R.Captured(id) else R.Failed;
    }
  }

  class JudgmentDesk {
    var terminal: bool
    var events: seq<J.Event>
    var submissions: set<string>

    constructor ()
      ensures Valid() && Value() == J.Run(false, [], {})
    {
      terminal, events, submissions := false, [], {};
    }

    /** The offline replay accepts the ledger, and nothing is judged before the end. */
    ghost predicate Valid()
      reads this
    {
      J.Good(Value())
    }

    function Value(): (r: J.Run)
      reads this
      ensures r == J.Run(terminal, events, submissions)
    {
      J.Run(terminal, events, submissions)
    }

    method JudgeObjective(p: J.Payload, role: string, id: string) returns (recorded: bool)
      requires Valid()
      modifies this`events
      ensures Valid()
      ensures recorded <==> O.Admits(old(Value()), p, role, id)
      ensures var r := J.Judge(old(Value()), p, role, id);
              recorded == r.Ok? && Value() == if r.Ok? then r.value else old(Value())
    {
      hide J.Replay, J.Observe, J.JudgmentOk, J.Readings, J.Good, O.Admits;
      O.JudgeIff(Value(), p, role, id);
      if J.Judge(Value(), p, role, id).Ok? {
        J.JudgeKeeps(Value(), p, role, id);
      }
      if !terminal || role !in J.JUDGES || id in J.Ids(events) {
        return false;
      }
      var report := J.ValidateJudgments(events, submissions);
      var observation := J.Observe(J.Readings(events), p.objective);
      if report.Refused? || observation.Refused? {
        return false;
      }
      var previous := J.Previous(report.value, p.objective);
      if !J.JudgmentOk(p, J.Ids(events) + submissions, previous, observation.value) {
        return false;
      }
      events := events + [J.Event(id, J.Judged(p, p.expected + 1, J.SupersededBy(previous), "facilitator", role,
                                               "evaluator", [p.objective], p.objective))];
      recorded := true;
    }
  }
}
