// The deterministic exercise engine on values: ScenarioController and ScheduledMfa as functions
// from one engine state to the next. The classes in ExerciseObjects.dfy are proved against these.

module ExerciseEngine {
  import opened Prelude

  // ---------------------------------------------------------------- the reviewed scenario

  datatype Kind = Setup | Inject | Action | Checkpoint | End

  datatype Branch = Pass | Miss

  datatype Trigger =
    | PreExercise(order: nat)
    | Elapsed(seconds: nat, order: nat)
    | AfterCheckpoint(checkpoint: string, branch: Branch, order: nat)

  datatype Item = Item(id: string, kind: Kind, byFacilitator: bool, trigger: Trigger, action: Option<string>)

  /** `ScenarioDefinition.from_dict` refuses repeated identifiers. */
  predicate UniqueIds(items: seq<Item>)
  {
    forall i, j :: 0 <= i < j < |items| ==> items[i].id != items[j].id
  }

  lemma SameItem(items: seq<Item>, a: Item, b: Item)
    requires UniqueIds(items) && a in items && b in items && a.id == b.id
    ensures a == b
  {
    var i :| 0 <= i < |items| && items[i] == a;
    var j :| 0 <= j < |items| && items[j] == b;
    assert i == j;
  }

  // ---------------------------------------------------------------- run-time state

  datatype RunState = Ready | Running | Paused | Stopped | Completed

  datatype Status = Pending | Offered | Delivered | Skipped | Failed

  datatype Runtime = Runtime(status: Status, deliveredAt: Option<int>)

  datatype Outcome = Sent | Approved | Denied | Expired | Blocked | Cancelled

  datatype Reason =
    | AwaitingDecision | HumanDecision | Timeout | FailSafeStop
    | AccountDisabled | SessionRevoked | FactorRemoved | CredentialRotated

  datatype Challenge = Challenge(item: string, deliveredAt: int, expiresAt: int, outcome: Outcome, reason: Reason)

  /** `pending` is the last entry of `history`, not a copy of it: `open` says whether there is one. */
  datatype Mfa = Mfa(history: seq<Challenge>, open: bool)

  /** The synthetic identity the challenges are about, and whatever else handlers keep. */
  datatype World = World(enabled: bool, sessionActive: bool, factorActive: bool, credentialVersion: int,
                         decision: Option<Outcome>, pushes: nat, rest: map<string, string>)

  datatype Event =
    | RunStarted(at: int) | RunPaused(at: int) | RunResumed(at: int) | RunStopped(at: int) | RunReset
    | ItemOffered(id: string, at: int)
    | ItemDelivered(id: string, at: int)
    | ItemSkipped(id: string, at: int)
    | ItemFailed(id: string, at: int)
    | CheckpointResolved(id: string, branch: Branch, reason: string, at: int)
    | RecoveryReviewed(passed: bool, at: int) // emitted by the handler that finishes play
    | MfaRecorded(challenge: Challenge, at: int)

  datatype Engine = Engine(state: RunState, elapsed: int, items: map<string, Runtime>, results: map<string, Branch>,
                           log: seq<Event>, mfa: Mfa, world: World)

  /** A handler's `AutomationResult`, or its exception. The data of a result may carry an
      `elapsed_seconds` of its own, which then replaces the controller's in the event. */
  datatype Verdict = Success(stamp: Option<int>) | Failure(stamp: Option<int>) | Raised | NotAResult

  /** What a handler did to the world, whether it emitted a recovery review, with which result, and whether
      it called the fail-safe stop on the way. */
  datatype Effect = Effect(world: World, review: Option<bool>, stops: bool, verdict: Verdict)

  type Handler = (Item, Engine) -> Effect

  const MFA_ACTION := "identity.mfa.challenge.deliver"

  datatype Config = Config(items: seq<Item>, handlers: map<string, Handler>, timeout: nat, credentialVersion: int)

  function RuntimeOf(e: Engine, id: string): Runtime
  {
    if id in e.items then e.items[id] else Runtime(Pending, None)
  }

  function FreshItems(cfg: Config): map<string, Runtime>
  {
    map i | i in cfg.items :: i.id := Runtime(Pending, None)
  }

  function Initial(cfg: Config, world: World): Engine
  {
    Engine(Ready, 0, FreshItems(cfg), map[], [], Mfa([], false), world)
  }

  // ---------------------------------------------------------------- scheduled MFA

  /** `_blocked_reason` */
  function BlockedReason(cfg: Config, w: World): Option<Reason>
  {
    if !w.enabled then Some(AccountDisabled)
    else if !w.sessionActive then Some(SessionRevoked)
    else if !w.factorActive then Some(FactorRemoved)
    else if w.credentialVersion != cfg.credentialVersion then Some(CredentialRotated)
    else None
  }

  /** `pending` is set only together with a `history` entry. */
  predicate MfaOk(m: Mfa)
  {
    m.open ==> m.history != []
  }

  function Current(m: Mfa): Challenge
    requires MfaOk(m) && m.open
  {
    m.history[|m.history| - 1]
  }

  /** `_record` on the pending challenge, after which nothing is pending. */
  function Close(e: Engine, outcome: Outcome, reason: Reason, at: int): Engine
    requires MfaOk(e.mfa) && e.mfa.open
  {
    var c := Current(e.mfa).(outcome := outcome, reason := reason);
    var last := |e.mfa.history| - 1;
    e.(log := e.log + [MfaRecorded(c, at)],
       mfa := Mfa(e.mfa.history[last := c], false),
       world := e.world.(decision := Some(outcome)))
  }

  /** `ScheduledMfa.advance` */
  function MfaAdvance(cfg: Config, e: Engine): Engine
  {
    if !MfaOk(e.mfa) || !e.mfa.open then e else
    var reason := BlockedReason(cfg, e.world);
    if reason.Some? then Close(e, Cancelled, reason.value, e.elapsed)
    else if e.elapsed >= Current(e.mfa).expiresAt then Close(e, Expired, Timeout, Current(e.mfa).expiresAt)
    else e
  }

  /** A new challenge, blocked from the start or awaiting a decision. */
  function Opened(cfg: Config, e: Engine, item: Item): Engine
  {
    var reason := BlockedReason(cfg, e.world);
    var c := Challenge(item.id, e.elapsed, e.elapsed + cfg.timeout,
                       if reason.Some? then Blocked else Sent, if reason.Some? then reason.value else AwaitingDecision);
    e.(log := e.log + [MfaRecorded(c, e.elapsed)],
       mfa := Mfa(e.mfa.history + [c], reason.None?),
       world := e.world.(decision := Some(c.outcome),
                         pushes := if reason.None? then e.world.pushes + 1 else e.world.pushes))
  }

  /** `ScheduledMfa.deliver`: the engine afterwards, and whether the handler succeeded. */
  function MfaDeliver(cfg: Config, e: Engine, item: Item): (Engine, bool)
  {
    if e.state != Running then (e, false) else
    var now := MfaAdvance(cfg, e);
    if now.mfa.open then (now, false) else (Opened(cfg, now, item), true)
  }

  // ---------------------------------------------------------------- items

  function Completes(e: Engine, item: Item, stamp: Option<int>): Engine
  {
    e.(items := e.items[item.id := Runtime(Delivered, Some(e.elapsed))],
       log := e.log + [ItemDelivered(item.id, stamp.GetOr(e.elapsed))],
       state := if item.kind.End? then Completed else e.state)
  }

  /** `_fail_item` */
  function Fail(e: Engine, item: Item, stamp: Option<int>): Engine
  {
    e.(items := e.items[item.id := RuntimeOf(e, item.id).(status := Failed)],
       log := e.log + [ItemFailed(item.id, stamp.GetOr(e.elapsed))])
  }

  /** The states in which facilitators may still act. */
  predicate Live(state: RunState)
  {
    state in {Ready, Running, Paused}
  }

  /** `fail_safe_stop` with a reason. */
  function Stop(e: Engine): Engine
  {
    if Live(e.state) then e.(state := Stopped, log := e.log + [RunStopped(e.elapsed)]) else e
  }

  /** A reviewed handler runs: it changes the world and may emit the recovery review. */
  function Reviewed(e: Engine, effect: Effect): Engine
  {
    e.(world := effect.world,
       log := if effect.review.Some? then e.log + [RecoveryReviewed(effect.review.value, e.elapsed)] else e.log)
  }

  /** And it may stop the run before it returns. */
  function Ran(e: Engine, effect: Effect): Engine
  {
    if effect.stops then Stop(Reviewed(e, effect)) else Reviewed(e, effect)
  }

  /** `_deliver` */
  function Deliver(cfg: Config, e: Engine, item: Item): Engine
  {
    if item.action.None? then Completes(e, item, None)
    else if item.action.value == MFA_ACTION then
      var (after, ok) := MfaDeliver(cfg, e, item);
      if ok then Completes(after, item, None) else Fail(after, item, None)
    else if item.action.value !in cfg.handlers then Fail(e, item, None)
    else
      var effect := cfg.handlers[item.action.value](item, e);
      match effect.verdict
      case Success(stamp) => Completes(Ran(e, effect), item, stamp)
      case Failure(stamp) => Fail(Ran(e, effect), item, stamp)
      case _ => Fail(Ran(e, effect), item, None)
  }

  /** `_make_due` */
  function MakeDue(cfg: Config, e: Engine, item: Item): Engine
  {
    if RuntimeOf(e, item.id).status != Pending then e
    else if item.byFacilitator || item.kind.Checkpoint? then
      e.(items := e.items[item.id := RuntimeOf(e, item.id).(status := Offered)],
         log := e.log + [ItemOffered(item.id, e.elapsed)])
    else Deliver(cfg, e, item)
  }

  /** `_advance_clock`: assign the time without comparing, then tell the observer. */
  function Clock(cfg: Config, e: Engine, seconds: int): Engine
  {
    MfaAdvance(cfg, e.(elapsed := seconds))
  }

  // ---------------------------------------------------------------- order of delivery

  function Seconds(item: Item): nat
  {
    if item.trigger.Elapsed? then item.trigger.seconds else 0
  }

  /** The sort key comes strictly first. */
  predicate KeyLess(a: Item, b: Item)
  {
    Seconds(a) < Seconds(b) || (Seconds(a) == Seconds(b) && a.trigger.order < b.trigger.order)
  }

  /** Put an item that was listed earlier before everything with the same key. */
  function Insert(item: Item, sorted: seq<Item>): seq<Item>
  {
    if sorted == [] || !KeyLess(sorted[0], item) then [item] + sorted
    else [sorted[0]] + Insert(item, sorted[1..])
  }

  /** The stable `sorted(…)` of the source. */
  function Sort(items: seq<Item>): seq<Item>
  {
    if items == [] then [] else Insert(items[0], Sort(items[1..]))
  }

  /** Pending items whose elapsed trigger lies after `from` and not after `to`. */
  predicate IsDue(e: Engine, item: Item, from: int, to: int)
  {
    && item.trigger.Elapsed?
    && from < item.trigger.seconds <= to
    && RuntimeOf(e, item.id).status == Pending
  }

  function DueItems(items: seq<Item>, e: Engine, from: int, to: int): seq<Item>
  {
    if items == [] then [] else
    var rest := DueItems(items[1..], e, from, to);
    if IsDue(e, items[0], from, to) then [items[0]] + rest else rest
  }

  /** What `advance_to(seconds)` delivers, in order. */
  function Due(cfg: Config, e: Engine, seconds: int): seq<Item>
  {
    Sort(DueItems(cfg.items, e, -1, seconds))
  }

  // ---------------------------------------------------------------- advancing

  function Visit(cfg: Config, e: Engine, item: Item): Engine
  {
    MakeDue(cfg, Clock(cfg, e, Seconds(item)), item)
  }

  /** The delivery loop. It does not look at the run state again. */
  function Process(cfg: Config, e: Engine, due: seq<Item>): Engine
  {
    if due == [] then e else Visit(cfg, Process(cfg, e, due[..|due| - 1]), due[|due| - 1])
  }

  function Advance(cfg: Config, e: Engine, seconds: int): Engine
  {
    Clock(cfg, Process(cfg, e, Due(cfg, e, seconds)), seconds)
  }

  /** `advance_to` */
  function AdvanceTo(cfg: Config, e: Engine, seconds: int): Result<Engine>
  {
    if e.state != Running || seconds < e.elapsed then Refused else Ok(Advance(cfg, e, seconds))
  }

  // ---------------------------------------------------------------- sorting is what it should be

  ghost predicate SortedByKey(items: seq<Item>)
  {
    forall i, j :: 0 <= i < j < |items| ==> !KeyLess(items[j], items[i])
  }

  lemma {:induction false} InsertSorts(item: Item, sorted: seq<Item>)
    requires SortedByKey(sorted)
    ensures SortedByKey(Insert(item, sorted))
    ensures multiset(Insert(item, sorted)) == multiset(sorted) + multiset{item}
  {
    if sorted != [] {
      assert sorted == [sorted[0]] + sorted[1..];
      if KeyLess(sorted[0], item) {
        InsertSorts(item, sorted[1..]);
        var r := Insert(item, sorted[1..]);
        forall j | 0 <= j < |r| ensures !KeyLess(r[j], sorted[0]) {
          assert r[j] in multiset(r);
          assert r[j] == item || r[j] in sorted[1..];
        }
      }
    }
  }

  /** Earlier seconds first, and at equal seconds the smaller reviewed order. */
  ghost predicate InOrder(items: seq<Item>)
  {
    forall i, j :: 0 <= i < j < |items| ==>
      || Seconds(items[i]) < Seconds(items[j])
      || (Seconds(items[i]) == Seconds(items[j]) && items[i].trigger.order <= items[j].trigger.order)
  }

  /** Due items are delivered in order of time and then of reviewed order, each once. */
  lemma {:induction false} SortSorts(items: seq<Item>)
    ensures SortedByKey(Sort(items)) && InOrder(Sort(items))
    ensures multiset(Sort(items)) == multiset(items)
  {
    if items != [] {
      SortSorts(items[1..]);
      InsertSorts(items[0], Sort(items[1..]));
      assert items == [items[0]] + items[1..];
    }
  }

  lemma SortKeepsMembers(items: seq<Item>)
    ensures forall i :: i in Sort(items) <==> i in items
  {
    SortSorts(items);
    forall i ensures i in Sort(items) <==> i in items {
      assert i in Sort(items) <==> i in multiset(Sort(items));
      assert i in items <==> i in multiset(items);
    }
  }

  lemma {:induction false} DueItemsAre(items: seq<Item>, e: Engine, from: int, to: int)
    ensures forall i :: i in DueItems(items, e, from, to) <==> i in items && IsDue(e, i, from, to)
  {
    if items != [] {
      DueItemsAre(items[1..], e, from, to);
    }
  }

  /** Items with equal keys keep the order in which the scenario lists them. */
  lemma {:induction false} SortIsStable(items: seq<Item>, a: Item, b: Item)
    requires UniqueIds(items) && a in items && b in items && a != b
    requires !KeyLess(a, b) && !KeyLess(b, a)
    ensures Position(Sort(items), a) < Position(Sort(items), b) <==> Position(items, a) < Position(items, b)
  {
    var rest := items[1..];
    SortKeepsMembers(rest);
    SortSorts(rest);
    if items[0] == a || items[0] == b {
      var other := if items[0] == a then b else a;
      InsertBefore(items[0], Sort(rest), other);
    } else {
      SortIsStable(rest, a, b);
      InsertKeepsOrder(items[0], Sort(rest), a, b);
    }
  }

  function Position(items: seq<Item>, item: Item): nat
  {
    if items == [] || items[0] == item then 0 else 1 + Position(items[1..], item)
  }

  lemma {:induction false} InsertBefore(item: Item, sorted: seq<Item>, other: Item)
    requires other in sorted && item !in sorted && !KeyLess(other, item) && SortedByKey(sorted)
    ensures Position(Insert(item, sorted), item) < Position(Insert(item, sorted), other)
  {
    if KeyLess(sorted[0], item) {
      InsertBefore(item, sorted[1..], other);
    }
  }

  lemma {:induction false} InsertKeepsOrder(item: Item, sorted: seq<Item>, a: Item, b: Item)
    requires a in sorted && b in sorted && item != a && item != b
    ensures Position(Insert(item, sorted), a) < Position(Insert(item, sorted), b)
            <==> Position(sorted, a) < Position(sorted, b)
  {
    if KeyLess(sorted[0], item) && sorted[0] != a && sorted[0] != b {
      InsertKeepsOrder(item, sorted[1..], a, b);
    }
  }
}
