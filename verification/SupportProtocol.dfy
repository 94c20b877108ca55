// The browser's half of the help desk: a frozen message and its retry key, sent over a network that may
// lose, delay, repeat and reorder. End to end, a message is recorded at most once, and exactly once if
// the browser was told so.

module SupportProtocol {
  import opened Prelude
  import opened SupportIndex
  import opened SupportDesk
  import Text

  // ---------------------------------------------------------------- one browser session

  datatype Item = Item(request: string, answered: bool)

  datatype Snapshot = Snapshot(run: string, runState: string, role: string, requests: seq<Item>)

  /** What the user typed. */
  datatype Form =
    | Question(objective: string, message: string)
    | Reply(request: string, kind: string, message: string, scope: seq<string>)

  /** A submission whose answer is awaited: what `submit` holds in local variables. */
  datatype Flight = Flight(credential: string, generation: nat, op: Op)

  /** SupportSession; `token` is what `readToken` would return now. */
  datatype Session = Session(
    staff: bool, observer: bool, token: string, credential: string, generation: nat, contextRun: Option<string>,
    snapshot: Option<Snapshot>, operation: Option<Op>, serial: nat, activity: nat, flight: Option<Flight>)

  /** A read whose answer is awaited. */
  datatype Ticket = Ticket(credential: string, generation: nat, serial: nat, activity: nat)

  datatype Answered = Told(snapshot: Snapshot) | ReadFailed(status: nat)

  /** What comes back for a submission: the desk's receipt, an HTTP error, or nothing. */
  datatype Outcome = Received(receipt: Receipt) | Status(code: nat) | NoAnswer

  predicate Busy(c: Session)
  {
    c.flight.Some?
  }

  function Reset(c: Session): Session
  {
    c.(generation := c.generation + 1, serial := c.serial + 1, snapshot := None, contextRun := None, operation := None)
  }

  function Sync(c: Session): Session
  {
    if c.token != c.credential then Reset(c.(credential := c.token)) else c
  }

  predicate Live(state: string)
  {
    state in {"running", "paused"}
  }

  /** `canWrite`, after the credential was synchronized. */
  predicate CanWrite(c: Session, form: Form)
  {
    if Busy(c) || c.snapshot.None? || c.observer then false else
    var seen := c.snapshot.value;
    if c.staff then
      && form.Reply? && seen.role in RESPONDER_ROLES
      && (seen.role != "technical_operator" || form.kind == "platform_issue")
      && (Live(seen.runState) || (seen.runState == "stopped" && form.kind == "platform_issue"))
      && (exists i :: 0 <= i < |seen.requests| && seen.requests[i] == Item(form.request, false))
    else
      && form.Question? && seen.role in LEARNER_ROLES && Live(seen.runState) && |seen.requests| < 10
      && (forall i :: 0 <= i < |seen.requests| ==> seen.requests[i].answered)
  }

  function Freeze(form: Form, run: string, key: string): Op
  {
    match form
    case Question(objective, message) => Ask(run, key, objective, message)
    case Reply(request, kind, message, scope) => Answer(run, key, request, kind, message, scope)
  }

  /** `submit` up to its call: the session, and what was sent. */
  function Begin(c: Session, form: Form, key: string): (Session, Option<Op>)
  {
    var s := Sync(c);
    if Busy(s) || s.credential == "" || s.snapshot.None? || s.observer then (s, None)
    else if s.operation.None? && !CanWrite(s, form) then (s, None)
    else
      var op := if s.operation.Some? then s.operation.value else Freeze(form, s.snapshot.value.run, key);
      (s.(operation := Some(op), activity := s.activity + 1, serial := s.serial + 1, snapshot := None,
          flight := Some(Flight(s.credential, s.generation, op))), Some(op))
  }

  /** The session is still the one that sent `f`. */
  predicate Owns(c: Session, f: Flight)
  {
    c.credential == f.credential && c.generation == f.generation && c.contextRun == Some(f.op.run)
  }

  /** `submit` after its call: the session, and what it returns. */
  function End(c: Session, outcome: Outcome): (Session, bool)
    requires Busy(c)
  {
    var f := c.flight.value;
    var s := Sync(c);
    var done := s.(activity := s.activity + 1, serial := s.serial + 1, snapshot := None, flight := None);
    if !Owns(s, f) then (done, false) else
    match outcome
    case Received(receipt) =>
      if receipt.run == f.op.run then (done.(operation := None), true) else (done, false)
    case Status(code) =>
      if 400 <= code < 500 then
        (if code == 401 || code == 403 then Reset(done) else done.(operation := None), false)
      else (done, false)
    case NoAnswer => (done, false)
  }

  /** `refresh` up to its call. */
  function StartRead(c: Session): (Session, Option<Ticket>)
  {
    var s := Sync(c);
    if s.credential == "" then (s, None) else
    (s.(serial := s.serial + 1), Some(Ticket(s.credential, s.generation, s.serial + 1, s.activity)))
  }

  /** `refresh` after its call. */
  function Show(c: Session, t: Ticket, answer: Answered): Session
  {
    var s := Sync(c);
    if s.credential != t.credential || s.generation != t.generation || s.serial != t.serial || s.activity != t.activity
    then s
    else match answer
      case Told(snapshot) =>
        var same := if s.contextRun.Some? && s.contextRun.value != snapshot.run then Reset(s) else s;
        same.(contextRun := Some(snapshot.run), snapshot := Some(snapshot))
      case ReadFailed(status) =>
        if status == 401 || status == 403 then Reset(s) else s.(snapshot := None)
  }

  // ---------------------------------------------------------------- browsers, network and desk

  /** `sent` is every request that ever reached the network: each may arrive at any time, any number of
      times. `produced` is every receipt the desk gave out, and for what. `keys` are the retry keys used. */
  datatype System = System(desk: Desk, sessions: map<string, Session>, sent: set<(Principal, Op)>,
                           produced: set<(Principal, Op, Receipt)>, keys: set<string>)

  type Authenticator = string -> Principal

  datatype Action =
    | SetToken(name: string, token: string)
    | Submit(name: string, form: Form, key: string)
    | Return(name: string, outcome: Outcome)
    | Read(name: string)
    | ReadReturns(name: string, ticket: Ticket, answer: Answered)
    | Foreign(who: Principal, op: Op) // a client that is not this session's code
    | Arrive(who: Principal, op: Op, fate: Fate)
    | Elsewhere(step: Step)

  predicate Possible(auth: Authenticator, s: System, a: Action)
  {
    match a
    case Submit(name, form, key) => name in s.sessions && key !in s.keys && Text.Strip(key) == key
    case Return(name, outcome) =>
      && name in s.sessions && Busy(s.sessions[name])
      && (outcome.Received? ==>
            var f := s.sessions[name].flight.value; (auth(f.credential), f.op, outcome.receipt) in s.produced)
    case SetToken(name, token) => name in s.sessions
    case Read(name) => name in s.sessions
    case ReadReturns(name, ticket, answer) => name in s.sessions
    case Foreign(who, op) => Text.Strip(op.key) !in s.keys
    case Arrive(who, op, fate) => (who, op) in s.sent
    case Elsewhere(step) => !step.Serve? && Lawful(s.desk, step)
  }

  function Next(auth: Authenticator, s: System, a: Action): System
    requires Possible(auth, s, a)
  {
    match a
    case SetToken(name, token) => s.(sessions := s.sessions[name := s.sessions[name].(token := token)])
    case Submit(name, form, key) =>
      var (c, op) := Begin(s.sessions[name], form, key);
      var now := s.(sessions := s.sessions[name := c]);
      if op.Some? then now.(sent := s.sent + {(auth(c.credential), op.value)}, keys := s.keys + {op.value.key}) else now
    case Return(name, outcome) => s.(sessions := s.sessions[name := End(s.sessions[name], outcome).0])
    case Read(name) => s.(sessions := s.sessions[name := StartRead(s.sessions[name]).0])
    case ReadReturns(name, ticket, answer) => s.(sessions := s.sessions[name := Show(s.sessions[name], ticket, answer)])
    case Foreign(who, op) => s.(sent := s.sent + {(who, op)}, keys := s.keys + {Text.Strip(op.key)})
    case Arrive(who, op, fate) =>
      var (d, r) := Handle(s.desk, who, op, fate);
      s.(desk := d, produced := if r.Accepted? then s.produced + {(who, op, r.receipt)} else s.produced)
    case Elsewhere(step) => s.(desk := SupportDesk.Next(s.desk, step))
  }

  function Run(auth: Authenticator, s: System, actions: seq<Action>): System
  {
    if actions == [] then s else
    var before := Run(auth, s, actions[..|actions| - 1]);
    if Possible(auth, before, actions[|actions| - 1]) then Next(auth, before, actions[|actions| - 1]) else before
  }

  /** Sessions as constructed, before anything was sent. */
  predicate Initial(s: System)
  {
    && s.sent == {} && s.produced == {} && s.keys == {}
    && s.desk.ledgers == map[] && s.desk.ids == {} && s.desk.elapsed == 0
    && forall name :: name in s.sessions ==> s.sessions[name].operation.None? && s.sessions[name].flight.None?
  }

  // ---------------------------------------------------------------- the invariant

  /** Every support event on any ledger was asked for. */
  ghost predicate AskedFor(s: System)
  {
    forall run, e :: run in s.desk.ledgers && e in s.desk.ledgers[run] && IsSupport(e) ==> IsAskedFor(s, e)
  }

  ghost predicate IsAskedFor(s: System, e: Event)
  {
    exists who, op :: (who, op) in s.sent && Matches(e, who, op)
  }

  /** A key stands for one message of one actor. */
  ghost predicate KeysAreUnique(s: System)
  {
    && (forall w, o, x, y :: (w, o) in s.sent && (x, y) in s.sent && Text.Strip(o.key) == Text.Strip(y.key) ==>
          w == x && o == y)
    && (forall w, o :: (w, o) in s.sent ==> Text.Strip(o.key) in s.keys)
  }

  ghost predicate ReceiptsHold(s: System)
  {
    forall w, o, r :: (w, o, r) in s.produced ==> Confirmed(s.desk, w, o, r)
  }

  /** What a session has frozen, and what it awaits an answer for, was sent by it. */
  predicate SessionOk(auth: Authenticator, s: System, c: Session)
  {
    && (c.operation.Some? ==> (auth(c.credential), c.operation.value) in s.sent
                              && Text.Strip(c.operation.value.key) == c.operation.value.key)
    && (c.flight.Some? ==> (auth(c.flight.value.credential), c.flight.value.op) in s.sent)
  }

  ghost predicate Good(auth: Authenticator, s: System)
  {
    && DeskOk(s.desk) && AskedFor(s) && KeysAreUnique(s) && ReceiptsHold(s)
    && forall name :: name in s.sessions ==> SessionOk(auth, s, s.sessions[name])
  }

  // ---------------------------------------------------------------- the desk only adds

  ghost predicate LedgersGrow(d: Desk, a: Desk)
  {
    forall run :: LedgerOf(d, run) <= LedgerOf(a, run)
  }

  lemma ServedGrows(d: Desk, a: Desk, r: Response, who: Principal, op: Op)
    requires Served(d, a, r, who, op)
    ensures LedgersGrow(d, a)
  {
    hide DeskOk, Matches, Confirmed;
    if a != d {
      var e :| Matches(e, who, op) && Adds(d, a, e);
    }
  }

  lemma ConfirmedStays(d: Desk, a: Desk, who: Principal, op: Op, receipt: Receipt)
    requires Confirmed(d, who, op, receipt) && LedgersGrow(d, a)
    ensures Confirmed(a, who, op, receipt)
  {
    hide Matches;
    var e :| e in LedgerOf(d, op.run) && Matches(e, who, op) && receipt.event == e.id && receipt.run == op.run;
    assert LedgerOf(d, op.run) <= LedgerOf(a, op.run);
    assert e in LedgerOf(a, op.run);
  }

  lemma ReceiptsStay(s: System, a: Desk)
    requires ReceiptsHold(s) && LedgersGrow(s.desk, a)
    ensures ReceiptsHold(s.(desk := a))
  {
    hide Confirmed, LedgersGrow;
    forall w, o, r | (w, o, r) in s.produced ensures Confirmed(a, w, o, r) {
      ConfirmedStays(s.desk, a, w, o, r);
    }
  }

  // ---------------------------------------------------------------- every action keeps it

  lemma ArriveKeeps(auth: Authenticator, s: System, who: Principal, op: Op, fate: Fate)
    requires Good(auth, s) && (who, op) in s.sent
    ensures Good(auth, Next(auth, s, Arrive(who, op, fate)))
  {
    hide DeskOk, Matches, Handle, Served, KeysAreUnique, ReceiptsHold, Confirmed, LedgersGrow;
    var (d, r) := Handle(s.desk, who, op, fate);
    HandleServed(s.desk, who, op, fate);
    ServedOk(s.desk, d, r, who, op);
    ServedGrows(s.desk, d, r, who, op);
    ReceiptsStay(s, d);
    var now := s.(desk := d);
    assert AskedFor(now) by {
      AskedForStays(s, d, r, who, op);
    }
    var a := Next(auth, s, Arrive(who, op, fate));
    assert ReceiptsHold(a) by {
      NewReceiptHolds(now, r, who, op);
    }
    assert KeysAreUnique(a) by {
      SameKeys(s, a);
    }
  }

  lemma SameKeys(s: System, a: System)
    requires KeysAreUnique(s) && a.sent == s.sent && a.keys == s.keys
    ensures KeysAreUnique(a)
  {
  }

  lemma AskedForStays(s: System, d: Desk, r: Response, who: Principal, op: Op)
    requires AskedFor(s) && Served(s.desk, d, r, who, op) && (who, op) in s.sent
    ensures AskedFor(s.(desk := d))
  {
    hide DeskOk, Matches, Confirmed;
    var now := s.(desk := d);
    if d != s.desk {
      var e :| Matches(e, who, op) && Adds(s.desk, d, e);
      forall run, x | run in d.ledgers && x in d.ledgers[run] && IsSupport(x) ensures IsAskedFor(now, x) {
        if x != e {
          assert run in s.desk.ledgers && x in s.desk.ledgers[run];
          assert IsAskedFor(s, x);
        }
      }
    } else {
      assert now == s;
    }
  }

  lemma NewReceiptHolds(s: System, r: Response, who: Principal, op: Op)
    requires ReceiptsHold(s) && (r.Accepted? ==> Confirmed(s.desk, who, op, r.receipt))
    ensures ReceiptsHold(if r.Accepted? then s.(produced := s.produced + {(who, op, r.receipt)}) else s)
  {
    hide Confirmed;
  }

  lemma ElsewhereKeeps(auth: Authenticator, s: System, step: Step)
    requires Good(auth, s) && !step.Serve? && Lawful(s.desk, step)
    ensures Good(auth, Next(auth, s, Elsewhere(step)))
  {
    hide DeskOk, Matches, KeysAreUnique, ReceiptsHold, Confirmed, IsSupport, LedgersGrow;
    var d := SupportDesk.Next(s.desk, step);
    var now := s.(desk := d);
    NextKeeps(s.desk, step);
    StepGrows(s.desk, step);
    ReceiptsStay(s, d);
    SameKeys(s, now);
    forall run, x | run in d.ledgers && x in d.ledgers[run] && IsSupport(x) ensures IsAskedFor(now, x) {
      assert run in s.desk.ledgers && x in s.desk.ledgers[run];
      assert IsAskedFor(s, x);
    }
  }

  lemma StepGrows(d: Desk, step: Step)
    requires !step.Serve? && Lawful(d, step)
    ensures LedgersGrow(d, SupportDesk.Next(d, step))
  {
  }

  /** What `submit` sends: the frozen operation again, or a new one under the new key. */
  lemma BeginSends(auth: Authenticator, s: System, c: Session, form: Form, key: string)
    requires SessionOk(auth, s, c) && Text.Strip(key) == key
    ensures var (b, op) := Begin(c, form, key);
            && (op.None? ==> SessionOk(auth, s, b))
            && (op.Some? ==>
                  && b.operation == op && b.flight.Some? && b.flight.value.op == op.value
                  && b.flight.value.credential == b.credential && Text.Strip(op.value.key) == op.value.key
                  && ((auth(b.credential), op.value) in s.sent || op.value.key == key))
  {
    hide CanWrite, Text.Strip;
  }

  lemma SubmitKeeps(auth: Authenticator, s: System, name: string, form: Form, key: string)
    requires Good(auth, s) && Possible(auth, s, Submit(name, form, key))
    ensures Good(auth, Next(auth, s, Submit(name, form, key)))
  {
    hide DeskOk, Begin, Confirmed, Matches, IsSupport;
    var a := Next(auth, s, Submit(name, form, key));
    BeginSends(auth, s, s.sessions[name], form, key);
    var (c, op) := Begin(s.sessions[name], form, key);
    if op.Some? {
      SendKeeps(auth, s, a, auth(c.credential), op.value);
    } else {
      SessionsKeep(auth, s, a);
    }
  }

  /** A request reaches the network that was there already, or that has a key of its own. */
  lemma SendKeeps(auth: Authenticator, s: System, a: System, who: Principal, op: Op)
    requires Good(auth, s) && a.desk == s.desk && a.produced == s.produced
    requires a.sent == s.sent + {(who, op)} && a.keys == s.keys + {Text.Strip(op.key)}
    requires (who, op) in s.sent || Text.Strip(op.key) !in s.keys
    requires forall name :: name in a.sessions ==>
               SessionOk(auth, a, a.sessions[name]) || (name in s.sessions && a.sessions[name] == s.sessions[name])
    ensures Good(auth, a)
  {
    hide DeskOk, Confirmed, Matches, IsSupport, Text.Strip;
    forall run, x | run in a.desk.ledgers && x in a.desk.ledgers[run] && IsSupport(x) ensures IsAskedFor(a, x) {
      assert IsAskedFor(s, x);
      var w, o :| (w, o) in s.sent && Matches(x, w, o);
      assert (w, o) in a.sent;
    }
    forall name | name in a.sessions ensures SessionOk(auth, a, a.sessions[name]) {
      if name in s.sessions {
        assert SessionOk(auth, s, s.sessions[name]);
      }
    }
  }

  /** Only sessions changed, to ones that are still all right. */
  lemma SessionsKeep(auth: Authenticator, s: System, a: System)
    requires Good(auth, s) && a.desk == s.desk && a.produced == s.produced && a.sent == s.sent && a.keys == s.keys
    requires forall name :: name in a.sessions ==>
               SessionOk(auth, s, a.sessions[name]) || (name in s.sessions && a.sessions[name] == s.sessions[name])
    ensures Good(auth, a)
  {
    hide DeskOk, Confirmed, Matches, IsSupport, Text.Strip;
    forall run, x | run in a.desk.ledgers && x in a.desk.ledgers[run] && IsSupport(x) ensures IsAskedFor(a, x) {
      assert IsAskedFor(s, x);
    }
    forall name | name in a.sessions ensures SessionOk(auth, a, a.sessions[name]) {
      if name in s.sessions {
        assert SessionOk(auth, s, s.sessions[name]);
      }
    }
  }

  lemma SyncStays(auth: Authenticator, s: System, c: Session)
    requires SessionOk(auth, s, c)
    ensures SessionOk(auth, s, Sync(c)) && Sync(c).flight == c.flight
    ensures forall token :: SessionOk(auth, s, c.(token := token))
    ensures SessionOk(auth, s, StartRead(c).0)
  {
    hide Text.Strip;
  }

  /** Whatever comes back, a session keeps at most what it had sent. */
  lemma EndStays(auth: Authenticator, s: System, c: Session, outcome: Outcome)
    requires SessionOk(auth, s, c) && Busy(c)
    ensures SessionOk(auth, s, End(c, outcome).0)
  {
    hide Text.Strip, Sync;
    SyncStays(auth, s, c);
  }

  lemma ShowStays(auth: Authenticator, s: System, c: Session, t: Ticket, answer: Answered)
    requires SessionOk(auth, s, c)
    ensures SessionOk(auth, s, Show(c, t, answer))
  {
    hide Text.Strip, Sync;
    SyncStays(auth, s, c);
  }

  lemma ReplaceKeeps(auth: Authenticator, s: System, name: string, c: Session)
    requires Good(auth, s) && SessionOk(auth, s, c)
    ensures Good(auth, s.(sessions := s.sessions[name := c]))
  {
    hide Good, SessionOk;
    SessionsKeep(auth, s, s.(sessions := s.sessions[name := c]));
  }

  lemma {:induction false} StepKeeps(auth: Authenticator, s: System, a: Action)
    requires Good(auth, s) && Possible(auth, s, a)
    ensures Good(auth, Next(auth, s, a))
  {
    hide Good, Handle, Begin, End, Show, StartRead, Lawful, Text.Strip, SessionOk, SupportDesk.Next;
    GoodSessions(auth, s);
    match a {
      case Arrive(who, op, fate) => ArriveKeeps(auth, s, who, op, fate);
      case Elsewhere(step) => ElsewhereKeeps(auth, s, step);
      case Submit(name, form, key) => SubmitKeeps(auth, s, name, form, key);
      case Foreign(who, op) => SendKeeps(auth, s, Next(auth, s, a), who, op);
      case SetToken(name, token) =>
        SyncStays(auth, s, s.sessions[name]);
        ReplaceKeeps(auth, s, name, s.sessions[name].(token := token));
      case Return(name, outcome) =>
        EndStays(auth, s, s.sessions[name], outcome);
        ReplaceKeeps(auth, s, name, End(s.sessions[name], outcome).0);
      case Read(name) =>
        SyncStays(auth, s, s.sessions[name]);
        ReplaceKeeps(auth, s, name, StartRead(s.sessions[name]).0);
      case ReadReturns(name, ticket, answer) =>
        ShowStays(auth, s, s.sessions[name], ticket, answer);
        ReplaceKeeps(auth, s, name, Show(s.sessions[name], ticket, answer));
    }
  }

  lemma GoodSessions(auth: Authenticator, s: System)
    requires Good(auth, s)
    ensures forall name :: name in s.sessions ==> SessionOk(auth, s, s.sessions[name])
  {
  }

  lemma {:induction false} RunKeeps(auth: Authenticator, s: System, actions: seq<Action>)
    requires Initial(s)
    ensures Good(auth, Run(auth, s, actions))
  {
    hide Good, Possible, Next;
    if actions == [] {
      InitialIsGood(auth, s);
    } else {
      RunKeeps(auth, s, actions[..|actions| - 1]);
      if Possible(auth, Run(auth, s, actions[..|actions| - 1]), actions[|actions| - 1]) {
        StepKeeps(auth, Run(auth, s, actions[..|actions| - 1]), actions[|actions| - 1]);
      }
    }
  }

  lemma InitialIsGood(auth: Authenticator, s: System)
    requires Initial(s)
    ensures Good(auth, s)
  {
  }

  // ---------------------------------------------------------------- at most once, exactly once

  /** The event at place `i` of a run's ledger is a support event under that retry key. */
  predicate IsUnder(d: Desk, run: string, i: nat, key: string)
  {
    i < |LedgerOf(d, run)| && IsSupport(LedgerOf(d, run)[i]) && KeyOf(LedgerOf(d, run)[i]).key == key
  }

  lemma UnderHasItsOp(s: System, run: string, i: nat, key: string) returns (who: Principal, op: Op)
    requires AskedFor(s) && IsUnder(s.desk, run, i, key)
    ensures (who, op) in s.sent && Matches(LedgerOf(s.desk, run)[i], who, op) && Text.Strip(op.key) == key
  {
    hide Text.Strip, SameAsk, SameAnswer, IsSupport;
    var e := LedgerOf(s.desk, run)[i];
    assert IsAskedFor(s, e);
    who, op :| (who, op) in s.sent && Matches(e, who, op);
  }

  /** With lost, delayed, repeated and reordered requests, failed and half-failed writes, resets and stops:
      over all ledgers of all runs there is never more than one event under a retry key. */
  lemma {:induction false} AtMostOnce(auth: Authenticator, s: System, actions: seq<Action>, key: string, run: string,
        i: nat, other: string, j: nat)
    requires Initial(s)
    requires IsUnder(Run(auth, s, actions).desk, run, i, key) && IsUnder(Run(auth, s, actions).desk, other, j, key)
    ensures run == other && i == j
  {
    hide Run, Text.Strip, Pass, KeyOf, IsSupport, SameAsk, SameAnswer, Made;
    RunKeeps(auth, s, actions);
    UniqueUnder(auth, Run(auth, s, actions), key, run, i, other, j);
  }

  lemma {:induction false} UniqueUnder(auth: Authenticator, s: System, key: string, run: string, i: nat, other: string,
        j: nat)
    requires Good(auth, s) && IsUnder(s.desk, run, i, key) && IsUnder(s.desk, other, j, key)
    ensures run == other && i == j
  {
    hide Text.Strip, Pass, KeyOf, IsSupport, SameAsk, SameAnswer, Made, Confirmed, SessionOk, WellFormed;
    var w, o := UnderHasItsOp(s, run, i, key);
    var x, y := UnderHasItsOp(s, other, j, key);
    assert o == y && w == x;
    var e, f := LedgerOf(s.desk, run)[i], LedgerOf(s.desk, other)[j];
    LedgerIsOfItsRun(s.desk, run, e);
    LedgerIsOfItsRun(s.desk, other, f);
    assert run == other && KeyOf(e) == KeyOf(f);
    AcceptsIffWellFormed(LedgerOf(s.desk, run));
    KeyAt(LedgerOf(s.desk, run), i, j);
    KeyAt(LedgerOf(s.desk, run), j, i);
  }

  lemma LedgerIsOfItsRun(d: Desk, run: string, e: Event)
    requires DeskOk(d) && e in LedgerOf(d, run) && IsSupport(e)
    ensures e.run == run && Pass(LedgerOf(d, run)).Ok?
  {
    hide Pass, ShapeOk, KeyOf, IsSupport, Field;
    assert LedgerOk(d, run);
    assert Made(d.exercise, run, e);
  }

  /** One event under the operation's key in all ledgers, and it is the operation's. */
  ghost predicate RecordedOnce(d: Desk, who: Principal, op: Op)
  {
    exists i: nat :: IsUnder(d, op.run, i, Text.Strip(op.key)) && IsOnly(d, who, op, i)
  }

  ghost predicate IsOnly(d: Desk, who: Principal, op: Op, i: nat)
    requires IsUnder(d, op.run, i, Text.Strip(op.key))
  {
    && Matches(LedgerOf(d, op.run)[i], who, op)
    && forall run, j: nat :: IsUnder(d, run, j, Text.Strip(op.key)) ==> run == op.run && j == i
  }

  /** End to end: if `submit` returns true, there is exactly one event under its retry key, in the ledger
      of its run, by its actor and with the frozen payload, stripped. It does not matter how often it was
      resent, what was lost, or whether the run was stopped or replaced meanwhile. */
  lemma {:induction false} ExactlyOnce(auth: Authenticator, s: System, actions: seq<Action>, name: string,
        outcome: Outcome)
    requires Initial(s) && Possible(auth, Run(auth, s, actions), Return(name, outcome))
    requires End(Run(auth, s, actions).sessions[name], outcome).1
    ensures var now := Run(auth, s, actions);
            var f := now.sessions[name].flight.value;
            RecordedOnce(now.desk, auth(f.credential), f.op)
  {
    hide Run, Text.Strip, DeskOk, Good, KeyOf, SameAsk, SameAnswer;
    var now := Run(auth, s, actions);
    var f := now.sessions[name].flight.value;
    var who, key := auth(f.credential), Text.Strip(f.op.key);
    RunKeeps(auth, s, actions);
    GoodReceipts(auth, now, who, f.op, outcome.receipt);
    var e :| e in LedgerOf(now.desk, f.op.run) && Matches(e, who,
        f.op) && outcome.receipt.event == e.id && outcome.receipt.run == f.op.run;
    var i :| 0 <= i < |LedgerOf(now.desk, f.op.run)| && LedgerOf(now.desk, f.op.run)[i] == e;
    assert IsUnder(now.desk, f.op.run, i, key);
    forall run, j: nat | IsUnder(now.desk, run, j, key) ensures run == f.op.run && j == i {
      UniqueUnder(auth, now, key, run, j, f.op.run, i);
    }
  }

  lemma GoodReceipts(auth: Authenticator, s: System, who: Principal, op: Op, receipt: Receipt)
    requires Good(auth, s) && (who, op, receipt) in s.produced
    ensures Confirmed(s.desk, who, op, receipt)
  {
    hide Confirmed;
  }
}
