// StaffOperations: controls are sent only on the authority of a snapshot that was asked for after every
// earlier control had settled, whatever the order in which answers come back.

module StaffSession {
  import opened Prelude

  /** What the browser uses of a facilitator state. */
  datatype Snapshot = Snapshot(run: string, clockRun: string, readinessRun: string, role: string, phase: string,
                               rest: map<string, string>)

  /** StaffOperations; `token` is what `readToken` would return now. */
  datatype Session = Session(token: string, credential: string, epoch: nat, serial: nat, activity: nat,
                             commandSerial: nat, busy: bool, stopBusy: bool, state: Option<Snapshot>,
                             runId: Option<string>, role: Option<string>)

  const CONTROL_ROLES := {"facilitator", "technical_operator"}

  /** `permitted` beyond the role and the stop rule; the guarantees hold for any such table. */
  type Permission = (Snapshot, string) -> bool

  datatype ReadTicket = ReadTicket(credential: string, epoch: nat, serial: nat, activity: nat)

  datatype Answer = Got(snapshot: Snapshot) | Failed(status: nat)

  datatype CommandTicket = CommandTicket(credential: string, epoch: nat, run: string, serial: nat, emergency: bool)

  datatype Outcome = Confirmed | Refused(status: nat)

  const STOP := "stop"

  function Invalidate(s: Session): Session
  {
    s.(epoch := s.epoch + 1, serial := s.serial + 1, state := None, runId := None, role := None)
  }

  function Sync(s: Session): Session
  {
    if s.token != s.credential then Invalidate(s.(credential := s.token)) else s
  }

  /** `refresh` up to its call. */
  function IssueRead(s: Session): (Session, Option<ReadTicket>)
  {
    var n := Sync(s);
    if n.credential == "" then (n, None) else
    (n.(serial := n.serial + 1), Some(ReadTicket(n.credential, n.epoch, n.serial + 1, n.activity)))
  }

  predicate Consistent(snapshot: Snapshot)
  {
    snapshot.clockRun == snapshot.run && snapshot.readinessRun == snapshot.run
  }

  predicate IsCurrent(n: Session, t: ReadTicket)
  {
    n.credential == t.credential && n.epoch == t.epoch && n.serial == t.serial && n.activity == t.activity
  }

  /** `refresh` after its call. */
  function ReadReturns(s: Session, t: ReadTicket, answer: Answer): Session
  {
    var n := Sync(s);
    if !IsCurrent(n, t) then n else
    match answer
    case Got(snapshot) =>
      if !Consistent(snapshot) then n.(state := None) else
      var own := if n.runId.Some? && n.runId.value != snapshot.run then Invalidate(n) else n;
      own.(runId := Some(snapshot.run), role := Some(snapshot.role), state := Some(snapshot))
    case Failed(status) => if status == 401 || status == 403 then Invalidate(n) else n.(state := None)
  }

  /** `can`, after the credential was synchronized. */
  predicate Can(n: Session, permitted: Permission, action: string)
  {
    if action == STOP then
      && !n.stopBusy && n.role.Some? && n.role.value in CONTROL_ROLES && n.runId.Some?
      && (n.state.None? || n.state.value.phase != "completed")
    else
      && !n.busy && !n.stopBusy && n.state.Some? && n.state.value.role in CONTROL_ROLES
      && permitted(n.state.value, action)
  }

  /** `command` up to its call: the session, and what it remembers of the request it sends. */
  function IssueCommand(s: Session, permitted: Permission, action: string): (Session, Option<CommandTicket>)
  {
    var n := Sync(s);
    if n.credential == "" || !Can(n, permitted, action) then (n, None) else
    (n.(commandSerial := n.commandSerial + 1, activity := n.activity + 1, serial := n.serial + 1, state := None,
        stopBusy := n.stopBusy || action == STOP, busy := n.busy || action != STOP),
     Some(CommandTicket(n.credential, n.epoch, n.runId.GetOr(""), n.commandSerial + 1, action == STOP)))
  }

  predicate Obsolete(n: Session, t: CommandTicket)
  {
    n.credential != t.credential || n.epoch != t.epoch || n.runId != Some(t.run) || n.commandSerial != t.serial
  }

  /** `command` after its call: the session, and whether its caller sees a result. */
  function SettleCommand(s: Session, t: CommandTicket, outcome: Outcome): (Session, bool)
  {
    var n := Sync(s);
    var seen := !Obsolete(n, t);
    var told :=
      if seen && outcome.Refused? && (outcome.status == 401 || outcome.status == 403) then Invalidate(n) else n;
    (told.(stopBusy := told.stopBusy && !t.emergency, busy := told.busy && t.emergency,
           activity := told.activity + 1, serial := told.serial + 1, state := None),
     seen && outcome.Confirmed?)
  }

  // ---------------------------------------------------------------- the session among its requests

  /** Requests in flight, by the time they were issued, on a clock that counts what happened. `origin` is when
      the read that gave the present snapshot was issued, `under` its credential; `turned` is when a command was
      last issued or settled. The session knows none of these. */
  datatype World = World(s: Session, gets: map<nat, ReadTicket>, commands: map<nat, CommandTicket>, clock: nat,
                         origin: nat, under: string, turned: nat)

  datatype Step =
    | SetToken(token: string)
    | Look // `can` or any other call that only synchronizes
    | Read
    | Answers(read: nat, answer: Answer)
    | Command(action: string)
    | Settles(command: nat, outcome: Outcome)

  predicate Possible(w: World, step: Step)
  {
    match step
    case Answers(read, answer) => read in w.gets
    case Settles(command, outcome) => command in w.commands
    case _ => true
  }

  function Next(permitted: Permission, w: World, step: Step): World
    requires Possible(w, step)
  {
    var later := w.(clock := w.clock + 1);
    match step
    case SetToken(token) => later.(s := w.s.(token := token))
    case Look => later.(s := Sync(w.s))
    case Read =>
      var (s, t) := IssueRead(w.s);
      if t.None? then later.(s := s) else later.(s := s, gets := w.gets[w.clock := t.value])
    case Answers(read, answer) =>
      var t := w.gets[read];
      var s := ReadReturns(w.s, t, answer);
      var taken := IsCurrent(Sync(w.s), t) && s.state.Some?;
      later.(s := s, gets := w.gets - {read}, origin := if taken then read else w.origin,
             under := if taken then t.credential else w.under)
    case Command(action) =>
      var (s, t) := IssueCommand(w.s, permitted, action);
      if t.None? then later.(s := s)
      else later.(s := s, commands := w.commands[w.clock := t.value], turned := w.clock)
    case Settles(command, outcome) =>
      later.(s := SettleCommand(w.s, w.commands[command], outcome).0, commands := w.commands - {command},
             turned := w.clock)
  }

  function Run(permitted: Permission, w: World, steps: seq<Step>): World
  {
    if steps == [] then w else
    var before := Run(permitted, w, steps[..|steps| - 1]);
    if Possible(before, steps[|steps| - 1]) then Next(permitted, before, steps[|steps| - 1]) else before
  }

  function Fresh(token: string): World
  {
    World(Session(token, "", 1, 1, 0, 0, false, false, None, None, None), map[], map[], 1, 0, "", 0)
  }

  // ---------------------------------------------------------------- the invariant

  /** A slot is taken exactly while its request is in flight, whoever is logged in by now. */
  ghost predicate SlotsMatch(w: World)
  {
    && (forall a, b :: a in w.commands && b in w.commands && w.commands[a].emergency == w.commands[b].emergency ==>
          a == b)
    && (w.s.busy <==> exists c :: c in w.commands && !w.commands[c].emergency)
    && (w.s.stopBusy <==> exists c :: c in w.commands && w.commands[c].emergency)
  }

  /** A read that could still be taken was issued after the last command event. */
  ghost predicate ReadsAreDated(w: World)
  {
    && w.turned < w.clock && (forall c :: c in w.commands ==> c < w.clock)
    && (forall r :: r in w.gets ==> w.gets[r].activity <= w.s.activity)
    && (forall r :: r in w.gets && w.gets[r].activity == w.s.activity ==> w.turned < r)
  }

  /** The present snapshot answers a read issued after the last command event, under this credential, and
      the run header will name its run. */
  ghost predicate StateIsFresh(w: World)
  {
    w.s.state.Some? ==>
      && w.turned < w.origin && w.under == w.s.credential
      && w.s.runId == Some(w.s.state.value.run) && w.s.role == Some(w.s.state.value.role)
  }

  ghost predicate Good(w: World)
  {
    SlotsMatch(w) && ReadsAreDated(w) && StateIsFresh(w)
  }

  lemma SyncKeeps(w: World)
    requires Good(w)
    ensures Good(w.(s := Sync(w.s))) && Sync(w.s).activity == w.s.activity
    ensures Sync(w.s).credential == w.s.token == Sync(w.s).token
  {
  }

  lemma AnswerKeeps(permitted: Permission, w: World, read: nat, answer: Answer)
    requires Good(w) && read in w.gets
    ensures Good(Next(permitted, w, Answers(read, answer)))
  {
    SyncKeeps(w);
    hide Sync, SlotsMatch;
    SlotsSame(w.(s := Sync(w.s)), Next(permitted, w, Answers(read, answer)));
  }

  lemma SlotsSame(w: World, n: World)
    requires SlotsMatch(w) && n.commands == w.commands && n.s.busy == w.s.busy && n.s.stopBusy == w.s.stopBusy
    ensures SlotsMatch(n)
  {
  }

  lemma CommandKeeps(permitted: Permission, w: World, action: string)
    requires Good(w)
    ensures Good(Next(permitted, w, Command(action)))
  {
    SyncKeeps(w);
    hide Sync, SlotsMatch;
    var s := w.(s := Sync(w.s));
    var n := Next(permitted, w, Command(action));
    if IssueCommand(w.s, permitted, action).1.Some? {
      SlotTaken(s, n, IssueCommand(w.s, permitted, action).1.value);
    } else {
      SlotsSame(s, n);
    }
  }

  lemma SlotTaken(w: World, n: World, t: CommandTicket)
    requires SlotsMatch(w) && w.clock !in w.commands && n.commands == w.commands[w.clock := t]
    requires if t.emergency then !w.s.stopBusy && n.s.stopBusy && n.s.busy == w.s.busy
             else !w.s.busy && n.s.busy && n.s.stopBusy == w.s.stopBusy
    ensures SlotsMatch(n)
  {
    assert w.clock in n.commands;
    forall c | c in w.commands ensures c in n.commands && n.commands[c] == w.commands[c] {
    }
  }

  lemma SettleKeeps(permitted: Permission, w: World, command: nat, outcome: Outcome)
    requires Good(w) && command in w.commands
    ensures Good(Next(permitted, w, Settles(command, outcome)))
  {
    SyncKeeps(w);
    hide Sync;
    var n := Next(permitted, w, Settles(command, outcome));
    forall c | c in n.commands ensures c in w.commands && n.commands[c] == w.commands[c] && c != command {
    }
  }

  lemma StepKeeps(permitted: Permission, w: World, step: Step)
    requires Good(w) && Possible(w, step)
    ensures Good(Next(permitted, w, step))
  {
    match step {
      case Answers(read, answer) => AnswerKeeps(permitted, w, read, answer);
      case Command(action) => CommandKeeps(permitted, w, action);
      case Settles(command, outcome) => SettleKeeps(permitted, w, command, outcome);
      case _ => SyncKeeps(w);
    }
  }

  lemma {:induction false} RunKeeps(permitted: Permission, token: string, steps: seq<Step>)
    ensures Good(Run(permitted, Fresh(token), steps))
  {
    hide Next, Good;
    if steps == [] {
      FreshIsGood(token);
    } else {
      RunKeeps(permitted, token, steps[..|steps| - 1]);
      var before := Run(permitted, Fresh(token), steps[..|steps| - 1]);
      if Possible(before, steps[|steps| - 1]) {
        StepKeeps(permitted, before, steps[|steps| - 1]);
      }
    }
  }

  lemma FreshIsGood(token: string)
    ensures Good(Fresh(token))
  {
  }

  /** The authority of a control: nothing in flight, and a snapshot asked for after the last control. */
  ghost predicate Authorized(w: World, permitted: Permission, action: string, sent: CommandTicket)
  {
    && w.commands == map[]
    && w.s.state.Some? && permitted(w.s.state.value, action) && w.s.state.value.role in CONTROL_ROLES
    && w.turned < w.origin && w.under == w.s.token == sent.credential && sent.run == w.s.state.value.run
  }

  lemma AuthorityIsFresh(w: World, permitted: Permission, action: string)
    requires Good(w) && action != STOP && IssueCommand(w.s, permitted, action).1.Some?
    ensures Authorized(w, permitted, action, IssueCommand(w.s, permitted, action).1.value)
  {
    SyncKeeps(w);
    assert Sync(w.s).state.Some? && Sync(w.s) == w.s;
    assert forall c :: c !in w.commands;
  }

  /** Fresh authority: whenever an ordinary control is sent, no other control and no stop is in flight,
      and the snapshot that permits it answers a read that was issued after the last control was issued
      or settled, with the credential in use now, of the run that the request names. */
  lemma {:induction false} FreshAuthority(permitted: Permission, token: string, steps: seq<Step>, action: string)
    requires action != STOP
    requires IssueCommand(Run(permitted, Fresh(token), steps).s, permitted, action).1.Some?
    ensures var w := Run(permitted, Fresh(token), steps);
            Authorized(w, permitted, action, IssueCommand(w.s, permitted, action).1.value)
  {
    hide Run, Good;
    RunKeeps(permitted, token, steps);
    AuthorityIsFresh(Run(permitted, Fresh(token), steps), permitted, action);
  }

  /** The session speaks for whoever is logged in. */
  predicate LoggedIn(s: Session)
  {
    s.token != "" && s.credential == s.token
  }

  /** A stop needs no snapshot: over every run it is sent exactly if somebody is logged in, no stop is in
      flight, the role last seen may control, a run is known, and no completed snapshot is held. */
  lemma {:induction false} StopIsSentIff(permitted: Permission, token: string, steps: seq<Step>)
    ensures var w := Run(permitted, Fresh(token), steps);
            var sent := IssueCommand(w.s, permitted, STOP).1;
            && (sent.Some? <==>
                  && LoggedIn(w.s) && (forall c :: c in w.commands ==> !w.commands[c].emergency)
                  && (w.s.role == Some("facilitator") || w.s.role == Some("technical_operator")) && w.s.runId.Some?
                  && !(w.s.state.Some? && w.s.state.value.phase == "completed"))
            && (sent.Some? ==>
                  sent.value.emergency && sent.value.credential == w.s.token && Some(sent.value.run) == w.s.runId)
  {
    hide Run, ReadsAreDated, StateIsFresh;
    RunKeeps(permitted, token, steps);
  }

  /** Any other control is sent exactly if somebody is logged in, nothing is in flight, and a snapshot is
      held that permits it to a role that may control. */
  lemma {:induction false} ControlIsSentIff(permitted: Permission, token: string, steps: seq<Step>, action: string)
    requires action != STOP
    ensures var w := Run(permitted, Fresh(token), steps);
            var sent := IssueCommand(w.s, permitted, action).1;
            && (sent.Some? <==>
                  && LoggedIn(w.s) && w.commands == map[] && w.s.state.Some? && permitted(w.s.state.value, action)
                  && (w.s.state.value.role == "facilitator" || w.s.state.value.role == "technical_operator"))
            && (sent.Some? ==> !sent.value.emergency)
  {
    hide Run, ReadsAreDated, StateIsFresh;
    var w := Run(permitted, Fresh(token), steps);
    RunKeeps(permitted, token, steps);
    if w.commands != map[] {
      var c :| c in w.commands;
      assert w.commands[c].emergency || !w.commands[c].emergency;
    }
  }

  /** The emergency stop survives its own session: right after any other control was sent, with that control
      in flight and no snapshot left, a stop is sent, unless play was seen completed. */
  lemma {:induction false} StopFollowsControl(permitted: Permission, token: string, steps: seq<Step>, action: string)
    requires action != STOP
    requires var w := Run(permitted, Fresh(token), steps);
             IssueCommand(w.s, permitted, action).1.Some?
    ensures var w := Run(permitted, Fresh(token), steps);
            var after := Next(permitted, w, Command(action));
            after.commands != map[] && after.s.state.None? && IssueCommand(after.s, permitted, STOP).1.Some?
  {
    hide Run, ReadsAreDated;
    var w := Run(permitted, Fresh(token), steps);
    RunKeeps(permitted, token, steps);
    SyncKeeps(w);
    assert w.clock in Next(permitted, w, Command(action)).commands;
  }

  /** And so it is after a failed refresh, unless that ends the login. */
  lemma StopSurvivesFailure(s: Session, permitted: Permission, t: ReadTicket, status: nat)
    requires IssueCommand(s, permitted, STOP).1.Some? && status != 401 && status != 403
    ensures IssueCommand(ReadReturns(s, t, Failed(status)), permitted, STOP).1.Some?
  {
  }

  /** A result is shown exactly if it confirms the last control that was sent, under the same login, epoch and
      run; in every case the control's own slot is free again, and only a refusal of a current control that
      ends the login touches the session's context. */
  lemma SettleIs(s: Session, t: CommandTicket, outcome: Outcome)
    ensures var (a, seen) := SettleCommand(s, t, outcome);
            var own := LoggedInAs(s, t.credential) && s.epoch == t.epoch && s.runId == Some(t.run)
                       && s.commandSerial == t.serial;
            && (seen <==> own && outcome.Confirmed?)
            && (if t.emergency then !a.stopBusy && a.busy == s.busy else !a.busy && a.stopBusy == s.stopBusy)
            && a.state.None?
            && (s.credential == s.token ==>
                  && a.activity == s.activity + 1 && a.serial > s.serial
                  && (own && outcome.Refused? && outcome.status in {401, 403} ==> a.runId.None? && a.role.None?)
                  && (!(own && outcome.Refused? && outcome.status in {401, 403}) ==>
                        a.runId == s.runId && a.role == s.role && a.epoch == s.epoch))
  {
  }

  /** A refresh is sent exactly if somebody is logged in now, whatever the session held before. */
  lemma ReadIsSentIff(s: Session)
    ensures var (a, sent) := IssueRead(s);
            && (sent.Some? <==> s.token != "")
            && (s.credential == s.token ==> a == s.(serial := if s.token != "" then s.serial + 1 else s.serial))
            && (s.credential != s.token ==> a.state.None? && a.runId.None? && a.role.None? && a.epoch == s.epoch + 1)
            && (sent.Some? ==> sent.value == ReadTicket(s.token, a.epoch, a.serial, a.activity))
  {
  }

  /** An answer is taken exactly if no refresh, no control event and no login came after its read; a consistent
      one then shows its run and role, and every other one hides the snapshot. */
  lemma AnswerIs(s: Session, t: ReadTicket, answer: Answer)
    requires s.credential == s.token
    ensures var a := ReadReturns(s, t, answer);
            var current := LoggedInAs(s, t.credential) && s.epoch == t.epoch && s.serial == t.serial
                           && s.activity == t.activity;
            var consistent := answer.Got?
                              && answer.snapshot.clockRun == answer.snapshot.readinessRun == answer.snapshot.run;
            && (!current ==> a == s)
            && (current && consistent ==>
                  && a.state == Some(answer.snapshot) && a.runId == Some(answer.snapshot.run)
                  && a.role == Some(answer.snapshot.role)
                  && (a.epoch == s.epoch <==> s.runId.None? || s.runId == a.runId))
            && (current && answer.Got? && !consistent ==> a == s.(state := None))
            && (current && answer.Failed? && answer.status !in {401, 403} ==> a == s.(state := None))
            && (current && answer.Failed? && answer.status in {401, 403} ==>
                  a.state.None? && a.runId.None? && a.role.None? && a.epoch == s.epoch + 1)
  {
  }

  predicate LoggedInAs(s: Session, credential: string)
  {
    s.token == credential && s.credential == credential
  }

  /** At most one stop and at most one other control are in flight, and a stop is held back only by a stop. */
  lemma {:induction false} OneOfEach(permitted: Permission, token: string, steps: seq<Step>, a: nat, b: nat)
    requires a in Run(permitted, Fresh(token), steps).commands && b in Run(permitted, Fresh(token), steps).commands
    requires a != b
    ensures var w := Run(permitted, Fresh(token), steps);
            && w.commands[a].emergency != w.commands[b].emergency
            && IssueCommand(w.s, permitted, STOP).1.None?
  {
    hide Run;
    RunKeeps(permitted, token, steps);
    SyncKeeps(Run(permitted, Fresh(token), steps));
  }

  /** Authority can be regained: when nothing is in flight and no read is issued after this one, its
      consistent answer lets a control role send every control that the snapshot permits. */
  lemma RefreshGrantsAuthority(s: Session, permitted: Permission, snapshot: Snapshot, action: string)
    requires !s.busy && !s.stopBusy && s.token != "" && Consistent(snapshot)
    ensures var (asked, ticket) := IssueRead(s);
            ticket.Some?
            && (IssueCommand(ReadReturns(asked, ticket.value, Got(snapshot)), permitted, action).1.Some?
                <==> snapshot.role in CONTROL_ROLES
                     && if action == STOP then snapshot.phase != "completed" else permitted(snapshot, action))
  {
  }
}
