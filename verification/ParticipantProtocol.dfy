// ParticipantSession: one write at a time, each on the authority of a state asked for after the last
// write had settled, and reads that are shown only while nothing has overtaken them.

module ParticipantProtocol {
  import opened Prelude

  datatype Snapshot = Snapshot(run: string, phase: string)

  /** `pending` is `pendingWrite`; `owners` says which read of a path is the latest. */
  datatype Session = Session(token: string, credential: string, epoch: nat, serial: nat, activity: nat,
                             runId: Option<string>, state: Option<Snapshot>, pending: Option<WriteTicket>,
                             owners: map<string, nat>)

  datatype WriteTicket = WriteTicket(credential: string, epoch: nat, run: string)

  datatype RefreshTicket = RefreshTicket(credential: string, epoch: nat, serial: nat)

  datatype ReadTicket = ReadTicket(credential: string, epoch: nat, run: string, activity: nat, path: string,
                                   number: nat, runScoped: bool)

  /** A well-formed state, a malformed one, or an HTTP or network error. */
  datatype State = Got(snapshot: Snapshot) | Malformed | StateFailed(status: nat)

  /** A body, with its `run_id` if it has one, or an error. */
  datatype Body = Body(run: Option<string>) | BodyFailed(status: nat)

  predicate Unauthorized(status: nat)
  {
    status == 401 || status == 403
  }

  function Invalidate(s: Session): Session
  {
    s.(epoch := s.epoch + 1, serial := s.serial + 1, runId := None, state := None, activity := s.activity + 1,
        owners := map[])
  }

  function Sync(s: Session): Session
  {
    if s.token != s.credential then Invalidate(s.(credential := s.token)) else s
  }

  predicate Current(n: Session, credential: string, epoch: nat)
  {
    credential != "" && n.credential == credential && n.epoch == epoch
  }

  function IssueRefresh(s: Session): (Session, Option<RefreshTicket>)
  {
    var n := Sync(s);
    if n.credential == "" then (n, None)
    else (n.(serial := n.serial + 1), Some(RefreshTicket(n.credential, n.epoch, n.serial + 1)))
  }

  predicate Taken(n: Session, t: RefreshTicket)
  {
    Current(n, t.credential, t.epoch) && n.serial == t.serial
  }

  function RefreshReturns(s: Session, t: RefreshTicket, answer: State): Session
  {
    var n := Sync(s);
    if !Taken(n, t) then n else
    match answer
    case Got(snapshot) =>
      var own := if n.runId.Some? && n.runId.value != snapshot.run then Invalidate(n) else n;
      own.(runId := Some(snapshot.run), state := Some(snapshot))
    case Malformed => n.(state := None)
    case StateFailed(status) => if Unauthorized(status) then Invalidate(n) else n.(state := None)
  }

  /** `context` */
  predicate HasContext(n: Session)
  {
    n.credential != "" && n.state.Some? && n.runId.Some?
  }

  /** A write begins or has ended: nothing read before it counts any more. */
  function Turn(s: Session): Session
  {
    s.(serial := s.serial + 1, activity := s.activity + 1, owners := map[], state := None)
  }

  /** `write` up to its call. */
  function IssueWrite(s: Session): (Session, Option<WriteTicket>)
  {
    var n := Sync(s);
    if n.pending.Some? || !HasContext(n) then (n, None) else
    var t := WriteTicket(n.credential, n.epoch, n.runId.value);
    (Turn(n.(pending := Some(t))), Some(t))
  }

  /** `write` after its call: the session, and whether its caller sees the result. */
  function SettleWrite(s: Session, t: WriteTicket, body: Body): (Session, bool)
  {
    var n := Sync(s);
    var own := Current(n, t.credential, t.epoch) && n.runId == Some(t.run);
    match body
    case Body(run) =>
      var other := own && run.Some? && run.value != t.run;
      (Turn((if other then Invalidate(n) else n).(pending := None)), own && !other)
    case BodyFailed(status) =>
      (Turn((if own && Unauthorized(status) then Invalidate(n) else n).(pending := None)), false)
  }

  /** `read` up to its call; `number` stands for the identity of its owner object. */
  function IssueRead(s: Session, path: string, runScoped: bool, number: nat): (Session, Option<ReadTicket>)
  {
    var n := Sync(s);
    if !HasContext(n) then (n, None) else
    (n.(owners := n.owners[path := number]),
     Some(ReadTicket(n.credential, n.epoch, n.runId.value, n.activity, path, number, runScoped)))
  }

  predicate Shown(n: Session, t: ReadTicket)
  {
    && Current(n, t.credential, t.epoch) && n.runId == Some(t.run) && n.activity == t.activity
    && t.path in n.owners && n.owners[t.path] == t.number
  }

  /** `read` after its call: the session, and whether its caller sees the result. */
  function ReadReturns(s: Session, t: ReadTicket, body: Body): (Session, bool)
  {
    var n := Sync(s);
    if !Shown(n, t) then (n, false) else
    match body
    case Body(run) => if t.runScoped && run != Some(t.run) then (Invalidate(n), false) else (n, true)
    case BodyFailed(status) => (if Unauthorized(status) then Invalidate(n) else n, false)
  }

  // ---------------------------------------------------------------- the session among its requests

  /** Requests in flight, by the time they were issued, on a clock that counts what happened. `origin` is when
      the refresh that gave the present state was issued, `under` its credential; `turned` is when a write was
      last issued or settled; `latest` is the last read issued of each path. The session knows none of these. */
  datatype World = World(s: Session, refreshes: map<nat, RefreshTicket>, writes: map<nat, WriteTicket>,
                         gets: map<nat, ReadTicket>, clock: nat, origin: nat, under: string, turned: nat,
                         latest: map<string, nat>)

  datatype Step =
    | SetToken(token: string)
    | Refresh | Refreshed(refresh: nat, state: State)
    | Write | Settled(write: nat, body: Body)
    | Read(path: string, runScoped: bool) | Returned(get: nat, body: Body)

  predicate Possible(w: World, step: Step)
  {
    match step
    case Refreshed(refresh, state) => refresh in w.refreshes
    case Settled(write, body) => write in w.writes
    case Returned(get, body) => get in w.gets
    case _ => true
  }

  function Next(w: World, step: Step): World
    requires Possible(w, step)
  {
    var later := w.(clock := w.clock + 1);
    match step
    case SetToken(token) => later.(s := w.s.(token := token))
    case Refresh =>
      var (s, t) := IssueRefresh(w.s);
      if t.None? then later.(s := s) else later.(s := s, refreshes := w.refreshes[w.clock := t.value])
    case Refreshed(refresh, state) =>
      var t := w.refreshes[refresh];
      var s := RefreshReturns(w.s, t, state);
      var taken := Taken(Sync(w.s), t) && s.state.Some?;
      later.(s := s, refreshes := w.refreshes - {refresh}, origin := if taken then refresh else w.origin,
             under := if taken then t.credential else w.under)
    case Write =>
      var (s, t) := IssueWrite(w.s);
      if t.None? then later.(s := s) else later.(s := s, writes := w.writes[w.clock := t.value], turned := w.clock)
    case Settled(write, body) =>
      later.(s := SettleWrite(w.s, w.writes[write], body).0, writes := w.writes - {write}, turned := w.clock)
    case Read(path, runScoped) =>
      var (s, t) := IssueRead(w.s, path, runScoped, w.clock);
      if t.None? then later.(s := s)
      else later.(s := s, gets := w.gets[w.clock := t.value], latest := w.latest[path := w.clock])
    case Returned(get, body) =>
      later.(s := ReadReturns(w.s, w.gets[get], body).0, gets := w.gets - {get})
  }

  function Run(w: World, steps: seq<Step>): World
  {
    if steps == [] then w else
    var before := Run(w, steps[..|steps| - 1]);
    if Possible(before, steps[|steps| - 1]) then Next(before, steps[|steps| - 1]) else before
  }

  function Fresh(token: string): World
  {
    World(Session(token, "", 0, 0, 0, None, None, None, map[]), map[], map[], map[], 1, 0, "", 0, map[])
  }

  // ---------------------------------------------------------------- the invariant

  ghost predicate OneWrite(w: World)
  {
    && (forall a, b :: a in w.writes && b in w.writes ==> a == b)
    && (w.s.pending.Some? <==> exists a :: a in w.writes)
  }

  ghost predicate RefreshesAreDated(w: World)
  {
    && w.turned < w.clock && (forall a :: a in w.writes ==> a < w.clock)
    && (forall r :: r in w.refreshes ==> w.refreshes[r].serial <= w.s.serial)
    && (forall r :: r in w.refreshes && w.refreshes[r].serial == w.s.serial ==> w.turned < r)
  }

  ghost predicate ReadsAreDated(w: World)
  {
    && (forall g :: g in w.gets ==> w.gets[g].activity <= w.s.activity && g == w.gets[g].number)
    && (forall g :: g in w.gets && w.gets[g].activity == w.s.activity ==> w.turned < g)
    && (forall p :: p in w.s.owners ==> p in w.latest && w.s.owners[p] == w.latest[p])
  }

  ghost predicate StateIsFresh(w: World)
  {
    w.s.state.Some? ==> w.turned < w.origin && w.under == w.s.credential && w.s.runId == Some(w.s.state.value.run)
  }

  ghost predicate Good(w: World)
  {
    OneWrite(w) && RefreshesAreDated(w) && ReadsAreDated(w) && StateIsFresh(w)
  }

  lemma SyncKeeps(w: World)
    requires Good(w)
    ensures Good(w.(s := Sync(w.s))) && Sync(w.s).pending == w.s.pending
    ensures Sync(w.s).credential == w.s.token == Sync(w.s).token
  {
  }

  lemma SameWrites(w: World, n: World)
    requires OneWrite(w) && n.writes == w.writes && n.s.pending == w.s.pending
    ensures OneWrite(n)
  {
  }

  /** Counters only grow, requests only leave, reads are only forgotten. */
  predicate Older(w: World, n: World)
  {
    && n.turned == w.turned && n.clock >= w.clock && n.writes == w.writes && n.latest == w.latest
    && n.s.serial >= w.s.serial && n.s.activity >= w.s.activity && n.s.pending == w.s.pending
    && (forall r :: r in n.refreshes ==> r in w.refreshes && n.refreshes[r] == w.refreshes[r])
    && (forall g :: g in n.gets ==> g in w.gets && n.gets[g] == w.gets[g])
    && (forall p :: p in n.s.owners ==> p in w.s.owners && n.s.owners[p] == w.s.owners[p])
  }

  lemma OlderKeeps(w: World, n: World)
    requires Good(w) && Older(w, n)
    ensures OneWrite(n) && RefreshesAreDated(n) && ReadsAreDated(n)
  {
  }

  lemma RefreshIssueKeeps(w: World)
    requires Good(w)
    ensures Good(Next(w, Refresh))
  {
    SyncKeeps(w);
    hide Sync, OneWrite, ReadsAreDated, RefreshesAreDated, StateIsFresh;
    var now, n := w.(s := Sync(w.s)), Next(w, Refresh);
    SameWrites(now, n);
    SameReads(now, n);
    SameState(now, n);
    if now.s.credential == "" {
      SameRefreshes(now, n);
    } else {
      RefreshAdded(now, n, RefreshTicket(now.s.credential, now.s.epoch, now.s.serial + 1));
    }
  }

  lemma RefreshAdded(w: World, n: World, t: RefreshTicket)
    requires RefreshesAreDated(w) && n.refreshes == w.refreshes[w.clock := t] && n.writes == w.writes
    requires n.turned == w.turned && n.clock == w.clock + 1 && n.s.serial == w.s.serial + 1 == t.serial
    ensures RefreshesAreDated(n)
  {
  }

  lemma SameState(w: World, n: World)
    requires StateIsFresh(w) && n.s.state == w.s.state && n.s.credential == w.s.credential && n.s.runId == w.s.runId
    requires n.turned == w.turned && n.origin == w.origin && n.under == w.under
    ensures StateIsFresh(n)
  {
  }

  lemma SameReads(w: World, n: World)
    requires ReadsAreDated(w) && n.gets == w.gets && n.s.activity == w.s.activity && n.turned == w.turned
    requires n.s.owners == w.s.owners && n.latest == w.latest
    ensures ReadsAreDated(n)
  {
  }

  lemma RefreshedKeeps(w: World, refresh: nat, state: State)
    requires Good(w) && refresh in w.refreshes
    ensures Good(Next(w, Refreshed(refresh, state)))
  {
    SyncKeeps(w);
    hide Sync, OneWrite, ReadsAreDated;
    var now, n := w.(s := Sync(w.s)), Next(w, Refreshed(refresh, state));
    assert Older(now, n);
    OlderKeeps(now, n);
    assert n.s.state.Some? && Taken(Sync(w.s), w.refreshes[refresh]) ==> n.under == n.s.credential;
  }

  lemma TokenKeeps(w: World, token: string)
    requires Good(w)
    ensures Good(Next(w, SetToken(token)))
  {
    hide OneWrite, ReadsAreDated;
    SameWrites(w, Next(w, SetToken(token)));
    SameReads(w, Next(w, SetToken(token)));
  }

  lemma ReadIssueKeeps(w: World, path: string, runScoped: bool)
    requires Good(w)
    ensures Good(Next(w, Read(path, runScoped)))
  {
    SyncKeeps(w);
    hide Sync, OneWrite, ReadsAreDated, RefreshesAreDated, StateIsFresh;
    var now, n := w.(s := Sync(w.s)), Next(w, Read(path, runScoped));
    SameWrites(now, n);
    SameRefreshes(now, n);
    SameState(now, n);
    if HasContext(now.s) {
      ReadAdded(now, n, n.gets[w.clock]) by { assert RefreshesAreDated(w); Dated(w); }
    } else {
      SameReads(now, n);
    }
  }

  lemma Dated(w: World)
    requires RefreshesAreDated(w)
    ensures w.turned < w.clock
  {
  }

  lemma ReadAdded(w: World, n: World, t: ReadTicket)
    requires ReadsAreDated(w) && n.gets == w.gets[w.clock := t] && n.turned == w.turned < w.clock
    requires n.s.activity == w.s.activity == t.activity && t.number == w.clock
    requires n.s.owners == w.s.owners[t.path := w.clock] && n.latest == w.latest[t.path := w.clock]
    ensures ReadsAreDated(n)
  {
  }

  lemma SameRefreshes(w: World, n: World)
    requires RefreshesAreDated(w) && n.refreshes == w.refreshes && n.writes == w.writes && n.turned == w.turned
    requires n.clock >= w.clock && n.s.serial == w.s.serial
    ensures RefreshesAreDated(n)
  {
  }

  lemma ReturnedKeeps(w: World, get: nat, body: Body)
    requires Good(w) && get in w.gets
    ensures Good(Next(w, Returned(get, body)))
  {
    SyncKeeps(w);
    hide Sync, OneWrite, ReadsAreDated, RefreshesAreDated;
    var now, n := w.(s := Sync(w.s)), Next(w, Returned(get, body));
    assert Older(now, n);
    OlderKeeps(now, n);
  }

  lemma WriteKeeps(w: World)
    requires Good(w)
    ensures Good(Next(w, Write))
  {
    SyncKeeps(w);
    hide Sync, OneWrite, ReadsAreDated, RefreshesAreDated;
    var now, n := w.(s := Sync(w.s)), Next(w, Write);
    if now.s.pending.None? && HasContext(now.s) {
      WriteTaken(now, n, WriteTicket(now.s.credential, now.s.epoch, now.s.runId.value));
      Turned(now, n);
    } else {
      SameWrites(now, n);
      SameReads(now, n);
      SameRefreshes(now, n);
    }
  }

  /** A write event outdates every read and refresh that is in flight. */
  lemma Turned(w: World, n: World)
    requires RefreshesAreDated(w) && ReadsAreDated(w) && n.turned == w.clock < n.clock
    requires n.s.serial > w.s.serial && n.s.activity > w.s.activity && n.s.owners == map[]
    requires n.refreshes == w.refreshes && n.gets == w.gets
    requires forall a :: a in n.writes ==> a in w.writes || a == w.clock
    ensures RefreshesAreDated(n) && ReadsAreDated(n)
  {
  }

  lemma WriteTaken(w: World, n: World, t: WriteTicket)
    requires OneWrite(w) && w.s.pending.None? && n.s.pending.Some? && n.writes == w.writes[w.clock := t]
    ensures OneWrite(n)
  {
    assert w.clock in n.writes;
  }

  lemma SettleKeeps(w: World, write: nat, body: Body)
    requires Good(w) && write in w.writes
    ensures Good(Next(w, Settled(write, body)))
  {
    SyncKeeps(w);
    hide Sync, ReadsAreDated, RefreshesAreDated;
    Turned(w.(s := Sync(w.s)), Next(w, Settled(write, body)));
  }

  lemma StepKeeps(w: World, step: Step)
    requires Good(w) && Possible(w, step)
    ensures Good(Next(w, step))
  {
    hide Next, Good;
    match step {
      case Write => WriteKeeps(w);
      case Settled(write, body) => SettleKeeps(w, write, body);
      case Read(path, runScoped) => ReadIssueKeeps(w, path, runScoped);
      case Returned(get, body) => ReturnedKeeps(w, get, body);
      case Refresh => RefreshIssueKeeps(w);
      case Refreshed(refresh, state) => RefreshedKeeps(w, refresh, state);
      case SetToken(token) => TokenKeeps(w, token);
    }
  }

  lemma {:induction false} RunKeeps(token: string, steps: seq<Step>)
    ensures Good(Run(Fresh(token), steps))
  {
    hide Next, Good;
    if steps == [] {
      FreshIsGood(token);
    } else {
      var before := Run(Fresh(token), steps[..|steps| - 1]);
      RunKeeps(token, steps[..|steps| - 1]);
      if Possible(before, steps[|steps| - 1]) {
        StepKeeps(before, steps[|steps| - 1]);
      }
    }
  }

  lemma FreshIsGood(token: string)
    ensures Good(Fresh(token))
  {
  }

  /** The authority of a write: none in flight, and a state asked for after the last one. */
  ghost predicate Authorized(w: World, sent: WriteTicket)
  {
    && w.writes == map[] && w.s.state.Some? && sent.run == w.s.state.value.run
    && w.turned < w.origin && w.under == w.s.token == sent.credential
  }

  lemma AuthorityIsFresh(w: World)
    requires Good(w) && IssueWrite(w.s).1.Some?
    ensures Authorized(w, IssueWrite(w.s).1.value)
  {
    SyncKeeps(w);
    assert Sync(w.s) == w.s;
    assert forall a :: a !in w.writes;
  }

  /** The read is still the latest of its path, with no write and no other login after it. */
  ghost predicate Present(w: World, get: nat, t: ReadTicket)
  {
    && w.turned < get && t.credential == w.s.token && w.s.runId == Some(t.run)
    && t.path in w.latest && w.latest[t.path] == get
  }

  lemma ShownIsPresent(w: World, get: nat, body: Body)
    requires Good(w) && get in w.gets && ReadReturns(w.s, w.gets[get], body).1
    ensures Present(w, get, w.gets[get])
  {
    SyncKeeps(w);
    assert Sync(w.s) == w.s || w.s.token != w.s.credential;
    assert Sync(w.s).owners == map[] || Sync(w.s) == w.s;
  }

  /** Fresh authority: whenever a write is sent, no other write is in flight, and the state it relies on
      answers a refresh issued after the last write was issued or settled, with the present credential,
      of the run that the request names. */
  lemma {:induction false} FreshAuthority(token: string, steps: seq<Step>)
    requires IssueWrite(Run(Fresh(token), steps).s).1.Some?
    ensures var w := Run(Fresh(token), steps);
            Authorized(w, IssueWrite(w.s).1.value)
  {
    hide Run, Good;
    RunKeeps(token, steps);
    AuthorityIsFresh(Run(Fresh(token), steps));
  }

  /** Whatever order answers come in: a read is shown only if it was issued after the last write was issued
      or settled, with the present credential, for the run in view, and no later read of its path. */
  lemma {:induction false} ShownReadsAreCurrent(token: string, steps: seq<Step>, get: nat, body: Body)
    requires get in Run(Fresh(token), steps).gets
    requires ReadReturns(Run(Fresh(token), steps).s, Run(Fresh(token), steps).gets[get], body).1
    ensures var w := Run(Fresh(token), steps);
            Present(w, get, w.gets[get])
  {
    hide Run, Good;
    RunKeeps(token, steps);
    ShownIsPresent(Run(Fresh(token), steps), get, body);
  }

  /** Authority can be regained: after a refresh that nothing overtook, a write is sent exactly if none is
      pending, for the run that the refresh told. */
  lemma RefreshGrantsAuthority(s: Session, snapshot: Snapshot)
    requires s.token != ""
    ensures var (asked, ticket) := IssueRefresh(s);
            ticket.Some?
            && var sent := IssueWrite(RefreshReturns(asked, ticket.value, Got(snapshot))).1;
               && (sent.Some? <==> s.pending.None?)
               && (sent.Some? ==> sent.value.run == snapshot.run && sent.value.credential == s.token)
  {
  }

  /** The session speaks for whoever is logged in. */
  predicate LoggedIn(s: Session)
  {
    s.token != "" && s.credential == s.token
  }

  /** Over every run, a write is sent exactly if somebody is logged in, no write is in flight, and a state of
      a known run is held. */
  lemma {:induction false} WriteIsSentIff(token: string, steps: seq<Step>)
    ensures var w := Run(Fresh(token), steps);
            var (after, sent) := IssueWrite(w.s);
            && (sent.Some? <==> LoggedIn(w.s) && w.writes == map[] && w.s.state.Some?)
            && (sent.Some? ==> Some(sent.value.run) == w.s.runId && after.state.None? && after.owners == map[])
  {
    hide Run, RefreshesAreDated, ReadsAreDated;
    var w := Run(Fresh(token), steps);
    RunKeeps(token, steps);
    if w.writes != map[] {
      var c :| c in w.writes;
    }
  }

  /** A read is sent exactly if somebody is logged in and a state of a known run is held; it is then the
      latest of its path. */
  lemma ReadIsSentIff(s: Session, path: string, runScoped: bool, number: nat)
    ensures var (after, sent) := IssueRead(s, path, runScoped, number);
            && (sent.Some? <==> LoggedIn(s) && s.state.Some? && s.runId.Some?)
            && (sent.Some? ==> after == s.(owners := s.owners[path := number]) && sent.value.number == number)
  {
  }

  /** A returned read is shown exactly if nothing overtook it, it was answered, and a run-scoped one was
      answered for its run; an answer for another run, or one that ends the login, ends the context. */
  lemma ReturnIs(s: Session, t: ReadTicket, body: Body)
    requires LoggedIn(s)
    ensures var (a, shown) := ReadReturns(s, t, body);
            var current := t.credential == s.token && t.epoch == s.epoch && s.runId == Some(t.run)
                           && t.activity == s.activity && t.path in s.owners && s.owners[t.path] == t.number;
            && (shown <==> current && body.Body? && (t.runScoped ==> body.run == Some(t.run)))
            && (a == s || (a.state.None? && a.runId.None? && a.owners == map[] && a.epoch == s.epoch + 1))
            && (a != s <==> current && !shown && (body.Body? || body.status in {401, 403}))
  {
  }

  /** A settled write frees its slot in every case; its result is seen exactly if its run, login and epoch
      are still the session's and the answer names no other run. */
  lemma SettleIs(s: Session, t: WriteTicket, body: Body)
    ensures var (a, seen) := SettleWrite(s, t, body);
            var own := t.credential != "" && s.token == t.credential && s.credential == t.credential
                       && t.epoch == s.epoch && s.runId == Some(t.run);
            && a.pending.None? && a.state.None? && a.owners == map[]
            && (seen <==> own && body.Body? && (body.run.Some? ==> body.run.value == t.run))
            && (own && !seen && (body.Body? || body.status in {401, 403}) ==> a.runId.None?)
            && (s.credential == s.token && (!own || seen || (body.BodyFailed? && body.status !in {401, 403})) ==>
                  a.runId == s.runId && a.epoch == s.epoch)
  {
  }

  /** A refresh is taken exactly if no other refresh, no write event and no login came after it. */
  lemma AnswerIs(s: Session, t: RefreshTicket, answer: State)
    requires s.credential == s.token
    ensures var a := RefreshReturns(s, t, answer);
            var current := t.credential != "" && s.token == t.credential && s.epoch == t.epoch && s.serial == t.serial;
            && (!current ==> a == s)
            && (current && answer.Got? ==>
                  && a.state == Some(answer.snapshot) && a.runId == Some(answer.snapshot.run)
                  && (a.epoch == s.epoch <==> s.runId.None? || s.runId == a.runId))
            && (current && (answer.Malformed? || (answer.StateFailed? && answer.status !in {401, 403})) ==>
                  a == s.(state := None))
            && (current && answer.StateFailed? && answer.status in {401, 403} ==>
                  a.state.None? && a.runId.None? && a.owners == map[] && a.epoch == s.epoch + 1)
  {
  }
}
