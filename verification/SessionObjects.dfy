// The two browser sessions as objects; every method that awaits a call is split there. A ghost `world`
// remembers the requests in flight, so that the protocols' invariants are the objects' own.

module SessionObjects {
  import opened Prelude
  import S = StaffSession
  import P = ParticipantProtocol

  class StaffOperations {
    var token: string
    var credential: string
    var epoch: nat
    var serial: nat
    var activity: nat
    var commandSerial: nat
    var busy: bool
    var stopBusy: bool
    var state: Option<S.Snapshot>
    var runId: Option<string>
    var role: Option<string>
    const permitted: S.Permission
    ghost var world: S.World

    constructor (token: string, permitted: S.Permission)
      ensures Valid() && this.permitted == permitted && world == S.Fresh(token)
    {
      this.token, credential, epoch, serial, activity, commandSerial := token, "", 1, 1, 0, 0;
      busy, stopBusy, state, runId, role := false, false, None, None, None;
      this.permitted, world := permitted, S.Fresh(token);
      S.FreshIsGood(token);
    }

    /** The world is this session with its requests in flight, and in order. */
    ghost predicate Valid()
      reads this
    {
      world.s == Value() && S.Good(world)
    }

    ghost method Step(step: S.Step)
      requires S.Good(world) && S.Possible(world, step)
      modifies this`world
      ensures world == S.Next(permitted, old(world), step) && S.Good(world)
    {
      S.StepKeeps(permitted, world, step);
      world := S.Next(permitted, world, step);
    }

    lemma CommandSession(w: S.World, action: string)
      ensures S.Next(permitted, w, S.Command(action)).s == S.IssueCommand(w.s, permitted, action).0
    {
    }

    lemma SettledSession(w: S.World, command: nat, outcome: S.Outcome)
      requires command in w.commands
      ensures S.Next(permitted, w, S.Settles(command, outcome)).s
              == S.SettleCommand(w.s, w.commands[command], outcome).0
    {
    }

    function Value(): S.Session
      reads this
    {
      S.Session(token, credential, epoch, serial, activity, commandSerial, busy, stopBusy, state, runId, role)
    }

    method SetToken(token: string)
      requires Valid()
      modifies this
      ensures Valid() && world == S.Next(permitted, old(world), S.SetToken(token))
    {
      hide S.Good;
      this.token := token;
      Step(S.SetToken(token));
    }

    method Invalidate()
      modifies this
      ensures Value() == S.Invalidate(old(Value())) && world == old(world)
    {
      epoch, serial, state, runId, role := epoch + 1, serial + 1, None, None, None;
    }

    method Sync()
      modifies this
      ensures Value() == S.Sync(old(Value())) && world == old(world)
    {
      if token != credential {
        credential := token;
        Invalidate();
      }
    }

    method Refresh() returns (ticket: Option<S.ReadTicket>)
      requires Valid()
      modifies this
      ensures Valid() && world == S.Next(permitted, old(world), S.Read)
      ensures (Value(), ticket) == S.IssueRead(old(Value()))
    {
      hide S.Good;
      Step(S.Read);
      Sync();
      if credential == "" {
        return None;
      }
      serial := serial + 1;
      ticket := Some(S.ReadTicket(credential, epoch, serial, activity));
    }

    method Refreshed(ghost read: nat, ticket: S.ReadTicket, answer: S.Answer)
      requires Valid() && read in world.gets && world.gets[read] == ticket
      modifies this
      ensures Valid() && world == S.Next(permitted, old(world), S.Answers(read, answer))
      ensures Value() == S.ReadReturns(old(Value()), ticket, answer)
    {
      hide S.Good;
      Step(S.Answers(read, answer));
      Sync();
      if S.ReadTicket(credential, epoch, serial, activity) != ticket {
        return;
      }
      match answer {
        case Got(snapshot) =>
          if !S.Consistent(snapshot) {
            state := None;
            return;
          }
          if runId.Some? && runId.value != snapshot.run {
            Invalidate();
          }
          runId, role, state := Some(snapshot.run), Some(snapshot.role), Some(snapshot);
        case Failed(status) =>
          if status == 401 || status == 403 {
            Invalidate();
          } else {
            state := None;
          }
      }
    }

    /** A control other than a stop is sent on fresh authority only. */
    method Command(action: string) returns (ticket: Option<S.CommandTicket>)
      requires Valid()
      modifies this
      ensures Valid() && world == S.Next(permitted, old(world), S.Command(action))
      ensures (Value(), ticket) == S.IssueCommand(old(Value()), permitted, action)
      ensures ticket.Some? && action != S.STOP ==> S.Authorized(old(world), permitted, action, ticket.value)
    {
      hide S.IssueCommand, S.Good, S.Authorized, S.Next;
      if action != S.STOP && S.IssueCommand(Value(), permitted, action).1.Some? {
        S.AuthorityIsFresh(world, permitted, action);
      }
      CommandSession(world, action);
      Step(S.Command(action));
      ticket := Send(action);
    }

    method Send(action: string) returns (ticket: Option<S.CommandTicket>)
      modifies this
      ensures (Value(), ticket) == S.IssueCommand(old(Value()), permitted, action) && world == old(world)
    {
      hide S.Can;
      Sync();
      if credential == "" || !S.Can(Value(), permitted, action) {
        return None;
      }
      commandSerial, activity, serial, state := commandSerial + 1, activity + 1, serial + 1, None;
      if action == S.STOP {
        stopBusy := true;
      } else {
        busy := true;
      }
      ticket := Some(S.CommandTicket(credential, epoch, runId.GetOr(""), commandSerial, action == S.STOP));
    }

    method Settled(ghost command: nat, ticket: S.CommandTicket, outcome: S.Outcome) returns (seen: bool)
      requires Valid() && command in world.commands && world.commands[command] == ticket
      modifies this
      ensures Valid() && world == S.Next(permitted, old(world), S.Settles(command, outcome))
      ensures (Value(), seen) == S.SettleCommand(old(Value()), ticket, outcome)
    {
      hide S.Obsolete, S.Good, S.Next;
      SettledSession(world, command, outcome);
      Step(S.Settles(command, outcome));
      Sync();
      seen := false;
      if !S.Obsolete(Value(), ticket) {
        match outcome {
          case Confirmed => seen := true;
          case Refused(status) =>
            if status == 401 || status == 403 {
              Invalidate();
            }
        }
      }
      if ticket.emergency {
        stopBusy := false;
      } else {
        busy := false;
      }
      activity, serial, state := activity + 1, serial + 1, None;
    }
  }

  class ParticipantSession {
    var token: string
    var credential: string
    var epoch: nat
    var serial: nat
    var activity: nat
    var runId: Option<string>
    var state: Option<P.Snapshot>
    var pending: Option<P.WriteTicket>
    var owners: map<string, nat>
    ghost var world: P.World

    constructor (token: string)
      ensures Valid() && world == P.Fresh(token)
    {
      this.token, credential, epoch, serial, activity := token, "", 0, 0, 0;
      runId, state, pending, owners := None, None, None, map[];
      world := P.Fresh(token);
      P.FreshIsGood(token);
    }

    ghost predicate Valid()
      reads this
    {
      world.s == Value() && P.Good(world)
    }

    ghost method Step(step: P.Step)
      requires P.Good(world) && P.Possible(world, step)
      modifies this`world
      ensures world == P.Next(old(world), step) && P.Good(world)
    {
      P.StepKeeps(world, step);
      world := P.Next(world, step);
    }

    method SetToken(token: string)
      requires Valid()
      modifies this
      ensures Valid() && world == P.Next(old(world), P.SetToken(token))
    {
      hide P.Good;
      this.token := token;
      Step(P.SetToken(token));
    }

    function Value(): P.Session
      reads this
    {
      P.Session(token, credential, epoch, serial, activity, runId, state, pending, owners)
    }

    method Invalidate()
      modifies this
      ensures Value() == P.Invalidate(old(Value())) && world == old(world)
    {
      epoch, serial, runId, state, activity, owners := epoch + 1, serial + 1, None, None, activity + 1, map[];
    }

    method Sync()
      modifies this
      ensures Value() == P.Sync(old(Value())) && world == old(world)
    {
      if token != credential {
        credential := token;
        Invalidate();
      }
    }

    method Refresh() returns (ticket: Option<P.RefreshTicket>)
      requires Valid()
      modifies this
      ensures Valid() && world == P.Next(old(world), P.Refresh)
      ensures (Value(), ticket) == P.IssueRefresh(old(Value()))
    {
      hide P.Good;
      Step(P.Refresh);
      Sync();
      if credential == "" {
        return None;
      }
      serial := serial + 1;
      ticket := Some(P.RefreshTicket(credential, epoch, serial));
    }

    method Refreshed(ghost refresh: nat, ticket: P.RefreshTicket, answer: P.State)
      requires Valid() && refresh in world.refreshes && world.refreshes[refresh] == ticket
      modifies this
      ensures Valid() && world == P.Next(old(world), P.Refreshed(refresh, answer))
      ensures Value() == P.RefreshReturns(old(Value()), ticket, answer)
    {
      hide P.Good;
      Step(P.Refreshed(refresh, answer));
      Sync();
      if ticket.credential == "" || P.RefreshTicket(credential, epoch, serial) != ticket {
        return;
      }
      match answer {
        case Got(snapshot) =>
          if runId.Some? && runId.value != snapshot.run {
            Invalidate();
          }
          runId, state := Some(snapshot.run), Some(snapshot);
        case Malformed => state := None;
        case StateFailed(status) =>
          state := None;
          if P.Unauthorized(status) {
            Invalidate();
          }
      }
    }

    method Turn()
      modifies this
      ensures Value() == P.Turn(old(Value())) && world == old(world)
    {
      serial, activity, owners, state := serial + 1, activity + 1, map[], None;
    }

    /** A write is sent on fresh authority only. */
    method Write() returns (ticket: Option<P.WriteTicket>)
      requires Valid()
      modifies this
      ensures Valid() && world == P.Next(old(world), P.Write)
      ensures (Value(), ticket) == P.IssueWrite(old(Value()))
      ensures ticket.Some? ==> P.Authorized(old(world), ticket.value)
    {
      hide P.Good, P.Authorized;
      if P.IssueWrite(Value()).1.Some? {
        P.AuthorityIsFresh(world);
      }
      Step(P.Write);
      Sync();
      if pending.Some? || credential == "" || state.None? || runId.None? {
        return None;
      }
      pending := Some(P.WriteTicket(credential, epoch, runId.value));
      Turn();
      ticket := pending;
    }

    method Settled(ghost write: nat, ticket: P.WriteTicket, body: P.Body) returns (seen: bool)
      requires Valid() && write in world.writes && world.writes[write] == ticket
      modifies this
      ensures Valid() && world == P.Next(old(world), P.Settled(write, body))
      ensures (Value(), seen) == P.SettleWrite(old(Value()), ticket, body)
    {
      hide P.Good;
      Step(P.Settled(write, body));
      Sync();
      seen := false;
      if P.Current(Value(), ticket.credential, ticket.epoch) && runId == Some(ticket.run) {
        match body {
          case Body(run) =>
            if run.Some? && run.value != ticket.run {
              Invalidate();
            } else {
              seen := true;
            }
          case BodyFailed(status) =>
            if P.Unauthorized(status) {
              Invalidate();
            }
        }
      }
      pending := None;
      Turn();
    }

    method Read(path: string, runScoped: bool, number: nat) returns (ticket: Option<P.ReadTicket>)
      requires Valid() && number == world.clock
      modifies this
      ensures Valid() && world == P.Next(old(world), P.Read(path, runScoped))
      ensures (Value(), ticket) == P.IssueRead(old(Value()), path, runScoped, number)
    {
      hide P.Good;
      Step(P.Read(path, runScoped));
      Sync();
      if credential == "" || state.None? || runId.None? {
        return None;
      }
      owners := owners[path := number];
      ticket := Some(P.ReadTicket(credential, epoch, runId.value, activity, path, number, runScoped));
    }

    /** A read is shown only while it is the latest of its path and nothing has overtaken it. */
    method Returned(ghost get: nat, ticket: P.ReadTicket, body: P.Body) returns (shown: bool)
      requires Valid() && get in world.gets && world.gets[get] == ticket
      modifies this
      ensures Valid() && world == P.Next(old(world), P.Returned(get, body))
      ensures (Value(), shown) == P.ReadReturns(old(Value()), ticket, body)
      ensures shown ==> P.Present(old(world), get, ticket)
    {
      hide P.Shown, P.Good, P.Present;
      if P.ReadReturns(Value(), ticket, body).1 {
        P.ShownIsPresent(world, get, body);
      }
      Step(P.Returned(get, body));
      Sync();
      if !P.Shown(Value(), ticket) {
        return false;
      }
      match body {
        case Body(run) =>
          if ticket.runScoped && run != Some(ticket.run) {
            Invalidate();
            return false;
          }
          shown := true;
        case BodyFailed(status) =>
          if P.Unauthorized(status) {
            Invalidate();
          }
          shown := false;
      }
    }
  }
}
