// IdentitySliceSimulationState: deep snapshots of state that is changed in place, and tokens that each
// restore one of them once. The accounts are objects, so that a shallow copy would not do.

module Rollback {
  import opened Prelude

  datatype AccountValue = AccountValue(exists_: bool, enabled: bool, groups: seq<string>)

  type Accounts = map<string, AccountValue>

  datatype Flags = Flags(baseline: bool, history: bool, replays: nat, discoveries: nat, persistence: bool,
                         blocked: bool, adverse: bool)

  /** The simulation fields, with the endpoint accounts. */
  datatype Sim = Sim(flags: Flags, accounts: Accounts)

  /** The state, the snapshots under their tokens, and the number of the last token. */
  datatype Slice = Slice(now: Sim, saved: map<nat, Sim>, sequence: nat)

  datatype Transition = LoadBaseline | StageHistory | ReplaySession | RunDiscovery | AttemptPersistence
    | VerifyContainment(passed: bool) | Escalate | Unknown

  const NOTHING := Flags(false, false, 0, 0, false, false, false)
  const ADVERSE := "svc-print-sync"
  const ESCALATED := AccountValue(true, true, ["SimCorp-Server-Operators"])

  /** The guards of `apply`, after the snapshot was taken. */
  predicate Allowed(s: Sim, t: Transition)
  {
    match t
    case LoadBaseline => true
    case StageHistory => s.flags.baseline
    case ReplaySession => s.flags.history
    case RunDiscovery => s.flags.replays >= 1
    case AttemptPersistence => s.flags.discoveries >= 1
    case VerifyContainment(passed) => passed
    case Escalate => ADVERSE in s.accounts
    case Unknown => false
  }

  function Advanced(f: Flags, t: Transition): Flags
  {
    match t
    case LoadBaseline => f.(baseline := true)
    case StageHistory => f.(history := true)
    case ReplaySession => f.(replays := f.replays + 1)
    case RunDiscovery => f.(discoveries := f.discoveries + 1)
    case AttemptPersistence => f.(persistence := true)
    case VerifyContainment(_) => f.(blocked := true)
    case Escalate => f.(adverse := true)
    case Unknown => f
  }

  function Changed(s: Sim, t: Transition): Sim
  {
    Sim(Advanced(s.flags, t), if t.Escalate? then s.accounts[ADVERSE := ESCALATED] else s.accounts)
  }

  /** `apply`: the snapshot is taken first, also when the transition is then refused. */
  function DoApply(s: Slice, t: Transition): Slice
  {
    var token := s.sequence + 1;
    Slice(if Allowed(s.now, t) then Changed(s.now, t) else s.now, s.saved[token := s.now], token)
  }

  /** `rollback` */
  function DoRollback(s: Slice, token: nat): Slice
  {
    if token !in s.saved then s else Slice(s.saved[token], s.saved - {token}, s.sequence)
  }

  /** An endpoint action changes a live account in place. */
  function DoChange(s: Slice, name: string, value: AccountValue): Slice
  {
    if name !in s.now.accounts then s else s.(now := s.now.(accounts := s.now.accounts[name := value]))
  }

  datatype Op = Apply(t: Transition) | RollBack(token: nat) | Change(name: string, value: AccountValue)

  function Do(s: Slice, op: Op): Slice
  {
    match op
    case Apply(t) => DoApply(s, t)
    case RollBack(token) => DoRollback(s, token)
    case Change(name, value) => DoChange(s, name, value)
  }

  function Run(s: Slice, ops: seq<Op>): Slice
  {
    if ops == [] then s else Do(Run(s, ops[..|ops| - 1]), ops[|ops| - 1])
  }

  ghost predicate TokensIssued(s: Slice)
  {
    forall token :: token in s.saved ==> token <= s.sequence
  }

  /** Rollback exactness, for every sequence of transitions, rollbacks and account changes: until it is
      used, the token that a transition took restores exactly the state from before that transition. */
  lemma {:induction false} RollbackIsExact(s: Slice, t: Transition, ops: seq<Op>)
    requires TokensIssued(s)
    ensures var token := DoApply(s, t).sequence;
            var later := Run(DoApply(s, t), ops);
            && TokensIssued(later) && later.sequence >= token
            && (RollBack(token) !in ops ==>
                  token in later.saved && later.saved[token] == s.now && DoRollback(later, token).now == s.now)
  {
    if ops != [] {
      var init, last := ops[..|ops| - 1], ops[|ops| - 1];
      RollbackIsExact(s, t, init);
      assert ops == init + [last];
    }
  }

  /** A token works once: after its rollback, or if it was never issued so far and no transition issues
      it, it is unknown, and rolling it back changes nothing. */
  lemma {:induction false} TokensWorkOnce(s: Slice, token: nat, ops: seq<Op>)
    requires TokensIssued(s) && token in s.saved
    ensures var later := Run(DoRollback(s, token), ops);
            token !in later.saved && token <= later.sequence && DoRollback(later, token) == later
  {
    if ops != [] {
      TokensWorkOnce(s, token, ops[..|ops| - 1]);
    }
  }

  /** Each transition does what it says and no more, under its own condition: histories need a baseline,
      replays a history, discovery a replay, persistence a discovery, containment its check, and the
      escalation the account that it takes over. The token restores what was there before, either way. */
  lemma {:induction false} TransitionIs(s: Slice, t: Transition)
    ensures var a, f, g := DoApply(s, t), s.now.flags, DoApply(s, t).now.flags;
            && (g.baseline <==> f.baseline || t == LoadBaseline)
            && (g.history <==> f.history || (t == StageHistory && f.baseline))
            && g.replays == f.replays + (if t == ReplaySession && f.history then 1 else 0)
            && g.discoveries == f.discoveries + (if t == RunDiscovery && f.replays > 0 then 1 else 0)
            && (g.persistence <==> f.persistence || (t == AttemptPersistence && f.discoveries > 0))
            && (g.blocked <==> f.blocked || t == VerifyContainment(true))
            && a.sequence == s.sequence + 1 && a.saved == s.saved[s.sequence + 1 := s.now]
  {
    hide DoApply;
    ApplyFlags(s, t);
  }

  lemma ApplyFlags(s: Slice, t: Transition)
    ensures var a := DoApply(s, t);
            && a.now.flags == (if Allowed(s.now, t) then Advanced(s.now.flags, t) else s.now.flags)
            && a.sequence == s.sequence + 1 && a.saved == s.saved[s.sequence + 1 := s.now]
  {
    hide Allowed, Advanced;
  }

  lemma {:induction false} EscalationIs(s: Slice, t: Transition)
    ensures var a, taken := DoApply(s, t), t == Escalate && "svc-print-sync" in s.now.accounts;
            && (a.now.flags.adverse <==> s.now.flags.adverse || taken)
            && (!taken ==> a.now.accounts == s.now.accounts)
            && (taken ==>
                  && a.now.accounts.Keys == s.now.accounts.Keys
                  && a.now.accounts["svc-print-sync"] == AccountValue(true, true, ["SimCorp-Server-Operators"])
                  && forall name :: name in s.now.accounts && name != "svc-print-sync" ==>
                       a.now.accounts[name] == s.now.accounts[name])
  {
  }

  /** The stages have been taken in order. */
  predicate InStages(f: Flags)
  {
    && (f.history ==> f.baseline) && (f.replays > 0 ==> f.history) && (f.discoveries > 0 ==> f.replays > 0)
    && (f.persistence ==> f.discoveries > 0)
  }

  /** Whatever is applied, rolled back and changed, in any order: no stage is ever reached without the ones
      before it, neither now nor in any snapshot that could be restored. */
  lemma {:induction false} StagesInOrder(accounts: Accounts, ops: seq<Op>)
    ensures var s := Run(Slice(Sim(NOTHING, accounts), map[], 0), ops);
            InStages(s.now.flags) && forall token :: token in s.saved ==> InStages(s.saved[token].flags)
  {
    hide DoApply;
    if ops != [] {
      var before, last := Run(Slice(Sim(NOTHING, accounts), map[], 0), ops[..|ops| - 1]), ops[|ops| - 1];
      StagesInOrder(accounts, ops[..|ops| - 1]);
      if last.Apply? {
        TransitionIs(before, last.t);
      }
    }
  }

  // ---------------------------------------------------------------- the objects

  class Account {
    var exists_: bool
    var enabled: bool
    var groups: seq<string>

    constructor (value: AccountValue)
      ensures Value() == value
    {
      exists_, enabled, groups := value.exists_, value.enabled, value.groups;
    }

    function Value(): AccountValue
      reads this
    {
      AccountValue(exists_, enabled, groups)
    }
  }

  type Objects = map<string, Account>

  /** No two names share an account object. */
  ghost predicate Separate(accounts: Objects)
  {
    forall a, b :: a in accounts && b in accounts && a != b ==> accounts[a] != accounts[b]
  }

  ghost predicate Apart(a: Objects, b: Objects)
  {
    forall x, y :: x in a && y in b ==> a[x] != b[y]
  }

  ghost function ObjectsOf(accounts: Objects): set<object>
  {
    set n | n in accounts :: accounts[n]
  }

  ghost predicate Within(accounts: Objects, footprint: set<object>)
  {
    forall n :: n in accounts ==> accounts[n] in footprint
  }

  function Values(accounts: Objects): Accounts
    reads set n | n in accounts :: accounts[n]
  {
    map n | n in accounts :: accounts[n].Value()
  }

  /** `deepcopy` of the account table. */
  method DeepCopy(accounts: Objects) returns (copy: Objects)
    ensures copy.Keys == accounts.Keys && Values(copy) == Values(accounts)
    ensures Separate(copy) && forall n :: n in copy ==> fresh(copy[n])
  {
    copy := map[];
    var names := accounts.Keys;
    while names != {}
      invariant names <= accounts.Keys && copy.Keys == accounts.Keys - names
      invariant Separate(copy) && forall n :: n in copy ==> fresh(copy[n])
      invariant forall n :: n in copy ==> copy[n].Value() == accounts[n].Value()
    {
      var name :| name in names;
      var account := new Account(accounts[name].Value());
      copy := copy[name := account];
      names := names - {name};
    }
  }

  /** A snapshot as it is stored, with account objects of its own. */
  datatype Saved = Saved(flags: Flags, accounts: Objects)

  function SimOf(s: Saved): Sim
    reads set n | n in s.accounts :: s.accounts[n]
  {
    Sim(s.flags, Values(s.accounts))
  }

  function SavedValues(rollbacks: map<nat, Saved>): (r: map<nat, Sim>)
    reads set t, n | t in rollbacks && n in rollbacks[t].accounts :: rollbacks[t].accounts[n]
    ensures r.Keys == rollbacks.Keys && forall t :: t in r ==> r[t] == SimOf(rollbacks[t])
  {
    map t | t in rollbacks :: SimOf(rollbacks[t])
  }

  /** Each snapshot has its own account objects, apart from the live ones and from each other's. */
  ghost predicate AllApart(rollbacks: map<nat, Saved>, live: Objects)
  {
    && (forall t :: t in rollbacks ==> Separate(rollbacks[t].accounts) && Apart(rollbacks[t].accounts, live))
    && (forall t, u :: t in rollbacks && u in rollbacks && t != u ==>
          Apart(rollbacks[t].accounts, rollbacks[u].accounts))
  }

  ghost predicate AllWithin(rollbacks: map<nat, Saved>, footprint: set<object>)
  {
    forall t :: t in rollbacks ==> Within(rollbacks[t].accounts, footprint)
  }

  lemma AddedApart(rollbacks: map<nat, Saved>, token: nat, saved: Saved, live: Objects)
    requires AllApart(rollbacks, live) && Separate(saved.accounts) && Apart(saved.accounts, live)
    requires forall t :: t in rollbacks ==> Apart(saved.accounts, rollbacks[t].accounts)
    ensures AllApart(rollbacks[token := saved], live)
  {
  }

  lemma RemovedApart(rollbacks: map<nat, Saved>, token: nat, live: Objects)
    requires AllApart(rollbacks, live) && token in rollbacks
    ensures AllApart(rollbacks - {token}, rollbacks[token].accounts) && Separate(rollbacks[token].accounts)
  {
  }

  /** Objects outside the footprint are apart from everything in it. */
  lemma NewIsApart(copy: Objects, rollbacks: map<nat, Saved>, live: Objects, footprint: set<object>)
    requires Within(live, footprint) && AllWithin(rollbacks, footprint)
    requires ObjectsOf(copy) !! footprint
    ensures Apart(copy, live) && forall t :: t in rollbacks ==> Apart(copy, rollbacks[t].accounts)
  {
  }

  lemma AddedWithin(rollbacks: map<nat, Saved>, token: nat, saved: Saved, live: Objects, footprint: set<object>)
    requires Within(live, footprint) && AllWithin(rollbacks, footprint)
    ensures var wider := footprint + ObjectsOf(saved.accounts);
            Within(live, wider) && AllWithin(rollbacks[token := saved], wider)
  {
  }

  lemma RemovedWithin(rollbacks: map<nat, Saved>, token: nat, footprint: set<object>)
    requires AllWithin(rollbacks, footprint) && token in rollbacks
    ensures AllWithin(rollbacks - {token}, footprint) && Within(rollbacks[token].accounts, footprint)
  {
  }

  lemma SavedAdded(rollbacks: map<nat, Saved>, token: nat, saved: Saved)
    ensures SavedValues(rollbacks[token := saved]) == SavedValues(rollbacks)[token := SimOf(saved)]
  {
    hide SimOf;
  }

  lemma KnownAccount(s: Saved, name: string)
    ensures name in SimOf(s).accounts <==> name in s.accounts
  {
  }

  lemma SavedRemoved(rollbacks: map<nat, Saved>, token: nat)
    ensures SavedValues(rollbacks - {token}) == SavedValues(rollbacks) - {token}
  {
    hide SimOf;
  }

  method SetAccount(accounts: Objects, name: string, value: AccountValue)
    requires Separate(accounts) && name in accounts
    modifies accounts[name]
    ensures Values(accounts) == old(Values(accounts))[name := value]
  {
    var account := accounts[name];
    account.exists_, account.enabled, account.groups := value.exists_, value.enabled, value.groups;
  }

  class IdentitySliceState {
    var live: Saved // the simulation fields and the endpoint's present accounts
    var rollbacks: map<nat, Saved>
    var sequence: nat
    ghost var Repr: set<object>

    constructor (accounts: Objects)
      requires Separate(accounts)
      ensures Valid() && fresh(Repr - set n | n in accounts :: accounts[n])
      ensures Value() == Slice(Sim(NOTHING, Values(accounts)), map[], 0)
    {
      live := Saved(NOTHING, accounts);
      rollbacks, sequence := map[], 0;
      Repr := {this} + set n | n in accounts :: accounts[n];
    }

    /** The live table and every snapshot have their own account objects. */
    ghost predicate Valid()
      reads this, Repr
    {
      && this in Repr && Within(live.accounts, Repr) && Separate(live.accounts)
      && AllWithin(rollbacks, Repr) && AllApart(rollbacks, live.accounts)
    }

    function Value(): Slice
      requires Valid()
      reads this, Repr
    {
      Slice(SimOf(live), SavedValues(rollbacks), sequence)
    }

    /** `_capture` */
    method Capture() returns (token: nat)
      requires Valid()
      modifies this
      ensures Valid() && fresh(Repr - old(Repr)) && live == old(live)
      ensures token == sequence == old(sequence) + 1
      ensures Value() == Slice(old(Value()).now, old(Value()).saved[token := old(Value()).now], token)
    {
      var copy := DeepCopy(live.accounts);
      KeepCopy(copy);
      token := sequence;
    }

    /** Store a copy of the live table as the next snapshot. */
    method KeepCopy(copy: Objects)
      requires Valid() && Separate(copy) && Values(copy) == Values(live.accounts)
      requires ObjectsOf(copy) !! Repr
      modifies this
      ensures Valid() && Repr == old(Repr) + ObjectsOf(copy) && live == old(live)
      ensures sequence == old(sequence) + 1
      ensures Value() == Slice(old(Value()).now, old(Value()).saved[sequence := old(Value()).now], sequence)
    {
      hide Values, AllApart, AllWithin, Within, Apart, Separate, SavedValues, ObjectsOf;
      var saved := live.(accounts := copy);
      NewIsApart(copy, rollbacks, live.accounts, Repr);
      AddedWithin(rollbacks, sequence + 1, saved, live.accounts, Repr);
      AddedApart(rollbacks, sequence + 1, saved, live.accounts);
      SavedAdded(rollbacks, sequence + 1, saved);
      sequence, rollbacks := sequence + 1, rollbacks[sequence + 1 := saved];
      Repr := Repr + ObjectsOf(copy);
    }

    /** An in-place change of one live account, as endpoint actions and the escalation make it. */
    method ChangeAccount(name: string, value: AccountValue)
      requires Valid() && name in live.accounts
      modifies live.accounts[name]
      ensures Valid() && Value() == DoChange(old(Value()), name, value)
    {
      hide SavedValues;
      SetAccount(live.accounts, name, value);
      assert forall t, n :: t in rollbacks && n in rollbacks[t].accounts ==>
                              rollbacks[t].accounts[n] != live.accounts[name];
    }

    /** One reviewed transition of the live state. */
    method Step(t: Transition)
      requires Valid() && Allowed(Value().now, t)
      modifies this`live, if ADVERSE in live.accounts then {live.accounts[ADVERSE]} else {}
      ensures Valid() && Value() == old(Value()).(now := Changed(old(Value()).now, t))
    {
      hide Values, AllApart, Separate, SavedValues, AllWithin, Within, Advanced;
      if t.Escalate? {
        KnownAccount(live, ADVERSE);
        ChangeAccount(ADVERSE, ESCALATED);
      }
      live := live.(flags := Advanced(live.flags, t));
    }

    method Apply(t: Transition) returns (token: Option<nat>)
      requires Valid()
      modifies Repr
      ensures Valid() && fresh(Repr - old(Repr))
      ensures Value() == DoApply(old(Value()), t)
      ensures token == if Allowed(old(Value()).now, t) then Some(sequence) else None
    {
      hide Values, AllApart, Separate, SavedValues, AllWithin, Changed;
      var taken := Capture();
      if !Allowed(Value().now, t) {
        return None;
      }
      Step(t);
      token := Some(taken);
    }

    /** `rollback`: the snapshot's own account objects become the live ones. */
    method RollBack(token: nat) returns (ok: bool)
      requires Valid()
      modifies this
      ensures Valid() && Repr == old(Repr) && ok == (token in old(rollbacks))
      ensures Value() == DoRollback(old(Value()), token)
    {
      if token !in rollbacks {
        return false;
      }
      hide Values, AllApart, Separate, SavedValues, Within, AllWithin;
      RemovedWithin(rollbacks, token, Repr);
      RemovedApart(rollbacks, token, live.accounts);
      SavedRemoved(rollbacks, token);
      live, rollbacks := rollbacks[token], rollbacks - {token};
      ok := true;
    }
  }
}
