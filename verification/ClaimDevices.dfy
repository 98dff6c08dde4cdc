/**
 The active devices a claim leaves behind in ClaimRace: one of a name in calm runs and in runs of a
 single call, and the two races in which it is none or two.
 */
module ClaimDevices {
  import opened Prelude
  import opened OAuthTables
  import opened ClaimClient
  import opened ClaimRace

  predicate Unfinished(s: State, n: nat) {
    n in s.claimers && !Finished(s.claimers[n].pc)
  }

  // ---------------------------------------------------------------------------------------------
  // Calm runs
  // ---------------------------------------------------------------------------------------------

  /** Two calls of one user for clients of one name. */
  predicate SameName(s: State, n: nat, m: nat)
    requires n in s.claimers && m in s.claimers
  {
    var c, d := s.claimers[n], s.claimers[m];
    && c.user == d.user && c.client in s.clients && d.client in s.clients
    && s.clients[c.client].name == s.clients[d.client].name != ""
  }

  /**
   A call begins only if its user has no unfinished call for a client of the same name.  A client with
   an owner, or one an unfinished call names, is not inserted or renamed while a call of that owner, or
   that call, is unfinished.
   */
  ghost predicate CalmStep(s: State, e: Event) {
    match e
    case Begin(n, client, user) =>
      forall m :: Unfinished(s, m) && s.claimers[m].user == user && s.claimers[m].client in s.clients
                  && client in s.clients && s.clients[client].name != ""
                  ==> s.clients[s.claimers[m].client].name != s.clients[client].name
    case Register(client, row) =>
      forall m :: Unfinished(s, m) ==> s.claimers[m].client != client && row.owner != Some(s.claimers[m].user)
    case Rename(client, _) =>
      forall m :: Unfinished(s, m) && client in s.clients
                  ==> s.claimers[m].client != client && s.clients[client].owner != Some(s.claimers[m].user)
    case _ => true
  }

  ghost predicate Calm(s: State, events: seq<Event>) {
    events != [] ==>
      var before := events[..|events| - 1];
      Calm(s, before) && CalmStep(Run(s, before), events[|events| - 1])
  }

  /** No two unfinished calls of one user are for clients of one name. */
  ghost predicate Distinct(s: State) {
    forall n, m :: Unfinished(s, n) && Unfinished(s, m) && SameName(s, n, m) ==> n == m
  }

  /** The client still has the name that was read. */
  ghost predicate NameKept(s: State, n: nat)
    requires n in s.claimers
  {
    Past(s.claimers[n].pc) && s.claimers[n].client in s.clients ==> s.clients[s.claimers[n].client].name == s.claimers[n].name
  }

  /** Another active device of the user and name is one that the sweep has still to deactivate. */
  ghost predicate Swept(s: State, n: nat)
    requires n in s.claimers
  {
    var c := s.claimers[n];
    (c.pc.Deactivate? || c.pc.CompareAndSet?) && c.client in s.clients && c.name != "" ==>
      forall d :: d in s.clients && d != c.client && Duplicate(s.clients[d], c.user, c.name) ==> c.pc.Deactivate? && d in c.pc.dups
  }

  ghost predicate CalmInv(s: State) {
    Distinct(s) && forall n :: Unfinished(s, n) ==> NameKept(s, n) && Swept(s, n)
  }

  lemma CallKeepsDistinct(s: State, n: nat, st: Statement)
    requires Distinct(s) && Enabled(s, Call(n, st))
    ensures Distinct(CallApply(s, n, st))
  {
    var t := CallApply(s, n, st);
    forall m, k | Unfinished(t, m) && Unfinished(t, k) && SameName(t, m, k) ensures m == k {
      assert Unfinished(s, m) && Unfinished(s, k) && SameName(s, m, k);
    }
  }

  lemma OtherKeepsDistinct(s: State, e: Event)
    requires Distinct(s) && Enabled(s, e) && !e.Call? && CalmStep(s, e)
    ensures Distinct(Step(s, e))
  {
    var t := Step(s, e);
    forall m, k | Unfinished(t, m) && Unfinished(t, k) && SameName(t, m, k) ensures m == k {
      if !(e.Begin? && (e.n == m || e.n == k)) {
        assert Unfinished(s, m) && Unfinished(s, k);
        assert SameName(s, m, k);
      }
    }
  }

  lemma MoverKeepsName(s: State, n: nat, st: Statement)
    requires Enabled(s, Call(n, st)) && NameKept(s, n)
    ensures NameKept(CallApply(s, n, st), n)
  {
  }

  lemma MoverKeepsSwept(s: State, n: nat, st: Statement)
    requires Enabled(s, Call(n, st)) && Swept(s, n)
    ensures Swept(CallApply(s, n, st), n)
  {
    match st
    case RunRead =>
    case RunSelect(found) =>
    case RunDeactivate =>
      var dups := s.claimers[n].pc.dups;
      assert forall d :: d in dups ==> d == dups[0] || d in dups[1..];
    case RunCompareAndSet =>
    case RunReread =>
  }

  /** A call of another user adds no device of this one, and a call of the same user is for another name. */
  lemma RestingKeepsSwept(s: State, n: nat, m: nat, st: Statement)
    requires CalmInv(s) && Enabled(s, Call(m, st)) && m != n && Unfinished(s, n)
    ensures NameKept(CallApply(s, m, st), n) && Swept(CallApply(s, m, st), n)
  {
    assert NameKept(s, n) && Swept(s, n);
    assert Unfinished(s, m);
    assert SameName(s, n, m) ==> n == m;
  }

  lemma OtherKeepsSwept(s: State, e: Event, n: nat)
    requires CalmInv(s) && Enabled(s, e) && !e.Call? && CalmStep(s, e) && Unfinished(s, n)
    ensures n in Step(s, e).claimers && NameKept(Step(s, e), n) && Swept(Step(s, e), n)
  {
    assert NameKept(s, n) && Swept(s, n);
  }

  lemma StepKeepsCalm(s: State, e: Event)
    requires CalmInv(s) && CalmStep(s, e)
    ensures CalmInv(Step(s, e))
  {
    if Enabled(s, e) {
      var t := Step(s, e);
      if e.Call? {
        CallKeepsDistinct(s, e.n, e.statement);
      } else {
        OtherKeepsDistinct(s, e);
      }
      forall n | Unfinished(t, n) ensures NameKept(t, n) && Swept(t, n) {
        if e.Call? && e.n == n {
          assert Unfinished(s, n);
          MoverKeepsName(s, n, e.statement);
          MoverKeepsSwept(s, n, e.statement);
        } else if e.Call? {
          RestingKeepsSwept(s, n, e.n, e.statement);
        } else if n in s.claimers {
          OtherKeepsSwept(s, e, n);
        }
      }
    }
  }

  lemma {:induction false} RunKeepsCalm(clients: Clients, events: seq<Event>)
    requires Calm(Start(clients), events)
    ensures CalmInv(Run(Start(clients), events))
  {
    if events != [] {
      RunKeepsCalm(clients, events[..|events| - 1]);
      StepKeepsCalm(Run(Start(clients), events[..|events| - 1]), events[|events| - 1]);
    }
  }

  /** In a calm run a win leaves the user no other active client of the name of the claimed one. */
  lemma WinLeavesOneActiveDevice(clients: Clients, events: seq<Event>, n: nat, other: string)
    requires Calm(Start(clients), events)
    requires var s := Run(Start(clients), events);
             Enabled(s, Call(n, RunCompareAndSet)) && Wins(s.clients, s.claimers[n])
             && s.clients[s.claimers[n].client].name != ""
    ensures var s := Run(Start(clients), events);
            var c, t := s.claimers[n], Step(s, Call(n, RunCompareAndSet));
            && t.claimers[n].pc.Claimed? && t.clients[c.client].owner == Some(c.user)
            && (other in t.clients && other != c.client ==> !Duplicate(t.clients[other], c.user, t.clients[c.client].name))
  {
    var s := Run(Start(clients), events);
    RunKeepsCalm(clients, events);
    assert Unfinished(s, n);
    assert NameKept(s, n) && Swept(s, n);
  }

  // ---------------------------------------------------------------------------------------------
  // A call that runs undisturbed
  // ---------------------------------------------------------------------------------------------

  lemma RunNext(s: State, events: seq<Event>, e: Event)
    ensures Run(s, events + [e]) == Step(Run(s, events), e)
  {
    assert (events + [e])[..|events + [e]| - 1] == events;
  }

  /** The statements of one claim that finds the duplicates `found`. */
  function ClaimStart(n: nat, client: string, user: string, found: seq<string>): seq<Event> {
    [Begin(n, client, user)] + [Call(n, RunRead)] + [Call(n, RunSelect(found))]
  }

  function ClaimSweep(n: nat, client: string, user: string, found: seq<string>, k: nat): seq<Event> {
    if k == 0 then ClaimStart(n, client, user, found) else ClaimSweep(n, client, user, found, k - 1) + [Call(n, RunDeactivate)]
  }

  function ClaimEvents(n: nat, client: string, user: string, found: seq<string>): seq<Event> {
    ClaimSweep(n, client, user, found, |found|) + [Call(n, RunCompareAndSet)]
  }

  /** The claim gets as far as the sweep. */
  predicate Claimable(clients: Clients, client: string, user: string) {
    client in clients && !clients[client].isPublic && clients[client].owner.None?
  }

  /** `found` lists the duplicates the select would find, each once; without a name there is no select. */
  ghost predicate ListsDuplicates(clients: Clients, client: string, user: string, found: seq<string>) {
    && (forall i, j :: 0 <= i < j < |found| ==> found[i] != found[j])
    && (Claimable(clients, client, user) ==>
          forall c :: c in found <==> c in clients && clients[client].name != "" && Duplicate(clients[c], user, clients[client].name))
  }

  function Deactivated(clients: Clients, gone: seq<string>): Clients {
    map c | c in clients :: if c in gone then clients[c].(active := false) else clients[c]
  }

  /** Call n of the run stands at pc, with everything but the call as in `clients`. */
  ghost predicate Stands(s: State, clients: Clients, n: nat, client: string, user: string, pc: Pc) {
    s.clients == clients && n in s.claimers && s.claimers[n].client == client && s.claimers[n].user == user && s.claimers[n].pc == pc
  }

  lemma UndisturbedStart(s: State, n: nat, client: string, user: string, found: seq<string>)
    requires n !in s.claimers && Claimable(s.clients, client, user) && ListsDuplicates(s.clients, client, user, found)
    ensures Stands(Run(s, ClaimStart(n, client, user, found)), s.clients, n, client, user,
                   if found == [] then CompareAndSet else Deactivate(found))
  {
    var begun := [Begin(n, client, user)];
    assert found != [] ==> found[0] in found;
    assert Run(s, begun) == Step(Run(s, begun[..0]), begun[0]);
    RunNext(s, begun, Call(n, RunRead));
    RunNext(s, begun + [Call(n, RunRead)], Call(n, RunSelect(found)));
  }

  lemma OneDeactivation(s: State, n: nat, clients: Clients, client: string, user: string, dups: seq<string>)
    requires dups != [] && dups[0] in clients && Stands(s, clients, n, client, user, Deactivate(dups))
    ensures Stands(Step(s, Call(n, RunDeactivate)), clients[dups[0] := clients[dups[0]].(active := false)], n, client, user,
                   if |dups| == 1 then CompareAndSet else Deactivate(dups[1..]))
  {
  }

  lemma OneMoreDeactivated(clients: Clients, found: seq<string>, k: nat)
    requires k < |found| && found[k] in clients
    ensures found[k] in Deactivated(clients, found[..k])
    ensures Deactivated(clients, found[..k + 1])
            == Deactivated(clients, found[..k])[found[k] := Deactivated(clients, found[..k])[found[k]].(active := false)]
  {
    assert found[..k + 1] == found[..k] + [found[k]];
  }

  lemma {:induction false} UndisturbedSweep(s: State, n: nat, client: string, user: string, found: seq<string>, k: nat)
    requires n !in s.claimers && Claimable(s.clients, client, user) && ListsDuplicates(s.clients, client, user, found)
    requires k <= |found|
    ensures Stands(Run(s, ClaimSweep(n, client, user, found, k)), Deactivated(s.clients, found[..k]), n, client, user,
                   if k == |found| then CompareAndSet else Deactivate(found[k..]))
  {
    if k == 0 {
      UndisturbedStart(s, n, client, user, found);
      assert found[0..] == found;
      assert Deactivated(s.clients, found[..0]) == s.clients;
    } else {
      UndisturbedSweep(s, n, client, user, found, k - 1);
      assert found[k - 1..][0] == found[k - 1] && found[k - 1..][1..] == found[k..];
      assert found[k - 1] in found;
      OneMoreDeactivated(s.clients, found, k - 1);
      OneDeactivation(Run(s, ClaimSweep(n, client, user, found, k - 1)), n, Deactivated(s.clients, found[..k - 1]), client, user,
                      found[k - 1..]);
      RunNext(s, ClaimSweep(n, client, user, found, k - 1), Call(n, RunDeactivate));
    }
  }

  function Outcome(result: Result<bool, ClaimError>): Pc {
    match result
    case Ok(newly) => if newly then Claimed else AlreadyMine
    case Err(error) => Failed(error)
  }

  /** A claim refused at its read stays refused: the later statements are not made. */
  lemma {:induction false} RefusedSweep(s: State, n: nat, client: string, user: string, found: seq<string>, k: nat)
    requires n !in s.claimers && !Claimable(s.clients, client, user)
    ensures Stands(Run(s, ClaimSweep(n, client, user, found, k)), s.clients, n, client, user,
                   Outcome(Claim(s.clients, client, user).1))
  {
    if k == 0 {
      var begun := [Begin(n, client, user)];
      assert Run(s, begun) == Step(Run(s, begun[..0]), begun[0]);
      RunNext(s, begun, Call(n, RunRead));
      RunNext(s, begun + [Call(n, RunRead)], Call(n, RunSelect(found)));
    } else {
      RefusedSweep(s, n, client, user, found, k - 1);
      RunNext(s, ClaimSweep(n, client, user, found, k - 1), Call(n, RunDeactivate));
    }
  }

  /** Without interleaving the statements of a claim do what the call does as a whole. */
  lemma UndisturbedClaim(s: State, n: nat, client: string, user: string, found: seq<string>)
    requires n !in s.claimers && ListsDuplicates(s.clients, client, user, found)
    ensures var (clients, result) := Claim(s.clients, client, user);
            Stands(Run(s, ClaimEvents(n, client, user, found)), clients, n, client, user, Outcome(result))
  {
    RunNext(s, ClaimSweep(n, client, user, found, |found|), Call(n, RunCompareAndSet));
    if Claimable(s.clients, client, user) {
      UndisturbedSweep(s, n, client, user, found, |found|);
      assert found[..|found|] == found;
      assert Deactivated(s.clients, found) == WithoutDuplicates(s.clients, user, s.clients[client].name);
    } else {
      RefusedSweep(s, n, client, user, found, |found|);
    }
  }

  // ---------------------------------------------------------------------------------------------
  // The two races
  // ---------------------------------------------------------------------------------------------

  lemma RunTwo(s: State, events: seq<Event>, i: nat)
    requires i + 2 <= |events|
    ensures Run(s, events[..i + 2]) == Step(Step(Run(s, events[..i]), events[i]), events[i + 1])
  {
    assert events[..i + 2][..i + 1] == events[..i + 1];
    assert events[..i + 1][..i] == events[..i];
  }

  const NONE: seq<string> := []

  lemma NothingListed()
    ensures (set d | d in NONE) == {}
  {
  }

  lemma OneListed(client: string)
    ensures (set d | d in [client]) == {client}
  {
    assert client in [client];
  }

  function Device(name: string, owner: Option<string>, active: bool): ClientRow {
    ClientRow(owner, false, name, active)
  }

  function Claiming(client: string, user: string, name: string, pc: Pc, listed: set<string>): Claimer {
    Claimer(client, user, name, pc, listed, listed)
  }

  /** Both calls read the unclaimed row; the second selects after the first has won. */
  function SameClientRace(client: string, user: string): seq<Event> {
    [Begin(1, client, user), Begin(2, client, user), Call(1, RunRead), Call(2, RunRead),
     Call(1, RunSelect(NONE)), Call(1, RunCompareAndSet), Call(2, RunSelect([client])), Call(2, RunDeactivate),
     Call(2, RunCompareAndSet), Call(2, RunReread)]
  }

  function OneClient(client: string, row: ClientRow, name: string, one: Claimer, two: Claimer, winner: map<string, nat>): State {
    State(map[client := row], map[1 := one, 2 := two], map[client := Device(name, None, true)], winner)
  }

  function Unclaimed(client: string, name: string): State {
    Start(map[client := Device(name, None, true)])
  }

  lemma SameClientBothRead(client: string, user: string, name: string)
    requires name != ""
    ensures var select := Claiming(client, user, name, SelectDuplicates, {});
            Run(Unclaimed(client, name), SameClientRace(client, user)[..4])
            == OneClient(client, Device(name, None, true), name, select, select, map[])
  {
    var s, e := Unclaimed(client, name), SameClientRace(client, user);
    var read := Claimer(client, user, "", ReadRow, {}, {});
    assert Run(s, e[..0]) == s;
    RunTwo(s, e, 0);
    assert Run(s, e[..2]) == OneClient(client, Device(name, None, true), name, read, read, map[]);
    RunTwo(s, e, 2);
  }

  lemma SameClientFirstWins(client: string, user: string, name: string)
    requires name != ""
    ensures Run(Unclaimed(client, name), SameClientRace(client, user)[..6])
            == OneClient(client, Device(name, Some(user), true), name, Claiming(client, user, name, Claimed, {}),
                         Claiming(client, user, name, SelectDuplicates, {}), map[client := 1])
  {
    SameClientBothRead(client, user, name);
    NothingListed();
    RunTwo(Unclaimed(client, name), SameClientRace(client, user), 4);
  }

  lemma SameClientSecondSelects(client: string, user: string, name: string)
    requires name != ""
    ensures Run(Unclaimed(client, name), SameClientRace(client, user)[..7])
            == OneClient(client, Device(name, Some(user), true), name, Claiming(client, user, name, Claimed, {}),
                         Claimer(client, user, name, Deactivate([client]), {client}, {}), map[client := 1])
  {
    var e := SameClientRace(client, user);
    SameClientFirstWins(client, user, name);
    OneListed(client);
    var s := Run(Unclaimed(client, name), e[..6]);
    assert e[..7][..6] == e[..6] && e[..7][6] == Call(2, RunSelect([client]));
    assert CallEnabled(s, s.claimers[2], RunSelect([client]));
  }

  lemma SameClientSecondSweeps(client: string, user: string, name: string)
    requires name != ""
    ensures Run(Unclaimed(client, name), SameClientRace(client, user)[..8])
            == OneClient(client, Device(name, Some(user), false), name, Claiming(client, user, name, Claimed, {}),
                         Claiming(client, user, name, CompareAndSet, {client}), map[client := 1])
  {
    var e := SameClientRace(client, user);
    SameClientSecondSelects(client, user, name);
    assert e[..8][..7] == e[..7] && e[..8][7] == Call(2, RunDeactivate);
    var none: set<string> := {};
    assert [client][0] == client && none + {client} == {client};
  }

  /** None left: of two calls of one user for one client, the second deactivates what the first has claimed. */
  lemma SameUserRaceDeactivatesClaimedClient(client: string, user: string, name: string)
    requires name != ""
    ensures Run(Unclaimed(client, name), SameClientRace(client, user))
            == OneClient(client, Device(name, Some(user), false), name, Claiming(client, user, name, Claimed, {}),
                         Claiming(client, user, name, AlreadyMine, {client}), map[client := 1])
  {
    SameClientSecondSweeps(client, user, name);
    RunTwo(Unclaimed(client, name), SameClientRace(client, user), 8);
    assert SameClientRace(client, user)[..10] == SameClientRace(client, user);
  }

  /** Both calls of one user, for two clients of one name, select before either wins. */
  function TwoClientRace(a: string, b: string, user: string): seq<Event> {
    [Begin(1, a, user), Begin(2, b, user), Call(1, RunRead), Call(2, RunRead),
     Call(1, RunSelect(NONE)), Call(2, RunSelect(NONE)), Call(1, RunCompareAndSet), Call(2, RunCompareAndSet)]
  }

  function TwoClients(
      a: string, b: string, user: string, name: string, owner: Option<string>, readName: string, pc: Pc, winner: map<string, nat>): State
  {
    var row := Device(name, owner, true);
    State(map[a := row, b := row], map[1 := Claiming(a, user, readName, pc, {}), 2 := Claiming(b, user, readName, pc, {})],
          map[a := Device(name, None, true), b := Device(name, None, true)], winner)
  }

  function TwoUnclaimed(a: string, b: string, name: string): State {
    Start(map[a := Device(name, None, true), b := Device(name, None, true)])
  }

  lemma TwoClientsBothRead(a: string, b: string, user: string, name: string)
    requires a != b && name != ""
    ensures Run(TwoUnclaimed(a, b, name), TwoClientRace(a, b, user)[..4])
            == TwoClients(a, b, user, name, None, name, SelectDuplicates, map[])
  {
    var s, e := TwoUnclaimed(a, b, name), TwoClientRace(a, b, user);
    assert Run(s, e[..0]) == s;
    RunTwo(s, e, 0);
    assert Run(s, e[..2]) == TwoClients(a, b, user, name, None, "", ReadRow, map[]);
    RunTwo(s, e, 2);
  }

  lemma TwoClientsBothSelect(a: string, b: string, user: string, name: string)
    requires a != b && name != ""
    ensures Run(TwoUnclaimed(a, b, name), TwoClientRace(a, b, user)[..6])
            == TwoClients(a, b, user, name, None, name, CompareAndSet, map[])
  {
    TwoClientsBothRead(a, b, user, name);
    NothingListed();
    RunTwo(TwoUnclaimed(a, b, name), TwoClientRace(a, b, user), 4);
  }

  /** Two left: of two calls of one user for two clients of one name, neither sees the other's, and both stay active. */
  lemma TwoClientRaceLeavesBothActive(a: string, b: string, user: string, name: string)
    requires a != b && name != ""
    ensures Run(TwoUnclaimed(a, b, name), TwoClientRace(a, b, user))
            == TwoClients(a, b, user, name, Some(user), name, Claimed, map[a := 1, b := 2])
  {
    var s, e := TwoUnclaimed(a, b, name), TwoClientRace(a, b, user);
    TwoClientsBothSelect(a, b, user, name);
    assert e[..7][..6] == e[..6] && e[..7][6] == Call(1, RunCompareAndSet);
    FirstOfTwoWins(a, b, user, name);
    assert e[..7] == e[..|e| - 1] && e[|e| - 1] == Call(2, RunCompareAndSet);
    SecondOfTwoWins(a, b, user, name);
  }

  function OneOfTwo(a: string, b: string, user: string, name: string): State {
    State(map[a := Device(name, Some(user), true), b := Device(name, None, true)],
          map[1 := Claiming(a, user, name, Claimed, {}), 2 := Claiming(b, user, name, CompareAndSet, {})],
          map[a := Device(name, None, true), b := Device(name, None, true)], map[a := 1])
  }

  lemma FirstOfTwoWins(a: string, b: string, user: string, name: string)
    requires a != b
    ensures Step(TwoClients(a, b, user, name, None, name, CompareAndSet, map[]), Call(1, RunCompareAndSet)) == OneOfTwo(a, b, user, name)
  {
  }

  lemma SecondOfTwoWins(a: string, b: string, user: string, name: string)
    requires a != b
    ensures Step(OneOfTwo(a, b, user, name), Call(2, RunCompareAndSet))
            == TwoClients(a, b, user, name, Some(user), name, Claimed, map[a := 1, b := 2])
  {
  }
}
