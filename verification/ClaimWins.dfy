/**
 What a win of ClaimRace leaves behind: exactly when another active device of the user and name remains,
 and that calls which do not overlap never deactivate the client they claim.
 */
module ClaimWins {
  import opened Prelude
  import opened OAuthTables
  import opened ClaimClient
  import opened ClaimRace
  import opened ClaimRuns
  import opened ClaimDevices

  // ---------------------------------------------------------------------------------------------
  // The events that make a duplicate
  // ---------------------------------------------------------------------------------------------

  predicate IsDuplicate(s: State, d: string, user: string, name: string) {
    d in s.clients && Duplicate(s.clients[d], user, name)
  }

  /**
   An insert with that owner and name, a rename of an active device of the user, or the user's winning
   claim of an active device of that name.
   */
  ghost predicate Makes(s: State, e: Event, d: string, user: string, name: string) {
    && Enabled(s, e)
    && match e
       case Register(client, row) => client == d && Duplicate(row, user, name)
       case Rename(client, to) =>
         client == d && to == name && s.clients[d].owner == Some(user) && s.clients[d].active && s.clients[d].name != name
       case Call(m, st) =>
         && st.RunCompareAndSet? && Wins(s.clients, s.claimers[m])
         && s.claimers[m].client == d && s.claimers[m].user == user && s.clients[d].name == name && s.clients[d].active
       case _ => false
  }

  lemma CallMakesIff(s: State, n: nat, st: Statement, d: string, user: string, name: string)
    requires Enabled(s, Call(n, st))
    ensures !IsDuplicate(s, d, user, name) && IsDuplicate(CallApply(s, n, st), d, user, name)
            <==> Makes(s, Call(n, st), d, user, name)
  {
  }

  /** No other event turns a client into an active device of the user and name. */
  lemma MakesIff(s: State, e: Event, d: string, user: string, name: string)
    requires s.clients.Keys <= s.born.Keys
    ensures !IsDuplicate(s, d, user, name) && IsDuplicate(Step(s, e), d, user, name) <==> Makes(s, e, d, user, name)
  {
    if Enabled(s, e) && e.Call? {
      CallMakesIff(s, e.n, e.statement, d, user, name);
    }
  }

  lemma ClientsAreBorn(clients: Clients, events: seq<Event>)
    requires PublicUnowned(clients)
    ensures Run(Start(clients), events).clients.Keys <= Run(Start(clients), events).born.Keys
  {
    RunKeepsInv(clients, events);
    var s := Run(Start(clients), events);
    forall c | c in s.clients ensures c in s.born {
      assert RowFits(s, c);
    }
  }

  // ---------------------------------------------------------------------------------------------
  // A call after its read
  // ---------------------------------------------------------------------------------------------

  lemma StepKeepsNames(s: State, e: Event, n: nat)
    requires n in s.claimers && !s.claimers[n].pc.ReadRow?
    ensures n in Step(s, e).claimers && !Step(s, e).claimers[n].pc.ReadRow?
    ensures var c, d := s.claimers[n], Step(s, e).claimers[n]; d.client == c.client && d.user == c.user && d.name == c.name
  {
    if Enabled(s, e) && e.Call? && e.n == n {
      match e.statement
      case RunSelect(_) =>
      case RunDeactivate =>
      case RunCompareAndSet =>
      case RunReread =>
    }
  }

  /** Once it has read its row, a call works with the client, user and name it has. */
  lemma {:induction false} NamesStay(clients: Clients, events: seq<Event>, n: nat, k: nat, l: nat)
    requires k <= l <= |events| && n in Before(clients, events, k).claimers && !Before(clients, events, k).claimers[n].pc.ReadRow?
    ensures n in Before(clients, events, l).claimers && !Before(clients, events, l).claimers[n].pc.ReadRow?
    ensures var c, d := Before(clients, events, k).claimers[n], Before(clients, events, l).claimers[n];
            d.client == c.client && d.user == c.user && d.name == c.name
  {
    if k < l {
      NamesStay(clients, events, n, k, l - 1);
      RunOneMore(clients, events, l - 1);
      StepKeepsNames(Before(clients, events, l - 1), events[l - 1], n);
    }
  }

  predicate Sweeping(pc: Pc) {
    pc.Deactivate? || pc.CompareAndSet?
  }

  lemma SweepBegins(s: State, e: Event, n: nat)
    requires n in Step(s, e).claimers && Sweeping(Step(s, e).claimers[n].pc) && Step(s, e).claimers[n].name != ""
    ensures n in s.claimers && s.claimers[n].name == Step(s, e).claimers[n].name
    ensures Sweeping(s.claimers[n].pc) || (Enabled(s, e) && e.Call? && e.n == n && e.statement.RunSelect?)
  {
  }

  /** A call that is past its read of a named client has made its select. */
  lemma {:induction false} SelectHappened(clients: Clients, events: seq<Event>, n: nat, i: nat) returns (k: nat)
    requires i <= |events| && n in Before(clients, events, i).claimers
    requires Sweeping(Before(clients, events, i).claimers[n].pc) && Before(clients, events, i).claimers[n].name != ""
    ensures k < i && SelectsAt(clients, events, n, k)
  {
    if i == 0 {
      assert false;
    }
    RunOneMore(clients, events, i - 1);
    var s := Before(clients, events, i - 1);
    SweepBegins(s, events[i - 1], n);
    if Sweeping(s.claimers[n].pc) {
      k := SelectHappened(clients, events, n, i - 1);
    } else {
      k := i - 1;
    }
  }

  // ---------------------------------------------------------------------------------------------
  // When a device remains
  // ---------------------------------------------------------------------------------------------

  ghost predicate DuplicateAt(clients: Clients, events: seq<Event>, d: string, user: string, name: string, l: nat) {
    l <= |events| && IsDuplicate(Before(clients, events, l), d, user, name)
  }

  /** The device was none at some moment after event k. */
  ghost predicate OnceNone(clients: Clients, events: seq<Event>, d: string, user: string, name: string, k: nat, l: nat) {
    exists q :: k < q <= l && q <= |events| && !DuplicateAt(clients, events, d, user, name, q)
  }

  lemma DeactivationReaches(s: State, e: Event, n: nat, d: string)
    requires n in s.claimers && s.claimers[n].pc.Deactivate? && d in s.claimers[n].pc.dups
    ensures n in Step(s, e).claimers
    ensures || (Step(s, e).claimers[n].pc.Deactivate? && d in Step(s, e).claimers[n].pc.dups)
            || (d in Step(s, e).clients ==> !Step(s, e).clients[d].active)
  {
    if Enabled(s, e) && e.Call? && e.n == n {
      var dups := s.claimers[n].pc.dups;
      assert d == dups[0] || d in dups[1..];
    }
  }

  /** A listed device stays on the list until it is deactivated. */
  lemma {:induction false} SweepReaches(clients: Clients, events: seq<Event>, n: nat, d: string, user: string, name: string, k: nat, l: nat)
    requires k < l <= |events| && SelectsAt(clients, events, n, k) && d in events[k].statement.found
    ensures n in Before(clients, events, l).claimers
    ensures || (Before(clients, events, l).claimers[n].pc.Deactivate? && d in Before(clients, events, l).claimers[n].pc.dups)
            || OnceNone(clients, events, d, user, name, k, l)
  {
    RunOneMore(clients, events, l - 1);
    if k + 1 < l {
      SweepReaches(clients, events, n, d, user, name, k, l - 1);
      var s := Before(clients, events, l - 1);
      if OnceNone(clients, events, d, user, name, k, l - 1) {
        CallStays(s, events[l - 1], n);
      } else {
        DeactivationReaches(s, events[l - 1], n, d);
        assert IsDuplicate(Before(clients, events, l), d, user, name) || !DuplicateAt(clients, events, d, user, name, l);
      }
    }
  }

  /** Between its select and its win, every device was none of the user's at some moment: it was not listed, or it was swept. */
  lemma SweptOrNotListed(clients: Clients, events: seq<Event>, n: nat, d: string, k: nat, i: nat)
    requires k < i <= |events| && SelectsAt(clients, events, n, k)
    requires n in Before(clients, events, i).claimers && Before(clients, events, i).claimers[n].pc.CompareAndSet?
    ensures var c := Before(clients, events, i).claimers[n]; OnceNone(clients, events, d, c.user, c.name, k, i)
  {
    var c := Before(clients, events, i).claimers[n];
    NamesStay(clients, events, n, k, i);
    if d in events[k].statement.found {
      SweepReaches(clients, events, n, d, c.user, c.name, k, i);
    } else {
      RunOneMore(clients, events, k);
      assert !DuplicateAt(clients, events, d, c.user, c.name, k + 1);
    }
  }

  /** Made an active device by event j, and one ever since, up to event i. */
  ghost predicate MadeAndKept(clients: Clients, events: seq<Event>, d: string, user: string, name: string, j: nat, i: nat) {
    && j < i <= |events| && Makes(Before(clients, events, j), events[j], d, user, name)
    && forall l :: j < l <= i ==> DuplicateAt(clients, events, d, user, name, l)
  }

  lemma {:induction false} LastMade(clients: Clients, events: seq<Event>, d: string, user: string, name: string, q: nat, i: nat) returns (j: nat)
    requires PublicUnowned(clients) && q <= i <= |events|
    requires !DuplicateAt(clients, events, d, user, name, q) && DuplicateAt(clients, events, d, user, name, i)
    ensures q <= j && MadeAndKept(clients, events, d, user, name, j, i)
  {
    RunOneMore(clients, events, i - 1);
    if DuplicateAt(clients, events, d, user, name, i - 1) {
      j := LastMade(clients, events, d, user, name, q, i - 1);
    } else {
      ClientsAreBorn(clients, events[..i - 1]);
      MakesIff(Before(clients, events, i - 1), events[i - 1], d, user, name);
      j := i - 1;
    }
  }

  /**
   When a call wins a named client, another active device of its user and name remains if and only if
   some event between the call's select and its win made it one and it stayed one: an insert, a rename,
   or another winning call of the same user.
   */
  lemma DeviceRemainsIff(clients: Clients, events: seq<Event>, n: nat, i: nat, d: string) returns (k: nat)
    requires PublicUnowned(clients) && WinsAt(clients, events, n, i)
    requires var c := Before(clients, events, i).claimers[n]; c.name != "" && d != c.client
    ensures k < i && SelectsAt(clients, events, n, k)
    ensures var c := Before(clients, events, i).claimers[n];
            DuplicateAt(clients, events, d, c.user, c.name, i + 1)
            <==> exists j :: k < j && MadeAndKept(clients, events, d, c.user, c.name, j, i)
  {
    var c := Before(clients, events, i).claimers[n];
    k := SelectHappened(clients, events, n, i);
    RunOneMore(clients, events, i);
    assert DuplicateAt(clients, events, d, c.user, c.name, i + 1) <==> DuplicateAt(clients, events, d, c.user, c.name, i);
    if DuplicateAt(clients, events, d, c.user, c.name, i) {
      SweptOrNotListed(clients, events, n, d, k, i);
      var q :| k < q <= i && q <= |events| && !DuplicateAt(clients, events, d, c.user, c.name, q);
      var j := LastMade(clients, events, d, c.user, c.name, q, i);
    }
  }

  // ---------------------------------------------------------------------------------------------
  // Calm runs
  // ---------------------------------------------------------------------------------------------

  lemma {:induction false} CalmPrefix(s: State, events: seq<Event>, i: nat)
    requires Calm(s, events) && i <= |events|
    ensures Calm(s, events[..i])
  {
    if i == |events| {
      assert events[..i] == events;
    } else {
      CalmPrefix(s, events[..|events| - 1], i);
      assert events[..|events| - 1][..i] == events[..i];
    }
  }

  lemma {:induction false} SelectsAreNamed(clients: Clients, events: seq<Event>, n: nat)
    requires n in Run(Start(clients), events).claimers && Run(Start(clients), events).claimers[n].pc.SelectDuplicates?
    ensures Run(Start(clients), events).claimers[n].name != ""
  {
    if events != [] {
      var s, e := Run(Start(clients), events[..|events| - 1]), events[|events| - 1];
      if n in s.claimers && s.claimers[n].pc.SelectDuplicates? {
        SelectsAreNamed(clients, events[..|events| - 1], n);
        StepKeepsNames(s, e, n);
      }
    }
  }

  /** Between its read of an unclaimed named client and its select, a call stands at the select. */
  lemma StandsAtSelect(clients: Clients, events: seq<Event>, n: nat, i: nat, j: nat, k: nat)
    requires i < j < k && Issues(clients, events, n, RunRead, i) && SelectsAt(clients, events, n, k)
    ensures n in Before(clients, events, j).claimers && Before(clients, events, j).claimers[n].pc.SelectDuplicates?
    ensures var c, d := Before(clients, events, j).claimers[n], Before(clients, events, k).claimers[n]; d.client == c.client && d.user == c.user
  {
    RunOneMore(clients, events, i);
    NamesStay(clients, events, n, i + 1, j);
    NamesStay(clients, events, n, j, k);
    SweepStays(clients, events, n, j, k);
  }

  /** Where a user's calls for one name do not overlap, a call never deactivates the client it claims. */
  lemma CalmNeverSweepsOwn(clients: Clients, events: seq<Event>, n: nat, d: nat)
    requires PublicUnowned(clients) && Calm(Start(clients), events)
    ensures !SweepsOwnAt(clients, events, n, d)
  {
    if SweepsOwnAt(clients, events, n, d) {
      SweepNeedsRival(clients, events, n, d);
      var m: nat, i: nat, j: nat, k: nat :| RivalWins(clients, events, n, m, i, j, k);
      StandsAtSelect(clients, events, n, i, j, k);
      WinnerOnRecord(clients, events, m, j, k);
      NamesStay(clients, events, m, j, k);
      CalmPrefix(Start(clients), events, j);
      RunKeepsCalm(clients, events[..j]);
      SelectsAreNamed(clients, events[..j], n);
      var s := Before(clients, events, j);
      assert Unfinished(s, n) && Unfinished(s, m) && NameKept(s, n);
      assert SameName(s, n, m);
    }
  }
}
