/**
 What holds of every run of ClaimRace: one winner per client, owners that stay, and exactly when a call
 deactivates the very client it claims.
 */
module ClaimRuns {
  import opened Prelude
  import opened OAuthTables
  import opened ClaimClient
  import opened ClaimRace

  ghost predicate OwnersKept(before: Clients, after: Clients) {
    forall c :: c in before && c in after ==>
      && after[c].isPublic == before[c].isPublic
      && (before[c].owner.Some? ==> after[c].owner == before[c].owner)
  }

  /** From every point of every run: an owner once set stays, no client changes its kind, and a removed one never returns. */
  lemma OwnerIsWriteOnce(clients: Clients, events: seq<Event>, e: Event)
    requires PublicUnowned(clients)
    ensures var s := Run(Start(clients), events);
            && OwnersKept(s.clients, Step(s, e).clients)
            && (forall c :: c in s.born && c !in s.clients ==> c !in Step(s, e).clients)
  {
    var s := Run(Start(clients), events);
    RunKeepsInv(clients, events);
    StepGrows(clients.Keys, s, e);
    StepKeepsInv(clients.Keys, s, e);
    forall c | c in s.clients && c in Step(s, e).clients
      ensures Step(s, e).clients[c].isPublic == s.clients[c].isPublic
      ensures s.clients[c].owner.Some? ==> Step(s, e).clients[c].owner == s.clients[c].owner
    {
      RowStaysOwned(clients.Keys, s, Step(s, e), c);
    }
  }

  lemma RowStaysOwned(ids: set<string>, s: State, t: State, c: string)
    requires Inv(ids, s) && Inv(ids, t) && Grows(s, t) && c in s.clients && c in t.clients
    ensures t.clients[c].isPublic == s.clients[c].isPublic
    ensures s.clients[c].owner.Some? ==> t.clients[c].owner == s.clients[c].owner
  {
    assert RowFits(s, c) && RowFits(t, c);
    if c in s.winner {
      assert WinnerFits(s, c);
    }
  }

  /** A public client is owned by nobody, in every run. */
  lemma PublicStaysUnowned(clients: Clients, events: seq<Event>)
    requires PublicUnowned(clients)
    ensures PublicUnowned(Run(Start(clients), events).clients)
  {
    var s := Run(Start(clients), events);
    RunKeepsInv(clients, events);
    forall c | c in s.clients && s.clients[c].isPublic ensures s.clients[c].owner.None? {
      assert RowFits(s, c);
      assert c in s.winner ==> WinnerFits(s, c);
    }
  }

  /** A finished call has won, shares the winner's user, or has failed. */
  ghost predicate Decided(s: State, client: string, n: nat)
    requires n in s.claimers
  {
    && client in s.winner && s.winner[client] in s.claimers && client in s.clients
    && var winner := s.winner[client];
       && s.clients[client].owner == Some(s.claimers[winner].user)
       && s.claimers[n].pc == if n == winner then Claimed
                              else if s.claimers[n].user == s.claimers[winner].user then AlreadyMine
                              else Failed(ClaimedByOther)
  }

  /**
   For a client that starts unclaimed and not public: only the winner returned True, and only calls for
   the winner's user returned False.  As long as the client is not deleted there is a winner as soon as
   some call has finished, and every call for another user fails.
   */
  lemma ExactlyOneClaimWins(clients: Clients, events: seq<Event>, client: string, n: nat)
    requires PublicUnowned(clients)
    requires client in clients && clients[client].owner.None? && !clients[client].isPublic
    requires var s := Run(Start(clients), events);
             n in s.claimers && s.claimers[n].client == client && Finished(s.claimers[n].pc)
    ensures var s := Run(Start(clients), events);
            && (s.claimers[n].pc.Claimed? <==> client in s.winner && s.winner[client] == n)
            && (s.claimers[n].pc.AlreadyMine? ==>
                  client in s.winner && s.winner[client] in s.claimers
                  && s.claimers[s.winner[client]].user == s.claimers[n].user)
            && (client in s.clients ==> Decided(s, client, n))
  {
    RunKeepsInv(clients, events);
    RunGrows(clients, events, 0);
    DecidedByInv(clients.Keys, Run(Start(clients), events), client, n);
  }

  lemma DecidedByInv(ids: set<string>, s: State, client: string, n: nat)
    requires Inv(ids, s) && client in ids && client in s.born && s.born[client].owner.None? && !s.born[client].isPublic
    requires n in s.claimers && s.claimers[n].client == client && Finished(s.claimers[n].pc)
    ensures s.claimers[n].pc.Claimed? <==> client in s.winner && s.winner[client] == n
    ensures s.claimers[n].pc.AlreadyMine? ==>
              client in s.winner && s.winner[client] in s.claimers && s.claimers[s.winner[client]].user == s.claimers[n].user
    ensures client in s.clients ==> Decided(s, client, n)
  {
    assert ClaimerFits(ids, s, n);
    if client in s.winner {
      assert WinnerFits(s, client);
      assert ClaimerFits(ids, s, s.winner[client]);
    }
    if client in s.clients {
      assert RowFits(s, client);
      assert s.claimers[n].pc != Failed(ClientNotFound) && s.claimers[n].pc != Failed(PublicClient);
      assert s.claimers[n].pc.Failed? ==> s.claimers[n].pc.error.ClaimedByOther?;
    }
  }

  lemma {:induction false} RunGrows(clients: Clients, events: seq<Event>, i: nat)
    requires PublicUnowned(clients) && i <= |events|
    ensures Grows(Run(Start(clients), events[..i]), Run(Start(clients), events))
    decreases |events|
  {
    if i == |events| {
      assert events[..i] == events;
    } else {
      var before := events[..|events| - 1];
      RunGrows(clients, before, i);
      assert before[..i] == events[..i];
      RunKeepsInv(clients, before);
      StepGrows(clients.Keys, Run(Start(clients), before), events[|events| - 1]);
      GrowsOn(Run(Start(clients), events[..i]), Run(Start(clients), before), Run(Start(clients), events));
    }
  }

  lemma GrowsOn(s: State, t: State, u: State)
    requires Grows(s, t) && Grows(t, u)
    ensures Grows(s, u)
  {
  }

  // ---------------------------------------------------------------------------------------------
  // A call that sweeps the client it claims
  // ---------------------------------------------------------------------------------------------

  ghost function Before(clients: Clients, events: seq<Event>, i: nat): State
    requires i <= |events|
  {
    Run(Start(clients), events[..i])
  }

  /** Event i of the run happens: call n issues the statement. */
  ghost predicate Issues(clients: Clients, events: seq<Event>, n: nat, st: Statement, i: nat) {
    i < |events| && events[i] == Call(n, st) && Enabled(Before(clients, events, i), events[i])
  }

  ghost predicate SelectsAt(clients: Clients, events: seq<Event>, n: nat, k: nat) {
    k < |events| && events[k].Call? && events[k].statement.RunSelect? && Issues(clients, events, n, events[k].statement, k)
  }

  /** Event j of the run is the compare-and-set of call m, and it takes the client. */
  ghost predicate WinsAt(clients: Clients, events: seq<Event>, m: nat, j: nat) {
    Issues(clients, events, m, RunCompareAndSet, j) && Wins(Before(clients, events, j).clients, Before(clients, events, j).claimers[m])
  }

  /** Event d of the run deactivates the very client that call n claims. */
  ghost predicate SweepsOwnAt(clients: Clients, events: seq<Event>, n: nat, d: nat) {
    Issues(clients, events, n, RunDeactivate, d)
    && Before(clients, events, d).claimers[n].pc.dups[0] == Before(clients, events, d).claimers[n].client
  }

  /**
   Call m of the same user for the same client wins after call n has read the row and before it
   selects; at that select the row is still active under the name read.
   */
  ghost predicate RivalWins(clients: Clients, events: seq<Event>, n: nat, m: nat, i: nat, j: nat, k: nat) {
    && i < j < k && m != n
    && Issues(clients, events, n, RunRead, i) && WinsAt(clients, events, m, j) && SelectsAt(clients, events, n, k)
    && var s := Before(clients, events, k);
       && n in s.claimers && m in s.claimers
       && s.claimers[m].client == s.claimers[n].client && s.claimers[m].user == s.claimers[n].user
       && s.claimers[n].client in s.clients
       && s.clients[s.claimers[n].client].active && s.clients[s.claimers[n].client].name == s.claimers[n].name
  }

  lemma RunOneMore(clients: Clients, events: seq<Event>, i: nat)
    requires i < |events|
    ensures Before(clients, events, i + 1) == Step(Before(clients, events, i), events[i])
  {
    assert events[..i + 1][..i] == events[..i];
  }

  /** A client on record as won was won by some event of the run; before it, it was not. */
  lemma {:induction false} WinHappened(clients: Clients, events: seq<Event>, client: string, k: nat) returns (j: nat)
    requires PublicUnowned(clients) && k <= |events| && client in Before(clients, events, k).winner
    ensures j < k && WinsAt(clients, events, Before(clients, events, k).winner[client], j)
    ensures client !in Before(clients, events, j).winner
  {
    RunOneMore(clients, events, k - 1);
    var s, e := Before(clients, events, k - 1), events[k - 1];
    if client in s.winner {
      RunKeepsInv(clients, events[..k - 1]);
      StepGrows(clients.Keys, s, e);
      j := WinHappened(clients, events, client, k - 1);
    } else {
      j := k - 1;
    }
  }

  predicate Listing(pc: Pc) {
    pc.ReadRow? || pc.SelectDuplicates?
  }

  /** What one event may do to a call: `c` before, `d` after, `e` the statement it issues if it is its turn. */
  ghost predicate Moves(s: State, c: Claimer, d: Claimer, st: Option<Statement>) {
    && d.client == c.client && c.swept <= d.swept
    && (!Listing(c.pc) ==> !Listing(d.pc) && d.listed == c.listed)
    && (d.client in d.swept ==>
          d.client in c.swept || (st == Some(RunDeactivate) && c.pc.Deactivate? && c.pc.dups != [] && c.pc.dups[0] == d.client))
    && (d.client in d.listed ==> d.client in c.listed || (st.Some? && st.value.RunSelect? && d.client in st.value.found))
    && (Past(d.pc) ==> Past(c.pc) || (st == Some(RunRead) && Wins(s.clients, d)))
  }

  lemma StatementMoves(s: State, n: nat, st: Statement)
    requires Enabled(s, Call(n, st))
    ensures Moves(s, s.claimers[n], CallApply(s, n, st).claimers[n], Some(st))
  {
    match st
    case RunRead =>
    case RunSelect(_) =>
    case RunDeactivate =>
    case RunCompareAndSet =>
    case RunReread =>
  }

  /** What one event does to call n. */
  lemma CallMoves(s: State, e: Event, n: nat)
    requires n in Step(s, e).claimers
    ensures n !in s.claimers ==> Step(s, e).claimers[n].pc.ReadRow? && Step(s, e).claimers[n].swept == {} == Step(s, e).claimers[n].listed
    ensures n in s.claimers ==>
              Moves(s, s.claimers[n], Step(s, e).claimers[n], if Enabled(s, e) && e.Call? && e.n == n then Some(e.statement) else None)
  {
    if Enabled(s, e) && e.Call? && e.n == n {
      StatementMoves(s, n, e.statement);
    }
  }

  lemma CallStays(s: State, e: Event, n: nat)
    requires n in s.claimers
    ensures n in Step(s, e).claimers
  {
  }

  /** The same, said of event k of a run. */
  lemma CallMovesAt(clients: Clients, events: seq<Event>, n: nat, k: nat)
    requires k < |events| && n in Before(clients, events, k + 1).claimers
    ensures var s, t := Before(clients, events, k), Before(clients, events, k + 1);
            var c := t.claimers[n];
            && (n in s.claimers ==>
                  && c.client == s.claimers[n].client && s.claimers[n].swept <= c.swept
                  && (!Listing(s.claimers[n].pc) ==> !Listing(c.pc) && c.listed == s.claimers[n].listed))
            && (c.client in c.swept ==>
                  n in s.claimers && (c.client in s.claimers[n].swept || SweepsOwnAt(clients, events, n, k)))
            && (c.client in c.listed ==>
                  n in s.claimers && (c.client in s.claimers[n].listed
                                      || (SelectsAt(clients, events, n, k) && c.client in events[k].statement.found)))
            && (Past(c.pc) ==>
                  n in s.claimers && (Past(s.claimers[n].pc)
                                      || (Issues(clients, events, n, RunRead, k) && Wins(s.clients, c))))
  {
    RunOneMore(clients, events, k);
    CallMoves(Before(clients, events, k), events[k], n);
  }

  /** Whoever wins it, a client without an owner has not been won before. */
  lemma UnownedIsUnwon(clients: Clients, events: seq<Event>, c: Claimer, k: nat)
    requires PublicUnowned(clients) && k <= |events| && Wins(Before(clients, events, k).clients, c)
    ensures c.client !in Before(clients, events, k).winner
  {
    RunKeepsInv(clients, events[..k]);
    assert RowFits(Before(clients, events, k), c.client);
    assert c.client in Before(clients, events, k).winner ==> WinnerFits(Before(clients, events, k), c.client);
  }

  /** A call that has read an unclaimed row read it at some event, when nobody had won the client. */
  lemma {:induction false} ReadHappened(clients: Clients, events: seq<Event>, n: nat, k: nat) returns (i: nat)
    requires PublicUnowned(clients) && k <= |events|
    requires n in Before(clients, events, k).claimers && Past(Before(clients, events, k).claimers[n].pc)
    ensures i < k && Issues(clients, events, n, RunRead, i)
    ensures Before(clients, events, k).claimers[n].client !in Before(clients, events, i).winner
  {
    if k == 0 {
      assert false;
    }
    CallMovesAt(clients, events, n, k - 1);
    var s := Before(clients, events, k - 1);
    if Past(s.claimers[n].pc) {
      i := ReadHappened(clients, events, n, k - 1);
    } else {
      i := k - 1;
      UnownedIsUnwon(clients, events, Before(clients, events, k).claimers[n], k - 1);
    }
  }

  /** What was on record stays on record. */
  lemma WinStays(clients: Clients, events: seq<Event>, client: string, i: nat, k: nat)
    requires PublicUnowned(clients) && i <= k <= |events| && client in Before(clients, events, i).winner
    ensures client in Before(clients, events, k).winner
    ensures Before(clients, events, k).winner[client] == Before(clients, events, i).winner[client]
  {
    RunGrows(clients, events[..k], i);
    assert events[..k][..i] == events[..i];
  }

  /** The select lists the call's own client only if a rival has won it since the read. */
  lemma OwnListedNeedsRival(clients: Clients, events: seq<Event>, n: nat, k: nat)
    requires PublicUnowned(clients) && SelectsAt(clients, events, n, k)
    requires Before(clients, events, k).claimers[n].client in events[k].statement.found
    ensures exists m, i, j :: RivalWins(clients, events, n, m, i, j, k)
  {
    var s := Before(clients, events, k);
    var c := s.claimers[n].client;
    RunKeepsInv(clients, events[..k]);
    assert RowFits(s, c) && ClaimerFits(clients.Keys, s, n);
    assert c in s.winner && WinnerFits(s, c);
    var j := WinHappened(clients, events, c, k);
    var i := ReadHappened(clients, events, n, k);
    WinnerOnRecord(clients, events, s.winner[c], j, k);
    if j < i {
      WinnerOnRecord(clients, events, s.winner[c], j, i);
    }
    assert RivalWins(clients, events, n, s.winner[c], i, j, k);
  }

  /** A winner stays the winner. */
  lemma WinnerOnRecord(clients: Clients, events: seq<Event>, m: nat, j: nat, k: nat)
    requires PublicUnowned(clients) && j < k <= |events| && WinsAt(clients, events, m, j)
    ensures var c := Before(clients, events, j).claimers[m].client;
            && m in Before(clients, events, k).claimers && Before(clients, events, k).claimers[m].client == c
            && c in Before(clients, events, k).winner && Before(clients, events, k).winner[c] == m
  {
    RunOneMore(clients, events, j);
    var c := Before(clients, events, j).claimers[m].client;
    WinStays(clients, events, c, j + 1, k);
    RunGrows(clients, events[..k], j);
    assert events[..k][..j] == events[..j];
  }

  lemma RivalListsOwn(clients: Clients, events: seq<Event>, n: nat, m: nat, i: nat, j: nat, k: nat)
    requires PublicUnowned(clients) && RivalWins(clients, events, n, m, i, j, k)
    ensures Before(clients, events, k).claimers[n].client in events[k].statement.found
  {
    var s := Before(clients, events, k);
    WinnerOnRecord(clients, events, m, j, k);
    RunKeepsInv(clients, events[..k]);
    WonIsOwned(clients.Keys, s, s.claimers[n].client);
  }

  // What a call has swept and listed, event by event.

  lemma {:induction false} SweptHappened(clients: Clients, events: seq<Event>, n: nat, k: nat) returns (d: nat)
    requires k <= |events| && n in Before(clients, events, k).claimers
    requires Before(clients, events, k).claimers[n].client in Before(clients, events, k).claimers[n].swept
    ensures d < k && SweepsOwnAt(clients, events, n, d)
  {
    if k == 0 {
      assert false;
    }
    CallMovesAt(clients, events, n, k - 1);
    if SweepsOwnAt(clients, events, n, k - 1) {
      d := k - 1;
    } else {
      d := SweptHappened(clients, events, n, k - 1);
    }
  }

  lemma {:induction false} ListedHappened(clients: Clients, events: seq<Event>, n: nat, k: nat) returns (l: nat)
    requires k <= |events| && n in Before(clients, events, k).claimers
    requires Before(clients, events, k).claimers[n].client in Before(clients, events, k).claimers[n].listed
    ensures l < k && SelectsAt(clients, events, n, l)
    ensures Before(clients, events, l).claimers[n].client in events[l].statement.found
  {
    if k == 0 {
      assert false;
    }
    CallMovesAt(clients, events, n, k - 1);
    if Before(clients, events, k - 1).claimers[n].client in Before(clients, events, k - 1).claimers[n].listed {
      l := ListedHappened(clients, events, n, k - 1);
    } else {
      l := k - 1;
    }
  }

  /** What is swept stays swept, and what a call has selected stays listed. */
  lemma {:induction false} SweepStays(clients: Clients, events: seq<Event>, n: nat, i: nat, k: nat)
    requires i <= k <= |events| && n in Before(clients, events, i).claimers
    ensures n in Before(clients, events, k).claimers
    ensures var c, d := Before(clients, events, i).claimers[n], Before(clients, events, k).claimers[n];
            && d.client == c.client && c.swept <= d.swept
            && (!Listing(c.pc) ==> !Listing(d.pc) && d.listed == c.listed)
    decreases k
  {
    if i < k {
      SweepStays(clients, events, n, i, k - 1);
      RunOneMore(clients, events, k - 1);
      CallStays(Before(clients, events, k - 1), events[k - 1], n);
      CallMovesAt(clients, events, n, k - 1);
    }
  }

  /** Its sweep is over: no deactivation is left. */
  predicate SweepOver(pc: Pc) {
    pc.CompareAndSet? || pc.Reread? || Finished(pc)
  }

  lemma SweepNeedsRival(clients: Clients, events: seq<Event>, n: nat, d: nat)
    requires PublicUnowned(clients) && SweepsOwnAt(clients, events, n, d)
    ensures exists m, i, j, k :: RivalWins(clients, events, n, m, i, j, k)
  {
    RunKeepsInv(clients, events[..d]);
    var c := Before(clients, events, d).claimers[n];
    assert SweepFits(c) && c.client in c.listed;
    var k := ListedHappened(clients, events, n, d);
    SweepStays(clients, events, n, k, d);
    OwnListedNeedsRival(clients, events, n, k);
  }

  lemma RivalForcesSweep(clients: Clients, events: seq<Event>, n: nat, m: nat, i: nat, j: nat, k: nat)
    requires PublicUnowned(clients) && RivalWins(clients, events, n, m, i, j, k)
    requires n in Before(clients, events, |events|).claimers && SweepOver(Before(clients, events, |events|).claimers[n].pc)
    ensures exists d :: SweepsOwnAt(clients, events, n, d)
  {
    RivalListsOwn(clients, events, n, m, i, j, k);
    SelectLists(clients, events, n, k);
    SweepStays(clients, events, n, k + 1, |events|);
    RunKeepsInv(clients, events[..|events|]);
    assert SweepFits(Before(clients, events, |events|).claimers[n]);
    var d := SweptHappened(clients, events, n, |events|);
    assert SweepsOwnAt(clients, events, n, d);
  }

  lemma SelectLists(clients: Clients, events: seq<Event>, n: nat, k: nat)
    requires SelectsAt(clients, events, n, k)
    ensures var c, d := Before(clients, events, k).claimers[n], Before(clients, events, k + 1).claimers;
            n in d && d[n].client == c.client && !Listing(d[n].pc) && forall x :: x in events[k].statement.found ==> x in d[n].listed
  {
    RunOneMore(clients, events, k);
  }

  /**
   A call deactivates the very client it claims if and only if another call of the same user for that
   client won between this call's read and its select, and the row was then still active under the
   name read.
   */
  lemma SweepsOwnClientIff(clients: Clients, events: seq<Event>, n: nat)
    requires PublicUnowned(clients)
    requires n in Run(Start(clients), events).claimers && SweepOver(Run(Start(clients), events).claimers[n].pc)
    ensures (exists d :: SweepsOwnAt(clients, events, n, d))
            <==> (exists m, i, j, k :: RivalWins(clients, events, n, m, i, j, k))
  {
    assert events[..|events|] == events;
    if d: nat :| SweepsOwnAt(clients, events, n, d) {
      SweepNeedsRival(clients, events, n, d);
    }
    if m: nat, i: nat, j: nat, k: nat :| RivalWins(clients, events, n, m, i, j, k) {
      RivalForcesSweep(clients, events, n, m, i, j, k);
    }
  }
}
