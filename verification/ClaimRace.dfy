/**
 `claim_unclaimed_client` of src/oauth/provider.py under interleaving: any number of claimers, each a
 sequence of single statements, with registrations, renames, deactivations and deletions of clients by
 the other routes in between.
 */
module ClaimRace {
  import opened Prelude
  import opened OAuthTables
  import opened ClaimClient

  datatype Pc =
    | ReadRow
    | SelectDuplicates
    | Deactivate(dups: seq<string>)
    | CompareAndSet
    | Reread
    | Claimed                        // returned True
    | AlreadyMine                    // returned False
    | Failed(error: ClaimError)

  /** One call; `name` is the client's name as read, `listed` and `swept` record what it selected and deactivated. */
  datatype Claimer = Claimer(client: string, user: string, name: string, pc: Pc, listed: set<string>, swept: set<string>)

  datatype State = State(
    clients: Clients,
    claimers: map<nat, Claimer>,
    born: Clients,                   // history: every client's row as it was inserted
    winner: map<string, nat>         // history: whose compare-and-set took the client
  )

  datatype Statement =
    | RunRead
    | RunSelect(found: seq<string>)
    | RunDeactivate
    | RunCompareAndSet
    | RunReread

  datatype Event =
    | Begin(n: nat, client: string, user: string)
    | Call(n: nat, statement: Statement)
    | Register(client: string, row: ClientRow)
    | Rename(client: string, name: string)
    | Disable(client: string)
    | Remove(client: string)

  ghost predicate CallEnabled(s: State, c: Claimer, st: Statement) {
    match st
    case RunRead => c.pc.ReadRow?
    case RunSelect(found) =>
      c.pc.SelectDuplicates? && forall d :: d in found <==> d in s.clients && Duplicate(s.clients[d], c.user, c.name)
    case RunDeactivate => c.pc.Deactivate? && c.pc.dups != []
    case RunCompareAndSet => c.pc.CompareAndSet?
    case RunReread => c.pc.Reread?
  }

  /** Client ids are generated, so an inserted one is new; a public client is inserted without an owner. */
  ghost predicate Enabled(s: State, e: Event) {
    match e
    case Begin(n, _, _) => n !in s.claimers
    case Call(n, st) => n in s.claimers && CallEnabled(s, s.claimers[n], st)
    case Register(client, row) => client !in s.born && (row.isPublic ==> row.owner.None?)
    case Rename(client, _) => client in s.clients
    case Disable(client) => client in s.clients
    case Remove(_) => true
  }

  function Inactive(clients: Clients, client: string): Clients {
    if client in clients then clients[client := clients[client].(active := false)] else clients
  }

  /** Where the call goes after its read. */
  function AfterRead(clients: Clients, c: Claimer): Claimer {
    if c.client !in clients then c.(pc := Failed(ClientNotFound))
    else
      var row := clients[c.client];
      if row.isPublic then c.(pc := Failed(PublicClient))
      else if row.owner == Some(c.user) then c.(pc := AlreadyMine)
      else if row.owner.Some? then c.(pc := Failed(ClaimedByOther))
      else c.(name := row.name, pc := if row.name != "" then SelectDuplicates else CompareAndSet)
  }

  function Wins(clients: Clients, c: Claimer): bool {
    c.client in clients && clients[c.client].owner.None?
  }

  ghost function CallApply(s: State, n: nat, st: Statement): State
    requires n in s.claimers && CallEnabled(s, s.claimers[n], st)
  {
    var c := s.claimers[n];
    match st
    case RunRead => s.(claimers := s.claimers[n := AfterRead(s.clients, c)])
    case RunSelect(found) =>
      s.(claimers := s.claimers[n := c.(pc := if found == [] then CompareAndSet else Deactivate(found),
                                        listed := set d | d in found)])
    case RunDeactivate =>
      s.(claimers := s.claimers[n := c.(pc := if |c.pc.dups| == 1 then CompareAndSet else Deactivate(c.pc.dups[1..]),
                                        swept := c.swept + {c.pc.dups[0]})],
         clients := Inactive(s.clients, c.pc.dups[0]))
    case RunCompareAndSet =>
      if Wins(s.clients, c) then
        s.(claimers := s.claimers[n := c.(pc := Claimed)],
           clients := s.clients[c.client := s.clients[c.client].(owner := Some(c.user))],
           winner := s.winner[c.client := n])
      else s.(claimers := s.claimers[n := c.(pc := Reread)])
    case RunReread =>
      s.(claimers := s.claimers[n := c.(
        pc := if c.client in s.clients && s.clients[c.client].owner == Some(c.user) then AlreadyMine else Failed(ClaimedByOther))])
  }

  ghost function Apply(s: State, e: Event): State
    requires Enabled(s, e)
  {
    match e
    case Begin(n, client, user) => s.(claimers := s.claimers[n := Claimer(client, user, "", ReadRow, {}, {})])
    case Call(n, st) => CallApply(s, n, st)
    case Register(client, row) => s.(clients := s.clients[client := row], born := s.born[client := row])
    case Rename(client, name) => s.(clients := s.clients[client := s.clients[client].(name := name)])
    case Disable(client) => s.(clients := Inactive(s.clients, client))
    case Remove(client) => s.(clients := s.clients - {client})
  }

  ghost function Step(s: State, e: Event): State {
    if Enabled(s, e) then Apply(s, e) else s
  }

  ghost function Run(s: State, events: seq<Event>): State {
    if events == [] then s else Step(Run(s, events[..|events| - 1]), events[|events| - 1])
  }

  ghost predicate PublicUnowned(clients: Clients) {
    forall c :: c in clients && clients[c].isPublic ==> clients[c].owner.None?
  }

  function Start(clients: Clients): State {
    State(clients, map[], clients, map[])
  }

  // ---------------------------------------------------------------------------------------------
  // The invariant
  // ---------------------------------------------------------------------------------------------

  /** The owner a client must have: the one it was inserted with, else the winner's user. */
  function OwnerOf(s: State, client: string): Option<string>
    requires client in s.born
  {
    if s.born[client].owner.Some? then s.born[client].owner
    else if client in s.winner && s.winner[client] in s.claimers then Some(s.claimers[s.winner[client]].user)
    else None
  }

  ghost predicate RowFits(s: State, client: string)
    requires client in s.clients
  {
    && client in s.born && s.clients[client].isPublic == s.born[client].isPublic
    && s.clients[client].owner == OwnerOf(s, client)
  }

  ghost predicate WinnerFits(s: State, client: string)
    requires client in s.winner
  {
    var n := s.winner[client];
    && client in s.born && s.born[client].owner.None? && !s.born[client].isPublic
    && n in s.claimers && s.claimers[n].client == client && s.claimers[n].pc.Claimed?
  }

  /** Past its read and not finished. */
  predicate Past(pc: Pc) {
    pc.SelectDuplicates? || pc.Deactivate? || pc.CompareAndSet? || pc.Reread?
  }

  predicate Finished(pc: Pc) {
    pc.Claimed? || pc.AlreadyMine? || pc.Failed?
  }

  /** `ids` are the clients the run starts with. */
  ghost predicate ClaimerFits(ids: set<string>, s: State, n: nat)
    requires n in s.claimers
  {
    var c := s.claimers[n];
    && (Past(c.pc) ==> c.client in s.born && s.born[c.client].owner.None? && !s.born[c.client].isPublic)
    && (c.pc.Reread? ==> c.client !in s.clients || c.client in s.winner)
    && (c.pc.Claimed? ==> c.client in s.winner && s.winner[c.client] == n)
    && (c.pc.AlreadyMine? ==> c.client in s.born && OwnerOf(s, c.client) == Some(c.user))
    && (c.pc == Failed(ClientNotFound) ==> c.client !in ids || c.client !in s.clients)
    && (c.pc == Failed(PublicClient) ==> c.client in s.born && s.born[c.client].isPublic)
    && (c.pc == Failed(ClaimedByOther) ==>
          c.client in s.born
          && (c.client !in s.clients || (OwnerOf(s, c.client).Some? && OwnerOf(s, c.client) != Some(c.user))))
  }

  /** What a call has left to deactivate and what it has deactivated make up what it selected. */
  ghost predicate SweepFits(c: Claimer) {
    if c.pc.Deactivate? then c.pc.dups != [] && c.listed == c.swept + (set d | d in c.pc.dups)
    else c.listed == c.swept && (c.pc.ReadRow? || c.pc.SelectDuplicates? ==> c.swept == {})
  }

  ghost predicate Inv(ids: set<string>, s: State) {
    && PublicUnowned(s.born)
    && ids <= s.born.Keys
    && (forall c :: c in s.clients ==> RowFits(s, c))
    && (forall c :: c in s.winner ==> WinnerFits(s, c))
    && (forall n :: n in s.claimers ==> ClaimerFits(ids, s, n) && SweepFits(s.claimers[n]))
  }

  ghost predicate ClaimersGo(before: map<nat, Claimer>, after: map<nat, Claimer>) {
    forall n :: n in before ==>
      && n in after && after[n].client == before[n].client && after[n].user == before[n].user
      && (Finished(before[n].pc) ==> after[n] == before[n])
  }

  ghost predicate Extends<V(!new)>(before: map<string, V>, after: map<string, V>) {
    forall c :: c in before ==> c in after && after[c] == before[c]
  }

  /** Who wins stays, who has finished stays finished, and a removed client does not come back. */
  ghost predicate Grows(s: State, t: State) {
    && Extends(s.born, t.born) && Extends(s.winner, t.winner) && ClaimersGo(s.claimers, t.claimers)
    && forall c :: c in t.clients ==> c in s.clients || c !in s.born
  }

  lemma WonIsOwned(ids: set<string>, s: State, client: string)
    requires Inv(ids, s) && client in s.clients && client in s.winner
    ensures s.clients[client].owner == Some(s.claimers[s.winner[client]].user)
    ensures s.born[client].owner.None?
  {
    assert RowFits(s, client) && WinnerFits(s, client);
  }

  lemma CallGrows(s: State, n: nat, st: Statement)
    requires n in s.claimers && CallEnabled(s, s.claimers[n], st)
    requires var c := s.claimers[n].client; c in s.clients && c in s.winner ==> s.clients[c].owner.Some?
    ensures Grows(s, CallApply(s, n, st))
  {
  }

  lemma StepGrows(ids: set<string>, s: State, e: Event)
    requires Inv(ids, s)
    ensures Grows(s, Step(s, e))
  {
    if Enabled(s, e) && e.Call? {
      var c := s.claimers[e.n].client;
      if c in s.clients && c in s.winner {
        WonIsOwned(ids, s, c);
      }
      CallGrows(s, e.n, e.statement);
    }
  }

  lemma CallKeepsRow(ids: set<string>, s: State, n: nat, st: Statement, client: string)
    requires Inv(ids, s) && Enabled(s, Call(n, st)) && Grows(s, CallApply(s, n, st)) && client in s.clients
    ensures RowFits(CallApply(s, n, st), client)
  {
    assert RowFits(s, client);
    if client in s.winner {
      assert WinnerFits(s, client);
    }
  }

  lemma OtherKeepsRow(ids: set<string>, s: State, e: Event, client: string)
    requires Inv(ids, s) && Enabled(s, e) && !e.Call? && client in Step(s, e).clients && Grows(s, Step(s, e))
    ensures RowFits(Step(s, e), client)
  {
    if client in s.clients {
      assert RowFits(s, client);
    }
    if client in s.winner {
      assert WinnerFits(s, client);
    }
  }

  lemma StepKeepsRow(ids: set<string>, s: State, e: Event, client: string)
    requires Inv(ids, s) && Enabled(s, e) && client in Step(s, e).clients && Grows(s, Step(s, e))
    ensures RowFits(Step(s, e), client)
  {
    if e.Call? {
      CallKeepsRow(ids, s, e.n, e.statement, client);
    } else {
      OtherKeepsRow(ids, s, e, client);
    }
  }

  lemma StepKeepsWinner(ids: set<string>, s: State, e: Event, client: string)
    requires Inv(ids, s) && Enabled(s, e) && client in Step(s, e).winner && Grows(s, Step(s, e))
    ensures WinnerFits(Step(s, e), client)
  {
    if client in s.winner {
      assert WinnerFits(s, client);
    } else {
      assert ClaimerFits(ids, s, e.n);
    }
  }

  /** A claimer that rests: owners on record stay, and a removed client does not come back. */
  lemma RestingClaimerFits(ids: set<string>, s: State, t: State, n: nat)
    requires Grows(s, t) && ids <= s.born.Keys && n in s.claimers && t.claimers[n] == s.claimers[n] && ClaimerFits(ids, s, n)
    requires forall c :: c in s.winner ==> WinnerFits(s, c)
    requires forall c :: c in t.winner ==> WinnerFits(t, c)
    ensures ClaimerFits(ids, t, n)
  {
    var c := s.claimers[n].client;
    if c in s.winner {
      assert WinnerFits(s, c);
    }
  }

  lemma StepMovesSweep(s: State, n: nat, st: Statement)
    requires Enabled(s, Call(n, st)) && SweepFits(s.claimers[n])
    ensures SweepFits(CallApply(s, n, st).claimers[n])
  {
    var c := s.claimers[n];
    if st.RunDeactivate? {
      assert c.pc.dups == [c.pc.dups[0]] + c.pc.dups[1..];
    }
  }

  lemma StepMovesClaimer(ids: set<string>, s: State, n: nat, st: Statement)
    requires Enabled(s, Call(n, st)) && Grows(s, CallApply(s, n, st))
    requires ids <= s.born.Keys && ClaimerFits(ids, s, n)
    requires var c := s.claimers[n].client; c in s.clients ==> RowFits(s, c)
    requires var c := s.claimers[n].client; c in s.winner ==> WinnerFits(s, c)
    ensures ClaimerFits(ids, CallApply(s, n, st), n)
  {
    match st
    case RunRead =>
    case RunSelect(_) =>
    case RunDeactivate =>
    case RunCompareAndSet =>
    case RunReread =>
  }

  lemma StepKeepsInv(ids: set<string>, s: State, e: Event)
    requires Inv(ids, s)
    ensures Inv(ids, Step(s, e))
  {
    if Enabled(s, e) {
      var t := Step(s, e);
      StepGrows(ids, s, e);
      forall c | c in t.clients ensures RowFits(t, c) { StepKeepsRow(ids, s, e, c); }
      forall c | c in t.winner ensures WinnerFits(t, c) { StepKeepsWinner(ids, s, e, c); }
      forall n | n in t.claimers ensures ClaimerFits(ids, t, n) && SweepFits(t.claimers[n]) {
        if e.Call? && e.n == n {
          StepMovesClaimer(ids, s, n, e.statement);
          StepMovesSweep(s, n, e.statement);
        } else if n in s.claimers {
          RestingClaimerFits(ids, s, t, n);
        }
      }
    }
  }

  lemma {:induction false} RunKeepsInv(clients: Clients, events: seq<Event>)
    requires PublicUnowned(clients)
    ensures Inv(clients.Keys, Run(Start(clients), events))
  {
    if events != [] {
      RunKeepsInv(clients, events[..|events| - 1]);
      StepKeepsInv(clients.Keys, Run(Start(clients), events[..|events| - 1]), events[|events| - 1]);
    }
  }

  // ---------------------------------------------------------------------------------------------
  // What happens around the calls
  // ---------------------------------------------------------------------------------------------

  /** Clients are registered, renamed, deactivated and deleted whatever the calls are at, and calls begin for any client. */
  lemma OthersMove(s: State, n: nat, client: string, user: string, name: string, row: ClientRow)
    ensures client !in s.born && (row.isPublic ==> row.owner.None?) ==>
              Step(s, Register(client, row)) == s.(clients := s.clients[client := row], born := s.born[client := row])
    ensures client in s.clients ==>
              && Step(s, Rename(client, name)) == s.(clients := s.clients[client := s.clients[client].(name := name)])
              && Step(s, Disable(client)) == s.(clients := s.clients[client := s.clients[client].(active := false)])
    ensures Step(s, Remove(client)) == s.(clients := s.clients - {client})
    ensures n !in s.claimers ==>
              Step(s, Begin(n, client, user)) == s.(claimers := s.claimers[n := Claimer(client, user, "", ReadRow, {}, {})])
  {
  }
}
