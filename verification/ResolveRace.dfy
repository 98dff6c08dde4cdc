/**
 `resolve_or_create_user` of src/gateway/jwt_auth.py under interleaving: any number of calls, each a
 sequence of single statements on the users table, with account creation, balance changes and
 activations by the rest of the server in between.
 */
module ResolveRace {
  import opened Prelude
  import opened Users
  import ResolveUser

  /** Where a call stands: the statement it issues next, or its outcome. */
  datatype Pc =
    | SelectSid
    | SelectEmail
    | UpdateLink(id: string, activate: bool)
    | Insert
    | RetrySid
    | Returned(id: string)
    | Raised

  datatype Call = Call(sid: string, email: string, pc: Pc)

  datatype State = State(users: UserTable, calls: map<nat, Call>)

  /** One statement, with the answer a select gives; or a change made elsewhere. */
  datatype Event =
    | Begin(call: nat, sid: string, email: string)
    | RunSelectSid(call: nat, found: Option<string>)
    | RunSelectEmail(call: nat, found: Option<string>)
    | RunUpdateLink(call: nat)
    | RunInsert(call: nat, newId: string, refused: bool)
    | RunRetrySid(call: nat, found: Option<string>)
    | SignUp(id: string, email: string, balance: real)
    | SetBalance(id: string, balance: real)
    | SetActive(id: string, active: bool)

  ghost predicate At(s: State, call: nat, pc: Pc) {
    call in s.calls && s.calls[call].pc == pc
  }

  function Goto(s: State, call: nat, pc: Pc): State
    requires call in s.calls
  {
    s.(calls := s.calls[call := s.calls[call].(pc := pc)])
  }

  /** The event can happen: the call is at that statement and the answer is one the table allows. */
  ghost predicate Enabled(s: State, e: Event) {
    match e
    case Begin(call, _, _) => call !in s.calls
    case RunSelectSid(call, found) => At(s, call, SelectSid) && AnswersBySid(s.users, s.calls[call].sid, found)
    case RunSelectEmail(call, found) => At(s, call, SelectEmail) && AnswersByEmail(s.users, s.calls[call].email, found)
    case RunUpdateLink(call) => call in s.calls && s.calls[call].pc.UpdateLink?
    case RunInsert(call, _, _) => At(s, call, Insert)
    case RunRetrySid(call, found) => At(s, call, RetrySid) && AnswersBySid(s.users, s.calls[call].sid, found)
    case SignUp(id, email, _) => id !in s.users && email != "" && forall o :: o in s.users ==> s.users[o].email != email
    case SetBalance(id, _) => id in s.users
    case SetActive(id, _) => id in s.users
  }

  /** What the call does with the row found under its email. */
  function Judge(row: UserRow, id: string, sid: string): Pc {
    if row.supabaseId.Some? && row.supabaseId != Some(sid) then Raised
    else if row.active then UpdateLink(id, false)
    else if row.balance > 0.0 then Raised
    else UpdateLink(id, true)
  }

  ghost function Apply(s: State, e: Event): State
    requires Enabled(s, e)
  {
    match e
    case Begin(call, sid, email) => s.(calls := s.calls[call := Call(sid, email, SelectSid)])
    case RunSelectSid(call, found) =>
      Goto(s, call, if found.Some? then Returned(found.value)
                    else if s.calls[call].email != "" then SelectEmail else Insert)
    case RunSelectEmail(call, found) =>
      Goto(s, call, if found.Some? then Judge(s.users[found.value], found.value, s.calls[call].sid) else Insert)
    case RunUpdateLink(call) =>
      var c := s.calls[call];
      if LinkViolates(s.users, c.pc.id, c.sid) then Goto(s, call, Raised)
      else Goto(s.(users := Link(s.users, c.pc.id, c.sid, c.pc.activate)), call, Returned(c.pc.id))
    case RunInsert(call, newId, refused) =>
      var c := s.calls[call];
      if refused || InsertViolates(s.users, newId, c.email, c.sid) then Goto(s, call, RetrySid)
      else Goto(s.(users := s.users[newId := NewRow(newId, c.email, c.sid)]), call, Returned(newId))
    case RunRetrySid(call, found) =>
      Goto(s, call, if found.Some? then Returned(found.value) else Raised)
    case SignUp(id, email, balance) =>
      s.(users := s.users[id := UserRow(email, None, false, balance, false)])
    case SetBalance(id, balance) => s.(users := s.users[id := s.users[id].(balance := balance)])
    case SetActive(id, active) => s.(users := s.users[id := s.users[id].(active := active)])
  }

  /** An event that cannot happen changes nothing. */
  ghost function Step(s: State, e: Event): State {
    if Enabled(s, e) then Apply(s, e) else s
  }

  ghost function Run(s: State, events: seq<Event>): State {
    if events == [] then s else Step(Run(s, events[..|events| - 1]), events[|events| - 1])
  }

  predicate Unfinished(pc: Pc) {
    !pc.Returned? && !pc.Raised?
  }

  /** A call begins only when no unfinished call of another id carries the same email. */
  ghost predicate NoOverlap(s: State, e: Event) {
    e.Begin? && e.email != "" ==>
      forall n :: n in s.calls && Unfinished(s.calls[n].pc) && s.calls[n].email == e.email ==> s.calls[n].sid == e.sid
  }

  /** No event of the run lets two ids use one email at the same time; one after the other they may. */
  ghost predicate Orderly(s: State, events: seq<Event>) {
    events != [] ==>
      var before := events[..|events| - 1];
      Orderly(s, before) && NoOverlap(Run(s, before), events[|events| - 1])
  }

  ghost predicate CallFits(s: State, c: Call) {
    && (c.pc.SelectEmail? ==> c.email != "")
    && (c.pc.UpdateLink? ==>
          && c.email != "" && c.pc.id in s.users && s.users[c.pc.id].email == c.email
          && (s.users[c.pc.id].supabaseId.Some? ==> s.users[c.pc.id].supabaseId == Some(c.sid)))
    && (c.pc.Returned? ==> LinkedTo(s.users, c.pc.id, c.sid))
  }

  /** Unfinished calls with one email are for one id. */
  ghost predicate Separate(s: State) {
    forall m, n ::
      && m in s.calls && n in s.calls && Unfinished(s.calls[m].pc) && Unfinished(s.calls[n].pc)
      && s.calls[m].email == s.calls[n].email != ""
      ==> s.calls[m].sid == s.calls[n].sid
  }

  ghost predicate Inv(s: State) {
    Constraints(s.users) && Separate(s) && forall n :: n in s.calls ==> CallFits(s, s.calls[n])
  }

  /** Rows stay, with their email; a link, once set, keeps its value. */
  ghost predicate LinksKept(before: UserTable, after: UserTable) {
    forall id :: id in before ==>
      id in after && after[id].email == before[id].email
      && (before[id].supabaseId.Some? ==> after[id].supabaseId == before[id].supabaseId)
  }

  ghost predicate BalancesKept(before: UserTable, after: UserTable) {
    forall id :: id in before ==> id in after && after[id].balance == before[id].balance
  }

  /** Only a link update or an insert changes the identity columns; neither violates an index. */
  lemma StepKeepsConstraints(s: State, e: Event)
    requires Constraints(s.users)
    ensures Constraints(Step(s, e).users)
    ensures !e.SetBalance? ==> BalancesKept(s.users, Step(s, e).users)
  {
    if Enabled(s, e) && e.RunUpdateLink? {
      var c := s.calls[e.call];
      if !LinkViolates(s.users, c.pc.id, c.sid) {
        LinkKeepsConstraints(s.users, c.pc.id, c.sid, c.pc.activate);
      }
    } else if Enabled(s, e) && e.RunInsert? {
      var c := s.calls[e.call];
      if !e.refused && !InsertViolates(s.users, e.newId, c.email, c.sid) {
        InsertKeepsConstraints(s.users, e.newId, c.email, c.sid);
      }
    }
  }

  lemma StepKeepsLinks(s: State, e: Event)
    requires forall n :: n in s.calls ==> CallFits(s, s.calls[n])
    ensures LinksKept(s.users, Step(s, e).users)
  {
    if Enabled(s, e) && e.RunUpdateLink? {
      assert CallFits(s, s.calls[e.call]);
    }
  }

  ghost predicate ActsOn(e: Event, n: nat) {
    !e.SignUp? && !e.SetBalance? && !e.SetActive? && e.call == n
  }

  /** Whoever else is about to write the link of the row that call n is about to write works for the same id. */
  ghost predicate NoRival(s: State, e: Event, n: nat)
    requires n in s.calls
  {
    e.RunUpdateLink? && Enabled(s, e) && s.calls[n].pc.UpdateLink? && s.calls[n].pc.id == s.calls[e.call].pc.id
    ==> s.calls[e.call].sid == s.calls[n].sid
  }

  lemma StepKeepsOtherCall(s: State, e: Event, n: nat)
    requires (forall m :: m in s.calls ==> CallFits(s, s.calls[m])) && n in s.calls && !ActsOn(e, n) && NoRival(s, e, n)
    ensures n in Step(s, e).calls && Step(s, e).calls[n] == s.calls[n] && CallFits(Step(s, e), Step(s, e).calls[n])
  {
    StepKeepsLinks(s, e);
    assert CallFits(s, s.calls[n]);
    if Enabled(s, e) && e.RunUpdateLink? {
      assert CallFits(s, s.calls[e.call]);
    }
  }

  lemma StepMovesCall(s: State, e: Event, n: nat)
    requires Enabled(s, e) && ActsOn(e, n) && (n in s.calls ==> CallFits(s, s.calls[n]))
    ensures n in Step(s, e).calls && CallFits(Step(s, e), Step(s, e).calls[n])
  {
  }

  lemma SeparateHasNoRival(s: State, e: Event, n: nat)
    requires Inv(s) && n in s.calls
    ensures NoRival(s, e, n)
  {
    assert CallFits(s, s.calls[n]);
    if e.RunUpdateLink? && Enabled(s, e) {
      assert CallFits(s, s.calls[e.call]);
    }
  }

  lemma StepKeepsSeparate(s: State, e: Event)
    requires Separate(s) && NoOverlap(s, e)
    ensures Separate(Step(s, e))
  {
  }

  lemma StepKeepsInv(s: State, e: Event)
    requires Inv(s) && NoOverlap(s, e)
    ensures Inv(Step(s, e)) && LinksKept(s.users, Step(s, e).users)
  {
    StepKeepsConstraints(s, e);
    StepKeepsLinks(s, e);
    StepKeepsSeparate(s, e);
    if Enabled(s, e) {
      forall n | n in Step(s, e).calls ensures CallFits(Step(s, e), Step(s, e).calls[n]) {
        if ActsOn(e, n) {
          StepMovesCall(s, e, n);
        } else {
          SeparateHasNoRival(s, e, n);
          StepKeepsOtherCall(s, e, n);
        }
      }
    }
  }

  /** In every orderly run links are written once, rows stay, and no two rows share an id or an email. */
  lemma {:induction false} RunKeepsInv(users: UserTable, events: seq<Event>)
    requires Constraints(users) && Orderly(State(users, map[]), events)
    ensures Inv(Run(State(users, map[]), events))
    ensures LinksKept(users, Run(State(users, map[]), events).users)
  {
    if events != [] {
      RunKeepsInv(users, events[..|events| - 1]);
      StepKeepsInv(Run(State(users, map[]), events[..|events| - 1]), events[|events| - 1]);
    }
  }

  /**
   Any number of interleaved calls agree: two calls for one Supabase id that return normally return
   the same user, and that user's row carries the id, at the end and ever after.
   */
  lemma InterleavedCallsAgree(users: UserTable, events: seq<Event>, a: nat, b: nat)
    requires Constraints(users) && Orderly(State(users, map[]), events)
    requires var t := Run(State(users, map[]), events);
             && a in t.calls && b in t.calls && t.calls[a].sid == t.calls[b].sid
             && t.calls[a].pc.Returned? && t.calls[b].pc.Returned?
    ensures var t := Run(State(users, map[]), events);
            t.calls[a].pc.id == t.calls[b].pc.id && LinkedTo(t.users, t.calls[a].pc.id, t.calls[a].sid)
  {
    var t := Run(State(users, map[]), events);
    RunKeepsInv(users, events);
    assert CallFits(t, t.calls[a]) && CallFits(t, t.calls[b]);
  }

  predicate OnlyFor(events: seq<Event>, sid: string) {
    events != [] ==>
      OnlyFor(events[..|events| - 1], sid) && (events[|events| - 1].Begin? ==> events[|events| - 1].sid == sid)
  }

  /** Calls for one Supabase id overlap with no other, whatever their emails. */
  lemma {:induction false} OneIdentityIsOrderly(s: State, events: seq<Event>, sid: string)
    requires OnlyFor(events, sid) && s.calls == map[]
    ensures Orderly(s, events) && forall n :: n in Run(s, events).calls ==> Run(s, events).calls[n].sid == sid
  {
    if events != [] {
      OneIdentityIsOrderly(s, events[..|events| - 1], sid);
    }
  }

  /** All calls for one Supabase id agree, whatever their emails and however they interleave. */
  lemma OneIdentityOneUser(users: UserTable, events: seq<Event>, sid: string, a: nat, b: nat)
    requires Constraints(users) && OnlyFor(events, sid)
    requires var t := Run(State(users, map[]), events);
             && a in t.calls && b in t.calls && t.calls[a].sid == t.calls[b].sid
             && t.calls[a].pc.Returned? && t.calls[b].pc.Returned?
    ensures var t := Run(State(users, map[]), events); t.calls[a].pc.id == t.calls[b].pc.id
  {
    OneIdentityIsOrderly(State(users, map[]), events, sid);
    InterleavedCallsAgree(users, events, a, b);
  }

  // ---------------------------------------------------------------------------------------------
  // A call that runs undisturbed
  // ---------------------------------------------------------------------------------------------

  lemma RunNext(s: State, events: seq<Event>, e: Event)
    ensures Run(s, events + [e]) == Step(Run(s, events), e)
  {
    assert (events + [e])[..|events + [e]| - 1] == events;
  }

  /** The selects of one call, answered by the table as it stands. */
  ghost function CallSelects(users: UserTable, call: nat, sid: string, email: string): seq<Event> {
    [Begin(call, sid, email)] + [RunSelectSid(call, ResolveUser.FindBySid(users, sid))]
    + [RunSelectEmail(call, ResolveUser.FindByEmail(users, email))]
  }

  ghost function CallEvents(users: UserTable, call: nat, sid: string, email: string, newId: string): seq<Event> {
    CallSelects(users, call, sid, email) + [RunUpdateLink(call)] + [RunInsert(call, newId, false)]
    + [RunRetrySid(call, ResolveUser.FindBySid(users, sid))]
  }

  /** Where the call stands after its selects. */
  ghost function Selected(users: UserTable, sid: string, email: string): Pc {
    if ResolveUser.FindBySid(users, sid).Some? then Returned(ResolveUser.FindBySid(users, sid).value)
    else if email != "" && ResolveUser.FindByEmail(users, email).Some? then
      var id := ResolveUser.FindByEmail(users, email).value;
      Judge(users[id], id, sid)
    else Insert
  }

  lemma UndisturbedSelects(s: State, call: nat, sid: string, email: string)
    requires call !in s.calls
    ensures var t := Run(s, CallSelects(s.users, call, sid, email));
            t.users == s.users && call in t.calls && t.calls[call] == Call(sid, email, Selected(s.users, sid, email))
  {
    var begun := [Begin(call, sid, email)];
    var first := RunSelectSid(call, ResolveUser.FindBySid(s.users, sid));
    assert Run(s, begun) == Step(Run(s, begun[..0]), begun[0]);
    RunNext(s, begun, first);
    RunNext(s, begun + [first], RunSelectEmail(call, ResolveUser.FindByEmail(s.users, email)));
  }

  /** Without interleaving the statements of a call do what the call does as a whole. */
  lemma UndisturbedCall(s: State, call: nat, sid: string, email: string, newId: string)
    requires Constraints(s.users) && call !in s.calls
    ensures var t := Run(s, CallEvents(s.users, call, sid, email, newId));
            var (users, who) := ResolveUser.Resolve(s.users, sid, email, newId);
            t.users == users && call in t.calls && t.calls[call].pc == if who.Ok? then Returned(who.value) else Raised
  {
    var selects := CallSelects(s.users, call, sid, email);
    var retry := RunRetrySid(call, ResolveUser.FindBySid(s.users, sid));
    UndisturbedSelects(s, call, sid, email);
    RunNext(s, selects, RunUpdateLink(call));
    RunNext(s, selects + [RunUpdateLink(call)], RunInsert(call, newId, false));
    RunNext(s, selects + [RunUpdateLink(call)] + [RunInsert(call, newId, false)], retry);
    UndisturbedWrites(Run(s, selects), call, newId, retry);
  }

  lemma UndisturbedWrites(s: State, call: nat, newId: string, retry: Event)
    requires Constraints(s.users) && call in s.calls
    requires s.calls[call].pc == Selected(s.users, s.calls[call].sid, s.calls[call].email)
    requires retry == RunRetrySid(call, ResolveUser.FindBySid(s.users, s.calls[call].sid))
    ensures var t := Step(Step(Step(s, RunUpdateLink(call)), RunInsert(call, newId, false)), retry);
            var (users, who) := ResolveUser.Resolve(s.users, s.calls[call].sid, s.calls[call].email, newId);
            t.users == users && call in t.calls && t.calls[call].pc == if who.Ok? then Returned(who.value) else Raised
  {
  }

  // ---------------------------------------------------------------------------------------------
  // Branches only an interleaved call takes
  // ---------------------------------------------------------------------------------------------

  /** The row found under the email: another id's, or an inactive one with credit, stops the call; its own or an unlinked one is linked. */
  lemma EmailRowDecides(s: State, call: nat, id: string)
    requires At(s, call, SelectEmail) && AnswersByEmail(s.users, s.calls[call].email, Some(id))
    ensures var c, t := s.calls[call], Step(s, RunSelectEmail(call, Some(id)));
            var row := s.users[id];
            && t.users == s.users && call in t.calls
            && (row.supabaseId.Some? && row.supabaseId != Some(c.sid) ==> t.calls[call].pc == Raised)
            && (row.supabaseId.None? || row.supabaseId == Some(c.sid) ==>
                  t.calls[call].pc == if row.active then UpdateLink(id, false)
                                      else if row.balance > 0.0 then Raised
                                      else UpdateLink(id, true))
  {
  }

  /** A link is written over whatever the row holds by then, unless another row has the id. */
  lemma LinkIsUnconditional(s: State, call: nat, id: string, activate: bool)
    requires At(s, call, UpdateLink(id, activate)) && id in s.users
    ensures var c, t := s.calls[call], Step(s, RunUpdateLink(call));
            call in t.calls
            && if exists other :: other in s.users && other != id && s.users[other].supabaseId == Some(c.sid) then
                 t.users == s.users && t.calls[call].pc == Raised
               else
                 && t.calls[call].pc == Returned(id) && t.users.Keys == s.users.Keys
                 && (forall u :: u in s.users && u != id ==> t.users[u] == s.users[u])
                 && t.users[id] == s.users[id].(supabaseId := Some(c.sid), active := s.users[id].active || activate)
  {
  }

  /** A call whose insert is refused returns the user another call has linked to its id meanwhile, and raises without one. */
  lemma LostInsertReturnsWinner(s: State, call: nat, newId: string, found: Option<string>)
    requires At(s, call, Insert) && AnswersBySid(s.users, s.calls[call].sid, found)
    ensures var t := Step(Step(s, RunInsert(call, newId, true)), RunRetrySid(call, found));
            && t.users == s.users && call in t.calls
            && t.calls[call].pc == match found case Some(id) => Returned(id) case None => Raised
  {
  }

  /** An insert that collides with an id, an email or a linked id goes the same way. */
  lemma InsertCollides(s: State, call: nat, newId: string)
    requires At(s, call, Insert)
    ensures var c, t := s.calls[call], Step(s, RunInsert(call, newId, false));
            var address := if c.email != "" then c.email else newId + "@scholar.dsmoz.local";
            call in t.calls
            && if newId in s.users || exists u :: u in s.users && (s.users[u].email == address || s.users[u].supabaseId == Some(c.sid))
               then t.users == s.users && t.calls[call].pc == RetrySid
               else
                 && t.calls[call].pc == Returned(newId)
                 && t.users == s.users[newId := UserRow(address, Some(c.sid), true, 0.0, false)]
  {
  }

  /** Accounts are created under a free email, and balances and activations change, whatever the calls are at; calls begin at any time. */
  lemma OthersMove(s: State, call: nat, id: string, sid: string, email: string, balance: real, active: bool)
    ensures id !in s.users && email != "" && (forall o :: o in s.users ==> s.users[o].email != email) ==>
              Step(s, SignUp(id, email, balance)) == s.(users := s.users[id := UserRow(email, None, false, balance, false)])
    ensures id in s.users ==>
              && Step(s, SetBalance(id, balance)) == s.(users := s.users[id := s.users[id].(balance := balance)])
              && Step(s, SetActive(id, active)) == s.(users := s.users[id := s.users[id].(active := active)])
    ensures call !in s.calls ==> Step(s, Begin(call, sid, email)) == s.(calls := s.calls[call := Call(sid, email, SelectSid)])
  {
  }
}
