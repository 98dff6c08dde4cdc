/**
 Two overlapping calls of `resolve_or_create_user` in ResolveRace: exactly which pairs can end with a
 link overwritten.
 */
module ResolvePair {
  import opened Prelude
  import opened Users
  import opened ResolveRace

  /** A call for an id with an email. */
  datatype Who = Who(sid: string, email: string)

  /** The event belongs to call 1 or call 2 of the pair. */
  predicate OfPair(e: Event, one: Who, two: Who) {
    match e
    case Begin(call, sid, email) => (call == 1 && Who(sid, email) == one) || (call == 2 && Who(sid, email) == two)
    case SignUp(_, _, _) => false
    case SetBalance(_, _) => false
    case SetActive(_, _) => false
    case _ => e.call == 1 || e.call == 2
  }

  predicate PairRun(events: seq<Event>, one: Who, two: Who) {
    events != [] ==> PairRun(events[..|events| - 1], one, two) && OfPair(events[|events| - 1], one, two)
  }

  /** A call has returned a user who does not carry its id any more. */
  ghost predicate LinkLost(s: State) {
    exists n :: n in s.calls && s.calls[n].pc.Returned? && !LinkedTo(s.users, s.calls[n].pc.id, s.calls[n].sid)
  }

  predicate Linked(users: UserTable, sid: string) {
    exists id :: id in users && users[id].supabaseId == Some(sid)
  }

  /** A row both calls would link: unlinked, and active or without credit. */
  predicate Open(row: UserRow) {
    row.supabaseId.None? && (row.active || row.balance <= 0.0)
  }

  predicate OpenRow(users: UserTable, email: string) {
    exists id :: id in users && users[id].email == email && Open(users[id])
  }

  /** Two ids, both unlinked, with one email that names an open row. */
  predicate Contestable(users: UserTable, one: Who, two: Who) {
    && one.sid != two.sid && one.email == two.email != ""
    && !Linked(users, one.sid) && !Linked(users, two.sid) && OpenRow(users, one.email)
  }

  // ---------------------------------------------------------------------------------------------
  // A contestable pair can lose a link
  // ---------------------------------------------------------------------------------------------

  /** Both calls read the open row, and both link it. */
  function SharedEmailRace(one: Who, two: Who, row: string): seq<Event> {
    [Begin(1, one.sid, one.email), Begin(2, two.sid, two.email),
     RunSelectSid(1, None), RunSelectSid(2, None),
     RunSelectEmail(1, Some(row)), RunSelectEmail(2, Some(row)),
     RunUpdateLink(1), RunUpdateLink(2)]
  }

  function Both(users: UserTable, one: Who, two: Who, pc: Pc): State {
    State(users, map[1 := Call(one.sid, one.email, pc), 2 := Call(two.sid, two.email, pc)])
  }

  lemma RunTwo(s: State, events: seq<Event>, i: nat)
    requires i + 2 <= |events|
    ensures Run(s, events[..i + 2]) == Step(Step(Run(s, events[..i]), events[i]), events[i + 1])
  {
    assert events[..i + 2][..i + 1] == events[..i + 1];
    assert events[..i + 1][..i] == events[..i];
  }

  lemma RaceBegins(users: UserTable, one: Who, two: Who, row: string)
    ensures Run(State(users, map[]), SharedEmailRace(one, two, row)[..2]) == Both(users, one, two, SelectSid)
  {
    var s, e := State(users, map[]), SharedEmailRace(one, two, row);
    assert Run(s, e[..0]) == s;
    RunTwo(s, e, 0);
  }

  lemma RaceSelects(users: UserTable, one: Who, two: Who, row: string)
    requires Contestable(users, one, two)
    ensures Run(State(users, map[]), SharedEmailRace(one, two, row)[..4]) == Both(users, one, two, SelectEmail)
  {
    RaceBegins(users, one, two, row);
    RunTwo(State(users, map[]), SharedEmailRace(one, two, row), 2);
  }

  lemma RaceReadsRow(users: UserTable, one: Who, two: Who, row: string)
    requires Contestable(users, one, two) && row in users && users[row].email == one.email && Open(users[row])
    ensures Run(State(users, map[]), SharedEmailRace(one, two, row)[..6]) == Both(users, one, two, UpdateLink(row, !users[row].active))
  {
    RaceSelects(users, one, two, row);
    RunTwo(State(users, map[]), SharedEmailRace(one, two, row), 4);
  }

  /** The first caller's user ends up linked to the second id. */
  lemma SharedEmailOverwritesLink(users: UserTable, one: Who, two: Who, row: string)
    requires Contestable(users, one, two) && row in users && users[row].email == one.email && Open(users[row])
    ensures var t := Run(State(users, map[]), SharedEmailRace(one, two, row));
            && t.calls == map[1 := Call(one.sid, one.email, Returned(row)), 2 := Call(two.sid, two.email, Returned(row))]
            && !LinkedTo(t.users, row, one.sid) && LinkedTo(t.users, row, two.sid)
  {
    var e := SharedEmailRace(one, two, row);
    RaceReadsRow(users, one, two, row);
    RunTwo(State(users, map[]), e, 6);
    assert e[..8] == e;
  }

  lemma RaceIsPairRun(one: Who, two: Who, row: string)
    ensures PairRun(SharedEmailRace(one, two, row), one, two)
  {
    var e := SharedEmailRace(one, two, row);
    PrefixOfPair(e, one, two, 8);
    assert e[..8] == e;
  }

  lemma {:induction false} PrefixOfPair(events: seq<Event>, one: Who, two: Who, k: nat)
    requires k <= |events| && forall i :: 0 <= i < |events| ==> OfPair(events[i], one, two)
    ensures PairRun(events[..k], one, two)
  {
    if k > 0 {
      PrefixOfPair(events, one, two, k - 1);
      assert events[..k][..k - 1] == events[..k - 1];
    }
  }

  // ---------------------------------------------------------------------------------------------
  // No other pair can
  // ---------------------------------------------------------------------------------------------

  /** The calls are the two of the pair. */
  ghost predicate PairCalls(s: State, one: Who, two: Who) {
    forall n :: n in s.calls ==> (n == 1 && Who(s.calls[n].sid, s.calls[n].email) == one)
                                 || (n == 2 && Who(s.calls[n].sid, s.calls[n].email) == two)
  }

  lemma StepKeepsPair(s: State, e: Event, one: Who, two: Who)
    requires PairCalls(s, one, two) && OfPair(e, one, two)
    ensures PairCalls(Step(s, e), one, two)
  {
  }

  /** Without a shared email, or with one id, the pair is orderly. */
  lemma {:induction false} DistinctPairIsOrderly(users: UserTable, events: seq<Event>, one: Who, two: Who)
    requires PairRun(events, one, two) && (one.sid == two.sid || one.email != two.email || one.email == "")
    ensures Orderly(State(users, map[]), events) && PairCalls(Run(State(users, map[]), events), one, two)
  {
    if events != [] {
      var before, e := events[..|events| - 1], events[|events| - 1];
      DistinctPairIsOrderly(users, before, one, two);
      StepKeepsPair(Run(State(users, map[]), before), e, one, two);
    }
  }

  ghost predicate AllFit(s: State) {
    Constraints(s.users) && forall n :: n in s.calls ==> CallFits(s, s.calls[n])
  }

  /** One id is linked already: its call returns at its first select, so the other writes without a rival. */
  ghost predicate OneReturnsAtOnce(s: State, one: Who, two: Who, a: nat) {
    && AllFit(s) && PairCalls(s, one, two)
    && Linked(s.users, if a == 1 then one.sid else two.sid)
    && (a in s.calls ==> s.calls[a].pc.SelectSid? || s.calls[a].pc.Returned?)
  }

  lemma StepKeepsAtOnce(s: State, e: Event, one: Who, two: Who, a: nat)
    requires OneReturnsAtOnce(s, one, two, a) && OfPair(e, one, two) && (a == 1 || a == 2)
    ensures OneReturnsAtOnce(Step(s, e), one, two, a)
  {
    StepKeepsConstraints(s, e);
    StepKeepsPair(s, e, one, two);
    StepKeepsLinks(s, e);
    if Enabled(s, e) {
      forall n | n in Step(s, e).calls ensures CallFits(Step(s, e), Step(s, e).calls[n]) {
        if ActsOn(e, n) {
          StepMovesCall(s, e, n);
        } else {
          StepKeepsOtherCall(s, e, n);
        }
      }
    }
  }

  lemma {:induction false} AtOnceRuns(users: UserTable, events: seq<Event>, one: Who, two: Who, a: nat)
    requires Constraints(users) && PairRun(events, one, two) && (a == 1 || a == 2)
    requires Linked(users, if a == 1 then one.sid else two.sid)
    ensures OneReturnsAtOnce(Run(State(users, map[]), events), one, two, a)
  {
    if events != [] {
      AtOnceRuns(users, events[..|events| - 1], one, two, a);
      StepKeepsAtOnce(Run(State(users, map[]), events[..|events| - 1]), events[|events| - 1], one, two, a);
    }
  }

  predicate HasReturned(s: State, n: nat) {
    n in s.calls && s.calls[n].pc.Returned?
  }

  /** The shared email names no open row, so no call comes to write a link; an id is linked only once its call has returned. */
  ghost predicate NoneWrites(s: State, one: Who, two: Who) {
    && AllFit(s) && PairCalls(s, one, two) && !OpenRow(s.users, one.email)
    && (forall n :: n in s.calls ==> !s.calls[n].pc.UpdateLink?)
    && (Linked(s.users, one.sid) ==> HasReturned(s, 1)) && (Linked(s.users, two.sid) ==> HasReturned(s, 2))
  }

  lemma StepKeepsNoneWrites(s: State, e: Event, one: Who, two: Who)
    requires NoneWrites(s, one, two) && OfPair(e, one, two) && one.sid != two.sid && one.email == two.email
    ensures NoneWrites(Step(s, e), one, two)
  {
    StepKeepsConstraints(s, e);
    StepKeepsPair(s, e, one, two);
    if Enabled(s, e) {
      forall n | n in Step(s, e).calls ensures CallFits(Step(s, e), Step(s, e).calls[n]) {
        if ActsOn(e, n) {
          StepMovesCall(s, e, n);
        } else {
          StepKeepsOtherCall(s, e, n);
        }
      }
      StepOpensNothing(s, e, one, two);
    }
  }

  /** Only an insert changes the table, and what it inserts is linked to its caller's id. */
  lemma StepOpensNothing(s: State, e: Event, one: Who, two: Who)
    requires NoneWrites(s, one, two) && OfPair(e, one, two) && Enabled(s, e) && one.sid != two.sid && one.email == two.email
    ensures var t := Step(s, e);
            && !OpenRow(t.users, one.email) && (forall n :: n in t.calls ==> !t.calls[n].pc.UpdateLink?)
            && (Linked(t.users, one.sid) ==> HasReturned(t, 1)) && (Linked(t.users, two.sid) ==> HasReturned(t, 2))
  {
  }

  lemma {:induction false} NoneWritesRuns(users: UserTable, events: seq<Event>, one: Who, two: Who)
    requires Constraints(users) && PairRun(events, one, two) && one.sid != two.sid && one.email == two.email
    requires !Linked(users, one.sid) && !Linked(users, two.sid) && !OpenRow(users, one.email)
    ensures NoneWrites(Run(State(users, map[]), events), one, two)
  {
    if events != [] {
      NoneWritesRuns(users, events[..|events| - 1], one, two);
      StepKeepsNoneWrites(Run(State(users, map[]), events[..|events| - 1]), events[|events| - 1], one, two);
    }
  }

  lemma UncontestedKeepsLinks(users: UserTable, events: seq<Event>, one: Who, two: Who)
    requires Constraints(users) && PairRun(events, one, two) && !Contestable(users, one, two)
    ensures !LinkLost(Run(State(users, map[]), events))
  {
    if one.sid == two.sid || one.email != two.email || one.email == "" {
      DistinctPairIsOrderly(users, events, one, two);
      RunKeepsInv(users, events);
    } else if Linked(users, one.sid) {
      AtOnceRuns(users, events, one, two, 1);
    } else if Linked(users, two.sid) {
      AtOnceRuns(users, events, one, two, 2);
    } else {
      NoneWritesRuns(users, events, one, two);
    }
  }

  ghost predicate SomeRunLosesLink(users: UserTable, one: Who, two: Who) {
    exists events :: PairRun(events, one, two) && LinkLost(Run(State(users, map[]), events))
  }

  /**
   Two overlapping calls can end with a link overwritten if and only if they are for two unlinked ids
   that share an email naming an unlinked row, active or without credit.
   */
  lemma LinkCanBeLostIff(users: UserTable, one: Who, two: Who)
    requires Constraints(users)
    ensures SomeRunLosesLink(users, one, two) <==> Contestable(users, one, two)
  {
    if Contestable(users, one, two) {
      var row :| row in users && users[row].email == one.email && Open(users[row]);
      SharedEmailOverwritesLink(users, one, two, row);
      RaceIsPairRun(one, two, row);
      var t := Run(State(users, map[]), SharedEmailRace(one, two, row));
      assert 1 in t.calls && t.calls[1].pc.Returned?;
      assert LinkLost(t);
    } else if events :| PairRun(events, one, two) && LinkLost(Run(State(users, map[]), events)) {
      UncontestedKeepsLinks(users, events, one, two);
    }
  }
}
