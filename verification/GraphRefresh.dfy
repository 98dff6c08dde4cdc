/**
 `get_user_graph_token` of src/integrations/microsoft_graph.py under interleaving.

 Coroutines of one event loop switch at their await points only: waiting for the per-user lock, and
 waiting for Microsoft's answer.  Between two await points a coroutine reads and writes the token row
 undisturbed.  Microsoft accepts one refresh token per user and may rotate it with each answer; an
 answer can be lost on the way.
 */
module GraphRefresh {
  import opened Prelude

  const REFRESH_LEEWAY := 60.0

  datatype Row = Row(refreshToken: string, accessToken: string, expiresAt: real)

  datatype Pc =
    | Waiting                                              // for the user's lock
    | InFlight(presented: string)                          // holds the lock; request sent
    | Answered(presented: string, rotated: Option<string>) // holds the lock; Microsoft has accepted the token
    | Returned(token: Option<string>)
    | Failed

  datatype Coroutine = Coroutine(user: string, pc: Pc)

  /** One refresh as it starts: the token presented, the token stored last, the stored expiry and the time. */
  datatype Start = Start(user: string, presented: string, storedLast: string, expiresAt: real, at: real)

  datatype State = State(
    rows: map<string, Row>,
    locks: map<string, nat>,          // the coroutine that holds a user's lock
    coroutines: map<nat, Coroutine>,
    now: real,
    accepted: map<string, string>,    // the refresh token Microsoft accepts
    minted: set<string>,              // every refresh token that ever existed
    storedLast: map<string, string>,  // history: what the last successful refresh stored
    starts: seq<Start>,               // history: all refreshes started
    lost: set<string>                 // history: users for whom an answer with a rotated token was lost
  )

  datatype Event =
    | Begin(co: nat, user: string)
    | Acquire(co: nat)
    | Answer(co: nat, rotated: Option<string>)
    | Store(co: nat, accessToken: string, expiresIn: real)
    | Fail(co: nat)                   // refusal, time-out or cancellation
    | Tick(elapsed: real)

  ghost predicate Enabled(s: State, e: Event) {
    match e
    case Begin(co, _) => co !in s.coroutines
    case Acquire(co) => co in s.coroutines && s.coroutines[co].pc.Waiting? && s.coroutines[co].user !in s.locks
                        && s.coroutines[co].user in s.rows
    case Answer(co, rotated) =>
      && co in s.coroutines && s.coroutines[co].pc.InFlight?
      && s.coroutines[co].user in s.accepted && s.coroutines[co].pc.presented == s.accepted[s.coroutines[co].user]
      && (rotated.Some? ==> rotated.value !in s.minted)
    case Store(co, _, _) => co in s.coroutines && s.coroutines[co].pc.Answered?
    case Fail(co) => co in s.coroutines && Active(s.coroutines[co].pc)
    case Tick(elapsed) => elapsed >= 0.0
  }

  predicate Active(pc: Pc) {
    pc.Waiting? || Refreshing(pc)
  }

  /** A refresh is under way: the request is out and its outcome is not stored. */
  predicate Refreshing(pc: Pc) {
    pc.InFlight? || pc.Answered?
  }

  predicate NearExpiry(row: Row, now: real) {
    row.expiresAt - now <= REFRESH_LEEWAY
  }

  function Goto(s: State, co: nat, pc: Pc): State
    requires co in s.coroutines
  {
    s.(coroutines := s.coroutines[co := s.coroutines[co].(pc := pc)])
  }

  ghost function Apply(s: State, e: Event): State
    requires Enabled(s, e)
  {
    match e
    case Begin(co, user) =>
      var pc := if user !in s.rows then Returned(None)
                else if NearExpiry(s.rows[user], s.now) then Waiting
                else Returned(Some(s.rows[user].accessToken));
      s.(coroutines := s.coroutines[co := Coroutine(user, pc)])
    case Acquire(co) =>
      var user := s.coroutines[co].user;
      var row := s.rows[user];
      if !NearExpiry(row, s.now) then Goto(s, co, Returned(Some(row.accessToken)))
      else
        var stored := if user in s.storedLast then s.storedLast[user] else "";
        Goto(s, co, InFlight(row.refreshToken)).(
          locks := s.locks[user := co],
          starts := s.starts + [Start(user, row.refreshToken, stored, row.expiresAt, s.now)])
    case Answer(co, rotated) =>
      var c := s.coroutines[co];
      var t := Goto(s, co, Answered(c.pc.presented, rotated));
      if rotated.None? then t
      else t.(accepted := s.accepted[c.user := rotated.value], minted := s.minted + {rotated.value})
    case Store(co, accessToken, expiresIn) =>
      var c := s.coroutines[co];
      var refreshToken := if c.pc.rotated.Some? then c.pc.rotated.value else c.pc.presented;
      Goto(s, co, Returned(Some(accessToken))).(
        rows := s.rows[c.user := Row(refreshToken, accessToken, s.now + expiresIn)],
        storedLast := s.storedLast[c.user := refreshToken],
        locks := s.locks - {c.user})
    case Fail(co) =>
      var c := s.coroutines[co];
      Goto(s, co, Failed).(
        locks := if Refreshing(c.pc) then s.locks - {c.user} else s.locks,
        lost := if c.pc.Answered? && c.pc.rotated.Some? then s.lost + {c.user} else s.lost)
    case Tick(elapsed) => s.(now := s.now + elapsed)
  }

  ghost function Step(s: State, e: Event): State {
    if Enabled(s, e) then Apply(s, e) else s
  }

  ghost function Run(s: State, events: seq<Event>): State {
    if events == [] then s else Step(Run(s, events[..|events| - 1]), events[|events| - 1])
  }

  /** Nothing runs yet; Microsoft accepts exactly the stored refresh tokens. */
  ghost predicate Init(s: State) {
    && s.locks == map[] && s.coroutines == map[] && s.starts == [] && s.lost == {}
    && s.accepted == s.storedLast == (map u | u in s.rows :: s.rows[u].refreshToken)
    && forall u :: u in s.rows ==> s.rows[u].refreshToken in s.minted
  }

  /** A refreshing coroutine holds its user's lock and presents the stored token. */
  ghost predicate HoldsLock(s: State, co: nat)
    requires co in s.coroutines && Refreshing(s.coroutines[co].pc)
  {
    var c := s.coroutines[co];
    && c.user in s.locks && s.locks[c.user] == co
    && c.user in s.rows && s.rows[c.user].refreshToken == c.pc.presented
  }

  ghost predicate LockInv(s: State) {
    && (forall u :: u in s.locks ==>
          s.locks[u] in s.coroutines && s.coroutines[s.locks[u]].user == u && Refreshing(s.coroutines[s.locks[u]].pc))
    && (forall co :: co in s.coroutines && Refreshing(s.coroutines[co].pc) ==> HoldsLock(s, co))
  }

  ghost predicate GoodStart(start: Start) {
    start.presented == start.storedLast && start.expiresAt - start.at <= 60.0
  }

  ghost predicate HistoryInv(s: State) {
    && s.storedLast.Keys == s.rows.Keys == s.accepted.Keys
    && (forall u :: u in s.rows ==> s.rows[u].refreshToken == s.storedLast[u])
    && (forall i :: 0 <= i < |s.starts| ==> GoodStart(s.starts[i]))
  }

  /** Microsoft has accepted the token of the refresh under way for u. */
  ghost predicate AnswerPending(s: State, u: string) {
    u in s.locks && s.locks[u] in s.coroutines && s.coroutines[s.locks[u]].pc.Answered?
  }

  /** The refresh token Microsoft has issued for u that is not stored yet. */
  ghost function PendingRotation(s: State, u: string): Option<string> {
    if AnswerPending(s, u) then s.coroutines[s.locks[u]].pc.rotated else None
  }

  /** Microsoft accepts the stored token, or the one on its way, unless that one was lost. */
  ghost predicate TokenKnown(s: State, u: string)
    requires u in s.rows && u in s.accepted
  {
    && s.rows[u].refreshToken in s.minted && s.accepted[u] in s.minted
    && (u in s.lost ==> s.accepted[u] != s.rows[u].refreshToken && !AnswerPending(s, u))
    && (u !in s.lost && PendingRotation(s, u).Some? ==>
          s.accepted[u] == PendingRotation(s, u).value && s.accepted[u] != s.rows[u].refreshToken)
    && (u !in s.lost && PendingRotation(s, u).None? ==> s.accepted[u] == s.rows[u].refreshToken)
  }

  ghost predicate Inv(s: State) {
    LockInv(s) && HistoryInv(s) && forall u :: u in s.rows ==> TokenKnown(s, u)
  }

  /** The coroutine an event moves. */
  function Mover(e: Event): Option<nat> {
    if e.Tick? then None else Some(e.co)
  }

  /** A coroutine that does not move keeps its lock: whoever moves for the same user is not refreshing and finds it taken. */
  lemma StepKeepsOtherHolder(s: State, e: Event, co: nat)
    requires LockInv(s) && Enabled(s, e) && Mover(e) != Some(co)
    requires co in s.coroutines && Refreshing(s.coroutines[co].pc)
    ensures co in Step(s, e).coroutines && Step(s, e).coroutines[co] == s.coroutines[co]
    ensures HoldsLock(Step(s, e), co)
  {
    assert HoldsLock(s, co);
    if Mover(e).Some? && e.co in s.coroutines && s.coroutines[e.co].user == s.coroutines[co].user {
      assert Refreshing(s.coroutines[e.co].pc) ==> HoldsLock(s, e.co);
    }
  }

  lemma StepMovesHolder(s: State, e: Event, co: nat)
    requires LockInv(s) && Enabled(s, e) && Mover(e) == Some(co)
    requires co in Step(s, e).coroutines && Refreshing(Step(s, e).coroutines[co].pc)
    ensures HoldsLock(Step(s, e), co)
  {
    if e.Answer? {
      assert HoldsLock(s, co);
    }
  }

  lemma StepKeepsHolder(s: State, e: Event, co: nat)
    requires LockInv(s) && co in Step(s, e).coroutines && Refreshing(Step(s, e).coroutines[co].pc)
    ensures HoldsLock(Step(s, e), co)
  {
    if Enabled(s, e) {
      if Mover(e) == Some(co) {
        StepMovesHolder(s, e, co);
      } else {
        StepKeepsOtherHolder(s, e, co);
      }
    }
  }

  lemma StepKeepsLock(s: State, e: Event, u: string)
    requires LockInv(s) && u in Step(s, e).locks
    ensures var t := Step(s, e);
            t.locks[u] in t.coroutines && t.coroutines[t.locks[u]].user == u && Refreshing(t.coroutines[t.locks[u]].pc)
  {
    if Enabled(s, e) && u in s.locks {
      var co := s.locks[u];
      if Mover(e) == Some(co) {
        assert HoldsLock(s, co);
      } else {
        StepKeepsOtherHolder(s, e, co);
      }
    }
  }

  lemma StepKeepsLocks(s: State, e: Event)
    requires LockInv(s)
    ensures LockInv(Step(s, e))
  {
    var t := Step(s, e);
    forall co | co in t.coroutines && Refreshing(t.coroutines[co].pc) ensures HoldsLock(t, co) {
      StepKeepsHolder(s, e, co);
    }
    forall u | u in t.locks
      ensures t.locks[u] in t.coroutines && t.coroutines[t.locks[u]].user == u && Refreshing(t.coroutines[t.locks[u]].pc)
    {
      StepKeepsLock(s, e, u);
    }
  }

  lemma StepKeepsHistory(s: State, e: Event)
    requires LockInv(s) && HistoryInv(s)
    ensures HistoryInv(Step(s, e))
  {
    if Enabled(s, e) && !e.Tick? && !e.Begin? && Refreshing(s.coroutines[e.co].pc) {
      assert HoldsLock(s, e.co);
    }
  }

  /** An event leaves the tokens and the lock of every other user alone. */
  lemma StepKeepsOtherTokens(s: State, e: Event, u: string)
    requires Inv(s) && Enabled(s, e) && u in s.rows
    requires Mover(e).Some? ==> e.co !in s.coroutines || s.coroutines[e.co].user != u
    ensures var t := Step(s, e); u in t.rows && u in t.accepted && TokenKnown(t, u)
  {
    assert TokenKnown(s, u);
    var t := Step(s, e);
    assert t.rows[u] == s.rows[u] && t.accepted[u] == s.accepted[u] && (u in t.lost <==> u in s.lost);
    if u in s.locks {
      StepKeepsOtherHolder(s, e, s.locks[u]);
    } else {
      assert u !in t.locks;
    }
  }

  lemma StepMovesTokens(s: State, e: Event, u: string)
    requires Inv(s) && Enabled(s, e) && u in s.rows
    requires Mover(e).Some? && e.co in s.coroutines && s.coroutines[e.co].user == u
    ensures var t := Step(s, e); u in t.rows && u in t.accepted && TokenKnown(t, u)
  {
    assert TokenKnown(s, u);
    if Refreshing(s.coroutines[e.co].pc) {
      assert HoldsLock(s, e.co);
    }
  }

  lemma StepKeepsTokens(s: State, e: Event, u: string)
    requires Inv(s) && u in Step(s, e).rows
    ensures u in s.rows && u in Step(s, e).accepted && TokenKnown(Step(s, e), u)
  {
    StepKeepsHistory(s, e);
    if Enabled(s, e) {
      if Mover(e).Some? && e.co in s.coroutines && Refreshing(s.coroutines[e.co].pc) {
        assert HoldsLock(s, e.co);
      }
      if Mover(e).Some? && e.co in s.coroutines && s.coroutines[e.co].user == u {
        StepMovesTokens(s, e, u);
      } else {
        StepKeepsOtherTokens(s, e, u);
      }
    }
  }

  lemma {:induction false} RunKeepsInv(s: State, events: seq<Event>)
    requires Init(s)
    ensures Inv(Run(s, events))
  {
    if events == [] {
      forall u | u in s.rows ensures TokenKnown(s, u) {
        assert s.accepted[u] == s.rows[u].refreshToken;
      }
    } else {
      var m, e := Run(s, events[..|events| - 1]), events[|events| - 1];
      RunKeepsInv(s, events[..|events| - 1]);
      StepKeepsLocks(m, e);
      StepKeepsHistory(m, e);
      forall u | u in Step(m, e).rows ensures TokenKnown(Step(m, e), u) {
        StepKeepsTokens(m, e, u);
      }
    }
  }

  /** In every interleaving at most one refresh per user is under way. */
  lemma RefreshesNeverOverlap(s: State, events: seq<Event>, a: nat, b: nat)
    requires Init(s)
    requires var t := Run(s, events);
             && a in t.coroutines && b in t.coroutines && t.coroutines[a].user == t.coroutines[b].user
             && Refreshing(t.coroutines[a].pc) && Refreshing(t.coroutines[b].pc)
    ensures a == b
  {
    var t := Run(s, events);
    RunKeepsInv(s, events);
    assert HoldsLock(t, a) && HoldsLock(t, b);
  }

  /** Each refresh presents the token the last successful one stored, and starts only within the leeway of expiry. */
  lemma RefreshesPresentLatestToken(s: State, events: seq<Event>)
    requires Init(s)
    ensures forall i :: 0 <= i < |Run(s, events).starts| ==> GoodStart(Run(s, events).starts[i])
  {
    RunKeepsInv(s, events);
  }

  /**
   While a request is out, Microsoft still accepts the presented token unless a rotated one was lost
   earlier: exactly then it is stale.
   */
  lemma PresentedTokenStaleIffAnswerLost(s: State, events: seq<Event>, co: nat)
    requires Init(s)
    requires co in Run(s, events).coroutines && Run(s, events).coroutines[co].pc.InFlight?
    ensures var t := Run(s, events);
            var c := t.coroutines[co];
            c.user in t.accepted && (c.pc.presented == t.accepted[c.user] <==> c.user !in t.lost)
  {
    var t := Run(s, events);
    RunKeepsInv(s, events);
    assert HoldsLock(t, co);
    assert TokenKnown(t, t.coroutines[co].user);
  }

  /** A lock whose holder is gone is free again, so no user is locked out. */
  lemma LockIsHeldOnlyWhileRefreshing(s: State, events: seq<Event>, u: string)
    requires Init(s)
    ensures var t := Run(s, events);
            u in t.locks <==> exists co :: co in t.coroutines && t.coroutines[co].user == u && Refreshing(t.coroutines[co].pc)
  {
    var t := Run(s, events);
    RunKeepsInv(s, events);
    forall co | co in t.coroutines && t.coroutines[co].user == u && Refreshing(t.coroutines[co].pc)
      ensures u in t.locks
    {
      assert HoldsLock(t, co);
    }
  }

  // ---------------------------------------------------------------------------------------------
  // When a call refreshes
  // ---------------------------------------------------------------------------------------------

  /** An event moves no coroutine but one, and leaves the rows as they are. */
  ghost predicate OnlyMoves(s: State, t: State, co: nat, c: Coroutine) {
    && t.coroutines == s.coroutines[co := c] && t.rows == s.rows && t.now == s.now
  }

  /** A call returns at once if its user has no row or more than sixty seconds are left, and else waits for the lock. */
  lemma BeginWaitsIff(s: State, co: nat, user: string)
    requires co !in s.coroutines
    ensures var t := Step(s, Begin(co, user));
            && t.locks == s.locks && t.starts == s.starts
            && OnlyMoves(s, t, co, Coroutine(user, t.coroutines[co].pc))
            && (user !in s.rows ==> t.coroutines[co].pc == Returned(None))
            && (user in s.rows && s.rows[user].expiresAt - s.now > 60.0 ==>
                  t.coroutines[co].pc == Returned(Some(s.rows[user].accessToken)))
            && (user in s.rows && s.rows[user].expiresAt - s.now <= 60.0 ==> t.coroutines[co].pc == Waiting)
  {
  }

  /** With the lock, the call reads the row again: it starts a refresh with the stored token if at most sixty seconds are left. */
  lemma AcquireRefreshesIff(s: State, co: nat)
    requires co in s.coroutines && s.coroutines[co].pc == Waiting
    requires s.coroutines[co].user !in s.locks && s.coroutines[co].user in s.rows
    ensures var t, user := Step(s, Acquire(co)), s.coroutines[co].user;
            var row := s.rows[user];
            && OnlyMoves(s, t, co, Coroutine(user, t.coroutines[co].pc))
            && (row.expiresAt - s.now > 60.0 ==>
                  t.coroutines[co].pc == Returned(Some(row.accessToken)) && t.locks == s.locks && t.starts == s.starts)
            && (row.expiresAt - s.now <= 60.0 ==>
                  && t.coroutines[co].pc == InFlight(row.refreshToken) && t.locks == s.locks[user := co]
                  && |t.starts| == |s.starts| + 1)
  {
  }

  /**
   The answer is stored until its own number of seconds from now, with the rotated refresh token if
   there is one, and the lock is free.
   */
  lemma StoreStores(s: State, co: nat, presented: string, rotated: Option<string>, accessToken: string, expiresIn: real)
    requires co in s.coroutines && s.coroutines[co].pc == Answered(presented, rotated)
    ensures var t, user := Step(s, Store(co, accessToken, expiresIn)), s.coroutines[co].user;
            && user in t.rows && t.rows.Keys == s.rows.Keys + {user} && (forall u :: u in s.rows && u != user ==> t.rows[u] == s.rows[u])
            && t.rows[user].expiresAt == s.now + expiresIn && t.rows[user].accessToken == accessToken
            && t.rows[user].refreshToken == (match rotated case Some(r) => r case None => presented)
            && t.coroutines == s.coroutines[co := Coroutine(user, Returned(Some(accessToken)))] && user !in t.locks && t.now == s.now
  {
  }

  /** A refresh that fails leaves the row as it was. */
  lemma FailLeavesRow(s: State, co: nat)
    requires co in s.coroutines && !s.coroutines[co].pc.Returned? && s.coroutines[co].pc != Failed
    ensures OnlyMoves(s, Step(s, Fail(co)), co, Coroutine(s.coroutines[co].user, Failed))
    ensures !s.coroutines[co].pc.Waiting? ==> s.coroutines[co].user !in Step(s, Fail(co)).locks
  {
  }

  /**
   A call that has just returned a token returned the stored one, with more than sixty seconds left
   unless it was issued so short-lived.
   */
  lemma ReturnedTokenIsStored(s: State, e: Event, co: nat)
    requires co in Step(s, e).coroutines && Step(s, e).coroutines[co].pc.Returned?
    requires co in s.coroutines ==> s.coroutines[co] != Step(s, e).coroutines[co]
    ensures var t := Step(s, e);
            var c := t.coroutines[co];
            && (c.pc.token.None? ==> c.user !in t.rows)
            && (c.pc.token.Some? ==>
                  && c.user in t.rows && t.rows[c.user].accessToken == c.pc.token.value
                  && (!e.Store? ==> t.rows[c.user].expiresAt - t.now > 60.0)
                  && (e.Store? ==> t.rows[c.user].expiresAt - t.now == e.expiresIn))
  {
  }

  /** Microsoft answers a request only for the token it accepts, and accepts a rotated one from then on; the row is not touched. */
  lemma AnswerRotates(s: State, co: nat, rotated: Option<string>)
    requires co in s.coroutines && s.coroutines[co].pc.InFlight? && s.coroutines[co].user in s.accepted
    requires rotated.Some? ==> rotated.value !in s.minted
    ensures var c, t := s.coroutines[co], Step(s, Answer(co, rotated));
            if c.pc.presented == s.accepted[c.user] then
              && OnlyMoves(s, t, co, Coroutine(c.user, Answered(c.pc.presented, rotated)))
              && t.accepted == (if rotated.Some? then s.accepted[c.user := rotated.value] else s.accepted)
            else t == s
  {
  }

  /** Time passes whatever the coroutines are at. */
  lemma TimePasses(s: State, elapsed: real)
    requires elapsed >= 0.0
    ensures Step(s, Tick(elapsed)) == s.(now := s.now + elapsed)
  {
  }

  /** Only a waiting call acquires, only a request is answered, only an answer is stored, and only an unfinished call fails. */
  lemma OutOfTurnNothingHappens(s: State, co: nat, rotated: Option<string>, accessToken: string, expiresIn: real)
    requires co in s.coroutines
    ensures !s.coroutines[co].pc.Waiting? || s.coroutines[co].user in s.locks ==> Step(s, Acquire(co)) == s
    ensures !s.coroutines[co].pc.InFlight? ==> Step(s, Answer(co, rotated)) == s
    ensures !s.coroutines[co].pc.Answered? ==> Step(s, Store(co, accessToken, expiresIn)) == s
    ensures s.coroutines[co].pc.Returned? || s.coroutines[co].pc.Failed? ==> Step(s, Fail(co)) == s
  {
  }
}
