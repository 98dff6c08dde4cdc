/**
 The read-only balance precheck and the settlement after a gateway call (src/gateway/routes.py).

 Calls interleave at their database accesses: a precheck is one read, a settlement one RPC that
 subtracts and may go negative.  The precheck's answer may be out of date by the time of settlement,
 so a balance can fall below the minimum; the theorem says how far.
 */
module Overdraft {

  datatype State = State(
    balance: map<string, real>,
    inFlight: map<nat, string>    // admitted calls that have not finished yet, with their user
  )

  datatype Event =
    | Precheck(call: nat, user: string, minBalance: real)              // the balance is read
    | PrecheckUnread(call: nat, user: string)                          // the read fails: admitted anyway
    | Finish(call: nat, charge: real, isError: bool, settled: bool)    // upstream answered, settlement ran or failed
    | Credit(user: string, amount: real)                               // any top-up or grant
    | Debit(user: string, amount: real)                                // a settlement without precheck

  function Adjust(s: State, user: string, amount: real): State {
    if user in s.balance then s.(balance := s.balance[user := s.balance[user] + amount]) else s
  }

  function Step(s: State, e: Event): State {
    match e
    case Precheck(call, user, minBalance) =>
      if call !in s.inFlight && user in s.balance && s.balance[user] >= minBalance
      then s.(inFlight := s.inFlight[call := user]) else s
    case PrecheckUnread(call, user) =>
      if call !in s.inFlight then s.(inFlight := s.inFlight[call := user]) else s
    case Finish(call, charge, isError, settled) =>
      if call !in s.inFlight then s
      else
        var done := s.(inFlight := s.inFlight - {call});
        if !isError && charge > 0.0 && settled then Adjust(done, s.inFlight[call], -charge) else done
    case Credit(user, amount) => Adjust(s, user, amount)
    case Debit(user, amount) => Adjust(s, user, -amount)
  }

  function Run(s: State, events: seq<Event>): State {
    if events == [] then s else Step(Run(s, events[..|events| - 1]), events[|events| - 1])
  }

  /**
   A balance falls by a bare debit, a credit of a negative amount, or the charge of a call of that user
   that succeeded and was settled; by nothing else.
   */
  lemma OnlySuccessfulCallsCharge(s: State, e: Event, user: string)
    requires user in s.balance
    ensures user in Step(s, e).balance
    ensures var fall := s.balance[user] - Step(s, e).balance[user];
            fall > 0.0 <==> || (e.Debit? && e.user == user && e.amount == fall && fall > 0.0)
                            || (e.Credit? && e.user == user && -e.amount == fall && fall > 0.0)
                            || (&& e.Finish? && e.call in s.inFlight && s.inFlight[e.call] == user
                                && !e.isError && e.settled && e.charge == fall && fall > 0.0)
  {
  }

  /** A precheck under a fresh id puts the call in flight if and only if its user has at least the minimum. */
  lemma PrecheckAdmitsIff(s: State, call: nat, user: string, minBalance: real)
    requires call !in s.inFlight
    ensures var t := Step(s, Precheck(call, user, minBalance));
            && t.balance == s.balance
            && (call in t.inFlight <==> user in s.balance && minBalance <= s.balance[user])
            && t.inFlight == if call in t.inFlight then s.inFlight[call := user] else s.inFlight
  {
  }

  /** A precheck whose read fails admits the call, whatever the balance. */
  lemma UnreadPrecheckAdmits(s: State, call: nat, user: string)
    requires call !in s.inFlight
    ensures Step(s, PrecheckUnread(call, user)) == State(s.balance, s.inFlight[call := user])
  {
  }

  /** A finished call is not in flight, whatever became of its charge. */
  lemma FinishEndsCall(s: State, call: nat, charge: real, isError: bool, settled: bool)
    ensures Step(s, Finish(call, charge, isError, settled)).inFlight == s.inFlight - {call}
  {
  }

  /** No event moves the balance of a user it does not concern; credits and bare debits move theirs by the amount. */
  lemma BalancesMoveExactly(s: State, e: Event, user: string)
    requires user in s.balance
    ensures user in Step(s, e).balance
    ensures var rise := Step(s, e).balance[user] - s.balance[user];
            match e
            case Precheck(_, _, _) => rise == 0.0
            case PrecheckUnread(_, _) => rise == 0.0
            case Credit(u, amount) => rise == if u == user then amount else 0.0
            case Debit(u, amount) => rise == if u == user then -amount else 0.0
            case Finish(call, charge, isError, settled) =>
              rise == if call in s.inFlight && s.inFlight[call] == user && !isError && settled && charge > 0.0 then -charge else 0.0
  {
  }

  function CallsIn(inFlight: map<nat, string>, user: string): set<nat> {
    set c | c in inFlight && inFlight[c] == user
  }

  function CallsOf(s: State, user: string): set<nat> {
    CallsIn(s.inFlight, user)
  }

  /** At most k calls of the user at once, each charged at most c, prechecked against at least minBalance. */
  predicate Within(s: State, e: Event, user: string, k: nat, c: real, minBalance: real) {
    match e
    case Precheck(_, u, m) =>
      u == user ==> m >= minBalance && (Step(s, e) != s ==> |CallsOf(s, user)| < k)
    case PrecheckUnread(_, _) => true
    case Finish(call, charge, _, _) => call in CallsOf(s, user) ==> charge <= c
    case Credit(u, amount) => u == user ==> amount >= 0.0
    case Debit(u, amount) => u == user ==> amount >= 0.0
  }

  predicate RunWithin(s: State, events: seq<Event>, user: string, k: nat, c: real, minBalance: real) {
    events != [] ==>
      var before := events[..|events| - 1];
      RunWithin(s, before, user, k, c, minBalance)
      && Within(Run(s, before), events[|events| - 1], user, k, c, minBalance)
  }

  /** What one event lets through unchecked: a full charge for an unread precheck, or a bare debit. */
  function UncheckedBy(e: Event, user: string, c: real): real {
    match e
    case PrecheckUnread(_, u) => if u == user then c else 0.0
    case Debit(u, amount) => if u == user then amount else 0.0
    case _ => 0.0
  }

  function Unchecked(events: seq<Event>, user: string, c: real): real {
    if events == [] then 0.0
    else Unchecked(events[..|events| - 1], user, c) + UncheckedBy(events[|events| - 1], user, c)
  }

  /** n full charges of c credits. */
  function Charges(n: nat, c: real): real {
    if n == 0 then 0.0 else Charges(n - 1, c) + c
  }

  lemma {:induction false} ChargesAreProduct(n: nat, c: real)
    ensures Charges(n, c) == n as real * c
  {
    if n > 0 {
      ChargesAreProduct(n - 1, c);
      assert n as real * c == ((n - 1) as real + 1.0) * c == (n - 1) as real * c + c;
    }
  }

  lemma {:induction false} ChargesMonotone(n: nat, m: nat, c: real)
    requires n <= m && c >= 0.0
    ensures Charges(n, c) <= Charges(m, c)
  {
    if n < m { ChargesMonotone(n, m - 1, c); }
  }

  /** The inductive bound: what calls in flight may still charge is reserved. */
  ghost predicate Reserved(s: State, user: string, k: nat, c: real, minBalance: real, unchecked: real) {
    && user in s.balance
    && s.balance[user] - Charges(|CallsOf(s, user)|, c) + unchecked >= minBalance - Charges(k, c)
  }

  lemma AdmitCall(inFlight: map<nat, string>, call: nat, owner: string, user: string)
    requires call !in inFlight
    ensures |CallsIn(inFlight[call := owner], user)| == |CallsIn(inFlight, user)| + if owner == user then 1 else 0
  {
    var before, after := CallsIn(inFlight, user), CallsIn(inFlight[call := owner], user);
    assert after == if owner == user then before + {call} else before;
  }

  lemma FinishCall(inFlight: map<nat, string>, call: nat, user: string)
    requires call in inFlight
    ensures |CallsIn(inFlight - {call}, user)| == |CallsIn(inFlight, user)| - if inFlight[call] == user then 1 else 0
  {
    var before, after := CallsIn(inFlight, user), CallsIn(inFlight - {call}, user);
    assert after == before - {call};
    assert call in before <==> inFlight[call] == user;
  }

  lemma StepKeepsReserve(s: State, e: Event, user: string, k: nat, c: real, minBalance: real, u: real)
    requires c >= 0.0 && u >= 0.0 && Reserved(s, user, k, c, minBalance, u) && Within(s, e, user, k, c, minBalance)
    ensures Reserved(Step(s, e), user, k, c, minBalance, u + UncheckedBy(e, user, c))
  {
    match e
    case Precheck(call, owner, _) =>
      if call !in s.inFlight {
        AdmitCall(s.inFlight, call, owner, user);
      }
      if |CallsOf(s, user)| < k {
        ChargesMonotone(|CallsOf(s, user)| + 1, k, c);
      }
    case PrecheckUnread(call, owner) =>
      if call !in s.inFlight {
        AdmitCall(s.inFlight, call, owner, user);
      }
    case Finish(call, _, _, _) =>
      if call in s.inFlight {
        FinishCall(s.inFlight, call, user);
      }
    case Credit(_, _) =>
    case Debit(_, _) =>
  }

  lemma {:induction false} UncheckedNonNegative(s: State, events: seq<Event>, user: string, k: nat, c: real, minBalance: real)
    requires c >= 0.0 && RunWithin(s, events, user, k, c, minBalance)
    ensures Unchecked(events, user, c) >= 0.0
  {
    if events != [] {
      var n := |events| - 1;
      UncheckedNonNegative(s, events[..n], user, k, c, minBalance);
    }
  }

  /**
   Under every interleaving the balance keeps room for what calls in flight may still charge, down to
   the minimum less k full charges, less only what was let through unchecked.
   */
  lemma {:induction false} BalanceStaysReserved(s: State, events: seq<Event>, user: string, k: nat, c: real, minBalance: real)
    requires c >= 0.0 && user in s.balance && CallsOf(s, user) == {}
    requires s.balance[user] >= minBalance - Charges(k, c)
    requires RunWithin(s, events, user, k, c, minBalance)
    ensures Reserved(Run(s, events), user, k, c, minBalance, Unchecked(events, user, c))
  {
    if events != [] {
      var n := |events| - 1;
      BalanceStaysReserved(s, events[..n], user, k, c, minBalance);
      UncheckedNonNegative(s, events[..n], user, k, c, minBalance);
      StepKeepsReserve(Run(s, events[..n]), events[n], user, k, c, minBalance, Unchecked(events[..n], user, c));
    }
  }

  predicate AllChecked(events: seq<Event>, user: string) {
    events != [] ==>
      var last := events[|events| - 1];
      AllChecked(events[..|events| - 1], user) && !((last.PrecheckUnread? || last.Debit?) && last.user == user)
  }

  lemma {:induction false} CheckedRunsAddNothing(events: seq<Event>, user: string, c: real)
    requires AllChecked(events, user)
    ensures Unchecked(events, user, c) == 0.0
  {
    if events != [] { CheckedRunsAddNothing(events[..|events| - 1], user, c); }
  }

  /** Gateway calls alone never take the balance below the minimum less k full charges. */
  lemma OverdraftIsBounded(s: State, events: seq<Event>, user: string, k: nat, c: real, minBalance: real)
    requires c >= 0.0 && user in s.balance && CallsOf(s, user) == {}
    requires s.balance[user] >= minBalance - k as real * c
    requires RunWithin(s, events, user, k, c, minBalance) && AllChecked(events, user)
    ensures user in Run(s, events).balance
    ensures Run(s, events).balance[user] >= minBalance - k as real * c
  {
    ChargesAreProduct(k, c);
    BalanceStaysReserved(s, events, user, k, c, minBalance);
    CheckedRunsAddNothing(events, user, c);
    ChargesMonotone(0, |CallsOf(Run(s, events), user)|, c);
  }

  // ---------------------------------------------------------------------------------------------
  // The bound is reached
  // ---------------------------------------------------------------------------------------------

  /** Calls 0..n-1, all of one user. */
  function FirstCalls(n: nat, user: string): (calls: map<nat, string>)
    ensures forall i: nat :: i in calls <==> i < n
    ensures |CallsIn(calls, user)| == n && forall i :: i in calls ==> calls[i] == user
  {
    if n == 0 then map[]
    else
      var before := FirstCalls(n - 1, user);
      AdmitCall(before, n - 1, user, user);
      before[n - 1 := user]
  }

  /** n prechecks, then all but the first `left` of these calls finish with a full charge. */
  function Burst(user: string, minBalance: real, c: real, n: nat, left: nat): seq<Event>
    requires left <= n
    decreases n, n - left
  {
    if left < n then Burst(user, minBalance, c, n, left + 1) + [Finish(left, c, false, true)]
    else if n > 0 then Burst(user, minBalance, c, n - 1, n - 1) + [Precheck(n - 1, user, minBalance)]
    else []
  }

  function AfterBurst(user: string, minBalance: real, c: real, n: nat, left: nat): State
    requires left <= n
  {
    State(map[user := minBalance - Charges(n - left, c)], FirstCalls(left, user))
  }

  lemma BurstFinish(user: string, minBalance: real, c: real, n: nat, left: nat)
    requires c > 0.0 && left < n
    ensures Step(AfterBurst(user, minBalance, c, n, left + 1), Finish(left, c, false, true))
            == AfterBurst(user, minBalance, c, n, left)
  {
    assert FirstCalls(left + 1, user) - {left} == FirstCalls(left, user);
  }

  lemma BurstAdmit(user: string, minBalance: real, c: real, n: nat)
    requires n > 0
    ensures Step(AfterBurst(user, minBalance, c, n - 1, n - 1), Precheck(n - 1, user, minBalance))
            == AfterBurst(user, minBalance, c, n, n)
  {
  }

  lemma {:induction false} BurstRuns(user: string, minBalance: real, c: real, k: nat, n: nat, left: nat)
    requires c > 0.0 && left <= n <= k
    ensures var s := AfterBurst(user, minBalance, c, 0, 0);
            var events := Burst(user, minBalance, c, n, left);
            && Run(s, events) == AfterBurst(user, minBalance, c, n, left)
            && RunWithin(s, events, user, k, c, minBalance) && AllChecked(events, user)
    decreases n, n - left
  {
    var s := AfterBurst(user, minBalance, c, 0, 0);
    if left < n {
      BurstRuns(user, minBalance, c, k, n, left + 1);
      LastEvent(s, Burst(user, minBalance, c, n, left + 1), Finish(left, c, false, true), user, k, c, minBalance);
      BurstFinish(user, minBalance, c, n, left);
    } else if n > 0 {
      BurstRuns(user, minBalance, c, k, n - 1, n - 1);
      LastEvent(s, Burst(user, minBalance, c, n - 1, n - 1), Precheck(n - 1, user, minBalance), user, k, c, minBalance);
      BurstAdmit(user, minBalance, c, n);
    }
  }

  lemma LastEvent(s: State, before: seq<Event>, e: Event, user: string, k: nat, c: real, minBalance: real)
    requires RunWithin(s, before, user, k, c, minBalance) && AllChecked(before, user)
    requires Within(Run(s, before), e, user, k, c, minBalance) && AllChecked([e], user)
    ensures Run(s, before + [e]) == Step(Run(s, before), e)
    ensures RunWithin(s, before + [e], user, k, c, minBalance) && AllChecked(before + [e], user)
  {
    assert (before + [e])[..|before + [e]| - 1] == before;
    assert AllChecked([e], user) ==> !((e.PrecheckUnread? || e.Debit?) && e.user == user);
  }

  /** For every k, charge and minimum some run with k calls in flight ends exactly at the bound. */
  lemma BoundIsReached(user: string, minBalance: real, c: real, k: nat)
    requires c > 0.0
    ensures exists events :: ReachesBound(events, user, minBalance, c, k)
  {
    BurstRuns(user, minBalance, c, k, k, 0);
    ChargesAreProduct(k, c);
    assert AfterBurst(user, minBalance, c, 0, 0) == State(map[user := minBalance], map[]);
    assert ReachesBound(Burst(user, minBalance, c, k, 0), user, minBalance, c, k);
  }

  ghost predicate ReachesBound(events: seq<Event>, user: string, minBalance: real, c: real, k: nat) {
    var s := State(map[user := minBalance], map[]);
    && RunWithin(s, events, user, k, c, minBalance) && AllChecked(events, user)
    && Run(s, events).balance == map[user := minBalance - k as real * c]
  }
}
