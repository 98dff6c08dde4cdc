/**
 What the retry loop of src/gateway/upstream.py makes of one attempt, one fault and one round: said of
 times, statuses and phrases themselves.
 */
module RetryOutcomes {
  import opened Prelude
  import opened ExceptionWalk
  import opened TimeoutAgreement
  import opened RetryEngine

  /**
   An attempt ends as the upstream ends it if the handshake keeps to the list budget, and to the call
   budget where that is shorter, and the call to its budget: the call budget for the registered URL, the
   list budget for a probe.  A blown budget cuts it off there.
   */
  lemma AttemptOutcome(a: Attempt, b: Budgets, idx: nat)
    ensures var call := if idx == 0 then b.toolCall else b.toolList;
            var handshake := if b.toolList < call then b.toolList else call;
            && (a.initTime <= handshake && a.callTime <= call ==>
                  Observed(a, b, idx) == a.outcome && Spent(a, b, idx) == a.initTime + a.callTime)
            && (a.initTime > handshake ==> Observed(a, b, idx) == Raise(a.overrun) && Spent(a, b, idx) == handshake)
            && (a.initTime <= handshake && a.callTime > call ==>
                  Observed(a, b, idx) == Raise(a.overrun) && Spent(a, b, idx) == a.initTime + call)
  {
  }

  // ---------------------------------------------------------------------------------------------
  // Faults
  // ---------------------------------------------------------------------------------------------

  ghost predicate ReachesStatus(f: Fault, status: int) {
    exists n :: n in f.g && Reachable(f.g, f.exc, n) && f.g[n].facts.httpStatus == Some(status)
  }

  ghost predicate ReachesPhrase(f: Fault) {
    exists n :: n in f.g && Reachable(f.g, f.exc, n) && f.g[n].facts.saysSessionGone
  }

  /** The session is gone: a 404, or the phrase, anywhere. */
  ghost predicate Gone(f: Fault) {
    ReachesStatus(f, 404) || ReachesPhrase(f)
  }

  /** The token is refused: a 401 anywhere, or the phrase at the top. */
  ghost predicate Refused(f: Fault)
    requires WellFormed(f)
  {
    ReachesStatus(f, 401) || f.g[f.exc].facts.says401Unauthorized
  }

  /** The wrong server answered: a 421 anywhere, or the phrase at the top. */
  ghost predicate WrongServer(f: Fault)
    requires WellFormed(f)
  {
    ReachesStatus(f, 421) || f.g[f.exc].facts.says421Misdirected
  }

  /** A cancellation at the top, or a timeout of either class on the chain. */
  ghost predicate TimedOut(f: Fault)
    requires WellFormed(f)
  {
    f.g[f.exc].facts.isCancelled
    || exists n :: && n in f.g && OnItsChain(f.g, f.exc, n)
                   && (f.g[n].facts.isTimeoutError || f.g[n].facts.isHttpxTimeout)
  }

  lemma TimedOutIff(f: Fault)
    requires WellFormed(f)
    ensures TimeoutFault(f.g, f.exc) <==> TimedOut(f)
  {
    CheckAgreesWithWalk(f.g, f.exc);
    if n :| n in f.g && OnItsChain(f.g, f.exc, n) && (f.g[n].facts.isTimeoutError || f.g[n].facts.isHttpxTimeout) {
      var i :| OnChain(f.g, f.exc, n, i);
      ChainReachable(f.g, f.exc, i);
    }
  }

  lemma SessionFaultIff(f: Fault)
    ensures SessionFault(f.g, f.exc) <==> Gone(f)
  {
  }

  /**
   The next candidate is tried exactly after a fault that is not refused and is timed out, gone or at
   the wrong server, and whose chain check returns.
   */
  lemma PassedOverIff(f: Fault)
    requires WellFormed(f)
    ensures PassedOver(Raise(f))
            <==> !Refused(f) && (TimedOut(f) || ((Gone(f) || WrongServer(f)) && ChainAcyclic(f.g, f.exc)))
  {
    TimedOutIff(f);
    SessionFaultIff(f);
    ChainCheckHaltsIff(f.g, f.exc);
  }

  /** A whole round is repeated exactly after a fault that is timed out or at the wrong server, and neither gone nor refused. */
  lemma RepeatableIff(f: Fault)
    requires WellFormed(f)
    ensures Repeatable(f) <==> (TimedOut(f) || WrongServer(f)) && !Gone(f) && !Refused(f)
  {
    TimedOutIff(f);
    SessionFaultIff(f);
  }

  // ---------------------------------------------------------------------------------------------
  // Results
  // ---------------------------------------------------------------------------------------------

  /** What the caller sees for the last attempt: a reply, or one of three errors, a gone session before a refused token. */
  lemma ResultOfCall(script: Script, b: Budgets, urls: seq<string>, tried1: nat, tried2: nat, result: CallResult)
    requires CallTrace(script, b, urls, tried1, tried2, result)
    ensures match Attempted(script, b, urls, tried1, tried2, tried1 + tried2 - 1)
            case Reply(text) => result == Success(text)
            case Raise(f) =>
              && WellFormed(f)
              && (Gone(f) ==> result == SessionTerminatedError)
              && (!Gone(f) && Refused(f) ==> result == AuthRejectedError)
              && (!Gone(f) && !Refused(f) ==> result == Reraised(f))
  {
    match Attempted(script, b, urls, tried1, tried2, tried1 + tried2 - 1)
    case Reply(_) =>
    case Raise(f) => SessionFaultIff(f);
  }

  /** There is a second round exactly if the first ended with a fault that is repeated. */
  lemma SecondRoundIff(script: Script, b: Budgets, urls: seq<string>, tried1: nat, tried2: nat, result: CallResult)
    requires CallTrace(script, b, urls, tried1, tried2, result)
    ensures tried2 > 0
            <==> match At(script, b, urls, 1, tried1 - 1)
                 case Reply(_) => false
                 case Raise(f) => WellFormed(f) && (TimedOut(f) || WrongServer(f)) && !Gone(f) && !Refused(f)
  {
    match At(script, b, urls, 1, tried1 - 1)
    case Reply(_) =>
    case Raise(f) =>
      if WellFormed(f) {
        RepeatableIff(f);
      }
  }

  /** A round stops early only at a reply or a fault that does not let the next candidate be tried. */
  lemma RoundStopsIff(script: Script, b: Budgets, urls: seq<string>, round: nat, tried: nat)
    requires RoundStops(script, b, urls, round, tried) && tried < |urls|
    ensures match At(script, b, urls, round, tried - 1)
            case Reply(_) => true
            case Raise(f) => WellFormed(f) ==> Refused(f) || !(TimedOut(f) || Gone(f) || WrongServer(f))
  {
    match At(script, b, urls, round, tried - 1)
    case Reply(_) =>
    case Raise(f) =>
      if WellFormed(f) {
        PassedOverIff(f);
        ChainCheckHaltsIff(f.g, f.exc);
        TimedOutIff(f);
      }
  }

  // ---------------------------------------------------------------------------------------------
  // The longest call
  // ---------------------------------------------------------------------------------------------

  const BLOWN := Fault(map[0 := Exc(TIMEOUT, false, [], None, None)], 0)

  /** Every handshake takes the whole list budget, and every call too long. */
  function Slow(round: nat, url: string): Attempt {
    Attempt(15.0, 121.0, Reply(""), BLOWN)
  }

  lemma BlownIsRepeated()
    ensures WellFormed(BLOWN) && PassedOver(Raise(BLOWN)) && Repeatable(BLOWN)
    ensures !Gone(BLOWN) && !Refused(BLOWN)
  {
    assert Successors(BLOWN.g, 0) == {};
    ReachableInGraph(BLOWN.g, 0);
    assert BLOWN.g[0].facts == TIMEOUT;
    assert StopsAtTop(BLOWN.g[0]);
    SessionFaultIff(BLOWN);
  }

  lemma SlowRound(urls: seq<string>, round: nat)
    requires |urls| == 5
    ensures RoundStops(Slow, Budgets(120.0, 15.0), urls, round, 5)
    ensures At(Slow, Budgets(120.0, 15.0), urls, round, 4) == Raise(BLOWN)
    ensures SpentInRound(Slow, Budgets(120.0, 15.0), urls, round, 5) == 255.0
  {
    var b := Budgets(120.0, 15.0);
    BlownIsRepeated();
    forall i: nat | i < 5 ensures At(Slow, b, urls, round, i) == Raise(BLOWN) {
    }
    assert SpentInRound(Slow, b, urls, round, 1) == 135.0;
    assert SpentInRound(Slow, b, urls, round, 2) == 165.0;
    assert SpentInRound(Slow, b, urls, round, 3) == 195.0;
    assert SpentInRound(Slow, b, urls, round, 4) == 225.0;
  }

  /** With five candidates and the default settings a call can take all of the 513 seconds. */
  lemma LongestCallTakes513Seconds(urls: seq<string>)
    requires |urls| == 5
    ensures var b := Budgets(120.0, 15.0);
            && CallTrace(Slow, b, urls, 5, 5, Reraised(BLOWN))
            && SpentInRound(Slow, b, urls, 1, 5) + RETRY_BACKOFF_SECONDS + SpentInRound(Slow, b, urls, 2, 5) == 513.0
  {
    BlownIsRepeated();
    SlowRound(urls, 1);
    SlowRound(urls, 2);
    SessionFaultIff(BLOWN);
  }
}
