/**
 The two-level retry loop of src/gateway/upstream.py: `DoUpstreamCall` falls back across the URL
 candidates of one round, `CallUpstreamTool` runs at most two rounds with a pause between them.

 The upstream is a script that fixes, for each round and URL, how long the handshake and the call
 would take and how the attempt would end; the model adds what the two time budgets do to it.
 */
module RetryEngine {
  import opened Prelude
  import opened CandidateUrls
  import opened ExceptionWalk
  import opened TimeoutAgreement

  const RETRY_MAX_ATTEMPTS: nat := 2
  const RETRY_BACKOFF_SECONDS := 3.0

  /** An exception object together with the graph it lives in. */
  datatype Fault = Fault(g: Graph, exc: nat)

  datatype Outcome = Reply(text: string) | Raise(fault: Fault)

  /** One scripted attempt: what it needs, how it ends in time, and the exception a blown budget raises. */
  datatype Attempt = Attempt(initTime: real, callTime: real, outcome: Outcome, overrun: Fault)

  type Script = (nat, string) -> Attempt

  datatype Budgets = Budgets(toolCall: real, toolList: real)

  ghost predicate WellFormed(f: Fault) {
    Closed(f.g) && f.exc in f.g
  }

  ghost predicate ValidAttempt(a: Attempt) {
    && a.initTime >= 0.0 && a.callTime >= 0.0
    && WellFormed(a.overrun) && (a.outcome.Raise? ==> WellFormed(a.outcome.fault))
  }

  ghost predicate ValidScript(script: Script) {
    forall round, url :: ValidAttempt(script(round, url))
  }

  ghost predicate ValidBudgets(b: Budgets) {
    b.toolCall >= 0.0 && b.toolList >= 0.0
  }

  function CandidateList(url: string): seq<string> {
    FirstOccurrences([url] + Alternates(url))
  }

  /** Only the registered URL gets the full call budget; alternates are probes. */
  function CallBudget(b: Budgets, idx: nat): real {
    if idx == 0 then b.toolCall else b.toolList
  }

  function InitBudget(b: Budgets, idx: nat): real {
    if b.toolList < CallBudget(b, idx) then b.toolList else CallBudget(b, idx)
  }

  /** fail_after on the handshake, then fail_after on the call. */
  function Observed(a: Attempt, b: Budgets, idx: nat): Outcome {
    if a.initTime > InitBudget(b, idx) || a.callTime > CallBudget(b, idx) then Raise(a.overrun) else a.outcome
  }

  function Spent(a: Attempt, b: Budgets, idx: nat): real {
    if a.initTime > InitBudget(b, idx) then InitBudget(b, idx)
    else if a.callTime > CallBudget(b, idx) then a.initTime + CallBudget(b, idx)
    else a.initTime + a.callTime
  }

  function At(script: Script, b: Budgets, urls: seq<string>, round: nat, idx: nat): Outcome
    requires idx < |urls|
  {
    Observed(script(round, urls[idx]), b, idx)
  }

  function SpentInRound(script: Script, b: Budgets, urls: seq<string>, round: nat, tried: nat): real
    requires tried <= |urls|
  {
    if tried == 0 then 0.0
    else SpentInRound(script, b, urls, round, tried - 1)
         + Spent(script(round, urls[tried - 1]), b, tried - 1)
  }

  ghost predicate IsAuth(f: Fault)
    requires f.exc in f.g
  {
    AuthFault(f.g, f.exc)
  }

  /** A fault that lets the next candidate be tried. */
  ghost predicate Transient(f: Fault)
    requires WellFormed(f)
  {
    TimeoutFault(f.g, f.exc) || SessionFault(f.g, f.exc) || MisdirectedFault(f.g, f.exc)
  }

  /** A fault that lets a whole round be repeated. */
  ghost predicate Repeatable(f: Fault)
    requires WellFormed(f)
  {
    && (TimeoutFault(f.g, f.exc) || MisdirectedFault(f.g, f.exc))
    && !SessionFault(f.g, f.exc) && !IsAuth(f)
  }

  /** The classification of an attempt does not end: its fault is no authorisation failure, and the chain check loops on it. */
  ghost predicate Stuck(o: Outcome) {
    o.Raise? && WellFormed(o.fault) && !IsAuth(o.fault) && !ChainCheckHalts(o.fault.g, o.fault.exc)
  }

  /** An attempt after which the same round goes on. */
  ghost predicate PassedOver(o: Outcome) {
    o.Raise? && WellFormed(o.fault) && Transient(o.fault) && !IsAuth(o.fault) && !Stuck(o)
  }

  /** Attempt k of the round is made: all before it are passed over. */
  ghost predicate Reached(script: Script, b: Budgets, urls: seq<string>, round: nat, k: nat) {
    k < |urls| && forall i :: 0 <= i < k ==> PassedOver(At(script, b, urls, round, i))
  }

  /** No attempt made in the round is stuck. */
  ghost predicate RoundEnds(script: Script, b: Budgets, urls: seq<string>, round: nat) {
    forall k :: Reached(script, b, urls, round, k) ==> !Stuck(At(script, b, urls, round, k))
  }

  /** A round that tried the first `tried` candidates, and stopped there for a reason. */
  ghost predicate RoundStops(script: Script, b: Budgets, urls: seq<string>, round: nat, tried: nat) {
    && 1 <= tried <= |urls|
    && (forall i :: 0 <= i < tried - 1 ==> PassedOver(At(script, b, urls, round, i)))
    && !Stuck(At(script, b, urls, round, tried - 1))
    && (PassedOver(At(script, b, urls, round, tried - 1)) ==> tried == |urls|)
  }

  method DoUpstreamCall(script: Script, b: Budgets, url: string, round: nat)
    returns (outcome: Outcome, tried: nat, spent: real)
    requires ValidScript(script) && ValidBudgets(b) && RoundEnds(script, b, CandidateList(url), round)
    ensures RoundStops(script, b, CandidateList(url), round, tried)
    ensures outcome == At(script, b, CandidateList(url), round, tried - 1)
    ensures outcome.Raise? ==> WellFormed(outcome.fault)
    ensures spent == SpentInRound(script, b, CandidateList(url), round, tried)
  {
    var candidates := Candidates(url);
    tried, spent := 0, 0.0;
    while tried < |candidates|
      invariant tried <= |candidates|
      invariant forall i :: 0 <= i < tried ==> PassedOver(At(script, b, candidates, round, i))
      invariant tried > 0 ==> tried < |candidates|
      invariant spent == SpentInRound(script, b, candidates, round, tried)
    {
      var attempt := script(round, candidates[tried]);
      assert ValidAttempt(attempt);
      assert Reached(script, b, candidates, round, tried);
      outcome := Observed(attempt, b, tried);
      spent := spent + Spent(attempt, b, tried);
      tried := tried + 1;
      if outcome.Reply? {
        return;
      }
      var g, exc := outcome.fault.g, outcome.fault.exc;
      var auth := IsAuthError(g, exc);
      if auth {
        return;
      }
      var timeout := IsTimeoutError(g, exc);
      var gone := IsSessionTerminated(g, exc);
      var misdirected := IsMisdirected(g, exc);
      if !(tried < |candidates| && (timeout || gone || misdirected)) {
        return;
      }
    }
    assert false;
  }

  datatype CallResult =
    | Success(text: string)
    | SessionTerminatedError
    | AuthRejectedError
    | Reraised(fault: Fault)

  /** The error a caller sees for the fault that ended the last round. */
  ghost predicate Reports(result: CallResult, f: Fault)
    requires WellFormed(f)
  {
    result == if SessionFault(f.g, f.exc) then SessionTerminatedError
              else if IsAuth(f) then AuthRejectedError
              else Reraised(f)
  }

  ghost predicate EndsWithResult(result: CallResult, last: Outcome) {
    match last
    case Reply(text) => result == Success(text)
    case Raise(f) => WellFormed(f) && Reports(result, f)
  }

  /** The whole call: `tried1` attempts in the first round and, if it is repeated, `tried2` in the second. */
  ghost predicate CallTrace(script: Script, b: Budgets, urls: seq<string>, tried1: nat, tried2: nat, result: CallResult) {
    && RoundStops(script, b, urls, 1, tried1)
    && var last1 := At(script, b, urls, 1, tried1 - 1);
       if IsRepeated(script, b, urls, tried1) then
         && RoundStops(script, b, urls, 2, tried2)
         && EndsWithResult(result, At(script, b, urls, 2, tried2 - 1))
       else
         tried2 == 0 && EndsWithResult(result, last1)
  }

  /** The round is followed by another: its last attempt raised a repeatable fault. */
  ghost predicate IsRepeated(script: Script, b: Budgets, urls: seq<string>, tried: nat) {
    && RoundStops(script, b, urls, 1, tried)
    && var last := At(script, b, urls, 1, tried - 1);
       last.Raise? && WellFormed(last.fault) && Repeatable(last.fault)
  }

  /** No attempt the call makes is stuck, in the first round or in the second if there is one. */
  ghost predicate CallEnds(script: Script, b: Budgets, urls: seq<string>) {
    && RoundEnds(script, b, urls, 1)
    && ((exists tried :: IsRepeated(script, b, urls, tried)) ==> RoundEnds(script, b, urls, 2))
  }

  method CallUpstreamTool(script: Script, b: Budgets, url: string)
    returns (result: CallResult, tried1: nat, tried2: nat, spent: real)
    requires ValidScript(script) && ValidBudgets(b) && CallEnds(script, b, CandidateList(url))
    ensures CallTrace(script, b, CandidateList(url), tried1, tried2, result)
    ensures spent == SpentInRound(script, b, CandidateList(url), 1, tried1)
                     + (if tried2 == 0 then 0.0
                        else RETRY_BACKOFF_SECONDS + SpentInRound(script, b, CandidateList(url), 2, tried2))
  {
    ghost var urls := CandidateList(url);
    tried1, tried2, spent := 0, 0, 0.0;
    var attempt := 1;
    while attempt <= RETRY_MAX_ATTEMPTS
      invariant 1 <= attempt <= 2
      invariant tried2 == 0
      invariant attempt == 1 ==> tried1 == 0 && spent == 0.0
      invariant attempt == 2 ==>
                  && IsRepeated(script, b, urls, tried1)
                  && spent == SpentInRound(script, b, urls, 1, tried1) + RETRY_BACKOFF_SECONDS
      decreases RETRY_MAX_ATTEMPTS - attempt
    {
      var outcome, tried, inRound := DoUpstreamCall(script, b, url, attempt);
      spent := spent + inRound;
      if attempt == 1 { tried1 := tried; } else { tried2 := tried; }
      if outcome.Reply? {
        return Success(outcome.text), tried1, tried2, spent;
      }
      var g, exc := outcome.fault.g, outcome.fault.exc;
      var gone := IsSessionTerminated(g, exc);
      if gone {
        return SessionTerminatedError, tried1, tried2, spent;
      }
      var auth := IsAuthError(g, exc);
      if auth {
        return AuthRejectedError, tried1, tried2, spent;
      }
      var timeout := IsTimeoutError(g, exc);
      var misdirected := IsMisdirected(g, exc);
      if (timeout || misdirected) && attempt < RETRY_MAX_ATTEMPTS {
        spent := spent + RETRY_BACKOFF_SECONDS;
        attempt := attempt + 1;
        continue;
      }
      return Reraised(outcome.fault), tried1, tried2, spent;
    }
    assert false;
  }

  // ---------------------------------------------------------------------------------------------
  // What the trace says
  // ---------------------------------------------------------------------------------------------

  /** The attempts in the order they are made: the first round, then the second. */
  function Attempted(script: Script, b: Budgets, urls: seq<string>, tried1: nat, tried2: nat, k: nat): Outcome
    requires tried1 <= |urls| && tried2 <= |urls| && k < tried1 + tried2
  {
    if k < tried1 then At(script, b, urls, 1, k) else At(script, b, urls, 2, k - tried1)
  }

  /**
   Every attempt before the last raised a transient fault that is no authorisation failure; so a
   success is the first reply, nothing follows an authorisation failure, and there are at most two
   rounds over the candidates.
   */
  lemma OnlyTransientFaultsBeforeTheLast(script: Script, b: Budgets, urls: seq<string>, tried1: nat, tried2: nat, result: CallResult)
    requires CallTrace(script, b, urls, tried1, tried2, result)
    ensures 1 <= tried1 + tried2 <= 2 * |urls|
    ensures forall k :: 0 <= k < tried1 + tried2 - 1 ==> PassedOver(Attempted(script, b, urls, tried1, tried2, k))
    ensures result.Success? <==> Attempted(script, b, urls, tried1, tried2, tried1 + tried2 - 1).Reply?
    ensures result.Success? ==> Attempted(script, b, urls, tried1, tried2, tried1 + tried2 - 1) == Reply(result.text)
  {
  }

  /** The trace conditions leave no choice: a script determines the attempts made and the result. */
  lemma TraceIsUnique(script: Script, b: Budgets, urls: seq<string>, t1: nat, t2: nat, r: CallResult, u1: nat, u2: nat, q: CallResult)
    requires CallTrace(script, b, urls, t1, t2, r)
    requires CallTrace(script, b, urls, u1, u2, q)
    ensures t1 == u1 && t2 == u2 && r == q
  {
    RoundIsUnique(script, b, urls, 1, t1, u1);
    if t2 > 0 {
      RoundIsUnique(script, b, urls, 2, t2, u2);
    }
  }

  lemma RoundIsUnique(script: Script, b: Budgets, urls: seq<string>, round: nat, t: nat, u: nat)
    requires RoundStops(script, b, urls, round, t) && RoundStops(script, b, urls, round, u)
    ensures t == u
  {
  }

  // ---------------------------------------------------------------------------------------------
  // When a call ends
  // ---------------------------------------------------------------------------------------------

  /** Attempt k is the first of the round, from the i-th on, that is not passed over, or the last one. */
  lemma {:induction false} RoundFindsItsEnd(script: Script, b: Budgets, urls: seq<string>, round: nat, i: nat) returns (tried: nat)
    requires RoundEnds(script, b, urls, round) && Reached(script, b, urls, round, i)
    ensures RoundStops(script, b, urls, round, tried)
    decreases |urls| - i
  {
    tried := i + 1;
    if PassedOver(At(script, b, urls, round, i)) && i + 1 < |urls| {
      tried := RoundFindsItsEnd(script, b, urls, round, i + 1);
    }
  }

  /** A round stops, somewhere, if and only if no attempt it makes is stuck. */
  lemma RoundEndsIff(script: Script, b: Budgets, urls: seq<string>, round: nat)
    requires urls != []
    ensures RoundEnds(script, b, urls, round) <==> exists tried :: RoundStops(script, b, urls, round, tried)
  {
    if RoundEnds(script, b, urls, round) {
      var tried := RoundFindsItsEnd(script, b, urls, round, 0);
    }
  }

  /** The whole call has an outcome if and only if no attempt it makes is stuck. */
  lemma CallEndsIff(script: Script, b: Budgets, urls: seq<string>)
    requires ValidScript(script) && urls != []
    ensures CallEnds(script, b, urls)
            <==> exists tried1, tried2, result :: CallTrace(script, b, urls, tried1, tried2, result)
  {
    RoundEndsIff(script, b, urls, 1);
    RoundEndsIff(script, b, urls, 2);
    if CallEnds(script, b, urls) {
      var tried1 :| RoundStops(script, b, urls, 1, tried1);
      if IsRepeated(script, b, urls, tried1) {
        var tried2 :| RoundStops(script, b, urls, 2, tried2);
        var result := ResultOf(script, b, urls, 2, tried2);
        assert CallTrace(script, b, urls, tried1, tried2, result);
      } else {
        var result := ResultOf(script, b, urls, 1, tried1);
        assert CallTrace(script, b, urls, tried1, 0, result);
      }
    } else if tried1: nat, tried2: nat, result :| CallTrace(script, b, urls, tried1, tried2, result) {
      if tried :| IsRepeated(script, b, urls, tried) {
        RoundIsUnique(script, b, urls, 1, tried, tried1);
      }
    }
  }

  /** The result the last attempt of a round leads to. */
  lemma ResultOf(script: Script, b: Budgets, urls: seq<string>, round: nat, tried: nat) returns (result: CallResult)
    requires ValidScript(script) && 1 <= tried <= |urls|
    ensures EndsWithResult(result, At(script, b, urls, round, tried - 1))
  {
    var attempt := script(round, urls[tried - 1]);
    assert ValidAttempt(attempt);
    match At(script, b, urls, round, tried - 1)
    case Reply(text) => result := Success(text);
    case Raise(f) =>
      result := if SessionFault(f.g, f.exc) then SessionTerminatedError else if IsAuth(f) then AuthRejectedError else Reraised(f);
  }

  /**
   An attempt is stuck exactly when its fault is no authorisation failure and its chain is cyclic, holds
   no timeout below the top, and has neither a timeout nor a cancellation at the top.
   */
  lemma StuckIff(o: Outcome)
    requires o.Raise? && WellFormed(o.fault)
    ensures var g, exc := o.fault.g, o.fault.exc;
            Stuck(o) <==> !IsAuth(o.fault) && !StopsAtTop(g[exc]) && !TimeoutBelow(g, exc) && !ChainAcyclic(g, exc)
  {
    ChainCheckHaltsIff(o.fault.g, o.fault.exc);
  }

  // ---------------------------------------------------------------------------------------------
  // Timeouts the chain check misses
  // ---------------------------------------------------------------------------------------------

  /** The walk finds a timeout in the fault, and nothing else about it decides whether to go on. */
  ghost predicate OnlyATimeout(f: Fault)
    requires WellFormed(f)
  {
    HasTimeout(f.g, f.exc) && !IsAuth(f) && !SessionFault(f.g, f.exc) && !MisdirectedFault(f.g, f.exc)
  }

  /** Where the chain check can see it: cancelled at the top, or a reachable timeout on the chain. */
  ghost predicate TimeoutInSight(f: Fault)
    requires WellFormed(f)
  {
    f.g[f.exc].facts.isCancelled
    || exists n :: n in f.g && Reachable(f.g, f.exc, n) && IsTimeout(f.g[n]) && OnItsChain(f.g, f.exc, n)
  }

  /** A timeout leads to the next candidate, and to a second round, if and only if the chain check can see it. */
  lemma TimeoutRetriedIff(f: Fault)
    requires WellFormed(f) && OnlyATimeout(f)
    ensures PassedOver(Raise(f)) <==> TimeoutInSight(f)
    ensures Repeatable(f) <==> TimeoutInSight(f)
  {
    CheckAgreesWithWalk(f.g, f.exc);
    ChainCheckHaltsIff(f.g, f.exc);
  }

  /** A timeout out of sight ends the call at once: no further candidate, no second round, and the fault is reraised. */
  lemma HiddenTimeoutEndsTheCall(script: Script, b: Budgets, urls: seq<string>, k: nat, f: Fault, tried1: nat, tried2: nat, result: CallResult)
    requires CallTrace(script, b, urls, tried1, tried2, result) && Reached(script, b, urls, 1, k)
    requires At(script, b, urls, 1, k) == Raise(f) && WellFormed(f) && OnlyATimeout(f) && !TimeoutInSight(f)
    ensures tried1 == k + 1 && tried2 == 0 && result == Reraised(f)
  {
    TimeoutRetriedIff(f);
    assert !PassedOver(At(script, b, urls, 1, k));
  }

  // ---------------------------------------------------------------------------------------------
  // How long a call takes
  // ---------------------------------------------------------------------------------------------

  /** The time one round may take: the registered URL's budgets, then two list budgets for each probe. */
  function RoundBudget(b: Budgets, tried: nat): real {
    if tried == 0 then 0.0
    else RoundBudget(b, tried - 1) + InitBudget(b, tried - 1) + CallBudget(b, tried - 1)
  }

  lemma {:induction false} RoundWithinBudget(script: Script, b: Budgets, urls: seq<string>, round: nat, tried: nat)
    requires ValidScript(script) && ValidBudgets(b) && tried <= |urls|
    ensures SpentInRound(script, b, urls, round, tried) <= RoundBudget(b, tried)
  {
    if tried > 0 {
      RoundWithinBudget(script, b, urls, round, tried - 1);
      assert ValidAttempt(script(round, urls[tried - 1]));
    }
  }

  lemma {:induction false} RoundBudgetClosedForm(b: Budgets, tried: nat)
    requires ValidBudgets(b) && tried >= 1
    ensures RoundBudget(b, tried) == InitBudget(b, 0) + b.toolCall + (tried - 1) as real * (2.0 * b.toolList)
  {
    if tried == 1 {
      assert RoundBudget(b, 0) == 0.0;
    } else {
      RoundBudgetClosedForm(b, tried - 1);
      assert InitBudget(b, tried - 1) == CallBudget(b, tried - 1) == b.toolList;
    }
  }

  lemma {:induction false} RoundBudgetMonotone(b: Budgets, tried: nat, all: nat)
    requires ValidBudgets(b) && tried <= all
    ensures RoundBudget(b, tried) <= RoundBudget(b, all)
  {
    if tried < all { RoundBudgetMonotone(b, tried, all - 1); }
  }

  /** The whole call spends at most two rounds of budgets and one pause. */
  lemma CallWithinBudget(script: Script, b: Budgets, urls: seq<string>, tried1: nat, tried2: nat, result: CallResult)
    requires ValidScript(script) && ValidBudgets(b) && CallTrace(script, b, urls, tried1, tried2, result)
    ensures SpentInRound(script, b, urls, 1, tried1) + RETRY_BACKOFF_SECONDS + SpentInRound(script, b, urls, 2, tried2)
            <= 2.0 * RoundBudget(b, |urls|) + RETRY_BACKOFF_SECONDS
  {
    var n := |urls|;
    RoundWithinBudget(script, b, urls, 1, tried1);
    RoundBudgetMonotone(b, tried1, n);
    RoundWithinBudget(script, b, urls, 2, tried2);
    RoundBudgetMonotone(b, tried2, n);
  }

  /** With the default budgets of 120 and 15 seconds no call spends more than 513 seconds. */
  lemma DefaultCallWithin513Seconds(script: Script, urls: seq<string>, tried1: nat, tried2: nat, result: CallResult)
    requires ValidScript(script) && |urls| <= 5
    requires CallTrace(script, Budgets(120.0, 15.0), urls, tried1, tried2, result)
    ensures SpentInRound(script, Budgets(120.0, 15.0), urls, 1, tried1) + RETRY_BACKOFF_SECONDS
            + SpentInRound(script, Budgets(120.0, 15.0), urls, 2, tried2) <= 513.0
  {
    var b := Budgets(120.0, 15.0);
    CallWithinBudget(script, b, urls, tried1, tried2, result);
    OnlyTransientFaultsBeforeTheLast(script, b, urls, tried1, tried2, result);
    RoundBudgetMonotone(b, |urls|, 5);
    RoundBudgetClosedForm(b, 5);
  }
}
