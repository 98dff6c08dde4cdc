/**
 When the single-chain timeout check of src/gateway/upstream.py and the walk agree.

 The check follows `__cause__ or __context__`; the walk also enters group members, and the context
 beside a cause.  Whether a timeout can be missed is a matter of the graph's shape alone: its nodes,
 members, causes and contexts, whatever the exceptions are.
 */
module TimeoutAgreement {
  import opened Prelude
  import opened ExceptionWalk

  /** The walk finds a timeout. */
  ghost predicate HasTimeout(g: Graph, exc: nat) {
    exists n :: n in g && Reachable(g, exc, n) && IsTimeout(g[n])
  }

  /** The same exceptions and links, whatever the exceptions are. */
  ghost predicate SameShape(g: Graph, h: Graph) {
    g.Keys == h.Keys
    && forall n :: n in g ==>
         && h[n].isGroup == g[n].isGroup && h[n].members == g[n].members
         && h[n].cause == g[n].cause && h[n].context == g[n].context
  }

  ghost predicate OnItsChain(g: Graph, exc: nat, n: nat)
    requires Closed(g) && exc in g
  {
    exists i :: OnChain(g, exc, n, i)
  }

  /** Every exception reachable from exc lies on its chain. */
  ghost predicate ChainCovers(g: Graph, exc: nat)
    requires Closed(g) && exc in g
  {
    forall n :: Reachable(g, exc, n) ==> OnItsChain(g, exc, n)
  }

  /** The chain leaves nothing behind: members, causes and contexts of its exceptions are on it. */
  ghost predicate ChainClosed(g: Graph, exc: nat)
    requires Closed(g) && exc in g
  {
    forall n, m :: n in g && OnItsChain(g, exc, n) && m in Successors(g, n) ==> OnItsChain(g, exc, m)
  }

  // ---------------------------------------------------------------------------------------------
  // Shape
  // ---------------------------------------------------------------------------------------------

  lemma ShapeKeepsSuccessors(g: Graph, h: Graph)
    requires SameShape(g, h)
    ensures forall n :: n in g ==> Successors(h, n) == Successors(g, n)
    ensures Closed(g) ==> Closed(h)
  {
  }

  lemma ShapeKeepsReachable(g: Graph, h: Graph, a: nat, b: nat)
    requires SameShape(g, h) && Reachable(g, a, b)
    ensures Reachable(h, a, b)
  {
    ShapeKeepsSuccessors(g, h);
    var p :| PathBetween(g, p, a, b);
    assert PathBetween(h, p, a, b);
  }

  lemma {:induction false} ShapeKeepsChain(g: Graph, h: Graph, exc: nat, i: nat)
    requires Closed(g) && Closed(h) && SameShape(g, h) && exc in g
    ensures ChainAt(h, exc, i) == ChainAt(g, exc, i)
  {
    if i > 0 {
      ShapeKeepsChain(g, h, exc, i - 1);
    }
  }

  lemma SameShapeSameChain(g: Graph, h: Graph, exc: nat)
    requires Closed(g) && Closed(h) && SameShape(g, h) && exc in g
    ensures forall i: nat :: ChainAt(h, exc, i) == ChainAt(g, exc, i)
    ensures forall n :: OnItsChain(h, exc, n) <==> OnItsChain(g, exc, n)
    ensures ChainAcyclic(h, exc) <==> ChainAcyclic(g, exc)
  {
    forall i: nat ensures ChainAt(h, exc, i) == ChainAt(g, exc, i) {
      ShapeKeepsChain(g, h, exc, i);
    }
    forall n ensures OnItsChain(h, exc, n) <==> OnItsChain(g, exc, n) {
      if i :| OnChain(g, exc, n, i) {
        assert OnChain(h, exc, n, i);
      }
      if i :| OnChain(h, exc, n, i) {
        assert OnChain(g, exc, n, i);
      }
    }
  }

  // ---------------------------------------------------------------------------------------------
  // What lies off the chain can be missed
  // ---------------------------------------------------------------------------------------------

  const PLAIN := Facts(false, false, false, None, false, false, false)
  const TIMEOUT := PLAIN.(isTimeoutError := true)

  /** The graph of that shape whose only remarkable exception is a TimeoutError at n. */
  function OnlyTimeout(g: Graph, n: nat): Graph {
    map k | k in g :: g[k].(facts := if k == n then TIMEOUT else PLAIN)
  }

  /**
   A timeout anywhere off the chain is found by the walk and missed by the check, which returns False
   whenever the chain ends.
   */
  lemma OffChainTimeoutIsMissed(g: Graph, exc: nat, n: nat)
    requires Closed(g) && exc in g && Reachable(g, exc, n) && !OnItsChain(g, exc, n)
    ensures var h := OnlyTimeout(g, n);
            && SameShape(g, h) && Closed(h) && HasTimeout(h, exc) && !TimeoutFault(h, exc)
            && (ChainCheckHalts(h, exc) <==> ChainAcyclic(g, exc))
  {
    var h := OnlyTimeout(g, n);
    ShapeKeepsSuccessors(g, h);
    SameShapeSameChain(g, h, exc);
    ShapeKeepsReachable(g, h, exc, n);
    ReachableInGraph(g, exc);
    assert n in h && Reachable(h, exc, n) && IsTimeout(h[n]);
    assert OnChain(g, exc, exc, 0);
    forall i: nat | ChainAt(h, exc, i).Some? ensures !IsTimeout(h[ChainAt(h, exc, i).value]) {
      assert OnChain(g, exc, ChainAt(h, exc, i).value, i);
    }
    ChainCheckHaltsIff(h, exc);
  }

  lemma CoveredTimeoutIsFound(g: Graph, h: Graph, exc: nat)
    requires Closed(g) && exc in g && ChainCovers(g, exc) && SameShape(g, h) && Closed(h) && HasTimeout(h, exc)
    ensures TimeoutFault(h, exc)
  {
    var n :| n in h && Reachable(h, exc, n) && IsTimeout(h[n]);
    ShapeKeepsReachable(h, g, exc, n);
    SameShapeSameChain(g, h, exc);
    var i :| OnChain(h, exc, n, i);
    assert i == 0 ==> n == exc;
  }

  /** Some exceptions on this shape make the walk find a timeout that the check misses. */
  ghost predicate CanMiss(g: Graph, exc: nat)
    requires Closed(g) && exc in g
  {
    exists h :: SameShape(g, h) && Closed(h) && HasTimeout(h, exc) && !TimeoutFault(h, exc)
  }

  /**
   The check can miss no timeout the walk finds, whatever the exceptions are, if and only if every
   reachable exception lies on the chain.
   */
  lemma ChainCoversIff(g: Graph, exc: nat)
    requires Closed(g) && exc in g
    ensures ChainCovers(g, exc) <==> !CanMiss(g, exc)
  {
    if ChainCovers(g, exc) {
      forall h | SameShape(g, h) && Closed(h) && HasTimeout(h, exc) ensures TimeoutFault(h, exc) {
        CoveredTimeoutIsFound(g, h, exc);
      }
    } else {
      var n :| Reachable(g, exc, n) && !OnItsChain(g, exc, n);
      OffChainTimeoutIsMissed(g, exc, n);
    }
  }

  /** The same condition, link by link: no exception on the chain has a member, a cause or a context off it. */
  lemma ChainCoversIffClosed(g: Graph, exc: nat)
    requires Closed(g) && exc in g
    ensures ChainCovers(g, exc) <==> ChainClosed(g, exc)
  {
    if ChainCovers(g, exc) {
      forall n, m | n in g && OnItsChain(g, exc, n) && m in Successors(g, n) ensures OnItsChain(g, exc, m) {
        var i :| OnChain(g, exc, n, i);
        ChainReachable(g, exc, i);
        ReachableStep(g, exc, n, m);
      }
    } else if ChainClosed(g, exc) {
      var inside := set n | n in g && OnItsChain(g, exc, n);
      assert OnChain(g, exc, exc, 0);
      forall n | Reachable(g, exc, n) ensures OnItsChain(g, exc, n) {
        var p :| PathBetween(g, p, exc, n);
        PathStaysInside(g, p, inside, |p| - 1);
      }
    }
  }

  /**
   For given exceptions: the check answers True if and only if the top is a timeout or cancelled, or a
   timeout the walk finds lies on the chain.  So where the chain covers everything, it differs from
   the walk only in a cancellation at the top.
   */
  lemma CheckAgreesWithWalk(g: Graph, exc: nat)
    requires Closed(g) && exc in g
    ensures TimeoutFault(g, exc)
            <==> g[exc].facts.isCancelled
                 || exists n :: n in g && Reachable(g, exc, n) && IsTimeout(g[n]) && OnItsChain(g, exc, n)
    ensures ChainCovers(g, exc) ==> (TimeoutFault(g, exc) <==> g[exc].facts.isCancelled || HasTimeout(g, exc))
  {
    assert OnChain(g, exc, exc, 0);
    ReachableSelf(g, exc);
    if TimeoutBelow(g, exc) {
      var i: nat :| i > 0 && ChainAt(g, exc, i).Some? && IsTimeout(g[ChainAt(g, exc, i).value]);
      ChainReachable(g, exc, i);
      assert OnChain(g, exc, ChainAt(g, exc, i).value, i);
    }
    if n :| n in g && Reachable(g, exc, n) && IsTimeout(g[n]) && OnItsChain(g, exc, n) {
      var i :| OnChain(g, exc, n, i);
      assert i == 0 ==> n == exc;
    }
  }

  // ---------------------------------------------------------------------------------------------
  // The two ways off the chain
  // ---------------------------------------------------------------------------------------------

  /** A timeout that is only the member of a group. */
  lemma GroupHidesTimeoutFromChain(g: Graph)
    requires g == map[0 := Exc(PLAIN, true, [1], None, None), 1 := Exc(TIMEOUT, false, [], None, None)]
    ensures Closed(g) && HasTimeout(g, 0) && ChainCheckHalts(g, 0) && !TimeoutFault(g, 0)
  {
    assert Successors(g, 0) == {1} && Successors(g, 1) == {};
    ReachableSelf(g, 0);
    ReachableStep(g, 0, 0, 1);
    assert ChainAt(g, 0, 0) == Some(0) && StopsAt(g, 0, 1);
    forall i: nat | i > 0 ensures ChainAt(g, 0, i).None? {
      ChainEndsForGood(g, 0, 1, i);
    }
  }

  /** A timeout in the context of an exception that also has a cause, without any group. */
  lemma CauseHidesContextFromChain(g: Graph)
    requires g == map[0 := Exc(PLAIN, false, [], Some(1), Some(2)), 1 := Exc(PLAIN, false, [], None, None),
                      2 := Exc(TIMEOUT, false, [], None, None)]
    ensures Closed(g) && HasTimeout(g, 0) && ChainCheckHalts(g, 0) && !TimeoutFault(g, 0)
  {
    assert Successors(g, 0) == {1, 2} && Successors(g, 1) == {} && Successors(g, 2) == {};
    ReachableSelf(g, 0);
    ReachableStep(g, 0, 0, 2);
    assert ChainAt(g, 0, 0) == Some(0) && ChainAt(g, 0, 1) == Some(1) && StopsAt(g, 0, 2);
    forall i: nat | i > 1 ensures ChainAt(g, 0, i).None? {
      ChainEndsForGood(g, 0, 2, i);
    }
  }

  // ---------------------------------------------------------------------------------------------
  // The links each search follows
  // ---------------------------------------------------------------------------------------------

  /** The walk goes from an exception to the members of a group, to its cause and to its context, and nowhere else. */
  lemma WalkFollows(g: Graph, n: nat, m: nat)
    requires n in g
    ensures m in Successors(g, n) <==> (g[n].isGroup && m in g[n].members) || g[n].cause == Some(m) || g[n].context == Some(m)
  {
  }

  /** The chain goes from an exception to its cause, to its context if it has no cause, and ends at one without either. */
  lemma ChainFollows(g: Graph, exc: nat, n: nat, i: nat)
    requires Closed(g) && exc in g && ChainAt(g, exc, i) == Some(n)
    ensures g[n].cause.Some? ==> ChainAt(g, exc, i + 1) == g[n].cause
    ensures g[n].cause.None? ==> ChainAt(g, exc, i + 1) == g[n].context
  {
  }

  /** A timeout of either class directly below the top is seen as the cause, or as the context where there is no cause. */
  lemma DirectTimeoutIsSeen(g: Graph, exc: nat, n: nat)
    requires Closed(g) && exc in g && n in g && (g[n].facts.isTimeoutError || g[n].facts.isHttpxTimeout)
    requires g[exc].cause == Some(n) || (g[exc].cause.None? && g[exc].context == Some(n))
    ensures TimeoutFault(g, exc)
  {
    assert ChainAt(g, exc, 0) == Some(exc);
    ChainFollows(g, exc, exc, 0);
    assert ChainAt(g, exc, 1) == Some(n);
  }
}
