/**
 The exception walk and the error classifiers of src/gateway/upstream.py.

 An exception is a node of a finite graph that may be cyclic: it may be a group with members, and
 it may carry a cause and a context.
 */
module ExceptionWalk {
  import opened Prelude

  /** What the classifiers look at: the class of the exception, its HTTP status and phrases in its lowered text. */
  datatype Facts = Facts(
    isTimeoutError: bool,            // builtin TimeoutError
    isHttpxTimeout: bool,            // httpx.TimeoutException, which is not a TimeoutError
    isCancelled: bool,               // anyio's cancellation class
    httpStatus: Option<int>,         // response status of an httpx.HTTPStatusError
    saysSessionGone: bool,           // "session terminated" or "session not found"
    says401Unauthorized: bool,       // "401" with "unauthorized" or "authentication"
    says421Misdirected: bool         // "421" with "misdirected"
  )

  datatype Exc = Exc(facts: Facts, isGroup: bool, members: seq<nat>, cause: Option<nat>, context: Option<nat>)

  type Graph = map<nat, Exc>

  ghost function Successors(g: Graph, n: nat): set<nat>
    requires n in g
  {
    (if g[n].isGroup then set m | m in g[n].members else {})
    + (if g[n].cause.Some? then {g[n].cause.value} else {})
    + (if g[n].context.Some? then {g[n].context.value} else {})
  }

  ghost predicate Closed(g: Graph) {
    forall n, m :: n in g && m in Successors(g, n) ==> m in g
  }

  ghost predicate Path(g: Graph, p: seq<nat>) {
    && p != [] && (forall i :: 0 <= i < |p| ==> p[i] in g)
    && forall i, j :: 0 <= i < |p| - 1 && j == i + 1 ==> p[j] in Successors(g, p[i])
  }

  ghost predicate PathBetween(g: Graph, p: seq<nat>, a: nat, b: nat) {
    Path(g, p) && p[0] == a && p[|p| - 1] == b
  }

  ghost predicate Reachable(g: Graph, a: nat, b: nat) {
    exists p :: PathBetween(g, p, a, b)
  }

  lemma ReachableSelf(g: Graph, a: nat)
    requires a in g
    ensures Reachable(g, a, a)
  {
    assert PathBetween(g, [a], a, a);
  }

  lemma ReachableStep(g: Graph, a: nat, b: nat, c: nat)
    requires Closed(g) && b in g && Reachable(g, a, b) && c in Successors(g, b)
    ensures Reachable(g, a, c)
  {
    var p :| PathBetween(g, p, a, b);
    assert PathBetween(g, p + [c], a, c);
  }

  /** A set that holds the start and the successors of each of its nodes holds the whole path. */
  lemma {:induction false} PathStaysInside(g: Graph, p: seq<nat>, inside: set<nat>, i: nat)
    requires Path(g, p) && p[0] in inside && i < |p|
    requires forall n :: n in inside ==> n in g && Successors(g, n) <= inside
    ensures p[i] in inside
  {
    if i > 0 {
      PathStaysInside(g, p, inside, i - 1);
      assert p[(i - 1) + 1] in Successors(g, p[i - 1]);
    }
  }

  ghost predicate NoDuplicates(s: seq<nat>) {
    forall i, j :: 0 <= i < j < |s| ==> s[i] != s[j]
  }

  /** Where the walk stands: what it has yielded and what is still on the stack. */
  ghost predicate WalkInvariant(g: Graph, exc: nat, visited: seq<nat>, stack: seq<nat>)
  {
    && NoDuplicates(visited)
    && (forall n :: n in stack || n in visited ==> n in g && Reachable(g, exc, n))
    && (forall n, m :: n in visited && m in Successors(g, n) ==> m in visited || m in stack)
    && if visited == [] then stack == [exc] else visited[0] == exc
  }

  /** The worklist walk: every reachable exception, each once, the start first. */
  method Walk(g: Graph, exc: nat) returns (visited: seq<nat>)
    requires Closed(g) && exc in g
    ensures NoDuplicates(visited)
    ensures forall n :: n in visited <==> Reachable(g, exc, n)
    ensures visited != [] && visited[0] == exc
  {
    var seen: set<nat> := {};
    var stack := [exc];
    visited := [];
    ReachableSelf(g, exc);
    while stack != []
      invariant WalkInvariant(g, exc, visited, stack)
      invariant seen <= g.Keys && forall n :: n in seen <==> n in visited
      decreases |g.Keys - seen|, |stack|
    {
      var cur := stack[|stack| - 1];
      assert stack == stack[..|stack| - 1] + [cur];
      stack := stack[..|stack| - 1];
      if cur in seen {
        SkipKeepsInvariant(g, exc, visited, stack, cur);
        continue;
      }
      SmallerSet(g.Keys - (seen + {cur}), g.Keys - seen);
      VisitKeepsInvariant(g, exc, visited, stack, cur);
      seen := seen + {cur};
      visited := visited + [cur];
      stack := Push(g, stack, cur);
    }
    WalkIsComplete(g, exc, visited);
  }

  lemma SmallerSet(a: set<nat>, b: set<nat>)
    requires a < b
    ensures |a| < |b|
  {
    assert b == a + (b - a);
    assert b - a != {};
  }

  /** The stack after the members, the cause and the context of a node are pushed. */
  function Push(g: Graph, stack: seq<nat>, cur: nat): (pushed: seq<nat>)
    requires cur in g
    ensures forall m :: m in pushed <==> m in stack || m in Successors(g, cur)
  {
    stack + (if g[cur].isGroup then g[cur].members else [])
    + (if g[cur].cause.Some? then [g[cur].cause.value] else [])
    + (if g[cur].context.Some? then [g[cur].context.value] else [])
  }

  lemma SkipKeepsInvariant(g: Graph, exc: nat, visited: seq<nat>, below: seq<nat>, cur: nat)
    requires WalkInvariant(g, exc, visited, below + [cur]) && cur in visited
    ensures WalkInvariant(g, exc, visited, below)
  {
    forall n, m | n in visited && m in Successors(g, n) ensures m in visited || m in below {
      assert m in visited || m in below + [cur];
    }
    forall n | n in below ensures n in g && Reachable(g, exc, n) {
      assert n in below + [cur];
    }
  }

  lemma VisitKeepsInvariant(g: Graph, exc: nat, visited: seq<nat>, below: seq<nat>, cur: nat)
    requires Closed(g) && cur in g
    requires WalkInvariant(g, exc, visited, below + [cur]) && cur !in visited
    ensures WalkInvariant(g, exc, visited + [cur], Push(g, below, cur))
  {
    var stack := Push(g, below, cur);
    assert cur in below + [cur];
    forall n | n in stack || n in visited + [cur] ensures n in g && Reachable(g, exc, n) {
      if n in Successors(g, cur) {
        ReachableStep(g, exc, cur, n);
      } else {
        assert n in below + [cur] || n in visited;
      }
    }
    forall n, m | n in visited + [cur] && m in Successors(g, n) ensures m in visited + [cur] || m in stack {
      if n != cur {
        assert m in visited || m in below + [cur];
      }
    }
    if visited == [] {
      assert (below + [cur])[|below|] == cur;
    }
  }

  /** With an empty stack the yielded nodes are all the reachable ones. */
  lemma WalkIsComplete(g: Graph, exc: nat, visited: seq<nat>)
    requires WalkInvariant(g, exc, visited, [])
    ensures forall n :: n in visited <==> Reachable(g, exc, n)
  {
    var inside := set n | n in visited;
    forall n | Reachable(g, exc, n) ensures n in visited {
      var p :| PathBetween(g, p, exc, n);
      PathStaysInside(g, p, inside, |p| - 1);
    }
  }

  // ---------------------------------------------------------------------------------------------
  // Classifiers over the walk
  // ---------------------------------------------------------------------------------------------

  predicate IsTimeout(e: Exc) {
    e.facts.isTimeoutError || e.facts.isHttpxTimeout
  }

  /** What the search hands back: a TimeoutError it found, or a new one raised from the httpx timeout it found. */
  datatype TimeoutFound = Itself(node: nat) | Wrapping(node: nat)

  /** The first timeout in walk order, or None. */
  method ExtractTimeoutFromGroup(g: Graph, exc: nat) returns (found: Option<TimeoutFound>)
    requires Closed(g) && exc in g
    ensures found.None? <==> forall n :: n in g && Reachable(g, exc, n) ==> !IsTimeout(g[n])
    ensures found.Some? ==>
              && found.value.node in g && Reachable(g, exc, found.value.node) && IsTimeout(g[found.value.node])
              && (found.value.Itself? <==> g[found.value.node].facts.isTimeoutError)
    ensures IsTimeout(g[exc]) ==> found.Some? && found.value.node == exc
  {
    var nodes := Walk(g, exc);
    ReachableInGraph(g, exc);
    for i := 0 to |nodes|
      invariant forall j :: 0 <= j < i ==> nodes[j] in g && !IsTimeout(g[nodes[j]])
    {
      assert nodes[i] in nodes;
      if g[nodes[i]].facts.isTimeoutError {
        return Some(Itself(nodes[i]));
      }
      if g[nodes[i]].facts.isHttpxTimeout {
        return Some(Wrapping(nodes[i]));
      }
    }
    return None;
  }

  lemma ReachableInGraph(g: Graph, a: nat)
    ensures forall n :: Reachable(g, a, n) ==> n in g
  {
    forall n | Reachable(g, a, n) ensures n in g {
      var p :| PathBetween(g, p, a, n);
    }
  }

  ghost predicate SomeReachableStatus(g: Graph, exc: nat, status: int) {
    exists n :: n in g && Reachable(g, exc, n) && g[n].facts.httpStatus == Some(status)
  }

  ghost predicate SessionFault(g: Graph, exc: nat) {
    exists n :: n in g && Reachable(g, exc, n)
                && (g[n].facts.saysSessionGone || g[n].facts.httpStatus == Some(404))
  }

  ghost predicate AuthFault(g: Graph, exc: nat)
    requires exc in g
  {
    g[exc].facts.says401Unauthorized || SomeReachableStatus(g, exc, 401)
  }

  ghost predicate MisdirectedFault(g: Graph, exc: nat)
    requires exc in g
  {
    g[exc].facts.says421Misdirected || SomeReachableStatus(g, exc, 421)
  }

  method IsSessionTerminated(g: Graph, exc: nat) returns (r: bool)
    requires Closed(g) && exc in g
    ensures r <==> SessionFault(g, exc)
  {
    var nodes := Walk(g, exc);
    ReachableInGraph(g, exc);
    for i := 0 to |nodes|
      invariant forall j :: 0 <= j < i ==> nodes[j] in g && !g[nodes[j]].facts.saysSessionGone
                                           && g[nodes[j]].facts.httpStatus != Some(404)
    {
      assert nodes[i] in nodes;
      if g[nodes[i]].facts.httpStatus == Some(404) || g[nodes[i]].facts.saysSessionGone {
        return true;
      }
    }
    return false;
  }

  /** The shape shared by the 401 and the 421 classifier: a status anywhere below, or a phrase at the top. */
  method HasStatus(g: Graph, exc: nat, status: int) returns (r: bool)
    requires Closed(g) && exc in g
    ensures r <==> SomeReachableStatus(g, exc, status)
  {
    var nodes := Walk(g, exc);
    ReachableInGraph(g, exc);
    for i := 0 to |nodes|
      invariant forall j :: 0 <= j < i ==> nodes[j] in g && g[nodes[j]].facts.httpStatus != Some(status)
    {
      assert nodes[i] in nodes;
      if g[nodes[i]].facts.httpStatus == Some(status) {
        return true;
      }
    }
    return false;
  }

  method IsAuthError(g: Graph, exc: nat) returns (r: bool)
    requires Closed(g) && exc in g
    ensures r <==> AuthFault(g, exc)
  {
    var status := HasStatus(g, exc, 401);
    return status || g[exc].facts.says401Unauthorized;
  }

  method IsMisdirected(g: Graph, exc: nat) returns (r: bool)
    requires Closed(g) && exc in g
    ensures r <==> MisdirectedFault(g, exc)
  {
    var status := HasStatus(g, exc, 421);
    return status || g[exc].facts.says421Misdirected;
  }

  // ---------------------------------------------------------------------------------------------
  // The single-chain timeout check
  // ---------------------------------------------------------------------------------------------

  /** e.__cause__ or e.__context__ */
  function Next(e: Exc): Option<nat> {
    if e.cause.Some? then e.cause else e.context
  }

  /** The i-th exception of the chain that starts at exc, if the chain is that long. */
  function ChainAt(g: Graph, exc: nat, i: nat): (n: Option<nat>)
    requires Closed(g) && exc in g
    ensures n.Some? ==> n.value in g
  {
    if i == 0 then Some(exc)
    else
      var before := ChainAt(g, exc, i - 1);
      if before.None? then None else Next(g[before.value])
  }

  /** The check stops at position i: past the end of the chain, or at a timeout below the top. */
  predicate StopsAt(g: Graph, exc: nat, i: nat)
    requires Closed(g) && exc in g
  {
    var n := ChainAt(g, exc, i);
    n.None? || (i > 0 && IsTimeout(g[n.value]))
  }

  ghost predicate ChainAcyclic(g: Graph, exc: nat)
    requires Closed(g) && exc in g
  {
    forall i: nat, j: nat :: i < j && ChainAt(g, exc, i).Some? && ChainAt(g, exc, j).Some?
                        ==> ChainAt(g, exc, i) != ChainAt(g, exc, j)
  }

  /** Some timeout of the chain lies below the top. */
  ghost predicate TimeoutBelow(g: Graph, exc: nat)
    requires Closed(g) && exc in g
  {
    exists i: nat :: i > 0 && ChainAt(g, exc, i).Some? && IsTimeout(g[ChainAt(g, exc, i).value])
  }

  predicate StopsAtTop(e: Exc) {
    e.facts.isTimeoutError || e.facts.isCancelled || e.facts.isHttpxTimeout
  }

  /** The check returns at all. */
  ghost predicate ChainCheckHalts(g: Graph, exc: nat)
    requires Closed(g) && exc in g
  {
    StopsAtTop(g[exc]) || exists i :: StopsAt(g, exc, i)
  }

  ghost predicate TimeoutFault(g: Graph, exc: nat)
    requires Closed(g) && exc in g
  {
    StopsAtTop(g[exc]) || TimeoutBelow(g, exc)
  }

  /** The check on an exception for which it returns at all (`ChainCheckHaltsIff` says for which). */
  method IsTimeoutError(g: Graph, exc: nat) returns (r: bool)
    requires Closed(g) && exc in g
    requires ChainCheckHalts(g, exc)
    ensures r <==> TimeoutFault(g, exc)
  {
    if g[exc].facts.isTimeoutError || g[exc].facts.isCancelled {
      return true;
    }
    if g[exc].facts.isHttpxTimeout {
      return true;
    }
    ghost var stop: nat :| StopsAt(g, exc, stop);
    ghost var i := 1;
    var cause := Next(g[exc]);
    while cause.Some?
      invariant i > 0 && cause == ChainAt(g, exc, i)
      invariant forall j :: 0 < j < i ==> ChainAt(g, exc, j).Some? && !IsTimeout(g[ChainAt(g, exc, j).value])
      decreases stop - i
    {
      if IsTimeout(g[cause.value]) {
        return true;
      }
      if stop <= i {
        ChainEndsForGood(g, exc, stop, i);
      }
      cause := Next(g[cause.value]);
      i := i + 1;
    }
    forall j: nat | j >= i ensures ChainAt(g, exc, j).None? {
      ChainEndsForGood(g, exc, i, j);
    }
    return false;
  }

  lemma {:induction false} ChainEndsForGood(g: Graph, exc: nat, i: nat, j: nat)
    requires Closed(g) && exc in g && i <= j && ChainAt(g, exc, i).None?
    ensures ChainAt(g, exc, j).None?
  {
    if i < j { ChainEndsForGood(g, exc, i, j - 1); }
  }

  /** Two equal positions make the chain periodic, so it never ends. */
  lemma {:induction false} CycleNeverEnds(g: Graph, exc: nat, i: nat, j: nat, k: nat)
    requires Closed(g) && exc in g && i < j
    requires ChainAt(g, exc, i).Some? && ChainAt(g, exc, i) == ChainAt(g, exc, j)
    ensures ChainAt(g, exc, k).Some?
    decreases k
  {
    if k <= j {
      if ChainAt(g, exc, k).None? { ChainEndsForGood(g, exc, k, j); }
    } else {
      CycleShift(g, exc, i, j, k - j);
      CycleNeverEnds(g, exc, i, j, i + (k - j));
    }
  }

  lemma {:induction false} CycleShift(g: Graph, exc: nat, i: nat, j: nat, d: nat)
    requires Closed(g) && exc in g && ChainAt(g, exc, i) == ChainAt(g, exc, j)
    ensures ChainAt(g, exc, i + d) == ChainAt(g, exc, j + d)
  {
    if d > 0 { CycleShift(g, exc, i, j, d - 1); }
  }

  ghost predicate OnChain(g: Graph, exc: nat, n: nat, i: nat)
    requires Closed(g) && exc in g
  {
    ChainAt(g, exc, i) == Some(n)
  }

  /** An acyclic chain of a finite graph ends within as many steps as the graph has nodes. */
  lemma {:induction false} AcyclicChainVisits(g: Graph, exc: nat, k: nat) returns (visited: set<nat>)
    requires Closed(g) && exc in g && ChainAcyclic(g, exc) && ChainAt(g, exc, k).Some?
    ensures |visited| == k + 1 && visited <= g.Keys
    ensures forall n :: n in visited ==> exists i: nat :: i <= k && OnChain(g, exc, n, i)
  {
    if k == 0 {
      visited := {exc};
      assert OnChain(g, exc, exc, 0);
    } else {
      var before := AcyclicChainVisits(g, exc, k - 1);
      var last := ChainAt(g, exc, k).value;
      assert last !in before;
      visited := before + {last};
      forall n | n in visited ensures exists i: nat :: i <= k && OnChain(g, exc, n, i) {
        if n in before {
          var i: nat :| i <= k - 1 && OnChain(g, exc, n, i);
          assert i <= k && OnChain(g, exc, n, i);
        } else {
          assert OnChain(g, exc, last, k);
        }
      }
    }
  }

  lemma AcyclicChainEnds(g: Graph, exc: nat)
    requires Closed(g) && exc in g && ChainAcyclic(g, exc)
    ensures ChainAt(g, exc, |g.Keys|).None?
  {
    if ChainAt(g, exc, |g.Keys|).Some? {
      var visited := AcyclicChainVisits(g, exc, |g.Keys|);
      SubsetSize(visited, g.Keys);
      assert false;
    }
  }

  /** The check returns exactly when the top stops it, the chain is acyclic or a timeout lies on it. */
  lemma ChainCheckHaltsIff(g: Graph, exc: nat)
    requires Closed(g) && exc in g
    ensures ChainCheckHalts(g, exc)
            <==> (StopsAtTop(g[exc]) || ChainAcyclic(g, exc) || TimeoutBelow(g, exc))
  {
    if ChainAcyclic(g, exc) {
      AcyclicChainEnds(g, exc);
      assert StopsAt(g, exc, |g.Keys|);
    } else {
      var i: nat, j: nat :| i < j && ChainAt(g, exc, i).Some? && ChainAt(g, exc, j).Some?
                            && ChainAt(g, exc, i) == ChainAt(g, exc, j);
      forall k: nat ensures ChainAt(g, exc, k).Some? {
        CycleNeverEnds(g, exc, i, j, k);
      }
    }
    if TimeoutBelow(g, exc) {
      var i: nat :| i > 0 && ChainAt(g, exc, i).Some? && IsTimeout(g[ChainAt(g, exc, i).value]);
      assert StopsAt(g, exc, i);
    }
  }

  lemma {:induction false} ChainReachable(g: Graph, exc: nat, i: nat)
    requires Closed(g) && exc in g && ChainAt(g, exc, i).Some?
    ensures Reachable(g, exc, ChainAt(g, exc, i).value)
  {
    if i == 0 {
      ReachableSelf(g, exc);
    } else {
      ChainReachable(g, exc, i - 1);
      ReachableStep(g, exc, ChainAt(g, exc, i - 1).value, ChainAt(g, exc, i).value);
    }
  }

  /** A timeout the chain check sees is reachable, so the walk finds one too; a cancelled top is the one exception. */
  lemma WalkFindsChainTimeouts(g: Graph, exc: nat)
    requires Closed(g) && exc in g
    requires TimeoutFault(g, exc)
    ensures (exists n :: n in g && Reachable(g, exc, n) && IsTimeout(g[n]))
            || (g[exc].facts.isCancelled && !TimeoutBelow(g, exc) && !IsTimeout(g[exc]))
  {
    if TimeoutBelow(g, exc) {
      var i: nat :| i > 0 && ChainAt(g, exc, i).Some? && IsTimeout(g[ChainAt(g, exc, i).value]);
      ChainReachable(g, exc, i);
    } else if IsTimeout(g[exc]) {
      ReachableSelf(g, exc);
    }
  }
}
