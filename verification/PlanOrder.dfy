/** Draft validation: the dependency graph is sorted by repeatedly emitting the ready step that came
    first in the draft.  A step is its position in the draft; `g[i]` lists the positions it depends on. */
module PlanOrder {
  import Counting

  type Graph = seq<seq<nat>>

  datatype OrderResult = Ordered(order: seq<nat>) | TooDeep | Cyclic

  predicate ValidGraph(g: Graph) {
    forall i | 0 <= i < |g| ::
      && (forall k | 0 <= k < |g[i]| :: g[i][k] < |g| && g[i][k] != i)
      && (forall k, l | 0 <= k < l < |g[i]| :: g[i][k] != g[i][l])
  }

  // ---------------------------------------------------------------- what the order has to be

  predicate Ready(g: Graph, done: seq<nat>, x: nat)
    requires x < |g|
  {
    x !in done && forall d | d in g[x] :: d in done
  }

  /** `x` is the first ready step in draft order. */
  predicate IsNext(g: Graph, done: seq<nat>, x: nat) {
    x < |g| && Ready(g, done, x) && forall y | 0 <= y < x :: !Ready(g, done, y)
  }

  predicate Canonical(g: Graph, order: seq<nat>) {
    forall p | 0 <= p < |order| :: IsNext(g, order[..p], order[p])
  }

  predicate Stuck(g: Graph, order: seq<nat>) {
    forall x | 0 <= x < |g| :: !Ready(g, order, x)
  }

  predicate Permutation(order: seq<nat>, n: nat) {
    && |order| == n && (forall p | 0 <= p < n :: order[p] < n)
    && (forall p, q | 0 <= p < q < n :: order[p] != order[q])
  }

  predicate Topological(g: Graph, order: seq<nat>)
    requires forall p | 0 <= p < |order| :: order[p] < |g|
  {
    forall p | 0 <= p < |order| :: forall d | d in g[order[p]] :: d in order[..p]
  }

  /** A chain of steps, each depending on the one before. */
  predicate Chain(g: Graph, path: seq<nat>) {
    && |path| >= 1 && (forall k | 0 <= k < |path| :: path[k] < |g|)
    && (forall k | 0 < k < |path| :: path[k - 1] in g[path[k]])
  }

  /** No chain is longer than `cap`; in particular there is no cycle. */
  ghost predicate ChainsWithin(g: Graph, cap: nat) {
    forall path | Chain(g, path) :: |path| <= cap
  }

  ghost predicate HasChain(g: Graph, i: nat, n: nat) {
    exists path :: Chain(g, path) && path[|path| - 1] == i && |path| == n
  }

  /** Some chain ending in `i` is one step too long. */
  ghost predicate OverCap(g: Graph, i: nat, cap: nat) {
    HasChain(g, i, cap + 1)
  }

  /** Chains of every length end in `i`, so it depends on a cycle. */
  ghost predicate Endless(g: Graph, i: nat) {
    forall n | n >= 1 :: HasChain(g, i, n)
  }

  // ---------------------------------------------------------------- bookkeeping

  function Pending(deps: seq<nat>, done: seq<nat>): nat {
    if deps == [] then 0
    else (if deps[0] in done then 0 else 1) + Pending(deps[1..], done)
  }

  lemma {:induction false} PendingZero(deps: seq<nat>, done: seq<nat>)
    ensures Pending(deps, done) == 0 <==> forall d | d in deps :: d in done
  {
    if deps != [] {
      PendingZero(deps[1..], done);
      assert deps == [deps[0]] + deps[1..];
    }
  }

  lemma {:induction false} PendingStep(deps: seq<nat>, done: seq<nat>, k: nat)
    requires k !in done && forall i, j | 0 <= i < j < |deps| :: deps[i] != deps[j]
    ensures Pending(deps, done + [k]) == Pending(deps, done) - (if k in deps then 1 else 0)
  {
    if deps != [] {
      PendingStep(deps[1..], done, k);
      assert deps == [deps[0]] + deps[1..];
    }
  }

  /** `sorted(outgoing[key])`: the steps that depend on `k`, in draft order, from position `from`. */
  function Dependents(g: Graph, k: nat, from: nat := 0): (r: seq<nat>)
    requires from <= |g|
    ensures forall x :: x in r <==> from <= x < |g| && k in g[x]
    ensures forall i, j | 0 <= i < j < |r| :: r[i] != r[j]
    decreases |g| - from
  {
    if from == |g| then []
    else (if k in g[from] then [from] else []) + Dependents(g, k, from + 1)
  }

  predicate Increasing(s: seq<nat>) {
    forall i, j | 0 <= i < j < |s| :: s[i] < s[j]
  }

  /** Appending to the ready list and sorting it again. */
  function Insert(s: seq<nat>, x: nat): seq<nat> {
    if s == [] || x < s[0] then [x] + s else [s[0]] + Insert(s[1..], x)
  }

  lemma {:induction false} InsertAdds(s: seq<nat>, x: nat, y: nat)
    ensures y in Insert(s, x) <==> y in s || y == x
  {
    if s != [] && x >= s[0] {
      InsertAdds(s[1..], x, y);
      assert s == [s[0]] + s[1..];
    }
  }

  predicate Below(b: nat, s: seq<nat>) {
    forall i | 0 <= i < |s| :: b < s[i]
  }

  lemma {:induction false} InsertKeepsBelow(b: nat, s: seq<nat>, x: nat)
    requires Below(b, s) && b < x
    ensures Below(b, Insert(s, x))
  {
    if s != [] && x >= s[0] {
      InsertKeepsBelow(b, s[1..], x);
    }
  }

  lemma Prepend(x: nat, s: seq<nat>)
    requires Below(x, s) && Increasing(s)
    ensures Increasing([x] + s)
  {
  }

  lemma {:induction false} InsertKeepsOrder(s: seq<nat>, x: nat)
    requires Increasing(s) && x !in s
    ensures Increasing(Insert(s, x))
  {
    if s == [] || x < s[0] {
      assert Below(x, s);
      Prepend(x, s);
    } else {
      assert s[0] in s && Below(s[0], s[1..]);
      InsertKeepsOrder(s[1..], x);
      InsertKeepsBelow(s[0], s[1..], x);
      Prepend(s[0], Insert(s[1..], x));
    }
  }

  /** The steps without dependencies, in draft order, from position `from`. */
  function Roots(indegree: seq<nat>, from: nat := 0): (r: seq<nat>)
    requires from <= |indegree|
    ensures Increasing(r) && forall x :: x in r <==> from <= x < |indegree| && indegree[x] == 0
    decreases |indegree| - from
  {
    if from == |indegree| then []
    else
      var rest := Roots(indegree, from + 1);
      assert forall i | 0 <= i < |rest| :: rest[i] in rest;
      (if indegree[from] == 0 then [from] else []) + rest
  }

  lemma {:induction false} NothingSeen(deps: seq<nat>)
    ensures Pending(deps, []) == |deps|
  {
    if deps != [] {
      NothingSeen(deps[1..]);
    }
  }

  // ---------------------------------------------------------------- loop state

  /** While the dependents `todo` of the last emitted step are still to be visited, they do not count it. */
  function Seen(ordered: seq<nat>, todo: seq<nat>, i: nat): seq<nat>
    requires ordered != [] || todo == []
  {
    if i in todo then ordered[..|ordered| - 1] else ordered
  }

  predicate Counted(g: Graph, indegree: seq<nat>, ordered: seq<nat>, todo: seq<nat>)
    requires ordered != [] || todo == []
  {
    |indegree| == |g| && forall i | 0 <= i < |g| :: indegree[i] == Pending(g[i], Seen(ordered, todo, i))
  }

  ghost predicate Queued(g: Graph, indegree: seq<nat>, ordered: seq<nat>, ready: seq<nat>) {
    && Increasing(ready) && |indegree| == |g|
    && (forall i: nat :: i in ready <==> i < |g| && i !in ordered && indegree[i] == 0)
  }

  predicate DepthAt(g: Graph, depth: seq<nat>, seen: seq<nat>, i: nat)
    requires i < |g| == |depth|
  {
    forall d | d in g[i] && d in seen && d < |g| :: depth[d] < depth[i]
  }

  ghost predicate Deep(g: Graph, depth: seq<nat>, cap: nat, ordered: seq<nat>, todo: seq<nat>)
    requires ordered != [] || todo == []
  {
    && |depth| == |g|
    && (forall i | 0 <= i < |g| :: 1 <= depth[i] <= cap && HasChain(g, i, depth[i]))
    && (forall i | 0 <= i < |g| :: DepthAt(g, depth, Seen(ordered, todo, i), i))
  }

  predicate Emitted(g: Graph, ordered: seq<nat>) {
    && |ordered| <= |g| && (forall p | 0 <= p < |ordered| :: ordered[p] < |g|)
    && (forall p, q | 0 <= p < q < |ordered| :: ordered[p] != ordered[q])
    && Canonical(g, ordered)
  }

  lemma LoneChain(g: Graph, i: nat)
    requires i < |g|
    ensures HasChain(g, i, 1)
  {
    assert Chain(g, [i]);
  }

  lemma LongerChain(g: Graph, k: nat, n: nat, c: nat)
    requires HasChain(g, k, n) && c < |g| && k in g[c]
    ensures HasChain(g, c, n + 1)
  {
    var path :| Chain(g, path) && path[|path| - 1] == k && |path| == n;
    var longer := path + [c];
    assert Chain(g, longer) && longer[|longer| - 1] == c;
  }

  /** A step is emitted only after everything it depends on. */
  lemma EmittedIsTopological(g: Graph, ordered: seq<nat>)
    requires Emitted(g, ordered)
    ensures Topological(g, ordered)
  {
    forall p | 0 <= p < |ordered|
      ensures forall d | d in g[ordered[p]] :: d in ordered[..p]
    {
      assert IsNext(g, ordered[..p], ordered[p]);
    }
  }

  lemma ChildIsPending(g: Graph, ordered: seq<nat>, c: nat)
    requires ValidGraph(g) && Emitted(g, ordered) && ordered != [] && c < |g|
    requires ordered[|ordered| - 1] in g[c]
    ensures c !in ordered
  {
    EmittedIsTopological(g, ordered);
    var k := ordered[|ordered| - 1];
    forall p | 0 <= p < |ordered|
      ensures ordered[p] != c
    {
      assert k !in ordered[..p];
    }
  }

  /** The head of the ready list is the first ready step of the draft. */
  lemma HeadIsNext(g: Graph, indegree: seq<nat>, ordered: seq<nat>, ready: seq<nat>)
    requires Emitted(g, ordered) && Counted(g, indegree, ordered, [])
    requires Queued(g, indegree, ordered, ready) && ready != []
    ensures ready[0] < |g| && ready[0] !in ordered && |ordered| < |g|
    ensures Emitted(g, ordered + [ready[0]])
  {
    var x := ready[0];
    assert x in ready;
    forall y | 0 <= y < |g|
      ensures Ready(g, ordered, y) <==> y in ready
    {
      PendingZero(g[y], ordered);
    }
    forall y | 0 <= y < x
      ensures !Ready(g, ordered, y)
    {
      assert forall i | 0 <= i < |ready| :: x <= ready[i];
    }
    var longer := ordered + [x];
    forall p | 0 <= p < |longer|
      ensures IsNext(g, longer[..p], longer[p])
    {
      if p < |ordered| {
        assert longer[..p] == ordered[..p] && IsNext(g, ordered[..p], ordered[p]);
      } else {
        assert longer[..p] == ordered;
      }
    }
    Counting.Pigeonhole(longer, |g|);
  }

  /** Visiting a dependent of the step just emitted takes one off its in-degree. */
  lemma VisitKeepsCounts(g: Graph, indegree: seq<nat>, ordered: seq<nat>, todo: seq<nat>)
    requires ValidGraph(g) && Emitted(g, ordered) && ordered != [] && todo != []
    requires Counted(g, indegree, ordered, todo) && todo[0] < |g| && todo[0] !in todo[1..]
    requires ordered[|ordered| - 1] in g[todo[0]]
    ensures indegree[todo[0]] > 0
    ensures Counted(g, indegree[todo[0] := indegree[todo[0]] - 1], ordered, todo[1..])
  {
    hide ValidGraph, Emitted, Pending, Seen;
    var c := todo[0];
    VisitedCount(g, indegree, ordered, todo);
    var next := indegree[c := indegree[c] - 1];
    forall i | 0 <= i < |g|
      ensures next[i] == Pending(g[i], Seen(ordered, todo[1..], i))
    {
      if i != c {
        SeenOther(ordered, todo, i);
      }
    }
  }

  lemma VisitedCount(g: Graph, indegree: seq<nat>, ordered: seq<nat>, todo: seq<nat>)
    requires ValidGraph(g) && Emitted(g, ordered) && ordered != [] && todo != []
    requires Counted(g, indegree, ordered, todo) && todo[0] < |g| && todo[0] !in todo[1..]
    requires ordered[|ordered| - 1] in g[todo[0]]
    ensures indegree[todo[0]] == Pending(g[todo[0]], Seen(ordered, todo[1..], todo[0])) + 1
  {
    hide ValidGraph, Emitted, Pending, Seen;
    var c, k, before := todo[0], ordered[|ordered| - 1], ordered[..|ordered| - 1];
    SeenFirst(ordered, todo);
    LastIsNew(g, ordered);
    NoRepeats(g, c);
    PendingStep(g[c], before, k);
    assert ordered == before + [k];
  }

  lemma SeenFirst(ordered: seq<nat>, todo: seq<nat>)
    requires ordered != [] && todo != [] && todo[0] !in todo[1..]
    ensures Seen(ordered, todo, todo[0]) == ordered[..|ordered| - 1] && Seen(ordered, todo[1..], todo[0]) == ordered
  {
  }

  lemma SeenOther(ordered: seq<nat>, todo: seq<nat>, i: nat)
    requires ordered != [] && todo != [] && i != todo[0]
    ensures Seen(ordered, todo, i) == Seen(ordered, todo[1..], i)
  {
    assert todo == [todo[0]] + todo[1..];
  }

  lemma LastIsNew(g: Graph, ordered: seq<nat>)
    requires Emitted(g, ordered) && ordered != []
    ensures ordered[|ordered| - 1] !in ordered[..|ordered| - 1]
  {
    hide Canonical;
  }

  lemma NoRepeats(g: Graph, c: nat)
    requires ValidGraph(g) && c < |g|
    ensures forall i, j | 0 <= i < j < |g[c]| :: g[c][i] != g[c][j]
  {
  }

  lemma VisitKeepsDepths(g: Graph, depth: seq<nat>, cap: nat, ordered: seq<nat>, todo: seq<nat>, n: nat)
    requires ValidGraph(g) && Emitted(g, ordered) && ordered != [] && todo != []
    requires Deep(g, depth, cap, ordered, todo) && todo[0] < |g|
    requires var k := ordered[|ordered| - 1];
      k < |g| && k in g[todo[0]] && n == (if depth[todo[0]] > depth[k] + 1 then depth[todo[0]] else depth[k] + 1)
    ensures n <= cap + 1 && HasChain(g, todo[0], n)
    ensures n <= cap ==> Deep(g, depth[todo[0] := n], cap, ordered, todo[1..])
  {
    hide Emitted, HasChain, ValidGraph;
    var c, k := todo[0], ordered[|ordered| - 1];
    LongerChain(g, k, depth[k], c);
    ChildIsPending(g, ordered, c);
    var next := depth[c := n];
    if n <= cap {
      forall i | 0 <= i < |g|
        ensures DepthAt(g, next, Seen(ordered, todo[1..], i), i)
      {
        assert DepthAt(g, depth, Seen(ordered, todo, i), i);
        assert i != c ==> (i in todo <==> i in todo[1..]);
        assert c !in Seen(ordered, todo[1..], i);
      }
    }
  }

  // ---------------------------------------------------------------- acceptance

  /** Depths bound the chains that end in a step. */
  lemma {:induction false} DepthBoundsChains(g: Graph, depth: seq<nat>, path: seq<nat>)
    requires |depth| == |g| && Chain(g, path)
    requires forall i | 0 <= i < |g| :: 1 <= depth[i] && forall d | d in g[i] && d < |g| :: depth[d] < depth[i]
    ensures |path| <= depth[path[|path| - 1]]
  {
    if |path| > 1 {
      var shorter := path[..|path| - 1];
      assert Chain(g, shorter);
      DepthBoundsChains(g, depth, shorter);
    }
  }

  /** When some steps are left and none is ready, each depends on another that is left, so there are
      chains of every length. */
  lemma {:induction false} StuckMeansCycle(g: Graph, ordered: seq<nat>, i: nat, n: nat)
    requires ValidGraph(g) && Stuck(g, ordered) && i < |g| && i !in ordered && n >= 1
    ensures HasChain(g, i, n)
    decreases n
  {
    if n == 1 {
      LoneChain(g, i);
    } else {
      assert !Ready(g, ordered, i);
      var d :| d in g[i] && d !in ordered;
      StuckMeansCycle(g, ordered, d, n - 1);
      LongerChain(g, d, n - 1, i);
    }
  }

  lemma Start(g: Graph, indegree: seq<nat>, depth: seq<nat>, cap: nat)
    requires |indegree| == |depth| == |g| && cap >= 1
    requires forall i | 0 <= i < |g| :: indegree[i] == |g[i]| && depth[i] == 1
    ensures Emitted(g, []) && Counted(g, indegree, [], []) && Deep(g, depth, cap, [], [])
    ensures Queued(g, indegree, [], Roots(indegree))
  {
    forall i | 0 <= i < |g|
      ensures indegree[i] == Pending(g[i], []) && HasChain(g, i, 1)
    {
      NothingSeen(g[i]);
      LoneChain(g, i);
    }
  }

  lemma EmitKeepsQueue(g: Graph, indegree: seq<nat>, ordered: seq<nat>, ready: seq<nat>)
    requires Queued(g, indegree, ordered, ready) && ready != []
    ensures Queued(g, indegree, ordered + [ready[0]], ready[1..])
  {
    assert ready == [ready[0]] + ready[1..];
  }

  lemma EmitKeepsCounts(g: Graph, indegree: seq<nat>, ordered: seq<nat>, k: nat)
    requires ValidGraph(g) && Counted(g, indegree, ordered, []) && k !in ordered
    ensures Counted(g, indegree, ordered + [k], Dependents(g, k))
  {
    var todo, longer := Dependents(g, k), ordered + [k];
    assert longer[..|longer| - 1] == ordered;
    forall i | 0 <= i < |g|
      ensures indegree[i] == Pending(g[i], Seen(longer, todo, i))
    {
      PendingStep(g[i], ordered, k);
      assert indegree[i] == Pending(g[i], Seen(ordered, [], i));
    }
  }

  lemma EmitKeepsDepths(g: Graph, depth: seq<nat>, cap: nat, ordered: seq<nat>, k: nat)
    requires Deep(g, depth, cap, ordered, [])
    ensures Deep(g, depth, cap, ordered + [k], Dependents(g, k))
  {
    hide HasChain;
    var todo, longer := Dependents(g, k), ordered + [k];
    assert longer[..|longer| - 1] == ordered;
    forall i | 0 <= i < |g|
      ensures DepthAt(g, depth, Seen(longer, todo, i), i)
    {
      assert DepthAt(g, depth, Seen(ordered, [], i), i);
    }
  }

  lemma ReadyKeepsQueue(g: Graph, indegree: seq<nat>, ordered: seq<nat>, ready: seq<nat>, c: nat)
    requires ValidGraph(g) && Emitted(g, ordered) && Queued(g, indegree, ordered, ready)
    requires ordered != [] && c < |g| && indegree[c] > 0 && ordered[|ordered| - 1] in g[c]
    ensures Increasing(ready) && c !in ready
    ensures var next := indegree[c := indegree[c] - 1];
      Queued(g, next, ordered, if next[c] == 0 then Insert(ready, c) else ready)
  {
    hide Emitted, ValidGraph;
    ChildIsPending(g, ordered, c);
    InsertKeepsOrder(ready, c);
    forall y: nat
      ensures y in Insert(ready, c) <==> y in ready || y == c
    {
      InsertAdds(ready, c, y);
    }
  }

  lemma CompleteIsPermutation(g: Graph, ordered: seq<nat>)
    requires Emitted(g, ordered) && |ordered| == |g|
    ensures Permutation(ordered, |g|) && Canonical(g, ordered)
  {
  }

  lemma NoneReady(g: Graph, indegree: seq<nat>, ordered: seq<nat>)
    requires Counted(g, indegree, ordered, []) && Queued(g, indegree, ordered, [])
    ensures Stuck(g, ordered)
  {
    forall x | 0 <= x < |g|
      ensures !Ready(g, ordered, x)
    {
      PendingZero(g[x], ordered);
      assert indegree[x] == Pending(g[x], Seen(ordered, [], x));
      assert x !in [];
    }
  }

  lemma TooDeepRefused(g: Graph, cap: nat, i: nat)
    requires i < |g| && OverCap(g, i, cap)
    ensures !ChainsWithin(g, cap)
  {
    var path :| Chain(g, path) && path[|path| - 1] == i && |path| == cap + 1;
  }

  lemma CyclicRefused(g: Graph, cap: nat, ordered: seq<nat>)
    requires ValidGraph(g) && Emitted(g, ordered) && Stuck(g, ordered) && |ordered| != |g|
    ensures !ChainsWithin(g, cap)
    ensures exists i | 0 <= i < |g| :: Endless(g, i)
  {
    if forall i | 0 <= i < |g| :: i in ordered {
      Counting.Pigeonhole(Positions(ordered, |g|), |ordered|);
    }
    var i :| 0 <= i < |g| && i !in ordered;
    forall n | n >= 1
      ensures HasChain(g, i, n)
    {
      StuckMeansCycle(g, ordered, i, n);
    }
    assert OverCap(g, i, cap) && Endless(g, i);
    TooDeepRefused(g, cap, i);
  }

  /** The position in `s` of each number below `n`. */
  ghost function Positions(s: seq<nat>, n: nat): (r: seq<nat>)
    requires forall i | 0 <= i < n :: i in s
    ensures |r| == n && forall i | 0 <= i < n :: r[i] < |s| && s[r[i]] == i
  {
    if n == 0 then [] else
      assert n - 1 in s;
      var p :| 0 <= p < |s| && s[p] == n - 1;
      Positions(s, n - 1) + [p]
  }

  lemma DepthsAccept(g: Graph, depth: seq<nat>, cap: nat, ordered: seq<nat>)
    requires ValidGraph(g) && Emitted(g, ordered) && |ordered| == |g| && Deep(g, depth, cap, ordered, [])
    ensures ChainsWithin(g, cap)
  {
    forall d | 0 <= d < |g|
      ensures d in ordered
    {
      Counting.Covers(ordered, |g|, d);
    }
    forall i | 0 <= i < |g|
      ensures forall d | d in g[i] && d < |g| :: depth[d] < depth[i]
    {
      assert DepthAt(g, depth, Seen(ordered, [], i), i);
    }
    forall path | Chain(g, path)
      ensures |path| <= cap
    {
      DepthBoundsChains(g, depth, path);
    }
  }

  /** Distinct steps that depend on `k`. */
  predicate Children(g: Graph, k: nat, todo: seq<nat>) {
    && (forall i | 0 <= i < |todo| :: todo[i] < |g| && k in g[todo[i]])
    && (forall i, j | 0 <= i < j < |todo| :: todo[i] != todo[j])
  }

  lemma DependentsAreChildren(g: Graph, k: nat)
    ensures Children(g, k, Dependents(g, k))
  {
    var todo := Dependents(g, k);
    forall i | 0 <= i < |todo|
      ensures todo[i] < |g| && k in g[todo[i]]
    {
      assert todo[i] in todo;
    }
  }

  lemma FirstChild(g: Graph, k: nat, todo: seq<nat>)
    requires Children(g, k, todo) && todo != []
    ensures todo[0] < |g| && k in g[todo[0]] && todo[0] !in todo[1..] && Children(g, k, todo[1..])
  {
  }

  /** The scan between two children: what is known while `todo` is left to visit. */
  ghost predicate Visiting(
    g: Graph, cap: nat, ordered: seq<nat>, indegree: seq<nat>, depth: seq<nat>, ready: seq<nat>, todo: seq<nat>)
    requires ordered != [] || todo == []
  {
    && |depth| == |indegree| == |g| && Counted(g, indegree, ordered, todo)
    && Queued(g, indegree, ordered, ready) && Deep(g, depth, cap, ordered, todo)
  }

  /** The step just emitted, `k`, is taken off the in-degrees of the steps that depend on it. */
  method VisitChildren(
    g: Graph, cap: nat, ghost ordered: seq<nat>, k: nat, indegree0: seq<nat>, depth0: seq<nat>, ready0: seq<nat>)
    returns (indegree: seq<nat>, depth: seq<nat>, ready: seq<nat>, tooDeep: bool)
    requires ValidGraph(g) && Emitted(g, ordered) && ordered != [] && k == ordered[|ordered| - 1] && k < |g|
    requires Visiting(g, cap, ordered, indegree0, depth0, ready0, Dependents(g, k))
    ensures tooDeep ==> exists i | 0 <= i < |g| :: OverCap(g, i, cap)
    ensures !tooDeep ==> Visiting(g, cap, ordered, indegree, depth, ready, [])
  {
    hide Emitted, Counted, Deep, Queued, ValidGraph, HasChain, Children, Dependents, Insert;
    indegree, depth, ready := indegree0, depth0, ready0;
    var todo: seq<nat> := Dependents(g, k);
    DependentsAreChildren(g, k);
    while todo != []
      invariant Visiting(g, cap, ordered, indegree, depth, ready, todo) && Children(g, k, todo)
      decreases |todo|
    {
      FirstChild(g, k, todo);
      var child := todo[0];
      VisitKeepsCounts(g, indegree, ordered, todo);
      var deeper := if depth[child] > depth[k] + 1 then depth[child] else depth[k] + 1;
      VisitKeepsDepths(g, depth, cap, ordered, todo, deeper);
      if deeper > cap {
        assert OverCap(g, child, cap);
        return indegree, depth, ready, true;
      }
      ReadyKeepsQueue(g, indegree, ordered, ready, child);
      depth, indegree := depth[child := deeper], indegree[child := indegree[child] - 1];
      if indegree[child] == 0 {
        ready := Insert(ready, child);
      }
      todo := todo[1..];
    }
    tooDeep := false;
  }

  lemma SomethingTooDeep(g: Graph, cap: nat)
    requires exists i | 0 <= i < |g| :: OverCap(g, i, cap)
    ensures !ChainsWithin(g, cap)
  {
    hide OverCap, ChainsWithin;
    var i :| 0 <= i < |g| && OverCap(g, i, cap);
    TooDeepRefused(g, cap, i);
  }

  /** Kahn's algorithm with the ready list kept in draft order, as the validator runs it. */
  method Sort(g: Graph, cap: nat) returns (r: OrderResult)
    requires ValidGraph(g) && cap >= 1
    ensures r.Ordered? <==> ChainsWithin(g, cap)
    ensures r.Ordered? ==>
      Permutation(r.order, |g|) && Topological(g, r.order) && Canonical(g, r.order)
    ensures r.TooDeep? ==> exists i | 0 <= i < |g| :: OverCap(g, i, cap)
    ensures r.Cyclic? ==> exists i | 0 <= i < |g| :: Endless(g, i)
  {
    hide Emitted, Counted, Deep, Queued, ValidGraph, Stuck, OverCap, Endless, Canonical, Topological, ChainsWithin,
      Dependents, Roots;
    var indegree: seq<nat> := seq(|g|, i requires 0 <= i < |g| => |g[i]|);
    var depth: seq<nat> := seq(|g|, i => 1);
    var ready := Roots(indegree);
    var ordered: seq<nat> := [];
    Start(g, indegree, depth, cap);
    while ready != []
      invariant Emitted(g, ordered) && Visiting(g, cap, ordered, indegree, depth, ready, [])
      decreases |g| - |ordered|
    {
      HeadIsNext(g, indegree, ordered, ready);
      var k: nat := ready[0];
      EmitKeepsQueue(g, indegree, ordered, ready);
      EmitKeepsCounts(g, indegree, ordered, k);
      EmitKeepsDepths(g, depth, cap, ordered, k);
      ready, ordered := ready[1..], ordered + [k];
      var tooDeep;
      indegree, depth, ready, tooDeep := VisitChildren(g, cap, ordered, k, indegree, depth, ready);
      if tooDeep {
        SomethingTooDeep(g, cap);
        return TooDeep;
      }
    }
    NoneReady(g, indegree, ordered);
    if |ordered| != |g| {
      CyclicRefused(g, cap, ordered);
      return Cyclic;
    }
    EmittedIsTopological(g, ordered);
    DepthsAccept(g, depth, cap, ordered);
    CompleteIsPermutation(g, ordered);
    return Ordered(ordered);
  }

  /** There is only one canonical order, so sorting is deterministic. */
  lemma {:induction false} CanonicalIsUnique(g: Graph, a: seq<nat>, b: seq<nat>)
    requires Canonical(g, a) && Canonical(g, b) && |a| == |b|
    ensures a == b
  {
    if a != [] {
      var n := |a| - 1;
      var a', b' := a[..n], b[..n];
      forall p | 0 <= p < n
        ensures IsNext(g, a'[..p], a'[p]) && IsNext(g, b'[..p], b'[p])
      {
        assert a'[..p] == a[..p] && b'[..p] == b[..p];
        assert IsNext(g, a[..p], a[p]) && IsNext(g, b[..p], b[p]);
      }
      CanonicalIsUnique(g, a', b');
      assert IsNext(g, a', a[n]) && IsNext(g, a', b[n]);
      assert a == a' + [a[n]] && b == b' + [b[n]];
    }
  }

  function Identity(n: nat): (r: seq<nat>)
    ensures |r| == n && forall p | 0 <= p < n :: r[p] == p
  {
    seq(n, p => p)
  }

  /** `h` is `g` with its steps renumbered by `order`. */
  predicate Renumbered(g: Graph, order: seq<nat>, h: Graph) {
    && Permutation(order, |g|) && |h| == |g|
    && (forall p, k | 0 <= p < |h| && 0 <= k < |h[p]| :: h[p][k] < |h| && order[h[p][k]] in g[order[p]])
  }

  /** Steps already in a topological order stay where they are. */
  lemma RenumberedIsStable(g: Graph, order: seq<nat>, h: Graph)
    requires Renumbered(g, order, h) && Topological(g, order)
    ensures Canonical(h, Identity(|h|))
  {
    var id := Identity(|h|);
    forall p | 0 <= p < |h|
      ensures IsNext(h, id[..p], p)
    {
      forall k | 0 <= k < |h[p]|
        ensures h[p][k] in id[..p]
      {
        assert order[h[p][k]] in order[..p];
        var r :| 0 <= r < p && order[..p][r] == order[h[p][k]];
        assert r == h[p][k] && id[..p][r] == r;
      }
      forall y | 0 <= y < p
        ensures !Ready(h, id[..p], y)
      {
        assert id[..p][y] == y;
      }
    }
  }

  lemma EdgeImage(g: Graph, order: seq<nat>, h: Graph, p: nat, q: nat)
    requires Renumbered(g, order, h) && p < |h| && q in h[p]
    ensures q < |h| && order[q] in g[order[p]]
  {
    var k :| 0 <= k < |h[p]| && h[p][k] == q;
  }

  lemma RenumberedKeepsChains(g: Graph, order: seq<nat>, h: Graph, cap: nat)
    requires Renumbered(g, order, h) && ChainsWithin(g, cap)
    ensures ChainsWithin(h, cap)
  {
    forall path | Chain(h, path)
      ensures |path| <= cap
    {
      var image: seq<nat> := seq(|path|, k requires 0 <= k < |path| => order[path[k]]);
      forall k | 0 < k < |path|
        ensures image[k - 1] in g[image[k]]
      {
        EdgeImage(g, order, h, path[k], path[k - 1]);
      }
      assert Chain(g, image);
    }
  }
}
