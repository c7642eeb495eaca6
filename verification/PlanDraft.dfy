/** From a proposed plan to a stored version: validating the draft, storing it, and the check that a
    stored version still is what validation produced. */
module PlanDraft {
  import opened Wrappers
  import opened PlanModel
  import opened PlanOrder
  import Counting

  /** `definition` stands for the step's texts. */
  datatype DraftStep = DraftStep(key: Id, dependsOn: seq<Id>, maxAttempts: nat, definition: Digest)

  datatype Limits = Limits(maxSteps: int, maxDepth: int, maxAttempts: int)

  datatype Refusal =
    | BadLimit | TooManySteps | DuplicateKey | TooManyAttempts | DuplicateDependency
    | SelfDependency | MissingDependency(key: Id) | DepthExceeded | DependencyCycle

  datatype Validation = Accepted(steps: seq<DraftStep>) | Refused(why: Refusal)

  const STORED_LIMITS := Limits(20, 10, 20)

  function Min(a: int, b: int): int {
    if a < b then a else b
  }

  predicate Distinct(ids: seq<Id>) {
    forall i, j | 0 <= i < j < |ids| :: ids[i] != ids[j]
  }

  function Keys(draft: seq<DraftStep>): (r: seq<Id>)
    ensures |r| == |draft| && forall i | 0 <= i < |r| :: r[i] == draft[i].key
  {
    seq(|draft|, i requires 0 <= i < |draft| => draft[i].key)
  }

  /** A step the validator lets through: within the attempt limit, and depending on distinct other
      steps of the draft. */
  predicate StepAcceptable(keys: seq<Id>, step: DraftStep, maxAttempts: int) {
    && step.maxAttempts <= maxAttempts && Distinct(step.dependsOn)
    && (forall d | d in step.dependsOn :: d != step.key && d in keys)
  }

  predicate Linked(draft: seq<DraftStep>, maxAttempts: int) {
    && Distinct(Keys(draft))
    && (forall i | 0 <= i < |draft| :: StepAcceptable(Keys(draft), draft[i], maxAttempts))
  }

  /** What the validator promises to accept: a plan within its limits whose dependencies form no
      cycle and no chain longer than the depth limit. */
  ghost predicate Acceptable(draft: seq<DraftStep>, limits: Limits) {
    && limits.maxSteps > 0 && limits.maxDepth > 0 && limits.maxAttempts > 0
    && |draft| <= Min(limits.maxSteps, 20) && Linked(draft, limits.maxAttempts)
    && ChainsWithin(GraphOf(draft), Min(limits.maxDepth, 10))
  }

  // ---------------------------------------------------------------- keys to positions

  function IndexOf(keys: seq<Id>, key: Id): (r: nat)
    ensures r < |keys| ==> keys[r] == key
    ensures key in keys ==> r < |keys|
  {
    if keys == [] then 0 else if keys[0] == key then 0 else 1 + IndexOf(keys[1..], key)
  }

  function Targets(keys: seq<Id>, deps: seq<Id>): (r: seq<nat>)
    ensures |r| == |deps| && forall k | 0 <= k < |r| :: r[k] == IndexOf(keys, deps[k])
  {
    seq(|deps|, k requires 0 <= k < |deps| => IndexOf(keys, deps[k]))
  }

  function GraphOf(draft: seq<DraftStep>): (g: Graph)
    ensures |g| == |draft| && forall i | 0 <= i < |g| :: g[i] == Targets(Keys(draft), draft[i].dependsOn)
  {
    seq(|draft|, i requires 0 <= i < |draft| => Targets(Keys(draft), draft[i].dependsOn))
  }

  lemma GraphEdges(draft: seq<DraftStep>, maxAttempts: int, p: nat)
    requires Linked(draft, maxAttempts) && p < |draft|
    ensures forall q: nat :: q in GraphOf(draft)[p] <==> q < |draft| && draft[q].key in draft[p].dependsOn
  {
    var keys, deps := Keys(draft), draft[p].dependsOn;
    assert StepAcceptable(keys, draft[p], maxAttempts);
    forall q: nat
      ensures q in GraphOf(draft)[p] <==> q < |draft| && draft[q].key in deps
    {
      if q < |draft| && draft[q].key in deps {
        var k :| 0 <= k < |deps| && deps[k] == keys[q];
        assert Targets(keys, deps)[k] == IndexOf(keys, keys[q]) == q;
      }
      if q in Targets(keys, deps) {
        var k :| 0 <= k < |deps| && Targets(keys, deps)[k] == q;
        assert deps[k] in deps;
      }
    }
  }

  lemma LinkedIsValid(draft: seq<DraftStep>, maxAttempts: int)
    requires Linked(draft, maxAttempts)
    ensures ValidGraph(GraphOf(draft))
  {
    var keys, g := Keys(draft), GraphOf(draft);
    forall i | 0 <= i < |g|
      ensures forall k | 0 <= k < |g[i]| :: g[i][k] < |g| && g[i][k] != i
      ensures forall k, l | 0 <= k < l < |g[i]| :: g[i][k] != g[i][l]
    {
      var deps := draft[i].dependsOn;
      assert StepAcceptable(keys, draft[i], maxAttempts);
      assert forall k | 0 <= k < |deps| :: deps[k] in deps && keys[g[i][k]] == deps[k];
    }
  }

  // ---------------------------------------------------------------- the validated draft

  /** The keys of `ordered` that occur in `deps`: a duplicate-free list of known keys, sorted into
      the canonical order. */
  function Sorted(ordered: seq<Id>, deps: seq<Id>): (r: seq<Id>)
    ensures forall d :: d in r <==> d in deps && d in ordered
  {
    if ordered == [] then []
    else (if ordered[0] in deps then [ordered[0]] else []) + Sorted(ordered[1..], deps)
  }

  function Arranged(draft: seq<DraftStep>, order: seq<nat>): (r: seq<DraftStep>)
    requires Permutation(order, |draft|)
    ensures |r| == |draft|
  {
    var keys := seq(|draft|, p requires 0 <= p < |draft| => draft[order[p]].key);
    seq(|draft|, p requires 0 <= p < |draft| =>
      draft[order[p]].(dependsOn := Sorted(keys, draft[order[p]].dependsOn)))
  }

  lemma ArrangedKeys(draft: seq<DraftStep>, order: seq<nat>)
    requires Permutation(order, |draft|)
    ensures forall p | 0 <= p < |draft| :: Arranged(draft, order)[p].key == draft[order[p]].key
    ensures forall k :: k in Keys(Arranged(draft, order)) <==> k in Keys(draft)
  {
    var v := Arranged(draft, order);
    forall i | 0 <= i < |draft|
      ensures draft[i].key in Keys(v)
    {
      Counting.Covers(order, |draft|, i);
      var p :| 0 <= p < |order| && order[p] == i;
      assert Keys(v)[p] == draft[i].key;
    }
  }

  /** Arranging the draft only renumbers its dependency graph. */
  lemma ArrangedGraph(draft: seq<DraftStep>, order: seq<nat>, maxAttempts: int)
    requires Linked(draft, maxAttempts) && Permutation(order, |draft|)
    ensures Linked(Arranged(draft, order), maxAttempts)
    ensures Renumbered(GraphOf(draft), order, GraphOf(Arranged(draft, order)))
  {
    var v := Arranged(draft, order);
    ArrangedKeys(draft, order);
    ArrangedIsLinked(draft, order, maxAttempts);
    var g, h := GraphOf(draft), GraphOf(v);
    forall p, q | 0 <= p < |h| && q in h[p]
      ensures q < |h| && order[q] in g[order[p]]
    {
      GraphEdges(v, maxAttempts, p);
      GraphEdges(draft, maxAttempts, order[p]);
    }
  }

  lemma {:induction false} SortedIsDistinct(ordered: seq<Id>, deps: seq<Id>)
    requires Distinct(ordered)
    ensures Distinct(Sorted(ordered, deps))
  {
    if ordered != [] {
      SortedIsDistinct(ordered[1..], deps);
      var rest := Sorted(ordered[1..], deps);
      assert ordered[0] !in ordered[1..];
      assert forall i | 0 <= i < |rest| :: rest[i] in rest;
    }
  }

  lemma ArrangedIsLinked(draft: seq<DraftStep>, order: seq<nat>, maxAttempts: int)
    requires Linked(draft, maxAttempts) && Permutation(order, |draft|)
    ensures Linked(Arranged(draft, order), maxAttempts)
  {
    var v := Arranged(draft, order);
    ArrangedKeys(draft, order);
    assert Distinct(Keys(v)) by {
      forall p, q | 0 <= p < q < |v|
        ensures Keys(v)[p] != Keys(v)[q]
      {
        assert order[p] != order[q] && Keys(draft)[order[p]] != Keys(draft)[order[q]];
      }
    }
    forall p | 0 <= p < |v|
      ensures StepAcceptable(Keys(v), v[p], maxAttempts)
    {
      assert StepAcceptable(Keys(draft), draft[order[p]], maxAttempts);
      assert Keys(v) == seq(|draft|, p requires 0 <= p < |draft| => draft[order[p]].key);
      SortedIsDistinct(Keys(v), draft[order[p]].dependsOn);
    }
  }

  lemma {:induction false} SortedTwice(ordered: seq<Id>, a: seq<Id>, b: seq<Id>)
    requires forall d | d in ordered :: d in a <==> d in b
    ensures Sorted(ordered, a) == Sorted(ordered, b)
  {
    if ordered != [] {
      SortedTwice(ordered[1..], a, b);
    }
  }

  /** The arranged steps of an accepted plan pass validation again under the fixed stored limits, and the
      only canonical order leaves them exactly as they are. */
  lemma ArrangedPlanRevalidates(draft: seq<DraftStep>, limits: Limits, order: seq<nat>, again: seq<nat>)
    requires Acceptable(draft, limits) && Permutation(order, |draft|) && Topological(GraphOf(draft), order)
    requires forall i | 0 <= i < |draft| :: draft[i].maxAttempts <= STORED_LIMITS.maxAttempts
    ensures Acceptable(Arranged(draft, order), STORED_LIMITS)
    ensures Permutation(again, |draft|) && Canonical(GraphOf(Arranged(draft, order)), again) ==>
      Arranged(Arranged(draft, order), again) == Arranged(draft, order)
  {
    var v := Arranged(draft, order);
    var g, h := GraphOf(draft), GraphOf(v);
    ArrangedGraph(draft, order, limits.maxAttempts);
    RenumberedKeepsChains(g, order, h, Min(limits.maxDepth, 10));
    RenumberedIsStable(g, order, h);
    RelaxAttempts(v, limits.maxAttempts);
    if Permutation(again, |v|) && Canonical(h, again) {
      CanonicalIsUnique(h, again, Identity(|v|));
      ArrangedIsStable(draft, order);
    }
  }

  lemma RelaxAttempts(draft: seq<DraftStep>, maxAttempts: int)
    requires Linked(draft, maxAttempts)
    requires forall i | 0 <= i < |draft| :: draft[i].maxAttempts <= STORED_LIMITS.maxAttempts
    ensures Linked(draft, STORED_LIMITS.maxAttempts)
  {
    forall i | 0 <= i < |draft|
      ensures StepAcceptable(Keys(draft), draft[i], STORED_LIMITS.maxAttempts)
    {
      assert StepAcceptable(Keys(draft), draft[i], maxAttempts);
    }
  }

  lemma ArrangedIsStable(draft: seq<DraftStep>, order: seq<nat>)
    requires Permutation(order, |draft|)
    ensures Permutation(Identity(|draft|), |draft|)
    ensures Arranged(Arranged(draft, order), Identity(|draft|)) == Arranged(draft, order)
  {
    var v := Arranged(draft, order);
    var again := Arranged(v, Identity(|draft|));
    ArrangedKeys(draft, order);
    var keys := seq(|draft|, p requires 0 <= p < |draft| => draft[order[p]].key);
    assert keys == seq(|v|, p requires 0 <= p < |v| => v[Identity(|draft|)[p]].key);
    forall p | 0 <= p < |v|
      ensures again[p] == v[p]
    {
      SortedTwice(keys, v[p].dependsOn, draft[order[p]].dependsOn);
    }
  }

  // ---------------------------------------------------------------- validation

  /** The step checks in the order they are made. */
  function Problem(keys: seq<Id>, step: DraftStep, maxAttempts: int): (r: Option<Refusal>)
    ensures r.None? <==> StepAcceptable(keys, step, maxAttempts)
    ensures r.Some? ==> !r.value.DepthExceeded? && !r.value.DependencyCycle?
  {
    if step.maxAttempts > maxAttempts then Some(TooManyAttempts)
    else if !Distinct(step.dependsOn) then Some(DuplicateDependency)
    else BadDependency(keys, step.key, step.dependsOn)
  }

  function BadDependency(keys: seq<Id>, key: Id, deps: seq<Id>): (r: Option<Refusal>)
    ensures r.None? <==> forall d | d in deps :: d != key && d in keys
    ensures r.Some? ==>
      (r.value.SelfDependency? && key in deps)
      || (r.value.MissingDependency? && r.value.key in deps && r.value.key !in keys)
  {
    if deps == [] then None
    else
      assert deps[0] in deps && deps == [deps[0]] + deps[1..];
      if deps[0] == key then Some(SelfDependency)
      else if deps[0] !in keys then Some(MissingDependency(deps[0]))
      else BadDependency(keys, key, deps[1..])
  }

  method Validate(draft: seq<DraftStep>, limits: Limits) returns (r: Validation)
    ensures r.Accepted? <==> Acceptable(draft, limits)
    ensures r.Accepted? ==> exists order: seq<nat> ::
      && Permutation(order, |draft|) && Topological(GraphOf(draft), order)
      && Canonical(GraphOf(draft), order) && r.steps == Arranged(draft, order)
    ensures r == Refused(DependencyCycle) ==> exists i | 0 <= i < |draft| :: Endless(GraphOf(draft), i)
    ensures r == Refused(DepthExceeded) ==> limits.maxDepth > 0
    ensures r == Refused(DepthExceeded) ==>
      exists i | 0 <= i < |draft| :: OverCap(GraphOf(draft), i, Min(limits.maxDepth, 10))
  {
    hide ChainsWithin, Endless, OverCap, Canonical, Topological;
    if limits.maxSteps <= 0 || limits.maxDepth <= 0 || limits.maxAttempts <= 0 {
      return Refused(BadLimit);
    }
    if |draft| > Min(limits.maxSteps, 20) {
      return Refused(TooManySteps);
    }
    if !Distinct(Keys(draft)) {
      return Refused(DuplicateKey);
    }
    for i := 0 to |draft|
      invariant forall j | 0 <= j < i :: StepAcceptable(Keys(draft), draft[j], limits.maxAttempts)
    {
      var problem := Problem(Keys(draft), draft[i], limits.maxAttempts);
      if problem.Some? {
        return Refused(problem.value);
      }
    }
    LinkedIsValid(draft, limits.maxAttempts);
    var sorted := Sort(GraphOf(draft), Min(limits.maxDepth, 10));
    match sorted
    case TooDeep => return Refused(DepthExceeded);
    case Cyclic => return Refused(DependencyCycle);
    case Ordered(order) => return Accepted(Arranged(draft, order));
  }

  // ---------------------------------------------------------------- the stored version

  /** Inserting a version gives every step a fresh id and turns dependency keys into ids. */
  function Stored(number: nat, steps: seq<DraftStep>, ids: seq<Id>, supersedes: map<Id, Id>): Version
    requires |ids| == |steps| && Distinct(ids)
  {
    var keys := Keys(steps);
    Version(number,
      seq(|steps|, i requires 0 <= i < |steps| =>
        Step(ids[i], keys[i], if keys[i] in supersedes then Some(supersedes[keys[i]]) else None,
          i + 1, steps[i].maxAttempts, steps[i].definition)),
      map id | id in ids :: IdsOf(keys, ids, steps[IndexOf(ids, id)].dependsOn))
  }

  function IdsOf(keys: seq<Id>, ids: seq<Id>, deps: seq<Id>): (r: seq<Id>)
    requires |keys| == |ids|
  {
    if deps == [] then []
    else
      var i := IndexOf(keys, deps[0]);
      (if i < |ids| then [ids[i]] else []) + IdsOf(keys, ids, deps[1..])
  }

  lemma {:induction false} IdsOfEarlier(keys: seq<Id>, ids: seq<Id>, deps: seq<Id>, n: nat, id: Id)
    requires |keys| == |ids| && n <= |keys| && id in IdsOf(keys, ids, deps)
    requires forall d | d in deps :: IndexOf(keys, d) < n
    ensures exists j :: 0 <= j < n && ids[j] == id
  {
    var i := IndexOf(keys, deps[0]);
    if id != ids[i] {
      IdsOfEarlier(keys, ids, deps[1..], n, id);
    }
  }

  /** Every version that is stored meets what execution relies on: ordinals from one, distinct ids and
      keys, and dependencies only on steps of a smaller ordinal. */
  lemma StoredVersionIsWellFormed(
    draft: seq<DraftStep>, limits: Limits, order: seq<nat>, number: nat, ids: seq<Id>, supersedes: map<Id, Id>)
    requires Acceptable(draft, limits) && Permutation(order, |draft|) && Topological(GraphOf(draft), order)
    requires |ids| == |draft| && Distinct(ids)
    ensures WellFormed(Stored(number, Arranged(draft, order), ids, supersedes))
  {
    var v := Arranged(draft, order);
    ArrangedGraph(draft, order, limits.maxAttempts);
    RenumberedIsStable(GraphOf(draft), order, GraphOf(v));
    OrderedVersionIsWellFormed(number, v, ids, supersedes);
  }

  lemma OrderedVersionIsWellFormed(number: nat, v: seq<DraftStep>, ids: seq<Id>, supersedes: map<Id, Id>)
    requires Distinct(Keys(v)) && Canonical(GraphOf(v), Identity(|v|)) && |ids| == |v| && Distinct(ids)
    ensures WellFormed(Stored(number, v, ids, supersedes))
  {
    hide Canonical, GraphOf, IdsOf, IndexOf;
    var version := Stored(number, v, ids, supersedes);
    forall i | 0 <= i < |v|
      ensures forall d | d in version.Deps(version.steps[i].id) :: exists j :: 0 <= j < i && version.steps[j].id == d
    {
      StoredDeps(number, v, ids, supersedes, i);
      EarlierTargets(v, i);
      forall d | d in version.Deps(version.steps[i].id)
        ensures exists j :: 0 <= j < i && version.steps[j].id == d
      {
        IdsOfEarlier(Keys(v), ids, v[i].dependsOn, i, d);
        var j :| 0 <= j < i && ids[j] == d;
        assert version.steps[j].id == d;
      }
    }
    assert forall i, j | 0 <= i < j < |v| :: Keys(v)[i] != Keys(v)[j];
  }

  lemma StoredDeps(number: nat, v: seq<DraftStep>, ids: seq<Id>, supersedes: map<Id, Id>, i: nat)
    requires |ids| == |v| && Distinct(ids) && i < |v|
    ensures Stored(number, v, ids, supersedes).Deps(ids[i]) == IdsOf(Keys(v), ids, v[i].dependsOn)
  {
    assert ids[i] in ids && IndexOf(ids, ids[i]) == i;
  }

  lemma EarlierTargets(v: seq<DraftStep>, i: nat)
    requires i < |v| && Canonical(GraphOf(v), Identity(|v|))
    ensures forall d | d in v[i].dependsOn :: IndexOf(Keys(v), d) < i
  {
    var h, id := GraphOf(v), Identity(|v|);
    assert IsNext(h, id[..i], id[i]);
    forall d | d in v[i].dependsOn
      ensures IndexOf(Keys(v), d) < i
    {
      var k :| 0 <= k < |v[i].dependsOn| && v[i].dependsOn[k] == d;
      assert h[i][k] in h[i] && h[i][k] in id[..i];
    }
  }

  // ---------------------------------------------------------------- reading it back

  /** The draft a stored version stands for.  `rows[i]` are the dependencies read for step `i`, in whatever order
      they come: they are sorted by ordinal, and each id becomes the key of its step. */
  function Reload(v: Version, rows: seq<seq<Id>>): (r: seq<DraftStep>)
    requires |rows| == |v.steps|
    ensures |r| == |v.steps|
  {
    seq(|v.steps|, i requires 0 <= i < |v.steps| =>
      DraftStep(v.steps[i].key, KeysOf(v, Sorted(StepIds(v), rows[i])), v.steps[i].maxAttempts, v.steps[i].definition))
  }

  function StepIds(v: Version): (r: seq<Id>)
    ensures |r| == |v.steps|
  {
    seq(|v.steps|, i requires 0 <= i < |v.steps| => v.steps[i].id)
  }

  /** The rows hold the stored dependencies of each step, and no others. */
  ghost predicate RowsOf(v: Version, rows: seq<seq<Id>>) {
    |rows| == |v.steps| && forall i | 0 <= i < |rows| :: forall d :: d in rows[i] <==> d in v.Deps(v.steps[i].id)
  }

  function KeysOf(v: Version, ids: seq<Id>): seq<Id> {
    if ids == [] then []
    else
      var found := FindStep(v.steps, ids[0]);
      [if found.Some? then found.value.key else ""] + KeysOf(v, ids[1..])
  }

  lemma FindStored(number: nat, v: seq<DraftStep>, ids: seq<Id>, supersedes: map<Id, Id>, j: nat)
    requires |ids| == |v| && Distinct(ids) && j < |v|
    ensures var version := Stored(number, v, ids, supersedes);
      FindStep(version.steps, ids[j]) == Some(version.steps[j])
  {
    hide Stored, FindStep;
    var steps := Stored(number, v, ids, supersedes).steps;
    forall i | 0 <= i < |v|
      ensures |steps| == |v| && steps[i].id == ids[i]
    {
      StoredKey(number, v, ids, supersedes, i);
    }
    StoredKey(number, v, ids, supersedes, j);
    assert forall i, k | 0 <= i < k < |steps| :: steps[i].id == ids[i] != ids[k] == steps[k].id;
    FoundInPlace(steps, j);
  }

  lemma FoundInPlace(steps: seq<Step>, j: nat)
    requires j < |steps| && forall i, k | 0 <= i < k < |steps| :: steps[i].id != steps[k].id
    ensures FindStep(steps, steps[j].id) == Some(steps[j])
  {
    hide FindStep;
    assert steps[j] in steps;
    var k :| 0 <= k < |steps| && steps[k] == FindStep(steps, steps[j].id).value;
  }

  /** Ids made from keys turn back into those keys. */
  lemma {:induction false} KeysComeBack(
    number: nat, v: seq<DraftStep>, ids: seq<Id>, supersedes: map<Id, Id>, deps: seq<Id>)
    requires |ids| == |v| && Distinct(ids) && Distinct(Keys(v)) && forall d | d in deps :: d in Keys(v)
    ensures KeysOf(Stored(number, v, ids, supersedes), IdsOf(Keys(v), ids, deps)) == deps
    decreases |deps|
  {
    if deps != [] {
      hide Stored;
      var j := IndexOf(Keys(v), deps[0]);
      assert deps[0] in deps && j < |v|;
      FindStored(number, v, ids, supersedes, j);
      StoredKey(number, v, ids, supersedes, j);
      KeysComeBack(number, v, ids, supersedes, deps[1..]);
      var rest := IdsOf(Keys(v), ids, deps[1..]);
      assert IdsOf(Keys(v), ids, deps) == [ids[j]] + rest && ([ids[j]] + rest)[1..] == rest;
      assert deps == [deps[0]] + deps[1..];
    }
  }

  lemma StoredKey(number: nat, v: seq<DraftStep>, ids: seq<Id>, supersedes: map<Id, Id>, j: nat)
    requires |ids| == |v| && Distinct(ids) && j < |v|
    ensures var version := Stored(number, v, ids, supersedes);
      && |version.steps| == |v| && version.steps[j].key == v[j].key && version.steps[j].id == ids[j]
      && version.steps[j].maxAttempts == v[j].maxAttempts && version.steps[j].definition == v[j].definition
  {
  }

  lemma {:induction false} IdsOfMember(keys: seq<Id>, ids: seq<Id>, deps: seq<Id>, k: nat)
    requires |keys| == |ids| && Distinct(keys) && Distinct(ids) && k < |keys| && forall d | d in deps :: d in keys
    ensures ids[k] in IdsOf(keys, ids, deps) <==> keys[k] in deps
    decreases |deps|
  {
    if deps != [] {
      assert deps == [deps[0]] + deps[1..] && deps[0] in deps;
      IdsOfMember(keys, ids, deps[1..], k);
      var j := IndexOf(keys, deps[0]);
      assert keys[j] == deps[0] && (ids[k] == ids[j] <==> k == j);
    }
  }

  /** Sorting ids by ordinal is sorting the keys they stand for. */
  lemma {:induction false} SortedIds(keys: seq<Id>, ids: seq<Id>, deps: seq<Id>, k: nat)
    requires |keys| == |ids| && Distinct(keys) && Distinct(ids) && k <= |keys| && forall d | d in deps :: d in keys
    ensures Sorted(ids[k..], IdsOf(keys, ids, deps)) == IdsOf(keys, ids, Sorted(keys[k..], deps))
    decreases |keys| - k
  {
    hide Sorted, IdsOf, IndexOf, Distinct;
    if k < |keys| {
      SortedIds(keys, ids, deps, k + 1);
      IdsOfMember(keys, ids, deps, k);
      SortedFrom(keys, deps, k);
      SortedFrom(ids, IdsOf(keys, ids, deps), k);
      IdsOfCons(keys, ids, k, Sorted(keys[k + 1..], deps));
      assert [] + Sorted(keys[k + 1..], deps) == Sorted(keys[k + 1..], deps);
    } else {
      assert keys[k..] == [] && ids[k..] == [];
      NothingSorted(keys, ids, deps, IdsOf(keys, ids, deps));
    }
  }

  lemma SortedFrom(ordered: seq<Id>, deps: seq<Id>, k: nat)
    requires k < |ordered|
    ensures Sorted(ordered[k..], deps)
         == (if ordered[k] in deps then [ordered[k]] else []) + Sorted(ordered[k + 1..], deps)
  {
    assert ordered[k..][1..] == ordered[k + 1..];
  }

  lemma NothingSorted(keys: seq<Id>, ids: seq<Id>, a: seq<Id>, b: seq<Id>)
    requires |keys| == |ids|
    ensures Sorted([], a) == Sorted([], b) == IdsOf(keys, ids, Sorted([], a))
  {
  }

  lemma IdsOfCons(keys: seq<Id>, ids: seq<Id>, k: nat, rest: seq<Id>)
    requires |keys| == |ids| && Distinct(keys) && k < |keys|
    ensures IdsOf(keys, ids, [keys[k]] + rest) == [ids[k]] + IdsOf(keys, ids, rest)
  {
    assert ([keys[k]] + rest)[1..] == rest && IndexOf(keys, keys[k]) == k;
  }

  /** Reading a stored version back gives the validated draft, with every dependency, in order. */
  lemma ReloadUndoesStoring(
    draft: seq<DraftStep>, limits: Limits, order: seq<nat>, number: nat, ids: seq<Id>, supersedes: map<Id, Id>,
    rows: seq<seq<Id>>)
    requires Acceptable(draft, limits) && Permutation(order, |draft|)
    requires |ids| == |draft| && Distinct(ids)
    requires RowsOf(Stored(number, Arranged(draft, order), ids, supersedes), rows)
    ensures Reload(Stored(number, Arranged(draft, order), ids, supersedes), rows) == Arranged(draft, order)
  {
    var v := Arranged(draft, order);
    ArrangedIsLinked(draft, order, limits.maxAttempts);
    ArrangedIsStable(draft, order);
    hide Acceptable, Arranged, Stored, KeysOf, IdsOf, Sorted;
    var version := Stored(number, v, ids, supersedes);
    var again := Reload(version, rows);
    forall i | 0 <= i < |v|
      ensures |again| == |v| && again[i] == v[i]
    {
      ReloadedStep(number, v, ids, supersedes, rows, i, limits.maxAttempts);
    }
  }

  lemma ReloadedStep(
    number: nat, v: seq<DraftStep>, ids: seq<Id>, supersedes: map<Id, Id>, rows: seq<seq<Id>>, i: nat, maxAttempts: int)
    requires Linked(v, maxAttempts) && |ids| == |v| && Distinct(ids) && i < |v|
    requires Permutation(Identity(|v|), |v|) && Arranged(v, Identity(|v|)) == v
    requires RowsOf(Stored(number, v, ids, supersedes), rows)
    ensures Reload(Stored(number, v, ids, supersedes), rows)[i] == v[i]
  {
    var version := Stored(number, v, ids, supersedes);
    var deps := v[i].dependsOn;
    InOrder(v, i);
    hide Stored, KeysOf, IdsOf, Sorted, Arranged;
    StoredKey(number, v, ids, supersedes, i);
    StoredDeps(number, v, ids, supersedes, i);
    forall j | 0 <= j < |v| ensures |version.steps| == |v| && version.steps[j].id == ids[j] {
      StoredKey(number, v, ids, supersedes, j);
    }
    assert StepIds(version) == ids;
    assert StepAcceptable(Keys(v), v[i], maxAttempts);
    SortedTwice(ids, rows[i], version.Deps(ids[i]));
    SortedIds(Keys(v), ids, deps, 0);
    assert ids[0..] == ids && Keys(v)[0..] == Keys(v);
    KeysComeBack(number, v, ids, supersedes, deps);
  }

  lemma InOrder(v: seq<DraftStep>, i: nat)
    requires Permutation(Identity(|v|), |v|) && Arranged(v, Identity(|v|)) == v && i < |v|
    ensures Sorted(Keys(v), v[i].dependsOn) == v[i].dependsOn
  {
    assert Keys(v) == seq(|v|, p requires 0 <= p < |v| => v[Identity(|v|)[p]].key);
  }

  /** The integrity check never rejects what was stored: read back, a stored version is the validated draft,
      passes validation under the fixed stored limits, and is arranged as it stands. */
  lemma StoredPlanReloads(
    draft: seq<DraftStep>, limits: Limits, order: seq<nat>, number: nat, ids: seq<Id>, supersedes: map<Id, Id>,
    rows: seq<seq<Id>>, again: seq<nat>)
    requires Acceptable(draft, limits) && Permutation(order, |draft|) && Topological(GraphOf(draft), order)
    requires forall i | 0 <= i < |draft| :: draft[i].maxAttempts <= STORED_LIMITS.maxAttempts
    requires |ids| == |draft| && Distinct(ids)
    requires RowsOf(Stored(number, Arranged(draft, order), ids, supersedes), rows)
    ensures var read := Reload(Stored(number, Arranged(draft, order), ids, supersedes), rows);
      && read == Arranged(draft, order) && Acceptable(read, STORED_LIMITS)
      && (Permutation(again, |draft|) && Canonical(GraphOf(read), again) ==> Arranged(read, again) == read)
  {
    hide Acceptable, Arranged, Stored, Reload, Canonical, Topological;
    ReloadUndoesStoring(draft, limits, order, number, ids, supersedes, rows);
    ArrangedPlanRevalidates(draft, limits, order, again);
  }
}
