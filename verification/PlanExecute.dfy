/** The two loops that drive a run: applying every compatible reuse in ordinal order, and executing
    attempts until the plan is done or something outside it has to happen. */
module PlanExecute {
  import opened Wrappers
  import opened PlanModel
  import opened PlanReuse
  import opened PlanRun

  // ---------------------------------------------------------------- fresh identifiers

  function LongestId(rows: seq<Attempt>): (n: nat)
    ensures forall a | a in rows :: |a.id| <= n && (a.reusedFrom.Some? ==> |a.reusedFrom.value| <= n)
  {
    if rows == [] then 0
    else
      var n := LongestId(rows[1..]);
      var m := if |rows[0].id| > n then |rows[0].id| else n;
      if rows[0].reusedFrom.Some? && |rows[0].reusedFrom.value| > m then |rows[0].reusedFrom.value| else m
  }

  /** Stands for `uuid4()`: an id no row uses yet. */
  function NewId(s: Store): (id: Id)
    ensures FreshId(s, id)
  {
    seq(LongestId(s.rows) + 1, _ => 'x')
  }

  // ---------------------------------------------------------------- the attempt budget

  function Used(latest: map<Id, Attempt>, id: Id): nat {
    if id in latest then latest[id].number else 0
  }

  /** Attempts the steps from position `k` on may still make. */
  function Remaining(w: World, v: Version, latest: map<Id, Attempt>, k: nat := 0): int
    requires k <= |v.steps|
    decreases |v.steps| - k
  {
    if k == |v.steps| then 0
    else Limit(w, v.steps[k]) - Used(latest, v.steps[k].id) + Remaining(w, v, latest, k + 1)
  }

  lemma {:induction false} RemainingSame(
    w: World, v: Version, latest: map<Id, Attempt>, latest': map<Id, Attempt>, k: nat)
    requires k <= |v.steps|
    requires forall i | k <= i < |v.steps| :: Used(latest', v.steps[i].id) == Used(latest, v.steps[i].id)
    ensures Remaining(w, v, latest', k) == Remaining(w, v, latest, k)
    decreases |v.steps| - k
  {
    if k < |v.steps| {
      RemainingSame(w, v, latest, latest', k + 1);
    }
  }

  /** One more attempt at one step uses up exactly one. */
  lemma {:induction false} RemainingSpends(w: World, v: Version, latest: map<Id, Attempt>, a: Attempt, k: nat, at: nat)
    requires WellFormed(v) && k <= at < |v.steps| && v.steps[at].id == a.stepId
    requires a.number == Used(latest, a.stepId) + 1
    ensures Remaining(w, v, latest[a.stepId := a], k) == Remaining(w, v, latest, k) - 1
    decreases |v.steps| - k
  {
    if k == at {
      RemainingSame(w, v, latest, latest[a.stepId := a], k + 1);
    } else {
      RemainingSpends(w, v, latest, a, k + 1, at);
    }
  }

  lemma UsedWithinLimit(w: World, s: Store, k: nat)
    requires WellFormedPlan(s.plan) && RowsSound(w, s) && k < |s.plan.current.steps|
    ensures Used(Current(w, s), s.plan.current.steps[k].id) <= Limit(w, s.plan.current.steps[k])
  {
    hide DistinctIds, RowsOrdered, OneRunning, RunningIsCurrent, RowSound, WellFormedPlan, Limit;
    var step := s.plan.current.steps[k];
    if step.id in Current(w, s) {
      var j :| 0 <= j < |s.rows| && s.rows[j] == Current(w, s)[step.id];
      CurrentRowWithinLimit(w, s, s.rows[j]);
      CurrentWellFormed(s.plan);
      FindStepUnique(s.plan.current, step);
    }
  }

  lemma CurrentRowWithinLimit(w: World, s: Store, a: Attempt)
    requires WellFormedPlan(s.plan) && RowSound(w, s.plan, s.rows, a) && a.version == s.plan.current.number
    ensures FindStep(s.plan.current.steps, a.stepId).Some?
    ensures a.number <= Limit(w, FindStep(s.plan.current.steps, a.stepId).value)
  {
    hide WellFormed, HasSucceeded, Limit;
    assert s.plan.versions[a.version - 1] == s.plan.current;
  }

  lemma {:induction false} RemainingIsNonNegative(w: World, s: Store, k: nat)
    requires WellFormedPlan(s.plan) && RowsSound(w, s) && k <= |s.plan.current.steps|
    ensures 0 <= Remaining(w, s.plan.current, Current(w, s), k)
    decreases |s.plan.current.steps| - k
  {
    hide WellFormedPlan, RowsSound, Current, Limit, Used;
    if k < |s.plan.current.steps| {
      UsedWithinLimit(w, s, k);
      RemainingIsNonNegative(w, s, k + 1);
    }
  }

  function Budget(w: World, s: Store): int {
    Remaining(w, s.plan.current, Current(w, s))
  }

  lemma BudgetIsNonNegative(w: World, s: Store)
    requires Sound(w, s)
    ensures 0 <= Budget(w, s)
  {
    RemainingIsNonNegative(w, s, 0);
  }

  lemma StartSpends(w: World, s: Store, freshId: Id)
    requires Sound(w, s) && CanStart(w, s, freshId)
    ensures Budget(w, Started(w, s, freshId)) == Budget(w, s) - 1
    ensures Started(w, s, freshId).plan == s.plan && Started(w, s, freshId).approved
    ensures forall i | 0 <= i < |s.rows| :: !s.rows[i].status.Running?
  {
    hide RowsSound, Accepts, PlanWithinLimits, Executable, FreshId, Limit;
    var v := s.plan.current;
    var step := ChooseReady(v, Current(w, s)).value;
    var at :| 0 <= at < |v.steps| && v.steps[at] == step;
    RunningRowNotSucceeded(w, s, step, freshId);
    RemainingSpends(w, v, Current(w, s), FreshAttempt(w, s, step, freshId), 0, at);
  }

  lemma FinishSpendsNothing(w: World, s: Store, i: nat, c: Completion, m: Id)
    requires Sound(w, s) && CanFinish(w, s, i, c, m)
    ensures Budget(w, Finished(w, s, i, c, m)) == Budget(w, s)
  {
    hide Accepts, PlanWithinLimits, Limit, ResultOf, RowSound, WellFormedPlan, RowsOrdered, Latest, OneRunning;
    var s' := Finished(w, s, i, c, m);
    RunningIsLatest(w, s, i);
    LatestUpdate(s.rows, i, s'.rows[i], s.plan.id, s.plan.current.number, w.runId);
    RemainingSame(w, s.plan.current, Current(w, s), Current(w, s'), 0);
  }

  // ---------------------------------------------------------------- reuse

  lemma {:induction false} ProofsSame(
    w: World, s: Store, latest: map<Id, Attempt>, s': Store, latest': map<Id, Attempt>, deps: seq<Id>)
    requires DependenciesProved(w, s, latest, deps)
    requires forall d | d in deps :: DependencyProof(w, s', latest', d) == DependencyProof(w, s, latest, d)
    ensures DependenciesProved(w, s', latest', deps) && Proofs(w, s', latest', deps) == Proofs(w, s, latest, deps)
    decreases |deps|
  {
    hide DependencyProof, Proofs;
    assert forall d | d in deps :: DependencyProof(w, s, latest, d).Some?;
    if deps == [] {
      assert Proofs(w, s, latest, deps) == map[] == Proofs(w, s', latest', deps);
    } else {
      var n := |deps| - 1;
      assert forall d | d in deps[..n] :: d in deps;
      ProofsSame(w, s, latest, s', latest', deps[..n]);
      LastProof(w, s, latest, deps);
      LastProof(w, s', latest', deps);
      assert deps[n] in deps;
    }
  }

  lemma LastProof(w: World, s: Store, latest: map<Id, Attempt>, deps: seq<Id>)
    requires DependenciesProved(w, s, latest, deps) && deps != []
    ensures var n := |deps| - 1;
      && DependenciesProved(w, s, latest, deps[..n]) && DependencyProof(w, s, latest, deps[n]).Some?
      && var p := DependencyProof(w, s, latest, deps[n]).value;
         Proofs(w, s, latest, deps) == Proofs(w, s, latest, deps[..n])[p.newStep.key := p]
  {
    hide DependencyProof;
  }

  /** Whether a step can be reused does not depend on attempts at steps it does not depend on. */
  lemma ReusableIsStable(w: World, env: Environment, s: Store, extra: Attempt, step: Step)
    requires WellFormedPlan(s.plan) && FreshId(s, extra.id) && step in s.plan.current.steps
    requires InScope(extra, s.plan.id, s.plan.current.number, w.runId) && extra.stepId !in Current(w, s)
    requires extra.stepId != step.id && extra.stepId !in s.plan.current.Deps(step.id)
    ensures var s' := s.(rows := s.rows + [extra]);
            Reusable(w, env, s', Current(w, s'), step) ==> Reusable(w, env, s, Current(w, s), step)
  {
    var s' := s.(rows := s.rows + [extra]);
    hide ReuseDocument, CanReuseResult, WellFormedPlan;
    LatestAppend(s.rows, extra, s.plan.id, s.plan.current.number, w.runId);
    var deps := s.plan.current.Deps(step.id);
    forall d | d in deps ensures DependencyProof(w, s', Current(w, s'), d) == DependencyProof(w, s, Current(w, s), d) {
      if d in Current(w, s) && Current(w, s)[d].reusedFrom.Some? {
        FindAttemptAppend(s.rows, extra, w.runId, Current(w, s)[d].reusedFrom.value);
      }
    }
    SourceIsStable(w, s, extra, step);
    hide DependencyProof, ReuseSource;
    if Reusable(w, env, s', Current(w, s'), step) {
      ProofsSame(w, s', Current(w, s'), s, Current(w, s), deps);
    }
  }

  lemma SourceIsStable(w: World, s: Store, extra: Attempt, step: Step)
    requires WellFormedPlan(s.plan) && step in s.plan.current.steps
    requires InScope(extra, s.plan.id, s.plan.current.number, w.runId)
    ensures ReuseSource(w, s.(rows := s.rows + [extra]), step) == ReuseSource(w, s, step)
  {
    hide ReuseDocument, WellFormed;
    if step.supersedes.Some? && FindAnywhere(s.plan.versions, step.supersedes.value).Some? {
      var (version, source) := FindAnywhere(s.plan.versions, step.supersedes.value).value;
      assert source.id !in s.plan.current.Ids() && source.id in version.Ids();
      LatestAppend(s.rows, extra, s.plan.id, version.number, w.runId);
    }
  }

  predicate Extends(s0: Store, s: Store) {
    s.plan == s0.plan && s.approved == s0.approved && s.memory == s0.memory && s0.rows <= s.rows
  }

  /** A reused row sits on reused dependencies and on a source attempt that ran itself. */
  predicate ReusedProperly(w: World, s: Store, a: Attempt) {
    && a.reusedFrom.Some? && a.status.Succeeded?
    && FindAttempt(s.rows, w.runId, a.reusedFrom.value).Some?
    && FindAttempt(s.rows, w.runId, a.reusedFrom.value).value.reusedFrom.None?
    && forall d | d in s.plan.current.Deps(a.stepId) :: d in Current(w, s) && Current(w, s)[d].reusedFrom.Some?
  }

  lemma ProperStaysProper(w: World, s: Store, extra: Attempt, a: Attempt)
    requires ReusedProperly(w, s, a) && extra.stepId !in Current(w, s)
    ensures ReusedProperly(w, s.(rows := s.rows + [extra]), a)
  {
    hide Latest;
    LatestAppend(s.rows, extra, s.plan.id, s.plan.current.number, w.runId);
    FindAttemptAppend(s.rows, extra, w.runId, a.reusedFrom.value);
  }

  lemma NewReuseIsProper(w: World, env: Environment, s: Store, step: Step, id: Id)
    requires WellFormedPlan(s.plan) && DistinctIds(s.rows) && FreshId(s, id)
    requires step in s.plan.current.steps && Reusable(w, env, s, Current(w, s), step)
    ensures ReusedProperly(w, WithReuse(w, s, step, id), ReusedRow(w, s, step, id))
    ensures Current(w, WithReuse(w, s, step, id)) == Current(w, s)[step.id := ReusedRow(w, s, step, id)]
    ensures step.id !in Current(w, s)
  {
    hide WellFormedPlan, ReuseSource, DependencyProof, Proofs, Latest;
    var run := ReuseSource(w, s, step).value.1;
    ReusedStepIsAccepted(w, env, s, step, id);
    ReusedDependenciesAgree(w, env, s, step);
    FindAttemptUnique(s.rows, run);
    FindAttemptAppend(s.rows, ReusedRow(w, s, step, id), w.runId, run.id);
    assert forall d | d in s.plan.current.Deps(step.id) :: SucceededIn(Current(w, s), d);
  }

  lemma EarlierStepsStayUnusable(w: World, env: Environment, s: Store, extra: Attempt, i: nat, k: nat)
    requires WellFormedPlan(s.plan) && FreshId(s, extra.id) && i < k < |s.plan.current.steps|
    requires InScope(extra, s.plan.id, s.plan.current.number, w.runId)
    requires extra.stepId == s.plan.current.steps[k].id && extra.stepId !in Current(w, s)
    requires !Reusable(w, env, s, Current(w, s), s.plan.current.steps[i])
    ensures var s' := s.(rows := s.rows + [extra]); !Reusable(w, env, s', Current(w, s'), s.plan.current.steps[i])
  {
    hide Reusable, Current;
    var v := s.plan.current;
    assert WellFormed(v);
    assert forall d | d in v.Deps(v.steps[i].id) :: exists j :: 0 <= j < i && v.steps[j].id == d;
    ReusableIsStable(w, env, s, extra, v.steps[i]);
  }

  /** What the pass has established after the first `k` steps. */
  ghost predicate Passed(w: World, env: Environment, s0: Store, s: Store, k: nat) {
    && Extends(s0, s) && k <= |s.plan.current.steps|
    && (forall j | |s0.rows| <= j < |s.rows| :: ReusedProperly(w, s, s.rows[j]))
    && (forall i | 0 <= i < k :: !Reusable(w, env, s, Current(w, s), s.plan.current.steps[i]))
  }

  lemma PassOneStep(w: World, env: Environment, s0: Store, s: Store, k: nat, id: Id)
    requires Sound(w, s) && Passed(w, env, s0, s, k) && k < |s.plan.current.steps|
    requires CanReuse(w, env, s, s.plan.current.steps[k], id)
    ensures var s' := WithReuse(w, s, s.plan.current.steps[k], id);
            Passed(w, env, s0, s', k + 1) && NoneRunning(s'.rows) && Executable(Current(w, s'))
  {
    hide Sound, Passed, Extends, Accepts, WellFormedPlan, WellFormed, Reusable, Current, ReusedProperly, FreshId,
      ReusedRow;
    var step := s.plan.current.steps[k];
    CanReuseHasSource(w, env, s, step, id);
    SoundBasics(w, s);
    SoundIsDistinct(w, s);
    RowIsNew(w, s, step, id);
    NewReuseIsProper(w, env, s, step, id);
    PassAppends(w, env, s0, s, k, ReusedRow(w, s, step, id));
  }

  lemma PassAppends(w: World, env: Environment, s0: Store, s: Store, k: nat, row: Attempt)
    requires WellFormedPlan(s.plan) && Passed(w, env, s0, s, k) && k < |s.plan.current.steps|
    requires FreshId(s, row.id) && InScope(row, s.plan.id, s.plan.current.number, w.runId)
    requires row.stepId == s.plan.current.steps[k].id && row.stepId !in Current(w, s)
    requires var s' := s.(rows := s.rows + [row]);
      ReusedProperly(w, s', row) && Current(w, s') == Current(w, s)[row.stepId := row]
    ensures Passed(w, env, s0, s.(rows := s.rows + [row]), k + 1)
  {
    hide WellFormedPlan, Reusable, Current, ReusedProperly, FreshId;
    var s' := s.(rows := s.rows + [row]);
    UsedIsUnusable(w, env, s', s.plan.current.steps[k]);
    forall j | |s0.rows| <= j < |s'.rows| ensures ReusedProperly(w, s', s'.rows[j]) {
      if j < |s.rows| {
        ProperStaysProper(w, s, row, s.rows[j]);
      }
    }
    forall i | 0 <= i < k + 1 ensures !Reusable(w, env, s', Current(w, s'), s.plan.current.steps[i]) {
      if i < k {
        EarlierStepsStayUnusable(w, env, s, row, i, k);
      }
    }
  }

  lemma SoundIsDistinct(w: World, s: Store)
    requires Sound(w, s)
    ensures DistinctIds(s.rows)
  {
  }

  lemma RowIsNew(w: World, s: Store, step: Step, id: Id)
    requires ReuseSource(w, s, step).Some?
    ensures var row := ReusedRow(w, s, step, id);
      && row.id == id && row.stepId == step.id && row.status.Succeeded?
      && InScope(row, s.plan.id, s.plan.current.number, w.runId)
  {
    hide ReuseSource;
  }

  lemma UsedIsUnusable(w: World, env: Environment, s: Store, step: Step)
    requires step.id in Current(w, s)
    ensures !Reusable(w, env, s, Current(w, s), step)
  {
    hide Current;
  }

  /** The pass together with the run events that led to it. */
  ghost predicate Reached(w: World, env: Environment, s0: Store, s: Store, run: seq<Event>, k: nat) {
    && Sound(w, s) && s.approved && Passed(w, env, s0, s, k)
    && Feasible(w, s0, run) && After(w, s0, run) == s
    && (Idle(w, s0) ==> Idle(w, s)) && Budget(w, s) <= Budget(w, s0)
  }

  predicate Idle(w: World, s: Store) {
    NoneRunning(s.rows) && Executable(Current(w, s))
  }

  lemma ReachNext(w: World, env: Environment, s0: Store, s: Store, run: seq<Event>, k: nat, id: Id)
    requires Reached(w, env, s0, s, run, k) && k < |s.plan.current.steps|
    requires CanReuse(w, env, s, s.plan.current.steps[k], id)
    ensures var step := s.plan.current.steps[k];
      Reached(w, env, s0, WithReuse(w, s, step, id), run + [Reuse(step, id, env)], k + 1)
  {
    hide Sound, Passed, Feasible, After, CanReuseResult, DependenciesProved, Proofs, ReuseSource, NoneRunning,
      Executable,
      Current, Budget;
    PassOneStep(w, env, s0, s, k, id);
    ReuseSpends(w, env, s, k, id);
    RunAppend(w, s0, run, Reuse(s.plan.current.steps[k], id, env));
    NextKeepsSound(w, s, Reuse(s.plan.current.steps[k], id, env));
  }

  lemma ReuseSpends(w: World, env: Environment, s: Store, k: nat, id: Id)
    requires Sound(w, s) && k < |s.plan.current.steps| && CanReuse(w, env, s, s.plan.current.steps[k], id)
    ensures Budget(w, WithReuse(w, s, s.plan.current.steps[k], id)) == Budget(w, s) - 1
  {
    hide PlanWithinLimits, Accepts, WellFormedPlan, RowSound, RowsOrdered, OneRunning, RunningIsCurrent,
      ReuseSource, CanReuseResult, DependenciesProved, Proofs, Latest, ReusedProperly, Limit;
    NewReuseIsProper(w, env, s, s.plan.current.steps[k], id);
    CurrentWellFormed(s.plan);
    RemainingSpends(w, s.plan.current, Current(w, s), ReusedRow(w, s, s.plan.current.steps[k], id), 0, k);
  }

  lemma SkipNext(w: World, env: Environment, s0: Store, s: Store, run: seq<Event>, k: nat)
    requires Reached(w, env, s0, s, run, k) && k < |s.plan.current.steps|
    requires !Reusable(w, env, s, Current(w, s), s.plan.current.steps[k])
    ensures Reached(w, env, s0, s, run, k + 1)
  {
    hide Sound, Feasible, After, Reusable, Current, ReusedProperly, Idle;
  }

  /** `apply_compatible_reuse`: one pass over the steps in ordinal order.  It never fails while the
      run is executable; it keeps the run sound; what it adds is closed under dependencies and
      inherits from attempts that were not themselves reused; and it leaves out no step that could
      have been reused. */
  method ApplyCompatibleReuse(w: World, env: Environment, s0: Store) returns (r: Option<Store>, ghost run: seq<Event>)
    requires Sound(w, s0) && s0.approved
    ensures Idle(w, s0) ==> r.Some?
    ensures r.Some? ==> Reached(w, env, s0, r.value, run, |s0.plan.current.steps|)
  {
    hide Sound, Reusable, Current, Executable, NoneRunning, Budget;
    var s := s0;
    run := [];
    for k := 0 to |s0.plan.current.steps|
      invariant Reached(w, env, s0, s, run, k)
    {
      hide Reached, Passed, Idle;
      assert s.plan == s0.plan && (Idle(w, s0) ==> Idle(w, s)) && s.approved by {
        ReachedBasics(w, env, s0, s, run, k);
      }
      var step := s.plan.current.steps[k];
      if Reusable(w, env, s, Current(w, s), step) {
        if !Idle(w, s) {
          return None, run;
        }
        var id := NewId(s);
        ReusableNow(w, env, s, step, id);
        ReachNext(w, env, s0, s, run, k, id);
        run := run + [Reuse(step, id, env)];
        s := WithReuse(w, s, step, id);
      } else {
        SkipNext(w, env, s0, s, run, k);
      }
    }
    r := Some(s);
  }

  lemma ReachedBasics(w: World, env: Environment, s0: Store, s: Store, run: seq<Event>, k: nat)
    requires Reached(w, env, s0, s, run, k)
    ensures s.plan == s0.plan && s.memory == s0.memory && s.approved
    ensures (Idle(w, s0) ==> Idle(w, s)) && Budget(w, s) <= Budget(w, s0)
    ensures On(w, s0, s, run)
  {
    hide Sound, Feasible, After, Reusable, Current, ReusedProperly, Idle;
  }

  lemma ReusableNow(w: World, env: Environment, s: Store, step: Step, id: Id)
    requires Reusable(w, env, s, Current(w, s), step) && Idle(w, s) && s.approved
    requires FreshId(s, id) && step in s.plan.current.steps
    ensures CanReuse(w, env, s, step, id) && ReuseSource(w, s, step).Some?
  {
  }

  // ---------------------------------------------------------------- executing to a boundary

  ghost predicate On(w: World, s0: Store, s: Store, run: seq<Event>) {
    Sound(w, s) && Feasible(w, s0, run) && After(w, s0, run) == s
  }

  lemma OnNext(w: World, s0: Store, s: Store, run: seq<Event>, e: Event)
    requires On(w, s0, s, run) && Enabled(w, s, e)
    ensures On(w, s0, Next(w, s, e), run + [e])
  {
    hide Sound, Enabled, Next;
    RunAppend(w, s0, run, e);
    NextKeepsSound(w, s, e);
  }

  lemma {:induction false} OnTrans(w: World, s0: Store, s1: Store, s2: Store, run: seq<Event>, more: seq<Event>)
    requires On(w, s0, s1, run) && On(w, s1, s2, more)
    ensures On(w, s0, s2, run + more)
    decreases |run|
  {
    hide Sound, Enabled, Next;
    if run == [] {
      assert run + more == more;
    } else {
      assert (run + more)[1..] == run[1..] + more;
      OnTrans(w, Next(w, s0, run[0]), s1, s2, run[1..], more);
    }
  }

  /** What one round of the loop meets from outside: the environment the reuse pass compares with, whether a
      cancellation request is seen at each of the five points where one is looked for, and what the step
      runner answers. */
  datatype Round = Round(
    env: Environment, cancelFirst: bool, cancelAfterReuse: bool, cancelOnCompletion: bool, cancelBeforeRunner: bool,
    cancelAfterRunner: bool, reply: Reply)
  {
    predicate AsksToCancel() {
      cancelFirst || cancelAfterReuse || cancelOnCompletion || cancelBeforeRunner || cancelAfterRunner
    }
  }
  datatype Reply = Paused | Invalid | Done(completion: Completion)

  datatype Outcome =
    | Completed | AwaitingUser | RunCancelled | ReplanRequired
    | Blocked | RunnerError | LookupError | ResultTooLarge

  predicate IsRunning(s: Store, i: nat) {
    i < |s.rows| && s.rows[i].status.Running?
  }

  function FindRunning(rows: seq<Attempt>, k: nat := 0): (r: Option<nat>)
    requires k <= |rows|
    ensures r.Some? ==> r.value < |rows| && rows[r.value].status.Running?
    ensures r.None? ==> forall i | k <= i < |rows| :: !rows[i].status.Running?
    decreases |rows| - k
  {
    if k == |rows| then None
    else if rows[k].status.Running? then Some(k)
    else FindRunning(rows, k + 1)
  }

  /** `_cancel_at_boundary`: the running attempt, if any, is cancelled with the run. */
  method CancelAtBoundary(
    w: World, s0: Store, s: Store, ghost run: seq<Event>)
    returns (s': Store, ghost run': seq<Event>)
    requires On(w, s0, s, run)
    ensures On(w, s0, s', run') && NoneRunning(s'.rows) && s'.plan == s.plan
    ensures |s'.rows| == |s.rows|
  {
    hide WellFormedPlan, PlanWithinLimits, Accepts, Feasible, After, RowSound, RowsOrdered, DistinctIds,
      RunningIsCurrent, Current;
    var i := FindRunning(s.rows);
    if i.None? {
      return s, run;
    }
    OnNext(w, s0, s, run, Cancel(i.value));
    run' := run + [Cancel(i.value)];
    s' := s.(rows := s.rows[i.value := s.rows[i.value].(status := Cancelled)]);
  }

  /** After a success or a retryable failure the run is idle again. */
  lemma SettledIsIdle(w: World, s: Store, i: nat, c: Completion, m: Id)
    requires Sound(w, s) && CanFinish(w, s, i, c, m)
    requires !TargetStatus(w, RunningStep(s, i).value, s.rows[i], c).Terminal()
    ensures Idle(w, Finished(w, s, i, c, m)) && Finished(w, s, i, c, m).plan == s.plan
    ensures Finished(w, s, i, c, m).memory == s.memory[m := ResultEntry(w, ResultOf(w, s, i, c).value)]
  {
    hide Accepts, PlanWithinLimits, Limit, ResultOf, RowSound, RowsOrdered, OneRunning, WellFormedPlan;
    var s' := Finished(w, s, i, c, m);
    SettleKeepsRowsSound(w, s, i, s'.rows[i]);
    forall id | id in Current(w, s')
      ensures !Current(w, s')[id].status.Running? && !Current(w, s')[id].status.Terminal()
    {
      var k :| 0 <= k < |s'.rows| && s'.rows[k] == Current(w, s')[id];
      assert k != i ==> s'.rows[k] == s.rows[k];
    }
  }

  /** Unused memory ids, in the order in which they will be handed out, from the `n`-th on. */
  predicate Pool(ids: seq<Id>, memory: map<Id, Entry>, n: nat) {
    && (forall k | n <= k < |ids| :: MemoryId(ids[k]) && ids[k] !in memory)
    && (forall k, l | n <= k < l < |ids| :: ids[k] != ids[l])
  }

  /** The result of picking the next attempt. */
  datatype Dispatch = Go(row: nat) | AllDone | Refused | Interrupted

  /** One dispatch: the reuse pass, then `start_next_attempt`. */
  method StartNext(w: World, round: Round, s0: Store, s: Store, ghost run: seq<Event>)
    returns (d: Dispatch, s': Store, ghost run': seq<Event>)
    requires On(w, s0, s, run) && s.approved
    ensures On(w, s0, s', run') && s'.plan == s.plan && s'.memory == s.memory && s'.approved
    ensures d.Go? ==> IsRunning(s', d.row) && Budget(w, s') < Budget(w, s)
    ensures !d.Go? ==> Budget(w, s') <= Budget(w, s)
    ensures d.AllDone? ==> AllSucceeded(s'.plan.current, Current(w, s'))
    ensures Idle(w, s) ==> !d.Refused?
    ensures d.Interrupted? ==> round.cancelAfterReuse || round.cancelOnCompletion
    ensures round.cancelAfterReuse ==> d.Refused? || d.Interrupted?
    ensures round.cancelOnCompletion ==> !d.AllDone?
  {
    hide Sound, Feasible, After, Budget, Current, Idle, Reached, WellFormed, WellFormedPlan, Accepts,
      AllSucceeded, Limit;
    ghost var more;
    var reused;
    reused, more := ApplyCompatibleReuse(w, round.env, s);
    if reused.None? {
      return Refused, s, run;
    }
    s' := reused.value;
    ReachedBasics(w, round.env, s, s', more, |s.plan.current.steps|);
    OnTrans(w, s0, s, s', run, more);
    run' := run + more;
    if round.cancelAfterReuse {
      d := Interrupted;
      return;
    }
    if !Idle(w, s') {
      d := Refused;
      return;
    }
    SoundBasics(w, s');
    var documents := LoadSucceededResults(w, s', Current(w, s'));
    if documents.None? {
      d := Refused;
      return;
    }
    var step := ChooseReady(s'.plan.current, Current(w, s'));
    if step.None? {
      NothingReady(w, s');
      d := if !AllSucceeded(s'.plan.current, Current(w, s')) then Refused
      else if round.cancelOnCompletion then Interrupted else AllDone;
      return;
    }
    var id := NewId(s');
    var attempt := FreshAttempt(w, s', step.value, id);
    ReadyWithinLimit(w, s', id);
    if attempt.number > Limit(w, step.value) {
      d := Refused;
      return;
    }
    StartSpends(w, s', id);
    OnNext(w, s0, s', run', Start(id));
    run' := run' + [Start(id)];
    d := Go(|s'.rows|);
    s' := s'.(rows := s'.rows + [attempt]);
  }

  lemma SoundBasics(w: World, s: Store)
    requires Sound(w, s)
    ensures WellFormed(s.plan.current) && Accepts(w, s, Current(w, s)) && WellFormedPlan(s.plan)
  {
  }

  lemma NothingReady(w: World, s: Store)
    requires Sound(w, s) && Idle(w, s) && ChooseReady(s.plan.current, Current(w, s)).None?
    ensures AllSucceeded(s.plan.current, Current(w, s))
  {
    NothingReadyMeansAllSucceeded(s.plan.current, Current(w, s));
  }

  /** A retryable failure was only recorded while attempts were left, so the limit never refuses. */
  lemma ReadyWithinLimit(w: World, s: Store, id: Id)
    requires Sound(w, s) && Idle(w, s) && s.approved && FreshId(s, id)
    requires ChooseReady(s.plan.current, Current(w, s)).Some?
    ensures CanStart(w, s, id)
  {
    hide Accepts, PlanWithinLimits, RowsSound, FreshId, Executable, NoneRunning, WellFormedPlan, Current;
    var step := ChooseReady(s.plan.current, Current(w, s)).value;
    var a := FreshAttempt(w, s, step, id);
    CurrentWellFormed(s.plan);
    FindStepUnique(s.plan.current, step);
    NewNumberWithinLimit(w, s, a);
  }

  /** `_finalize_step_attempt`, or why the result could not be stored. */
  method StoreResult(w: World, s0: Store, s: Store, ghost run: seq<Event>, i: nat, c: Completion, memoryId: Id)
    returns (stopped: Option<Outcome>, s': Store, ghost run': seq<Event>)
    requires On(w, s0, s, run) && IsRunning(s, i) && MemoryId(memoryId) && memoryId !in s.memory
    ensures On(w, s0, s', run') && s'.plan == s.plan && s'.approved == s.approved && Budget(w, s') == Budget(w, s)
    ensures s'.memory.Keys <= s.memory.Keys + {memoryId}
    ensures stopped.None? ==> Idle(w, s')
    ensures stopped.Some? ==> stopped.value in {LookupError, ResultTooLarge, ReplanRequired}
    ensures stopped == Some(LookupError) <==> DependsOnReused(w, s, i)
    ensures stopped == Some(LookupError) ==> s' == s
  {
    hide Sound, Feasible, After, Budget, Current, Executable, NoneRunning, ReadDocument, BuildResultDocument,
      DependencyDocuments, DependenciesReadable;
    RunningHasStep(w, s, i);
    var step := RunningStep(s, i).value;
    ResultBuildsIffDependenciesAreFresh(w, s, step, s.rows[i], c);
    var doc := ResultOf(w, s, i, c);
    if doc.None? {
      return Some(LookupError), s, run;
    }
    if w.size(doc.value) > MAX_RESULT_BYTES {
      return Some(ResultTooLarge), s, run;
    }
    FinishSpendsNothing(w, s, i, c, memoryId);
    OnNext(w, s0, s, run, Finish(i, c, memoryId));
    run' := run + [Finish(i, c, memoryId)];
    s' := Finished(w, s, i, c, memoryId);
    if TargetStatus(w, step, s.rows[i], c).FailedTerminal? {
      stopped := Some(ReplanRequired);
    } else {
      SettledIsIdle(w, s, i, c, memoryId);
      stopped := None;
    }
  }

  /** The attempt in row `i` is running although a dependency of its step was reused. */
  ghost predicate DependsOnReused(w: World, s: Store, i: nat) {
    && IsRunning(s, i)
    && exists d :: d in s.plan.current.Deps(s.rows[i].stepId) && ReusedIn(Current(w, s), d)
  }

  predicate ReusedIn(latest: map<Id, Attempt>, id: Id) {
    id in latest && latest[id].reusedFrom.Some?
  }

  lemma RunningHasStep(w: World, s: Store, i: nat)
    requires Sound(w, s) && IsRunning(s, i)
    ensures WellFormedPlan(s.plan) && Accepts(w, s, Current(w, s)) && RunningStep(s, i).Some?
    ensures forall d | d in s.plan.current.Deps(s.rows[i].stepId) :: SucceededIn(Current(w, s), d)
    ensures s.approved
  {
    hide Accepts, PlanWithinLimits, WellFormedPlan, Current, RowSound;
    RunningIsLatest(w, s, i);
  }

  /** `_execute_to_boundary`.  The loop ends for every behaviour of the runner, after at most as
      many starts as the version's attempt limits leave; every state it passes is reached by events
      of the run machine; it reports completion only when every step has succeeded; and a run that
      began idle (or resumed its running attempt) is never reported blocked. */
  method ExecuteToBoundary(w: World, s0: Store, resume: bool, rounds: nat -> Round, memoryIds: seq<Id>)
    returns (outcome: Outcome, s: Store, started: nat, ghost run: seq<Event>)
    requires Sound(w, s0) && s0.approved && Pool(memoryIds, s0.memory, 0) && |memoryIds| > Budget(w, s0)
    ensures On(w, s0, s, run) && s.plan == s0.plan
    ensures started <= Budget(w, s0)
    ensures outcome.Completed? ==> AllSucceeded(s.plan.current, Current(w, s))
    ensures (if resume then FindRunning(s0.rows).Some? else Idle(w, s0)) ==> !outcome.Blocked?
    ensures outcome.LookupError? ==> exists i :: DependsOnReused(w, s, i)
    ensures outcome.RunCancelled? ==> NoneRunning(s.rows) && exists n: nat :: rounds(n).AsksToCancel()
  {
    hide Sound, Feasible, After, Budget, Current, Executable, NoneRunning;
    s, started, run := s0, 0, [];
    assert On(w, s0, s, run) by { OnStart(w, s0); }
    BudgetIsNonNegative(w, s0);
    var n: nat, resuming := 0, resume;
    while true
      invariant On(w, s0, s, run) && s.plan == s0.plan && s.approved && Pool(memoryIds, s.memory, n)
      invariant started + Budget(w, s) <= Budget(w, s0) && 0 <= Budget(w, s)
      invariant resuming ==> resume && s == s0 && n == 0
      invariant n + Budget(w, s) <= Budget(w, s0) + (if resume then 1 else 0)
      invariant (if resume then FindRunning(s0.rows).Some? else Idle(w, s0)) ==> resuming || Idle(w, s)
      decreases Budget(w, s), resuming
    {
      var round := rounds(n);
      if round.cancelFirst {
        s, run := CancelAtBoundary(w, s0, s, run);
        return RunCancelled, s, started, run;
      }
      var i: nat;
      if resuming {
        var found := FindRunning(s.rows);
        if found.None? {
          return Blocked, s, started, run;
        }
        i := found.value;
      } else {
        var d;
        ghost var before := s;
        d, s, run := StartNext(w, round, s0, s, run);
        BudgetIsNonNegative(w, s);
        match d {
          case Refused => return Blocked, s, started, run;
          case AllDone => return Completed, s, started, run;
          case Interrupted =>
            s, run := CancelAtBoundary(w, s0, s, run);
            return RunCancelled, s, started, run;
          case Go(row) => i, started := row, started + 1;
        }
      }
      if round.cancelBeforeRunner {
        s, run := CancelAtBoundary(w, s0, s, run);
        return RunCancelled, s, started, run;
      }
      match round.reply {
        case Paused => return AwaitingUser, s, started, run;
        case Invalid => return RunnerError, s, started, run;
        case Done(c) =>
          if round.cancelAfterRunner {
            s, run := CancelAtBoundary(w, s0, s, run);
            return RunCancelled, s, started, run;
          }
          var stopped;
          stopped, s, run := StoreResult(w, s0, s, run, i, c, memoryIds[n]);
          if stopped.Some? {
            return stopped.value, s, started, run;
          }
      }
      resuming, n := false, n + 1;
    }
  }

  lemma OnStart(w: World, s: Store)
    requires Sound(w, s)
    ensures On(w, s, s, [])
  {
  }

  function TotalLimit(w: World, v: Version, k: nat := 0): nat
    requires k <= |v.steps|
    decreases |v.steps| - k
  {
    if k == |v.steps| then 0 else Limit(w, v.steps[k]) + TotalLimit(w, v, k + 1)
  }

  /** The budget never exceeds the sum over the steps of their attempt limits. */
  lemma {:induction false} BudgetWithinLimits(w: World, v: Version, latest: map<Id, Attempt>, k: nat)
    requires k <= |v.steps|
    ensures Remaining(w, v, latest, k) <= TotalLimit(w, v, k)
    decreases |v.steps| - k
  {
    if k < |v.steps| {
      BudgetWithinLimits(w, v, latest, k + 1);
    }
  }
}
