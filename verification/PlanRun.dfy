/** A plan run as a state machine over its durable rows: reuse, fresh and retried attempts, results,
    cancellation, revision and approval.  `Sound` holds in every reachable state; it includes that
    the reading checker accepts the state, so no run is ever blocked by its own results. */
module PlanRun {
  import opened Wrappers
  import opened PlanModel
  import opened PlanReuse
  import opened Counting

  datatype Completion = Completion(
    succeeded: bool, summary: string, evidence: seq<string>, retryable: bool, env: Environment)

  // ---------------------------------------------------------------- choosing a step

  function Limit(w: World, step: Step): nat {
    if step.maxAttempts < w.maxStepAttempts then step.maxAttempts else w.maxStepAttempts
  }

  predicate StepReady(v: Version, latest: map<Id, Attempt>, step: Step) {
    && (step.id in latest ==> !latest[step.id].status.NonDispatchable())
    && forall d | d in v.Deps(step.id) :: SucceededIn(latest, d)
  }

  /** The ready step with the lowest ordinal at or after position `k`. */
  function ChooseReady(v: Version, latest: map<Id, Attempt>, k: nat := 0): (r: Option<Step>)
    requires k <= |v.steps|
    ensures r.Some? ==> r.value in v.steps && StepReady(v, latest, r.value)
    ensures r.None? ==> forall i | k <= i < |v.steps| :: !StepReady(v, latest, v.steps[i])
    decreases |v.steps| - k
  {
    if k == |v.steps| then None
    else if StepReady(v, latest, v.steps[k]) then Some(v.steps[k])
    else ChooseReady(v, latest, k + 1)
  }

  predicate AllSucceeded(v: Version, latest: map<Id, Attempt>) {
    forall i | 0 <= i < |v.steps| :: SucceededIn(latest, v.steps[i].id)
  }

  predicate Executable(latest: map<Id, Attempt>) {
    forall id | id in latest :: !latest[id].status.Running? && !latest[id].status.Terminal()
  }

  /** With nothing running and nothing terminally failed, "no step is ready" means "all done":
      the exit that reports a plan blocked by a failed dependency is unreachable. */
  lemma NothingReadyMeansAllSucceeded(v: Version, latest: map<Id, Attempt>)
    requires WellFormed(v) && Executable(latest)
    requires ChooseReady(v, latest).None?
    ensures AllSucceeded(v, latest)
  {
    SucceededUpTo(v, latest, |v.steps|);
  }

  lemma {:induction false} SucceededUpTo(v: Version, latest: map<Id, Attempt>, k: nat)
    requires WellFormed(v) && Executable(latest) && k <= |v.steps|
    requires forall i | 0 <= i < |v.steps| :: !StepReady(v, latest, v.steps[i])
    ensures forall i | 0 <= i < k :: SucceededIn(latest, v.steps[i].id)
  {
    if k > 0 {
      SucceededUpTo(v, latest, k - 1);
      assert !StepReady(v, latest, v.steps[k - 1]);
      assert forall d | d in v.Deps(v.steps[k - 1].id) :: SucceededIn(latest, d);
    }
  }

  // ---------------------------------------------------------------- what every state satisfies

  predicate HasSucceeded(rows: seq<Attempt>, stepId: Id) {
    exists i :: 0 <= i < |rows| && rows[i].stepId == stepId && rows[i].status.Succeeded?
  }

  /** A row belongs to a step of a known version, respects that step's attempt limit, and was only
      created once everything the step depends on had succeeded. */
  predicate RowSound(w: World, p: Plan, rows: seq<Attempt>, a: Attempt) {
    && a.runId == w.runId && a.planId == p.id
    && 1 <= a.version <= |p.versions| && !a.status.Pending? && (a.status.Running? ==> a.reusedFrom.None?)
    && FindStep(p.versions[a.version - 1].steps, a.stepId).Some?
    && (var limit := Limit(w, FindStep(p.versions[a.version - 1].steps, a.stepId).value);
        1 <= a.number <= limit && (a.status.FailedRetryable? ==> a.number < limit))
    && (forall d | d in p.versions[a.version - 1].Deps(a.stepId) :: HasSucceeded(rows, d))
  }

  /** Of two attempts at one step the earlier failed retryably and has the lower number.  So a step
      that succeeded, failed for good, was cancelled or is running has no further attempt. */
  predicate RowsOrdered(rows: seq<Attempt>) {
    forall i, j | 0 <= i < j < |rows| && rows[i].stepId == rows[j].stepId ::
      rows[i].status.FailedRetryable? && rows[i].number < rows[j].number
  }

  predicate OneRunning(rows: seq<Attempt>) {
    forall i, j | 0 <= i < j < |rows| :: !(rows[i].status.Running? && rows[j].status.Running?)
  }

  predicate NoneRunning(rows: seq<Attempt>) {
    forall i | 0 <= i < |rows| :: !rows[i].status.Running?
  }

  /** Only an approved current version runs, and never beside a terminal failure of its own. */
  predicate RunningIsCurrent(s: Store) {
    forall i | 0 <= i < |s.rows| && s.rows[i].status.Running? ::
      && s.approved && s.rows[i].version == s.plan.current.number
      && forall j | 0 <= j < |s.rows| && s.rows[j].version == s.plan.current.number :: !s.rows[j].status.Terminal()
  }

  predicate PlanWithinLimits(w: World, p: Plan) {
    && w.maxStepAttempts >= 1
    && |p.versions| <= w.maxRevisions + 1
    && forall k | 0 <= k < |p.versions| :: VersionWithinLimits(w, p.versions[k])
  }

  predicate VersionWithinLimits(w: World, v: Version) {
    |v.steps| <= w.maxSteps && forall i | 0 <= i < |v.steps| :: v.steps[i].maxAttempts >= 1
  }

  predicate RowsSound(w: World, s: Store) {
    && DistinctIds(s.rows) && RowsOrdered(s.rows) && OneRunning(s.rows) && RunningIsCurrent(s)
    && forall i | 0 <= i < |s.rows| :: RowSound(w, s.plan, s.rows, s.rows[i])
  }

  predicate Sound(w: World, s: Store) {
    && WellFormedPlan(s.plan) && PlanWithinLimits(w, s.plan) && RowsSound(w, s)
    && Accepts(w, s, Current(w, s))
  }

  /** Rows of a current step are rows of the current version, because step ids are never reused. */
  lemma OwnVersion(w: World, s: Store, a: Attempt)
    requires WellFormedPlan(s.plan) && RowSound(w, s.plan, s.rows, a) && a.stepId in s.plan.current.Ids()
    ensures InScope(a, s.plan.id, s.plan.current.number, w.runId)
  {
    assert a.stepId in s.plan.versions[a.version - 1].Ids();
    SameVersion(s.plan, a.version - 1, |s.plan.versions| - 1, a.stepId);
  }

  lemma SameVersion(p: Plan, k: nat, l: nat, id: Id)
    requires WellFormedPlan(p) && k <= l < |p.versions|
    requires id in p.versions[k].Ids() && id in p.versions[l].Ids()
    ensures k == l
  {
  }

  // ---------------------------------------------------------------- adding an attempt

  /** What every new row must meet, whether it starts a run or records a reuse. */
  predicate CanAppend(w: World, s: Store, a: Attempt) {
    && s.approved && NoneRunning(s.rows) && Executable(Current(w, s))
    && FreshId(s, a.id) && (a.status.Succeeded? || (a.status.Running? && a.reusedFrom.None?))
    && InScope(a, s.plan.id, s.plan.current.number, w.runId)
    && a.stepId in s.plan.current.Ids()
    && StepReady(s.plan.current, Current(w, s), FindStep(s.plan.current.steps, a.stepId).value)
    && a.number == (if a.stepId in Current(w, s) then Current(w, s)[a.stepId].number else 0) + 1
  }

  lemma HasSucceededAppend(rows: seq<Attempt>, a: Attempt, d: Id)
    requires HasSucceeded(rows, d)
    ensures HasSucceeded(rows + [a], d)
  {
    var i :| 0 <= i < |rows| && rows[i].stepId == d && rows[i].status.Succeeded?;
    assert (rows + [a])[i] == rows[i];
  }

  lemma RowSoundAppend(w: World, p: Plan, rows: seq<Attempt>, a: Attempt, b: Attempt)
    requires RowSound(w, p, rows, b)
    ensures RowSound(w, p, rows + [a], b)
  {
    forall d | d in p.versions[b.version - 1].Deps(b.stepId) ensures HasSucceeded(rows + [a], d) {
      HasSucceededAppend(rows, a, d);
    }
  }

  /** The rows already there for the step are all retryable failures with lower numbers. */
  lemma EarlierAttempts(w: World, s: Store, a: Attempt, i: nat)
    requires WellFormedPlan(s.plan) && RowsSound(w, s) && CanAppend(w, s, a)
    requires i < |s.rows| && s.rows[i].stepId == a.stepId
    ensures s.rows[i].status.FailedRetryable? && s.rows[i].number < a.number
  {
    hide WellFormedPlan, DistinctIds, OneRunning, RunningIsCurrent, RowSound, NoneRunning, FreshId, Latest;
    assert RowSound(w, s.plan, s.rows, s.rows[i]);
    OwnVersion(w, s, s.rows[i]);
    var m := Current(w, s)[a.stepId];
    var j :| 0 <= j < |s.rows| && s.rows[j] == m;
    assert s.rows[i].number <= m.number;
    assert RowSound(w, s.plan, s.rows, s.rows[j]);
    LatestIsLast(s.rows, i, j);
    RetryableIfReady(w, s, a.stepId, j);
  }

  /** Of the attempts at a step the one with the highest number comes last. */
  lemma LatestIsLast(rows: seq<Attempt>, i: nat, j: nat)
    requires RowsOrdered(rows) && i < |rows| && j < |rows| && rows[i].stepId == rows[j].stepId
    requires rows[i].number <= rows[j].number
    ensures i <= j && (i < j ==> rows[i].status.FailedRetryable?)
  {
  }

  lemma RetryableIfReady(w: World, s: Store, id: Id, j: nat)
    requires j < |s.rows| && RowSound(w, s.plan, s.rows, s.rows[j])
    requires id in Current(w, s) && Current(w, s)[id] == s.rows[j]
    requires Executable(Current(w, s)) && FindStep(s.plan.current.steps, id).Some?
    requires StepReady(s.plan.current, Current(w, s), FindStep(s.plan.current.steps, id).value)
    ensures s.rows[j].status.FailedRetryable?
  {
    hide Latest, HasSucceeded, Limit;
  }

  lemma NewNumberWithinLimit(w: World, s: Store, a: Attempt)
    requires WellFormedPlan(s.plan) && PlanWithinLimits(w, s.plan) && RowsSound(w, s) && CanAppend(w, s, a)
    ensures 1 <= a.number <= Limit(w, FindStep(s.plan.current.steps, a.stepId).value)
  {
    hide DistinctIds, RowsOrdered, OneRunning, RunningIsCurrent, Executable, StepReady, FreshId, NoneRunning, RowSound,
      WellFormedPlan, PlanWithinLimits, Latest, Limit;
    var step := FindStep(s.plan.current.steps, a.stepId).value;
    if a.stepId in Current(w, s) {
      var j :| 0 <= j < |s.rows| && s.rows[j] == Current(w, s)[a.stepId];
      EarlierAttempts(w, s, a, j);
      RetryableLeavesOne(w, s, s.rows[j], step);
    } else {
      LimitIsPositive(w, s.plan, step);
    }
  }

  lemma RetryableLeavesOne(w: World, s: Store, a: Attempt, step: Step)
    requires WellFormedPlan(s.plan) && RowSound(w, s.plan, s.rows, a) && a.version == s.plan.current.number
    requires FindStep(s.plan.current.steps, a.stepId) == Some(step) && a.status.FailedRetryable?
    ensures 1 <= a.number < Limit(w, step)
  {
    hide WellFormed, HasSucceeded, Limit;
    assert s.plan.versions[a.version - 1] == s.plan.current;
  }

  lemma LimitIsPositive(w: World, p: Plan, step: Step)
    requires WellFormedPlan(p) && PlanWithinLimits(w, p) && step in p.current.steps
    ensures 1 <= Limit(w, step)
  {
    hide WellFormed;
    assert VersionWithinLimits(w, p.versions[|p.versions| - 1]);
    var k :| 0 <= k < |p.current.steps| && p.current.steps[k] == step;
  }

  lemma NewRowSound(w: World, s: Store, a: Attempt)
    requires WellFormedPlan(s.plan) && PlanWithinLimits(w, s.plan) && RowsSound(w, s) && CanAppend(w, s, a)
    ensures RowSound(w, s.plan, s.rows + [a], a)
  {
    hide RowsSound, PlanWithinLimits, WellFormed, Executable, FreshId, NoneRunning, Limit;
    NewNumberWithinLimit(w, s, a);
    forall d | d in s.plan.current.Deps(a.stepId) ensures HasSucceeded(s.rows + [a], d) {
      assert SucceededIn(Current(w, s), d);
      var j :| 0 <= j < |s.rows| && s.rows[j] == Current(w, s)[d];
      assert (s.rows + [a])[j] == s.rows[j];
    }
  }

  lemma AppendKeepsRowsSound(w: World, s: Store, a: Attempt)
    requires WellFormedPlan(s.plan) && PlanWithinLimits(w, s.plan) && RowsSound(w, s) && CanAppend(w, s, a)
    ensures RowsSound(w, s.(rows := s.rows + [a]))
  {
    hide WellFormedPlan, PlanWithinLimits, RowSound, Current, StepReady;
    var s' := s.(rows := s.rows + [a]);
    forall i | 0 <= i < |s'.rows| ensures RowSound(w, s.plan, s'.rows, s'.rows[i]) {
      if i < |s.rows| {
        RowSoundAppend(w, s.plan, s.rows, a, s.rows[i]);
      } else {
        NewRowSound(w, s, a);
      }
    }
    forall i, j | 0 <= i < j < |s'.rows| && s'.rows[i].stepId == s'.rows[j].stepId
      ensures s'.rows[i].status.FailedRetryable? && s'.rows[i].number < s'.rows[j].number
    {
      if j == |s.rows| {
        EarlierAttempts(w, s, a, i);
      }
    }
    RunningStaysCurrent(w, s, a);
  }

  /** A step's row in any status but a retryable failure is the step's latest attempt. */
  lemma SettledIsLatest(w: World, s: Store, i: nat)
    requires RowsSound(w, s) && i < |s.rows| && s.rows[i].version == s.plan.current.number
    requires !s.rows[i].status.FailedRetryable?
    ensures s.rows[i].stepId in Current(w, s) && Current(w, s)[s.rows[i].stepId] == s.rows[i]
  {
    hide DistinctIds, OneRunning, RunningIsCurrent, HasSucceeded, Limit;
    assert RowSound(w, s.plan, s.rows, s.rows[i]);
    var m := Current(w, s)[s.rows[i].stepId];
    var k :| 0 <= k < |s.rows| && s.rows[k] == m;
  }

  lemma RunningStaysCurrent(w: World, s: Store, a: Attempt)
    requires RowsSound(w, s) && CanAppend(w, s, a)
    ensures RunningIsCurrent(s.(rows := s.rows + [a]))
  {
    hide RowsSound, Current, StepReady;
    forall j | 0 <= j < |s.rows| && s.rows[j].version == s.plan.current.number
      ensures !s.rows[j].status.Terminal()
    {
      if s.rows[j].status.Terminal() {
        SettledIsLatest(w, s, j);
      }
    }
  }

  // ---------------------------------------------------------------- start and reuse

  function FreshAttempt(w: World, s: Store, step: Step, freshId: Id): Attempt {
    var prior := if step.id in Current(w, s) then Current(w, s)[step.id].number else 0;
    Attempt(freshId, w.runId, s.plan.id, s.plan.current.number, step.id, prior + 1, Running, None, None, None, None)
  }

  /** `start_next_attempt`: the checks of `_select_next` and of `create_step_attempt`. */
  predicate CanStart(w: World, s: Store, freshId: Id) {
    && s.approved && NoneRunning(s.rows) && Executable(Current(w, s)) && FreshId(s, freshId)
    && Accepts(w, s, Current(w, s)) && ChooseReady(s.plan.current, Current(w, s)).Some?
    && FreshAttempt(w, s, ChooseReady(s.plan.current, Current(w, s)).value, freshId).number
       <= Limit(w, ChooseReady(s.plan.current, Current(w, s)).value)
  }

  function Started(w: World, s: Store, freshId: Id): Store
    requires CanStart(w, s, freshId)
  {
    s.(rows := s.rows + [FreshAttempt(w, s, ChooseReady(s.plan.current, Current(w, s)).value, freshId)])
  }

  predicate CanReuse(w: World, env: Environment, s: Store, step: Step, freshId: Id) {
    && s.approved && NoneRunning(s.rows) && Executable(Current(w, s)) && FreshId(s, freshId)
    && step in s.plan.current.steps && Reusable(w, env, s, Current(w, s), step)
  }

  lemma StartIsAppend(w: World, s: Store, freshId: Id)
    requires WellFormedPlan(s.plan) && CanStart(w, s, freshId)
    ensures CanAppend(w, s, FreshAttempt(w, s, ChooseReady(s.plan.current, Current(w, s)).value, freshId))
  {
    hide Accepts, Executable, NoneRunning, FreshId, Current;
    var step := ChooseReady(s.plan.current, Current(w, s)).value;
    FindStepUnique(s.plan.current, step);
  }

  /** A reused step meets the readiness test that guards the insert, so the insert never fails. */
  lemma ReuseIsAppend(w: World, env: Environment, s: Store, step: Step, freshId: Id)
    requires WellFormedPlan(s.plan) && CanReuse(w, env, s, step, freshId)
    ensures CanAppend(w, s, ReusedRow(w, s, step, freshId))
  {
    hide WellFormed, CanReuseResult, DependenciesProved, Proofs, ReuseSource, Executable, NoneRunning, FreshId, Current;
    assert WellFormed(s.plan.current);
    FindStepUnique(s.plan.current, step);
    ReusedDependenciesAgree(w, env, s, step);
    assert step.id in s.plan.current.Ids();
  }

  lemma StartKeepsSound(w: World, s: Store, freshId: Id)
    requires Sound(w, s) && CanStart(w, s, freshId)
    ensures Sound(w, Started(w, s, freshId))
  {
    hide WellFormedPlan, PlanWithinLimits, RowsSound, StepAccepted, Current, FreshAttempt;
    var step := ChooseReady(s.plan.current, Current(w, s)).value;
    var row := FreshAttempt(w, s, step, freshId);
    var s' := Started(w, s, freshId);
    StartIsAppend(w, s, freshId);
    AppendKeepsRowsSound(w, s, row);
    RunningRowNotSucceeded(w, s, step, freshId);
    forall i | 0 <= i < |s.plan.current.steps| && SucceededIn(Current(w, s'), s.plan.current.steps[i].id)
      ensures StepAccepted(w, s', Current(w, s'), s.plan.current.steps[i])
    {
      assert SucceededIn(Current(w, s), s.plan.current.steps[i].id);
      AppendKeepsAccepted(w, s, row, s.plan.current.steps[i]);
    }
  }

  lemma RunningRowNotSucceeded(w: World, s: Store, step: Step, freshId: Id)
    requires StepReady(s.plan.current, Current(w, s), step)
    ensures var row := FreshAttempt(w, s, step, freshId);
            var s' := s.(rows := s.rows + [row]);
            && row.stepId == step.id && !SucceededIn(Current(w, s), step.id)
            && Current(w, s') == Current(w, s)[step.id := row]
            && forall id | SucceededIn(Current(w, s'), id) :: SucceededIn(Current(w, s), id)
  {
    LatestAppend(s.rows, FreshAttempt(w, s, step, freshId), s.plan.id, s.plan.current.number, w.runId);
  }

  /** Reuse keeps the run sound, so it never leads to a blocked run. */
  lemma ReuseKeepsSound(w: World, env: Environment, s: Store, step: Step, freshId: Id)
    requires Sound(w, s) && CanReuse(w, env, s, step, freshId)
    ensures Sound(w, WithReuse(w, s, step, freshId))
  {
    hide WellFormedPlan, PlanWithinLimits, Current, Accepts, CanReuseResult, ReuseSource;
    ReuseIsAppend(w, env, s, step, freshId);
    AppendKeepsRowsSound(w, s, ReusedRow(w, s, step, freshId));
    ReuseKeepsAccepts(w, env, s, step, freshId);
  }

  // ---------------------------------------------------------------- rewriting the running row

  lemma HasSucceededRewrite(rows: seq<Attempt>, i: nat, r: Attempt, d: Id)
    requires i < |rows| && rows[i].status.Running? && HasSucceeded(rows, d)
    ensures HasSucceeded(rows[i := r], d)
  {
    var k :| 0 <= k < |rows| && rows[k].stepId == d && rows[k].status.Succeeded?;
    assert rows[i := r][k] == rows[k];
  }

  lemma RowSoundRewrite(w: World, p: Plan, rows: seq<Attempt>, i: nat, r: Attempt, b: Attempt)
    requires i < |rows| && rows[i].status.Running? && RowSound(w, p, rows, b)
    ensures RowSound(w, p, rows[i := r], b)
  {
    var rows' := rows[i := r];
    forall d | d in p.versions[b.version - 1].Deps(b.stepId) ensures HasSucceeded(rows', d) {
      HasSucceededRewrite(rows, i, r, d);
    }
  }

  /** How a running attempt may end. */
  predicate Settles(w: World, s: Store, i: nat, r: Attempt) {
    && i < |s.rows| && s.rows[i].status.Running? && SameIdentity(s.rows[i], r)
    && !r.status.Running? && !r.status.Pending?
    && (r.status.FailedRetryable? && FindStep(s.plan.current.steps, r.stepId).Some? ==>
          r.number < Limit(w, FindStep(s.plan.current.steps, r.stepId).value))
  }

  lemma SettledRowSound(w: World, s: Store, i: nat, r: Attempt)
    requires WellFormedPlan(s.plan) && RowsSound(w, s) && Settles(w, s, i, r)
    ensures RowSound(w, s.plan, s.rows[i := r], r)
  {
    hide WellFormed, DistinctIds, RowsOrdered, OneRunning, HasSucceeded, Limit;
    assert RowSound(w, s.plan, s.rows, s.rows[i]);
    RowSoundRewrite(w, s.plan, s.rows, i, r, s.rows[i]);
  }

  lemma SettleKeepsRowsSound(w: World, s: Store, i: nat, r: Attempt)
    requires WellFormedPlan(s.plan) && RowsSound(w, s) && Settles(w, s, i, r)
    ensures RowsSound(w, s.(rows := s.rows[i := r]))
    ensures NoneRunning(s.rows[i := r])
  {
    hide WellFormedPlan, RowSound, Limit;
    var rows' := s.rows[i := r];
    forall k | 0 <= k < |rows'| ensures RowSound(w, s.plan, rows', rows'[k]) {
      if k == i {
        SettledRowSound(w, s, i, r);
      } else {
        RowSoundRewrite(w, s.plan, s.rows, i, r, s.rows[k]);
      }
    }
    assert forall k | 0 <= k < |rows'| :: !rows'[k].status.Running?;
    assert forall k, l | 0 <= k < l < |rows'| && rows'[k].stepId == rows'[l].stepId ::
             s.rows[k].status.FailedRetryable? && s.rows[k].number < s.rows[l].number;
  }

  /** The running attempt is the latest of its step, and what it depends on has succeeded. */
  lemma RunningIsLatest(w: World, s: Store, i: nat)
    requires WellFormedPlan(s.plan) && RowsSound(w, s) && i < |s.rows| && s.rows[i].status.Running?
    ensures s.rows[i].stepId in Current(w, s) && Current(w, s)[s.rows[i].stepId] == s.rows[i]
    ensures FindStep(s.plan.current.steps, s.rows[i].stepId).Some? && s.rows[i].reusedFrom.None?
    ensures forall d | d in s.plan.current.Deps(s.rows[i].stepId) :: SucceededIn(Current(w, s), d)
  {
    hide WellFormed, DistinctIds, RowsOrdered, OneRunning, Limit, Current;
    SettledIsLatest(w, s, i);
    assert RowSound(w, s.plan, s.rows, s.rows[i]);
    assert s.plan.versions[s.rows[i].version - 1] == s.plan.current;
    forall d | d in s.plan.current.Deps(s.rows[i].stepId) ensures SucceededIn(Current(w, s), d) {
      DependencyHasSucceeded(w, s, FindStep(s.plan.current.steps, s.rows[i].stepId).value, d);
    }
  }

  lemma DependencyHasSucceeded(w: World, s: Store, step: Step, d: Id)
    requires WellFormedPlan(s.plan) && RowsSound(w, s) && step in s.plan.current.steps
    requires d in s.plan.current.Deps(step.id) && HasSucceeded(s.rows, d)
    ensures SucceededIn(Current(w, s), d)
  {
    hide DistinctIds, RowsOrdered, OneRunning, Limit, Current, RunningIsCurrent;
    var k :| 0 <= k < |s.rows| && s.rows[k].stepId == d && s.rows[k].status.Succeeded?;
    KeysInjective(s.plan.current, step);
    OwnVersion(w, s, s.rows[k]);
    SettledIsLatest(w, s, k);
  }

  /** A running attempt is nobody's lineage, so settling it disturbs no document already read. */
  lemma SettleKeepsDocument(w: World, s: Store, i: nat, r: Attempt, memory: map<Id, Entry>, step: Step, a: Attempt)
    requires DistinctIds(s.rows) && i < |s.rows| && s.rows[i].status.Running? && SameIdentity(s.rows[i], r)
    requires forall m | m in s.memory :: m in memory && memory[m] == s.memory[m]
    requires ReadDocument(w, s, step, a).Some?
    ensures ReadDocument(w, s.(rows := s.rows[i := r], memory := memory), step, a) == ReadDocument(w, s, step, a)
  {
    var s' := s.(rows := s.rows[i := r], memory := memory);
    if a.reusedFrom.Some? {
      assert Origin(w, s, step, a).Some?;
      assert a.reusedFrom.value != r.id;
      FindAttemptUpdate(s.rows, i, r, w.runId, a.reusedFrom.value);
    }
    assert Origin(w, s', step, a) == Origin(w, s, step, a);
    hide Origin;
  }

  lemma SettleKeepsAccepted(w: World, s: Store, i: nat, r: Attempt, memory: map<Id, Entry>, step: Step)
    requires WellFormedPlan(s.plan) && RowsSound(w, s)
    requires i < |s.rows| && s.rows[i].status.Running? && SameIdentity(s.rows[i], r)
    requires forall m | m in s.memory :: m in memory && memory[m] == s.memory[m]
    requires StepAcceptedNow(w, s, step)
    ensures StepAcceptedNow(w, s.(rows := s.rows[i := r], memory := memory), step)
  {
    hide WellFormedPlan, ReadDocument, DigestsAgree, LineageAgrees, RowSound, RowsOrdered, OneRunning, Latest;
    RunningIsLatest(w, s, i);
    LatestUpdate(s.rows, i, r, s.plan.id, s.plan.current.number, w.runId);
    SettleKeepsDocument(w, s, i, r, memory, step, Current(w, s)[step.id]);
    AcceptedFrame(w, s, s.(rows := s.rows[i := r], memory := memory), step);
  }

  // ---------------------------------------------------------------- results

  predicate DependenciesReadable(w: World, s: Store, step: Step) {
    forall d | d in s.plan.current.Deps(step.id) ::
      && d in Current(w, s) && FindStep(s.plan.current.steps, d).Some?
      && ReadDocument(w, s, FindStep(s.plan.current.steps, d).value, Current(w, s)[d]).Some?
  }

  function DependencyDocument(w: World, s: Store, d: Id): Document
    requires d in Current(w, s) && FindStep(s.plan.current.steps, d).Some?
    requires ReadDocument(w, s, FindStep(s.plan.current.steps, d).value, Current(w, s)[d]).Some?
  {
    ReadDocument(w, s, FindStep(s.plan.current.steps, d).value, Current(w, s)[d]).value
  }

  /** The documents handed to the step runner, in dependency order. */
  function DependencyDocuments(w: World, s: Store, step: Step): (r: seq<Document>)
    requires DependenciesReadable(w, s, step)
    ensures |r| == |s.plan.current.Deps(step.id)|
    ensures forall i | 0 <= i < |r| ::
              s.plan.current.Deps(step.id)[i] in s.plan.current.Deps(step.id)
              && r[i] == DependencyDocument(w, s, s.plan.current.Deps(step.id)[i])
  {
    var deps := s.plan.current.Deps(step.id);
    seq(|deps|, i requires 0 <= i < |deps| => assert deps[i] in deps; DependencyDocument(w, s, deps[i]))
  }

  /** Which documents a map of digests by key was made from. */
  ghost predicate DigestsOf(w: World, v: Version, docs: seq<Document>, m: map<Id, Digest>) {
    && m.Keys == (set i | 0 <= i < |docs| :: KeyOf(v, docs[i].stepId))
    && forall k | k in m :: exists i :: 0 <= i < |docs| && k == KeyOf(v, docs[i].stepId) && m[k] == w.hash(docs[i])
  }

  lemma LastDigest(w: World, v: Version, docs: seq<Document>, m: map<Id, Digest>)
    requires docs != [] && DigestsOf(w, v, docs[..|docs| - 1], m)
    ensures var n := |docs| - 1; DigestsOf(w, v, docs, m[KeyOf(v, docs[n].stepId) := w.hash(docs[n])])
  {
    hide KeyOf;
    var n := |docs| - 1;
    var key := KeyOf(v, docs[n].stepId);
    var m' := m[key := w.hash(docs[n])];
    forall k | k in m'
      ensures exists i :: 0 <= i < |docs| && k == KeyOf(v, docs[i].stepId) && m'[k] == w.hash(docs[i])
    {
      if k != key {
        var i :| 0 <= i < n && k == KeyOf(v, docs[..n][i].stepId) && m[k] == w.hash(docs[..n][i]);
        assert docs[..n][i] == docs[i];
      }
    }
    forall i | 0 <= i < |docs|
      ensures KeyOf(v, docs[i].stepId) in m'
    {
      assert i < n ==> docs[..n][i] == docs[i];
    }
  }

  function DigestMap(w: World, v: Version, docs: seq<Document>): (m: map<Id, Digest>)
    ensures DigestsOf(w, v, docs, m)
  {
    if docs == [] then map[]
    else
      var n := |docs| - 1;
      var m := DigestMap(w, v, docs[..n]);
      LastDigest(w, v, docs, m);
      m[KeyOf(v, docs[n].stepId) := w.hash(docs[n])]
  }

  /** `_build_result_document`: each dependency result is looked up, by its own step id, among the
      steps of the current version; `None` stands for the lookup error that follows a miss. */
  function BuildResultDocument(
    w: World, s: Store, step: Step, attempt: Attempt, docs: seq<Document>, c: Completion): (r: Option<Document>)
  {
    if exists i :: 0 <= i < |docs| && docs[i].stepId !in s.plan.current.Ids() then None
    else Some(Document(
      s.plan.id, s.plan.current.number, w.runId, step.id, attempt.id, attempt.number, c.succeeded,
      c.summary, c.evidence, step.definition, DigestMap(w, s.plan.current, docs), c.env))
  }

  /** The document of a reused dependency still names the superseded step. */
  lemma DocumentNamesItsOwnStep(w: World, s: Store, d: Id)
    requires WellFormedPlan(s.plan) && d in s.plan.current.Ids() && SucceededIn(Current(w, s), d)
    requires Accepts(w, s, Current(w, s))
    ensures FindStep(s.plan.current.steps, d).Some?
    ensures ReadDocument(w, s, FindStep(s.plan.current.steps, d).value, Current(w, s)[d]).Some?
    ensures var doc := DependencyDocument(w, s, d);
            && Current(w, s)[d].digest == Some(w.hash(doc))
            && (Current(w, s)[d].reusedFrom.None? ==> doc.stepId == d)
            && (Current(w, s)[d].reusedFrom.Some? ==> doc.stepId !in s.plan.current.Ids())
  {
    hide Current, WellFormed, LineageAgrees, DigestsAgree;
    var step := FindStep(s.plan.current.steps, d).value;
    var k :| 0 <= k < |s.plan.current.steps| && s.plan.current.steps[k] == step;
    assert StepAccepted(w, s, Current(w, s), s.plan.current.steps[k]);
  }

  /** The result of a step can be recorded exactly when none of its dependencies was reused: a
      dependency that was reused makes every attempt at the step end in the lookup error. */
  lemma ResultBuildsIffDependenciesAreFresh(w: World, s: Store, step: Step, attempt: Attempt, c: Completion)
    requires WellFormedPlan(s.plan) && Accepts(w, s, Current(w, s)) && step in s.plan.current.steps
    requires forall d | d in s.plan.current.Deps(step.id) :: SucceededIn(Current(w, s), d)
    ensures DependenciesReadable(w, s, step)
    ensures BuildResultDocument(w, s, step, attempt, DependencyDocuments(w, s, step), c).Some?
            <==> forall d | d in s.plan.current.Deps(step.id) :: Current(w, s)[d].reusedFrom.None?
  {
    hide Current, Accepts, ReadDocument, WellFormedPlan;
    assert WellFormed(s.plan.current) by { CurrentWellFormed(s.plan); }
    var deps := s.plan.current.Deps(step.id);
    KeysInjective(s.plan.current, step);
    forall d | d in deps
      ensures d in Current(w, s) && FindStep(s.plan.current.steps, d).Some?
      ensures ReadDocument(w, s, FindStep(s.plan.current.steps, d).value, Current(w, s)[d]).Some?
      ensures DependencyDocument(w, s, d).stepId in s.plan.current.Ids() <==> Current(w, s)[d].reusedFrom.None?
    {
      assert SucceededIn(Current(w, s), d);
      DocumentNamesItsOwnStep(w, s, d);
    }
    var docs := DependencyDocuments(w, s, step);
    if BuildResultDocument(w, s, step, attempt, docs, c).Some? {
      forall d | d in deps ensures Current(w, s)[d].reusedFrom.None? {
        var i :| 0 <= i < |deps| && deps[i] == d;
        assert docs[i].stepId in s.plan.current.Ids();
      }
    }
  }

  lemma CurrentWellFormed(p: Plan)
    requires WellFormedPlan(p)
    ensures WellFormed(p.current)
  {
  }

  // ---------------------------------------------------------------- finishing an attempt

  function TargetStatus(w: World, step: Step, attempt: Attempt, c: Completion): Status {
    if c.succeeded then Succeeded
    else if c.retryable && attempt.number < Limit(w, step) then FailedRetryable
    else FailedTerminal
  }

  function ResultEntry(w: World, doc: Document): Entry {
    Entry("plan_step_result", "assistant", 1, doc.planId, doc.attemptId, true, w.size(doc), Some(doc))
  }

  function SettledRow(w: World, step: Step, a: Attempt, doc: Document, c: Completion, memoryId: Id): Attempt {
    a.(status := TargetStatus(w, step, a, c), summary := Some(doc.summary), ref := Some(MakeRef(memoryId)),
       digest := Some(w.hash(doc)))
  }

  function RunningStep(s: Store, i: nat): Option<Step>
    requires i < |s.rows|
  {
    FindStep(s.plan.current.steps, s.rows[i].stepId)
  }

  /** The document of the running attempt `i`, when it can be built at all. */
  function ResultOf(w: World, s: Store, i: nat, c: Completion): (r: Option<Document>)
    requires i < |s.rows|
  {
    if RunningStep(s, i).None? || !DependenciesReadable(w, s, RunningStep(s, i).value) then None
    else
      var step := RunningStep(s, i).value;
      BuildResultDocument(w, s, step, s.rows[i], DependencyDocuments(w, s, step), c)
  }

  predicate CanFinish(w: World, s: Store, i: nat, c: Completion, memoryId: Id) {
    && i < |s.rows| && s.rows[i].status.Running?
    && RunningStep(s, i).Some? && ResultOf(w, s, i, c).Some? && w.size(ResultOf(w, s, i, c).value) <= MAX_RESULT_BYTES
    && MemoryId(memoryId) && memoryId !in s.memory
  }

  function Finished(w: World, s: Store, i: nat, c: Completion, memoryId: Id): Store
    requires CanFinish(w, s, i, c, memoryId)
  {
    var doc := ResultOf(w, s, i, c).value;
    s.(rows := s.rows[i := SettledRow(w, RunningStep(s, i).value, s.rows[i], doc, c, memoryId)],
       memory := s.memory[memoryId := ResultEntry(w, doc)])
  }

  /** The digests recorded in a new document are those of the dependencies' latest attempts. */
  lemma BuiltDigestsAgree(w: World, s: Store, step: Step, a: Attempt, c: Completion)
    requires WellFormedPlan(s.plan) && Accepts(w, s, Current(w, s)) && step in s.plan.current.steps
    requires forall d | d in s.plan.current.Deps(step.id) :: SucceededIn(Current(w, s), d)
    requires DependenciesReadable(w, s, step)
    requires BuildResultDocument(w, s, step, a, DependencyDocuments(w, s, step), c).Some?
    ensures DigestsAgree(s.plan.current, Current(w, s), s.plan.current.Deps(step.id),
                         BuildResultDocument(w, s, step, a, DependencyDocuments(w, s, step), c).value.dependencies)
  {
    hide Current, Accepts, ReadDocument, WellFormedPlan, WellFormed;
    ResultBuildsIffDependenciesAreFresh(w, s, step, a, c);
    var v := s.plan.current;
    var deps := v.Deps(step.id);
    var docs := DependencyDocuments(w, s, step);
    forall i | 0 <= i < |deps|
      ensures docs[i].stepId == deps[i] && Current(w, s)[deps[i]].digest == Some(w.hash(docs[i]))
    {
      assert deps[i] in deps && SucceededIn(Current(w, s), deps[i]);
      assert deps[i] in v.Ids() by { CurrentWellFormed(s.plan); KeysInjective(v, step); }
      DocumentNamesItsOwnStep(w, s, deps[i]);
    }
    DistinctKeys(s.plan, step);
    RecordedDigests(w, v, Current(w, s), deps, docs);
  }

  lemma RecordedDigests(w: World, v: Version, latest: map<Id, Attempt>, deps: seq<Id>, docs: seq<Document>)
    requires forall d, e | d in deps && e in deps && KeyOf(v, d) == KeyOf(v, e) :: d == e
    requires |docs| == |deps|
    requires forall i | 0 <= i < |deps| ::
               docs[i].stepId == deps[i] && deps[i] in latest && latest[deps[i]].digest == Some(w.hash(docs[i]))
    ensures DigestsAgree(v, latest, deps, DigestMap(w, v, docs))
  {
    hide KeyOf, DigestMap;
    var m := DigestMap(w, v, docs);
    forall d | d in deps
      ensures KeyOf(v, d) in m && latest[d].digest == Some(m[KeyOf(v, d)])
    {
      var i :| 0 <= i < |deps| && deps[i] == d;
      assert KeyOf(v, docs[i].stepId) in m;
      var j :| 0 <= j < |docs| && KeyOf(v, d) == KeyOf(v, docs[j].stepId) && m[KeyOf(v, d)] == w.hash(docs[j]);
      assert deps[j] in deps;
    }
    assert m.Keys == set d | d in deps :: KeyOf(v, d);
  }

  /** A freshly recorded success is read back at once. */
  lemma FinishedIsReadable(w: World, s: Store, i: nat, c: Completion, memoryId: Id)
    requires RowsSound(w, s) && CanFinish(w, s, i, c, memoryId) && c.succeeded
    requires s.rows[i].version == s.plan.current.number
    ensures var s' := Finished(w, s, i, c, memoryId);
            ReadDocument(w, s', RunningStep(s, i).value, s'.rows[i]) == ResultOf(w, s, i, c)
  {
    hide DependenciesReadable, DependencyDocuments, DigestMap, DistinctIds, RowsOrdered, OneRunning,
      RunningIsCurrent, HasSucceeded;
    assert RowSound(w, s.plan, s.rows, s.rows[i]);
  }

  lemma FinishedIsAccepted(w: World, s: Store, i: nat, c: Completion, memoryId: Id)
    requires Sound(w, s) && CanFinish(w, s, i, c, memoryId) && c.succeeded
    ensures StepAcceptedNow(w, Finished(w, s, i, c, memoryId), RunningStep(s, i).value)
  {
    hide Accepts, ReadDocument, WellFormedPlan, PlanWithinLimits, RowSound, RowsOrdered, OneRunning, Latest, DigestMap,
      HasSucceeded, DigestsAgree, LineageAgrees, DependencyDocuments;
    var step := RunningStep(s, i).value;
    var s' := Finished(w, s, i, c, memoryId);
    RunningIsLatest(w, s, i);
    LatestUpdate(s.rows, i, s'.rows[i], s.plan.id, s.plan.current.number, w.runId);
    FinishedIsReadable(w, s, i, c, memoryId);
    BuiltDigestsAgree(w, s, step, s.rows[i], c);
    AgreementFrame(s.plan.current, Current(w, s), s'.rows[i], s.plan.current.Deps(step.id),
                   ResultOf(w, s, i, c).value.dependencies);
  }

  lemma AgreementFrame(v: Version, latest: map<Id, Attempt>, r: Attempt, deps: seq<Id>, recorded: map<Id, Digest>)
    requires forall d | d in deps :: SucceededIn(latest, d)
    requires !SucceededIn(latest, r.stepId) && DigestsAgree(v, latest, deps, recorded)
    ensures LineageAgrees(latest[r.stepId := r], deps, false) && DigestsAgree(v, latest[r.stepId := r], deps, recorded)
  {
  }

  lemma FinishKeepsSound(w: World, s: Store, i: nat, c: Completion, memoryId: Id)
    requires Sound(w, s) && CanFinish(w, s, i, c, memoryId)
    ensures Sound(w, Finished(w, s, i, c, memoryId))
  {
    hide WellFormedPlan, PlanWithinLimits, Accepts, Current, RowSound, RowsOrdered, OneRunning, RunningIsCurrent,
      ResultOf, DistinctIds;
    var s' := Finished(w, s, i, c, memoryId);
    SettleKeepsRowsSound(w, s, i, s'.rows[i]);
    RowsSoundIgnoresMemory(w, s.(rows := s'.rows), s');
    FinishKeepsAccepts(w, s, i, c, memoryId);
  }

  lemma FinishKeepsAccepts(w: World, s: Store, i: nat, c: Completion, memoryId: Id)
    requires Sound(w, s) && CanFinish(w, s, i, c, memoryId)
    ensures var s' := Finished(w, s, i, c, memoryId); Accepts(w, s', Current(w, s'))
  {
    hide Sound, StepAccepted, Current, ResultOf;
    var s' := Finished(w, s, i, c, memoryId);
    FinishKeepsSteps(w, s, i, c, memoryId);
    forall k | 0 <= k < |s.plan.current.steps| && SucceededIn(Current(w, s'), s.plan.current.steps[k].id)
      ensures StepAccepted(w, s', Current(w, s'), s.plan.current.steps[k])
    {
      FinishKeepsStep(w, s, i, c, memoryId, k);
    }
  }

  /** What has succeeded after an attempt ends had succeeded before, or is that attempt's step. */
  lemma FinishKeepsSteps(w: World, s: Store, i: nat, c: Completion, memoryId: Id)
    requires Sound(w, s) && CanFinish(w, s, i, c, memoryId)
    ensures var s' := Finished(w, s, i, c, memoryId);
      && s'.plan == s.plan
      && (forall id | SucceededIn(Current(w, s'), id) ::
            id in s.plan.current.Ids() && (SucceededIn(Current(w, s), id) || id == RunningStep(s, i).value.id))
      && (SucceededIn(Current(w, s'), RunningStep(s, i).value.id) ==> c.succeeded)
  {
    hide WellFormedPlan, PlanWithinLimits, StepAccepted, Latest, RowSound, RowsOrdered, OneRunning, RunningIsCurrent,
      ResultOf, Limit;
    var s' := Finished(w, s, i, c, memoryId);
    RunningIsLatest(w, s, i);
    LatestUpdate(s.rows, i, s'.rows[i], s.plan.id, s.plan.current.number, w.runId);
    assert RunningStep(s, i).value in s.plan.current.steps;
  }

  lemma FinishKeepsStep(w: World, s: Store, i: nat, c: Completion, memoryId: Id, k: nat)
    requires Sound(w, s) && CanFinish(w, s, i, c, memoryId) && k < |s.plan.current.steps|
    requires SucceededIn(Current(w, Finished(w, s, i, c, memoryId)), s.plan.current.steps[k].id)
    ensures var s' := Finished(w, s, i, c, memoryId);
      StepAccepted(w, s', Current(w, s'), s.plan.current.steps[k])
  {
    hide WellFormedPlan, PlanWithinLimits, StepAccepted, Current, RowSound, RowsOrdered, OneRunning, RunningIsCurrent,
      ResultOf, DistinctIds;
    var s', step := Finished(w, s, i, c, memoryId), s.plan.current.steps[k];
    FinishKeepsSteps(w, s, i, c, memoryId);
    if step.id == RunningStep(s, i).value.id {
      SameStep(s.plan, RunningStep(s, i).value, step);
      FinishedIsAccepted(w, s, i, c, memoryId);
    } else {
      SettleKeepsAccepted(w, s, i, s'.rows[i], s'.memory, step);
    }
  }

  lemma RowsSoundIgnoresMemory(w: World, s: Store, s': Store)
    requires RowsSound(w, s) && s'.plan == s.plan && s'.approved == s.approved && s'.rows == s.rows
    ensures RowsSound(w, s')
  {
    hide RowSound, RowsOrdered, DistinctIds, OneRunning;
  }

  // ---------------------------------------------------------------- cancelling, revising, approving

  lemma CancelKeepsSound(w: World, s: Store, i: nat)
    requires Sound(w, s) && i < |s.rows| && s.rows[i].status.Running?
    ensures Sound(w, s.(rows := s.rows[i := s.rows[i].(status := Cancelled)]))
  {
    hide WellFormedPlan, PlanWithinLimits, StepAccepted, Latest, RowSound, RowsOrdered, OneRunning, DistinctIds, Limit;
    var r := s.rows[i].(status := Cancelled);
    var s' := s.(rows := s.rows[i := r]);
    RunningIsLatest(w, s, i);
    SettleKeepsRowsSound(w, s, i, r);
    LatestUpdate(s.rows, i, r, s.plan.id, s.plan.current.number, w.runId);
    forall k | 0 <= k < |s.plan.current.steps| && SucceededIn(Current(w, s'), s.plan.current.steps[k].id)
      ensures StepAccepted(w, s', Current(w, s'), s.plan.current.steps[k])
    {
      assert SucceededIn(Current(w, s), s.plan.current.steps[k].id);
      SettleKeepsAccepted(w, s, i, r, s.memory, s.plan.current.steps[k]);
    }
  }

  /** The step of the version being revised that shares a logical key, if any. */
  function Superseded(steps: seq<Step>, key: Id): (r: Option<Id>)
    ensures r.Some? ==> exists st :: st in steps && st.id == r.value && st.key == key
    ensures r.None? ==> forall st | st in steps :: st.key != key
  {
    if steps == [] then None
    else if steps[0].key == key then Some(steps[0].id)
    else Superseded(steps[1..], key)
  }

  /** A version `append_version` may add: validated, with fresh step ids, each step superseding the
      step of the current version that has its logical key. */
  predicate NextVersion(w: World, p: Plan, v: Version) {
    && WellFormed(v) && VersionWithinLimits(w, v) && v.number == p.current.number + 1
    && (forall k | 0 <= k < |p.versions| :: p.versions[k].Ids() !! v.Ids())
    && (forall st | st in v.steps :: st.supersedes == Superseded(p.current.steps, st.key))
  }

  /** A user revises a version awaiting approval; a terminal failure revises the running one, and
      must keep the failed step's key.  Both paths enforce the revision limit. */
  predicate CanRevise(w: World, s: Store, v: Version, failed: Option<nat>) {
    && s.plan.current.number - 1 < w.maxRevisions && NextVersion(w, s.plan, v)
    && match failed
       case None => !s.approved
       case Some(i) =>
         && i < |s.rows| && s.rows[i].status.FailedTerminal? && s.rows[i].version == s.plan.current.number
         && RunningStep(s, i).Some?
         && exists k :: 0 <= k < |v.steps| && v.steps[k].key == RunningStep(s, i).value.key
  }

  function Revised(s: Store, v: Version): Store {
    s.(plan := Plan(s.plan.id, v, s.plan.versions + [v]), approved := false)
  }

  lemma NothingRunsDuringRevision(w: World, s: Store, v: Version, failed: Option<nat>)
    requires RowsSound(w, s) && CanRevise(w, s, v, failed)
    ensures NoneRunning(s.rows)
  {
    hide RowSound, RowsOrdered, DistinctIds, NextVersion;
  }

  lemma RevisedPlanIsWellFormed(w: World, p: Plan, v: Version)
    requires WellFormedPlan(p) && NextVersion(w, p, v)
    ensures WellFormedPlan(Plan(p.id, v, p.versions + [v]))
  {
    hide WellFormed, VersionWithinLimits;
    var p' := Plan(p.id, v, p.versions + [v]);
    assert forall k | 0 <= k < |p.versions| :: p'.versions[k] == p.versions[k];
    forall st | st in v.steps && st.supersedes.Some? ensures st.supersedes.value !in v.Ids() {
      assert st.supersedes.value in p.versions[|p.versions| - 1].Ids();
    }
  }

  lemma RevisionKeepsRowsSound(w: World, s: Store, v: Version)
    requires WellFormedPlan(s.plan) && RowsSound(w, s) && NoneRunning(s.rows)
    ensures RowsSound(w, Revised(s, v))
  {
    hide WellFormedPlan, RowsOrdered, DistinctIds, OneRunning, HasSucceeded, Limit;
    var s' := Revised(s, v);
    forall i | 0 <= i < |s'.rows| ensures RowSound(w, s'.plan, s'.rows, s'.rows[i]) {
      assert RowSound(w, s.plan, s.rows, s.rows[i]);
      assert s'.plan.versions[s.rows[i].version - 1] == s.plan.versions[s.rows[i].version - 1];
    }
  }

  lemma NewVersionStartsEmpty(w: World, s: Store, v: Version)
    requires WellFormedPlan(s.plan) && RowsSound(w, s) && v.number == s.plan.current.number + 1
    ensures Current(w, Revised(s, v)) == map[]
  {
    hide RowsOrdered, DistinctIds, OneRunning, HasSucceeded, Limit, WellFormed;
    assert forall a | a in s.rows :: RowSound(w, s.plan, s.rows, a);
    assert forall id :: id !in Current(w, Revised(s, v));
  }

  lemma ReviseKeepsSound(w: World, s: Store, v: Version, failed: Option<nat>)
    requires Sound(w, s) && CanRevise(w, s, v, failed)
    ensures Sound(w, Revised(s, v))
  {
    hide Sound, RowsSound, Accepts, WellFormedPlan, NextVersion;
    assert RowsSound(w, s) by { SoundRows(w, s); }
    NothingRunsDuringRevision(w, s, v, failed);
    RevisedIsSound(w, s, v);
  }

  lemma SoundRows(w: World, s: Store)
    requires Sound(w, s)
    ensures RowsSound(w, s)
  {
  }

  /** A further version of a plan with nothing running starts out with nothing done. */
  lemma RevisedIsSound(w: World, s: Store, v: Version)
    requires Sound(w, s) && NoneRunning(s.rows) && NextVersion(w, s.plan, v)
    requires s.plan.current.number - 1 < w.maxRevisions
    ensures Sound(w, Revised(s, v))
  {
    hide RowsSound, Accepts, WellFormedPlan, Current;
    RevisedPlanIsWellFormed(w, s.plan, v);
    RevisionKeepsRowsSound(w, s, v);
    NewVersionStartsEmpty(w, s, v);
    RevisionWithinLimits(w, s.plan, v);
    NothingToAccept(w, Revised(s, v));
  }

  lemma NothingToAccept(w: World, s: Store)
    requires Current(w, s) == map[]
    ensures Accepts(w, s, Current(w, s))
  {
  }

  lemma RevisionWithinLimits(w: World, p: Plan, v: Version)
    requires WellFormedPlan(p) && PlanWithinLimits(w, p) && VersionWithinLimits(w, v)
    requires p.current.number - 1 < w.maxRevisions
    ensures PlanWithinLimits(w, Plan(p.id, v, p.versions + [v]))
  {
    hide VersionWithinLimits, WellFormed;
  }

  // ---------------------------------------------------------------- whole runs

  datatype Event =
    | Reuse(step: Step, freshId: Id, env: Environment)
    | Start(freshId: Id)
    | Finish(row: nat, completion: Completion, memoryId: Id)
    | Cancel(row: nat)
    | Revise(version: Version, failed: Option<nat>)
    | Approve

  predicate Enabled(w: World, s: Store, e: Event) {
    match e
    case Reuse(step, freshId, env) => CanReuse(w, env, s, step, freshId)
    case Start(freshId) => CanStart(w, s, freshId)
    case Finish(i, c, m) => CanFinish(w, s, i, c, m)
    case Cancel(i) => i < |s.rows| && s.rows[i].status.Running?
    case Revise(v, failed) => CanRevise(w, s, v, failed)
    case Approve => !s.approved
  }

  function Next(w: World, s: Store, e: Event): Store
    requires Enabled(w, s, e)
  {
    match e
    case Reuse(step, freshId, _) => WithReuse(w, s, step, freshId)
    case Start(freshId) => Started(w, s, freshId)
    case Finish(i, c, m) => Finished(w, s, i, c, m)
    case Cancel(i) => s.(rows := s.rows[i := s.rows[i].(status := Cancelled)])
    case Revise(v, _) => Revised(s, v)
    case Approve => s.(approved := true)
  }

  predicate Feasible(w: World, s: Store, run: seq<Event>)
    decreases |run|
  {
    run == [] || (Enabled(w, s, run[0]) && Feasible(w, Next(w, s, run[0]), run[1..]))
  }

  function After(w: World, s: Store, run: seq<Event>): Store
    requires Feasible(w, s, run)
    decreases |run|
  {
    if run == [] then s else After(w, Next(w, s, run[0]), run[1..])
  }

  lemma NextKeepsSound(w: World, s: Store, e: Event)
    requires Sound(w, s) && Enabled(w, s, e)
    ensures Sound(w, Next(w, s, e))
  {
    hide WellFormedPlan, PlanWithinLimits, RowSound, Accepts, CanReuse, CanStart, CanFinish, CanRevise, DistinctIds,
      RowsOrdered, OneRunning;
    match e
    case Reuse(step, freshId, env) =>
      CanReuseHasSource(w, env, s, step, freshId);
      ReuseKeepsSound(w, env, s, step, freshId);
    case Start(freshId) => StartKeepsSound(w, s, freshId);
    case Finish(i, c, m) => FinishKeepsSound(w, s, i, c, m);
    case Cancel(i) => CancelKeepsSound(w, s, i);
    case Revise(v, failed) => ReviseKeepsSound(w, s, v, failed);
    case Approve => ApproveKeepsSound(w, s);
  }

  lemma CanReuseHasSource(w: World, env: Environment, s: Store, step: Step, freshId: Id)
    requires CanReuse(w, env, s, step, freshId)
    ensures ReuseSource(w, s, step).Some?
  {
  }

  lemma ApproveKeepsSound(w: World, s: Store)
    requires Sound(w, s) && !s.approved
    ensures Sound(w, s.(approved := true))
  {
    var s' := s.(approved := true);
    hide WellFormedPlan, PlanWithinLimits, DistinctIds, RowsOrdered, OneRunning, RowSound, DigestsAgree, LineageAgrees;
    assert Current(w, s') == Current(w, s);
    forall k | 0 <= k < |s.plan.current.steps| && SucceededIn(Current(w, s'), s.plan.current.steps[k].id)
      ensures StepAccepted(w, s', Current(w, s'), s.plan.current.steps[k])
    {
      assert StepAccepted(w, s, Current(w, s), s.plan.current.steps[k]);
    }
  }

  lemma {:induction false} RunAppend(w: World, s: Store, run: seq<Event>, e: Event)
    requires Feasible(w, s, run) && Enabled(w, After(w, s, run), e)
    ensures Feasible(w, s, run + [e]) && After(w, s, run + [e]) == Next(w, After(w, s, run), e)
    decreases |run|
  {
    hide Enabled, Next;
    if run == [] {
      assert run + [e] == [e];
      assert [e][1..] == [];
    } else {
      assert (run + [e])[1..] == run[1..] + [e];
      RunAppend(w, Next(w, s, run[0]), run[1..], e);
    }
  }

  /** Safety over whole runs, whatever is reused, started, retried, cancelled or revised. */
  lemma {:induction false} EveryReachableStateIsSound(w: World, s: Store, run: seq<Event>)
    requires Sound(w, s) && Feasible(w, s, run)
    ensures Sound(w, After(w, s, run))
    decreases |run|
  {
    hide Sound, Enabled, Next;
    if run != [] {
      NextKeepsSound(w, s, run[0]);
      EveryReachableStateIsSound(w, Next(w, s, run[0]), run[1..]);
    }
  }

  /** In every sound state reuse is closed under dependencies, and a reused result comes straight from an
      attempt that ran: chains of reuse have length one. */
  lemma ReuseIsClosedAndDirect(w: World, s: Store, k: nat)
    requires Sound(w, s) && k < |s.plan.current.steps|
    requires var id := s.plan.current.steps[k].id; SucceededIn(Current(w, s), id) && Current(w, s)[id].reusedFrom.Some?
    ensures var id := s.plan.current.steps[k].id;
      && (forall d | d in s.plan.current.Deps(id) :: SucceededIn(Current(w, s), d) && Current(w, s)[d].reusedFrom.Some?)
      && (var origin := FindAttempt(s.rows, w.runId, Current(w, s)[id].reusedFrom.value);
          origin.Some? && origin.value.reusedFrom.None? && origin.value.status.Succeeded?)
  {
    hide WellFormedPlan, PlanWithinLimits, RowsSound, Current, DigestsAgree;
    assert StepAccepted(w, s, Current(w, s), s.plan.current.steps[k]);
  }

  /** A run begins with one validated version and no attempts. */
  lemma InitialStateIsSound(w: World, planId: Id, v: Version, memory: map<Id, Entry>)
    requires WellFormed(v) && VersionWithinLimits(w, v) && v.number == 1 && w.maxStepAttempts >= 1
    requires forall st | st in v.steps :: st.supersedes.None?
    ensures Sound(w, Store(Plan(planId, v, [v]), false, [], memory))
  {
    hide WellFormed, VersionWithinLimits;
    NothingToAccept(w, Store(Plan(planId, v, [v]), false, [], memory));
  }

  /** Every run, from its first version on. */
  lemma EveryRunIsSound(w: World, planId: Id, v: Version, memory: map<Id, Entry>, run: seq<Event>)
    requires WellFormed(v) && VersionWithinLimits(w, v) && v.number == 1 && w.maxStepAttempts >= 1
    requires forall st | st in v.steps :: st.supersedes.None?
    requires Feasible(w, Store(Plan(planId, v, [v]), false, [], memory), run)
    ensures var s := After(w, Store(Plan(planId, v, [v]), false, [], memory), run);
      Sound(w, s) && |s.rows| <= (w.maxRevisions + 1) * w.maxSteps * w.maxStepAttempts
  {
    hide WellFormed, VersionWithinLimits, Feasible, After, Sound;
    InitialStateIsSound(w, planId, v, memory);
    EveryReachableStateIsSound(w, Store(Plan(planId, v, [v]), false, [], memory), run);
    AttemptsBounded(w, After(w, Store(Plan(planId, v, [v]), false, [], memory), run));
  }

  /** Settled attempts never change again, and no attempt is ever removed. */
  lemma SettledForever(w: World, s: Store, e: Event, i: nat)
    requires Enabled(w, s, e) && i < |s.rows|
    ensures i < |Next(w, s, e).rows| && SameIdentity(s.rows[i], Next(w, s, e).rows[i])
    ensures !s.rows[i].status.Running? ==> Next(w, s, e).rows[i] == s.rows[i]
  {
    hide CanReuseResult, CanFinish, CanRevise, DependenciesProved, Proofs, ReuseSource, Reusable, Accepts, Executable,
      NoneRunning, FreshId, Current, NextVersion, Finished, Limit;
    if e.Finish? {
      CanFinishRow(w, s, e.row, e.completion, e.memoryId);
    }
  }

  lemma CanFinishRow(w: World, s: Store, i: nat, c: Completion, m: Id)
    requires CanFinish(w, s, i, c, m)
    ensures i < |s.rows| && s.rows[i].status.Running?
    ensures Finished(w, s, i, c, m).rows == s.rows[i := Finished(w, s, i, c, m).rows[i]]
    ensures SameIdentity(s.rows[i], Finished(w, s, i, c, m).rows[i])
  {
  }

  /** While an attempt runs whose step depends on a reused step, cancelling that attempt is the only
      thing the run can still do: its result cannot be recorded, however the step ends. */
  lemma ReusedDependencyLeavesOnlyCancel(w: World, s: Store, i: nat, d: Id, e: Event)
    requires Sound(w, s) && i < |s.rows| && s.rows[i].status.Running?
    requires d in s.plan.current.Deps(s.rows[i].stepId) && d in Current(w, s) && Current(w, s)[d].reusedFrom.Some?
    ensures Enabled(w, s, e) <==> e == Cancel(i)
  {
    hide WellFormedPlan, PlanWithinLimits, Accepts, RowSound, RowsOrdered, DistinctIds, Current, CanReuse, CanStart,
      CanFinish, CanRevise;
    RunningIsLatest(w, s, i);
    match e
    case Reuse(step, freshId, env) => RunningStopsOthers(w, s, i, e);
    case Start(freshId) => RunningStopsOthers(w, s, i, e);
    case Finish(k, c, m) =>
      if CanFinish(w, s, k, c, m) {
        CanFinishRow(w, s, k, c, m);
        assert k == i;
        NoResultWithReused(w, s, i, d, c);
        NothingToStore(w, s, i, c, m);
      }
    case Cancel(k) =>
    case Revise(v, failed) => RunningStopsOthers(w, s, i, e);
    case Approve =>
  }

  lemma NothingToStore(w: World, s: Store, i: nat, c: Completion, m: Id)
    requires i < |s.rows| && ResultOf(w, s, i, c).None?
    ensures !CanFinish(w, s, i, c, m)
  {
  }

  /** While an attempt runs nothing is reused, started or revised. */
  lemma RunningStopsOthers(w: World, s: Store, i: nat, e: Event)
    requires RowsSound(w, s) && i < |s.rows| && s.rows[i].status.Running? && (e.Reuse? || e.Start? || e.Revise?)
    ensures !Enabled(w, s, e)
  {
    hide Reusable, Accepts, Executable, FreshId, Current, NextVersion, RowSound, RowsOrdered, DistinctIds, OneRunning;
  }

  lemma NoResultWithReused(w: World, s: Store, i: nat, d: Id, c: Completion)
    requires Sound(w, s) && i < |s.rows| && s.rows[i].status.Running?
    requires d in s.plan.current.Deps(s.rows[i].stepId) && d in Current(w, s) && Current(w, s)[d].reusedFrom.Some?
    ensures ResultOf(w, s, i, c).None?
  {
    hide WellFormedPlan, PlanWithinLimits, Accepts, RowsSound, Current, DependenciesReadable, DependencyDocuments,
      BuildResultDocument;
    RunningIsLatest(w, s, i);
    ResultBuildsIffDependenciesAreFresh(w, s, RunningStep(s, i).value, s.rows[i], c);
  }

  // ---------------------------------------------------------------- how many attempts a run can make

  /** A row's place in the box of versions, ordinals and attempt numbers. */
  function Slot(w: World, p: Plan, a: Attempt): int
    requires 1 <= a.version <= |p.versions| && FindStep(p.versions[a.version - 1].steps, a.stepId).Some?
  {
    Position(a.version - 1, FindStep(p.versions[a.version - 1].steps, a.stepId).value.ordinal - 1, a.number - 1,
             w.maxSteps, w.maxStepAttempts)
  }

  lemma SlotInRange(w: World, s: Store, a: Attempt)
    requires WellFormedPlan(s.plan) && PlanWithinLimits(w, s.plan) && RowSound(w, s.plan, s.rows, a)
    ensures 0 <= Slot(w, s.plan, a) < (w.maxRevisions + 1) * w.maxSteps * w.maxStepAttempts
  {
    hide WellFormedPlan, PlanWithinLimits, Position;
    var k := Coordinates(w, s, a);
    PositionBound(a.version - 1, k, a.number - 1, w.maxRevisions + 1, w.maxSteps, w.maxStepAttempts);
  }

  /** Attempts that differ in number or step have different slots. */
  lemma SlotsDiffer(w: World, s: Store, a: Attempt, b: Attempt)
    requires WellFormedPlan(s.plan) && PlanWithinLimits(w, s.plan)
    requires RowSound(w, s.plan, s.rows, a) && RowSound(w, s.plan, s.rows, b)
    requires a.stepId == b.stepId ==> a.number < b.number
    ensures Slot(w, s.plan, a) != Slot(w, s.plan, b)
  {
    hide WellFormedPlan, PlanWithinLimits, RowSound, Position;
    var x := Coordinates(w, s, a);
    var y := Coordinates(w, s, b);
    if Slot(w, s.plan, a) == Slot(w, s.plan, b) {
      BoxInjective(a.version - 1, x, a.number - 1, b.version - 1, y, b.number - 1, w.maxSteps, w.maxStepAttempts);
    }
  }

  /** The position of a row's step in its version, with the bounds that make slots unique. */
  lemma Coordinates(w: World, s: Store, a: Attempt) returns (k: nat)
    requires WellFormedPlan(s.plan) && PlanWithinLimits(w, s.plan) && RowSound(w, s.plan, s.rows, a)
    ensures 1 <= a.version <= |s.plan.versions| <= w.maxRevisions + 1
    ensures FindStep(s.plan.versions[a.version - 1].steps, a.stepId).Some?
    ensures k < |s.plan.versions[a.version - 1].steps| <= w.maxSteps
    ensures s.plan.versions[a.version - 1].steps[k].id == a.stepId
    ensures FindStep(s.plan.versions[a.version - 1].steps, a.stepId).value.ordinal == k + 1
    ensures 1 <= a.number <= w.maxStepAttempts
  {
    hide HasSucceeded;
    var v := s.plan.versions[a.version - 1];
    var step := FindStep(v.steps, a.stepId).value;
    k :| 0 <= k < |v.steps| && v.steps[k] == step;
    assert WellFormed(v) && VersionWithinLimits(w, v);
  }

  /** All the attempts a run can ever make, over every version it goes through. */
  lemma AttemptsBounded(w: World, s: Store)
    requires Sound(w, s)
    ensures |s.rows| <= (w.maxRevisions + 1) * w.maxSteps * w.maxStepAttempts
  {
    hide WellFormedPlan, PlanWithinLimits, Accepts, RowsSound, RowSound, Slot;
    var slots := Slots(w, s);
    var bound := (w.maxRevisions + 1) * w.maxSteps * w.maxStepAttempts;
    forall i | 0 <= i < |s.rows| ensures 0 <= slots[i] < bound {
      SlotInRange(w, s, s.rows[i]);
    }
    forall i, j | 0 <= i < j < |s.rows| ensures slots[i] != slots[j] {
      LaterIsHigher(w, s, i, j);
      SlotsDiffer(w, s, s.rows[i], s.rows[j]);
    }
    Pigeonhole(slots, bound);
  }

  lemma LaterIsHigher(w: World, s: Store, i: nat, j: nat)
    requires RowsSound(w, s) && i < j < |s.rows|
    ensures s.rows[i].stepId == s.rows[j].stepId ==> s.rows[i].number < s.rows[j].number
  {
    hide DistinctIds, OneRunning, RunningIsCurrent, RowSound;
  }

  ghost function Slots(w: World, s: Store): (r: seq<int>)
    requires RowsSound(w, s)
    ensures |r| == |s.rows|
    ensures forall i | 0 <= i < |r| :: RowSound(w, s.plan, s.rows, s.rows[i]) && r[i] == Slot(w, s.plan, s.rows[i])
  {
    seq(|s.rows|, i requires 0 <= i < |s.rows| =>
      assert RowSound(w, s.plan, s.rows, s.rows[i]); Slot(w, s.plan, s.rows[i]))
  }
}
