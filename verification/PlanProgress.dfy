/** Whether a run can still complete its current version.  Once the reuse pass has nothing left to reuse, it can
    exactly when no step that has yet to succeed depends on a reused one. */
module PlanProgress {
  import opened Wrappers
  import opened PlanModel
  import opened PlanReuse
  import opened PlanRun
  import opened PlanExecute

  // ---------------------------------------------------------------- references

  /** Every reference a row holds leads to a stored document. */
  predicate RefsResolve(s: Store) {
    forall i | 0 <= i < |s.rows| :: Resolves(s.memory, s.rows[i])
  }

  predicate Resolves(memory: map<Id, Entry>, a: Attempt) {
    a.ref.Some? && ParseRef(a.ref.value).Some? ==> ParseRef(a.ref.value).value in memory
  }

  predicate KeepsMemory(s: Store, s': Store) {
    forall m | m in s.memory :: m in s'.memory && s'.memory[m] == s.memory[m]
  }

  lemma NextKeepsRefs(w: World, s: Store, e: Event)
    requires RefsResolve(s) && Enabled(w, s, e)
    ensures RefsResolve(Next(w, s, e))
  {
    hide ParseRef, Accepts, CanReuseResult, DependenciesProved, Proofs, NextVersion, ResultOf, Current, Executable,
      NoneRunning, FreshId;
    var s' := Next(w, s, e);
    forall i | 0 <= i < |s'.rows|
      ensures Resolves(s'.memory, s'.rows[i])
    {
      assert i < |s.rows| ==> Resolves(s.memory, s.rows[i]);
      if e.Reuse? && i == |s.rows| {
        var source := ReuseSource(w, s, e.step).value.1;
        var j :| 0 <= j < |s.rows| && s.rows[j] == source;
        assert Resolves(s.memory, s.rows[j]);
      }
    }
  }

  /** In every run that began with no attempts. */
  lemma {:induction false} EveryRefResolves(w: World, s: Store, run: seq<Event>)
    requires RefsResolve(s) && Feasible(w, s, run)
    ensures RefsResolve(After(w, s, run))
    decreases |run|
  {
    hide RefsResolve, Enabled, Next;
    if run != [] {
      NextKeepsRefs(w, s, run[0]);
      EveryRefResolves(w, Next(w, s, run[0]), run[1..]);
    }
  }

  // ---------------------------------------------------------------- hindered steps

  /** A step that has yet to succeed depends on a reused one. */
  predicate HinderedAt(w: World, s: Store, k: nat, d: Id) {
    && k < |s.plan.current.steps| && d in s.plan.current.Deps(s.plan.current.steps[k].id)
    && !SucceededIn(Current(w, s), s.plan.current.steps[k].id)
    && SucceededIn(Current(w, s), d) && Current(w, s)[d].reusedFrom.Some?
  }

  ghost predicate Hindered(w: World, s: Store) {
    exists k, d :: HinderedAt(w, s, k, d)
  }

  /** The attempt that ends is not one at a hindered step. */
  lemma FinishIsElsewhere(w: World, s: Store, e: Event, k: nat, d: Id)
    requires Sound(w, s) && e.Finish? && Enabled(w, s, e) && HinderedAt(w, s, k, d)
    ensures s.rows[e.row].stepId != s.plan.current.steps[k].id
  {
    hide Sound, Current, ResultOf, SucceededIn;
    if s.rows[e.row].stepId == s.plan.current.steps[k].id {
      assert d in Current(w, s) by { SucceededMeansIn(Current(w, s), d); }
      ReusedDependencyLeavesOnlyCancel(w, s, e.row, d, e);
    }
  }

  lemma SucceededMeansIn(latest: map<Id, Attempt>, id: Id)
    requires SucceededIn(latest, id)
    ensures id in latest
  {
  }

  lemma StartKeepsHindered(w: World, s: Store, freshId: Id, k: nat, d: Id)
    requires Sound(w, s) && CanStart(w, s, freshId) && HinderedAt(w, s, k, d)
    ensures HinderedAt(w, Started(w, s, freshId), k, d)
  {
    hide Sound, Accepts, Executable, NoneRunning, FreshId, Current, Limit;
    RunningRowNotSucceeded(w, s, ChooseReady(s.plan.current, Current(w, s)).value, freshId);
  }

  /** Settling the running attempt at another step, or without success. */
  lemma SettleKeepsHindered(w: World, s: Store, s': Store, i: nat, k: nat, d: Id)
    requires Sound(w, s) && HinderedAt(w, s, k, d) && i < |s.rows| && s.rows[i].status.Running?
    requires s'.plan == s.plan && |s'.rows| == |s.rows| && s'.rows == s.rows[i := s'.rows[i]]
    requires SameIdentity(s.rows[i], s'.rows[i])
    requires s'.rows[i].status.Succeeded? ==> s.rows[i].stepId != s.plan.current.steps[k].id
    ensures HinderedAt(w, s', k, d)
  {
    hide Accepts, PlanWithinLimits, RowSound, RowsOrdered, OneRunning, RunningIsCurrent, WellFormedPlan, Latest;
    RunningIsLatest(w, s, i);
    LatestUpdate(s.rows, i, s'.rows[i], s.plan.id, s.plan.current.number, w.runId);
  }

  lemma NextKeepsHindered(w: World, s: Store, e: Event, k: nat, d: Id)
    requires Sound(w, s) && Enabled(w, s, e) && HinderedAt(w, s, k, d) && !e.Revise? && !e.Reuse?
    ensures HinderedAt(w, Next(w, s, e), k, d)
  {
    hide Sound, HinderedAt, CanStart, CanFinish, Current;
    match e
    case Start(freshId) => StartKeepsHindered(w, s, freshId, k, d);
    case Finish(i, c, m) =>
      CanFinishRow(w, s, i, c, m);
      FinishKeepsPlan(w, s, i, c, m);
      if Next(w, s, e).rows[i].status.Succeeded? {
        HinderedIsStep(w, s, k, d);
        FinishIsElsewhere(w, s, e, k, d);
      }
      HinderedIsStep(w, s, k, d);
      SettleKeepsHindered(w, s, Next(w, s, e), i, k, d);
    case Cancel(i) =>
      HinderedIsStep(w, s, k, d);
      SettleKeepsHindered(w, s, Next(w, s, e), i, k, d);
    case Approve => ApprovalChangesNoStep(w, s, k, d);
  }

  lemma FinishKeepsPlan(w: World, s: Store, i: nat, c: Completion, m: Id)
    requires CanFinish(w, s, i, c, m)
    ensures Finished(w, s, i, c, m).plan == s.plan && |Finished(w, s, i, c, m).rows| == |s.rows|
    ensures Finished(w, s, i, c, m).approved == s.approved && KeepsMemory(s, Finished(w, s, i, c, m))
  {
    hide ResultOf;
  }

  lemma HinderedIsStep(w: World, s: Store, k: nat, d: Id)
    requires HinderedAt(w, s, k, d)
    ensures k < |s.plan.current.steps|
  {
  }

  lemma ApprovalChangesNoStep(w: World, s: Store, k: nat, d: Id)
    requires HinderedAt(w, s, k, d)
    ensures HinderedAt(w, s.(approved := true), k, d)
  {
  }

  // ---------------------------------------------------------------- nothing more to reuse

  /** Under none of the environments can a step be reused. */
  ghost predicate NothingReusable(w: World, envs: iset<Environment>, s: Store) {
    forall k, env | 0 <= k < |s.plan.current.steps| && env in envs ::
      !Reusable(w, env, s, Current(w, s), s.plan.current.steps[k])
  }

  /** `s'` has gained no reused attempt, and what reuse looks at is as it was. */
  ghost predicate Undisturbed(w: World, s: Store, s': Store) {
    && s'.plan == s.plan && KeepsMemory(s, s')
    && (forall n | n != s.plan.current.number ::
          Latest(s'.rows, s.plan.id, n, w.runId) == Latest(s.rows, s.plan.id, n, w.runId))
    && (forall id | id in Current(w, s) :: id in Current(w, s'))
    && (forall id | id in Current(w, s') && Current(w, s')[id].reusedFrom.Some? ::
          id in Current(w, s) && Current(w, s)[id] == Current(w, s')[id])
    && (forall id | SucceededIn(Current(w, s), id) && Current(w, s)[id].reusedFrom.Some? ::
          var source := Current(w, s)[id].reusedFrom.value;
          && FindAttempt(s.rows, w.runId, source).Some?
          && FindAttempt(s'.rows, w.runId, source) == FindAttempt(s.rows, w.runId, source))
  }

  lemma SameDocument(w: World, s: Store, s': Store, a: Attempt, step: Step)
    requires RefsResolve(s) && KeepsMemory(s, s') && a in s.rows
    ensures ReuseDocument(w, s'.memory, Some(a), step) == ReuseDocument(w, s.memory, Some(a), step)
  {
    hide ParseRef;
    var i :| 0 <= i < |s.rows| && s.rows[i] == a;
    assert Resolves(s.memory, s.rows[i]);
  }

  lemma SameSource(w: World, s: Store, s': Store, step: Step)
    requires WellFormedPlan(s.plan) && step in s.plan.current.steps && RefsResolve(s) && Undisturbed(w, s, s')
    ensures ReuseSource(w, s', step) == ReuseSource(w, s, step)
  {
    hide ReuseDocument, WellFormed, RefsResolve, KeepsMemory, Latest;
    if step.supersedes.Some? && FindAnywhere(s.plan.versions, step.supersedes.value).Some? {
      var (version, source) := FindAnywhere(s.plan.versions, step.supersedes.value).value;
      assert source.id !in s.plan.current.Ids() && source.id in version.Ids();
      assert version.number != s.plan.current.number;
      var latest := Latest(s.rows, s.plan.id, version.number, w.runId);
      if source.id in latest {
        SameDocument(w, s, s', latest[source.id], source);
      }
    }
  }

  lemma SameProof(w: World, env: Environment, s: Store, s': Store, step: Step, d: Id)
    requires WellFormedPlan(s.plan) && RefsResolve(s) && Undisturbed(w, s, s')
    requires step in s.plan.current.steps && Reusable(w, env, s', Current(w, s'), step)
    requires d in s.plan.current.Deps(step.id)
    ensures DependencyProof(w, s, Current(w, s), d) == DependencyProof(w, s', Current(w, s'), d)
  {
    hide WellFormedPlan, ReuseDocument, RefsResolve, KeepsMemory, Latest, Reusable;
    ReusedDependencyAgrees(w, env, s', step, d);
    var source := FindAttempt(s.rows, w.runId, Current(w, s)[d].reusedFrom.value).value;
    var item := FindAnywhere(s.plan.versions, source.stepId);
    if item.Some? {
      SameDocument(w, s, s', source, item.value.1);
    }
  }

  /** What can be reused afterwards could be reused before. */
  lemma ReusableBefore(w: World, env: Environment, s: Store, s': Store, step: Step)
    requires WellFormedPlan(s.plan) && RefsResolve(s) && Undisturbed(w, s, s') && step in s.plan.current.steps
    ensures Reusable(w, env, s', Current(w, s'), step) ==> Reusable(w, env, s, Current(w, s), step)
  {
    hide WellFormedPlan, RefsResolve, DependencyProof, ReuseSource, CanReuseResult, Current;
    if Reusable(w, env, s', Current(w, s'), step) {
      var deps := s.plan.current.Deps(step.id);
      assert step.id !in Current(w, s);
      assert s'.plan == s.plan;
      SameSource(w, s, s', step);
      forall d | d in deps
        ensures DependencyProof(w, s, Current(w, s), d) == DependencyProof(w, s', Current(w, s'), d)
      {
        SameProof(w, env, s, s', step, d);
      }
      ProofsSame(w, s', Current(w, s'), s, Current(w, s), deps);
    }
  }

  lemma NothingBecomesReusable(w: World, envs: iset<Environment>, s: Store, s': Store)
    requires WellFormedPlan(s.plan) && RefsResolve(s) && NothingReusable(w, envs, s) && Undisturbed(w, s, s')
    ensures NothingReusable(w, envs, s')
  {
    hide WellFormedPlan, RefsResolve, Undisturbed, Reusable, Current;
    assert s'.plan == s.plan by { UndisturbedKeepsPlan(w, s, s'); }
    forall k, env | 0 <= k < |s.plan.current.steps| && env in envs
      ensures !Reusable(w, env, s', Current(w, s'), s.plan.current.steps[k])
    {
      ReusableBefore(w, env, s, s', s.plan.current.steps[k]);
    }
  }

  lemma UndisturbedKeepsPlan(w: World, s: Store, s': Store)
    requires Undisturbed(w, s, s')
    ensures s'.plan == s.plan
  {
  }

  /** The source of a reused success is found, and is not running. */
  lemma SourceHasSucceeded(w: World, s: Store, id: Id)
    requires Sound(w, s) && SucceededIn(Current(w, s), id) && Current(w, s)[id].reusedFrom.Some?
    ensures var source := FindAttempt(s.rows, w.runId, Current(w, s)[id].reusedFrom.value);
      source.Some? && source.value.status.Succeeded?
  {
    hide WellFormedPlan, PlanWithinLimits, RowsSound, Current, StepAccepted;
    var k :| 0 <= k < |s.plan.current.steps| && s.plan.current.steps[k].id == id;
    hide Sound, Accepts;
    ReuseIsClosedAndDirect(w, s, k);
  }

  lemma StartDisturbsNothing(w: World, s: Store, freshId: Id)
    requires Sound(w, s) && CanStart(w, s, freshId)
    ensures Undisturbed(w, s, Started(w, s, freshId))
  {
    hide Sound, Accepts, Executable, NoneRunning, Latest, Limit;
    var step := ChooseReady(s.plan.current, Current(w, s)).value;
    var row, s' := FreshAttempt(w, s, step, freshId), Started(w, s, freshId);
    RunningRowNotSucceeded(w, s, step, freshId);
    forall n | n != s.plan.current.number
      ensures Latest(s'.rows, s.plan.id, n, w.runId) == Latest(s.rows, s.plan.id, n, w.runId)
    {
      LatestAppend(s.rows, row, s.plan.id, n, w.runId);
    }
    forall id | SucceededIn(Current(w, s), id) && Current(w, s)[id].reusedFrom.Some?
      ensures var source := Current(w, s)[id].reusedFrom.value;
        && FindAttempt(s.rows, w.runId, source).Some?
        && FindAttempt(s'.rows, w.runId, source) == FindAttempt(s.rows, w.runId, source)
    {
      SourceHasSucceeded(w, s, id);
      FindAttemptAppend(s.rows, row, w.runId, Current(w, s)[id].reusedFrom.value);
    }
  }

  /** The running attempt `i` is rewritten; nothing else about the rows changes. */
  predicate Rewritten(s: Store, s': Store, i: nat) {
    && i < |s.rows| && s.rows[i].status.Running? && s'.plan == s.plan
    && |s'.rows| == |s.rows| && s'.rows == s.rows[i := s'.rows[i]]
    && SameIdentity(s.rows[i], s'.rows[i]) && s'.rows[i].reusedFrom == s.rows[i].reusedFrom
  }

  lemma OtherVersionsStay(w: World, s: Store, s': Store, i: nat, n: nat)
    requires Sound(w, s) && Rewritten(s, s', i) && n != s.plan.current.number
    ensures Latest(s'.rows, s.plan.id, n, w.runId) == Latest(s.rows, s.plan.id, n, w.runId)
  {
    hide Accepts, WellFormedPlan, PlanWithinLimits, OneRunning, RowSound, RowsOrdered, Latest;
    LatestUpdate(s.rows, i, s'.rows[i], s.plan.id, n, w.runId);
    NotInOtherVersion(s.rows, s.rows[i], s.plan.id, n, w.runId);
  }

  lemma ReusedRowsStay(w: World, s: Store, s': Store, i: nat)
    requires Sound(w, s) && Rewritten(s, s', i)
    ensures forall id | id in Current(w, s) :: id in Current(w, s')
    ensures forall id | id in Current(w, s') && Current(w, s')[id].reusedFrom.Some? ::
      id in Current(w, s) && Current(w, s)[id] == Current(w, s')[id]
  {
    hide Accepts, WellFormedPlan, PlanWithinLimits, OneRunning, RowSound, RowsOrdered, RunningIsCurrent, Latest;
    RunningIsLatest(w, s, i);
    LatestUpdate(s.rows, i, s'.rows[i], s.plan.id, s.plan.current.number, w.runId);
  }

  lemma SourceStays(w: World, s: Store, s': Store, i: nat, id: Id)
    requires Sound(w, s) && Rewritten(s, s', i)
    requires SucceededIn(Current(w, s), id) && Current(w, s)[id].reusedFrom.Some?
    ensures var source := Current(w, s)[id].reusedFrom.value;
      && FindAttempt(s.rows, w.runId, source).Some?
      && FindAttempt(s'.rows, w.runId, source) == FindAttempt(s.rows, w.runId, source)
  {
    hide Accepts, WellFormedPlan, PlanWithinLimits, OneRunning, RowSound, RowsOrdered, RunningIsCurrent, Current;
    var source := Current(w, s)[id].reusedFrom.value;
    SourceHasSucceeded(w, s, id);
    SourceIsAnother(w, s, i, source);
    FindAttemptUpdate(s.rows, i, s'.rows[i], w.runId, source);
  }

  lemma SettlingDisturbsNothing(w: World, s: Store, s': Store, i: nat)
    requires Sound(w, s) && Rewritten(s, s', i) && KeepsMemory(s, s')
    ensures Undisturbed(w, s, s')
  {
    hide Sound, Latest, KeepsMemory, Current;
    ReusedRowsStay(w, s, s', i);
    forall n | n != s.plan.current.number
      ensures Latest(s'.rows, s.plan.id, n, w.runId) == Latest(s.rows, s.plan.id, n, w.runId)
    {
      OtherVersionsStay(w, s, s', i, n);
    }
    forall id | SucceededIn(Current(w, s), id) && Current(w, s)[id].reusedFrom.Some?
      ensures var source := Current(w, s)[id].reusedFrom.value;
        && FindAttempt(s.rows, w.runId, source).Some?
        && FindAttempt(s'.rows, w.runId, source) == FindAttempt(s.rows, w.runId, source)
    {
      SourceStays(w, s, s', i, id);
    }
  }

  lemma NotInOtherVersion(rows: seq<Attempt>, a: Attempt, planId: Id, version: nat, runId: Id)
    requires a.version != version
    ensures forall id | id in Latest(rows, planId, version, runId) :: Latest(rows, planId, version, runId)[id] != a
  {
  }

  lemma SourceIsAnother(w: World, s: Store, i: nat, source: Id)
    requires DistinctIds(s.rows) && i < |s.rows| && s.rows[i].status.Running?
    requires FindAttempt(s.rows, w.runId, source).Some? && FindAttempt(s.rows, w.runId, source).value.status.Succeeded?
    ensures source != s.rows[i].id
  {
    var a := FindAttempt(s.rows, w.runId, source).value;
    var j :| 0 <= j < |s.rows| && s.rows[j] == a;
  }

  lemma FinishDisturbsNothing(w: World, s: Store, i: nat, c: Completion, m: Id)
    requires Sound(w, s) && CanFinish(w, s, i, c, m)
    ensures Undisturbed(w, s, Finished(w, s, i, c, m))
  {
    hide Sound, Undisturbed, KeepsMemory, ResultOf;
    CanFinishRow(w, s, i, c, m);
    FinishKeepsPlan(w, s, i, c, m);
    assert Rewritten(s, Finished(w, s, i, c, m), i);
    SettlingDisturbsNothing(w, s, Finished(w, s, i, c, m), i);
  }

  lemma CancelDisturbsNothing(w: World, s: Store, i: nat)
    requires Sound(w, s) && i < |s.rows| && s.rows[i].status.Running?
    ensures Undisturbed(w, s, s.(rows := s.rows[i := s.rows[i].(status := Cancelled)]))
  {
    hide Sound, Undisturbed;
    SettlingDisturbsNothing(w, s, s.(rows := s.rows[i := s.rows[i].(status := Cancelled)]), i);
  }

  lemma ApprovalDisturbsNothing(w: World, s: Store)
    requires Sound(w, s)
    ensures Undisturbed(w, s, s.(approved := true))
  {
    hide Sound, Latest;
    assert Current(w, s.(approved := true)) == Current(w, s);
    forall id | SucceededIn(Current(w, s), id) && Current(w, s)[id].reusedFrom.Some?
      ensures FindAttempt(s.rows, w.runId, Current(w, s)[id].reusedFrom.value).Some?
    {
      SourceHasSucceeded(w, s, id);
    }
  }

  /** No event but a revision or a reuse makes anything reusable. */
  lemma NextKeepsNothingReusable(w: World, envs: iset<Environment>, s: Store, e: Event)
    requires Sound(w, s) && RefsResolve(s) && NothingReusable(w, envs, s) && Enabled(w, s, e)
    requires !e.Revise? && !e.Reuse?
    ensures NothingReusable(w, envs, Next(w, s, e))
  {
    SoundBasics(w, s);
    hide Sound, RefsResolve, NothingReusable, CanStart, CanFinish, Undisturbed, WellFormedPlan, Accepts, WellFormed;
    match e {
      case Start(freshId) => StartDisturbsNothing(w, s, freshId);
      case Finish(i, c, m) => FinishDisturbsNothing(w, s, i, c, m);
      case Cancel(i) => CancelDisturbsNothing(w, s, i);
      case Approve => ApprovalDisturbsNothing(w, s);
    }
    NothingBecomesReusable(w, envs, s, Next(w, s, e));
  }

  // ---------------------------------------------------------------- runs of one version

  /** The version is not revised, and reuse compares with one of the environments. */
  ghost predicate Steady(envs: iset<Environment>, run: seq<Event>) {
    forall i | 0 <= i < |run| :: !run[i].Revise? && (run[i].Reuse? ==> run[i].env in envs)
  }

  lemma ReuseNeedsAReusable(w: World, envs: iset<Environment>, s: Store, e: Event)
    requires Enabled(w, s, e) && e.Reuse? && e.env in envs
    ensures !NothingReusable(w, envs, s)
  {
    hide Reusable, Current;
    var k :| 0 <= k < |s.plan.current.steps| && s.plan.current.steps[k] == e.step;
  }

  /** So after the reuse pass no later pass over the same version finds anything, and a hindered step stays
      hindered. */
  lemma {:induction false} HinderedForEver(
    w: World, envs: iset<Environment>, s: Store, run: seq<Event>, k: nat, d: Id)
    requires Sound(w, s) && RefsResolve(s) && NothingReusable(w, envs, s) && HinderedAt(w, s, k, d)
    requires Feasible(w, s, run) && Steady(envs, run)
    ensures HinderedAt(w, After(w, s, run), k, d) && NothingReusable(w, envs, After(w, s, run))
    ensures forall i | 0 <= i < |run| :: !run[i].Reuse?
    decreases |run|
  {
    hide Sound, RefsResolve, NothingReusable, HinderedAt, Enabled, Next;
    if run != [] {
      assert run == [run[0]] + run[1..];
      if run[0].Reuse? {
        ReuseNeedsAReusable(w, envs, s, run[0]);
      }
      NextKeepsHindered(w, s, run[0], k, d);
      NextKeepsNothingReusable(w, envs, s, run[0]);
      NextKeepsSound(w, s, run[0]);
      NextKeepsRefs(w, s, run[0]);
      HinderedForEver(w, envs, Next(w, s, run[0]), run[1..], k, d);
    }
  }

  // ---------------------------------------------------------------- completing

  /** For every step some answer is short enough to be stored. */
  ghost predicate Answerable(w: World) {
    forall doc: Document :: Fits(w, doc)
  }

  ghost predicate Fits(w: World, doc: Document) {
    exists summary, evidence :: w.size(Reworded(doc, summary, evidence)) <= MAX_RESULT_BYTES
  }

  function Reworded(doc: Document, summary: string, evidence: seq<string>): Document {
    doc.(summary := summary, evidence := evidence)
  }

  lemma SuccessCanBeStored(w: World, s: Store, i: nat, env: Environment, m: Id) returns (c: Completion)
    requires Sound(w, s) && Answerable(w) && IsRunning(s, i) && MemoryId(m) && m !in s.memory
    requires forall d | d in s.plan.current.Deps(s.rows[i].stepId) ::
      d in Current(w, s) ==> Current(w, s)[d].reusedFrom.None?
    ensures c.succeeded && CanFinish(w, s, i, c, m)
  {
    hide Sound, Current, DependenciesReadable, DependencyDocuments, DigestMap, Accepts, WellFormedPlan;
    RunningHasStep(w, s, i);
    var step := RunningStep(s, i).value;
    var plain := Completion(true, "", [], false, env);
    assert step in s.plan.current.steps && step.id == s.rows[i].stepId;
    forall d | d in s.plan.current.Deps(step.id)
      ensures d in Current(w, s) && Current(w, s)[d].reusedFrom.None?
    {
      assert SucceededIn(Current(w, s), d);
    }
    ResultBuildsIffDependenciesAreFresh(w, s, step, s.rows[i], plain);
    assert ResultOf(w, s, i, plain).Some?;
    hide BuildResultDocument, ResultOf;
    var doc := ResultOf(w, s, i, plain).value;
    assert Fits(w, doc);
    var summary, evidence :| w.size(Reworded(doc, summary, evidence)) <= MAX_RESULT_BYTES;
    c := plain.(summary := summary, evidence := evidence);
    RewordedResult(w, s, i, plain, summary, evidence);
  }

  lemma RewordedResult(w: World, s: Store, i: nat, c: Completion, summary: string, evidence: seq<string>)
    requires i < |s.rows| && ResultOf(w, s, i, c).Some?
    ensures ResultOf(w, s, i, c.(summary := summary, evidence := evidence))
         == Some(Reworded(ResultOf(w, s, i, c).value, summary, evidence))
  {
    hide DependenciesReadable, DependencyDocuments, DigestMap;
  }

  /** Starting and finishing the next step leaves no step hindered. */
  lemma SuccessHindersNothing(w: World, s: Store, s': Store, step: Step)
    requires s'.plan == s.plan
    requires forall id | id != step.id ::
      && (id in Current(w, s') <==> id in Current(w, s))
      && (id in Current(w, s) ==> Current(w, s')[id] == Current(w, s)[id])
    requires step.id in Current(w, s') && Current(w, s')[step.id].reusedFrom.None?
    requires SucceededIn(Current(w, s'), step.id)
    ensures Hindered(w, s') ==> Hindered(w, s)
  {
    hide Current;
    if Hindered(w, s') {
      var k, d :| HinderedAt(w, s', k, d);
      assert HinderedAt(w, s, k, d);
    }
  }

  /** The next step is started and succeeds. */
  lemma OneMoreSucceeds(w: World, s: Store, env: Environment, m: Id) returns (started: Event, finished: Event)
    requires Sound(w, s) && Idle(w, s) && s.approved && Answerable(w) && !Hindered(w, s)
    requires MemoryId(m) && m !in s.memory && !AllSucceeded(s.plan.current, Current(w, s))
    ensures started.Start? && finished.Finish? && finished.memoryId == m
    ensures Enabled(w, s, started) && Enabled(w, Next(w, s, started), finished)
    ensures var s' := Next(w, Next(w, s, started), finished);
      && Sound(w, s') && Idle(w, s') && s'.approved && !Hindered(w, s') && s'.plan == s.plan
      && Budget(w, s') == Budget(w, s) - 1 && s'.memory.Keys == s.memory.Keys + {m}
  {
    hide Sound, Idle, Current, Hindered, Budget, ResultOf, AllSucceeded, Answerable;
    var id := NewId(s);
    if ChooseReady(s.plan.current, Current(w, s)).None? {
      NothingReady(w, s);
    }
    ReadyWithinLimit(w, s, id);
    started := Start(id);
    var step := ChooseReady(s.plan.current, Current(w, s)).value;
    var s1, i := Next(w, s, started), |s.rows|;
    NextKeepsSound(w, s, started);
    StartSpends(w, s, id);
    FreshDependencies(w, s, step, id);
    var c := SuccessCanBeStored(w, s1, i, env, m);
    finished := Finish(i, c, m);
    var s' := Next(w, s1, finished);
    NextKeepsSound(w, s1, finished);
    FinishSpendsNothing(w, s1, i, c, m);
    SettledIsIdle(w, s1, i, c, m);
    StepHasSucceeded(w, s, s1, step, id, c, m);
    SuccessHindersNothing(w, s, s', step);
  }

  lemma FreshDependencies(w: World, s: Store, step: Step, id: Id)
    requires Sound(w, s) && CanStart(w, s, id) && !Hindered(w, s)
    requires ChooseReady(s.plan.current, Current(w, s)) == Some(step)
    ensures forall d | d in s.plan.current.Deps(step.id) ::
      d in Current(w, Started(w, s, id)) ==> Current(w, Started(w, s, id))[d].reusedFrom.None?
  {
    hide Sound, Accepts, Executable, NoneRunning, FreshId, Current, Limit;
    RunningRowNotSucceeded(w, s, step, id);
    var k :| 0 <= k < |s.plan.current.steps| && s.plan.current.steps[k] == step;
    forall d | d in s.plan.current.Deps(step.id) && d in Current(w, Started(w, s, id))
      ensures Current(w, Started(w, s, id))[d].reusedFrom.None?
    {
      assert SucceededIn(Current(w, s), d) && !HinderedAt(w, s, k, d);
    }
  }

  lemma StepHasSucceeded(w: World, s: Store, s1: Store, step: Step, id: Id, c: Completion, m: Id)
    requires Sound(w, s) && CanStart(w, s, id) && ChooseReady(s.plan.current, Current(w, s)) == Some(step)
    requires s1 == Started(w, s, id) && Sound(w, s1) && c.succeeded && CanFinish(w, s1, |s.rows|, c, m)
    ensures var s' := Finished(w, s1, |s.rows|, c, m);
      && s'.plan == s.plan && s'.approved == s.approved && s'.memory.Keys == s.memory.Keys + {m}
      && step.id in Current(w, s') && Current(w, s')[step.id].reusedFrom.None? && SucceededIn(Current(w, s'), step.id)
      && forall x | x != step.id ::
           && (x in Current(w, s') <==> x in Current(w, s))
           && (x in Current(w, s) ==> Current(w, s')[x] == Current(w, s)[x])
  {
    hide Accepts, Executable, NoneRunning, FreshId, Latest, Limit, ResultOf, WellFormedPlan, RowSound, RowsOrdered,
      OneRunning, RunningIsCurrent, PlanWithinLimits;
    var i, s' := |s.rows|, Finished(w, s1, |s.rows|, c, m);
    RunningRowNotSucceeded(w, s, step, id);
    LatestUpdate(s1.rows, i, s'.rows[i], s1.plan.id, s1.plan.current.number, w.runId);
  }

  lemma {:induction false} Completes(
    w: World, s: Store, env: Environment, ids: seq<Id>, n: nat)
    returns (run: seq<Event>)
    requires Sound(w, s) && Idle(w, s) && s.approved && Answerable(w) && !Hindered(w, s)
    requires Pool(ids, s.memory, n) && n + Budget(w, s) <= |ids|
    ensures Feasible(w, s, run) && AllSucceeded(After(w, s, run).plan.current, Current(w, After(w, s, run)))
    ensures forall i | 0 <= i < |run| :: !run[i].Revise? && !run[i].Reuse?
    decreases Budget(w, s) + 1
  {
    hide Sound, Idle, Current, Hindered, Budget, Enabled, Next, AllSucceeded, Answerable;
    BudgetIsNonNegative(w, s);
    if AllSucceeded(s.plan.current, Current(w, s)) {
      run := [];
    } else {
      BudgetIsLeft(w, s);
      var started, finished := OneMoreSucceeds(w, s, env, ids[n]);
      var s1 := Next(w, s, started);
      var s' := Next(w, s1, finished);
      BudgetIsNonNegative(w, s');
      var rest := Completes(w, s', env, ids, n + 1);
      run := [started] + ([finished] + rest);
      assert ([finished] + rest)[1..] == rest && run[1..] == [finished] + rest;
      assert Feasible(w, s1, [finished] + rest) && After(w, s1, [finished] + rest) == After(w, s', rest);
    }
  }

  lemma BudgetIsLeft(w: World, s: Store)
    requires Sound(w, s) && Idle(w, s) && s.approved && !AllSucceeded(s.plan.current, Current(w, s))
    ensures Budget(w, s) > 0
  {
    hide Sound, Idle, Current, Budget, AllSucceeded;
    var id := NewId(s);
    if ChooseReady(s.plan.current, Current(w, s)).None? {
      NothingReady(w, s);
    }
    ReadyWithinLimit(w, s, id);
    StartSpends(w, s, id);
    NextKeepsSound(w, s, Start(id));
    BudgetIsNonNegative(w, Started(w, s, id));
  }

  ghost predicate CanComplete(w: World, envs: iset<Environment>, s: Store) {
    exists run :: Feasible(w, s, run) && Steady(envs, run) && Complete(w, After(w, s, run))
  }

  predicate Complete(w: World, s: Store) {
    AllSucceeded(s.plan.current, Current(w, s))
  }

  /** From an idle, approved run with nothing left to reuse in any of the environments it will meet: its version
      can be completed if and only if no step that has yet to succeed depends on a reused one. */
  lemma CompletesExactlyWhen(w: World, envs: iset<Environment>, s: Store, env: Environment, ids: seq<Id>)
    requires Sound(w, s) && Idle(w, s) && s.approved && RefsResolve(s) && NothingReusable(w, envs, s)
    requires Answerable(w) && Pool(ids, s.memory, 0) && |ids| >= Budget(w, s)
    ensures CanComplete(w, envs, s) <==> !Hindered(w, s)
  {
    hide Sound, Idle, Current, Budget, RefsResolve, NothingReusable, HinderedAt, Feasible, After, Answerable, Pool;
    if Hindered(w, s) {
      var k, d :| HinderedAt(w, s, k, d);
      forall run | Feasible(w, s, run) && Steady(envs, run)
        ensures !Complete(w, After(w, s, run))
      {
        HinderedForEver(w, envs, s, run, k, d);
        HinderedIsIncomplete(w, After(w, s, run), k, d);
      }
    } else {
      var run := Completes(w, s, env, ids, 0);
      assert Steady(envs, run);
    }
  }

  lemma HinderedIsIncomplete(w: World, s: Store, k: nat, d: Id)
    requires HinderedAt(w, s, k, d)
    ensures !Complete(w, s)
  {
  }

  /** The reuse pass leaves nothing reusable in the environment it compared with. */
  lemma PassLeavesNothing(w: World, env: Environment, s0: Store, s: Store, run: seq<Event>)
    requires Reached(w, env, s0, s, run, |s0.plan.current.steps|)
    ensures NothingReusable(w, iset{env}, s)
  {
    hide Sound, Feasible, After, Reusable, Current, ReusedProperly, Idle, Budget;
  }
}
