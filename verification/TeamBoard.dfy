/** A team of agents: its task board, the jobs made for it and the token allocation they share. */
module TeamBoard {
  import opened Lifecycle
  import opened Wrappers

  /** Tasks and jobs are named by their position; `job` is the job bound to a claimed task. */
  datatype Task = Task(depends: seq<nat>, owner: Option<nat>, status: Status, version: nat, job: Option<nat>)

  /** `working` while a worker runs the job. */
  datatype Job = Job(member: nat, task: Option<nat>, status: Status, budget: nat, working: bool)

  /** `elsewhere` counts the session's jobs that belong to no team or to another one; `listed` while a
      scheduling pass that read the team as active has not finished with it. */
  datatype Team = Team(
    status: Status, tasks: seq<Task>, jobs: seq<Job>, finalJob: Option<nat>, elsewhere: nat, listed: bool)

  datatype Config = Config(members: nat, leader: nat, budget: nat, teamLimit: nat, maxJobs: nat)

  const MAX_TASKS := 100
  const MAX_DEPENDENCIES := 20

  // ---------------------------------------------------------------- the allocation

  function Reserved(jobs: seq<Job>): nat {
    if jobs == [] then 0 else Reserved(jobs[..|jobs| - 1]) + jobs[|jobs| - 1].budget
  }

  /** A task job must leave room for one more. */
  predicate WithinTeamLimit(c: Config, t: Team, forTask: bool) {
    Reserved(t.jobs) + c.budget + (if forTask then c.budget else 0) <= c.teamLimit
  }

  predicate CanCreateJob(c: Config, t: Team, forTask: bool) {
    t.elsewhere + |t.jobs| < c.maxJobs && WithinTeamLimit(c, t, forTask)
  }

  // ---------------------------------------------------------------- scheduling

  predicate IsBusy(jobs: seq<Job>, member: nat) {
    exists k | 0 <= k < |jobs| :: !jobs[k].status.Ended() && jobs[k].member == member
  }

  predicate AllIdle(jobs: seq<Job>) {
    forall k | 0 <= k < |jobs| :: jobs[k].status.Ended()
  }

  predicate DependenciesCompleted(t: Team, task: Task) {
    forall d | d in task.depends :: d < |t.tasks| && t.tasks[d].status.Completed?
  }

  /** A member may take a task assigned to it; an unassigned task goes to anyone but the leader. */
  predicate Eligible(c: Config, task: Task, member: nat) {
    member < c.members && (task.owner == Some(member) || (task.owner.None? && member != c.leader))
  }

  predicate Claimable(c: Config, t: Team, i: nat, member: nat) {
    && i < |t.tasks| && t.status.Active? && t.tasks[i].status.Pending?
    && DependenciesCompleted(t, t.tasks[i]) && Eligible(c, t.tasks[i], member) && !IsBusy(t.jobs, member)
  }

  predicate AllEnded(tasks: seq<Task>) {
    forall i | 0 <= i < |tasks| :: tasks[i].status.Ended()
  }

  /** Every job and every task has ended; a pass does not look at the team's status again. */
  predicate Wound(t: Team) {
    t.jobs != [] && AllIdle(t.jobs) && AllEnded(t.tasks)
  }

  predicate Closable(t: Team) {
    Wound(t) && (t.tasks == [] || t.finalJob.Some?)
  }

  // ---------------------------------------------------------------- steps

  /** `Lose` is a worker that goes away without writing anything: it was cancelled before its first step, or its
      last transaction met a conflict. */
  datatype Event =
    | CreateTask(depends: seq<nat>, owner: Option<nat>)
    | List
    | Assign(task: nat, member: nat)
    | Refuse(task: nat, member: nat)
    | Report
    | Close
    | EndPass
    | Dispatch(job: nat)
    | Settle(job: nat, status: Status)
    | CancelJob(job: nat)
    | Lose(job: nat)
    | Restart
    | CancelTeam
    | Elsewhere(count: nat)

  predicate Enabled(c: Config, t: Team, e: Event) {
    match e
    case CreateTask(depends, owner) =>
      && t.status.Active? && |depends| <= MAX_DEPENDENCIES && |t.tasks| < MAX_TASKS
      && (forall d | d in depends :: d < |t.tasks|) && (owner.Some? ==> owner.value < c.members)
    case List => t.status.Active?
    case Assign(i, m) => t.listed && Claimable(c, t, i, m) && CanCreateJob(c, t, true)
    case Refuse(i, m) => t.listed && Claimable(c, t, i, m) && !CanCreateJob(c, t, true)
    case Report => t.listed && Wound(t) && t.tasks != [] && t.finalJob.None? && CanCreateJob(c, t, false)
    case Close => t.listed && Closable(t)
    case EndPass => true
    case Dispatch(k) => k < |t.jobs| && t.jobs[k].status.Dispatchable() && !t.jobs[k].working
    case Settle(k, s) => k < |t.jobs| && t.jobs[k].working && (s.Ended() || s.AwaitingUser? || s.Interrupted?)
    case CancelJob(k) => k < |t.jobs| && !t.jobs[k].status.Ended()
    case Lose(k) => k < |t.jobs| && t.jobs[k].working
    case Restart => true
    case CancelTeam => true
    case Elsewhere(n) => n >= t.elsewhere
  }

  function CancelPending(tasks: seq<Task>): (r: seq<Task>)
    ensures |r| == |tasks|
    ensures forall i | 0 <= i < |r| :: r[i] == Withdrawn(tasks[i])
  {
    seq(|tasks|, i requires 0 <= i < |tasks| => Withdrawn(tasks[i]))
  }

  function Withdrawn(task: Task): Task {
    if task.status.Pending? then task.(status := Cancelled, version := task.version + 1) else task
  }

  /** A worker ends: its job takes the status unless cancelled meanwhile; a final status also ends the task
      the job is bound to. */
  function Settled(t: Team, k: nat, s: Status): (r: Team)
    requires k < |t.jobs|
    ensures |r.tasks| == |t.tasks| && |r.jobs| == |t.jobs|
  {
    var job := t.jobs[k];
    var jobs := t.jobs[k := job.(status := if job.status.Cancelled? then Cancelled else s, working := false)];
    if s.Ended() && job.task.Some? && job.task.value < |t.tasks| && t.tasks[job.task.value].status.Running?
       && t.tasks[job.task.value].job == Some(k)
    then
      var i := job.task.value;
      t.(jobs := jobs, tasks := t.tasks[i := t.tasks[i].(status := s, version := t.tasks[i].version + 1)])
    else t.(jobs := jobs)
  }

  /** A restarted process has no workers. */
  function Stopped(jobs: seq<Job>): (r: seq<Job>)
    ensures |r| == |jobs| && forall k | 0 <= k < |r| :: r[k] == jobs[k].(working := false)
  {
    seq(|jobs|, k requires 0 <= k < |jobs| => jobs[k].(working := false))
  }

  /** A task is given to a member, with a job of its own. */
  function Given(c: Config, t: Team, i: nat, m: nat): Team
    requires i < |t.tasks|
  {
    t.(tasks := t.tasks[i := t.tasks[i].(status := Running, owner := Some(m),
         version := t.tasks[i].version + 1, job := Some(|t.jobs|))],
       jobs := t.jobs + [Job(m, Some(i), Queued, c.budget, false)])
  }

  function Next(c: Config, t: Team, e: Event): Team
    requires Enabled(c, t, e)
  {
    match e
    case CreateTask(depends, owner) => t.(tasks := t.tasks + [Task(depends, owner, Pending, 1, None)])
    case List => t.(listed := true)
    case EndPass => t.(listed := false)
    case Assign(i, m) => Given(c, t, i, m)
    case Refuse(i, m) =>
      t.(tasks := t.tasks[i := t.tasks[i].(status := Failed, owner := Some(m), version := t.tasks[i].version + 2)],
         status := Failed, listed := false)
    case Report =>
      t.(jobs := t.jobs + [Job(c.leader, None, Queued, c.budget, false)], finalJob := Some(|t.jobs|), listed := false)
    case Close =>
      var good := forall k | 0 <= k < |t.jobs| :: t.jobs[k].status.Completed?;
      t.(status := if good then Completed else Failed, listed := false)
    case Dispatch(k) => t.(jobs := t.jobs[k := t.jobs[k].(status := Running, working := true)])
    case Settle(k, s) => Settled(t, k, s)
    case CancelJob(k) => t.(jobs := t.jobs[k := t.jobs[k].(status := Cancelled)])
    case Lose(k) => t.(jobs := t.jobs[k := t.jobs[k].(working := false)])
    case Restart => t.(jobs := Stopped(t.jobs), listed := false)
    case CancelTeam => t.(status := Cancelled, tasks := CancelPending(t.tasks))
    case Elsewhere(n) => t.(elsewhere := n)
  }

  /** `create_team`: the leader's job and an empty board, if the limits allow the job. */
  function Founded(c: Config, elsewhere: nat): Option<Team> {
    var empty := Team(Active, [], [], None, elsewhere, false);
    if CanCreateJob(c, empty, false) then Some(empty.(jobs := [Job(c.leader, None, Queued, c.budget, false)])) else None
  }

  // ---------------------------------------------------------------- invariant

  /** A task depends on older tasks only; once started, all of them have completed; it is pending
      exactly as long as nothing has updated it. */
  predicate TaskSound(t: Team, i: nat)
    requires i < |t.tasks|
  {
    var task := t.tasks[i];
    && (forall d | d in task.depends :: d < i)
    && (task.status.Pending? || task.status.Running? || task.status.Ended())
    && (task.status.Running? || task.status.Completed? || task.status.Failed? ==> DependenciesCompleted(t, task))
    && task.version >= 1 && (task.status.Pending? <==> task.version == 1)
  }

  /** Tasks and jobs point at each other, and a task is bound to one job at most. */
  predicate BindingSound(t: Team, i: nat)
    requires i < |t.tasks|
  {
    var task := t.tasks[i];
    && (task.status.Pending? ==> task.job.None?)
    && (task.status.Running? || (t.status.Active? && task.status.Ended()) ==> task.job.Some?)
    && (task.status.Running? && task.job.value < |t.jobs| ==>
          !t.jobs[task.job.value].status.Completed? && !t.jobs[task.job.value].status.Failed?)
    && (task.job.Some? ==>
          && task.job.value < |t.jobs| && t.jobs[task.job.value].task == Some(i)
          && task.owner == Some(t.jobs[task.job.value].member))
  }

  /** The first job is the leader's, one other may be the final report, the rest serve tasks. */
  predicate JobSound(c: Config, t: Team, k: nat)
    requires k < |t.jobs|
  {
    var job := t.jobs[k];
    && job.member < c.members && (job.working ==> job.status.Running? || job.status.Cancelled?)
    && (k == 0 ==> job.task.None?)
    && (k > 0 && job.task.None? ==> t.finalJob == Some(k))
    && (job.task.Some? ==> job.task.value < |t.tasks| && t.tasks[job.task.value].job == Some(k))
  }

  predicate HasTaskJob(t: Team) {
    exists k | 0 <= k < |t.jobs| :: t.jobs[k].task.Some?
  }

  predicate AllocationSound(c: Config, t: Team) {
    && Reserved(t.jobs) <= c.teamLimit
    && (HasTaskJob(t) && t.finalJob.None? ==> Reserved(t.jobs) + c.budget <= c.teamLimit)
  }

  /** No member has two jobs that have not ended. */
  predicate Exclusive(jobs: seq<Job>) {
    forall k, l | 0 <= k < l < |jobs| && !jobs[k].status.Ended() && !jobs[l].status.Ended() ::
      jobs[k].member != jobs[l].member
  }

  predicate BoardSound(t: Team) {
    forall i | 0 <= i < |t.tasks| :: TaskSound(t, i) && BindingSound(t, i)
  }

  predicate JobsSound(c: Config, t: Team) {
    && |t.jobs| > 0 && Exclusive(t.jobs) && (forall k | 0 <= k < |t.jobs| :: JobSound(c, t, k))
    && (t.finalJob.Some? ==> 0 < t.finalJob.value < |t.jobs| && t.jobs[t.finalJob.value].task.None?)
  }

  predicate OwnersSound(c: Config, t: Team) {
    forall i | 0 <= i < |t.tasks| :: t.tasks[i].owner.Some? ==> t.tasks[i].owner.value < c.members
  }

  predicate Sound(c: Config, t: Team) {
    c.leader < c.members && BoardSound(t) && OwnersSound(c, t) && JobsSound(c, t) && AllocationSound(c, t)
  }

  // ---------------------------------------------------------------- every step keeps it

  /** The tasks only move forward: nothing is removed, dependencies stay, versions grow, what has
      completed stays completed. */
  predicate Forward(was: Task, now: Task) {
    && now.depends == was.depends && was.version <= now.version
    && (now == was || was.version < now.version)
    && (was.status.Ended() ==> now.status == was.status)
    && (!was.status.Pending? ==> !now.status.Pending?)
    && (!was.status.Pending? && !was.status.Running? ==> !now.status.Running?)
  }

  predicate BoardForward(s: Team, t: Team) {
    |s.tasks| <= |t.tasks| && forall i | 0 <= i < |s.tasks| :: Forward(s.tasks[i], t.tasks[i])
  }

  lemma DependenciesStayCompleted(s: Team, t: Team, task: Task)
    requires BoardForward(s, t) && DependenciesCompleted(s, task)
    ensures DependenciesCompleted(t, task)
  {
    forall d | d in task.depends
      ensures d < |t.tasks| && t.tasks[d].status.Completed?
    {
      assert Forward(s.tasks[d], t.tasks[d]);
    }
  }

  /** A task that was not touched stays sound when the others move forward. */
  lemma UntouchedTaskIsSound(s: Team, t: Team, i: nat)
    requires BoardForward(s, t) && i < |s.tasks| && TaskSound(s, i) && t.tasks[i] == s.tasks[i]
    ensures TaskSound(t, i)
  {
    if DependenciesCompleted(s, s.tasks[i]) {
      DependenciesStayCompleted(s, t, s.tasks[i]);
    }
  }

  lemma StepIsForward(c: Config, t: Team, e: Event)
    requires Enabled(c, t, e) && BoardSound(t)
    ensures BoardForward(t, Next(c, t, e))
  {
    hide DependenciesCompleted, CanCreateJob, BindingSound, Eligible, IsBusy;
    var n := Next(c, t, e);
    forall i | 0 <= i < |t.tasks|
      ensures Forward(t.tasks[i], n.tasks[i])
    {
      assert TaskSound(t, i);
    }
  }

  lemma BoardStaysSound(c: Config, t: Team, e: Event)
    requires Enabled(c, t, e) && BoardSound(t)
    ensures forall i | 0 <= i < |Next(c, t, e).tasks| :: TaskSound(Next(c, t, e), i)
  {
    hide BindingSound, CanCreateJob, IsBusy, Eligible, Forward;
    var n := Next(c, t, e);
    StepIsForward(c, t, e);
    forall i | 0 <= i < |n.tasks|
      ensures TaskSound(n, i)
    {
      if i < |t.tasks| {
        assert TaskSound(t, i);
        if n.tasks[i] == t.tasks[i] {
          UntouchedTaskIsSound(t, n, i);
        } else if DependenciesCompleted(t, t.tasks[i]) {
          DependenciesStayCompleted(t, n, t.tasks[i]);
        }
      }
    }
  }

  lemma BindingStaysSound(c: Config, t: Team, e: Event)
    requires Enabled(c, t, e) && BoardSound(t) && JobsSound(c, t)
    ensures forall i | 0 <= i < |Next(c, t, e).tasks| :: BindingSound(Next(c, t, e), i)
  {
    hide Enabled, Next, BoardSound, JobsSound, BindingSound;
    forall i | 0 <= i < |Next(c, t, e).tasks|
      ensures BindingSound(Next(c, t, e), i)
    {
      BindingStaysSoundAt(c, t, e, i);
    }
  }

  lemma BindingStaysSoundAt(c: Config, t: Team, e: Event, i: nat)
    requires Enabled(c, t, e) && BoardSound(t) && JobsSound(c, t) && i < |Next(c, t, e).tasks|
    ensures BindingSound(Next(c, t, e), i)
  {
    hide DependenciesCompleted, CanCreateJob, IsBusy, Eligible, Exclusive, AllEnded, AllIdle, TaskSound, JobSound,
      Settled;
    assert i < |t.tasks| ==> BindingSound(t, i);
    match e
    case Assign(j, m) => AssignBinds(c, t, j, m, i);
    case Settle(k, s) => SettleBinds(t, k, s, i);
    case _ =>
  }

  lemma AssignBinds(c: Config, t: Team, j: nat, m: nat, i: nat)
    requires Enabled(c, t, Assign(j, m)) && i < |t.tasks| && BindingSound(t, i)
    ensures BindingSound(Next(c, t, Assign(j, m)), i)
  {
    hide DependenciesCompleted, CanCreateJob, IsBusy, Eligible;
  }

  lemma SettleBinds(t: Team, k: nat, s: Status, i: nat)
    requires k < |t.jobs| && i < |t.tasks| && BindingSound(t, i)
    requires s.Ended() || s.AwaitingUser? || s.Interrupted?
    ensures |Settled(t, k, s).tasks| == |t.tasks| && BindingSound(Settled(t, k, s), i)
  {
  }

  lemma FreeMemberIsExclusive(jobs: seq<Job>, job: Job)
    requires Exclusive(jobs) && !IsBusy(jobs, job.member)
    ensures Exclusive(jobs + [job])
  {
  }

  lemma JobsStayExclusive(c: Config, t: Team, e: Event)
    requires Enabled(c, t, e) && JobsSound(c, t)
    ensures Exclusive(Next(c, t, e).jobs)
  {
    hide DependenciesCompleted, CanCreateJob, Eligible, AllEnded, CancelPending;
    assert e.Settle? ==> JobSound(c, t, e.job);
    match e
    case Assign(i, m) => FreeMemberIsExclusive(t.jobs, Job(m, Some(i), Queued, c.budget, false));
    case Report => FreeMemberIsExclusive(t.jobs, Job(c.leader, None, Queued, c.budget, false));
    case _ =>
  }

  lemma JobsStaySound(c: Config, t: Team, e: Event)
    requires Enabled(c, t, e) && c.leader < c.members && BoardSound(t) && JobsSound(c, t)
    ensures JobsSound(c, Next(c, t, e))
  {
    JobsStayExclusive(c, t, e);
    FinalJobStays(c, t, e);
    hide Enabled, Next, BoardSound, Exclusive, JobSound;
    forall k | 0 <= k < |Next(c, t, e).jobs|
      ensures JobSound(c, Next(c, t, e), k)
    {
      JobStaysSoundAt(c, t, e, k);
    }
  }

  lemma FinalJobStays(c: Config, t: Team, e: Event)
    requires Enabled(c, t, e) && JobsSound(c, t)
    ensures var n := Next(c, t, e);
      |n.jobs| > 0 && (n.finalJob.Some? ==> 0 < n.finalJob.value < |n.jobs| && n.jobs[n.finalJob.value].task.None?)
  {
    hide DependenciesCompleted, CanCreateJob, IsBusy, Exclusive, JobSound, Eligible, AllEnded, AllIdle;
  }

  lemma JobStaysSoundAt(c: Config, t: Team, e: Event, k: nat)
    requires Enabled(c, t, e) && c.leader < c.members && BoardSound(t) && JobsSound(c, t) && k < |Next(c, t, e).jobs|
    ensures JobSound(c, Next(c, t, e), k)
  {
    hide DependenciesCompleted, CanCreateJob, IsBusy, Exclusive, TaskSound, AllEnded, AllIdle, BindingSound, Settled;
    assert k < |t.jobs| ==> JobSound(c, t, k);
    match e
    case Assign(i, m) =>
      assert BindingSound(t, i);
      AssignKeepsJob(c, t, i, m, k);
    case Settle(j, s) => SettleKeepsJob(c, t, j, s, k);
    case _ =>
  }

  lemma AssignKeepsJob(c: Config, t: Team, i: nat, m: nat, k: nat)
    requires Enabled(c, t, Assign(i, m)) && BindingSound(t, i) && k <= |t.jobs|
    requires |t.jobs| > 0 && (k < |t.jobs| ==> JobSound(c, t, k))
    ensures JobSound(c, Next(c, t, Assign(i, m)), k)
  {
    hide DependenciesCompleted, CanCreateJob, IsBusy;
  }

  lemma SettleKeepsJob(c: Config, t: Team, j: nat, s: Status, k: nat)
    requires j < |t.jobs| && k < |t.jobs| && JobSound(c, t, k)
    ensures |Settled(t, j, s).jobs| == |t.jobs| && JobSound(c, Settled(t, j, s), k)
  {
  }

  predicate SameBudgets(a: seq<Job>, b: seq<Job>) {
    |a| == |b| && forall k | 0 <= k < |a| :: a[k].budget == b[k].budget && a[k].task == b[k].task
  }

  lemma {:induction false} ReservedIsStable(a: seq<Job>, b: seq<Job>)
    requires SameBudgets(a, b)
    ensures Reserved(a) == Reserved(b)
    decreases |a|
  {
    if a != [] {
      ReservedIsStable(a[..|a| - 1], b[..|b| - 1]);
    }
  }

  lemma ReservedGrows(jobs: seq<Job>, job: Job)
    ensures Reserved(jobs + [job]) == Reserved(jobs) + job.budget
  {
    assert (jobs + [job])[..|jobs|] == jobs;
  }

  lemma AllocationStaysSound(c: Config, t: Team, e: Event)
    requires Enabled(c, t, e) && AllocationSound(c, t) && JobsSound(c, t)
    ensures AllocationSound(c, Next(c, t, e))
  {
    hide DependenciesCompleted, IsBusy, Eligible, Reserved, Exclusive, CancelPending, SameBudgets, Settled, JobSound;
    match e
    case Assign(i, m) => ReservedGrows(t.jobs, Job(m, Some(i), Queued, c.budget, false));
    case Report => ReservedGrows(t.jobs, Job(c.leader, None, Queued, c.budget, false));
    case _ =>
      BudgetsStay(c, t, e);
      ReservedIsStable(t.jobs, Next(c, t, e).jobs);
  }

  lemma BudgetsStay(c: Config, t: Team, e: Event)
    requires Enabled(c, t, e) && !e.Assign? && !e.Report?
    ensures var n := Next(c, t, e);
      SameBudgets(t.jobs, n.jobs) && n.finalJob == t.finalJob && (HasTaskJob(n) ==> HasTaskJob(t))
  {
    hide DependenciesCompleted, IsBusy, Eligible, CanCreateJob, AllEnded, AllIdle, CancelPending;
  }

  lemma OwnersStaySound(c: Config, t: Team, e: Event)
    requires Enabled(c, t, e) && OwnersSound(c, t)
    ensures OwnersSound(c, Next(c, t, e))
  {
    hide DependenciesCompleted, CanCreateJob, IsBusy;
  }

  lemma NextKeepsSound(c: Config, t: Team, e: Event)
    requires Enabled(c, t, e) && Sound(c, t)
    ensures Sound(c, Next(c, t, e))
  {
    hide Next, Enabled, TaskSound, BindingSound, JobsSound, AllocationSound, OwnersSound;
    OwnersStaySound(c, t, e);
    BoardStaysSound(c, t, e);
    BindingStaysSound(c, t, e);
    JobsStaySound(c, t, e);
    AllocationStaysSound(c, t, e);
  }

  // ---------------------------------------------------------------- runs

  predicate Feasible(c: Config, t: Team, run: seq<Event>)
    decreases |run|
  {
    run == [] || (Enabled(c, t, run[0]) && Feasible(c, Next(c, t, run[0]), run[1..]))
  }

  function After(c: Config, t: Team, run: seq<Event>): Team
    requires Feasible(c, t, run)
    decreases |run|
  {
    if run == [] then t else After(c, Next(c, t, run[0]), run[1..])
  }

  lemma FoundedIsSound(c: Config, elsewhere: nat)
    requires c.leader < c.members && Founded(c, elsewhere).Some?
    ensures Sound(c, Founded(c, elsewhere).value)
  {
    var t := Founded(c, elsewhere).value;
    assert t.jobs[..0] == [] && Reserved(t.jobs) == c.budget;
  }

  /** Every state a team can reach keeps its dependency graph acyclic with started tasks resting on
      completed ones, one job per task and per member, and the allocation within the limit. */
  lemma {:induction false} EveryReachableTeamIsSound(c: Config, t: Team, run: seq<Event>)
    requires Sound(c, t) && Feasible(c, t, run)
    ensures Sound(c, After(c, t, run))
    decreases |run|
  {
    hide Sound, Next, Enabled;
    if run != [] {
      NextKeepsSound(c, t, run[0]);
      EveryReachableTeamIsSound(c, Next(c, t, run[0]), run[1..]);
    }
  }

  lemma ForwardTrans(r: Team, s: Team, t: Team)
    requires BoardForward(r, s) && BoardForward(s, t)
    ensures BoardForward(r, t)
  {
    forall i | 0 <= i < |r.tasks|
      ensures Forward(r.tasks[i], t.tasks[i])
    {
      assert Forward(r.tasks[i], s.tasks[i]) && Forward(s.tasks[i], t.tasks[i]);
    }
  }

  /** Over any run a task never returns to pending, is claimed at most once, and keeps its result. */
  lemma {:induction false} RunsAreForward(c: Config, t: Team, run: seq<Event>)
    requires Sound(c, t) && Feasible(c, t, run)
    ensures BoardForward(t, After(c, t, run))
    decreases |run|
  {
    hide Next, Enabled, Forward, JobsSound, AllocationSound;
    if run == [] {
      ForwardRefl(t);
    } else {
      StepIsForward(c, t, run[0]);
      NextKeepsSound(c, t, run[0]);
      RunsAreForward(c, Next(c, t, run[0]), run[1..]);
      ForwardTrans(t, Next(c, t, run[0]), After(c, t, run));
    }
  }

  lemma ForwardRefl(t: Team)
    ensures BoardForward(t, t)
  {
  }

  predicate Claims(e: Event, i: nat) {
    (e.Assign? || e.Refuse?) && e.task == i
  }

  function ClaimsIn(run: seq<Event>, i: nat): nat {
    if run == [] then 0 else (if Claims(run[0], i) then 1 else 0) + ClaimsIn(run[1..], i)
  }

  /** At most one claim of a task ever succeeds. */
  lemma {:induction false} ClaimedAtMostOnce(c: Config, t: Team, run: seq<Event>, i: nat)
    requires Sound(c, t) && Feasible(c, t, run)
    ensures ClaimsIn(run, i) <= 1
    ensures i < |t.tasks| && !t.tasks[i].status.Pending? ==> ClaimsIn(run, i) == 0
    decreases |run|
  {
    hide JobsSound, AllocationSound, DependenciesCompleted, IsBusy, Eligible, CanCreateJob;
    if run != [] {
      var n := Next(c, t, run[0]);
      NextKeepsSound(c, t, run[0]);
      StepIsForward(c, t, run[0]);
      assert i < |t.tasks| ==> Forward(t.tasks[i], n.tasks[i]);
      ClaimedAtMostOnce(c, n, run[1..], i);
    }
  }

  // ---------------------------------------------------------------- the final report

  /** Because each task job left room for one more, the team limit never refuses the final report of an
      active team whose tasks have all ended: only the session's job limit can. */
  lemma FinalReportIsAffordable(c: Config, t: Team)
    requires Sound(c, t) && t.status.Active? && Wound(t) && t.tasks != [] && t.finalJob.None?
    ensures WithinTeamLimit(c, t, false)
    ensures Enabled(c, t, Report) <==> t.listed && t.elsewhere + |t.jobs| < c.maxJobs
  {
    hide TaskSound, Exclusive, Reserved;
    assert BindingSound(t, 0) && t.tasks[0].status.Ended();
    assert t.jobs[t.tasks[0].job.value].task.Some?;
  }

  /** The session has no room for another job. */
  predicate Full(c: Config, t: Team) {
    t.elsewhere + |t.jobs| >= c.maxJobs
  }

  /** Jobs are never removed, so in a full session a team with tasks and no final report makes no job, makes no
      report and is never closed. */
  lemma {:induction false} FullSessionBlocksTheReport(c: Config, t: Team, run: seq<Event>)
    requires Feasible(c, t, run) && Full(c, t) && t.tasks != [] && t.finalJob.None?
    ensures var n := After(c, t, run); Full(c, n) && n.tasks != [] && n.finalJob.None? && |n.jobs| == |t.jobs|
    ensures forall i | 0 <= i < |run| :: !run[i].Report? && !run[i].Close? && !run[i].Assign?
    decreases |run|
  {
    hide Enabled, Next;
    if run != [] {
      assert run == [run[0]] + run[1..];
      FullStep(c, t, run[0]);
      FullSessionBlocksTheReport(c, Next(c, t, run[0]), run[1..]);
    }
  }

  lemma FullStep(c: Config, t: Team, e: Event)
    requires Enabled(c, t, e) && Full(c, t) && t.tasks != [] && t.finalJob.None?
    ensures var n := Next(c, t, e); Full(c, n) && n.tasks != [] && n.finalJob.None? && |n.jobs| == |t.jobs|
    ensures !e.Report? && !e.Close? && !e.Assign?
  {
    hide DependenciesCompleted, Eligible, IsBusy, AllEnded, AllIdle, WithinTeamLimit;
  }

  /** A report is still possible. */
  ghost predicate CanStillReport(c: Config, t: Team) {
    exists run :: Feasible(c, t, run) && Report in run
  }

  /** An active team that has wound down and owes its report can still make it if and only if the session has
      room for one more job now. */
  lemma ReportsExactlyWhen(c: Config, t: Team)
    requires Sound(c, t) && t.status.Active? && Wound(t) && t.tasks != [] && t.finalJob.None?
    ensures CanStillReport(c, t) <==> !Full(c, t)
  {
    hide Sound, Feasible, After;
    if Full(c, t) {
      forall run | Feasible(c, t, run)
        ensures Report !in run
      {
        FullSessionBlocksTheReport(c, t, run);
      }
    } else {
      ReportFollows(c, t);
    }
  }

  lemma ReportFollows(c: Config, t: Team)
    requires Sound(c, t) && t.status.Active? && Wound(t) && t.tasks != [] && t.finalJob.None? && !Full(c, t)
    ensures CanStillReport(c, t)
  {
    FinalReportIsAffordable(c, t);
    hide Sound, WithinTeamLimit, AllEnded, AllIdle;
    var listed := Next(c, t, List);
    NoStep(c, Next(c, listed, Report));
    StepThen(c, listed, Report, []);
    StepThen(c, t, List, [Report] + []);
    assert ([List] + ([Report] + []))[1] == Report;
  }

  function Reports(run: seq<Event>): nat {
    if run == [] then 0 else (if run[0].Report? then 1 else 0) + Reports(run[1..])
  }

  /** At most one final report job is ever made. */
  lemma {:induction false} ReportedAtMostOnce(c: Config, t: Team, run: seq<Event>)
    requires Feasible(c, t, run)
    ensures Reports(run) <= 1
    ensures t.finalJob.Some? ==> Reports(run) == 0 && After(c, t, run).finalJob == t.finalJob
    decreases |run|
  {
    if run != [] {
      ReportedAtMostOnce(c, Next(c, t, run[0]), run[1..]);
    }
  }

  /** A pending task below a failed or cancelled one. */
  predicate Doomed(t: Team, i: nat) {
    && i < |t.tasks| && t.tasks[i].status.Pending?
    && exists d ::
         d in t.tasks[i].depends && d < |t.tasks| && t.tasks[d].status.Ended() && !t.tasks[d].status.Completed?
  }

  lemma DoomedStays(c: Config, t: Team, e: Event, i: nat)
    requires Sound(c, t) && Enabled(c, t, e) && Doomed(t, i) && !e.CancelTeam?
    ensures Doomed(Next(c, t, e), i) && !e.Report? && !e.Close?
  {
    hide JobsSound, AllocationSound, CanCreateJob, IsBusy, Eligible;
    var n := Next(c, t, e);
    StepIsForward(c, t, e);
    var d :| d in t.tasks[i].depends && d < |t.tasks| && t.tasks[d].status.Ended() && !t.tasks[d].status.Completed?;
    assert BindingSound(t, i) && Forward(t.tasks[d], n.tasks[d]) && Forward(t.tasks[i], n.tasks[i]);
    assert d in n.tasks[i].depends;
  }

  /** Unless the team is cancelled, such a task stays pending for ever, and with it the team: no final
      report is made and the team is never closed. */
  lemma {:induction false} DoomedTaskBlocksTheReport(c: Config, t: Team, run: seq<Event>, i: nat)
    requires Sound(c, t) && Feasible(c, t, run) && Doomed(t, i) && CancelTeam !in run
    ensures Doomed(After(c, t, run), i) && After(c, t, run).finalJob == t.finalJob
    ensures Reports(run) == 0 && Close !in run
    decreases |run|
  {
    hide Sound, Doomed;
    if run != [] {
      assert run == [run[0]] + run[1..];
      DoomedStays(c, t, run[0], i);
      NextKeepsSound(c, t, run[0]);
      DoomedTaskBlocksTheReport(c, Next(c, t, run[0]), run[1..], i);
    }
  }

  /** A task whose job was cancelled and has no worker. */
  predicate Orphaned(t: Team, i: nat) {
    && i < |t.tasks| && t.tasks[i].status.Running? && t.tasks[i].job.Some? && t.tasks[i].job.value < |t.jobs|
    && t.jobs[t.tasks[i].job.value].status.Cancelled? && !t.jobs[t.tasks[i].job.value].working
  }

  /** Exactly how a running task comes to be orphaned: its job is cancelled while no worker runs it, or its job
      is already cancelled and the worker goes away without a final status, whether it ends interrupted or
      waiting for the user, goes away without writing, or is stopped with the process. */
  lemma OrphanedExactlyWhen(c: Config, t: Team, e: Event, i: nat, k: nat)
    requires Sound(c, t) && Enabled(c, t, e) && i < |t.tasks| && t.tasks[i].status.Running?
    requires t.tasks[i].job == Some(k) && k < |t.jobs| && !Orphaned(t, i)
    ensures Orphaned(Next(c, t, e), i) <==>
      || (e == CancelJob(k) && !t.jobs[k].working)
      || (t.jobs[k].status.Cancelled?
          && (e.Restart? || e == Lose(k) || (e.Settle? && e.job == k && !e.status.Ended())))
  {
    hide AllocationSound, Exclusive, DependenciesCompleted, CanCreateJob, IsBusy, Eligible, OwnersSound;
    assert BindingSound(t, i) && JobSound(c, t, k);
  }

  lemma OrphanStays(c: Config, t: Team, e: Event, i: nat)
    requires Sound(c, t) && Enabled(c, t, e) && Orphaned(t, i)
    ensures Orphaned(Next(c, t, e), i) && !e.Report? && !e.Close?
  {
    hide AllocationSound, CanCreateJob, IsBusy, Eligible, Exclusive, DependenciesCompleted;
    assert BindingSound(t, i) && TaskSound(t, i);
  }

  /** An orphaned task runs for ever, cancelled team or not: no final report is made and the team is never
      closed. */
  lemma {:induction false} OrphanedTaskBlocksTheTeam(c: Config, t: Team, run: seq<Event>, i: nat)
    requires Sound(c, t) && Feasible(c, t, run) && Orphaned(t, i)
    ensures Orphaned(After(c, t, run), i) && Reports(run) == 0 && Close !in run
    decreases |run|
  {
    hide Sound, Orphaned;
    if run != [] {
      assert run == [run[0]] + run[1..];
      OrphanStays(c, t, run[0], i);
      NextKeepsSound(c, t, run[0]);
      OrphanedTaskBlocksTheTeam(c, Next(c, t, run[0]), run[1..], i);
    }
  }

  lemma NoStep(c: Config, t: Team)
    ensures Feasible(c, t, []) && After(c, t, []) == t
  {
  }

  lemma StepThen(c: Config, t: Team, e: Event, rest: seq<Event>)
    requires Enabled(c, t, e) && Feasible(c, Next(c, t, e), rest)
    ensures Feasible(c, t, [e] + rest) && After(c, t, [e] + rest) == After(c, Next(c, t, e), rest)
  {
    hide Enabled, Next;
    assert ([e] + rest)[1..] == rest;
  }

  // ---------------------------------------------------------------- teams that cannot wind down

  /** The first task that has not ended, if there is one. */
  lemma {:induction false} FirstUnended(tasks: seq<Task>, n: nat) returns (i: nat)
    requires n <= |tasks| && exists k :: 0 <= k < n && !tasks[k].status.Ended()
    ensures i < n && !tasks[i].status.Ended() && forall k | 0 <= k < i :: tasks[k].status.Ended()
  {
    if k :| 0 <= k < n - 1 && !tasks[k].status.Ended() {
      i := FirstUnended(tasks, n - 1);
    } else {
      i := n - 1;
    }
  }

  predicate NobodyWorks(jobs: seq<Job>) {
    forall k | 0 <= k < |jobs| :: !jobs[k].working
  }

  lemma IdleRunningIsOrphaned(c: Config, t: Team, i: nat)
    requires Sound(c, t) && AllIdle(t.jobs) && NobodyWorks(t.jobs) && i < |t.tasks| && t.tasks[i].status.Running?
    ensures Orphaned(t, i)
  {
    hide AllocationSound, Exclusive, DependenciesCompleted, OwnersSound;
    assert BindingSound(t, i);
  }

  lemma IdlePendingIsDoomed(c: Config, t: Team, i: nat)
    requires Sound(c, t) && t.status.Active? && c.members >= 2 && AllIdle(t.jobs) && i < |t.tasks|
    requires NothingClaimable(c, t, |t.tasks|) && t.tasks[i].status.Pending?
    requires forall k | 0 <= k < i :: t.tasks[k].status.Ended()
    ensures Doomed(t, i)
  {
    hide AllocationSound, JobsSound, BindingSound;
    var task := t.tasks[i];
    assert TaskSound(t, i);
    var m := if task.owner.Some? then task.owner.value else if c.leader == 0 then 1 else 0;
    assert Eligible(c, task, m) && !IsBusy(t.jobs, m) && !Claimable(c, t, i, m);
    var d :| d in task.depends && !(d < |t.tasks| && t.tasks[d].status.Completed?);
    assert d < i && t.tasks[d].status.Ended();
  }

  /** An active team whose jobs have all ended, with no worker and nothing left to give out, has wound down if
      and only if no task is doomed and none is orphaned. */
  lemma WindsDownExactlyWhen(c: Config, t: Team)
    requires Sound(c, t) && t.status.Active? && c.members >= 2 && AllIdle(t.jobs) && NobodyWorks(t.jobs)
    requires NothingClaimable(c, t, |t.tasks|)
    ensures Wound(t) <==> forall i | 0 <= i < |t.tasks| :: !Doomed(t, i) && !Orphaned(t, i)
  {
    hide Sound, NothingClaimable;
    HasJobs(c, t);
    if !AllEnded(t.tasks) {
      var i := FirstUnended(t.tasks, |t.tasks|);
      StatusOfTask(c, t, i);
      if t.tasks[i].status.Running? {
        IdleRunningIsOrphaned(c, t, i);
      } else {
        IdlePendingIsDoomed(c, t, i);
      }
    }
  }

  lemma HasJobs(c: Config, t: Team)
    requires Sound(c, t)
    ensures t.jobs != []
  {
  }

  lemma StatusOfTask(c: Config, t: Team, i: nat)
    requires Sound(c, t) && i < |t.tasks|
    ensures t.tasks[i].status.Pending? || t.tasks[i].status.Running? || t.tasks[i].status.Ended()
  {
    assert TaskSound(t, i);
  }

  // ---------------------------------------------------------------- cases

  /** Two tasks, the second depending on the first, which is given out and fails; in the other variant its
      job is cancelled before a worker takes it. */
  function CaseEvent(member: nat, k: nat): Event
    requires k < 6
  {
    match k
    case 0 => CreateTask([], None)
    case 1 => CreateTask([0], None)
    case 2 => List
    case 3 => Assign(0, member)
    case 4 => Dispatch(1)
    case _ => Settle(1, Failed)
  }

  function CaseState(c: Config, member: nat, k: nat): Team
    requires k <= 6
  {
    var lead := Job(c.leader, None, Queued, c.budget, false);
    var first, second := Task([], None, Pending, 1, None), Task([0], None, Pending, 1, None);
    var given := Task([], Some(member), Running, 2, Some(1));
    match k
    case 0 => Team(Active, [], [lead], None, 0, false)
    case 1 => Team(Active, [first], [lead], None, 0, false)
    case 2 => Team(Active, [first, second], [lead], None, 0, false)
    case 3 => Team(Active, [first, second], [lead], None, 0, true)
    case 4 => Team(Active, [given, second], [lead, Job(member, Some(0), Queued, c.budget, false)], None, 0, true)
    case 5 => Team(Active, [given, second], [lead, Job(member, Some(0), Running, c.budget, true)], None, 0, true)
    case _ =>
      Team(Active, [given.(status := Failed, version := 3), second],
        [lead, Job(member, Some(0), Failed, c.budget, false)], None, 0, true)
  }

  function CaseRun(member: nat, k: nat, n: nat): seq<Event>
    requires k <= n <= 6
    decreases n - k
  {
    if k == n then [] else [CaseEvent(member, k)] + CaseRun(member, k + 1, n)
  }

  /** A configuration with room for a task job and a member besides the leader. */
  predicate Roomy(c: Config, member: nat) {
    c.leader < c.members && member < c.members && member != c.leader && 3 * c.budget <= c.teamLimit && c.maxJobs >= 2
  }

  lemma CaseBegins(c: Config, member: nat)
    requires Roomy(c, member)
    ensures Founded(c, 0) == Some(CaseState(c, member, 0)) && Sound(c, CaseState(c, member, 0))
  {
    assert Reserved([]) == 0;
    FoundedIsSound(c, 0);
  }

  lemma CaseClaim(c: Config, member: nat)
    requires Roomy(c, member)
    ensures Enabled(c, CaseState(c, member, 3), Assign(0, member))
  {
    hide Reserved, CaseEvent;
    var t := CaseState(c, member, 3);
    ReservedOne(t.jobs[0]);
    assert t.jobs == [t.jobs[0]] && t.tasks[0].depends == [];
    assert !IsBusy(t.jobs, member);
    assert Claimable(c, t, 0, member);
  }

  lemma ReservedOne(job: Job)
    ensures Reserved([job]) == job.budget
  {
    assert [job][..0] == [] && Reserved([]) == 0;
  }

  lemma CaseStep(c: Config, member: nat, k: nat)
    requires Roomy(c, member) && k < 6
    ensures Enabled(c, CaseState(c, member, k), CaseEvent(member, k))
    ensures Next(c, CaseState(c, member, k), CaseEvent(member, k)) == CaseState(c, member, k + 1)
  {
    hide Claimable, CanCreateJob;
    if k == 3 {
      CaseClaim(c, member);
    }
  }

  lemma {:induction false} CaseIsFeasible(c: Config, member: nat, k: nat, n: nat)
    requires Roomy(c, member) && k <= n <= 6
    ensures Feasible(c, CaseState(c, member, k), CaseRun(member, k, n))
    ensures After(c, CaseState(c, member, k), CaseRun(member, k, n)) == CaseState(c, member, n)
    decreases n - k
  {
    hide Enabled, Next, CaseState, CaseEvent, Roomy;
    if k == n {
      NoStep(c, CaseState(c, member, n));
    } else {
      CaseIsFeasible(c, member, k + 1, n);
      CaseStep(c, member, k);
      StepThen(c, CaseState(c, member, k), CaseEvent(member, k), CaseRun(member, k + 1, n));
    }
  }

  /** A failed task dooms the task that depends on it. */
  lemma FailedTaskDoomsItsTeam(c: Config, member: nat)
    requires Roomy(c, member)
    ensures Founded(c, 0).Some? && Feasible(c, Founded(c, 0).value, CaseRun(member, 0, 6))
    ensures Doomed(After(c, Founded(c, 0).value, CaseRun(member, 0, 6)), 1)
  {
    hide Feasible, After, CaseRun;
    CaseBegins(c, member);
    CaseIsFeasible(c, member, 0, 6);
    var t := CaseState(c, member, 6);
    assert 0 in t.tasks[1].depends;
  }

  /** A job cancelled before a worker takes it orphans its task. */
  lemma CancelledJobStrandsItsTeam(c: Config, member: nat)
    requires Roomy(c, member)
    ensures Founded(c, 0).Some? && Feasible(c, Founded(c, 0).value, CaseRun(member, 0, 4))
    ensures var t := After(c, Founded(c, 0).value, CaseRun(member, 0, 4));
      Enabled(c, t, CancelJob(1)) && Orphaned(Next(c, t, CancelJob(1)), 0)
  {
    hide Feasible, After, CaseRun;
    CaseBegins(c, member);
    CaseIsFeasible(c, member, 0, 4);
  }

  /** One task, given out and completed; the leader's job is cancelled; then the session fills up. */
  function FullEvent(c: Config, member: nat, k: nat): Event
    requires k < 7
  {
    match k
    case 0 => CreateTask([], None)
    case 1 => List
    case 2 => Assign(0, member)
    case 3 => Dispatch(1)
    case 4 => Settle(1, Completed)
    case 5 => CancelJob(0)
    case _ => Elsewhere(c.maxJobs)
  }

  function FullState(c: Config, member: nat, k: nat): Team
    requires k <= 7
  {
    var lead := Job(c.leader, None, Queued, c.budget, false);
    var task := Task([], None, Pending, 1, None);
    var given := Task([], Some(member), Running, 2, Some(1));
    var job := Job(member, Some(0), Queued, c.budget, false);
    var done, finished := given.(status := Completed, version := 3), job.(status := Completed);
    match k
    case 0 => Team(Active, [], [lead], None, 0, false)
    case 1 => Team(Active, [task], [lead], None, 0, false)
    case 2 => Team(Active, [task], [lead], None, 0, true)
    case 3 => Team(Active, [given], [lead, job], None, 0, true)
    case 4 => Team(Active, [given], [lead, job.(status := Running, working := true)], None, 0, true)
    case 5 => Team(Active, [done], [lead, finished], None, 0, true)
    case 6 => Team(Active, [done], [lead.(status := Cancelled), finished], None, 0, true)
    case _ => Team(Active, [done], [lead.(status := Cancelled), finished], None, c.maxJobs, true)
  }

  function FullRun(c: Config, member: nat, k: nat): seq<Event>
    requires k <= 7
    decreases 7 - k
  {
    if k == 7 then [] else [FullEvent(c, member, k)] + FullRun(c, member, k + 1)
  }

  lemma FullClaim(c: Config, member: nat)
    requires Roomy(c, member)
    ensures Enabled(c, FullState(c, member, 2), Assign(0, member))
  {
    hide Reserved, FullEvent;
    var t := FullState(c, member, 2);
    ReservedOne(t.jobs[0]);
    assert t.jobs == [t.jobs[0]] && t.tasks[0].depends == [];
    assert !IsBusy(t.jobs, member);
    assert Claimable(c, t, 0, member);
  }

  lemma FullCaseStep(c: Config, member: nat, k: nat)
    requires Roomy(c, member) && k < 7
    ensures Enabled(c, FullState(c, member, k), FullEvent(c, member, k))
    ensures Next(c, FullState(c, member, k), FullEvent(c, member, k)) == FullState(c, member, k + 1)
  {
    hide Claimable, CanCreateJob;
    if k == 2 {
      FullClaim(c, member);
    }
  }

  lemma {:induction false} FullIsFeasible(c: Config, member: nat, k: nat)
    requires Roomy(c, member) && k <= 7
    ensures Feasible(c, FullState(c, member, k), FullRun(c, member, k))
    ensures After(c, FullState(c, member, k), FullRun(c, member, k)) == FullState(c, member, 7)
    decreases 7 - k
  {
    hide Enabled, Next, FullState, FullEvent, Roomy;
    if k == 7 {
      NoStep(c, FullState(c, member, 7));
    } else {
      FullIsFeasible(c, member, k + 1);
      FullCaseStep(c, member, k);
      StepThen(c, FullState(c, member, k), FullEvent(c, member, k), FullRun(c, member, k + 1));
    }
  }

  /** A session that fills up while a team works refuses the team its report. */
  lemma FullSessionStrandsATeam(c: Config, member: nat)
    requires Roomy(c, member)
    ensures Founded(c, 0).Some? && Feasible(c, Founded(c, 0).value, FullRun(c, member, 0))
    ensures var t := After(c, Founded(c, 0).value, FullRun(c, member, 0)); t.status.Active? && ReportRefused(c, t)
  {
    hide Feasible, After, FullRun;
    assert Reserved([]) == 0;
    FullIsFeasible(c, member, 0);
  }

  // ---------------------------------------------------------------- cancelled teams

  /** A cancelled team can leave that status at the next step if and only if a pass that listed it as active is
      still under way and finds it wound down with nothing more to report. */
  lemma CancelledMayBeReclosed(c: Config, t: Team)
    requires t.status.Cancelled?
    ensures (exists e :: Enabled(c, t, e) && !Next(c, t, e).status.Cancelled?) <==> t.listed && Closable(t)
  {
    hide CanCreateJob, DependenciesCompleted, IsBusy, Eligible, Wound;
    if t.listed && Closable(t) {
      assert Enabled(c, t, Close) && !Next(c, t, Close).status.Cancelled?;
    }
  }

  /** A cancelled team that no pass holds stays cancelled whatever happens. */
  lemma {:induction false} CancelledStaysCancelled(c: Config, t: Team, run: seq<Event>)
    requires t.status.Cancelled? && !t.listed && Feasible(c, t, run)
    ensures After(c, t, run).status.Cancelled? && !After(c, t, run).listed
    decreases |run|
  {
    hide CanCreateJob, DependenciesCompleted, IsBusy, Eligible, Wound;
    if run != [] {
      CancelledStaysCancelled(c, Next(c, t, run[0]), run[1..]);
    }
  }

  /** The smallest case: a pass lists a new team, which is then cancelled and its only job with it; the pass
      closes the team. */
  lemma CancelledTeamIsReclosed(c: Config)
    requires c.leader < c.members && c.budget <= c.teamLimit && c.maxJobs >= 1
    ensures Founded(c, 0).Some?
    ensures var run := [List] + ([CancelTeam] + ([CancelJob(0)] + ([Close] + [])));
      Feasible(c, Founded(c, 0).value, run) && After(c, Founded(c, 0).value, run).status.Failed?
  {
    hide Feasible, After;
    assert Reserved([]) == 0;
    var t0 := Founded(c, 0).value;
    var t1 := Next(c, t0, List);
    var t2 := Next(c, t1, CancelTeam);
    var t3 := Next(c, t2, CancelJob(0));
    assert t3.jobs == [Job(c.leader, None, Cancelled, c.budget, false)] && t3.tasks == [] && t3.listed;
    assert Wound(t3) && !t3.jobs[0].status.Completed?;
    var t4 := Next(c, t3, Close);
    NoStep(c, t4);
    StepThen(c, t3, Close, []);
    StepThen(c, t2, CancelJob(0), [Close] + []);
    StepThen(c, t1, CancelTeam, [CancelJob(0)] + ([Close] + []));
    StepThen(c, t0, List, [CancelTeam] + ([CancelJob(0)] + ([Close] + [])));
  }

  lemma LastStep(c: Config, t: Team, e: Event)
    requires Enabled(c, t, e)
    ensures Feasible(c, t, [e]) && After(c, t, [e]) == Next(c, t, e)
  {
    assert [e][1..] == [];
  }

  // ---------------------------------------------------------------- the scheduler

  lemma {:induction false} RunAppend(c: Config, t: Team, run: seq<Event>, e: Event)
    requires Feasible(c, t, run) && Enabled(c, After(c, t, run), e)
    ensures Feasible(c, t, run + [e]) && After(c, t, run + [e]) == Next(c, After(c, t, run), e)
    decreases |run|
  {
    hide Next, Enabled;
    if run == [] {
      LastStep(c, t, e);
      assert run + [e] == [e];
    } else {
      RunAppend(c, Next(c, t, run[0]), run[1..], e);
      assert (run + [e])[1..] == run[1..] + [e];
    }
  }

  function BusyMembers(jobs: seq<Job>): (r: set<nat>)
    ensures forall m :: m in r <==> IsBusy(jobs, m)
  {
    if jobs == [] then {}
    else
      var n := |jobs| - 1;
      assert forall m :: IsBusy(jobs, m) <==>
        IsBusy(jobs[..n], m) || (!jobs[n].status.Ended() && jobs[n].member == m);
      BusyMembers(jobs[..n]) + (if jobs[n].status.Ended() then {} else {jobs[n].member})
  }

  /** The first member eligible for a task and not busy. */
  function FirstFree(c: Config, task: Task, busy: set<nat>, from: nat := 0): (r: Option<nat>)
    requires from <= c.members
    ensures r.Some? ==> Eligible(c, task, r.value) && r.value !in busy
    ensures r.None? ==> forall m | from <= m < c.members :: !Eligible(c, task, m) || m in busy
    decreases c.members - from
  {
    if from == c.members then None
    else if Eligible(c, task, from) && from !in busy then Some(from)
    else FirstFree(c, task, busy, from + 1)
  }

  predicate NothingClaimable(c: Config, t: Team, upTo: nat) {
    forall i, m | 0 <= i < upTo && 0 <= m < c.members :: !Claimable(c, t, i, m)
  }

  lemma VisitDecides(c: Config, t: Team, i: nat)
    requires i < |t.tasks|
    ensures var member := FirstFree(c, t.tasks[i], BusyMembers(t.jobs));
      if t.tasks[i].status.Pending? && DependenciesCompleted(t, t.tasks[i]) && member.Some? && t.status.Active?
      then Claimable(c, t, i, member.value)
      else forall m | 0 <= m < c.members :: !Claimable(c, t, i, m)
  {
    hide Eligible, DependenciesCompleted;
  }

  /** Giving a task away makes no other task claimable. */
  lemma AssignedIsUnclaimable(c: Config, t: Team, i: nat, m: nat)
    requires Enabled(c, t, Assign(i, m)) && NothingClaimable(c, t, i)
    ensures NothingClaimable(c, Next(c, t, Assign(i, m)), i + 1)
    ensures BusyMembers(Next(c, t, Assign(i, m)).jobs) == BusyMembers(t.jobs) + {m}
  {
    hide CanCreateJob;
    var n := Next(c, t, Assign(i, m));
    assert n.jobs[..|t.jobs|] == t.jobs;
    forall j, l | 0 <= j < i + 1 && 0 <= l < c.members
      ensures !Claimable(c, n, j, l)
    {
      assert j < i ==> !Claimable(c, t, j, l) && n.tasks[j] == t.tasks[j];
      assert forall d | 0 <= d < |n.tasks| :: n.tasks[d].status.Completed? ==> t.tasks[d].status.Completed?;
      assert IsBusy(t.jobs, l) ==> l in BusyMembers(n.jobs);
    }
  }

  lemma StartedWasNotEnded(s: Team, t: Team, i: nat)
    requires BoardForward(s, t) && i < |s.tasks| && t.tasks[i].status.Pending?
    ensures !AllEnded(s.tasks)
  {
    assert Forward(s.tasks[i], t.tasks[i]);
  }

  lemma InactiveIsUnclaimable(c: Config, t: Team)
    requires !t.status.Active?
    ensures NothingClaimable(c, t, |t.tasks|)
  {
  }

  lemma WoundIsUnclaimable(c: Config, t: Team)
    requires AllEnded(t.tasks)
    ensures NothingClaimable(c, t, |t.tasks|)
  {
  }

  lemma NoneVisited(c: Config, t: Team)
    ensures NothingClaimable(c, t, 0)
  {
  }

  lemma NobodyBusy(jobs: seq<Job>)
    ensures BusyMembers(jobs) == {} <==> AllIdle(jobs)
  {
    if BusyMembers(jobs) == {} {
      forall k | 0 <= k < |jobs|
        ensures jobs[k].status.Ended()
      {
        assert jobs[k].member !in BusyMembers(jobs);
      }
    }
  }

  predicate SameBoard(t: Team, u: Team) {
    u.tasks == t.tasks && u.jobs == t.jobs && u.status == t.status && u.finalJob == t.finalJob
  }

  /** What is claimable depends on the board alone. */
  lemma SameBoardKeeps(c: Config, t: Team, u: Team)
    requires SameBoard(t, u) && NothingClaimable(c, t, |t.tasks|)
    ensures NothingClaimable(c, u, |u.tasks|)
  {
    hide DependenciesCompleted, Eligible, IsBusy;
    forall i, m | 0 <= i < |u.tasks| && 0 <= m < c.members
      ensures !Claimable(c, u, i, m)
    {
      assert !Claimable(c, t, i, m);
      SameDependencies(t, u, t.tasks[i]);
    }
  }

  lemma SameDependencies(t: Team, u: Team, task: Task)
    requires SameBoard(t, u)
    ensures DependenciesCompleted(u, task) <==> DependenciesCompleted(t, task)
  {
  }

  /** A wound-down team that owes its report and finds the session full. */
  predicate ReportRefused(c: Config, t: Team) {
    Wound(t) && !Closable(t) && !CanCreateJob(c, t, false)
  }

  /** The scan before task `i`: what was given out so far is `run`. */
  ghost predicate Scheduling(c: Config, t0: Team, t: Team, run: seq<Event>, i: nat) {
    && Feasible(c, t0, run) && t == After(c, t0, run) && |t.tasks| == |t0.tasks| && |t0.jobs| <= |t.jobs|
    && t.listed && NothingClaimable(c, t, i) && (run == [] ==> t == t0) && (run != [] ==> !AllEnded(t0.tasks))
    && Close !in run && Report !in run
  }

  /** Task `i` is ready and somebody is free to take it. */
  predicate Offered(c: Config, t: Team, i: nat, busy: set<nat>)
    requires i < |t.tasks|
  {
    && t.status.Active? && t.tasks[i].status.Pending? && DependenciesCompleted(t, t.tasks[i])
    && FirstFree(c, t.tasks[i], busy).Some?
  }

  /** Task `i` is given to the first free member, if it is ready and there is one; the team fails if its
      allocation has no room. */
  method OfferTask(c: Config, ghost t0: Team, t: Team, ghost run: seq<Event>, i: nat, busy: set<nat>)
    returns (next: Team, ghost more: seq<Event>, taken: set<nat>, failed: bool)
    requires Sound(c, t0) && Scheduling(c, t0, t, run, i) && i < |t.tasks| && busy == BusyMembers(t.jobs)
    ensures !Offered(c, t, i, busy) ==> next == t && taken == busy
    ensures failed <==> Offered(c, t, i, busy) && !CanCreateJob(c, t, true)
    ensures Offered(c, t, i, busy) && !failed ==>
      next == Given(c, t, i, FirstFree(c, t.tasks[i], busy).value) && taken == BusyMembers(next.jobs)
    ensures !failed ==> Scheduling(c, t0, next, more, i + 1) && taken == BusyMembers(next.jobs)
    ensures failed ==>
      && Feasible(c, t0, more) && next == After(c, t0, more) && !next.listed && NothingClaimable(c, next, |next.tasks|)
      && Close !in more && Report !in more && !AllEnded(t0.tasks) && |t0.jobs| <= |next.jobs|
  {
    hide Sound, Claimable, CanCreateJob, DependenciesCompleted, Eligible, IsBusy, NothingClaimable, BoardForward,
      Feasible, After, AllEnded, FirstFree;
    next, more, taken, failed := t, run, busy, false;
    VisitDecides(c, t, i);
    if !Offered(c, t, i, busy) {
      SkippedIsUnclaimable(c, t, i);
      return;
    }
    var m := FirstFree(c, t.tasks[i], busy).value;
    RunsAreForward(c, t0, run);
    StartedWasNotEnded(t0, t, i);
    if !CanCreateJob(c, t, true) {
      RunAppend(c, t0, run, Refuse(i, m));
      more, next, failed := run + [Refuse(i, m)], Next(c, t, Refuse(i, m)), true;
      InactiveIsUnclaimable(c, next);
      return;
    }
    AssignedIsUnclaimable(c, t, i, m);
    RunAppend(c, t0, run, Assign(i, m));
    more, next, taken := run + [Assign(i, m)], Given(c, t, i, m), busy + {m};
  }

  /** One scheduling transaction for a listed team.  It is a run of the steps above, so it keeps the team
      sound; it leaves no ready task that a free member could take; it closes or reports exactly a wound-down
      team; and it raises exactly when the report is refused, leaving the team as it was. */
  method Schedule(c: Config, t0: Team) returns (t: Team, raised: bool, ghost run: seq<Event>)
    requires Sound(c, t0) && t0.listed
    ensures Feasible(c, t0, run) && t == After(c, t0, run) && !t.listed
    ensures NothingClaimable(c, t, |t.tasks|)
    ensures Close in run || Report in run ==> Wound(t0) && |run| == 1
    ensures Closable(t0) ==> run == [Close]
    ensures Wound(t0) && !Closable(t0) && CanCreateJob(c, t0, false) ==> run == [Report]
    ensures (raised <==> ReportRefused(c, t0)) && (raised ==> run == [EndPass])
    ensures |t0.jobs| <= |t.jobs|
  {
    hide Sound, CanCreateJob, NothingClaimable, AllEnded, AllIdle, Feasible, After, BusyMembers;
    t, raised, run := t0, false, [];
    NoStep(c, t0);
    NoneVisited(c, t);
    var busy := BusyMembers(t.jobs);
    for i := 0 to |t0.tasks|
      invariant Scheduling(c, t0, t, run, i) && busy == BusyMembers(t.jobs)
    {
      var failed;
      t, run, busy, failed := OfferTask(c, t0, t, run, i, busy);
      if failed {
        return;
      }
    }
    NobodyBusy(t.jobs);
    if busy == {} && t0.jobs != [] && AllEnded(t0.tasks) {
      if t0.tasks == [] || t0.finalJob.Some? {
        LastStep(c, t0, Close);
        run, t := [Close], Next(c, t, Close);
        WoundIsUnclaimable(c, t);
        return;
      }
      if CanCreateJob(c, t, false) {
        LastStep(c, t0, Report);
        run, t := [Report], Next(c, t, Report);
        WoundIsUnclaimable(c, t);
        return;
      }
      raised := true;
    }
    SameBoardKeeps(c, t, t.(listed := false));
    RunAppend(c, t0, run, EndPass);
    run, t := run + [EndPass], Next(c, t, EndPass);
  }

  /** The jobs team `i` was given count against the other teams of its session. */
  function Shared(teams: seq<Team>, sessions: seq<nat>, i: nat, made: nat): (r: seq<Team>)
    requires |sessions| == |teams| && i < |teams|
    ensures |r| == |teams|
    ensures forall j | 0 <= j < |r| :: r[j] == teams[j].(elsewhere := r[j].elsewhere)
    ensures forall j | 0 <= j < |r| :: r[j].elsewhere >= teams[j].elsewhere && (j == i ==> r[j] == teams[j])
  {
    seq(|teams|, j requires 0 <= j < |teams| =>
      if j != i && sessions[j] == sessions[i] then teams[j].(elsewhere := teams[j].elsewhere + made) else teams[j])
  }

  function Unlisted(teams: seq<Team>): (r: seq<Team>)
    ensures |r| == |teams| && forall j | 0 <= j < |r| :: r[j] == teams[j].(listed := false)
  {
    seq(|teams|, j requires 0 <= j < |teams| => teams[j].(listed := false))
  }

  lemma RefusedStaysRefused(c: Config, t: Team, u: Team)
    requires ReportRefused(c, t) && SameBoard(t, u) && u.elsewhere >= t.elsewhere
    ensures ReportRefused(c, u)
  {
    hide Reserved;
  }

  ghost predicate Scheduled(c: Config, t: Team) {
    NothingClaimable(c, t, |t.tasks|)
  }

  lemma StayScheduled(cs: seq<Config>, before: seq<Team>, teams: seq<Team>, n: nat)
    requires |cs| == |before| == |teams| && n <= |teams|
    requires forall j | 0 <= j < n :: Scheduled(cs[j], before[j]) && SameBoard(before[j], teams[j])
    ensures forall j | 0 <= j < n :: Scheduled(cs[j], teams[j])
  {
    hide NothingClaimable;
    forall j | 0 <= j < n
      ensures Scheduled(cs[j], teams[j])
    {
      SameBoardKeeps(cs[j], before[j], teams[j]);
    }
  }

  lemma StaySound(cs: seq<Config>, before: seq<Team>, teams: seq<Team>, n: nat)
    requires |cs| == |before| == |teams|
    requires forall j | n <= j < |teams| ::
      Sound(cs[j], before[j]) && teams[j] == before[j].(elsewhere := teams[j].elsewhere)
    requires forall j | n <= j < |teams| :: teams[j].elsewhere >= before[j].elsewhere
    ensures forall j | n <= j < |teams| :: Sound(cs[j], teams[j])
  {
    hide Sound;
    forall j | n <= j < |teams|
      ensures Sound(cs[j], teams[j])
    {
      NextKeepsSound(cs[j], before[j], Elsewhere(teams[j].elsewhere));
    }
  }

  lemma NowScheduled(c: Config, t: Team)
    requires NothingClaimable(c, t, |t.tasks|)
    ensures Scheduled(c, t)
  {
  }

  /** A tick's scheduling pass over the teams it listed, of any sessions: it stops at the first team whose
      report is refused.  `stop` is that team's place, or the number of teams when none is; the teams from it on
      are left as they were, and the tick goes on to start jobs only when there is no such team. */
  method SchedulePass(cs: seq<Config>, sessions: seq<nat>, listed: seq<Team>)
    returns (teams: seq<Team>, stop: nat)
    requires |cs| == |sessions| == |listed|
    requires forall i | 0 <= i < |listed| :: Sound(cs[i], listed[i]) && listed[i].listed
    ensures |teams| == |listed| && stop <= |teams|
    ensures stop < |teams| ==> ReportRefused(cs[stop], teams[stop])
    ensures forall i | 0 <= i < |listed| && ReportRefused(cs[i], listed[i]) :: stop <= i
    ensures forall i | stop <= i < |teams| :: SameBoard(listed[i], teams[i])
    ensures forall i | 0 <= i < stop :: Scheduled(cs[i], teams[i])
  {
    hide Sound, Scheduled, ReportRefused;
    teams, stop := listed, 0;
    while stop < |listed|
      invariant |teams| == |listed| && stop <= |teams|
      invariant forall j | stop <= j < |teams| ::
        && Sound(cs[j], teams[j]) && teams[j].listed
        && SameBoard(listed[j], teams[j]) && teams[j].elsewhere >= listed[j].elsewhere
      invariant forall j | 0 <= j < stop :: Scheduled(cs[j], teams[j]) && !ReportRefused(cs[j], listed[j])
    {
      ghost var before := teams;
      var t, raised, run := Schedule(cs[stop], teams[stop]);
      if raised {
        teams := Unlisted(teams);
        RefusedStaysRefused(cs[stop], before[stop], teams[stop]);
        StayScheduled(cs, before, teams, stop);
        return;
      }
      if ReportRefused(cs[stop], listed[stop]) {
        RefusedStaysRefused(cs[stop], listed[stop], teams[stop]);
      }
      teams := Shared(teams[stop := t], sessions, stop, |t.jobs| - |teams[stop].jobs|);
      StayScheduled(cs, before, teams, stop);
      StaySound(cs, before, teams, stop + 1);
      NowScheduled(cs[stop], t);
      stop := stop + 1;
    }
  }

  lemma SkippedIsUnclaimable(c: Config, t: Team, i: nat)
    requires NothingClaimable(c, t, i) && forall m | 0 <= m < c.members :: !Claimable(c, t, i, m)
    ensures NothingClaimable(c, t, i + 1)
  {
  }

  /** Every team is sound from its foundation on. */
  lemma EveryTeamIsSound(c: Config, elsewhere: nat, run: seq<Event>)
    requires c.leader < c.members && Founded(c, elsewhere).Some? && Feasible(c, Founded(c, elsewhere).value, run)
    ensures Sound(c, After(c, Founded(c, elsewhere).value, run))
  {
    hide Sound, Feasible, After;
    FoundedIsSound(c, elsewhere);
    EveryReachableTeamIsSound(c, Founded(c, elsewhere).value, run);
  }
}
