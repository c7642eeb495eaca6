/** The job dispatcher as interleaved steps: ticks, cancellations and workers read a job, do something
    else, and then write it back only if its version has not moved. */
module Dispatcher {
  import opened Lifecycle

  datatype Row = Row(status: Status, version: nat, attempt: nat)

  /** A worker is registered, runs, and has written its result; it then only has to leave the table of
      workers.  One that is cancelled before its first step is lost: it never runs and never leaves. */
  datatype Phase = Registered | Working | Done | Lost

  datatype Worker = Worker(job: nat, phase: Phase) {
    predicate Live() {
      phase.Registered? || phase.Working?
    }
  }

  /** Where the one running tick stands: it has read a job, or marked it as running but not yet
      registered its worker. */
  datatype Tick = Idle | Chosen(job: nat, version: nat) | Marked(job: nat)

  /** A cancellation that has read its job and not yet written it. */
  datatype Cancellation = Cancellation(job: nat, version: nat)

  datatype Service = Service(jobs: seq<Row>, workers: seq<Worker>, tick: Tick, cancels: seq<Cancellation>)

  datatype Event =
    | Create
    | Choose(job: nat)
    | Skip
    | Mark
    | Register
    | ReadCancel(job: nat)
    | WriteCancel(cancel: nat)
    | Enter(worker: nat)
    | Lose(worker: nat)
    | Finish(worker: nat, status: Status)
    | Leave(worker: nat)
    | Touch(job: nat)
    | Restart

  predicate HasWorker(workers: seq<Worker>, job: nat) {
    exists w | 0 <= w < |workers| :: workers[w].job == job
  }

  predicate Enabled(maxWorkers: nat, s: Service, e: Event) {
    match e
    case Create => true
    case Choose(j) =>
      && s.tick.Idle? && j < |s.jobs| && !HasWorker(s.workers, j) && |s.workers| < maxWorkers
      && s.jobs[j].status.Dispatchable()
    case Skip => s.tick.Chosen?
    case Mark => s.tick.Chosen? && s.tick.job < |s.jobs|
    case Register => s.tick.Marked?
    case ReadCancel(j) => j < |s.jobs| && !s.jobs[j].status.Ended()
    case WriteCancel(k) => k < |s.cancels| && s.cancels[k].job < |s.jobs|
    case Enter(w) => w < |s.workers| && s.workers[w].phase.Registered?
    case Lose(w) =>
      && w < |s.workers| && s.workers[w].phase.Registered?
      && s.workers[w].job < |s.jobs| && s.jobs[s.workers[w].job].status.Cancelled?
    case Finish(w, status) =>
      && w < |s.workers| && s.workers[w].phase.Working? && s.workers[w].job < |s.jobs|
      && (status.Ended() || status.AwaitingUser? || status.Interrupted?)
    case Leave(w) => w < |s.workers| && (s.workers[w].phase.Working? || s.workers[w].phase.Done?)
    case Touch(j) => j < |s.jobs|
    case Restart => true
  }

  /** A compare-and-swap write of a job's status. */
  function Written(s: Service, j: nat, status: Status): seq<Row>
    requires j < |s.jobs|
  {
    s.jobs[j := s.jobs[j].(status := status, version := s.jobs[j].version + 1)]
  }

  function Next(maxWorkers: nat, s: Service, e: Event): Service
    requires Enabled(maxWorkers, s, e)
  {
    match e
    case Create => s.(jobs := s.jobs + [Row(Queued, 1, 0)])
    case Choose(j) => s.(tick := Chosen(j, s.jobs[j].version))
    case Skip => s.(tick := Idle)
    case Mark =>
      var j := s.tick.job;
      var row := s.jobs[j];
      if row.status.Dispatchable() && row.version == s.tick.version
      then s.(jobs := s.jobs[j := Row(Running, row.version + 1, row.attempt + 1)], tick := Marked(j))
      else s.(tick := Idle)
    case Register => s.(workers := s.workers + [Worker(s.tick.job, Registered)], tick := Idle)
    case ReadCancel(j) => s.(cancels := s.cancels + [Cancellation(j, s.jobs[j].version)])
    case WriteCancel(k) =>
      var c := s.cancels[k];
      var rest := s.cancels[..k] + s.cancels[k + 1..];
      if s.jobs[c.job].version == c.version
      then s.(jobs := Written(s, c.job, Cancelled), cancels := rest)
      else s.(cancels := rest)
    case Enter(w) => s.(workers := s.workers[w := s.workers[w].(phase := Working)])
    case Lose(w) => s.(workers := s.workers[w := s.workers[w].(phase := Lost)])
    case Finish(w, status) =>
      var j := s.workers[w].job;
      s.(jobs := if s.jobs[j].status.Cancelled? then s.jobs else Written(s, j, status),
         workers := s.workers[w := Worker(j, Done)])
    case Leave(w) => s.(workers := s.workers[..w] + s.workers[w + 1..])
    case Touch(j) => s.(jobs := Written(s, j, s.jobs[j].status))
    case Restart => s.(workers := [], tick := Idle, cancels := [])
  }

  // ---------------------------------------------------------------- invariant

  /** No job has two workers. */
  predicate OnePerJob(s: Service) {
    && (forall v, w | 0 <= v < w < |s.workers| :: s.workers[v].job != s.workers[w].job)
    && (forall w | 0 <= w < |s.workers| :: s.workers[w].job < |s.jobs|)
  }

  predicate WorkersSafe(s: Service) {
    OnePerJob(s) && forall w | 0 <= w < |s.workers| :: WorkerSafe(s, s.workers[w])
  }

  /** A live worker is on a running or cancelled job, a lost one on a cancelled job. */
  predicate WorkerSafe(s: Service, worker: Worker) {
    && worker.job < |s.jobs| && (worker.Live() ==> Busy(s.jobs[worker.job].status))
    && (worker.phase.Lost? ==> s.jobs[worker.job].status.Cancelled?)
  }

  predicate Busy(status: Status) {
    status.Running? || status.Cancelled?
  }

  predicate TickSafe(maxWorkers: nat, s: Service) {
    s.tick.Idle?
    || ( && s.tick.job < |s.jobs| && !HasWorker(s.workers, s.tick.job) && |s.workers| < maxWorkers
         && (s.tick.Marked? ==> Busy(s.jobs[s.tick.job].status)))
  }

  /** A pending cancellation is void, or its job has not ended. */
  predicate CancelsSafe(s: Service) {
    forall k | 0 <= k < |s.cancels| ::
      && s.cancels[k].job < |s.jobs| && s.cancels[k].version <= s.jobs[s.cancels[k].job].version
      && (s.cancels[k].version == s.jobs[s.cancels[k].job].version ==> !s.jobs[s.cancels[k].job].status.Ended())
  }

  predicate Safe(maxWorkers: nat, s: Service) {
    |s.workers| <= maxWorkers && WorkersSafe(s) && TickSafe(maxWorkers, s) && CancelsSafe(s)
  }

  /** No step loses a job, lowers a version, changes a row without raising its version, or leaves an
      ended status. */
  predicate RowForward(was: Row, now: Row) {
    && was.version <= now.version && (now == was || was.version < now.version)
    && (was.status.Ended() ==> now.status == was.status) && was.attempt <= now.attempt
  }

  predicate Forward(s: Service, t: Service) {
    |s.jobs| <= |t.jobs| && forall j | 0 <= j < |s.jobs| :: RowForward(s.jobs[j], t.jobs[j])
  }

  lemma StepIsForward(maxWorkers: nat, s: Service, e: Event)
    requires Safe(maxWorkers, s) && Enabled(maxWorkers, s, e)
    ensures Forward(s, Next(maxWorkers, s, e))
  {
  }

  lemma StepKeepsOnePerJob(maxWorkers: nat, s: Service, e: Event)
    requires Safe(maxWorkers, s) && Enabled(maxWorkers, s, e)
    ensures |Next(maxWorkers, s, e).workers| <= maxWorkers && OnePerJob(Next(maxWorkers, s, e))
  {
    hide CancelsSafe, Busy, HasWorker;
    match e
    case Register => AddedWorkerIsAlone(s);
    case Leave(w) => RemovedLeavesOnePerJob(s, w);
    case _ =>
  }

  lemma AddedWorkerIsAlone(s: Service)
    requires OnePerJob(s) && s.tick.Marked? && s.tick.job < |s.jobs| && !HasWorker(s.workers, s.tick.job)
    ensures OnePerJob(s.(workers := s.workers + [Worker(s.tick.job, Registered)], tick := Idle))
  {
  }

  lemma RemovedLeavesOnePerJob(s: Service, w: nat)
    requires OnePerJob(s) && w < |s.workers|
    ensures OnePerJob(s.(workers := s.workers[..w] + s.workers[w + 1..]))
  {
    var ws, rest := s.workers, s.workers[..w] + s.workers[w + 1..];
    assert forall v | 0 <= v < |rest| :: rest[v] == ws[if v < w then v else v + 1];
  }

  lemma StepKeepsWorkers(maxWorkers: nat, s: Service, e: Event)
    requires Safe(maxWorkers, s) && Enabled(maxWorkers, s, e)
    ensures |Next(maxWorkers, s, e).workers| <= maxWorkers && WorkersSafe(Next(maxWorkers, s, e))
  {
    StepKeepsOnePerJob(maxWorkers, s, e);
    hide CancelsSafe, HasWorker, OnePerJob;
    var n := Next(maxWorkers, s, e);
    forall w | 0 <= w < |n.workers|
      ensures WorkerSafe(n, n.workers[w])
    {
      StepKeepsWorker(maxWorkers, s, e, w);
    }
  }

  /** Where a worker of the next state comes from. */
  lemma StepKeepsWorker(maxWorkers: nat, s: Service, e: Event, w: nat)
    requires Safe(maxWorkers, s) && Enabled(maxWorkers, s, e) && w < |Next(maxWorkers, s, e).workers|
    ensures WorkerSafe(Next(maxWorkers, s, e), Next(maxWorkers, s, e).workers[w])
  {
    hide CancelsSafe, HasWorker, WorkerSafe, Busy;
    var n := Next(maxWorkers, s, e);
    var v := if e.Leave? && w >= e.worker then w + 1 else w;
    if v == |s.workers| {
      NewWorkerIsSafe(maxWorkers, s);
    } else {
      assert WorkerSafe(s, s.workers[v]) && s.workers[v].job < |s.jobs|;
      if e.Finish? && e.worker == v {
        DoneIsSafe(n, v);
      } else {
        SafeStaysSafe(maxWorkers, s, e, v, n.workers[w]);
      }
    }
  }

  lemma NewWorkerIsSafe(maxWorkers: nat, s: Service)
    requires TickSafe(maxWorkers, s) && s.tick.Marked?
    ensures WorkerSafe(Next(maxWorkers, s, Register), Worker(s.tick.job, Registered))
  {
    hide HasWorker;
  }

  lemma DoneIsSafe(s: Service, w: nat)
    requires w < |s.workers| && s.workers[w].phase.Done? && s.workers[w].job < |s.jobs|
    ensures WorkerSafe(s, s.workers[w])
  {
  }

  lemma SafeStaysSafe(maxWorkers: nat, s: Service, e: Event, v: nat, worker: Worker)
    requires Safe(maxWorkers, s) && Enabled(maxWorkers, s, e) && v < |s.workers| && WorkerSafe(s, s.workers[v])
    requires !(e.Finish? && e.worker == v) && worker.job == s.workers[v].job < |s.jobs|
    requires worker == s.workers[v] || (e == Enter(v) && worker.phase.Working?) || (e == Lose(v) && worker.phase.Lost?)
    ensures WorkerSafe(Next(maxWorkers, s, e), worker)
  {
    hide CancelsSafe, HasWorker;
    if e.Finish? {
      assert s.workers[e.worker].job != worker.job by { OthersJob(s, e.worker, v); }
    }
  }

  lemma OthersJob(s: Service, v: nat, w: nat)
    requires OnePerJob(s) && v < |s.workers| && w < |s.workers| && v != w
    ensures s.workers[v].job != s.workers[w].job
  {
  }

  lemma StepKeepsTick(maxWorkers: nat, s: Service, e: Event)
    requires Safe(maxWorkers, s) && Enabled(maxWorkers, s, e)
    ensures TickSafe(maxWorkers, Next(maxWorkers, s, e))
  {
  }

  lemma StepKeepsCancels(maxWorkers: nat, s: Service, e: Event)
    requires Safe(maxWorkers, s) && Enabled(maxWorkers, s, e)
    ensures CancelsSafe(Next(maxWorkers, s, e))
  {
  }

  // ---------------------------------------------------------------- interleavings

  predicate Feasible(maxWorkers: nat, s: Service, run: seq<Event>)
    decreases |run|
  {
    run == [] || (Enabled(maxWorkers, s, run[0]) && Feasible(maxWorkers, Next(maxWorkers, s, run[0]), run[1..]))
  }

  function After(maxWorkers: nat, s: Service, run: seq<Event>): Service
    requires Feasible(maxWorkers, s, run)
    decreases |run|
  {
    if run == [] then s else After(maxWorkers, Next(maxWorkers, s, run[0]), run[1..])
  }

  const NEW_SERVICE := Service([], [], Idle, [])

  lemma ForwardTrans(r: Service, s: Service, t: Service)
    requires Forward(r, s) && Forward(s, t)
    ensures Forward(r, t)
  {
    forall j | 0 <= j < |r.jobs|
      ensures RowForward(r.jobs[j], t.jobs[j])
    {
      assert RowForward(r.jobs[j], s.jobs[j]) && RowForward(s.jobs[j], t.jobs[j]);
    }
  }

  lemma ForwardRefl(s: Service)
    ensures Forward(s, s)
  {
  }

  /** Under every interleaving there are at most `maxWorkers` workers, no two for one job, every working
      one on a running or cancelled job; and an ended job keeps its status. */
  lemma {:induction false} EveryInterleavingIsSafe(maxWorkers: nat, s: Service, run: seq<Event>)
    requires Safe(maxWorkers, s) && Feasible(maxWorkers, s, run)
    ensures Safe(maxWorkers, After(maxWorkers, s, run))
    ensures Forward(s, After(maxWorkers, s, run))
    decreases |run|
  {
    hide Next, Enabled, Forward, WorkersSafe, TickSafe, CancelsSafe;
    if run == [] {
      ForwardRefl(s);
    } else {
      var next := Next(maxWorkers, s, run[0]);
      StepIsForward(maxWorkers, s, run[0]);
      StepKeepsWorkers(maxWorkers, s, run[0]);
      StepKeepsTick(maxWorkers, s, run[0]);
      StepKeepsCancels(maxWorkers, s, run[0]);
      EveryInterleavingIsSafe(maxWorkers, next, run[1..]);
      ForwardTrans(s, next, After(maxWorkers, s, run));
    }
  }

  function Registrations(run: seq<Event>, maxWorkers: nat, s: Service, job: nat): nat
    requires Feasible(maxWorkers, s, run)
    decreases |run|
  {
    if run == [] then 0
    else (if run[0].Register? && s.tick.job == job then 1 else 0)
         + Registrations(run[1..], maxWorkers, Next(maxWorkers, s, run[0]), job)
  }

  function Owed(s: Service, job: nat): nat {
    if s.tick == Marked(job) then 1 else 0
  }

  /** Without a restart, a job's attempt counter counts the workers it was given, and one more while it is
      marked and its worker not yet registered. */
  lemma {:induction false} AttemptsCountWorkers(maxWorkers: nat, s: Service, run: seq<Event>, job: nat)
    requires Feasible(maxWorkers, s, run) && Restart !in run && job < |s.jobs|
    ensures job < |After(maxWorkers, s, run).jobs|
    ensures After(maxWorkers, s, run).jobs[job].attempt + Owed(s, job)
         == s.jobs[job].attempt + Registrations(run, maxWorkers, s, job) + Owed(After(maxWorkers, s, run), job)
    decreases |run|
  {
    hide Next, Enabled, Owed;
    if run != [] {
      assert run == [run[0]] + run[1..];
      AttemptStep(maxWorkers, s, run[0], job);
      AttemptsCountWorkers(maxWorkers, Next(maxWorkers, s, run[0]), run[1..], job);
    }
  }

  lemma AttemptStep(maxWorkers: nat, s: Service, e: Event, job: nat)
    requires Enabled(maxWorkers, s, e) && !e.Restart? && job < |s.jobs|
    ensures var n := Next(maxWorkers, s, e);
      && job < |n.jobs| && (e.Register? ==> s.tick.Marked?)
      && n.jobs[job].attempt + Owed(s, job)
         == s.jobs[job].attempt + (if e.Register? && s.tick.job == job then 1 else 0) + Owed(n, job)
  {
    hide HasWorker;
  }

  lemma NewServiceIsSafe(maxWorkers: nat)
    ensures Safe(maxWorkers, NEW_SERVICE)
  {
  }

  lemma StepThen(maxWorkers: nat, s: Service, e: Event, rest: seq<Event>)
    requires Enabled(maxWorkers, s, e) && Feasible(maxWorkers, Next(maxWorkers, s, e), rest)
    ensures Feasible(maxWorkers, s, [e] + rest)
    ensures After(maxWorkers, s, [e] + rest) == After(maxWorkers, Next(maxWorkers, s, e), rest)
  {
    assert ([e] + rest)[1..] == rest;
  }

  lemma NoStep(maxWorkers: nat, s: Service)
    ensures Feasible(maxWorkers, s, []) && After(maxWorkers, s, []) == s
  {
  }

  function LateState(k: nat): Service
    requires k <= 6
  {
    match k
    case 0 => NEW_SERVICE
    case 1 => Service([Row(Queued, 1, 0)], [], Idle, [])
    case 2 => Service([Row(Queued, 1, 0)], [], Chosen(0, 1), [])
    case 3 => Service([Row(Running, 2, 1)], [], Marked(0), [])
    case 4 => Service([Row(Running, 2, 1)], [], Marked(0), [Cancellation(0, 2)])
    case 5 => Service([Row(Cancelled, 3, 1)], [], Marked(0), [])
    case _ => Service([Row(Cancelled, 3, 1)], [Worker(0, Registered)], Idle, [])
  }

  function LateEvent(k: nat): Event
    requires k < 6
  {
    match k
    case 0 => Create
    case 1 => Choose(0)
    case 2 => Mark
    case 3 => ReadCancel(0)
    case 4 => WriteCancel(0)
    case _ => Register
  }

  function LateRun(k: nat): seq<Event>
    requires k <= 6
    decreases 6 - k
  {
    if k == 6 then [] else [LateEvent(k)] + LateRun(k + 1)
  }

  lemma LateStep(maxWorkers: nat, k: nat)
    requires maxWorkers >= 1 && k < 6
    ensures Enabled(maxWorkers, LateState(k), LateEvent(k))
    ensures Next(maxWorkers, LateState(k), LateEvent(k)) == LateState(k + 1)
  {
  }

  lemma {:induction false} LateRunIsFeasible(maxWorkers: nat, k: nat)
    requires maxWorkers >= 1 && k <= 6
    ensures Feasible(maxWorkers, LateState(k), LateRun(k))
    ensures After(maxWorkers, LateState(k), LateRun(k)) == LateState(6)
    decreases 6 - k
  {
    hide Enabled, Next, LateState, LateEvent;
    if k == 6 {
      NoStep(maxWorkers, LateState(6));
    } else {
      LateRunIsFeasible(maxWorkers, k + 1);
      LateStep(maxWorkers, k);
      StepThen(maxWorkers, LateState(k), LateEvent(k), LateRun(k + 1));
    }
  }

  /** A job cancelled between being marked and its worker being registered still gets that worker: it
      works on a cancelled job, whose status it cannot change. */
  lemma WorkerAfterCancellation(maxWorkers: nat)
    requires maxWorkers >= 1
    ensures Feasible(maxWorkers, NEW_SERVICE, LateRun(0))
    ensures After(maxWorkers, NEW_SERVICE, LateRun(0)) ==
      Service([Row(Cancelled, 3, 1)], [Worker(0, Registered)], Idle, [])
  {
    hide Feasible, After, LateRun;
    LateRunIsFeasible(maxWorkers, 0);
  }

  /** The event writes a cancellation of `job` that was read from its current version. */
  predicate Cancels(s: Service, e: Event, job: nat) {
    && e.WriteCancel? && e.cancel < |s.cancels| && s.cancels[e.cancel].job == job < |s.jobs|
    && s.cancels[e.cancel].version == s.jobs[job].version
  }

  predicate CancelledDuring(maxWorkers: nat, s: Service, run: seq<Event>, job: nat)
    requires Feasible(maxWorkers, s, run)
    decreases |run|
  {
    run != [] && (Cancels(s, run[0], job) || CancelledDuring(maxWorkers, Next(maxWorkers, s, run[0]), run[1..], job))
  }

  /** While a job is marked and has no worker, only a cancellation changes its status. */
  lemma MarkedStep(maxWorkers: nat, s: Service, e: Event, job: nat)
    requires Safe(maxWorkers, s) && Enabled(maxWorkers, s, e) && s.tick == Marked(job)
    requires !e.Register? && !e.Restart?
    ensures Next(maxWorkers, s, e).tick == Marked(job) && job < |s.jobs|
    ensures Next(maxWorkers, s, e).jobs[job].status.Cancelled? <==> s.jobs[job].status.Cancelled? || Cancels(s, e, job)
  {
    hide WorkersSafe, CancelsSafe;
  }

  lemma {:induction false} MarkedRun(maxWorkers: nat, s: Service, run: seq<Event>, job: nat)
    requires Safe(maxWorkers, s) && Feasible(maxWorkers, s, run) && s.tick == Marked(job)
    requires Register !in run && Restart !in run
    ensures var t := After(maxWorkers, s, run);
      && Safe(maxWorkers, t) && t.tick == Marked(job) && job < |t.jobs| && job < |s.jobs|
      && (t.jobs[job].status.Cancelled? <==> s.jobs[job].status.Cancelled? || CancelledDuring(maxWorkers, s, run, job))
    decreases |run|
  {
    hide Next, Enabled, Safe, Cancels;
    if run == [] {
      MarkedExists(maxWorkers, s, job);
    } else {
      assert run == [run[0]] + run[1..];
      MarkedStep(maxWorkers, s, run[0], job);
      StepKeepsSafe(maxWorkers, s, run[0]);
      MarkedRun(maxWorkers, Next(maxWorkers, s, run[0]), run[1..], job);
    }
  }

  lemma MarkedExists(maxWorkers: nat, s: Service, job: nat)
    requires Safe(maxWorkers, s) && s.tick == Marked(job)
    ensures job < |s.jobs|
  {
  }

  lemma StepKeepsSafe(maxWorkers: nat, s: Service, e: Event)
    requires Safe(maxWorkers, s) && Enabled(maxWorkers, s, e)
    ensures Safe(maxWorkers, Next(maxWorkers, s, e))
  {
    hide Next, Enabled, WorkersSafe, TickSafe, CancelsSafe;
    StepKeepsWorkers(maxWorkers, s, e);
    StepKeepsTick(maxWorkers, s, e);
    StepKeepsCancels(maxWorkers, s, e);
  }

  /** From the moment a tick marks a job until it registers the worker, whatever else happens: the worker is
      registered for a cancelled job if and only if a cancellation read from the job's then current version is
      written in between. */
  lemma WorkerForCancelledJob(maxWorkers: nat, s: Service, between: seq<Event>)
    requires Safe(maxWorkers, s) && Enabled(maxWorkers, s, Mark) && Next(maxWorkers, s, Mark).tick.Marked?
    requires Feasible(maxWorkers, Next(maxWorkers, s, Mark), between) && Register !in between && Restart !in between
    ensures var job, marked := s.tick.job, Next(maxWorkers, s, Mark);
      var t := After(maxWorkers, marked, between);
      && Enabled(maxWorkers, t, Register)
      && var n := Next(maxWorkers, t, Register);
         && n.workers == t.workers + [Worker(job, Registered)] && job < |n.jobs|
         && (n.jobs[job].status.Cancelled? <==> CancelledDuring(maxWorkers, marked, between, job))
  {
    var job, marked := s.tick.job, Next(maxWorkers, s, Mark);
    StepKeepsSafe(maxWorkers, s, Mark);
    assert marked.tick == Marked(job) && marked.jobs[job].status.Running?;
    hide Safe, Feasible, After, CancelledDuring;
    MarkedRun(maxWorkers, marked, between, job);
  }

  predicate HasLiveWorker(s: Service, job: nat) {
    exists w | 0 <= w < |s.workers| :: s.workers[w].job == job && s.workers[w].Live()
  }

  lemma NoNewWorker(maxWorkers: nat, s: Service, e: Event, job: nat)
    requires Enabled(maxWorkers, s, e) && !(e.Register? && s.tick.job == job)
    ensures HasLiveWorker(Next(maxWorkers, s, e), job) ==> HasLiveWorker(s, job)
  {
    hide HasWorker;
    var n := Next(maxWorkers, s, e);
    if HasLiveWorker(n, job) {
      var w :| 0 <= w < |n.workers| && n.workers[w].job == job && n.workers[w].Live();
      var v := if e.Leave? && w >= e.worker then w + 1 else w;
      assert s.workers[v].job == job && s.workers[v].Live();
    }
  }

  /** No other step gives a job that has ended a worker. */
  lemma OnlyLateRegistration(maxWorkers: nat, s: Service, e: Event, job: nat)
    requires Safe(maxWorkers, s) && Enabled(maxWorkers, s, e) && job < |s.jobs|
    requires s.jobs[job].status.Ended() && !HasLiveWorker(s, job) && HasLiveWorker(Next(maxWorkers, s, e), job)
    ensures e.Register? && s.tick == Marked(job) && s.jobs[job].status.Cancelled?
  {
    hide CancelsSafe, WorkersSafe, HasLiveWorker;
    if !(e.Register? && s.tick.job == job) {
      NoNewWorker(maxWorkers, s, e, job);
    }
  }

  // ---------------------------------------------------------------- lost workers

  function LostCount(workers: seq<Worker>): (n: nat)
    ensures n <= |workers|
  {
    if workers == [] then 0
    else LostCount(workers[..|workers| - 1]) + (if workers[|workers| - 1].phase.Lost? then 1 else 0)
  }

  lemma {:induction false} LostAt(workers: seq<Worker>, w: nat, phase: Phase)
    requires w < |workers| && !workers[w].phase.Lost?
    ensures LostCount(workers[w := workers[w].(phase := phase)])
         == LostCount(workers) + (if phase.Lost? then 1 else 0)
    decreases |workers|
  {
    var n := |workers| - 1;
    var changed := workers[w := workers[w].(phase := phase)];
    if w < n {
      LostAt(workers[..n], w, phase);
      assert changed[..n] == workers[..n][w := workers[w].(phase := phase)];
    } else {
      assert changed[..n] == workers[..n];
    }
  }

  lemma {:induction false} LostWithout(workers: seq<Worker>, w: nat)
    requires w < |workers| && !workers[w].phase.Lost?
    ensures LostCount(workers[..w] + workers[w + 1..]) == LostCount(workers)
    decreases |workers|
  {
    var n := |workers| - 1;
    var rest := workers[..w] + workers[w + 1..];
    if w < n {
      LostWithout(workers[..n], w);
      assert rest[..n - 1] == workers[..n][..w] + workers[..n][w + 1..] && rest[n - 1] == workers[n];
    } else {
      assert rest == workers[..n];
    }
  }

  /** Only a restart gives back the place of a lost worker. */
  lemma StepKeepsLost(maxWorkers: nat, s: Service, e: Event)
    requires Enabled(maxWorkers, s, e) && !e.Restart?
    ensures LostCount(Next(maxWorkers, s, e).workers) >= LostCount(s.workers)
  {
    hide HasWorker, LostCount;
    var ws := s.workers;
    match e
    case Register => LostAppend(ws, Worker(s.tick.job, Registered));
    case Enter(w) => LostAt(ws, w, Working);
    case Lose(w) => LostAt(ws, w, Lost);
    case Finish(w, _) => LostAt(ws, w, Done);
    case Leave(w) => LostWithout(ws, w);
    case _ =>
  }

  lemma StepKeepsLostWorker(maxWorkers: nat, s: Service, e: Event, job: nat)
    requires Enabled(maxWorkers, s, e) && !e.Restart? && Worker(job, Lost) in s.workers
    ensures Worker(job, Lost) in Next(maxWorkers, s, e).workers
  {
    hide HasWorker;
    var n := Next(maxWorkers, s, e);
    var w :| 0 <= w < |s.workers| && s.workers[w] == Worker(job, Lost);
    assert n.workers[if e.Leave? && w > e.worker then w - 1 else w] == Worker(job, Lost);
  }

  lemma LostAppend(workers: seq<Worker>, w: Worker)
    requires !w.phase.Lost?
    ensures LostCount(workers + [w]) == LostCount(workers)
  {
    assert (workers + [w])[..|workers|] == workers;
  }

  /** A lost worker keeps its place, and there are never fewer of them, until the process restarts. */
  lemma {:induction false} LostWorkersStay(maxWorkers: nat, s: Service, run: seq<Event>, job: nat)
    requires Feasible(maxWorkers, s, run) && Restart !in run
    ensures LostCount(After(maxWorkers, s, run).workers) >= LostCount(s.workers)
    ensures Worker(job, Lost) in s.workers ==> Worker(job, Lost) in After(maxWorkers, s, run).workers
    decreases |run|
  {
    hide Enabled, Next, LostCount;
    if run != [] {
      assert run == [run[0]] + run[1..];
      StepKeepsLost(maxWorkers, s, run[0]);
      if Worker(job, Lost) in s.workers {
        StepKeepsLostWorker(maxWorkers, s, run[0], job);
      }
      LostWorkersStay(maxWorkers, Next(maxWorkers, s, run[0]), run[1..], job);
    }
  }

  /** Without a restart some job can still be given a worker. */
  ghost predicate CanStillStart(maxWorkers: nat, s: Service) {
    exists run :: Feasible(maxWorkers, s, run) && Restart !in run && Register in run
  }

  lemma StartsLater(maxWorkers: nat, s: Service, e: Event)
    requires Enabled(maxWorkers, s, e) && !e.Restart? && CanStillStart(maxWorkers, Next(maxWorkers, s, e))
    ensures CanStillStart(maxWorkers, s)
  {
    hide Enabled, Next;
    var n := Next(maxWorkers, s, e);
    var run :| Feasible(maxWorkers, n, run) && Restart !in run && Register in run;
    StepThen(maxWorkers, s, e, run);
    assert Register in [e] + run;
  }

  lemma StartsNow(maxWorkers: nat, s: Service)
    requires s.tick.Marked?
    ensures CanStillStart(maxWorkers, s)
  {
    NoStep(maxWorkers, Next(maxWorkers, s, Register));
    StepThen(maxWorkers, s, Register, []);
    assert Register in [Register] + [];
  }

  /** With a place free, a new job is chosen, marked and given a worker. */
  lemma FreePlaceStarts(maxWorkers: nat, s: Service)
    requires OnePerJob(s) && s.tick.Idle? && |s.workers| < maxWorkers
    ensures CanStillStart(maxWorkers, s)
  {
    hide CanStillStart;
    var job := |s.jobs|;
    var created := Next(maxWorkers, s, Create);
    var chosen := Next(maxWorkers, created, Choose(job));
    StartsNow(maxWorkers, Next(maxWorkers, chosen, Mark));
    StartsLater(maxWorkers, chosen, Mark);
    StartsLater(maxWorkers, created, Choose(job));
    StartsLater(maxWorkers, s, Create);
  }

  lemma {:induction false} SomeoneLeft(workers: seq<Worker>) returns (w: nat)
    requires LostCount(workers) < |workers|
    ensures w < |workers| && !workers[w].phase.Lost?
    decreases |workers|
  {
    var n := |workers| - 1;
    if workers[n].phase.Lost? {
      w := SomeoneLeft(workers[..n]);
    } else {
      w := n;
    }
  }

  /** A worker that is not lost can leave, and then there is a place. */
  lemma LeavingStarts(maxWorkers: nat, s: Service, w: nat)
    requires Safe(maxWorkers, s) && s.tick.Idle? && w < |s.workers| && !s.workers[w].phase.Lost?
    ensures CanStillStart(maxWorkers, s)
  {
    hide CanStillStart, CancelsSafe, Busy, HasWorker;
    if s.workers[w].phase.Registered? {
      var entered := Next(maxWorkers, s, Enter(w));
      StepKeepsSafe(maxWorkers, s, Enter(w));
      StepKeepsOnePerJob(maxWorkers, entered, Leave(w));
      FreePlaceStarts(maxWorkers, Next(maxWorkers, entered, Leave(w)));
      StartsLater(maxWorkers, entered, Leave(w));
      StartsLater(maxWorkers, s, Enter(w));
    } else {
      StepKeepsOnePerJob(maxWorkers, s, Leave(w));
      FreePlaceStarts(maxWorkers, Next(maxWorkers, s, Leave(w)));
      StartsLater(maxWorkers, s, Leave(w));
    }
  }

  lemma IdleStarts(maxWorkers: nat, s: Service)
    requires Safe(maxWorkers, s) && s.tick.Idle? && LostCount(s.workers) < maxWorkers
    ensures CanStillStart(maxWorkers, s)
  {
    hide CanStillStart, CancelsSafe, TickSafe, LostCount;
    if |s.workers| < maxWorkers {
      FreePlaceStarts(maxWorkers, s);
    } else {
      var w := SomeoneLeft(s.workers);
      LeavingStarts(maxWorkers, s, w);
    }
  }

  /** A registration needs a place that no lost worker holds. */
  lemma {:induction false} RegistrationNeedsAPlace(maxWorkers: nat, s: Service, run: seq<Event>)
    requires Safe(maxWorkers, s) && Feasible(maxWorkers, s, run) && Restart !in run && Register in run
    ensures LostCount(s.workers) < maxWorkers
    decreases |run|
  {
    hide Next, WorkersSafe, CancelsSafe, HasWorker, LostCount;
    if !run[0].Register? {
      assert run == [run[0]] + run[1..];
      StepKeepsLost(maxWorkers, s, run[0]);
      StepKeepsSafe(maxWorkers, s, run[0]);
      RegistrationNeedsAPlace(maxWorkers, Next(maxWorkers, s, run[0]), run[1..]);
    }
  }

  /** Until the process restarts, the service can still start a job if and only if fewer workers are lost than
      may run. */
  lemma StartsExactlyWhen(maxWorkers: nat, s: Service)
    requires Safe(maxWorkers, s)
    ensures CanStillStart(maxWorkers, s) <==> LostCount(s.workers) < maxWorkers
  {
    hide Safe, LostCount, Feasible;
    if CanStillStart(maxWorkers, s) {
      var run :| Feasible(maxWorkers, s, run) && Restart !in run && Register in run;
      RegistrationNeedsAPlace(maxWorkers, s, run);
    }
    if LostCount(s.workers) < maxWorkers {
      if s.tick.Marked? {
        StartsNow(maxWorkers, s);
      } else if s.tick.Idle? {
        IdleStarts(maxWorkers, s);
      } else {
        StepKeepsSafe(maxWorkers, s, Skip);
        IdleStarts(maxWorkers, Next(maxWorkers, s, Skip));
        StartsLater(maxWorkers, s, Skip);
      }
    }
  }

  /** So once as many workers are lost as may run, no job is even chosen until the process restarts. */
  lemma {:induction false} LostWorkersExhaustTheService(maxWorkers: nat, s: Service, run: seq<Event>)
    requires Safe(maxWorkers, s) && Feasible(maxWorkers, s, run) && Restart !in run
    requires LostCount(s.workers) == maxWorkers
    ensures LostCount(After(maxWorkers, s, run).workers) == maxWorkers
    ensures forall i | 0 <= i < |run| :: !run[i].Choose? && !run[i].Register?
    decreases |run|
  {
    hide Next, WorkersSafe, CancelsSafe, HasWorker, LostCount;
    if run != [] {
      assert run == [run[0]] + run[1..];
      StepKeepsLost(maxWorkers, s, run[0]);
      StepKeepsSafe(maxWorkers, s, run[0]);
      LostWorkersExhaustTheService(maxWorkers, Next(maxWorkers, s, run[0]), run[1..]);
    }
  }

  /** One job is enough to lose a worker: cancelled before its worker's first step, here between its mark and the
      registration of the worker. */
  lemma CancellationLosesAWorker(maxWorkers: nat)
    requires maxWorkers >= 1
    ensures Feasible(maxWorkers, NEW_SERVICE, LateRun(0))
    ensures var s := After(maxWorkers, NEW_SERVICE, LateRun(0));
      Enabled(maxWorkers, s, Lose(0)) && LostCount(Next(maxWorkers, s, Lose(0)).workers) == 1
  {
    hide Feasible, After, LateRun;
    WorkerAfterCancellation(maxWorkers);
    var ws := Next(maxWorkers, After(maxWorkers, NEW_SERVICE, LateRun(0)), Lose(0)).workers;
    assert ws[..0] == [];
  }

  /** A service that starts empty is safe under every interleaving. */
  lemma EveryServiceIsSafe(maxWorkers: nat, run: seq<Event>)
    requires Feasible(maxWorkers, NEW_SERVICE, run)
    ensures Safe(maxWorkers, After(maxWorkers, NEW_SERVICE, run))
  {
    hide Feasible, After, Forward;
    NewServiceIsSafe(maxWorkers);
    EveryInterleavingIsSafe(maxWorkers, NEW_SERVICE, run);
  }
}
