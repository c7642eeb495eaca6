/** A shortest run into the trap of reused dependencies: a step succeeds, the step after it fails for good,
    the plan is revised without changing either, the first step's result is reused, and the second is
    started again. */
module PlanExample {
  import opened Wrappers
  import opened PlanModel
  import opened PlanReuse
  import opened PlanRun

  const A1 := Step("a1", "a", None, 1, 1, "da")
  const B1 := Step("b1", "b", None, 2, 1, "db")
  const A2 := Step("a2", "a", Some("a1"), 1, 1, "da")
  const B2 := Step("b2", "b", Some("b1"), 2, 1, "db")
  const V1 := Version(1, [A1, B1], map["b1" := ["a1"]])
  const V2 := Version(2, [A2, B2], map["b2" := ["a2"]])
  const P1 := Plan("p", V1, [V1])
  const P2 := Plan("p", V2, [V1, V2])
  const ENV := Environment("t", "p", "s")
  const GOOD := Completion(true, "done", [], false, ENV)
  const BAD := Completion(false, "failed", [], false, ENV)

  function Blank(w: World, id: Id, version: nat, step: Id): Attempt {
    Attempt(id, w.runId, "p", version, step, 1, Running, None, None, None, None)
  }

  function ResultA(w: World): Document {
    Document("p", 1, w.runId, "a1", "x1", 1, true, "done", [], "da", map[], ENV)
  }

  function ResultB(w: World): Document {
    Document("p", 1, w.runId, "b1", "x2", 1, false, "failed", [], "db", map["a" := w.hash(ResultA(w))], ENV)
  }

  function DoneA(w: World): Attempt {
    Blank(w, "x1", 1, "a1").(status := Succeeded, summary := Some("done"), ref := Some(MakeRef("m1")),
      digest := Some(w.hash(ResultA(w))))
  }

  function FailedB(w: World): Attempt {
    Blank(w, "x2", 1, "b1").(status := FailedTerminal, summary := Some("failed"), ref := Some(MakeRef("m2")),
      digest := Some(w.hash(ResultB(w))))
  }

  function ReusedA(w: World): Attempt {
    DoneA(w).(id := "x3", version := 2, stepId := "a2", reusedFrom := Some("x1"))
  }

  function MemoryA(w: World): map<Id, Entry> {
    map["m1" := ResultEntry(w, ResultA(w))]
  }

  function MemoryB(w: World): map<Id, Entry> {
    MemoryA(w)["m2" := ResultEntry(w, ResultB(w))]
  }

  /** The states the run passes through. */
  function State(w: World, k: nat): Store
    requires k <= 9
  {
    match k
    case 0 => Store(P1, false, [], map[])
    case 1 => Store(P1, true, [], map[])
    case 2 => Store(P1, true, [Blank(w, "x1", 1, "a1")], map[])
    case 3 => Store(P1, true, [DoneA(w)], MemoryA(w))
    case 4 => Store(P1, true, [DoneA(w), Blank(w, "x2", 1, "b1")], MemoryA(w))
    case 5 => Store(P1, true, [DoneA(w), FailedB(w)], MemoryB(w))
    case 6 => Store(P2, false, [DoneA(w), FailedB(w)], MemoryB(w))
    case 7 => Store(P2, true, [DoneA(w), FailedB(w)], MemoryB(w))
    case 8 => Store(P2, true, [DoneA(w), FailedB(w), ReusedA(w)], MemoryB(w))
    case _ => Store(P2, true, [DoneA(w), FailedB(w), ReusedA(w), Blank(w, "x4", 2, "b2")], MemoryB(w))
  }

  function EventAt(k: nat): Event
    requires k < 9
  {
    match k
    case 0 => Approve
    case 1 => Start("x1")
    case 2 => Finish(0, GOOD, "m1")
    case 3 => Start("x2")
    case 4 => Finish(1, BAD, "m2")
    case 5 => Revise(V2, Some(1))
    case 6 => Approve
    case 7 => Reuse(A2, "x3", ENV)
    case _ => Start("x4")
  }

  /** A world whose limits allow two steps, one revision and results of any size. */
  ghost predicate Roomy(w: World) {
    w.maxStepAttempts >= 1 && w.maxRevisions >= 1 && w.maxSteps >= 2 && forall d :: w.size(d) <= MAX_RESULT_BYTES
  }

  predicate Moves(w: World, k: nat)
    requires k < 9
  {
    Enabled(w, State(w, k), EventAt(k)) && Next(w, State(w, k), EventAt(k)) == State(w, k + 1)
  }

  lemma VersionsAreWellFormed(w: World)
    requires Roomy(w)
    ensures WellFormed(V1) && WellFormed(V2) && VersionWithinLimits(w, V1) && VersionWithinLimits(w, V2)
    ensures V1.Ids() == {"a1", "b1"} && V2.Ids() == {"a2", "b2"}
  {
    hide WellFormed, VersionWithinLimits;
    TwoSteps(w, V1, A1, B1);
    TwoSteps(w, V2, A2, B2);
  }

  lemma TwoSteps(w: World, v: Version, a: Step, b: Step)
    requires Roomy(w) && v.steps == [a, b] && a.ordinal == 1 && b.ordinal == 2 && a.id != b.id && a.key != b.key
    requires v.Deps(a.id) == [] && v.Deps(b.id) == [a.id] && a.maxAttempts >= 1 && b.maxAttempts >= 1
    ensures WellFormed(v) && VersionWithinLimits(w, v) && v.Ids() == {a.id, b.id}
  {
    assert v.steps[0] == a && v.steps[1] == b && a in v.steps && b in v.steps;
  }

  lemma Begins(w: World)
    requires Roomy(w)
    ensures Sound(w, State(w, 0))
  {
    VersionsAreWellFormed(w);
    InitialStateIsSound(w, "p", V1, map[]);
  }

  lemma LatestOne(rows: seq<Attempt>, a: Attempt, version: nat, runId: Id)
    requires rows == [a]
    ensures Latest(rows, "p", version, runId) == if InScope(a, "p", version, runId) then map[a.stepId := a] else map[]
  {
    assert rows[..0] == [];
  }

  lemma LatestMore(rows: seq<Attempt>, a: Attempt, version: nat, runId: Id)
    ensures Latest(rows + [a], "p", version, runId) == Absorb(Latest(rows, "p", version, runId), a, "p", version, runId)
  {
    assert (rows + [a])[..|rows|] == rows;
  }

  lemma Move0(w: World)
    requires Roomy(w)
    ensures Moves(w, 0) && Moves(w, 6)
  {
  }

  lemma Move1(w: World)
    requires Roomy(w) && Sound(w, State(w, 1))
    ensures Moves(w, 1)
  {
    hide Accepts, WellFormedPlan, PlanWithinLimits, RowsSound;
    var s := State(w, 1);
    assert Current(w, s) == map[];
    assert V1.Deps("a1") == [] && StepReady(V1, Current(w, s), A1);
    assert ChooseReady(V1, Current(w, s)) == Some(A1);
  }

  lemma Move2(w: World)
    requires Roomy(w)
    ensures Moves(w, 2)
  {
    hide Accepts, WellFormedPlan, PlanWithinLimits, RowsSound, ReadDocument;
    var s := State(w, 2);
    assert V1.Deps("a1") == [];
    assert FindStep(V1.steps, "a1") == Some(A1) && RunningStep(s, 0) == Some(A1);
    assert DependenciesReadable(w, s, A1) && DependencyDocuments(w, s, A1) == [];
    assert DigestMap(w, V1, []) == map[];
    assert ResultOf(w, s, 0, GOOD) == Some(ResultA(w));
    assert MemoryId("m1");
  }

  lemma CurrentAt3(w: World)
    ensures Current(w, State(w, 3)) == map["a1" := DoneA(w)]
  {
    LatestOne([DoneA(w)], DoneA(w), 1, w.runId);
  }

  lemma CurrentAt4(w: World)
    ensures Current(w, State(w, 4)) == map["a1" := DoneA(w), "b1" := Blank(w, "x2", 1, "b1")]
  {
    hide Latest;
    CurrentAt3(w);
    LatestMore([DoneA(w)], Blank(w, "x2", 1, "b1"), 1, w.runId);
    assert State(w, 4).rows == [DoneA(w)] + [Blank(w, "x2", 1, "b1")];
  }

  lemma CurrentAt7(w: World)
    ensures Current(w, State(w, 7)) == map[]
  {
    hide Latest;
    LatestOne([DoneA(w)], DoneA(w), 2, w.runId);
    LatestMore([DoneA(w)], FailedB(w), 2, w.runId);
    assert State(w, 7).rows == [DoneA(w)] + [FailedB(w)];
  }

  lemma CurrentAt8(w: World)
    ensures Current(w, State(w, 8)) == map["a2" := ReusedA(w)]
  {
    hide Latest;
    CurrentAt7(w);
    LatestMore([DoneA(w), FailedB(w)], ReusedA(w), 2, w.runId);
    assert State(w, 8).rows == [DoneA(w), FailedB(w)] + [ReusedA(w)];
  }

  lemma ReusedIsA(w: World)
    ensures ReusedA(w).stepId == "a2" && ReusedA(w).status.Succeeded? && ReusedA(w).reusedFrom == Some("x1")
    ensures ReusedA(w).number == 1
  {
  }

  lemma CurrentAt9(w: World)
    ensures "a2" in Current(w, State(w, 9)) && Current(w, State(w, 9))["a2"] == ReusedA(w)
  {
    hide Latest, DoneA, FailedB, ReusedA;
    CurrentAt8(w);
    var rows, b := State(w, 8).rows, Blank(w, "x4", 2, "b2");
    LatestMore(rows, b, 2, w.runId);
    assert State(w, 9).rows == rows + [b];
    AbsorbOther(Current(w, State(w, 8)), b, w.runId, "a2");
  }

  lemma AbsorbOther(m: map<Id, Attempt>, a: Attempt, runId: Id, id: Id)
    requires id in m && a.stepId != id
    ensures id in Absorb(m, a, "p", 2, runId) && Absorb(m, a, "p", 2, runId)[id] == m[id]
  {
  }

  lemma Move3(w: World)
    requires Roomy(w) && Sound(w, State(w, 3))
    ensures Moves(w, 3)
  {
    hide Accepts, WellFormedPlan, PlanWithinLimits, RowsSound, Current, MemoryA, ResultA, ChooseReady;
    var s := State(w, 3);
    CurrentAt3(w);
    SecondAfterFirst(V1, Current(w, s), DoneA(w));
  }

  lemma SecondAfterFirst(v: Version, latest: map<Id, Attempt>, done: Attempt)
    requires |v.steps| == 2 && v.Deps(v.steps[1].id) == [v.steps[0].id] && v.steps[0].id != v.steps[1].id
    requires latest == map[v.steps[0].id := done] && done.status.Succeeded?
    ensures ChooseReady(v, latest) == Some(v.steps[1])
  {
    assert !StepReady(v, latest, v.steps[0]) && StepReady(v, latest, v.steps[1]);
    SecondIsReady(v, latest);
  }

  lemma SecondIsReady(v: Version, latest: map<Id, Attempt>)
    requires |v.steps| == 2 && !StepReady(v, latest, v.steps[0]) && StepReady(v, latest, v.steps[1])
    ensures ChooseReady(v, latest) == Some(v.steps[1])
  {
    assert ChooseReady(v, latest, 1) == Some(v.steps[1]);
  }

  lemma ReadsA(w: World)
    requires Roomy(w)
    ensures ReadDocument(w, State(w, 4), A1, DoneA(w)) == Some(ResultA(w))
  {
    assert MemoryId("m1") && ParseRef(MakeRef("m1")) == Some("m1");
  }

  lemma DocumentsOfB(w: World)
    requires Roomy(w)
    ensures RunningStep(State(w, 4), 1) == Some(B1) && DependenciesReadable(w, State(w, 4), B1)
    ensures DependencyDocuments(w, State(w, 4), B1) == [ResultA(w)]
  {
    hide Current, ReadDocument;
    var s := State(w, 4);
    CurrentAt4(w);
    ReadsA(w);
    SecondStep(V1);
    assert V1.Deps("b1") == ["a1"] && FindStep(V1.steps, "a1") == Some(A1);
  }

  lemma ResultOfB(w: World)
    requires Roomy(w)
    ensures ResultOf(w, State(w, 4), 1, BAD) == Some(ResultB(w))
  {
    hide Current, ReadDocument, DependenciesReadable, DependencyDocuments, RunningStep, DigestMap;
    DocumentsOfB(w);
    OneDigest(w, ResultA(w));
    VersionsAreWellFormed(w);
    assert KeyOf(V1, "a1") == "a";
  }

  lemma Move4(w: World)
    requires Roomy(w)
    ensures Moves(w, 4)
  {
    hide Current, ResultOf, RunningStep, DependenciesReadable;
    DocumentsOfB(w);
    ResultOfB(w);
    assert MemoryId("m2") && "m2" !in MemoryA(w);
  }

  lemma SecondStep(v: Version)
    requires |v.steps| == 2 && v.steps[0].id != v.steps[1].id
    ensures FindStep(v.steps, v.steps[1].id) == Some(v.steps[1])
  {
    assert v.steps[1..] == [v.steps[1]];
  }

  lemma OneDigest(w: World, d: Document)
    ensures DigestMap(w, V1, [d]) == map[KeyOf(V1, d.stepId) := w.hash(d)]
  {
    assert [d][..0] == [];
  }

  lemma NextIsV2(w: World)
    requires Roomy(w)
    ensures NextVersion(w, P1, V2)
  {
    hide WellFormed, VersionWithinLimits;
    VersionsAreWellFormed(w);
    assert Superseded(V1.steps, "a") == Some("a1");
    assert V1.steps[1..] == [B1] && Superseded(V1.steps, "b") == Some("b1");
  }

  lemma Move5(w: World)
    requires Roomy(w)
    ensures Moves(w, 5)
  {
    hide NextVersion, FindStep, DoneA, MemoryB;
    NextIsV2(w);
    var s := State(w, 5);
    SecondStep(V1);
    assert s.rows[1] == FailedB(w) && RunningStep(s, 1) == Some(B1);
    assert V2.steps[1].key == B1.key;
  }

  lemma FindA1(w: World)
    ensures FindAnywhere(P2.versions, "a1") == Some((V1, A1))
  {
    assert V2.steps[1..] == [B2] && FindStep(V2.steps, "a1").None?;
    assert P2.versions[..1] == [V1] && FindStep(V1.steps, "a1") == Some(A1);
    assert FindAnywhere([V1], "a1") == Some((V1, A1));
  }

  lemma LatestOfA(w: World)
    ensures var latest := Latest(State(w, 7).rows, "p", 1, w.runId); "a1" in latest && latest["a1"] == DoneA(w)
  {
    LatestOne([DoneA(w)], DoneA(w), 1, w.runId);
    LatestMore([DoneA(w)], FailedB(w), 1, w.runId);
    assert State(w, 7).rows == [DoneA(w)] + [FailedB(w)];
  }

  lemma SourceOfA(w: World)
    requires Roomy(w)
    ensures ReuseSource(w, State(w, 7), A2) == Some((A1, DoneA(w), ResultA(w)))
  {
    hide ReuseDocument, FindAnywhere, Latest;
    FindA1(w);
    LatestOfA(w);
    DocumentOfA(w);
  }

  lemma DocumentOfA(w: World)
    requires Roomy(w)
    ensures ReuseDocument(w, MemoryB(w), Some(DoneA(w)), A1) == Some(ResultA(w))
  {
    assert MemoryId("m1") && ParseRef(MakeRef("m1")) == Some("m1");
  }

  lemma ReusesA(w: World)
    requires Roomy(w)
    ensures CanReuseResult(w, ENV, A2, A1, DoneA(w), ResultA(w), {}, map[])
  {
  }

  lemma ReusableA(w: World)
    requires Roomy(w)
    ensures Reusable(w, ENV, State(w, 7), Current(w, State(w, 7)), A2)
  {
    hide Current, ReuseSource, CanReuseResult, ResultA, DoneA, Proofs, DependencyProof;
    var s := State(w, 7);
    CurrentAt7(w);
    SourceOfA(w);
    ReusesA(w);
    assert s.plan.current.Deps(A2.id) == [];
    NothingToProve(w, s);
  }

  lemma NothingToProve(w: World, s: Store)
    ensures DependenciesProved(w, s, Current(w, s), []) && Proofs(w, s, Current(w, s), []) == map[]
    ensures var none: seq<Id> := []; (set d | d in none) == {}
  {
  }

  lemma FreshAt7(w: World)
    ensures FreshId(State(w, 7), "x3") && NoneRunning(State(w, 7).rows)
  {
    var rows := State(w, 7).rows;
    assert rows[0].id == "x1" && rows[1].id == "x2";
  }

  lemma RowOfA(w: World)
    requires Roomy(w)
    ensures ReuseSource(w, State(w, 7), A2).Some? && ReusedRow(w, State(w, 7), A2, "x3") == ReusedA(w)
  {
    hide ReuseSource;
    SourceOfA(w);
  }

  lemma Move7(w: World)
    requires Roomy(w)
    ensures Moves(w, 7)
  {
    hide State, Current, ReuseSource, Reusable, FreshId, ReusedRow, NoneRunning;
    ReusableA(w);
    FreshAt7(w);
    RowOfA(w);
    AppendedAt7(w);
  }

  lemma AppendedAt7(w: World)
    ensures var s := State(w, 7);
      && s.approved && A2 in s.plan.current.steps && Executable(Current(w, s))
      && s.(rows := s.rows + [ReusedA(w)]) == State(w, 8)
  {
    hide Current, DoneA, FailedB, ReusedA, MemoryB;
    CurrentAt7(w);
    assert A2 == State(w, 7).plan.current.steps[0];
  }

  lemma FreshAt8(w: World)
    ensures FreshId(State(w, 8), "x4") && NoneRunning(State(w, 8).rows)
  {
    var rows := State(w, 8).rows;
    assert rows[0].id == "x1" && rows[1].id == "x2" && rows[2].id == "x3";
  }

  lemma Move8(w: World)
    requires Roomy(w) && Sound(w, State(w, 8))
    ensures Moves(w, 8)
  {
    hide Accepts, WellFormedPlan, PlanWithinLimits, RowsSound, Current, FreshId, NoneRunning, DoneA, FailedB, ReusedA,
      MemoryB, ChooseReady;
    var s := State(w, 8);
    CurrentAt8(w);
    ReusedIsA(w);
    FreshAt8(w);
    SecondAfterFirst(V2, Current(w, s), ReusedA(w));
  }

  // ---------------------------------------------------------------- the trap

  function Events(k: nat): seq<Event>
    requires k <= 9
  {
    if k == 0 then [] else Events(k - 1) + [EventAt(k - 1)]
  }

  lemma Moving(w: World, k: nat)
    requires Roomy(w) && k < 9 && Sound(w, State(w, k))
    ensures Moves(w, k)
  {
    hide Sound, Moves, State;
    match k
    case 0 => Move0(w);
    case 1 => Move1(w);
    case 2 => Move2(w);
    case 3 => Move3(w);
    case 4 => Move4(w);
    case 5 => Move5(w);
    case 6 => Move0(w);
    case 7 => Move7(w);
    case _ => Move8(w);
  }

  lemma {:induction false} Reaches(w: World, k: nat)
    requires Roomy(w) && k <= 9
    ensures Sound(w, State(w, k))
    ensures Feasible(w, State(w, 0), Events(k)) && After(w, State(w, 0), Events(k)) == State(w, k)
  {
    hide Sound, State, Enabled, Next, EventAt;
    if k == 0 {
      Begins(w);
    } else {
      Reaches(w, k - 1);
      Moving(w, k - 1);
      NextKeepsSound(w, State(w, k - 1), EventAt(k - 1));
      RunAppend(w, State(w, 0), Events(k - 1), EventAt(k - 1));
    }
  }

  /** A plan that every check accepts, and nine ordinary events, lead to a state in which the run can only
      be cancelled. */
  lemma ReuseTrapsARun(w: World, e: Event)
    requires Roomy(w)
    ensures Sound(w, State(w, 0)) && Feasible(w, State(w, 0), Events(9))
    ensures After(w, State(w, 0), Events(9)) == State(w, 9)
    ensures Enabled(w, State(w, 9), e) <==> e == Cancel(3)
  {
    hide Sound, Feasible, After, Enabled;
    Reaches(w, 0);
    Reaches(w, 9);
    CurrentAt9(w);
    ReusedIsA(w);
    assert State(w, 9).plan.current.Deps("b2") == ["a2"];
    assert State(w, 9).rows[3].stepId == "b2" && "a2" in State(w, 9).plan.current.Deps("b2");
    ReusedDependencyLeavesOnlyCancel(w, State(w, 9), 3, "a2", e);
  }
}
