/** A step that depends on a reused one can still succeed as long as it can be reused itself: two steps have
    succeeded, the plan is revised without changing either, and the results are reused one after the other. */
module PlanRescue {
  import opened Wrappers
  import opened PlanModel
  import opened PlanReuse
  import opened PlanRun
  import opened PlanExecute
  import opened PlanExample
  import opened PlanProgress

  function GoodB(w: World): Document {
    Document("p", 1, w.runId, "b1", "x2", 1, true, "done", [], "db", map["a" := w.hash(ResultA(w))], ENV)
  }

  function DoneB(w: World): Attempt {
    Blank(w, "x2", 1, "b1").(status := Succeeded, summary := Some("done"), ref := Some(MakeRef("m2")),
      digest := Some(w.hash(GoodB(w))))
  }

  function Both(w: World): map<Id, Entry> {
    MemoryA(w)["m2" := ResultEntry(w, GoodB(w))]
  }

  /** Both steps done; the same under the revised version, once approved; and with the first reused. */
  function Done(w: World): Store {
    Store(P1, true, [DoneA(w), DoneB(w)], Both(w))
  }

  function Again(w: World): Store {
    Store(P2, true, [DoneA(w), DoneB(w)], Both(w))
  }

  function Half(w: World): Store {
    Store(P2, true, [DoneA(w), DoneB(w), ReusedA(w)], Both(w))
  }

  // ---------------------------------------------------------------- up to the revision

  lemma ResultOfGoodB(w: World)
    requires Roomy(w)
    ensures ResultOf(w, State(w, 4), 1, GOOD) == Some(GoodB(w))
  {
    hide Current, ReadDocument, DependenciesReadable, DependencyDocuments, RunningStep, DigestMap;
    DocumentsOfB(w);
    OneDigest(w, ResultA(w));
    VersionsAreWellFormed(w);
    assert KeyOf(V1, "a1") == "a";
  }

  lemma DoneIsSound(w: World)
    requires Roomy(w)
    ensures Sound(w, Done(w))
  {
    hide Sound, State, Done, CanFinish, Finished;
    Reaches(w, 4);
    FinishesB(w);
    NextKeepsSound(w, State(w, 4), Finish(1, GOOD, "m2"));
  }

  lemma FinishesB(w: World)
    requires Roomy(w)
    ensures CanFinish(w, State(w, 4), 1, GOOD, "m2") && Finished(w, State(w, 4), 1, GOOD, "m2") == Done(w)
  {
    hide Current, ResultOf, RunningStep, DependenciesReadable, DoneA, ResultA, MemoryA;
    DocumentsOfB(w);
    ResultOfGoodB(w);
    assert MemoryId("m2") && "m2" !in MemoryA(w) by { OnlyM1(w); }
  }

  lemma OnlyM1(w: World)
    ensures "m2" !in MemoryA(w) && MemoryId("m2")
  {
  }

  lemma NoneRunningHere(w: World)
    ensures NoneRunning(Done(w).rows) && NoneRunning(Half(w).rows)
  {
  }

  lemma AgainIsSound(w: World)
    requires Roomy(w)
    ensures Sound(w, Again(w))
  {
    hide Sound, NextVersion, DoneA, DoneB, Both, NoneRunning;
    DoneIsSound(w);
    NextIsV2(w);
    NoneRunningHere(w);
    RevisedIsSound(w, Done(w), V2);
    var s := Revised(Done(w), V2);
    assert Enabled(w, s, Approve) && Next(w, s, Approve) == Again(w);
    NextKeepsSound(w, s, Approve);
  }

  // ---------------------------------------------------------------- the first reuse

  lemma CurrentAgain(w: World)
    ensures Current(w, Again(w)) == map[]
  {
    hide Latest;
    LatestOne([DoneA(w)], DoneA(w), 2, w.runId);
    LatestMore([DoneA(w)], DoneB(w), 2, w.runId);
    assert Again(w).rows == [DoneA(w)] + [DoneB(w)];
  }

  lemma LatestBefore(w: World)
    ensures Latest([DoneA(w), DoneB(w)], "p", 1, w.runId) == map["a1" := DoneA(w), "b1" := DoneB(w)]
  {
    hide Latest;
    LatestOne([DoneA(w)], DoneA(w), 1, w.runId);
    LatestMore([DoneA(w)], DoneB(w), 1, w.runId);
    assert [DoneA(w), DoneB(w)] == [DoneA(w)] + [DoneB(w)];
  }

  lemma ReadsBoth(w: World)
    requires Roomy(w)
    ensures ReuseDocument(w, Both(w), Some(DoneA(w)), A1) == Some(ResultA(w))
    ensures ReuseDocument(w, Both(w), Some(DoneB(w)), B1) == Some(GoodB(w))
  {
    assert MemoryId("m1") && ParseRef(MakeRef("m1")) == Some("m1");
    assert MemoryId("m2") && ParseRef(MakeRef("m2")) == Some("m2");
  }

  lemma SourceOfAAgain(w: World)
    requires Roomy(w)
    ensures ReuseSource(w, Again(w), A2) == Some((A1, DoneA(w), ResultA(w)))
  {
    hide ReuseDocument, FindAnywhere, Latest;
    FindA1(w);
    LatestBefore(w);
    ReadsBoth(w);
  }

  lemma FreshAgain(w: World)
    ensures FreshId(Again(w), "x3") && NoneRunning(Again(w).rows) && FreshId(Half(w), "x4")
  {
    assert Again(w).rows[0].id == "x1" && Again(w).rows[1].id == "x2";
    assert Half(w).rows[0].id == "x1" && Half(w).rows[1].id == "x2" && Half(w).rows[2].id == "x3";
  }

  lemma HalfIsSound(w: World)
    requires Roomy(w)
    ensures Sound(w, Half(w))
  {
    hide Sound, Again, Half, Current, ReuseSource, Reusable, FreshId, NoneRunning, Executable, ReusedRow;
    AgainIsSound(w);
    ReusableAgain(w);
    FreshAgain(w);
    RowAgain(w);
    AppendedAgain(w);
    NextKeepsSound(w, Again(w), Reuse(A2, "x3", ENV));
  }

  lemma ReusableAgain(w: World)
    requires Roomy(w)
    ensures Reusable(w, ENV, Again(w), Current(w, Again(w)), A2)
  {
    hide Current, ReuseSource, CanReuseResult, ResultA, DoneA, DoneB, Both, Proofs, DependencyProof;
    CurrentAgain(w);
    SourceOfAAgain(w);
    ReusesA(w);
    assert Again(w).plan.current.Deps(A2.id) == [];
    NothingToProve(w, Again(w));
  }

  lemma AppendedAgain(w: World)
    ensures var s := Again(w);
      && s.approved && A2 in s.plan.current.steps && Executable(Current(w, s))
      && s.(rows := s.rows + [ReusedA(w)]) == Half(w)
  {
    hide Current, DoneA, DoneB, ReusedA, Both;
    CurrentAgain(w);
    assert A2 == Again(w).plan.current.steps[0];
  }

  lemma RowAgain(w: World)
    requires Roomy(w)
    ensures ReuseSource(w, Again(w), A2).Some? && ReusedRow(w, Again(w), A2, "x3") == ReusedA(w)
  {
    hide ReuseSource;
    SourceOfAAgain(w);
  }

  // ---------------------------------------------------------------- the second reuse

  lemma CurrentHalf(w: World)
    ensures Current(w, Half(w)) == map["a2" := ReusedA(w)]
  {
    hide Latest;
    CurrentAgain(w);
    LatestMore([DoneA(w), DoneB(w)], ReusedA(w), 2, w.runId);
    assert Half(w).rows == [DoneA(w), DoneB(w)] + [ReusedA(w)];
  }

  lemma FindB1()
    ensures FindAnywhere(P2.versions, "b1") == Some((V1, B1))
  {
    assert V2.steps[1..] == [B2] && FindStep(V2.steps, "b1").None?;
    SecondStep(V1);
    assert P2.versions[..1] == [V1];
    assert FindAnywhere([V1], "b1") == Some((V1, B1));
  }

  lemma SourceOfB(w: World)
    requires Roomy(w)
    ensures ReuseSource(w, Half(w), B2) == Some((B1, DoneB(w), GoodB(w)))
  {
    hide ReuseDocument, FindAnywhere, Latest;
    FindB1();
    LatestBefore(w);
    LatestMore([DoneA(w), DoneB(w)], ReusedA(w), 1, w.runId);
    assert Half(w).rows == [DoneA(w), DoneB(w)] + [ReusedA(w)];
    ReadsBoth(w);
  }

  function ProofOfA(w: World): Proof {
    Proof(A2, ReusedA(w), A1, DoneA(w), ResultA(w))
  }

  lemma ProvesA(w: World)
    requires Roomy(w)
    ensures DependencyProof(w, Half(w), Current(w, Half(w)), "a2") == Some(ProofOfA(w))
  {
    hide ReuseDocument, FindAnywhere, Current;
    CurrentHalf(w);
    ReusedIsA(w);
    FindA1(w);
    ReadsBoth(w);
    assert FindAttempt(Half(w).rows, w.runId, "x1") == Some(DoneA(w));
    assert FindStep(V2.steps, "a2") == Some(A2);
  }

  lemma ProofsForB(w: World, s: Store)
    requires DependencyProof(w, s, Current(w, s), "a2") == Some(ProofOfA(w))
    ensures DependenciesProved(w, s, Current(w, s), ["a2"])
    ensures Proofs(w, s, Current(w, s), ["a2"]) == map["a" := ProofOfA(w)]
  {
    hide DependencyProof, Current;
    assert ["a2"][..0] == [];
  }

  lemma ReusesB(w: World)
    requires Roomy(w)
    ensures CanReuseResult(w, ENV, B2, B1, DoneB(w), GoodB(w), {"a2"}, map["a" := ProofOfA(w)])
  {
    OneProof(ProofOfA(w));
    assert GoodB(w).dependencies.Keys == {"a"};
  }

  lemma OneProof(p: Proof)
    ensures var proofs := map["a" := p];
      proofs.Keys == {"a"} && (set k | k in proofs :: proofs[k].newStep.id) == {p.newStep.id}
  {
    var proofs := map["a" := p];
    assert "a" in proofs && proofs["a"] == p;
    assert p.newStep.id in (set k | k in proofs :: proofs[k].newStep.id);
  }

  lemma ReusableB(w: World)
    requires Roomy(w)
    ensures Reusable(w, ENV, Half(w), Current(w, Half(w)), B2)
  {
    hide Half, Current, ReuseSource, CanReuseResult, GoodB, DoneB, Proofs, DependencyProof, ProofOfA;
    SourceOfB(w);
    ProvesA(w);
    ProofsForB(w, Half(w));
    ReusesB(w);
    HalfBasics(w);
    OnlyDependency();
  }

  lemma OnlyDependency()
    ensures var deps := ["a2"]; (set d | d in deps) == {"a2"}
  {
  }

  lemma HalfBasics(w: World)
    ensures var s := Half(w);
      && s.approved && s.plan == P2 && s.plan.current.Deps(B2.id) == ["a2"]
      && "a2" in Current(w, s) && SucceededIn(Current(w, s), "a2") && Current(w, s)["a2"].reusedFrom.Some?
      && B2.id !in Current(w, s) && Executable(Current(w, s))
  {
    hide Current, DoneA, DoneB, ReusedA, Both;
    CurrentHalf(w);
    ReusedIsA(w);
  }

  /** The state is sound, idle and approved; its second step is hindered; and reusing that step completes the
      version. */
  lemma ReuseRescuesAStep(w: World)
    requires Roomy(w)
    ensures Sound(w, Half(w)) && Idle(w, Half(w)) && Half(w).approved && HinderedAt(w, Half(w), 1, "a2")
    ensures Enabled(w, Half(w), Reuse(B2, "x4", ENV)) && Complete(w, Next(w, Half(w), Reuse(B2, "x4", ENV)))
  {
    hide Sound, Half, Current, CanReuse, NoneRunning, Executable, SucceededIn, Complete;
    HalfIsSound(w);
    HalfBasics(w);
    NoneRunningHere(w);
    assert "a2" in ["a2"] && B2 == V2.steps[1] && SucceededIn(Current(w, Half(w)), "a2");
    NotYet(Current(w, Half(w)), B2.id);
    SecondReuse(w);
  }

  lemma NotYet(latest: map<Id, Attempt>, id: Id)
    requires id !in latest
    ensures !SucceededIn(latest, id)
  {
  }

  lemma SecondReuse(w: World)
    requires Roomy(w)
    ensures CanReuse(w, ENV, Half(w), B2, "x4") && ReuseSource(w, Half(w), B2).Some?
    ensures Complete(w, WithReuse(w, Half(w), B2, "x4"))
  {
    hide Sound, Half, Current, ReuseSource, Reusable, FreshId, NoneRunning, Executable, WellFormedPlan, WellFormed,
      Accepts, ReusedRow, DistinctIds;
    var s := Half(w);
    HalfIsSound(w);
    HalfBasics(w);
    NoneRunningHere(w);
    FreshAgain(w);
    ReusableB(w);
    assert B2 == V2.steps[1] && A2 == V2.steps[0];
    CanReuseHasSource(w, ENV, s, B2, "x4");
    SoundBasics(w, s);
    SoundIsDistinct(w, s);
    RowIsNew(w, s, B2, "x4");
    ReusedStepIsAccepted(w, ENV, s, B2, "x4");
  }
}
