/** After a revision, results of superseded steps may be reused.  One checker decides what may be
    reused when an attempt is written; another re-verifies every succeeded attempt when results
    are read back, and blocks the whole run if it disagrees.  Both are written out here as the
    source has them, and proved to agree. */
module PlanReuse {
  import opened Wrappers
  import opened PlanModel

  // ---------------------------------------------------------------- the writing checker

  datatype Proof = Proof(
    newStep: Step, reusedRun: Attempt, sourceStep: Step, sourceRun: Attempt, sourceResult: Document)

  /** The document behind a superseded attempt, if everything about it checks out. */
  function ReuseDocument(w: World, memory: map<Id, Entry>, attempt: Option<Attempt>, step: Step): (r: Option<Document>)
  {
    if attempt.None? then None
    else
      var a := attempt.value;
      if !a.status.Succeeded? || a.ref.None? || a.digest.None? || a.summary.None? then None
      else
        var m := ParseRef(a.ref.value);
        if m.None? || m.value !in memory then None
        else
          var e := memory[m.value];
          if e.kind != "plan_step_result" || e.role != "assistant" || e.schema != 1
             || e.planId != a.planId || e.attemptId != a.id
             || !e.encodable || e.bytes > MAX_RESULT_BYTES || e.parsed.None?
          then None
          else
            var d := e.parsed.value;
            if d.planId != a.planId || d.version != a.version || d.runId != a.runId
               || d.stepId != a.stepId || d.attemptId != a.id || d.number != a.number
               || !d.succeeded || d.definition != step.definition
               || w.hash(d) != a.digest.value || d.summary != a.summary.value
            then None else Some(d)
  }

  /** One dependency of a candidate: its revised step was itself reused, from `sourceRun`. */
  predicate ProofHolds(w: World, p: Proof, expected: Digest) {
    && p.newStep.supersedes == Some(p.sourceStep.id)
    && p.newStep.definition == p.sourceStep.definition
    && p.sourceRun.runId == w.runId
    && p.sourceRun.stepId == p.sourceStep.id
    && p.sourceRun.status.Succeeded?
    && p.sourceRun.reusedFrom.None?
    && p.sourceResult.planId == p.sourceRun.planId
    && p.sourceResult.version == p.sourceRun.version
    && p.sourceResult.runId == w.runId
    && p.sourceResult.stepId == p.sourceStep.id
    && p.sourceResult.attemptId == p.sourceRun.id
    && p.sourceResult.number == p.sourceRun.number
    && p.sourceResult.succeeded
    && p.sourceResult.definition == p.sourceStep.definition
    && p.sourceRun.digest == Some(expected)
    && p.sourceRun.summary == Some(p.sourceResult.summary)
    && p.sourceRun.ref.Some?
    && w.hash(p.sourceResult) == expected
    && p.reusedRun.planId == p.sourceRun.planId
    && p.reusedRun.runId == w.runId
    && p.reusedRun.stepId == p.newStep.id
    && p.reusedRun.reusedFrom == Some(p.sourceRun.id)
    && p.reusedRun.status.Succeeded?
    && p.reusedRun.ref == p.sourceRun.ref
    && p.reusedRun.digest == Some(expected)
    && p.reusedRun.summary == Some(p.sourceResult.summary)
  }

  predicate CanReuseResult(
    w: World, env: Environment, newStep: Step, sourceStep: Step, sourceRun: Attempt, sourceResult: Document,
    newDependencyIds: set<Id>, proofs: map<Id, Proof>)
  {
    && sourceRun.runId == w.runId
    && sourceRun.stepId == sourceStep.id
    && sourceRun.status.Succeeded?
    && sourceRun.reusedFrom.None?
    && newStep.supersedes == Some(sourceStep.id)
    && newStep.definition == sourceStep.definition
    && sourceResult.planId == sourceRun.planId
    && sourceResult.version == sourceRun.version
    && sourceResult.runId == w.runId
    && sourceResult.stepId == sourceStep.id
    && sourceResult.attemptId == sourceRun.id
    && sourceResult.number == sourceRun.number
    && sourceResult.succeeded
    && sourceResult.definition == sourceStep.definition
    && sourceRun.digest == Some(w.hash(sourceResult))
    && sourceRun.summary == Some(sourceResult.summary)
    && sourceRun.ref.Some?
    && sourceResult.env == env
    && sourceResult.dependencies.Keys == proofs.Keys
    && (set k | k in proofs :: proofs[k].newStep.id) == newDependencyIds
    && forall k | k in proofs :: ProofHolds(w, proofs[k], sourceResult.dependencies[k])
  }

  /** The evidence that dependency `d` was reused, if it was. */
  function DependencyProof(w: World, s: Store, latest: map<Id, Attempt>, d: Id): (r: Option<Proof>)
    ensures r.Some? ==> d in latest && r.value.reusedRun == latest[d] && r.value.reusedRun.reusedFrom.Some?
    ensures r.Some? ==> r.value.newStep.id == d && r.value.newStep in s.plan.current.steps
    ensures r.Some? ==>
      ReuseDocument(w, s.memory, Some(r.value.sourceRun), r.value.sourceStep) == Some(r.value.sourceResult)
  {
    if d !in latest || latest[d].reusedFrom.None? then None
    else
      var source := FindAttempt(s.rows, w.runId, latest[d].reusedFrom.value);
      if source.None? then None
      else
        var item := FindAnywhere(s.plan.versions, source.value.stepId);
        if item.None? then None
        else
          var doc := ReuseDocument(w, s.memory, source, item.value.1);
          var here := FindStep(s.plan.current.steps, d);
          if doc.None? || here.None? then None
          else Some(Proof(here.value, latest[d], item.value.1, source.value, doc.value))
  }

  predicate DependenciesProved(w: World, s: Store, latest: map<Id, Attempt>, deps: seq<Id>) {
    forall d | d in deps :: DependencyProof(w, s, latest, d).Some?
  }

  /** `m` holds the proof of each dependency under the key of its revised step, and no other. */
  ghost predicate ProofsOf(w: World, s: Store, latest: map<Id, Attempt>, deps: seq<Id>, m: map<Id, Proof>)
    requires DependenciesProved(w, s, latest, deps)
  {
    && m.Keys == (set d | d in deps :: DependencyProof(w, s, latest, d).value.newStep.key)
    && forall k | k in m :: exists d ::
         d in deps && m[k] == DependencyProof(w, s, latest, d).value && k == m[k].newStep.key
  }

  lemma ProofsGrow(w: World, s: Store, latest: map<Id, Attempt>, deps: seq<Id>, m: map<Id, Proof>)
    requires DependenciesProved(w, s, latest, deps) && deps != []
    requires DependenciesProved(w, s, latest, deps[..|deps| - 1]) && ProofsOf(w, s, latest, deps[..|deps| - 1], m)
    ensures DependencyProof(w, s, latest, deps[|deps| - 1]).Some?
    ensures var p := DependencyProof(w, s, latest, deps[|deps| - 1]).value;
      ProofsOf(w, s, latest, deps, m[p.newStep.key := p])
  {
    hide DependencyProof;
    var n := |deps| - 1;
    assert deps[n] in deps && deps == deps[..n] + [deps[n]];
    var p := DependencyProof(w, s, latest, deps[n]).value;
    var m' := m[p.newStep.key := p];
    forall k | k in m'
      ensures exists d :: d in deps && m'[k] == DependencyProof(w, s, latest, d).value && k == m'[k].newStep.key
    {
      if k == p.newStep.key {
        assert m'[k] == DependencyProof(w, s, latest, deps[n]).value;
      } else {
        var d :| d in deps[..n] && m[k] == DependencyProof(w, s, latest, d).value && k == m[k].newStep.key;
        assert d in deps;
      }
    }
  }

  lemma ProvedPrefix(w: World, s: Store, latest: map<Id, Attempt>, deps: seq<Id>)
    requires DependenciesProved(w, s, latest, deps) && deps != []
    ensures DependenciesProved(w, s, latest, deps[..|deps| - 1])
  {
    hide DependencyProof;
  }

  /** The proofs gathered for a step, keyed by the logical key of the revised dependency. */
  function Proofs(w: World, s: Store, latest: map<Id, Attempt>, deps: seq<Id>): (m: map<Id, Proof>)
    requires DependenciesProved(w, s, latest, deps)
    ensures ProofsOf(w, s, latest, deps, m)
  {
    if deps == [] then map[]
    else
      ProvedPrefix(w, s, latest, deps);
      var m := Proofs(w, s, latest, deps[..|deps| - 1]);
      ProofsGrow(w, s, latest, deps, m);
      var p := DependencyProof(w, s, latest, deps[|deps| - 1]).value;
      m[p.newStep.key := p]
  }

  /** The superseded step a revised step may inherit from, its latest attempt and its document. */
  function ReuseSource(w: World, s: Store, step: Step): (r: Option<(Step, Attempt, Document)>)
    ensures r.Some? ==>
              && step.supersedes.Some?
              && FindAnywhere(s.plan.versions, step.supersedes.value).Some?
              && r.value.0 == FindAnywhere(s.plan.versions, step.supersedes.value).value.1
              && r.value.1 in s.rows
              && r.value.1.version == FindAnywhere(s.plan.versions, step.supersedes.value).value.0.number
              && r.value.1.planId == s.plan.id
              && ReuseDocument(w, s.memory, Some(r.value.1), r.value.0) == Some(r.value.2)
  {
    if step.supersedes.None? then None
    else
      var item := FindAnywhere(s.plan.versions, step.supersedes.value);
      if item.None? then None
      else
        var (version, source) := item.value;
        var latest := Latest(s.rows, s.plan.id, version.number, w.runId);
        if source.id !in latest then None
        else
          var doc := ReuseDocument(w, s.memory, Some(latest[source.id]), source);
          if doc.None? then None else Some((source, latest[source.id], doc.value))
  }

  /** Everything the source demands before it copies a superseded result to `step`. */
  predicate Reusable(w: World, env: Environment, s: Store, latest: map<Id, Attempt>, step: Step) {
    && step.id !in latest
    && ReuseSource(w, s, step).Some?
    && var (source, run, doc) := ReuseSource(w, s, step).value;
       var deps := s.plan.current.Deps(step.id);
       && DependenciesProved(w, s, latest, deps)
       && CanReuseResult(w, env, step, source, run, doc, (set d | d in deps), Proofs(w, s, latest, deps))
  }

  // ---------------------------------------------------------------- the reading checker

  /** The attempt and step that own the document of a succeeded attempt: the attempt itself, or
      the one it was reused from. */
  function Origin(w: World, s: Store, step: Step, attempt: Attempt): (r: Option<(Attempt, Step)>)
  {
    if attempt.reusedFrom.None? then Some((attempt, step))
    else
      var found := FindAttempt(s.rows, w.runId, attempt.reusedFrom.value);
      if found.None? then None
      else
        var o := found.value;
        if o.reusedFrom.Some? || o.planId != s.plan.id || o.runId != w.runId || !o.status.Succeeded?
           || o.ref != attempt.ref || o.digest != attempt.digest || o.summary != attempt.summary
        then None
        else
          var version := FindVersion(s.plan.versions, o.version);
          if version.None? then None
          else
            var source := FindStep(version.value.steps, o.stepId);
            if source.None? || step.supersedes != Some(source.value.id) || step.definition != source.value.definition
            then None else Some((o, source.value))
  }

  /** The verified document of a succeeded attempt, before its dependencies are looked at. */
  function ReadDocument(w: World, s: Store, step: Step, attempt: Attempt): (r: Option<Document>)
    ensures r.Some? ==> attempt.digest == Some(w.hash(r.value))
    ensures r.Some? && attempt.reusedFrom.None? ==> r.value.stepId == step.id
  {
    if attempt.ref.None? || attempt.digest.None? || attempt.summary.None? then None
    else
      var m := ParseRef(attempt.ref.value);
      if m.None? then None
      else
        var origin := Origin(w, s, step, attempt);
        if origin.None? || m.value !in s.memory then None
        else
          var (owner, ownerStep) := origin.value;
          var e := s.memory[m.value];
          if e.kind != "plan_step_result" || e.role != "assistant" || e.schema != 1
             || e.planId != s.plan.id || e.attemptId != owner.id
             || !e.encodable || e.bytes > MAX_RESULT_BYTES || e.parsed.None?
          then None
          else
            var d := e.parsed.value;
            if d.planId != s.plan.id || d.version != owner.version || d.runId != w.runId
               || d.stepId != ownerStep.id || d.attemptId != owner.id || d.number != owner.number
               || !d.succeeded || d.definition != ownerStep.definition
               || w.hash(d) != attempt.digest.value || d.summary != attempt.summary.value
            then None else Some(d)
  }

  /** `steps_by_id[id].logical_step_key` */
  function KeyOf(v: Version, id: Id): Id {
    var found := FindStep(v.steps, id);
    if found.Some? then found.value.key else ""
  }

  /** The recorded dependency digests are exactly those of the dependencies' latest attempts. */
  predicate DigestsAgree(v: Version, latest: map<Id, Attempt>, deps: seq<Id>, recorded: map<Id, Digest>) {
    && recorded.Keys == (set d | d in deps :: KeyOf(v, d))
    && forall d | d in deps :: d in latest && latest[d].digest == Some(recorded[KeyOf(v, d)])
  }

  predicate SucceededIn(latest: map<Id, Attempt>, id: Id) {
    id in latest && latest[id].status.Succeeded?
  }

  /** Dependencies have succeeded, and those of a reused step were reused too. */
  predicate LineageAgrees(latest: map<Id, Attempt>, deps: seq<Id>, reused: bool) {
    forall d | d in deps :: SucceededIn(latest, d) && (reused ==> latest[d].reusedFrom.Some?)
  }

  /** A succeeded step as the reading checker wants it, said without an order of checking. */
  predicate StepAccepted(w: World, s: Store, latest: map<Id, Attempt>, step: Step)
    requires step.id in latest
  {
    var a := latest[step.id];
    var deps := s.plan.current.Deps(step.id);
    && ReadDocument(w, s, step, a).Some?
    && LineageAgrees(latest, deps, a.reusedFrom.Some?)
    && DigestsAgree(s.plan.current, latest, deps, ReadDocument(w, s, step, a).value.dependencies)
  }

  /** The whole read side passes: no run can be blocked by it in such a state. */
  predicate Accepts(w: World, s: Store, latest: map<Id, Attempt>) {
    && (forall id | id in latest && SucceededIn(latest, id) :: id in s.plan.current.Ids())
    && (forall i | 0 <= i < |s.plan.current.steps| ::
          SucceededIn(latest, s.plan.current.steps[i].id) ==> StepAccepted(w, s, latest, s.plan.current.steps[i]))
  }

  ghost predicate DocumentsFor(w: World, s: Store, latest: map<Id, Attempt>, docs: map<Id, Document>) {
    var steps := s.plan.current.steps;
    && docs.Keys == SucceededPrefix(s.plan.current, latest, |steps|)
    && (forall i | 0 <= i < |steps| && steps[i].id in docs ::
          steps[i].id in latest && ReadDocument(w, s, steps[i], latest[steps[i].id]) == Some(docs[steps[i].id]))
  }

  /** The succeeded steps among the first `k`. */
  function SucceededPrefix(v: Version, latest: map<Id, Attempt>, k: nat): set<Id>
    requires k <= |v.steps|
  {
    set i | 0 <= i < k && SucceededIn(latest, v.steps[i].id) :: v.steps[i].id
  }

  lemma PrefixHoldsDependencies(v: Version, latest: map<Id, Attempt>, k: nat)
    requires WellFormed(v) && k < |v.steps|
    ensures forall d | d in v.Deps(v.steps[k].id) :: d in SucceededPrefix(v, latest, k) <==> SucceededIn(latest, d)
  {
  }

  /** `docs` are the documents of the succeeded steps among the first `k`, all of them acceptable. */
  ghost predicate Loaded(w: World, s: Store, latest: map<Id, Attempt>, docs: map<Id, Document>, k: nat) {
    var steps := s.plan.current.steps;
    && k <= |steps| && docs.Keys == SucceededPrefix(s.plan.current, latest, k)
    && (forall i | 0 <= i < k && steps[i].id in docs ::
          steps[i].id in latest && ReadDocument(w, s, steps[i], latest[steps[i].id]) == Some(docs[steps[i].id]))
    && (forall i | 0 <= i < k :: SucceededIn(latest, steps[i].id) ==> StepAccepted(w, s, latest, steps[i]))
  }

  lemma LoadOne(w: World, s: Store, latest: map<Id, Attempt>, docs: map<Id, Document>, k: nat, doc: Document)
    requires WellFormed(s.plan.current) && Loaded(w, s, latest, docs, k) && k < |s.plan.current.steps|
    requires var step := s.plan.current.steps[k];
      && SucceededIn(latest, step.id) && StepAccepted(w, s, latest, step)
      && ReadDocument(w, s, step, latest[step.id]) == Some(doc)
    ensures Loaded(w, s, latest, docs[s.plan.current.steps[k].id := doc], k + 1)
  {
    hide ReadDocument, StepAccepted, SucceededPrefix, WellFormed;
    var v := s.plan.current;
    PrefixGrows(v, latest, k);
    EarlierIdsDiffer(v, k);
  }

  lemma PrefixGrows(v: Version, latest: map<Id, Attempt>, k: nat)
    requires k < |v.steps|
    ensures SucceededPrefix(v, latest, k + 1)
         == SucceededPrefix(v, latest, k) + (if SucceededIn(latest, v.steps[k].id) then {v.steps[k].id} else {})
  {
    hide SucceededIn;
  }

  lemma EarlierIdsDiffer(v: Version, k: nat)
    requires WellFormed(v) && k < |v.steps|
    ensures forall i | 0 <= i < k :: v.steps[i].id != v.steps[k].id
  {
  }

  lemma LoadNone(w: World, s: Store, latest: map<Id, Attempt>, docs: map<Id, Document>, k: nat)
    requires Loaded(w, s, latest, docs, k) && k < |s.plan.current.steps|
    requires !SucceededIn(latest, s.plan.current.steps[k].id)
    ensures Loaded(w, s, latest, docs, k + 1)
  {
    hide ReadDocument, StepAccepted, SucceededIn, SucceededPrefix;
    PrefixGrows(s.plan.current, latest, k);
    PrefixSucceeded(s.plan.current, latest, k);
  }

  lemma PrefixSucceeded(v: Version, latest: map<Id, Attempt>, k: nat)
    requires k <= |v.steps|
    ensures forall id | id in SucceededPrefix(v, latest, k) :: SucceededIn(latest, id)
  {
    hide SucceededIn;
  }

  lemma LoadBegins(w: World, s: Store, latest: map<Id, Attempt>)
    ensures Loaded(w, s, latest, map[], 0)
  {
    hide ReadDocument, StepAccepted;
  }

  lemma LoadedAll(w: World, s: Store, latest: map<Id, Attempt>, docs: map<Id, Document>)
    requires Loaded(w, s, latest, docs, |s.plan.current.steps|)
    requires forall id | id in latest && SucceededIn(latest, id) :: id in s.plan.current.Ids()
    ensures Accepts(w, s, latest) && DocumentsFor(w, s, latest, docs)
  {
    hide ReadDocument, StepAccepted, SucceededIn, SucceededPrefix;
  }

  /** One step: its document and what is recorded of its dependencies. */
  method ReadStep(w: World, s: Store, latest: map<Id, Attempt>, docs: map<Id, Document>, k: nat)
    returns (r: Option<Document>)
    requires WellFormed(s.plan.current) && Loaded(w, s, latest, docs, k) && k < |s.plan.current.steps|
    requires SucceededIn(latest, s.plan.current.steps[k].id)
    ensures r.Some? <==> StepAccepted(w, s, latest, s.plan.current.steps[k])
    ensures r.Some? ==> r == ReadDocument(w, s, s.plan.current.steps[k], latest[s.plan.current.steps[k].id])
  {
    hide ReadDocument, DigestsAgree, LineageAgrees, WellFormed, SucceededPrefix;
    var v, step := s.plan.current, s.plan.current.steps[k];
    r := ReadDocument(w, s, step, latest[step.id]);
    if r.None? {
      return;
    }
    PrefixHoldsDependencies(v, latest, k);
    var ok := CheckDependencies(v, latest, step, docs, r.value.dependencies);
    if !ok {
      r := None;
    }
  }

  /** `_load_succeeded_results`: reads steps in ordinal order and stops at the first that fails.
      It succeeds exactly when every succeeded step is acceptable, whatever the order. */
  method LoadSucceededResults(w: World, s: Store, latest: map<Id, Attempt>) returns (r: Option<map<Id, Document>>)
    requires WellFormed(s.plan.current)
    ensures r.Some? <==> Accepts(w, s, latest)
    ensures r.Some? ==> DocumentsFor(w, s, latest, r.value)
  {
    hide StepAccepted, Loaded, DocumentsFor, WellFormed;
    var v := s.plan.current;
    if exists id | id in latest :: latest[id].status.Succeeded? && id !in v.Ids() {
      return None;
    }
    var docs: map<Id, Document> := map[];
    LoadBegins(w, s, latest);
    for k := 0 to |v.steps|
      invariant Loaded(w, s, latest, docs, k)
    {
      var step := v.steps[k];
      if step.id in latest && latest[step.id].status.Succeeded? {
        var doc := ReadStep(w, s, latest, docs, k);
        if doc.None? {
          return None;
        }
        LoadOne(w, s, latest, docs, k, doc.value);
        docs := docs[step.id := doc.value];
      } else {
        LoadNone(w, s, latest, docs, k);
      }
    }
    LoadedAll(w, s, latest, docs);
    return Some(docs);
  }

  /** The dependency half of one step's check, over the documents gathered so far. */
  method CheckDependencies(
    v: Version, latest: map<Id, Attempt>, step: Step, docs: map<Id, Document>, recorded: map<Id, Digest>)
    returns (ok: bool)
    requires WellFormed(v) && step in v.steps && step.id in latest
    requires forall d | d in v.Deps(step.id) :: d in docs <==> SucceededIn(latest, d)
    ensures ok <==> LineageAgrees(latest, v.Deps(step.id), latest[step.id].reusedFrom.Some?)
                    && DigestsAgree(v, latest, v.Deps(step.id), recorded)
  {
    var deps := v.Deps(step.id);
    if exists d :: d in deps && d !in docs {
      return false;
    }
    KeysInjective(v, step);
    var expected := ExpectedDigests(v, latest, deps, latest[step.id].reusedFrom.Some?);
    if expected.None? {
      return false;
    }
    AgreeIsEquality(v, latest, deps, recorded, expected.value);
    ok := recorded == expected.value;
  }

  /** Collects the digests the document must have recorded, refusing a reused step whose
      dependency was not itself reused. */
  method ExpectedDigests(v: Version, latest: map<Id, Attempt>, deps: seq<Id>, reused: bool)
    returns (r: Option<map<Id, Digest>>)
    requires forall d | d in deps :: SucceededIn(latest, d)
    requires forall d, e | d in deps && e in deps && KeyOf(v, d) == KeyOf(v, e) :: d == e
    ensures r.Some? <==> LineageAgrees(latest, deps, reused) && forall d | d in deps :: latest[d].digest.Some?
    ensures r.Some? ==> DigestsAgree(v, latest, deps, r.value)
  {
    var expected: map<Id, Digest> := map[];
    for n := 0 to |deps|
      invariant DigestsAgree(v, latest, deps[..n], expected)
      invariant LineageAgrees(latest, deps[..n], reused)
    {
      hide KeyOf, DigestsAgree;
      var d := deps[n];
      assert SucceededIn(latest, d);
      if latest[d].digest.None? || (reused && latest[d].reusedFrom.None?) {
        return None;
      }
      assert deps[..n + 1] == deps[..n] + [d];
      assert forall e | e in deps[..n] :: e in deps;
      OneMoreDigest(v, latest, deps[..n], d, expected);
      expected := expected[KeyOf(v, d) := latest[d].digest.value];
    }
    assert deps[..|deps|] == deps;
    r := Some(expected);
  }

  lemma OneMoreDigest(v: Version, latest: map<Id, Attempt>, deps: seq<Id>, d: Id, expected: map<Id, Digest>)
    requires DigestsAgree(v, latest, deps, expected) && d in latest && latest[d].digest.Some?
    requires forall e | e in deps && KeyOf(v, d) == KeyOf(v, e) :: d == e
    ensures DigestsAgree(v, latest, deps + [d], expected[KeyOf(v, d) := latest[d].digest.value])
  {
    hide KeyOf;
  }

  lemma AgreeIsEquality(v: Version, latest: map<Id, Attempt>, deps: seq<Id>, m: map<Id, Digest>, n: map<Id, Digest>)
    requires DigestsAgree(v, latest, deps, n)
    ensures m == n <==> DigestsAgree(v, latest, deps, m)
  {
    if DigestsAgree(v, latest, deps, m) {
      forall k | k in m ensures m[k] == n[k] {
        var d :| d in deps && KeyOf(v, d) == k;
      }
    }
  }

  lemma KeysInjective(v: Version, step: Step)
    requires WellFormed(v) && step in v.steps
    ensures forall d | d in v.Deps(step.id) :: d in v.Ids() && FindStep(v.steps, d).Some?
    ensures forall d, e | d in v.Ids() && e in v.Ids() && KeyOf(v, d) == KeyOf(v, e) :: d == e
  {
    DependenciesAreSteps(v, step);
    hide WellFormed, KeyOf;
    forall d, e | d in v.Ids() && e in v.Ids() && KeyOf(v, d) == KeyOf(v, e)
      ensures d == e
    {
      KeyNamesOneStep(v, d, e);
    }
  }

  lemma DependenciesAreSteps(v: Version, step: Step)
    requires WellFormed(v) && step in v.steps
    ensures forall d | d in v.Deps(step.id) :: d in v.Ids() && FindStep(v.steps, d).Some?
  {
    hide FindStep;
    var i :| 0 <= i < |v.steps| && v.steps[i] == step;
    forall d | d in v.Deps(step.id)
      ensures d in v.Ids() && FindStep(v.steps, d).Some?
    {
      var j :| 0 <= j < i && v.steps[j].id == d;
      assert v.steps[j] in v.steps;
    }
  }

  lemma KeyNamesOneStep(v: Version, d: Id, e: Id)
    requires WellFormed(v) && d in v.Ids() && e in v.Ids() && KeyOf(v, d) == KeyOf(v, e)
    ensures d == e
  {
    var x, y := FindStep(v.steps, d).value, FindStep(v.steps, e).value;
    var j :| 0 <= j < |v.steps| && v.steps[j] == x;
    var k :| 0 <= k < |v.steps| && v.steps[k] == y;
  }

  // ---------------------------------------------------------------- the two checkers agree

  /** The row `create_reused_step_attempt` inserts: a copy of the source's result. */
  function ReusedRow(w: World, s: Store, step: Step, freshId: Id): Attempt
    requires ReuseSource(w, s, step).Some?
  {
    var source := ReuseSource(w, s, step).value.1;
    Attempt(freshId, w.runId, s.plan.id, s.plan.current.number, step.id, 1, Succeeded,
            source.summary, source.ref, source.digest, Some(source.id))
  }

  predicate FreshId(s: Store, id: Id) {
    forall a | a in s.rows :: a.id != id && a.reusedFrom != Some(id)
  }

  /** The state after one reuse. */
  function WithReuse(w: World, s: Store, step: Step, freshId: Id): Store
    requires ReuseSource(w, s, step).Some?
  {
    s.(rows := s.rows + [ReusedRow(w, s, step, freshId)])
  }

  /** The source of a reusable step is found again, by version and step, from the row alone. */
  lemma OriginOfReuse(w: World, env: Environment, s: Store, step: Step, freshId: Id)
    requires WellFormedPlan(s.plan) && DistinctIds(s.rows) && FreshId(s, freshId)
    requires step in s.plan.current.steps && Reusable(w, env, s, Current(w, s), step)
    ensures var (source, run, doc) := ReuseSource(w, s, step).value;
            Origin(w, WithReuse(w, s, step, freshId), step, ReusedRow(w, s, step, freshId)) == Some((run, source))
  {
    hide ReuseDocument, ProofHolds;
    var (source, run, doc) := ReuseSource(w, s, step).value;
    var version := FindAnywhere(s.plan.versions, step.supersedes.value).value.0;
    FindAttemptUnique(s.rows, run);
    FindAttemptAppend(s.rows, ReusedRow(w, s, step, freshId), w.runId, run.id);
    FindVersionUnique(s.plan, version);
    FindStepUnique(version, source);
  }

  /** What the writing checker proved about the document is what the reading checker asks of it. */
  lemma ReuseIsReadable(w: World, env: Environment, s: Store, step: Step, freshId: Id)
    requires WellFormedPlan(s.plan) && DistinctIds(s.rows) && FreshId(s, freshId)
    requires step in s.plan.current.steps && Reusable(w, env, s, Current(w, s), step)
    ensures ReadDocument(w, WithReuse(w, s, step, freshId), step, ReusedRow(w, s, step, freshId))
            == Some(ReuseSource(w, s, step).value.2)
  {
    OriginOfReuse(w, env, s, step, freshId);
    hide Origin, ProofHolds;
  }

  lemma ProofAt(w: World, s: Store, latest: map<Id, Attempt>, step: Step, d: Id)
    requires WellFormedPlan(s.plan) && step in s.plan.current.steps && d in s.plan.current.Deps(step.id)
    requires DependenciesProved(w, s, latest, s.plan.current.Deps(step.id))
    ensures var m := Proofs(w, s, latest, s.plan.current.Deps(step.id));
            var k := KeyOf(s.plan.current, d);
            k in m && Some(m[k]) == DependencyProof(w, s, latest, d)
  {
    hide ReuseDocument, WellFormedPlan;
    var deps := s.plan.current.Deps(step.id);
    var m := Proofs(w, s, latest, deps);
    var k := KeyOf(s.plan.current, d);
    DistinctKeys(s.plan, step);
    assert DependencyProof(w, s, latest, d).Some?;
    assert k == DependencyProof(w, s, latest, d).value.newStep.key;
    var e :| e in deps && m[k] == DependencyProof(w, s, latest, e).value && k == m[k].newStep.key;
    assert DependencyProof(w, s, latest, e).Some?;
    assert KeyOf(s.plan.current, e) == k;
  }

  lemma DistinctKeys(p: Plan, step: Step)
    requires WellFormedPlan(p) && step in p.current.steps
    ensures forall d, e | d in p.current.Deps(step.id) && e in p.current.Deps(step.id)
              && KeyOf(p.current, d) == KeyOf(p.current, e) :: d == e
  {
    KeysInjective(p.current, step);
  }

  lemma ReusedDependencyAgrees(w: World, env: Environment, s: Store, step: Step, d: Id)
    requires WellFormedPlan(s.plan)
    requires step in s.plan.current.steps && Reusable(w, env, s, Current(w, s), step)
    requires d in s.plan.current.Deps(step.id)
    ensures var recorded := ReuseSource(w, s, step).value.2.dependencies;
            && SucceededIn(Current(w, s), d) && Current(w, s)[d].reusedFrom.Some?
            && KeyOf(s.plan.current, d) in recorded
            && Current(w, s)[d].digest == Some(recorded[KeyOf(s.plan.current, d)])
  {
    hide ReuseDocument, ReuseSource;
    ProofAt(w, s, Current(w, s), step, d);
  }

  lemma RecordedKeys(w: World, env: Environment, s: Store, latest: map<Id, Attempt>, step: Step)
    requires Reusable(w, env, s, latest, step)
    ensures ReuseSource(w, s, step).value.2.dependencies.Keys
            == set d | d in s.plan.current.Deps(step.id) :: KeyOf(s.plan.current, d)
  {
    hide ReuseDocument, ReuseSource, ProofHolds;
    var deps := s.plan.current.Deps(step.id);
    assert forall d | d in deps :: DependencyProof(w, s, latest, d).Some?;
    assert forall d | d in deps :: KeyOf(s.plan.current, d) == DependencyProof(w, s, latest, d).value.newStep.key;
  }

  lemma ReusedDependenciesAgree(w: World, env: Environment, s: Store, step: Step)
    requires WellFormedPlan(s.plan)
    requires step in s.plan.current.steps && Reusable(w, env, s, Current(w, s), step)
    ensures var deps := s.plan.current.Deps(step.id);
            && LineageAgrees(Current(w, s), deps, true)
            && DigestsAgree(s.plan.current, Current(w, s), deps, ReuseSource(w, s, step).value.2.dependencies)
  {
    hide WellFormedPlan, Current, CanReuseResult, DependencyProof, Proofs;
    RecordedKeys(w, env, s, Current(w, s), step);
    forall d | d in s.plan.current.Deps(step.id)
      ensures SucceededIn(Current(w, s), d) && Current(w, s)[d].reusedFrom.Some?
      ensures Current(w, s)[d].digest == Some(ReuseSource(w, s, step).value.2.dependencies[KeyOf(s.plan.current, d)])
    {
      ReusedDependencyAgrees(w, env, s, step, d);
    }
  }

  /** An accepted step stays accepted in any later state that keeps the succeeded attempts and
      reads this step's document alike. */
  lemma AcceptedFrame(w: World, s: Store, s': Store, step: Step)
    requires s'.plan == s.plan && StepAcceptedNow(w, s, step)
    requires KeepsSucceeded(w, s, s')
    requires ReadDocument(w, s', step, Current(w, s)[step.id]) == ReadDocument(w, s, step, Current(w, s)[step.id])
    ensures StepAcceptedNow(w, s', step)
  {
    hide ReadDocument, Current;
    assert forall d | d in s.plan.current.Deps(step.id) :: SucceededIn(Current(w, s), d);
  }

  predicate KeepsSucceeded(w: World, s: Store, s': Store) {
    forall id | id in Current(w, s) && Current(w, s)[id].status.Succeeded? ::
      id in Current(w, s') && Current(w, s')[id] == Current(w, s)[id]
  }

  /** Documents read from earlier rows are not disturbed by a further row. */
  lemma AppendKeepsDocument(w: World, s: Store, extra: Attempt, step: Step, a: Attempt)
    requires ReadDocument(w, s, step, a).Some?
    ensures ReadDocument(w, s.(rows := s.rows + [extra]), step, a) == ReadDocument(w, s, step, a)
  {
    if a.reusedFrom.Some? {
      FindAttemptAppend(s.rows, extra, w.runId, a.reusedFrom.value);
    }
    assert Origin(w, s.(rows := s.rows + [extra]), step, a) == Origin(w, s, step, a);
    hide Origin;
  }

  /** Appending an attempt at a step that has not succeeded leaves every accepted step accepted. */
  lemma AppendKeepsAccepted(w: World, s: Store, extra: Attempt, step: Step)
    requires StepAcceptedNow(w, s, step) && !SucceededIn(Current(w, s), extra.stepId)
    ensures StepAcceptedNow(w, s.(rows := s.rows + [extra]), step)
  {
    hide ReadDocument, DigestsAgree, LineageAgrees, Latest;
    LatestAppend(s.rows, extra, s.plan.id, s.plan.current.number, w.runId);
    AppendKeepsDocument(w, s, extra, step, Current(w, s)[step.id]);
    AcceptedFrame(w, s, s.(rows := s.rows + [extra]), step);
  }

  predicate StepAcceptedNow(w: World, s: Store, step: Step) {
    SucceededIn(Current(w, s), step.id) && StepAccepted(w, s, Current(w, s), step)
  }

  lemma ReusedStepIsAccepted(w: World, env: Environment, s: Store, step: Step, freshId: Id)
    requires WellFormedPlan(s.plan) && DistinctIds(s.rows) && FreshId(s, freshId)
    requires step in s.plan.current.steps && Reusable(w, env, s, Current(w, s), step)
    ensures var s' := WithReuse(w, s, step, freshId);
            && step.id !in Current(w, s)
            && Current(w, s') == Current(w, s)[step.id := ReusedRow(w, s, step, freshId)]
            && StepAcceptedNow(w, s', step)
  {
    hide WellFormedPlan, DistinctIds, FreshId, Latest, ReuseSource, CanReuseResult, ReadDocument, LineageAgrees,
      DigestsAgree;
    var row := ReusedRow(w, s, step, freshId);
    LatestAppend(s.rows, row, s.plan.id, s.plan.current.number, w.runId);
    ReuseIsReadable(w, env, s, step, freshId);
    ReusedDependenciesAgree(w, env, s, step);
    DependenciesUntouched(s.plan.current, Current(w, s), row, s.plan.current.Deps(step.id),
                          ReuseSource(w, s, step).value.2.dependencies);
  }

  /** An attempt at a step that had none does not disturb the dependencies of anything. */
  lemma DependenciesUntouched(
    v: Version, latest: map<Id, Attempt>, extra: Attempt, deps: seq<Id>, recorded: map<Id, Digest>)
    requires LineageAgrees(latest, deps, true) && DigestsAgree(v, latest, deps, recorded)
    requires extra.stepId !in latest
    ensures LineageAgrees(latest[extra.stepId := extra], deps, true)
    ensures DigestsAgree(v, latest[extra.stepId := extra], deps, recorded)
  {
    assert forall d | d in deps :: SucceededIn(latest, d);
  }

  /** Agreement: whatever the writing checker lets through, the reading checker accepts, together
      with everything it accepted before. */
  lemma ReuseKeepsAccepts(w: World, env: Environment, s: Store, step: Step, freshId: Id)
    requires WellFormedPlan(s.plan) && DistinctIds(s.rows) && FreshId(s, freshId)
    requires Accepts(w, s, Current(w, s))
    requires step in s.plan.current.steps && Reusable(w, env, s, Current(w, s), step)
    ensures var s' := WithReuse(w, s, step, freshId);
            && Current(w, s') == Current(w, s)[step.id := ReusedRow(w, s, step, freshId)]
            && Accepts(w, s', Current(w, s'))
            && DistinctIds(s'.rows)
  {
    hide WellFormedPlan, CanReuseResult, DependenciesProved, Proofs, ReuseSource, StepAccepted, Current,
      DependencyProof;
    var s' := WithReuse(w, s, step, freshId);
    ReusedStepIsAccepted(w, env, s, step, freshId);
    assert step.id in s.plan.current.Ids();
    var steps := s.plan.current.steps;
    forall i | 0 <= i < |steps| && SucceededIn(Current(w, s'), steps[i].id)
      ensures StepAccepted(w, s', Current(w, s'), steps[i])
    {
      ReuseKeepsStep(w, s, step, ReusedRow(w, s, step, freshId), i);
    }
  }

  lemma ReuseKeepsStep(w: World, s: Store, step: Step, row: Attempt, i: nat)
    requires WellFormedPlan(s.plan) && Accepts(w, s, Current(w, s)) && step in s.plan.current.steps
    requires i < |s.plan.current.steps| && row.stepId == step.id && step.id !in Current(w, s)
    requires var s' := s.(rows := s.rows + [row]);
      && Current(w, s') == Current(w, s)[step.id := row] && StepAcceptedNow(w, s', step)
      && SucceededIn(Current(w, s'), s.plan.current.steps[i].id)
    ensures var s' := s.(rows := s.rows + [row]); StepAccepted(w, s', Current(w, s'), s.plan.current.steps[i])
  {
    hide WellFormedPlan, StepAccepted, Current;
    var other := s.plan.current.steps[i];
    if other.id == step.id {
      SameStep(s.plan, step, other);
    } else {
      assert SucceededIn(Current(w, s), other.id);
      AppendKeepsAccepted(w, s, row, other);
    }
  }

  lemma SameStep(p: Plan, a: Step, b: Step)
    requires WellFormedPlan(p) && a in p.current.steps && b in p.current.steps && a.id == b.id
    ensures a == b
  {
    FindStepUnique(p.current, a);
    FindStepUnique(p.current, b);
  }
}
