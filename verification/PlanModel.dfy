/** The durable records behind a plan run: plan versions and their steps, the attempts made
    at each step, and the result documents those attempts leave in session memory. */
module PlanModel {
  import opened Wrappers

  type Id = string
  type Digest = string

  datatype Status = Pending | Running | Succeeded | FailedRetryable | FailedTerminal | Cancelled {
    /** Statuses that stop the whole version from executing further. */
    predicate Terminal() {
      FailedTerminal? || Cancelled?
    }

    /** A step whose latest attempt has one of these statuses is never dispatched again. */
    predicate NonDispatchable() {
      Running? || Succeeded? || Terminal()
    }
  }

  datatype Step = Step(
    id: Id, key: Id, supersedes: Option<Id>, ordinal: nat, maxAttempts: nat, definition: Digest)

  datatype Version = Version(number: nat, steps: seq<Step>, dependencies: map<Id, seq<Id>>) {
    /** `dependencies.get(step_id, ())` */
    function Deps(stepId: Id): seq<Id> {
      if stepId in dependencies then dependencies[stepId] else []
    }

    function Ids(): set<Id> {
      set s | s in steps :: s.id
    }
  }

  /** `versions` holds every version, the current one included. */
  datatype Plan = Plan(id: Id, current: Version, versions: seq<Version>)

  datatype Attempt = Attempt(
    id: Id, runId: Id, planId: Id, version: nat, stepId: Id, number: nat, status: Status,
    summary: Option<string>, ref: Option<string>, digest: Option<Digest>, reusedFrom: Option<Id>)

  datatype Document = Document(
    planId: Id, version: nat, runId: Id, stepId: Id, attemptId: Id, number: nat, succeeded: bool,
    summary: string, evidence: seq<string>, definition: Digest, dependencies: map<Id, Digest>,
    env: Environment)

  /** A memory entry; `parsed` is what validating its content as a result document yields. */
  datatype Entry = Entry(
    kind: string, role: string, schema: int, planId: Id, attemptId: Id,
    encodable: bool, bytes: nat, parsed: Option<Document>)

  /** Digests of the tools, the policy and the skills in force, taken again for every reuse and every result. */
  datatype Environment = Environment(tools: Digest, policy: Digest, skills: Digest)

  /** The run's identity, its limits and the uninterpreted encodings it relies on. */
  datatype World = World(
    runId: Id, hash: Document -> Digest, size: Document -> nat, maxStepAttempts: nat, maxRevisions: nat, maxSteps: nat)

  /** One run's durable state: its plan and whether the current version is approved, every attempt
      made in the run, and the session's memory. */
  datatype Store = Store(plan: Plan, approved: bool, rows: seq<Attempt>, memory: map<Id, Entry>)

  const MAX_RESULT_BYTES := 262_144

  // ---------------------------------------------------------------- references into memory

  predicate IdChar(c: char) {
    'A' <= c <= 'Z' || 'a' <= c <= 'z' || '0' <= c <= '9' || c == '-'
  }

  predicate MemoryId(m: Id) {
    1 <= |m| <= 64 && forall i | 0 <= i < |m| :: IdChar(m[i])
  }

  function MakeRef(m: Id): string {
    "memory:" + m
  }

  function ParseRef(ref: string): (r: Option<Id>)
    ensures forall m :: ref == MakeRef(m) && MemoryId(m) ==> r == Some(m)
    ensures r.Some? ==> MemoryId(r.value) && ref == MakeRef(r.value)
  {
    if |ref| >= 7 && ref[..7] == "memory:" && MemoryId(ref[7..]) then
      assert ref == MakeRef(ref[7..]);
      Some(ref[7..])
    else
      assert forall m: Id :: MakeRef(m)[..7] == "memory:" && MakeRef(m)[7..] == m;
      None
  }

  // ---------------------------------------------------------------- lookups

  function FindStep(steps: seq<Step>, id: Id): (r: Option<Step>)
    ensures r.Some? ==> r.value in steps && r.value.id == id
    ensures r.None? ==> forall s | s in steps :: s.id != id
  {
    if steps == [] then None
    else if steps[0].id == id then Some(steps[0])
    else FindStep(steps[1..], id)
  }

  function FindVersion(versions: seq<Version>, number: nat): (r: Option<Version>)
    ensures r.Some? ==> r.value in versions && r.value.number == number
    ensures r.None? ==> forall v | v in versions :: v.number != number
  {
    if versions == [] then None
    else if versions[0].number == number then Some(versions[0])
    else FindVersion(versions[1..], number)
  }

  /** The index of every step of every version by id; a later version would win a clash. */
  function FindAnywhere(versions: seq<Version>, id: Id): (r: Option<(Version, Step)>)
    ensures r.Some? ==> r.value.0 in versions && r.value.1 in r.value.0.steps && r.value.1.id == id
    ensures r.None? ==> forall v, s | v in versions && s in v.steps :: s.id != id
  {
    if versions == [] then None
    else
      var last := versions[|versions| - 1];
      var found := FindStep(last.steps, id);
      if found.Some? then Some((last, found.value)) else FindAnywhere(versions[..|versions| - 1], id)
  }

  function FindAttempt(rows: seq<Attempt>, runId: Id, id: Id): (r: Option<Attempt>)
    ensures r.Some? ==> r.value in rows && r.value.id == id && r.value.runId == runId
    ensures r.None? ==> forall a | a in rows :: !(a.id == id && a.runId == runId)
  {
    if rows == [] then None
    else if rows[0].id == id && rows[0].runId == runId then Some(rows[0])
    else FindAttempt(rows[1..], runId, id)
  }

  predicate InScope(a: Attempt, planId: Id, version: nat, runId: Id) {
    a.planId == planId && a.version == version && a.runId == runId
  }

  /** Per step, the attempt with the highest number among the rows of one plan version. */
  function Latest(rows: seq<Attempt>, planId: Id, version: nat, runId: Id): (m: map<Id, Attempt>)
    ensures forall id | id in m :: m[id] in rows && m[id].stepId == id && InScope(m[id], planId, version, runId)
    ensures forall a | a in rows && InScope(a, planId, version, runId) ::
              a.stepId in m && a.number <= m[a.stepId].number
  {
    if rows == [] then map[]
    else
      Absorb(Latest(rows[..|rows| - 1], planId, version, runId), rows[|rows| - 1], planId, version, runId)
  }

  /** One more row: it replaces the step's attempt if its number is higher. */
  function Absorb(m: map<Id, Attempt>, a: Attempt, planId: Id, version: nat, runId: Id): map<Id, Attempt> {
    if InScope(a, planId, version, runId) && (a.stepId in m ==> m[a.stepId].number < a.number)
    then m[a.stepId := a] else m
  }

  function Current(w: World, s: Store): map<Id, Attempt> {
    Latest(s.rows, s.plan.id, s.plan.current.number, w.runId)
  }

  predicate DistinctIds(rows: seq<Attempt>) {
    forall i, j | 0 <= i < j < |rows| :: rows[i].id != rows[j].id
  }

  // ---------------------------------------------------------------- well-formed plans

  /** What loading a stored version checks: ids and keys are unique, ordinals count up from one,
      and every dependency is an earlier step of the same version. */
  predicate WellFormed(v: Version) {
    && (forall i | 0 <= i < |v.steps| :: v.steps[i].ordinal == i + 1)
    && (forall i, j | 0 <= i < j < |v.steps| :: v.steps[i].id != v.steps[j].id)
    && (forall i, j | 0 <= i < j < |v.steps| :: v.steps[i].key != v.steps[j].key)
    && (forall i | 0 <= i < |v.steps| ::
          forall d | d in v.Deps(v.steps[i].id) :: exists j :: 0 <= j < i && v.steps[j].id == d)
  }

  /** Step ids are unique over the whole plan, versions are numbered from one with the current
      one last, and a step supersedes a step of an earlier version. */
  predicate WellFormedPlan(p: Plan) {
    && |p.versions| > 0 && p.current == p.versions[|p.versions| - 1]
    && (forall k | 0 <= k < |p.versions| :: p.versions[k].number == k + 1 && WellFormed(p.versions[k]))
    && (forall k, l | 0 <= k < l < |p.versions| :: p.versions[k].Ids() !! p.versions[l].Ids())
    && (forall st | st in p.current.steps && st.supersedes.Some? :: st.supersedes.value !in p.current.Ids())
  }

  lemma FindStepUnique(v: Version, s: Step)
    requires WellFormed(v) && s in v.steps
    ensures FindStep(v.steps, s.id) == Some(s)
  {
    var f := FindStep(v.steps, s.id).value;
    var i :| 0 <= i < |v.steps| && v.steps[i] == s;
    var j :| 0 <= j < |v.steps| && v.steps[j] == f;
  }

  lemma FindVersionUnique(p: Plan, v: Version)
    requires WellFormedPlan(p) && v in p.versions
    ensures FindVersion(p.versions, v.number) == Some(v)
  {
    var f := FindVersion(p.versions, v.number).value;
    var i :| 0 <= i < |p.versions| && p.versions[i] == v;
    var j :| 0 <= j < |p.versions| && p.versions[j] == f;
  }

  lemma FindAttemptUnique(rows: seq<Attempt>, a: Attempt)
    requires DistinctIds(rows) && a in rows
    ensures FindAttempt(rows, a.runId, a.id) == Some(a)
  {
    var f := FindAttempt(rows, a.runId, a.id).value;
    var i :| 0 <= i < |rows| && rows[i] == a;
    var j :| 0 <= j < |rows| && rows[j] == f;
  }

  /** Appending a row keeps every lookup that already succeeded. */
  lemma FindAttemptAppend(rows: seq<Attempt>, extra: Attempt, runId: Id, id: Id)
    requires FindAttempt(rows, runId, id).Some? || extra.id != id
    ensures FindAttempt(rows + [extra], runId, id) == FindAttempt(rows, runId, id)
  {
    if rows == [] {
      assert (rows + [extra])[1..] == [];
    } else {
      assert (rows + [extra])[1..] == rows[1..] + [extra];
      if !(rows[0].id == id && rows[0].runId == runId) {
        FindAttemptAppend(rows[1..], extra, runId, id);
      }
    }
  }

  lemma LatestAppend(rows: seq<Attempt>, extra: Attempt, planId: Id, version: nat, runId: Id)
    ensures Latest(rows + [extra], planId, version, runId)
            == Absorb(Latest(rows, planId, version, runId), extra, planId, version, runId)
  {
    assert (rows + [extra])[..|rows|] == rows;
  }

  /** Finishing an attempt rewrites its row in place. */
  predicate SameIdentity(a: Attempt, b: Attempt) {
    a.id == b.id && a.runId == b.runId && a.planId == b.planId && a.version == b.version
    && a.stepId == b.stepId && a.number == b.number
  }

  lemma {:induction false} LatestUpdate(rows: seq<Attempt>, i: nat, r: Attempt, planId: Id, version: nat, runId: Id)
    requires i < |rows| && DistinctIds(rows) && SameIdentity(rows[i], r)
    ensures Latest(rows[i := r], planId, version, runId) == Replace(Latest(rows, planId, version, runId), rows[i], r)
    decreases |rows|
  {
    hide *;
    if i == |rows| - 1 {
      UpdateLast(rows, r, planId, version, runId);
    } else {
      DistinctPrefix(rows, |rows| - 1);
      LatestUpdate(rows[..|rows| - 1], i, r, planId, version, runId);
      UpdateEarlier(rows, i, r, planId, version, runId);
    }
  }

  lemma DistinctPrefix(rows: seq<Attempt>, n: nat)
    requires DistinctIds(rows) && n <= |rows|
    ensures DistinctIds(rows[..n])
  {
  }

  lemma UpdateLast(rows: seq<Attempt>, r: Attempt, planId: Id, version: nat, runId: Id)
    requires rows != [] && DistinctIds(rows) && SameIdentity(rows[|rows| - 1], r)
    ensures Latest(rows[|rows| - 1 := r], planId, version, runId)
         == Replace(Latest(rows, planId, version, runId), rows[|rows| - 1], r)
  {
    hide Absorb, Replace, Latest, SameIdentity;
    var n := |rows| - 1;
    assert rows == rows[..n] + [rows[n]] && rows[n := r] == rows[..n] + [r];
    LatestAppend(rows[..n], rows[n], planId, version, runId);
    LatestAppend(rows[..n], r, planId, version, runId);
    AbsorbInstead(Latest(rows[..n], planId, version, runId), rows[n], r, planId, version, runId);
  }

  lemma UpdateEarlier(rows: seq<Attempt>, i: nat, r: Attempt, planId: Id, version: nat, runId: Id)
    requires i < |rows| - 1 && DistinctIds(rows) && SameIdentity(rows[i], r)
    requires Latest(rows[..|rows| - 1][i := r], planId, version, runId)
          == Replace(Latest(rows[..|rows| - 1], planId, version, runId), rows[i], r)
    ensures Latest(rows[i := r], planId, version, runId) == Replace(Latest(rows, planId, version, runId), rows[i], r)
  {
    hide Absorb, Replace, Latest, SameIdentity;
    var n := |rows| - 1;
    assert rows == rows[..n] + [rows[n]] && rows[i := r] == rows[..n][i := r] + [rows[n]];
    LatestAppend(rows[..n], rows[n], planId, version, runId);
    LatestAppend(rows[..n][i := r], rows[n], planId, version, runId);
    AbsorbReplaced(Latest(rows[..n], planId, version, runId), rows[i], r, rows[n], planId, version, runId);
  }

  lemma AbsorbInstead(m: map<Id, Attempt>, a: Attempt, b: Attempt, planId: Id, version: nat, runId: Id)
    requires SameIdentity(a, b) && forall id | id in m :: m[id].id != a.id
    ensures Absorb(m, b, planId, version, runId) == Replace(Absorb(m, a, planId, version, runId), a, b)
  {
  }

  function Replace(m: map<Id, Attempt>, before: Attempt, after: Attempt): map<Id, Attempt> {
    if after.stepId in m && m[after.stepId] == before then m[after.stepId := after] else m
  }

  lemma AbsorbReplaced(m: map<Id, Attempt>, a: Attempt, b: Attempt, next: Attempt, planId: Id, version: nat, runId: Id)
    requires SameIdentity(a, b) && next.id != a.id && forall id | id in m :: m[id].stepId == id
    ensures Absorb(Replace(m, a, b), next, planId, version, runId)
         == Replace(Absorb(m, next, planId, version, runId), a, b)
  {
  }

  lemma FindAttemptUpdate(rows: seq<Attempt>, i: nat, r: Attempt, runId: Id, id: Id)
    requires i < |rows| && rows[i].id == r.id && id != r.id
    ensures FindAttempt(rows[i := r], runId, id) == FindAttempt(rows, runId, id)
  {
    if i == 0 {
      assert rows[i := r][1..] == rows[1..];
    } else {
      assert rows[i := r][1..] == rows[1..][i - 1 := r];
      FindAttemptUpdate(rows[1..], i - 1, r, runId, id);
    }
  }
}
