/** Reviewing the changes of several workspaces together, and exactly when the outcome is independent of
    the order in which they are given. */
module BatchReview {
  import opened Wrappers

  const MAX_DIFF_BYTES := 2 * 1024 * 1024
  const MAX_FILES := 2000

  /** What validating a workspace gives: its project, or why it is invalid. */
  datatype Root = Project(path: string) | Invalid(reason: string)

  /** `files` and `patch` are the workspace's diff, unless taking it fails for the reason `fault`. */
  datatype Workspace = Workspace(
    job: string, root: Root, base: string, fault: Option<string>, files: set<string>, patch: string, digest: string)

  datatype Binding = Binding(job: string, digest: string, base: string, root: Root)

  datatype Review =
    | Reviewed(patch: string, files: set<string>, bindings: seq<Binding>)
    | NoWorkspaces | InvalidWorkspace(reason: string) | MixedProjects | DuplicateJobs
    | DiffFailed(reason: string) | OverlappingFiles | TooLarge

  // ---------------------------------------------------------------- the order of job ids

  predicate AtMost(a: string, b: string) {
    a == [] || (b != [] && (a[0] < b[0] || (a[0] == b[0] && AtMost(a[1..], b[1..]))))
  }

  lemma {:induction false} OrderIsTotal(a: string, b: string)
    ensures AtMost(a, b) || AtMost(b, a)
    ensures AtMost(a, b) && AtMost(b, a) ==> a == b
  {
    if a != [] && b != [] && a[0] == b[0] {
      OrderIsTotal(a[1..], b[1..]);
      assert a == [a[0]] + a[1..] && b == [b[0]] + b[1..];
    }
  }

  lemma {:induction false} OrderIsTransitive(a: string, b: string, c: string)
    requires AtMost(a, b) && AtMost(b, c)
    ensures AtMost(a, c)
  {
    if a != [] && a[0] == b[0] && b[0] == c[0] {
      OrderIsTransitive(a[1..], b[1..], c[1..]);
    }
  }

  predicate Sorted(ws: seq<Workspace>) {
    forall i, j | 0 <= i < j < |ws| :: AtMost(ws[i].job, ws[j].job)
  }

  predicate DistinctJobs(ws: seq<Workspace>) {
    forall i, j | 0 <= i < j < |ws| :: ws[i].job != ws[j].job
  }

  // ---------------------------------------------------------------- sorting

  function Insert(w: Workspace, ws: seq<Workspace>): (r: seq<Workspace>)
    ensures multiset(r) == multiset(ws) + multiset{w}
  {
    if ws == [] || AtMost(w.job, ws[0].job) then [w] + ws
    else
      assert ws == [ws[0]] + ws[1..];
      [ws[0]] + Insert(w, ws[1..])
  }

  function Sort(ws: seq<Workspace>): (r: seq<Workspace>)
    ensures multiset(r) == multiset(ws)
  {
    if ws == [] then []
    else
      assert ws == [ws[0]] + ws[1..];
      Insert(ws[0], Sort(ws[1..]))
  }

  predicate Least(w: Workspace, ws: seq<Workspace>) {
    forall i | 0 <= i < |ws| :: AtMost(w.job, ws[i].job)
  }

  lemma PrependLeast(w: Workspace, ws: seq<Workspace>)
    requires Sorted(ws) && Least(w, ws)
    ensures Sorted([w] + ws)
  {
    hide AtMost;
  }

  lemma LeastOfInserted(v: Workspace, w: Workspace, ws: seq<Workspace>)
    requires Least(v, ws) && AtMost(v.job, w.job)
    ensures Least(v, Insert(w, ws))
  {
    hide AtMost;
    var r := Insert(w, ws);
    forall i | 0 <= i < |r|
      ensures AtMost(v.job, r[i].job)
    {
      assert r[i] in multiset(r);
      assert r[i] == w || r[i] in multiset(ws);
    }
  }

  lemma {:induction false} InsertKeepsSorted(w: Workspace, ws: seq<Workspace>)
    requires Sorted(ws)
    ensures Sorted(Insert(w, ws))
  {
    hide AtMost;
    if ws == [] {
      PrependLeast(w, ws);
    } else if AtMost(w.job, ws[0].job) {
      forall i | 0 <= i < |ws|
        ensures AtMost(w.job, ws[i].job)
      {
        if i > 0 {
          OrderIsTransitive(w.job, ws[0].job, ws[i].job);
        }
      }
      PrependLeast(w, ws);
    } else {
      InsertKeepsSorted(w, ws[1..]);
      OrderIsTotal(w.job, ws[0].job);
      LeastOfInserted(ws[0], w, ws[1..]);
      PrependLeast(ws[0], Insert(w, ws[1..]));
    }
  }

  lemma {:induction false} SortIsSorted(ws: seq<Workspace>)
    ensures Sorted(Sort(ws))
  {
    if ws != [] {
      SortIsSorted(ws[1..]);
      InsertKeepsSorted(ws[0], Sort(ws[1..]));
    }
  }

  // ---------------------------------------------------------------- distinct jobs

  function Jobs(ws: seq<Workspace>): set<string> {
    set w | w in ws :: w.job
  }

  lemma NoJobs()
    ensures Jobs([]) == {}
  {
  }

  lemma JobsGrow(ws: seq<Workspace>)
    requires ws != []
    ensures Jobs(ws) == Jobs(ws[..|ws| - 1]) + {ws[|ws| - 1].job}
    ensures forall i | 0 <= i < |ws| - 1 :: ws[i].job in Jobs(ws[..|ws| - 1])
  {
    var n := |ws| - 1;
    assert ws == ws[..n] + [ws[n]];
    assert forall i | 0 <= i < n :: ws[..n][i] == ws[i];
  }

  /** Comparing the number of job ids with the number of workspaces detects a repeated one. */
  lemma {:induction false} RepeatedJobIsSeen(ws: seq<Workspace>)
    ensures |Jobs(ws)| <= |ws|
    ensures |Jobs(ws)| == |ws| ==> DistinctJobs(ws)
  {
    hide Jobs;
    NoJobs();
    if ws != [] {
      var n := |ws| - 1;
      RepeatedJobIsSeen(ws[..n]);
      JobsGrow(ws);
    }
  }

  lemma SameMembers(a: seq<Workspace>, b: seq<Workspace>)
    requires multiset(a) == multiset(b)
    ensures |a| == |b| && Jobs(a) == Jobs(b) && forall w :: w in a <==> w in b
  {
    assert |a| == |multiset(a)| && |b| == |multiset(b)|;
    forall w: Workspace
      ensures w in a <==> w in b
    {
      assert w in multiset(a) <==> w in multiset(b);
    }
  }

  lemma FirstIsLeast(ws: seq<Workspace>, w: Workspace)
    requires Sorted(ws) && w in ws
    ensures AtMost(ws[0].job, w.job)
  {
    var i :| 0 <= i < |ws| && ws[i] == w;
    if i == 0 {
      OrderIsTotal(w.job, w.job);
    }
  }

  lemma FirstsAgree(a: seq<Workspace>, b: seq<Workspace>)
    requires Sorted(a) && Sorted(b) && DistinctJobs(a) && multiset(a) == multiset(b) && a != [] && b != []
    ensures a[0] == b[0]
  {
    hide AtMost, Sorted, Jobs;
    SameMembers(a, b);
    assert a[0] in a && b[0] in b;
    FirstIsLeast(a, b[0]);
    FirstIsLeast(b, a[0]);
    OrderIsTotal(a[0].job, b[0].job);
    var i :| 0 <= i < |a| && a[i] == b[0];
    assert i == 0;
  }

  lemma SameTails(a: seq<Workspace>, b: seq<Workspace>)
    requires a != [] && b != [] && a[0] == b[0] && multiset(a) == multiset(b)
    ensures multiset(a[1..]) == multiset(b[1..])
  {
    assert a == [a[0]] + a[1..] && b == [b[0]] + b[1..];
    assert multiset(a[1..]) == multiset(a) - multiset{a[0]};
    assert multiset(b[1..]) == multiset(b) - multiset{b[0]};
  }

  lemma SortedTail(ws: seq<Workspace>)
    requires ws != []
    ensures Sorted(ws) ==> Sorted(ws[1..])
    ensures DistinctJobs(ws) ==> DistinctJobs(ws[1..])
  {
    hide AtMost;
  }

  /** There is one way to sort workspaces with distinct jobs. */
  lemma {:induction false} SortedIsUnique(a: seq<Workspace>, b: seq<Workspace>)
    requires Sorted(a) && Sorted(b) && DistinctJobs(a) && multiset(a) == multiset(b)
    ensures a == b
    decreases |a|
  {
    hide AtMost, Jobs, Sorted, DistinctJobs;
    SameMembers(a, b);
    if a != [] {
      FirstsAgree(a, b);
      SameTails(a, b);
      SortedTail(a);
      SortedTail(b);
      SortedIsUnique(a[1..], b[1..]);
      assert a == [a[0]] + a[1..] && b == [b[0]] + b[1..];
    }
  }

  // ---------------------------------------------------------------- the review

  predicate SameProject(ws: seq<Workspace>) {
    forall v, w | v in ws && w in ws :: v.root == w.root && v.base == w.base
  }

  /** Take the diffs in order, refusing the first that overlaps or goes over a limit. */
  function Combined(ws: seq<Workspace>, patch: string, files: set<string>, bindings: seq<Binding>): Review {
    if ws == [] then Reviewed(patch, files, bindings)
    else
      var w := ws[0];
      if w.fault.Some? then DiffFailed(w.fault.value)
      else if files * w.files != {} then OverlappingFiles
      else if |patch + w.patch| > MAX_DIFF_BYTES || |files + w.files| > MAX_FILES then TooLarge
      else Combined(ws[1..], patch + w.patch, files + w.files, bindings + [Binding(w.job, w.digest, w.base, w.root)])
  }

  /** Why the first invalid workspace is invalid. */
  function FirstReason(ws: seq<Workspace>): (r: Option<string>)
    ensures r.None? <==> forall w | w in ws :: w.root.Project?
    ensures r.Some? ==> exists w :: w in ws && w.root == Invalid(r.value)
  {
    if ws == [] then None
    else
      assert ws == [ws[0]] + ws[1..] && ws[0] in ws;
      if ws[0].root.Invalid? then Some(ws[0].root.reason) else FirstReason(ws[1..])
  }

  function ReviewOf(ws: seq<Workspace>): Review {
    if ws == [] then NoWorkspaces
    else if FirstReason(ws).Some? then InvalidWorkspace(FirstReason(ws).value)
    else if !SameProject(ws) then MixedProjects
    else if |Jobs(ws)| != |ws| then DuplicateJobs
    else Combined(Sort(ws), "", {}, [])
  }

  method DiffBatch(workspaces: seq<Workspace>) returns (r: Review)
    ensures r == ReviewOf(workspaces)
  {
    if workspaces == [] {
      return NoWorkspaces;
    }
    for i := 0 to |workspaces|
      invariant FirstReason(workspaces) == FirstReason(workspaces[i..])
    {
      assert workspaces[i..][1..] == workspaces[i + 1..];
      if workspaces[i].root.Invalid? {
        return InvalidWorkspace(workspaces[i].root.reason);
      }
    }
    if !SameProject(workspaces) {
      return MixedProjects;
    }
    var ordered := Sort(workspaces);
    SameMembers(ordered, workspaces);
    if |Jobs(ordered)| != |ordered| {
      return DuplicateJobs;
    }
    var patch, files, bindings := "", {}, [];
    for i := 0 to |ordered|
      invariant Combined(ordered, "", {}, []) == Combined(ordered[i..], patch, files, bindings)
    {
      var w := ordered[i];
      assert ordered[i..][1..] == ordered[i + 1..];
      if w.fault.Some? {
        return DiffFailed(w.fault.value);
      }
      if files * w.files != {} {
        return OverlappingFiles;
      }
      files := files + w.files;
      patch := patch + w.patch;
      if |patch| > MAX_DIFF_BYTES || |files| > MAX_FILES {
        return TooLarge;
      }
      bindings := bindings + [Binding(w.job, w.digest, w.base, w.root)];
    }
    return Reviewed(patch, files, bindings);
  }

  /** All invalid workspaces are invalid for one reason. */
  predicate OneReason(ws: seq<Workspace>) {
    forall v, w | v in ws && w in ws && v.root.Invalid? && w.root.Invalid? :: v.root == w.root
  }

  lemma SameReason(a: seq<Workspace>, b: seq<Workspace>)
    requires OneReason(a) && forall w :: w in a <==> w in b
    ensures FirstReason(a) == FirstReason(b)
  {
    if FirstReason(a).Some? {
      var v :| v in a && v.root == Invalid(FirstReason(a).value);
      assert v in b;
      var w :| w in b && w.root == Invalid(FirstReason(b).value);
      assert w in a;
    }
  }

  /** Every order of workspaces that are valid, or invalid for one reason, gives the same review or the same
      refusal. */
  lemma OrderIsIrrelevant(a: seq<Workspace>, b: seq<Workspace>)
    requires multiset(a) == multiset(b) && OneReason(a)
    ensures ReviewOf(a) == ReviewOf(b)
  {
    hide FirstReason, Combined;
    SameMembers(a, b);
    SameReason(a, b);
    if |Jobs(a)| == |a| {
      var x, y := Sort(a), Sort(b);
      SortIsSorted(a);
      SortIsSorted(b);
      SameMembers(a, x);
      RepeatedJobIsSeen(x);
      SortedIsUnique(x, y);
    }
  }

  /** The workspaces with the one at `i` moved to the front. */
  function Fronted(ws: seq<Workspace>, i: nat): (r: seq<Workspace>)
    requires i < |ws|
    ensures multiset(r) == multiset(ws) && r != [] && r[0] == ws[i]
  {
    assert ws == ws[..i] + [ws[i]] + ws[i + 1..];
    [ws[i]] + ws[..i] + ws[i + 1..]
  }

  ghost predicate OrderIndependent(ws: seq<Workspace>) {
    forall other: seq<Workspace> | multiset(other) == multiset(ws) :: ReviewOf(other) == ReviewOf(ws)
  }

  /** Validation runs in the order given, so the outcome is independent of the order if and only if the invalid
      workspaces share one reason. */
  lemma OrderIndependentExactlyWhen(ws: seq<Workspace>)
    ensures OrderIndependent(ws) <==> OneReason(ws)
  {
    if OneReason(ws) {
      forall other: seq<Workspace> | multiset(other) == multiset(ws)
        ensures ReviewOf(other) == ReviewOf(ws)
      {
        OrderIsIrrelevant(ws, other);
      }
    } else {
      var v, w :| v in ws && w in ws && v.root.Invalid? && w.root.Invalid? && v.root != w.root;
      var i :| 0 <= i < |ws| && ws[i] == v;
      var j :| 0 <= j < |ws| && ws[j] == w;
      assert ReviewOf(Fronted(ws, i)) == InvalidWorkspace(v.root.reason);
      assert ReviewOf(Fronted(ws, j)) == InvalidWorkspace(w.root.reason);
      assert !(ReviewOf(Fronted(ws, i)) == ReviewOf(ws) && ReviewOf(Fronted(ws, j)) == ReviewOf(ws));
    }
  }

  /** A workspace without a path names the missing key, one whose path is elsewhere gives no reason: the two are
      refused differently in the two orders. */
  lemma ReasonsDependOnOrder(v: Workspace, w: Workspace)
    requires v.root == Invalid("'workspace_path'") && w.root == Invalid("")
    ensures ReviewOf([v, w]) == InvalidWorkspace("'workspace_path'") && ReviewOf([w, v]) == InvalidWorkspace("")
  {
  }

  function AllFiles(ws: seq<Workspace>): set<string> {
    if ws == [] then {} else ws[0].files + AllFiles(ws[1..])
  }

  function AllPatches(ws: seq<Workspace>): string {
    if ws == [] then "" else ws[0].patch + AllPatches(ws[1..])
  }

  predicate Disjoint(ws: seq<Workspace>) {
    forall i, j | 0 <= i < j < |ws| :: ws[i].files !! ws[j].files
  }

  lemma {:induction false} FilesOfEach(ws: seq<Workspace>, i: nat)
    requires i < |ws|
    ensures ws[i].files <= AllFiles(ws)
  {
    if i > 0 {
      FilesOfEach(ws[1..], i - 1);
    }
  }

  lemma {:induction false} CombinedPatch(ws: seq<Workspace>, patch: string, files: set<string>, bindings: seq<Binding>)
    requires Combined(ws, patch, files, bindings).Reviewed? && |patch| <= MAX_DIFF_BYTES
    ensures var r := Combined(ws, patch, files, bindings);
      r.patch == patch + AllPatches(ws) && |r.patch| <= MAX_DIFF_BYTES
    decreases |ws|
  {
    if ws != [] {
      var w, rest := ws[0], ws[1..];
      CombinedPatch(rest, patch + w.patch, files + w.files, bindings + [Binding(w.job, w.digest, w.base, w.root)]);
      assert patch + w.patch + AllPatches(rest) == patch + (w.patch + AllPatches(rest));
    }
  }

  lemma {:induction false} CombinedFiles(ws: seq<Workspace>, patch: string, files: set<string>, bindings: seq<Binding>)
    requires Combined(ws, patch, files, bindings).Reviewed? && |files| <= MAX_FILES
    ensures var r := Combined(ws, patch, files, bindings);
      r.files == files + AllFiles(ws) && |r.files| <= MAX_FILES
    decreases |ws|
  {
    if ws != [] {
      var w, rest := ws[0], ws[1..];
      CombinedFiles(rest, patch + w.patch, files + w.files, bindings + [Binding(w.job, w.digest, w.base, w.root)]);
      assert files + w.files + AllFiles(rest) == files + (w.files + AllFiles(rest));
    }
  }

  lemma {:induction false} CombinedIsDisjoint(
    ws: seq<Workspace>, patch: string, files: set<string>, bindings: seq<Binding>)
    requires Combined(ws, patch, files, bindings).Reviewed?
    ensures files !! AllFiles(ws) && Disjoint(ws)
    decreases |ws|
  {
    if ws != [] {
      var w, rest := ws[0], ws[1..];
      CombinedIsDisjoint(rest, patch + w.patch, files + w.files, bindings + [Binding(w.job, w.digest, w.base, w.root)]);
      FirstIsDisjoint(ws);
    }
  }

  lemma FirstIsDisjoint(ws: seq<Workspace>)
    requires ws != [] && ws[0].files !! AllFiles(ws[1..]) && Disjoint(ws[1..])
    ensures Disjoint(ws)
  {
    hide AllFiles;
    forall i, j | 0 <= i < j < |ws|
      ensures ws[i].files !! ws[j].files
    {
      FilesOfEach(ws[1..], j - 1);
      if i > 0 {
        assert ws[1..][i - 1].files !! ws[1..][j - 1].files;
      }
    }
  }

  /** A reviewed batch changes no file twice, is the concatenation of its members' patches by job id, and
      keeps within both limits. */
  lemma ReviewedBatchIsDisjoint(ws: seq<Workspace>)
    requires ReviewOf(ws).Reviewed?
    ensures var r, ordered := ReviewOf(ws), Sort(ws);
      && Sorted(ordered) && DistinctJobs(ordered) && multiset(ordered) == multiset(ws) && Disjoint(ordered)
      && r.patch == AllPatches(ordered) && r.files == AllFiles(ordered)
      && |r.patch| <= MAX_DIFF_BYTES && |r.files| <= MAX_FILES
  {
    hide Combined;
    var ordered := Sort(ws);
    SortIsSorted(ws);
    SameMembers(ws, ordered);
    RepeatedJobIsSeen(ordered);
    CombinedPatch(ordered, "", {}, []);
    CombinedFiles(ordered, "", {}, []);
    CombinedIsDisjoint(ordered, "", {}, []);
    assert "" + AllPatches(ordered) == AllPatches(ordered);
  }
}
