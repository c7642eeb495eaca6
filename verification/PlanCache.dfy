/** The browser's plan cache: refresh requests overlap with each other and with session changes, and
    their responses arrive in any order. */
module PlanCache {
  import opened Wrappers

  datatype Plan = Plan(id: string, version: nat, body: string)

  datatype View = View(
    session: Option<string>, plans: map<string, Plan>, loading: map<string, bool>, errors: map<string, string>)

  /** A request whose response has not arrived; `generation` is the number of resets before it. */
  datatype Flight = Flight(session: string, plan: string, epoch: nat, generation: nat)

  /** `view`, `epochs` and `next` are the module's variables; `flights`, `generation` and `floor` (the
      last epoch before the latest reset) describe the requests under way. */
  datatype Store = Store(
    view: View, epochs: map<string, nat>, next: nat, flights: seq<Flight>, generation: nat, floor: nat)

  const EMPTY := Store(View(None, map[], map[], map[]), map[], 0, [], 0, 0)

  function Key(session: string, plan: string): string {
    session + ":" + plan
  }

  lemma KeysDiffer(session: string, a: string, b: string)
    requires a != b
    ensures Key(session, a) != Key(session, b)
  {
    assert Key(session, a)[|session| + 1..] == a && Key(session, b)[|session| + 1..] == b;
  }

  /** The response would be published: its session is shown and no newer request was made for its plan. */
  predicate Current(s: Store, f: Flight) {
    && s.view.session == Some(f.session)
    && Key(f.session, f.plan) in s.epochs && s.epochs[Key(f.session, f.plan)] == f.epoch
  }

  // ---------------------------------------------------------------- steps

  function Begin(s: Store, session: string, plan: string): Store {
    if s.view.session != Some(session) then s
    else
      var epoch := s.next + 1;
      s.(next := epoch, epochs := s.epochs[Key(session, plan) := epoch],
         view := s.view.(loading := s.view.loading[plan := true], errors := s.view.errors[plan := ""]),
         flights := s.flights + [Flight(session, plan, epoch, s.generation)])
  }

  function Without(s: Store, k: nat): Store
    requires k < |s.flights|
  {
    s.(flights := s.flights[..k] + s.flights[k + 1..])
  }

  /** What a response makes of the view: an older version of the plan is dropped. */
  function Published(view: View, requested: string, plan: Plan): View {
    if requested in view.plans && view.plans[requested].version > plan.version
    then view.(loading := view.loading[requested := false])
    else view.(plans := view.plans[plan.id := plan], loading := view.loading[plan.id := false],
               errors := view.errors[plan.id := ""])
  }

  function Receive(s: Store, k: nat, plan: Plan): Store
    requires k < |s.flights|
  {
    if Current(s, s.flights[k]) then Without(s, k).(view := Published(s.view, s.flights[k].plan, plan))
    else Without(s, k)
  }

  function Fail(s: Store, k: nat, message: string): Store
    requires k < |s.flights|
  {
    var p := s.flights[k].plan;
    if Current(s, s.flights[k])
    then Without(s, k).(view := s.view.(loading := s.view.loading[p := false], errors := s.view.errors[p := message]))
    else Without(s, k)
  }

  function Reset(s: Store, session: Option<string>): Store {
    Store(View(session, map[], map[], map[]), map[], s.next, s.flights, s.generation + 1, s.next)
  }

  datatype Event =
    | Refreshing(session: string, plan: string)
    | Received(flight: nat, response: Plan)
    | Failed(flight: nat, message: string)
    | Resetting(to: Option<string>)

  predicate Enabled(s: Store, e: Event) {
    match e
    case Received(k, _) => k < |s.flights|
    case Failed(k, _) => k < |s.flights|
    case _ => true
  }

  function Next(s: Store, e: Event): Store
    requires Enabled(s, e)
  {
    match e
    case Refreshing(session, plan) => Begin(s, session, plan)
    case Received(k, plan) => Receive(s, k, plan)
    case Failed(k, message) => Fail(s, k, message)
    case Resetting(session) => Reset(s, session)
  }

  // ---------------------------------------------------------------- invariant

  predicate FlightsSound(s: Store) {
    && s.floor <= s.next
    && (forall k | 0 <= k < |s.flights| :: s.flights[k].epoch <= s.next && s.flights[k].generation <= s.generation)
    && (forall k, l | 0 <= k < l < |s.flights| :: s.flights[k].epoch != s.flights[l].epoch)
    && (forall k | 0 <= k < |s.flights| :: s.flights[k].generation == s.generation <==> s.flights[k].epoch > s.floor)
    && (forall k | 0 <= k < |s.flights| ::
          s.flights[k].generation == s.generation ==> s.view.session == Some(s.flights[k].session))
  }

  predicate EpochsSound(s: Store) {
    forall key | key in s.epochs :: s.floor < s.epochs[key] <= s.next
  }

  predicate Sound(s: Store) {
    FlightsSound(s) && EpochsSound(s)
  }

  lemma RemovingKeepsSound(s: Store, k: nat, t: Store)
    requires Sound(s) && k < |s.flights| && t == Without(s, k).(view := t.view) && t.view.session == s.view.session
    ensures Sound(t)
  {
    assert forall i | 0 <= i < |t.flights| :: t.flights[i] == s.flights[if i < k then i else i + 1];
  }

  lemma BeginKeepsSound(s: Store, session: string, plan: string)
    requires Sound(s)
    ensures Sound(Begin(s, session, plan))
  {
  }

  lemma NextKeepsSound(s: Store, e: Event)
    requires Sound(s) && Enabled(s, e)
    ensures Sound(Next(s, e))
  {
    hide Begin;
    match e
    case Refreshing(session, plan) => BeginKeepsSound(s, session, plan);
    case Received(k, plan) => RemovingKeepsSound(s, k, Next(s, e));
    case Failed(k, _) => RemovingKeepsSound(s, k, Next(s, e));
    case Resetting(_) =>
  }

  /** A response to a request made before the latest reset changes nothing, even when the same session is
      shown again. */
  lemma StaleResponsesAreIgnored(s: Store, e: Event)
    requires Sound(s) && Enabled(s, e) && (e.Received? || e.Failed?)
    requires s.flights[e.flight].generation != s.generation
    ensures Next(s, e) == Without(s, e.flight)
  {
    assert s.flights[e.flight].epoch <= s.floor;
  }

  // ---------------------------------------------------------------- versions

  /** The server answers with the plan that was asked for. */
  predicate Echoes(s: Store, e: Event)
    requires Enabled(s, e)
  {
    e.Received? ==> e.response.id == s.flights[e.flight].plan
  }

  predicate VersionsKept(s: Store, t: Store) {
    forall p | p in s.view.plans :: p in t.view.plans && s.view.plans[p].version <= t.view.plans[p].version
  }

  /** Which responses lower a cached version: those that are published for another plan than was asked
      for, over a newer version of it. */
  predicate Lowers(s: Store, e: Event)
    requires Enabled(s, e)
  {
    && e.Received? && Current(s, s.flights[e.flight])
    && e.response.id in s.view.plans && s.view.plans[e.response.id].version > e.response.version
    && !(s.flights[e.flight].plan in s.view.plans
         && s.view.plans[s.flights[e.flight].plan].version > e.response.version)
  }

  /** Between resets versions never decrease, exactly when no such response arrives; a server that echoes
      the plan never sends one. */
  lemma VersionsOnlyGrow(s: Store, e: Event)
    requires Enabled(s, e) && !e.Resetting?
    ensures VersionsKept(s, Next(s, e)) <==> !Lowers(s, e)
    ensures Echoes(s, e) ==> !Lowers(s, e)
  {
    if Lowers(s, e) {
      assert e.response.id in s.view.plans;
    }
  }

  // ---------------------------------------------------------------- loading

  predicate Loading(s: Store, p: string) {
    p in s.view.loading && s.view.loading[p]
  }

  predicate InFlight(s: Store, p: string) {
    exists k | 0 <= k < |s.flights| :: s.flights[k].plan == p && Current(s, s.flights[k])
  }

  ghost predicate LoadingIsExact(s: Store) {
    forall p :: Loading(s, p) <==> InFlight(s, p)
  }

  lemma BeginLoads(s: Store, session: string, plan: string)
    requires Sound(s) && LoadingIsExact(s)
    ensures LoadingIsExact(Begin(s, session, plan))
  {
    var t := Begin(s, session, plan);
    if s.view.session == Some(session) {
      forall p: string
        ensures Loading(t, p) <==> InFlight(t, p)
      {
        assert Loading(s, p) <==> InFlight(s, p);
        if p == plan {
          assert Current(t, t.flights[|s.flights|]);
        } else {
          KeysDiffer(session, p, plan);
          OthersStayInFlight(s, t, p);
        }
      }
    }
  }

  lemma OthersStayInFlight(s: Store, t: Store, p: string)
    requires |s.flights| <= |t.flights| && t.flights[..|s.flights|] == s.flights
    requires forall k | |s.flights| <= k < |t.flights| :: t.flights[k].plan != p
    requires forall k | 0 <= k < |s.flights| && s.flights[k].plan == p ::
      Current(s, s.flights[k]) <==> Current(t, s.flights[k])
    ensures InFlight(s, p) <==> InFlight(t, p)
  {
    if InFlight(s, p) {
      var k :| 0 <= k < |s.flights| && s.flights[k].plan == p && Current(s, s.flights[k]);
      assert t.flights[k] == s.flights[k];
    }
    if InFlight(t, p) {
      var k :| 0 <= k < |t.flights| && t.flights[k].plan == p && Current(t, t.flights[k]);
      assert k < |s.flights| && t.flights[k] == s.flights[k];
    }
  }

  /** Removing a request leaves the others under way as they were. */
  lemma RemovalExact(s: Store, k: nat, t: Store, p: string)
    requires Sound(s) && k < |s.flights| && t == Without(s, k).(view := t.view) && t.view.session == s.view.session
    ensures s.flights[k].plan != p || !Current(s, s.flights[k]) ==> (InFlight(t, p) <==> InFlight(s, p))
    ensures s.flights[k].plan == p && Current(s, s.flights[k]) ==> !InFlight(t, p)
  {
    hide Sound, InFlight;
    if InFlight(s, p) {
      StaysInFlight(s, k, t, p);
    }
    if InFlight(t, p) {
      WasInFlight(s, k, t, p);
    }
  }

  lemma StaysInFlight(s: Store, k: nat, t: Store, p: string)
    requires k < |s.flights| && t == Without(s, k).(view := t.view) && t.view.session == s.view.session
    requires InFlight(s, p)
    ensures InFlight(t, p) || (s.flights[k].plan == p && Current(s, s.flights[k]))
  {
    hide Key;
    RestIsTheSame(s, k, t);
    var i :| 0 <= i < |s.flights| && s.flights[i].plan == p && Current(s, s.flights[i]);
    if i != k {
      var f := t.flights[if i < k then i else i - 1];
      assert f.plan == p && Current(t, f);
    }
  }

  /** The other requests for the plan are not current, because each one has its own epoch. */
  lemma WasInFlight(s: Store, k: nat, t: Store, p: string)
    requires Sound(s) && k < |s.flights| && t == Without(s, k).(view := t.view) && t.view.session == s.view.session
    requires InFlight(t, p)
    ensures InFlight(s, p) && !(s.flights[k].plan == p && Current(s, s.flights[k]))
  {
    hide EpochsSound, Key;
    RestIsTheSame(s, k, t);
    var i :| 0 <= i < |t.flights| && t.flights[i].plan == p && Current(t, t.flights[i]);
    var f := s.flights[if i < k then i else i + 1];
    assert f == t.flights[i] && f.plan == p && Current(s, f);
  }

  lemma RestIsTheSame(s: Store, k: nat, t: Store)
    requires k < |s.flights| && t == Without(s, k).(view := t.view)
    ensures |t.flights| == |s.flights| - 1
    ensures forall i | 0 <= i < |t.flights| :: t.flights[i] == s.flights[if i < k then i else i + 1]
  {
  }

  /** A published response for another plan than was asked for. */
  predicate Misdelivered(s: Store, e: Event)
    requires Enabled(s, e)
  {
    && e.Received? && Current(s, s.flights[e.flight]) && e.response.id != s.flights[e.flight].plan
    && !(s.flights[e.flight].plan in s.view.plans
         && s.view.plans[s.flights[e.flight].plan].version > e.response.version)
  }

  /** Loading stays exact unless a response is misdelivered: then the plan asked for is left loading. */
  lemma AnswerLoads(s: Store, e: Event)
    requires Sound(s) && LoadingIsExact(s) && Enabled(s, e) && (e.Received? || e.Failed?)
    ensures LoadingIsExact(Next(s, e)) <==> !Misdelivered(s, e)
  {
    hide InFlight, Current, Sound;
    var t := Next(s, e);
    if Misdelivered(s, e) {
      var p := s.flights[e.flight].plan;
      RemovalExact(s, e.flight, t, p);
      OwnFlight(s, e.flight);
      assert Loading(t, p) && !InFlight(t, p);
    } else {
      forall p: string
        ensures Loading(t, p) <==> InFlight(t, p)
      {
        assert Loading(s, p) <==> InFlight(s, p);
        RemovalExact(s, e.flight, t, p);
      }
    }
  }

  lemma OwnFlight(s: Store, k: nat)
    requires k < |s.flights| && Current(s, s.flights[k])
    ensures InFlight(s, s.flights[k].plan)
  {
  }

  lemma NothingLoadsAfterReset(s: Store, session: Option<string>)
    ensures LoadingIsExact(Reset(s, session))
  {
  }

  lemma NextKeepsLoading(s: Store, e: Event)
    requires Sound(s) && LoadingIsExact(s) && Enabled(s, e) && Echoes(s, e)
    ensures LoadingIsExact(Next(s, e))
  {
    hide LoadingIsExact, Begin, Reset, Sound;
    match e
    case Refreshing(session, plan) => BeginLoads(s, session, plan);
    case Received(_, _) => AnswerLoads(s, e);
    case Failed(_, _) => AnswerLoads(s, e);
    case Resetting(session) => NothingLoadsAfterReset(s, session);
  }

  // ---------------------------------------------------------------- runs

  ghost predicate Feasible(s: Store, run: seq<Event>)
    decreases |run|
  {
    run == [] || (Enabled(s, run[0]) && Echoes(s, run[0]) && Feasible(Next(s, run[0]), run[1..]))
  }

  ghost function After(s: Store, run: seq<Event>): Store
    requires Feasible(s, run)
    decreases |run|
  {
    if run == [] then s else After(Next(s, run[0]), run[1..])
  }

  predicate NoReset(run: seq<Event>) {
    forall i | 0 <= i < |run| :: !run[i].Resetting?
  }

  lemma KeptTrans(r: Store, s: Store, t: Store)
    requires VersionsKept(r, s) && VersionsKept(s, t)
    ensures VersionsKept(r, t)
  {
  }

  lemma KeptRefl(s: Store)
    ensures VersionsKept(s, s)
  {
  }

  /** Under every interleaving of requests, responses, errors and resets: a plan is shown as loading exactly
      while its newest request is under way, and between resets no version decreases. */
  lemma {:induction false} EveryInterleavingIsSound(s: Store, run: seq<Event>)
    requires Sound(s) && LoadingIsExact(s) && Feasible(s, run)
    ensures Sound(After(s, run)) && LoadingIsExact(After(s, run))
    ensures NoReset(run) ==> VersionsKept(s, After(s, run))
    decreases |run|
  {
    hide Sound, LoadingIsExact, Next, VersionsKept, Lowers, Echoes, Enabled;
    if run == [] {
      KeptRefl(s);
    } else {
      var next := Next(s, run[0]);
      NextKeepsSound(s, run[0]);
      NextKeepsLoading(s, run[0]);
      EveryInterleavingIsSound(next, run[1..]);
      if NoReset(run) {
        VersionsOnlyGrow(s, run[0]);
        KeptTrans(s, next, After(s, run));
      }
    }
  }

  lemma EmptyStoreIsSound()
    ensures Sound(EMPTY) && LoadingIsExact(EMPTY)
  {
  }

  /** Every store reached from the empty one by a server that echoes. */
  lemma EveryStoreIsSound(run: seq<Event>)
    requires Feasible(EMPTY, run)
    ensures Sound(After(EMPTY, run)) && LoadingIsExact(After(EMPTY, run))
  {
    hide Feasible, After, Sound, LoadingIsExact;
    EmptyStoreIsSound();
    EveryInterleavingIsSound(EMPTY, run);
  }

  // ---------------------------------------------------------------- a response for another plan

  const NEWER := Plan("b", 2, "")
  const OLDER := Plan("b", 1, "")

  /** A session is shown, plans `a` and `b` are asked for, and `b` has arrived. */
  function Awaiting(): Store {
    Receive(Begin(Begin(Reset(EMPTY, Some("s")), "s", "a"), "s", "b"), 1, NEWER)
  }

  /** The answer to the request for `a` is an older version of `b`: it is published, lowers the version of `b`,
      and leaves `a` loading with no request under way. */
  lemma MisdeliveryLowersAndLoads()
    ensures Sound(Awaiting()) && LoadingIsExact(Awaiting())
    ensures Enabled(Awaiting(), Received(0, OLDER))
    ensures var t := Next(Awaiting(), Received(0, OLDER));
      && Awaiting().view.plans == map["b" := NEWER] && t.view.plans == map["b" := OLDER]
      && Loading(t, "a") && !InFlight(t, "a")
  {
    hide Sound, LoadingIsExact;
    KeysDiffer("s", "a", "b");
    var s1 := Reset(EMPTY, Some("s"));
    var s2 := Begin(s1, "s", "a");
    var s3 := Begin(s2, "s", "b");
    ReachedByEchoing(s1, s2, s3);
    assert s3.flights == [Flight("s", "a", 1, 1), Flight("s", "b", 2, 1)];
    assert Current(s3, s3.flights[1]) && Current(s3, s3.flights[0]);
    var s := Awaiting();
    assert s.flights == [Flight("s", "a", 1, 1)] && Current(s, s.flights[0]);
    var t := Next(s, Received(0, OLDER));
    assert t.flights == [];
  }

  lemma ReachedByEchoing(s1: Store, s2: Store, s3: Store)
    requires s1 == Reset(EMPTY, Some("s")) && s2 == Begin(s1, "s", "a") && s3 == Begin(s2, "s", "b")
    ensures Sound(Awaiting()) && LoadingIsExact(Awaiting())
  {
    hide Sound, LoadingIsExact;
    EmptyStoreIsSound();
    NextKeepsSound(EMPTY, Resetting(Some("s")));
    NextKeepsLoading(EMPTY, Resetting(Some("s")));
    NextKeepsSound(s1, Refreshing("s", "a"));
    NextKeepsLoading(s1, Refreshing("s", "a"));
    NextKeepsSound(s2, Refreshing("s", "b"));
    NextKeepsLoading(s2, Refreshing("s", "b"));
    assert s3.flights[1].plan == NEWER.id;
    NextKeepsSound(s3, Received(1, NEWER));
    NextKeepsLoading(s3, Received(1, NEWER));
  }

  // ---------------------------------------------------------------- the module's variables

  class PlanStore {
    var view: View
    var epochs: map<string, nat>
    var next: nat
    ghost var flights: seq<Flight>
    ghost var generation: nat
    ghost var floor: nat

    ghost function State(): Store
      reads this
    {
      Store(view, epochs, next, flights, generation, floor)
    }

    constructor ()
      ensures State() == EMPTY
    {
      view, epochs, next := View(None, map[], map[], map[]), map[], 0;
      flights, generation, floor := [], 0, 0;
    }

    /** The part of a refresh before its response; a request is sent when `epoch` is given. */
    method StartRefresh(session: string, plan: string) returns (epoch: Option<nat>)
      modifies this
      ensures State() == Begin(old(State()), session, plan)
      ensures epoch.Some? <==> old(view.session) == Some(session)
      ensures epoch.Some? ==> flights == old(flights) + [Flight(session, plan, epoch.value, generation)]
    {
      if view.session != Some(session) {
        return None;
      }
      next := next + 1;
      epochs := epochs[Key(session, plan) := next];
      view := view.(loading := view.loading[plan := true], errors := view.errors[plan := ""]);
      flights := flights + [Flight(session, plan, next, generation)];
      return Some(next);
    }

    method FinishRefresh(session: string, plan: string, epoch: nat, response: Plan, ghost k: nat)
      requires k < |flights| && flights[k].session == session && flights[k].plan == plan && flights[k].epoch == epoch
      modifies this
      ensures State() == Receive(old(State()), k, response)
    {
      flights := flights[..k] + flights[k + 1..];
      var key := Key(session, plan);
      if view.session != Some(session) || key !in epochs || epochs[key] != epoch {
        return;
      }
      if plan in view.plans && view.plans[plan].version > response.version {
        view := view.(loading := view.loading[plan := false]);
        return;
      }
      view := view.(plans := view.plans[response.id := response],
        loading := view.loading[response.id := false], errors := view.errors[response.id := ""]);
    }

    method FailRefresh(session: string, plan: string, epoch: nat, message: string, ghost k: nat)
      requires k < |flights| && flights[k].session == session && flights[k].plan == plan && flights[k].epoch == epoch
      modifies this
      ensures State() == Fail(old(State()), k, message)
    {
      flights := flights[..k] + flights[k + 1..];
      var key := Key(session, plan);
      if view.session != Some(session) || key !in epochs || epochs[key] != epoch {
        return;
      }
      view := view.(loading := view.loading[plan := false], errors := view.errors[plan := message]);
    }

    method ResetTo(session: Option<string>)
      modifies this
      ensures State() == Reset(old(State()), session)
    {
      epochs := map[];
      view := View(session, map[], map[], map[]);
      generation, floor := generation + 1, next;
    }
  }
}
