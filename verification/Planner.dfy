/** `computePlan` and `restrictTo` as the client runs them (apps/cli/cmd/apply.go:405-634). */
module Planner {
  import opened Options
  import opened Ordering
  import opened FieldDiffs
  import opened Addons
  import opened ControlPlane
  import opened Clients
  import opened Plans

  method ComputeComponents(ds: seq<Decl>, comps: seq<Component>, ghost rows: seq<Row>) returns (plans: seq<ComponentPlan>)
    requires comps == Views(rows)
    ensures plans == PlanComponents(ds, rows)
  {
    plans := [];
    for i := 0 to |ds|
      invariant plans == PlanComponents(ds, rows)[..i]
    {
      var cp := PlanOneComponent(ds[i], comps, rows);
      plans := plans + [cp];
    }
  }

  /** The order the server lists add-ons in makes no difference. */
  lemma ListingIsIrrelevant(w: World, ds: seq<AddonDecl>, rows: seq<AddonRow>, stored: map<string, StoredAddon>)
    requires forall id :: RowOf(rows, id) == Listed(w, stored, id)
    ensures Outcomes(ds, rows, w.catalog) == AddonOutcomes(w, ds, stored)
  {
  }

  lemma NothingListed(w: World)
    ensures forall id :: RowOf([], id) == Listed(w, map[], id)
  {
  }

  method ComputeEnvironment(c: Client, declaresAddons: bool, known: seq<Env>, d: EnvDecl) returns (ok: bool, ep: EnvPlan)
    modifies c
    ensures Reading(if ok then Some(ep) else None, c.server) == PlanEnv(c.world, declaresAddons, known, d, old(c.server))
  {
    hide Meanwhile, PlanAddon, PlansOf, PlanComponents, EntryOf, FoundId, RowOf, Listed, EnvProblems, ReadOf;
    var existing := Named(c.world, known, d.name);
    var comps: seq<Component>, rows: seq<AddonRow>, problems: seq<Problem> := [], [], [];
    ghost var held: seq<Row>, stored: map<string, StoredAddon> := [], map[];
    ok, ep := true, EnvPlan("", "", "", Unchanged, "", [], [], [], false);
    if existing.Some? {
      problems := EnvProblems(d, existing.value);
      if d.components != [] {
        ghost var env := FoundId(c.world, c.server, existing.value.id);
        ok, comps := c.ListComponents(existing.value.id);
        if !ok {
          return;
        }
        held := RowsIn(c.server, env);
      }
      if declaresAddons {
        ghost var env := FoundId(c.world, c.server, existing.value.id);
        ok, rows := c.GetProjectAddons(existing.value.id);
        if !ok {
          return;
        }
        stored := AddonsIn(c.server, env);
      }
    }
    NothingListed(c.world);
    var components := ComputeComponents(Decls(d.components), comps, held);
    var addons, bad := PlanAddons(d.addons, rows, c.world.catalog);
    ListingIsIrrelevant(c.world, d.addons, rows, stored);
    ep := EnvPlan(d.name, d.stage, d.placement, if existing.Some? then Unchanged else Create,
                  if existing.Some? then existing.value.id else "", components, addons,
                  problems + (if bad == [] then [] else [AddonProblem]), true);
    ghost var outcomes := AddonOutcomes(c.world, d.addons, stored);
    assert addons == PlansOf(outcomes) && (if bad == [] then [] else [AddonProblem]) == AddonProblems(outcomes);
    if existing == None {
      assert ep == PlanNew(c.world, d);
    } else {
      assert ep == PlanExisting(c.world, d, existing.value, held, stored);
    }
  }

  /** The known environments. */
  method ReadEnvironments(c: Client) returns (ok: bool, id: string, known: seq<Env>)
    modifies c
    ensures Reading(if ok then Some(known) else None, c.server) == ListingRead(c.world, old(c.server))
    ensures var project := Arrive(c.world, old(c.server)).project; ok ==> id == if project.Some? then project.value else ""
  {
    hide Arrive;
    known := [];
    var found: bool;
    ok, found, id := c.FindProject();
    if ok && found {
      ok, known := c.ListEnvironments();
    }
  }

  /** Once an environment cannot be planned, the rest is not read. */
  lemma {:induction false} PlanEnvsStop(w: World, declares: bool, known: seq<Env>, ds: seq<EnvDecl>, s: Server, i: nat)
    requires i <= |ds| && PlanEnvs(w, declares, known, ds[..i], s).result == None
    ensures PlanEnvs(w, declares, known, ds, s) == PlanEnvs(w, declares, known, ds[..i], s)
  {
    hide PlanEnv;
    if i < |ds| {
      assert ds[..|ds| - 1][..i] == ds[..i];
      PlanEnvsStop(w, declares, known, ds[..|ds| - 1], s, i);
    } else {
      assert ds[..i] == ds;
    }
  }

  /** `computePlan`: the plan, or no plan when a read fails. */
  method ComputePlan(c: Client, m: Manifest) returns (ok: bool, plan: Plan)
    modifies c
    ensures Reading(if ok then Some(plan) else None, c.server) == PlanOf(c.world, m, old(c.server))
  {
    hide PlanEnv, Named, Arrive, Sort, ListingRead;
    plan := Plan(m, "", [], []);
    var id, known;
    ok, id, known := ReadEnvironments(c);
    if !ok {
      return;
    }
    ghost var start := c.server;
    var declares := DeclaresAddons(m);
    var envs := [];
    for i := 0 to |m.envs|
      invariant Reading(Some(envs), c.server) == PlanEnvs(c.world, declares, known, m.envs[..i], start)
    {
      assert m.envs[..i + 1][..i] == m.envs[..i];
      var ep;
      ok, ep := ComputeEnvironment(c, declares, known, m.envs[i]);
      if !ok {
        PlanEnvsStop(c.world, declares, known, m.envs, start, i + 1);
        return;
      }
      envs := envs + [ep];
    }
    assert m.envs[..|m.envs|] == m.envs;
    ok := true;
    var unmanaged := [];
    for i := 0 to |known|
      invariant unmanaged == UnmanagedNames(c.world, m, known[..i])
    {
      assert known[..i + 1][..i] == known[..i];
      if !IsDeclared(c.world, m, known[i].name) {
        unmanaged := unmanaged + [known[i].name];
      }
    }
    assert known[..|known|] == known;
    plan := Plan(m, id, envs, Sort(StringLess, unmanaged));
  }

  predicate Wanted(w: World, only: seq<string>, name: string) {
    exists x :: x in only && w.norm(x) == w.norm(name)
  }

  /** `restrictTo`: `--env` narrows the deploys, and refuses a name the file does not declare. */
  method RestrictTo(w: World, plan: Plan, only: seq<string>) returns (ok: bool, r: Plan)
    ensures ok <==> forall x :: x in only ==> exists e :: e in plan.envs && w.norm(e.name) == w.norm(x)
    ensures r == plan.(envs := r.envs) && |r.envs| == |plan.envs|
    ensures forall i :: 0 <= i < |r.envs| ==>
      r.envs[i] == if only == [] then plan.envs[i] else plan.envs[i].(deploy := Wanted(w, only, plan.envs[i].name))
  {
    if only == [] {
      return true, plan;
    }
    var want, found: set<string> := {}, {};
    for i := 0 to |only|
      invariant forall k :: k in want <==> exists j :: 0 <= j < i && w.norm(only[j]) == k
    {
      want := want + {w.norm(only[i])};
    }
    var envs := plan.envs;
    for i := 0 to |envs|
      invariant |envs| == |plan.envs| && envs[i..] == plan.envs[i..]
      invariant forall j :: 0 <= j < i ==> envs[j] == plan.envs[j].(deploy := Wanted(w, only, plan.envs[j].name))
      invariant forall k :: k in found <==> k in want && exists j :: 0 <= j < i && w.norm(plan.envs[j].name) == k
    {
      var key := w.norm(envs[i].name);
      assert envs[i] == envs[i..][0] == plan.envs[i];
      assert key in want <==> Wanted(w, only, plan.envs[i].name);
      envs := envs[i := envs[i].(deploy := key in want)];
      if key in want {
        found := found + {key};
      }
    }
    ok := forall x :: x in only ==> w.norm(x) in found;
    assert forall j :: 0 <= j < |only| ==> only[j] in only && w.norm(only[j]) in want;
    r := plan.(envs := envs);
  }
}
