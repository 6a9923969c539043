/** `alethia apply` from the file to the end of the run (`runApply`, apps/cli/cmd/apply.go:149-200): plan,
    narrow, refuse or apply. */
module Commands {
  import opened Options
  import opened ControlPlane
  import opened Clients
  import opened Plans
  import opened Planner
  import opened Applies
  import opened Applier
  import opened Addressing
  import opened LostUpdates

  /** One `apply`: whether it waits for its deploys, and its `--env` list. */
  datatype Attempt = Attempt(wait: bool, only: seq<string>)

  /** `--env` names environments the file declares. */
  predicate Narrows(w: World, p: Plan, only: seq<string>) {
    forall x :: x in only ==> exists e :: e in p.envs && w.norm(e.name) == w.norm(x)
  }

  /** The plan `RestrictTo` leaves. */
  function NarrowTo(w: World, p: Plan, only: seq<string>): Plan {
    p.(envs := seq(|p.envs|, i requires 0 <= i < |p.envs| =>
      if only == [] then p.envs[i] else p.envs[i].(deploy := Wanted(w, only, p.envs[i].name))))
  }

  /** The plan has no `refusal`. */
  predicate NoProblems(p: Plan) {
    forall e :: e in p.envs ==> e.problems == []
  }

  /** A run that ends before its first request. */
  function NothingRun(s: Server): Run {
    Run(s, "", map[], map[], [], [], Aborted, [])
  }

  /** There is a plan, it can be narrowed as asked, and it has no problem. */
  predicate Goes(w: World, plan: Option<Plan>, a: Attempt) {
    plan.Some? && Narrows(w, plan.value, a.only) && NoProblems(plan.value)
  }

  ghost function Apply(w: World, m: Manifest, a: Attempt, s: Server): Run {
    var planned := PlanOf(w, m, s);
    if !Goes(w, planned.result, a) then NothingRun(planned.server)
    else ApplyRun(w, a.wait, NarrowTo(w, planned.result.value, a.only), planned.server)
  }

  method RunApply(c: Client, m: Manifest, a: Attempt) returns (result: ApplyResult, ok: bool)
    modifies c
    ensures var r := Apply(c.world, m, a, old(c.server));
      c.server == r.server && ok == Succeeded(r) && result == ApplyResult(r.projectId, r.errors, r.jobs)
  {
    hide ApplyRun, PlanOf;
    var planned, plan := ComputePlan(c, m);
    if !planned {
      return ApplyResult("", [], []), false;
    }
    var known, narrowed := RestrictTo(c.world, plan, a.only);
    assert narrowed.envs == NarrowTo(c.world, plan, a.only).envs;
    if !known || exists e :: e in plan.envs && e.problems != [] {
      return ApplyResult("", [], []), false;
    }
    result, ok := ExecuteApply(c, narrowed, a.wait);
  }

  // ----- a plan that is refused makes no request but its reads -----

  /** The server after some reads, each of the project or — after a lookup — of an environment: only others
      have written. */
  function AfterReads(w: World, s: Server, lookups: seq<bool>): Server {
    if lookups == [] then s
    else
      var t := AfterReads(w, s, lookups[..|lookups| - 1]);
      if lookups[|lookups| - 1] then Meanwhile(w, t) else Arrive(w, t)
  }

  lemma OneMoreRead(w: World, s: Server, before: seq<bool>, lookup: bool)
    ensures AfterReads(w, s, before + [lookup]) ==
      if lookup then Meanwhile(w, AfterReads(w, s, before)) else Arrive(w, AfterReads(w, s, before))
  {
    hide Arrive, Meanwhile;
    assert (before + [lookup])[..|before|] == before;
  }

  ghost predicate OnlyRead(w: World, s: Server, t: Server) {
    exists lookups :: t == AfterReads(w, s, lookups)
  }

  lemma ReadOnce(w: World, s: Server, t: Server)
    requires OnlyRead(w, s, t)
    ensures OnlyRead(w, s, Arrive(w, t)) && OnlyRead(w, s, Meanwhile(w, t))
  {
    hide Arrive, Meanwhile, AfterReads;
    var before :| t == AfterReads(w, s, before);
    OneMoreRead(w, s, before, false);
    OneMoreRead(w, s, before, true);
  }

  lemma NothingRead(w: World, s: Server)
    ensures OnlyRead(w, s, s)
  {
    assert s == AfterReads(w, s, []);
  }

  lemma EnvPlanReads(w: World, declares: bool, known: seq<Env>, d: EnvDecl, s: Server, t: Server)
    requires OnlyRead(w, s, t)
    ensures OnlyRead(w, s, PlanEnv(w, declares, known, d, t).server)
  {
    hide Meanwhile, PlanExisting, PlanNew, Named, ReadOf, OnlyRead;
    ReadOnce(w, s, t);
    ReadOnce(w, s, AfterComponentRead(w, t, d));
  }

  lemma {:induction false} EnvPlansRead(w: World, declares: bool, known: seq<Env>, ds: seq<EnvDecl>, s: Server, t: Server)
    requires OnlyRead(w, s, t)
    ensures OnlyRead(w, s, PlanEnvs(w, declares, known, ds, t).server)
  {
    hide PlanEnv, OnlyRead;
    if ds != [] {
      EnvPlansRead(w, declares, known, ds[..|ds| - 1], s, t);
      EnvPlanReads(w, declares, known, ds[|ds| - 1], s, PlanEnvs(w, declares, known, ds[..|ds| - 1], t).server);
    }
  }

  /** `plan` only reads. */
  lemma PlanReads(w: World, m: Manifest, s: Server)
    ensures OnlyRead(w, s, PlanOf(w, m, s).server)
  {
    hide Arrive, PlanEnvs, OnlyRead;
    NothingRead(w, s);
    ReadOnce(w, s, s);
    ReadOnce(w, s, Arrive(w, s));
    var known := ListingRead(w, s);
    if known.result.Some? { EnvPlansRead(w, DeclaresAddons(m), known.result.value, m.envs, s, known.server); }
  }

  /** An apply whose plan has a problem — or fails, or names an environment the file does not declare —
      fails, and writes nothing: the server is as its reads, and whatever others wrote, left it. */
  lemma RefusedWritesNothing(w: World, m: Manifest, a: Attempt, s: Server)
    requires !Goes(w, PlanOf(w, m, s).result, a)
    ensures var r := Apply(w, m, a, s); !Succeeded(r) && r.log == [] && OnlyRead(w, s, r.server)
  {
    hide PlanOf, Goes, OnlyRead;
    PlanReads(w, m, s);
  }

  // ----- any apply -----

  lemma NarrowedIsKnown(w: World, p: Plan, only: seq<string>, s: Server)
    requires PlanKnown(w, p.envs, s) && PlanIdsOk(w, p, s)
    ensures PlanKnown(w, NarrowTo(w, p, only).envs, s) && PlanIdsOk(w, NarrowTo(w, p, only), s)
  {
    hide CopyKnown, ChangesKnown, Wanted;
    var q := NarrowTo(w, p, only);
    forall e | e in q.envs ensures EnvPlanKnown(w, e, s) {
      var i :| 0 <= i < |q.envs| && q.envs[i] == e;
      assert p.envs[i] in p.envs;
    }
  }

  /** Whatever others write — components, add-ons, whole environments — and whatever fails, every request of
      an apply is well addressed, and no update it sends with a revision is built on a copy that is no longer
      there. */
  lemma EveryApplyIsSafe(w: World, m: Manifest, a: Attempt, s: Server)
    requires WorldOk(w) && ServerOk(w, s) && FileNamesMatch(m)
    ensures AllWellAddressed(Apply(w, m, a, s).log) && NoneLost(w, Apply(w, m, a, s).log)
  {
    hide WorldOk, ServerOk, ApplyRun, PlanOf, PlanKnown, PlanIdsOk, AllWellAddressed, NoneLost, NarrowTo, FileNamesMatch;
    NothingLogged();
    NothingLost(w);
    PlanKnowsItsCopies(w, m, s);
    var planned := PlanOf(w, m, s);
    if planned.result.Some? {
      var p := NarrowTo(w, planned.result.value, a.only);
      NarrowedIsKnown(w, planned.result.value, a.only, planned.server);
      EveryRequestIsWellAddressed(w, a.wait, p, planned.server);
      RunLosesNothing(w, a.wait, p, planned.server);
    }
  }
}
