/** `executeApply` and `fillEnvironmentIDs` as the client runs them (apps/cli/cmd/apply.go:868-1078):
    the loops perform the plan's program, one instruction a turn. */
module Applier {
  import opened Options
  import opened FieldDiffs
  import opened Addons
  import opened ControlPlane
  import opened Clients
  import opened Plans
  import opened Applies

  datatype ApplyResult = ApplyResult(projectId: string, errors: seq<ComponentError>, jobs: seq<DeployJob>)

  lemma ExecSnoc(w: World, wait: bool, p: Plan, r: Run, done: seq<Instr>, i: Instr)
    ensures Exec(w, wait, p, r, done + [i]) == Step(w, wait, p, Exec(w, wait, p, r, done), i)
  {
    assert (done + [i])[..|done + [i]| - 1] == done;
  }

  lemma ExecEmpty(w: World, wait: bool, p: Plan, r: Run)
    ensures Exec(w, wait, p, r, []) == r
  {
  }

  /** A run that has stopped stays as it is. */
  lemma {:induction false} ExecStopped(w: World, wait: bool, p: Plan, r: Run, done: seq<Instr>, all: seq<Instr>)
    requires done <= all && Exec(w, wait, p, r, done).status != Running
    ensures Exec(w, wait, p, r, all) == Exec(w, wait, p, r, done)
  {
    hide Step;
    if |all| > |done| {
      var front := all[..|all| - 1];
      assert front[..|done|] == done;
      ExecStopped(w, wait, p, r, done, front);
      assert Exec(w, wait, p, r, all) == Step(w, wait, p, Exec(w, wait, p, r, front), all[|all| - 1]);
      StepStopped(w, wait, p, Exec(w, wait, p, r, front), all[|all| - 1]);
    } else {
      assert done == all;
    }
  }

  lemma StepStopped(w: World, wait: bool, p: Plan, r: Run, i: Instr)
    requires r.status != Running
    ensures Step(w, wait, p, r, i) == r
  {
  }

  /** `ids` is Go's map; a missing key reads as the empty id. */
  method FillEnvironmentIDs(c: Client, envs: seq<EnvPlan>, before: map<string, string>, ghost r: Run)
    returns (ok: bool, ids: map<string, string>)
    requires r.server == c.server && r.ids == before && r.status == Running
    modifies c
    ensures StepFillIds(c.world, envs, r) ==
      r.(server := c.server, ids := ids, status := if ok then Running else Aborted)
  {
    ids := before;
    var missing := exists e :: e in envs && IdOf(c.world, ids, e.name) == "";
    if !missing {
      return true, ids;
    }
    var answered, listed := c.ListEnvironments();
    if !answered {
      return false, ids;
    }
    for i := 0 to |listed|
      invariant ids == FillFrom(c.world, before, listed[..i])
    {
      assert listed[..i + 1][..i] == listed[..i];
      if IdOf(c.world, ids, listed[i].name) == "" {
        ids := ids[c.world.norm(listed[i].name) := listed[i].id];
      }
    }
    assert listed[..|listed|] == listed;
    ok := forall e :: e in envs ==> IdOf(c.world, ids, e.name) != "";
  }

  /** One component of the plan: nothing, an add, or an update that carries the plan's revision. */
  method ApplyComponent(c: Client, ref: string, comp: ComponentPlan) returns (ok: bool)
    requires comp.action != Unchanged
    modifies c
    ensures var a := RequestComponent(c.world, old(c.server), ref, comp); c.server == a.server && ok == a.ok
  {
    if comp.action == Create {
      ok := c.AddComponent(ref, comp.kind, comp.name, comp.fields);
    } else {
      var body := ChangedFields(comp.changes);
      if comp.name != "" {
        ok := c.UpdateComponent(ref, comp.kind, comp.name, body, comp.revision);
      } else {
        ok := c.UpsertComponent(ref, comp.kind, body, comp.revision);
      }
    }
  }

  /** The variables hold the run. */
  ghost predicate Holds(c: Client, r: Run, projectId: string, ids: map<string, string>, refused: map<string, Refusals>,
                        errors: seq<ComponentError>, jobs: seq<DeployJob>, running: bool)
    reads c
  {
    && r.server == c.server && r.projectId == projectId && r.ids == ids && r.refused == refused
    && r.errors == errors && r.jobs == jobs && (r.status == Running) == running
  }

  lemma {:induction false} CreatePrefix(envs: seq<EnvPlan>, i: nat)
    requires i <= |envs|
    ensures CreateInstrs(envs[..i]) <= CreateInstrs(envs)
  {
    if i < |envs| { CreatePrefix(envs[..|envs| - 1], i); assert envs[..|envs| - 1][..i] == envs[..i]; }
    else { assert envs[..i] == envs; }
  }

  lemma {:induction false} ComponentPrefix(envs: seq<EnvPlan>, i: nat)
    requires i <= |envs|
    ensures ComponentInstrs(envs[..i]) <= ComponentInstrs(envs)
  {
    if i < |envs| { ComponentPrefix(envs[..|envs| - 1], i); assert envs[..|envs| - 1][..i] == envs[..i]; }
    else { assert envs[..i] == envs; }
  }

  lemma {:induction false} AddonPrefix(envs: seq<EnvPlan>, i: nat)
    requires i <= |envs|
    ensures AddonInstrs(envs[..i]) <= AddonInstrs(envs)
  {
    if i < |envs| { AddonPrefix(envs[..|envs| - 1], i); assert envs[..|envs| - 1][..i] == envs[..i]; }
    else { assert envs[..i] == envs; }
  }

  /** Creates one environment and keeps its id, when the answer carries one. */
  method CreateOne(c: Client, p: Plan, e: EnvPlan, before: map<string, string>, ghost wait: bool, ghost r: Run)
    returns (ok: bool, ids: map<string, string>)
    requires Holds(c, r, p.projectId, before, map[], [], [], true)
    modifies c
    ensures Holds(c, Step(c.world, wait, p, r, AddEnv(e)), p.projectId, ids, map[], [], [], ok)
  {
    ids := before;
    var d := FindDecl(p.manifest.envs, e.name);
    if d == None {
      return false, ids;
    }
    var id: string;
    ok, id := c.AddEnvironment(Spec(d.value));
    if ok && id != "" {
      ids := ids[c.world.norm(e.name) := id];
    }
  }

  method CreateEnvironments(c: Client, p: Plan, before: map<string, string>, ghost wait: bool, ghost start: Run)
    returns (running: bool, ids: map<string, string>)
    requires Holds(c, start, p.projectId, before, map[], [], [], true)
    modifies c
    ensures Holds(c, Exec(c.world, wait, p, start, CreateInstrs(p.envs)), p.projectId, ids, map[], [], [], running)
  {
    hide Step;
    ids, running := before, true;
    ghost var w, r := c.world, start;
    for i := 0 to |p.envs|
      invariant r == Exec(w, wait, p, start, CreateInstrs(p.envs[..i]))
      invariant Holds(c, r, p.projectId, ids, map[], [], [], true)
    {
      var e := p.envs[i];
      ghost var done := CreateInstrs(p.envs[..i]);
      assert p.envs[..i + 1][..i] == p.envs[..i];
      if e.action == Create {
        ExecSnoc(w, wait, p, start, done, AddEnv(e));
        running, ids := CreateOne(c, p, e, ids, wait, r);
        r := Step(w, wait, p, r, AddEnv(e));
        if !running {
          CreatePrefix(p.envs, i + 1);
          ExecStopped(w, wait, p, start, done + [AddEnv(e)], CreateInstrs(p.envs));
          return;
        }
      } else {
        assert CreateInstrs(p.envs[..i + 1]) == done;
      }
    }
    assert p.envs[..|p.envs|] == p.envs;
  }

  /** One turn of the component loop. */
  method TurnComponent(c: Client, p: Plan, e: EnvPlan, comp: ComponentPlan, ids: map<string, string>,
                       refused0: map<string, Refusals>, errors0: seq<ComponentError>, ghost wait: bool, ghost r: Run)
    returns (ok: bool, refused: map<string, Refusals>, errors: seq<ComponentError>)
    requires Holds(c, r, r.projectId, ids, refused0, errors0, [], true)
    modifies c
    ensures Holds(c, Step(c.world, wait, p, r, WriteComponent(e, comp)), r.projectId, ids, refused, errors, [], ok)
  {
    hide RequestComponent, RowBefore, RowAfter;
    refused, errors, ok := refused0, errors0, true;
    if comp.action != Unchanged {
      ok := ApplyComponent(c, IdOf(c.world, ids, e.name), comp);
      if !ok && comp.action == Update {
        refused := refused[c.world.norm(e.name) := RefusedIn(c.world, refused, e.name).(component := true)];
        errors := errors + [ComponentError(e.name, comp.kind, comp.name)];
        ok := true;
      }
    }
  }

  method ApplyComponents(c: Client, p: Plan, ids: map<string, string>, ghost wait: bool, ghost start: Run)
    returns (running: bool, refused: map<string, Refusals>, errors: seq<ComponentError>)
    requires Holds(c, start, start.projectId, ids, map[], [], [], true)
    modifies c
    ensures Holds(c, Exec(c.world, wait, p, start, ComponentInstrs(p.envs)), start.projectId, ids, refused, errors, [], running)
  {
    hide Step, Exec;
    running, refused, errors := true, map[], [];
    ghost var w, r := c.world, start;
    ExecEmpty(w, wait, p, start);
    for i := 0 to |p.envs|
      invariant r == Exec(w, wait, p, start, ComponentInstrs(p.envs[..i]))
      invariant Holds(c, r, start.projectId, ids, refused, errors, [], true)
    {
      var e := p.envs[i];
      ghost var before, instrs := ComponentInstrs(p.envs[..i]), EnvComponentInstrs(p.envs[i]);
      assert p.envs[..i + 1][..i] == p.envs[..i];
      assert before + instrs[..0] == before;
      for j := 0 to |e.components|
        invariant r == Exec(w, wait, p, start, before + instrs[..j])
        invariant Holds(c, r, start.projectId, ids, refused, errors, [], true)
      {
        assert before + instrs[..j] + [instrs[j]] == before + instrs[..j + 1];
        ExecSnoc(w, wait, p, start, before + instrs[..j], instrs[j]);
        running, refused, errors := TurnComponent(c, p, e, e.components[j], ids, refused, errors, wait, r);
        r := Step(w, wait, p, r, instrs[j]);
        if !running {
          ComponentPrefix(p.envs, i + 1);
          ExecStopped(w, wait, p, start, before + instrs[..j + 1], ComponentInstrs(p.envs));
          return;
        }
      }
      assert instrs[..|e.components|] == instrs;
    }
    assert p.envs[..|p.envs|] == p.envs;
  }

  /** One turn of the add-on loop. */
  method TurnAddon(c: Client, p: Plan, e: EnvPlan, a: AddonPlan, ids: map<string, string>,
                   refused0: map<string, Refusals>, errors0: seq<ComponentError>, ghost wait: bool, ghost r: Run)
    returns (refused: map<string, Refusals>, errors: seq<ComponentError>)
    requires Holds(c, r, r.projectId, ids, refused0, errors0, [], true)
    modifies c
    ensures Holds(c, Step(c.world, wait, p, r, WriteAddon(e, a)), r.projectId, ids, refused, errors, [], true)
  {
    refused, errors := refused0, errors0;
    if a.action != Unchanged && a.request.Some? {
      var ok := c.EnableAddon(IdOf(c.world, ids, e.name), a.request.value);
      if !ok {
        refused := refused[c.world.norm(e.name) := RefusedIn(c.world, refused, e.name).(addon := true)];
        errors := errors + [ComponentError(e.name, "addon", a.id)];
      }
    }
  }

  method ApplyAddons(c: Client, p: Plan, ids: map<string, string>, refused0: map<string, Refusals>,
                     errors0: seq<ComponentError>, ghost wait: bool, ghost start: Run)
    returns (refused: map<string, Refusals>, errors: seq<ComponentError>)
    requires Holds(c, start, start.projectId, ids, refused0, errors0, [], true)
    modifies c
    ensures Holds(c, Exec(c.world, wait, p, start, AddonInstrs(p.envs)), start.projectId, ids, refused, errors, [], true)
  {
    hide Step;
    refused, errors := refused0, errors0;
    ghost var w, r := c.world, start;
    for i := 0 to |p.envs|
      invariant r == Exec(w, wait, p, start, AddonInstrs(p.envs[..i]))
      invariant Holds(c, r, start.projectId, ids, refused, errors, [], true)
    {
      var e := p.envs[i];
      ghost var before, instrs := AddonInstrs(p.envs[..i]), EnvAddonInstrs(p.envs[i]);
      assert p.envs[..i + 1][..i] == p.envs[..i];
      assert before + instrs[..0] == before;
      for j := 0 to |e.addons|
        invariant r == Exec(w, wait, p, start, before + instrs[..j])
        invariant Holds(c, r, start.projectId, ids, refused, errors, [], true)
      {
        assert before + instrs[..j] + [instrs[j]] == before + instrs[..j + 1];
        ExecSnoc(w, wait, p, start, before + instrs[..j], instrs[j]);
        refused, errors := TurnAddon(c, p, e, e.addons[j], ids, refused, errors, wait, r);
        r := Step(w, wait, p, r, instrs[j]);
      }
      assert instrs[..|e.addons|] == instrs;
    }
    assert p.envs[..|p.envs|] == p.envs;
  }

  /** One turn of the deploy loop. */
  method TurnDeploy(c: Client, p: Plan, e: EnvPlan, ids: map<string, string>, refused: map<string, Refusals>,
                    errors: seq<ComponentError>, jobs0: seq<DeployJob>, wait: bool, ghost r: Run)
    returns (ok: bool, jobs: seq<DeployJob>)
    requires Holds(c, r, r.projectId, ids, refused, errors, jobs0, true)
    modifies c
    ensures Holds(c, Step(c.world, wait, p, r, Deploy(e)), r.projectId, ids, refused, errors, jobs, ok)
  {
    hide RequestDeploy, FoundById, Meanwhile, IdOf;
    jobs, ok := jobs0, true;
    if e.deploy && c.world.norm(e.name) !in refused {
      var job: nat;
      ok, job := c.QueueDeploy(IdOf(c.world, ids, e.name));
      if ok {
        ok := !wait || c.world.succeeds(job);
        jobs := jobs + [DeployJob(e.name, job, wait && c.world.succeeds(job))];
      }
    }
  }

  method ApplyDeploys(c: Client, p: Plan, ids: map<string, string>, refused: map<string, Refusals>,
                      errors: seq<ComponentError>, wait: bool, ghost start: Run)
    returns (running: bool, jobs: seq<DeployJob>)
    requires Holds(c, start, start.projectId, ids, refused, errors, [], true)
    modifies c
    ensures Holds(c, Exec(c.world, wait, p, start, DeployInstrs(p.envs)), start.projectId, ids, refused, errors, jobs, running)
  {
    hide Step;
    running, jobs := true, [];
    ghost var w, r, all := c.world, start, DeployInstrs(p.envs);
    for i := 0 to |p.envs|
      invariant r == Exec(w, wait, p, start, all[..i])
      invariant Holds(c, r, start.projectId, ids, refused, errors, jobs, true)
    {
      assert all[..i] + [all[i]] == all[..i + 1];
      ExecSnoc(w, wait, p, start, all[..i], all[i]);
      running, jobs := TurnDeploy(c, p, p.envs[i], ids, refused, errors, jobs, wait, r);
      r := Step(w, wait, p, r, all[i]);
      if !running {
        ExecStopped(w, wait, p, start, all[..i + 1], all);
        return;
      }
    }
    assert all[..|p.envs|] == all;
  }

  lemma {:induction false} ExecAppend(w: World, wait: bool, p: Plan, r: Run, a: seq<Instr>, b: seq<Instr>)
    ensures Exec(w, wait, p, r, a + b) == Exec(w, wait, p, Exec(w, wait, p, r, a), b)
  {
    hide Step;
    if b == [] {
      assert a + b == a;
    } else {
      var front, last := b[..|b| - 1], b[|b| - 1];
      ExecAppend(w, wait, p, r, a, front);
      assert a + b == a + front + [last];
      ExecSnoc(w, wait, p, r, a + front, last);
    }
  }

  /** The run of a plan, and where it stops. */
  method ExecuteApply(c: Client, p: Plan, wait: bool) returns (result: ApplyResult, ok: bool)
    modifies c
    ensures var r := ApplyRun(c.world, wait, p, old(c.server));
      && c.server == r.server
      && ok == Succeeded(r)
      && result == ApplyResult(r.projectId, r.errors, r.jobs)
  {
    hide Step, Exec;
    ghost var w, r := c.world, Start(c.world, p, c.server);
    ghost var p0 := if p.projectId == "" then [CreateProject] else CreateInstrs(p.envs);
    ghost var p1, p2, p3, p4 := [FillIds], ComponentInstrs(p.envs), AddonInstrs(p.envs), DeployInstrs(p.envs);
    var ids := KnownIds(c.world, p.envs);
    var projectId := p.projectId;
    var running: bool;
    ProgramPhases(w, wait, p, r);
    if p.projectId == "" {
      running, projectId := CreateTheProject(c, p, wait, r);
    } else {
      running, ids := CreateEnvironments(c, p, ids, wait, r);
    }
    ghost var r0 := Exec(w, wait, p, r, p0);
    ghost var r1 := Exec(w, wait, p, r0, p1);
    ghost var r2 := Exec(w, wait, p, r1, p2);
    ghost var r3 := Exec(w, wait, p, r2, p3);
    if running {
      ids, running := FillIdsTurn(c, p, ids, wait, r0);
    } else {
      StoppedPhase(w, wait, p, r0, p1);
    }
    var refused: map<string, Refusals>, errors: seq<ComponentError> := map[], [];
    if running {
      running, refused, errors := ApplyComponents(c, p, ids, wait, r1);
    } else {
      StoppedPhase(w, wait, p, r1, p2);
    }
    if running {
      refused, errors := ApplyAddons(c, p, ids, refused, errors, wait, r2);
    } else {
      StoppedPhase(w, wait, p, r2, p3);
    }
    var jobs: seq<DeployJob> := [];
    if running {
      running, jobs := ApplyDeploys(c, p, ids, refused, errors, wait, r3);
    } else {
      StoppedPhase(w, wait, p, r3, p4);
    }
    return ApplyResult(projectId, errors, jobs), running && errors == [];
  }

  lemma ProgramPhases(w: World, wait: bool, p: Plan, r: Run)
    ensures var p0 := if p.projectId == "" then [CreateProject] else CreateInstrs(p.envs);
      Exec(w, wait, p, r, Program(p)) ==
      Exec(w, wait, p, Exec(w, wait, p, Exec(w, wait, p, Exec(w, wait, p, Exec(w, wait, p, r, p0),
        [FillIds]), ComponentInstrs(p.envs)), AddonInstrs(p.envs)), DeployInstrs(p.envs))
  {
    hide Step, Exec;
    var p0 := if p.projectId == "" then [CreateProject] else CreateInstrs(p.envs);
    ExecAppend(w, wait, p, r, p0, [FillIds]);
    ExecAppend(w, wait, p, r, p0 + [FillIds], ComponentInstrs(p.envs));
    ExecAppend(w, wait, p, r, p0 + [FillIds] + ComponentInstrs(p.envs), AddonInstrs(p.envs));
    ExecAppend(w, wait, p, r, p0 + [FillIds] + ComponentInstrs(p.envs) + AddonInstrs(p.envs), DeployInstrs(p.envs));
  }

  lemma StoppedPhase(w: World, wait: bool, p: Plan, r: Run, phase: seq<Instr>)
    requires r.status != Running
    ensures Exec(w, wait, p, r, phase) == r
  {
    assert Exec(w, wait, p, r, []) == r;
    ExecStopped(w, wait, p, r, [], phase);
  }

  method CreateTheProject(c: Client, p: Plan, ghost wait: bool, ghost r: Run) returns (ok: bool, projectId: string)
    requires p.projectId == "" && Holds(c, r, "", r.ids, map[], [], [], true)
    modifies c
    ensures Holds(c, Exec(c.world, wait, p, r, [CreateProject]), projectId, r.ids, map[], [], [], ok)
  {
    ExecSnoc(c.world, wait, p, r, [], CreateProject);
    assert [] + [CreateProject] == [CreateProject];
    projectId := "";
    var created, id := c.CreateProject(Specs(p.manifest));
    ok := created;
    if ok { projectId := id; }
  }

  method FillIdsTurn(c: Client, p: Plan, before: map<string, string>, ghost wait: bool, ghost r: Run)
    returns (ids: map<string, string>, ok: bool)
    requires Holds(c, r, r.projectId, before, map[], [], [], true)
    modifies c
    ensures Holds(c, Exec(c.world, wait, p, r, [FillIds]), r.projectId, ids, map[], [], [], ok)
  {
    hide StepFillIds;
    ExecSnoc(c.world, wait, p, r, [], FillIds);
    assert [] + [FillIds] == [FillIds];
    ok, ids := FillEnvironmentIDs(c, p.envs, before, r);
  }
}
