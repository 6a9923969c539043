/** `executeApply` (apps/cli/cmd/apply.go:868-1078) as a run of instructions: what the plan has apply
    do, in order, and what each instruction does to the run. */
module Applies {
  import opened Options
  import opened FieldDiffs
  import opened Addons
  import opened ControlPlane
  import opened Plans

  datatype Refusals = Refusals(component: bool, addon: bool)

  datatype ComponentError = ComponentError(env: string, kind: string, name: string)

  datatype DeployJob = DeployJob(env: string, job: nat, succeeded: bool)

  datatype Status = Running | Aborted | DeployFailed

  /** What a run asked of the server and what came of it. `target` is the normalised name of the
      environment meant, `landed` the one the server resolved `ref` to, if any; of an add-on `found` is that
      one, and `landed` the one it was written to. `before` and `after` are the row written, around the
      write. */
  datatype Event =
    | Created(names: seq<string>)
    | Wrote(ref: string, target: string, landed: Option<Env>, plan: ComponentPlan, before: Option<Row>, after: Option<Row>, ok: bool)
    | Enabled(ref: string, target: string, found: Option<Env>, landed: Option<Env>, id: string, ok: bool)
    | Queued(ref: string, target: string, landed: Option<Env>, job: Option<nat>)
    | Finished(finished: nat, succeeded: bool)

  datatype Run = Run(
    server: Server, projectId: string, ids: map<string, string>, refused: map<string, Refusals>,
    errors: seq<ComponentError>, jobs: seq<DeployJob>, status: Status, log: seq<Event>)

  datatype Instr =
    | CreateProject
    | AddEnv(env: EnvPlan)
    | FillIds
    | WriteComponent(env: EnvPlan, component: ComponentPlan)
    | WriteAddon(env: EnvPlan, addon: AddonPlan)
    | Deploy(env: EnvPlan)

  // ----- the program of a plan -----

  function CreateInstrs(envs: seq<EnvPlan>): seq<Instr> {
    if envs == [] then []
    else
      var last := envs[|envs| - 1];
      CreateInstrs(envs[..|envs| - 1]) + if last.action == Create then [AddEnv(last)] else []
  }

  function EnvComponentInstrs(e: EnvPlan): seq<Instr> {
    seq(|e.components|, i requires 0 <= i < |e.components| => WriteComponent(e, e.components[i]))
  }

  function ComponentInstrs(envs: seq<EnvPlan>): seq<Instr> {
    if envs == [] then [] else ComponentInstrs(envs[..|envs| - 1]) + EnvComponentInstrs(envs[|envs| - 1])
  }

  function EnvAddonInstrs(e: EnvPlan): seq<Instr> {
    seq(|e.addons|, i requires 0 <= i < |e.addons| => WriteAddon(e, e.addons[i]))
  }

  function AddonInstrs(envs: seq<EnvPlan>): seq<Instr> {
    if envs == [] then [] else AddonInstrs(envs[..|envs| - 1]) + EnvAddonInstrs(envs[|envs| - 1])
  }

  function DeployInstrs(envs: seq<EnvPlan>): seq<Instr> {
    seq(|envs|, i requires 0 <= i < |envs| => Deploy(envs[i]))
  }

  /** Environments, then components, then add-ons, then deploys; each in file order. */
  function Program(p: Plan): seq<Instr> {
    (if p.projectId == "" then [CreateProject] else CreateInstrs(p.envs))
    + [FillIds] + ComponentInstrs(p.envs) + AddonInstrs(p.envs) + DeployInstrs(p.envs)
  }

  // ----- the ids -----

  function IdOf(w: World, ids: map<string, string>, name: string): string {
    if w.norm(name) in ids then ids[w.norm(name)] else ""
  }

  /** The ids the plan read. */
  function KnownIds(w: World, envs: seq<EnvPlan>): map<string, string> {
    if envs == [] then map[]
    else
      var last, ids := envs[|envs| - 1], KnownIds(w, envs[..|envs| - 1]);
      if last.id != "" then ids[w.norm(last.name) := last.id] else ids
  }

  predicate AllKnown(w: World, envs: seq<EnvPlan>, ids: map<string, string>) {
    forall e :: e in envs ==> IdOf(w, ids, e.name) != ""
  }

  /** The listed environments complete the map; an id it holds already stays. */
  function FillFrom(w: World, ids: map<string, string>, listed: seq<Env>): map<string, string> {
    if listed == [] then ids
    else
      var last, before := listed[|listed| - 1], FillFrom(w, ids, listed[..|listed| - 1]);
      if IdOf(w, before, last.name) == "" then before[w.norm(last.name) := last.id] else before
  }

  // ----- the steps -----

  function Specs(m: Manifest): seq<EnvSpec> {
    seq(|m.envs|, i requires 0 <= i < |m.envs| => Spec(m.envs[i]))
  }

  function Spec(d: EnvDecl): EnvSpec {
    EnvSpec(d.name, d.stage, d.placement, d.lifecycle)
  }

  /** `findEnv`. */
  function FindDecl(ds: seq<EnvDecl>, name: string): Option<EnvDecl> {
    if ds == [] then None else if ds[0].name == name then Some(ds[0]) else FindDecl(ds[1..], name)
  }

  function Names(ds: seq<EnvDecl>): seq<string> {
    seq(|ds|, i requires 0 <= i < |ds| => ds[i].name)
  }

  function StepCreateProject(w: World, m: Manifest, r: Run): Run {
    var a := RequestCreate(w, r.server, Specs(m));
    if !a.ok || a.server.project == None then r.(server := a.server, status := Aborted)
    else r.(server := a.server, projectId := a.server.project.value, log := r.log + [Created(Names(m.envs))])
  }

  function StepAddEnv(w: World, m: Manifest, r: Run, e: EnvPlan): Run {
    var d := FindDecl(m.envs, e.name);
    if d == None then r.(status := Aborted)
    else
      var a := RequestAddEnv(w, r.server, Spec(d.value));
      if !a.ok then r.(server := a.server, status := Aborted)
      else
        var id := if w.answersId(r.server.served) then a.server.envs[|a.server.envs| - 1].id else "";
        r.(server := a.server, ids := if id != "" then r.ids[w.norm(e.name) := id] else r.ids,
           log := r.log + [Created([e.name])])
  }

  /** `fillEnvironmentIDs`. */
  function StepFillIds(w: World, envs: seq<EnvPlan>, r: Run): Run {
    if AllKnown(w, envs, r.ids) then r
    else
      var t := Arrive(w, r.server);
      if w.fate(r.server.served) != Delivered then r.(server := t, status := Aborted)
      else
        var ids := FillFrom(w, r.ids, t.envs);
        r.(server := t, ids := ids, status := if AllKnown(w, envs, ids) then Running else Aborted)
  }

  /** The row a component request is about, just before it is written and once it has been. */
  function RowBefore(w: World, s: Server, ref: string, c: ComponentPlan): Option<Row> {
    RowIn(Meanwhile(w, s), FoundId(w, s, ref), c.kind, c.name)
  }

  function RowAfter(w: World, s: Server, ref: string, c: ComponentPlan, after: Server): Option<Row> {
    RowIn(after, FoundId(w, s, ref), c.kind, c.name)
  }

  function RefusedIn(w: World, refused: map<string, Refusals>, name: string): Refusals {
    if w.norm(name) in refused then refused[w.norm(name)] else Refusals(false, false)
  }

  /** The one request a planned component makes. */
  function RequestComponent(w: World, s: Server, ref: string, c: ComponentPlan): Served
    requires c.action != Unchanged
  {
    if c.action == Create then RequestAdd(w, s, ref, c.kind, c.name, c.fields)
    else if c.name != "" then RequestUpdate(w, s, ref, c.kind, c.name, Body(c.changes), c.revision)
    else RequestUpsert(w, s, ref, c.kind, Body(c.changes), c.revision)
  }

  function StepComponent(w: World, r: Run, e: EnvPlan, c: ComponentPlan): Run {
    if c.action == Unchanged then r
    else
      var ref := IdOf(w, r.ids, e.name);
      var a := RequestComponent(w, r.server, ref, c);
      var log := r.log + [Wrote(ref, w.norm(e.name), Found(w, r.server, ref), c,
                                RowBefore(w, r.server, ref, c), RowAfter(w, r.server, ref, c, a.server), a.ok)];
      if a.ok then r.(server := a.server, log := log)
      else if c.action == Create then r.(server := a.server, log := log, status := Aborted)
      else
        r.(server := a.server, log := log,
           refused := r.refused[w.norm(e.name) := RefusedIn(w, r.refused, e.name).(component := true)],
           errors := r.errors + [ComponentError(e.name, c.kind, c.name)])
  }

  function StepAddon(w: World, r: Run, e: EnvPlan, a: AddonPlan): Run {
    if a.action == Unchanged || a.request == None then r
    else
      var ref := IdOf(w, r.ids, e.name);
      var b := RequestEnable(w, r.server, ref, a.request.value);
      var log := r.log + [Enabled(ref, w.norm(e.name), Found(w, r.server, ref), EnabledIn(w, r.server, ref), a.id, b.ok)];
      if b.ok then r.(server := b.server, log := log)
      else
        r.(server := b.server, log := log,
           refused := r.refused[w.norm(e.name) := RefusedIn(w, r.refused, e.name).(addon := true)],
           errors := r.errors + [ComponentError(e.name, "addon", a.id)])
  }

  function StepDeploy(w: World, wait: bool, r: Run, e: EnvPlan): Run {
    if !e.deploy || w.norm(e.name) in r.refused then r
    else
      var ref := IdOf(w, r.ids, e.name);
      var a := RequestDeploy(w, r.server, ref);
      var queued := Queued(ref, w.norm(e.name), FoundById(w, r.server, ref), JobOf(a));
      if JobOf(a) == None then r.(server := a.server, log := r.log + [queued], status := Aborted)
      else
        var job := JobOf(a).value;
        if !wait then
          r.(server := a.server, log := r.log + [queued], jobs := r.jobs + [DeployJob(e.name, job, false)])
        else
          r.(server := a.server, log := r.log + [queued, Finished(job, w.succeeds(job))],
             jobs := r.jobs + [DeployJob(e.name, job, w.succeeds(job))],
             status := if w.succeeds(job) then Running else DeployFailed)
  }

  /** The job an accepted deploy request queued: the last one. */
  function JobOf(a: Served): Option<nat> {
    if a.ok && a.server.jobs != [] then Some(|a.server.jobs| - 1) else None
  }

  function Step(w: World, wait: bool, p: Plan, r: Run, i: Instr): Run {
    if r.status != Running then r
    else
      match i
      case CreateProject => StepCreateProject(w, p.manifest, r)
      case AddEnv(e) => StepAddEnv(w, p.manifest, r, e)
      case FillIds => StepFillIds(w, p.envs, r)
      case WriteComponent(e, c) => StepComponent(w, r, e, c)
      case WriteAddon(e, a) => StepAddon(w, r, e, a)
      case Deploy(e) => StepDeploy(w, wait, r, e)
  }

  function Start(w: World, p: Plan, s: Server): Run {
    Run(s, p.projectId, KnownIds(w, p.envs), map[], [], [], Running, [])
  }

  function Exec(w: World, wait: bool, p: Plan, r: Run, program: seq<Instr>): Run {
    if program == [] then r
    else Step(w, wait, p, Exec(w, wait, p, r, program[..|program| - 1]), program[|program| - 1])
  }

  function ApplyRun(w: World, wait: bool, p: Plan, s: Server): Run {
    Exec(w, wait, p, Start(w, p, s), Program(p))
  }

  predicate Succeeded(r: Run) {
    r.status == Running && r.errors == []
  }
}
