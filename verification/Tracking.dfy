/** One environment, one component or one add-on followed through a whole run that nobody else
    interferes with. */
module Tracking {
  import opened Options
  import opened FieldDiffs
  import opened Addons
  import opened ControlPlane
  import opened ServerInvariants
  import opened Plans
  import opened Applies
  import opened Applier
  import opened Addressing
  import opened Lookups
  import opened Progress

  // ----- one instruction -----

  predicate Opens(i: Instr) {
    i.CreateProject? || i.AddEnv? || i.FillIds?
  }

  /** A component is planned under its lookup name, and an add-on's request is its own. */
  predicate Proper(w: World, i: Instr) {
    && (i.WriteComponent? ==> ProperKey(w, i.component.kind, i.component.name))
    && (i.WriteAddon? && i.addon.request.Some? ==> i.addon.request.value.id == i.addon.id)
  }

  predicate Aimed(w: World, r: Run, i: Instr) {
    r.status == Running && !Opens(i) ==> IdOf(w, r.ids, i.env.name) != ""
  }

  predicate HitsAddon(w: World, i: Instr, env: string, id: string) {
    i.WriteAddon? && w.norm(i.env.name) == w.norm(env) && i.addon.id == id
  }

  lemma FillIdsServer(w: World, envs: seq<EnvPlan>, r: Run)
    ensures StepFillIds(w, envs, r).server in {r.server, Arrive(w, r.server)}
    ensures StepFillIds(w, envs, r).log == r.log && StepFillIds(w, envs, r).errors == r.errors
  {
    hide Arrive, AllKnown, FillFrom;
  }

  lemma StepSlotFrame(w: World, wait: bool, p: Plan, r: Run, i: Instr, k: Slot)
    requires WorldOk(w) && Quiet(w) && Going(w, r) && Proper(w, i) && Aimed(w, r, i)
    requires ProperSlot(w, k) && !Hits(w, i, k)
    ensures SlotRow(w, Step(w, wait, p, r, i).server, k) == SlotRow(w, r.server, k)
  {
    hide ServerOk, IdsHere, WorldOk, RequestComponent, RequestEnable, RequestDeploy, RequestCreate, RequestAddEnv, Arrive, Meanwhile, RowBefore, RowAfter, Found, FoundId, FoundById, EnabledIn, SlotRow, AddonFor, StepFillIds, AllWellAddressed;
    if r.status == Running {
      match i {
        case CreateProject => CreateFrame(w, r.server, Specs(p.manifest), k, "");
        case AddEnv(e) =>
          var d := FindDecl(p.manifest.envs, e.name);
          if d.Some? { AddEnvFrame(w, r.server, Spec(d.value), k, ""); }
        case FillIds =>
          FillIdsServer(w, p.envs, r);
          ArriveFrame(w, r.server, k, "");
        case WriteComponent(e, c) =>
          if c.action != Unchanged { ComponentFrame(w, r, e, c, k); }
        case WriteAddon(e, a) =>
          if a.request.Some? { EnableKeepsRows(w, r, e.name, a.request.value, k); }
        case Deploy(e) => DeployFrame(w, r.server, IdOf(w, r.ids, e.name), k, "");
      }
    }
  }

  lemma StepAddonFrame(w: World, wait: bool, p: Plan, r: Run, i: Instr, env: string, id: string)
    requires WorldOk(w) && Quiet(w) && Going(w, r) && Proper(w, i) && Aimed(w, r, i)
    requires !HitsAddon(w, i, env, id)
    ensures AddonFor(w, Step(w, wait, p, r, i).server, env, id) == AddonFor(w, r.server, env, id)
  {
    hide ServerOk, IdsHere, WorldOk, RequestComponent, RequestEnable, RequestDeploy, RequestCreate, RequestAddEnv, Arrive, Meanwhile, RowBefore, RowAfter, Found, FoundId, FoundById, EnabledIn, SlotRow, AddonFor, StepFillIds, AllWellAddressed;
    var k := Slot(env, "", "");
    if r.status == Running {
      match i {
        case CreateProject => CreateFrame(w, r.server, Specs(p.manifest), k, id);
        case AddEnv(e) =>
          var d := FindDecl(p.manifest.envs, e.name);
          if d.Some? { AddEnvFrame(w, r.server, Spec(d.value), k, id); }
        case FillIds =>
          FillIdsServer(w, p.envs, r);
          ArriveFrame(w, r.server, k, id);
        case WriteComponent(e, c) =>
          if c.action != Unchanged { ComponentKeepsAddons(w, r, e, c, env, id); }
        case WriteAddon(e, a) =>
          if a.request.Some? { EnableFrame(w, r, e.name, a.request.value, env, id); }
        case Deploy(e) => DeployFrame(w, r.server, IdOf(w, r.ids, e.name), k, id);
      }
    }
  }

  // ----- a run succeeded only if it had all along -----

  lemma StepSucceeded(w: World, wait: bool, p: Plan, r: Run, i: Instr)
    requires Succeeded(Step(w, wait, p, r, i))
    ensures Succeeded(r)
  {
    hide RequestComponent, RequestEnable, RequestDeploy, RequestCreate, RequestAddEnv, Arrive, Meanwhile, RowBefore, RowAfter, Found, FoundId, FoundById, EnabledIn, FillFrom, AllKnown;
  }

  lemma {:induction false} SucceededBefore(w: World, wait: bool, p: Plan, r: Run, program: seq<Instr>)
    requires Succeeded(Exec(w, wait, p, r, program))
    ensures Succeeded(r)
  {
    hide Step, Succeeded;
    if program != [] {
      var front := program[..|program| - 1];
      StepSucceeded(w, wait, p, Exec(w, wait, p, r, front), program[|program| - 1]);
      SucceededBefore(w, wait, p, r, front);
    }
  }

  // ----- a stretch of the program -----

  /** The stretch only opens, or everything it addresses is known. */
  ghost predicate Supported(w: World, p: Plan, r: Run, program: seq<Instr>) {
    && Going(w, r)
    && (|| (forall i :: i in program ==> Opens(i))
        || ((r.status == Running ==> AllKnown(w, p.envs, r.ids)) && forall i :: i in program ==> AddressedInstr(i, p.envs)))
  }

  lemma Front(w: World, wait: bool, p: Plan, r: Run, program: seq<Instr>)
    requires program != [] && WorldOk(w) && Quiet(w) && Supported(w, p, r, program)
    ensures var front := program[..|program| - 1]; var before := Exec(w, wait, p, r, front);
      Supported(w, p, r, front) && Going(w, before) && Aimed(w, before, program[|program| - 1])
  {
    hide ServerOk, IdsHere, IdsOk, WorldOk, Quiet, Step, AllWellAddressed;
    var front, last := program[..|program| - 1], program[|program| - 1];
    assert forall i :: i in front ==> i in program;
    HereIsOk(w, r.ids, r.server);
    ExecIdsHere(w, wait, p, r, front);
    if forall i :: i in program ==> Opens(i) {
      ExecUnaddressed(w, wait, p, r, front);
      assert Opens(last);
    } else {
      ExecAddressed(w, wait, p, r, front);
      assert AddressedInstr(last, p.envs);
    }
  }

  // ----- one component -----

  predicate AnyHit(w: World, program: seq<Instr>, k: Slot) {
    exists i :: 0 <= i < |program| && Hits(w, program[i], k)
  }

  predicate HitOnce(w: World, program: seq<Instr>, k: Slot) {
    forall i, j :: 0 <= i < j < |program| ==> !(Hits(w, program[i], k) && Hits(w, program[j], k))
  }

  lemma AnyHitLast(w: World, program: seq<Instr>, k: Slot)
    requires program != []
    ensures AnyHit(w, program, k) <==> AnyHit(w, program[..|program| - 1], k) || Hits(w, program[|program| - 1], k)
    ensures HitOnce(w, program, k) ==>
      HitOnce(w, program[..|program| - 1], k)
      && !(AnyHit(w, program[..|program| - 1], k) && Hits(w, program[|program| - 1], k))
  {
    hide Hits;
    var front := program[..|program| - 1];
    if AnyHit(w, front, k) {
      var i :| 0 <= i < |front| && Hits(w, front[i], k);
      assert Hits(w, program[i], k);
    }
  }

  lemma {:induction false} ExecSlotFrame(w: World, wait: bool, p: Plan, r: Run, program: seq<Instr>, k: Slot)
    requires WorldOk(w) && Quiet(w) && Supported(w, p, r, program) && ProperSlot(w, k)
    requires forall i :: i in program ==> Proper(w, i)
    requires !AnyHit(w, program, k)
    ensures SlotRow(w, Exec(w, wait, p, r, program).server, k) == SlotRow(w, r.server, k)
  {
    hide WorldOk, Quiet, Supported, Going, Step, Proper, ProperSlot, Hits, SlotRow, AnyHit, HitOnce, Aimed;
    if program != [] {
      var front, last := program[..|program| - 1], program[|program| - 1];
      assert last in program;
      AnyHitLast(w, program, k);
      Front(w, wait, p, r, program);
      ExecSlotFrame(w, wait, p, r, front, k);
      StepSlotFrame(w, wait, p, Exec(w, wait, p, r, front), last, k);
    }
  }

  /** The values are the old ones, or the goal. */
  ghost predicate Between(w: World, s: Server, t: Server, d: Decl, k: Slot)
    requires DeclGood(w, d, SlotValues(w, s, k))
  {
    || SlotValues(w, t, k) == SlotValues(w, s, k)
    || AtGoal(w, s, t, d, k)
  }

  ghost predicate AtGoal(w: World, s: Server, t: Server, d: Decl, k: Slot)
    requires DeclGood(w, d, SlotValues(w, s, k))
  {
    SlotValues(w, t, k) == Some(Goal(w.rules(d.kind), d.fields, SlotValues(w, s, k)))
  }

  lemma RowsAreStored(w: World, s: Server, k: Slot)
    requires ServerOk(w, s)
    ensures SlotRow(w, s, k).Some? ==> StoredOk(SlotRow(w, s, k).value.values)
  {
    hide HistoryOk;
    if SlotRow(w, s, k).Some? {
      var e := Named(w, s.envs, k.env).value;
      assert e.id in s.rows && RowsOk(w, s.rows[e.id]);
    }
  }

  lemma StepSlotHit(w: World, wait: bool, p: Plan, r: Run, i: Instr, d: Decl, k: Slot)
    requires Quiet(w) && Going(w, r) && Aimed(w, r, i) && r.status == Running
    requires DeclGood(w, d, SlotValues(w, r.server, k)) && k == Slot(k.env, d.kind, d.name) && Hits(w, i, k)
    requires i.component == PlanFromRow(d, SlotRow(w, r.server, k))
    ensures var t := Step(w, wait, p, r, i);
      Between(w, r.server, t.server, d, k) && (Succeeded(t) ==> AtGoal(w, r.server, t.server, d, k))
  {
    hide ServerOk, IdsHere, RequestComponent, Arrive, Meanwhile, RowBefore, RowAfter, Found, FoundId, FoundById, EnabledIn, SlotRow, AllWellAddressed, Goal, PlanFromRow, DeclGood, Quiet;
    if i.component.action == Unchanged {
      RowsAreStored(w, r.server, k);
      UnchangedIsGoal(w, r.server, d, SlotRow(w, r.server, k));
    } else {
      ComponentHit(w, r, i.env, d, k);
    }
  }

  /** A component through a stretch that writes it at most once, as planned from what it is. */
  lemma {:induction false} ExecSlot(w: World, wait: bool, p: Plan, r: Run, program: seq<Instr>, d: Decl, k: Slot)
    requires WorldOk(w) && Quiet(w) && Supported(w, p, r, program) && ProperSlot(w, k)
    requires forall i :: i in program ==> Proper(w, i)
    requires DeclGood(w, d, SlotValues(w, r.server, k)) && k == Slot(k.env, d.kind, d.name)
    requires HitOnce(w, program, k)
    requires forall i :: i in program && Hits(w, i, k) ==> i.component == PlanFromRow(d, SlotRow(w, r.server, k))
    ensures var t := Exec(w, wait, p, r, program);
      && Between(w, r.server, t.server, d, k)
      && (AnyHit(w, program, k) && Succeeded(t) ==> AtGoal(w, r.server, t.server, d, k))
  {
    hide WorldOk, Quiet, Supported, Going, Step, Proper, ProperSlot, SlotRow, AnyHit, HitOnce, Aimed, DeclGood, PlanFromRow, Goal, Succeeded;
    if program == [] {
      assert !AnyHit(w, program, k) by { NoHit(w, k); }
    } else {
      var front, last := program[..|program| - 1], program[|program| - 1];
      assert last in program;
      AnyHitLast(w, program, k);
      Front(w, wait, p, r, program);
      var before := Exec(w, wait, p, r, front);
      ExecSlot(w, wait, p, r, front, d, k);
      if Succeeded(Step(w, wait, p, before, last)) { StepSucceeded(w, wait, p, before, last); }
      if !Hits(w, last, k) {
        StepSlotFrame(w, wait, p, before, last, k);
      } else {
        ExecSlotFrame(w, wait, p, r, front, k);
        if before.status == Running {
          StepSlotHit(w, wait, p, before, last, d, k);
        } else {
          StepStopped(w, wait, p, before, last);
          NotRunning(before);
        }
      }
    }
  }

  lemma NoHit(w: World, k: Slot)
    ensures !AnyHit(w, [], k)
  {
  }

  lemma NotRunning(r: Run)
    requires r.status != Running
    ensures !Succeeded(r)
  {
  }

  // ----- one add-on -----

  predicate AnyAddonHit(w: World, program: seq<Instr>, env: string, id: string) {
    exists i :: 0 <= i < |program| && HitsAddon(w, program[i], env, id)
  }

  predicate AddonHitOnce(w: World, program: seq<Instr>, env: string, id: string) {
    forall i, j :: 0 <= i < j < |program| ==> !(HitsAddon(w, program[i], env, id) && HitsAddon(w, program[j], env, id))
  }

  lemma AnyAddonHitLast(w: World, program: seq<Instr>, env: string, id: string)
    requires program != []
    ensures AnyAddonHit(w, program, env, id) <==>
      AnyAddonHit(w, program[..|program| - 1], env, id) || HitsAddon(w, program[|program| - 1], env, id)
    ensures AddonHitOnce(w, program, env, id) ==>
      AddonHitOnce(w, program[..|program| - 1], env, id)
      && !(AnyAddonHit(w, program[..|program| - 1], env, id) && HitsAddon(w, program[|program| - 1], env, id))
  {
    hide HitsAddon;
    var front := program[..|program| - 1];
    if AnyAddonHit(w, front, env, id) {
      var i :| 0 <= i < |front| && HitsAddon(w, front[i], env, id);
      assert HitsAddon(w, program[i], env, id);
    }
  }

  lemma {:induction false} ExecAddonFrame(w: World, wait: bool, p: Plan, r: Run, program: seq<Instr>, env: string, id: string)
    requires WorldOk(w) && Quiet(w) && Supported(w, p, r, program)
    requires forall i :: i in program ==> Proper(w, i)
    requires !AnyAddonHit(w, program, env, id)
    ensures AddonFor(w, Exec(w, wait, p, r, program).server, env, id) == AddonFor(w, r.server, env, id)
  {
    hide WorldOk, Quiet, Supported, Going, Step, Proper, HitsAddon, AddonFor, AnyAddonHit, AddonHitOnce, Aimed;
    if program != [] {
      var front, last := program[..|program| - 1], program[|program| - 1];
      assert last in program;
      AnyAddonHitLast(w, program, env, id);
      Front(w, wait, p, r, program);
      ExecAddonFrame(w, wait, p, r, front, env, id);
      StepAddonFrame(w, wait, p, Exec(w, wait, p, r, front), last, env, id);
    }
  }

  ghost predicate AddonSound(w: World, a: AddonDecl) {
    AddonDeclOk(a, EntryOf(w.catalog, a.id)) && EntryOk(EntryOf(w.catalog, a.id))
  }

  /** The plan of an add-on from what is stored. */
  ghost function AddonPlanned(w: World, s: Server, env: string, a: AddonDecl): AddonOutcome {
    PlanFor(a, AddonFor(w, s, env, a.id), EntryOf(w.catalog, a.id))
  }

  ghost function AddonGoal(w: World, s: Server, env: string, a: AddonDecl): Option<StoredAddon> {
    AddonTarget(a, AddonFor(w, s, env, a.id), EntryOf(w.catalog, a.id))
  }

  ghost predicate AddonBetween(w: World, s: Server, t: Server, env: string, a: AddonDecl) {
    AddonFor(w, t, env, a.id) == AddonFor(w, s, env, a.id) || AddonFor(w, t, env, a.id) == AddonGoal(w, s, env, a)
  }

  lemma StepAddonHit(w: World, wait: bool, p: Plan, r: Run, i: Instr, env: string, a: AddonDecl)
    requires Quiet(w) && Going(w, r) && Aimed(w, r, i) && r.status == Running
    requires AddonSound(w, a) && HitsAddon(w, i, env, a.id)
    requires AddonPlanned(w, r.server, env, a).Planned? && i.addon == AddonPlanned(w, r.server, env, a).plan
    ensures var t := Step(w, wait, p, r, i);
      && AddonBetween(w, r.server, t.server, env, a)
      && (Succeeded(t) ==> AddonFor(w, t.server, env, a.id) == AddonGoal(w, r.server, env, a))
  {
    hide ServerOk, IdsHere, RequestEnable, Arrive, Meanwhile, RowBefore, RowAfter, Found, FoundId, FoundById, EnabledIn, AddonFor, AllWellAddressed, PlanFor, AddonTarget, AddonDeclOk, Quiet;
    PlanRequestsItself(a, AddonFor(w, r.server, env, a.id), EntryOf(w.catalog, a.id));
    if i.addon.request.Some? {
      AddonHit(w, r, i.env.name, a, env);
    } else {
      NothingRequested(a, AddonFor(w, r.server, env, a.id), EntryOf(w.catalog, a.id));
    }
  }

  lemma NothingRequested(a: AddonDecl, stored: Option<StoredAddon>, entry: CatalogEntry)
    requires PlanFor(a, stored, entry).Planned? && PlanFor(a, stored, entry).plan.request == None
    ensures AddonTarget(a, stored, entry) == stored
  {
  }

  /** An add-on through a stretch that requests it at most once, as planned from what is stored. */
  lemma {:induction false} ExecAddon(w: World, wait: bool, p: Plan, r: Run, program: seq<Instr>, env: string, a: AddonDecl)
    requires WorldOk(w) && Quiet(w) && Supported(w, p, r, program)
    requires forall i :: i in program ==> Proper(w, i)
    requires AddonSound(w, a) && AddonPlanned(w, r.server, env, a).Planned?
    requires AddonHitOnce(w, program, env, a.id)
    requires forall i :: i in program && HitsAddon(w, i, env, a.id) ==> i.addon == AddonPlanned(w, r.server, env, a).plan
    ensures var t := Exec(w, wait, p, r, program);
      && AddonBetween(w, r.server, t.server, env, a)
      && (AnyAddonHit(w, program, env, a.id) && Succeeded(t) ==>
            AddonFor(w, t.server, env, a.id) == AddonGoal(w, r.server, env, a))
  {
    hide WorldOk, Quiet, Supported, Going, Step, Proper, AddonFor, AnyAddonHit, AddonHitOnce, Aimed, AddonSound, AddonTarget, PlanFor, Succeeded;
    if program == [] {
      NoAddonHit(w, env, a.id);
    } else {
      var front, last := program[..|program| - 1], program[|program| - 1];
      assert last in program;
      AnyAddonHitLast(w, program, env, a.id);
      Front(w, wait, p, r, program);
      var before := Exec(w, wait, p, r, front);
      ExecAddon(w, wait, p, r, front, env, a);
      if Succeeded(Step(w, wait, p, before, last)) { StepSucceeded(w, wait, p, before, last); }
      if !HitsAddon(w, last, env, a.id) {
        StepAddonFrame(w, wait, p, before, last, env, a.id);
      } else {
        ExecAddonFrame(w, wait, p, r, front, env, a.id);
        if before.status == Running {
          StepAddonHit(w, wait, p, before, last, env, a);
        } else {
          StepStopped(w, wait, p, before, last);
          NotRunning(before);
        }
      }
    }
  }

  lemma NoAddonHit(w: World, env: string, id: string)
    ensures !AnyAddonHit(w, [], env, id)
  {
  }

  // ----- one environment -----

  /** What an environment is, but for its id and whether it is the default one. */
  function EnvFor(w: World, s: Server, name: string): Option<EnvSpec> {
    var e := Named(w, s.envs, name);
    if e == None then None else Some(EnvSpec(e.value.name, e.value.stage, e.value.placement, e.value.lifecycle))
  }

  /** What its declaration asks for. */
  function Asked(w: World, d: EnvDecl): EnvSpec {
    EnvSpec(w.norm(d.name), d.stage, d.placement, if d.lifecycle == "" then DEFAULT_LIFECYCLE else d.lifecycle)
  }

  predicate AskedFor(w: World, m: Manifest, name: string, spec: EnvSpec) {
    exists d :: d in m.envs && w.norm(d.name) == w.norm(name) && spec == Asked(w, d)
  }

  /** An environment that exists stays; one that does not may come to be as declared. */
  ghost predicate EnvBetween(w: World, m: Manifest, s: Server, t: Server, name: string) {
    || EnvFor(w, t, name) == EnvFor(w, s, name)
    || (EnvFor(w, s, name) == None && EnvFor(w, t, name).Some? && AskedFor(w, m, name, EnvFor(w, t, name).value))
  }

  /** Only new environments, each of them declared. */
  lemma NewEnvsAreAsked(w: World, m: Manifest, s: Server, t: Server, name: string)
    requires WorldOk(w) && ServerOk(w, t) && EnvsGrow(s, t)
    requires forall e :: e in t.envs ==> e in s.envs || exists d :: d in m.envs && CreatedFrom(w, e, Spec(d))
    ensures EnvBetween(w, m, s, t, name)
  {
    if Named(w, s.envs, name).Some? {
      NamedStays(w, s, t, name);
    } else if Named(w, t.envs, name).Some? {
      var e := Named(w, t.envs, name).value;
      assert e !in s.envs;
      var d :| d in m.envs && CreatedFrom(w, e, Spec(d));
      assert w.norm(d.name) == w.norm(name) && EnvFor(w, t, name).value == Asked(w, d);
    }
  }

  lemma AddEnvBetween(w: World, m: Manifest, s: Server, d: EnvDecl, name: string)
    requires WorldOk(w) && Quiet(w) && ServerOk(w, s) && d in m.envs
    ensures EnvBetween(w, m, s, RequestAddEnv(w, s, Spec(d)).server, name)
  {
    hide ServerOk, Keeps, EnvsGrow, Arrive, EnvBetween, NewEnv, WorldOk, Quiet;
    QuietArrive(w, s);
    RequestAddEnvOk(w, s, Spec(d));
    NewEnvIsAsked(w, Arrive(w, s), Spec(d));
    NewEnvsAreAsked(w, m, s, RequestAddEnv(w, s, Spec(d)).server, name);
  }

  lemma CreateBetween(w: World, m: Manifest, s: Server, name: string)
    requires WorldOk(w) && Quiet(w) && ServerOk(w, s)
    ensures EnvBetween(w, m, s, RequestCreate(w, s, Specs(m)).server, name)
  {
    hide ServerOk, Keeps, EnvsGrow, Arrive, EnvBetween, WorldOk, Quiet, SpecsOk, AddEnvs;
    QuietArrive(w, s);
    RequestCreateOk(w, s, Specs(m));
    var t := RequestCreate(w, s, Specs(m)).server;
    var u := Arrive(w, s);
    if ServeCreate(w, u, Specs(m)).ok {
      ArriveOk(w, s);
      CreatedEnvs(w, m, u);
    }
    NewEnvsAreAsked(w, m, s, t, name);
  }

  lemma CreatedEnvs(w: World, m: Manifest, s: Server)
    requires WorldOk(w) && ServerOk(w, s) && ServeCreate(w, s, Specs(m)).ok
    ensures forall e :: e in ServeCreate(w, s, Specs(m)).server.envs ==> exists d :: d in m.envs && CreatedFrom(w, e, Spec(d))
  {
    hide WorldOk, Extends, CreatedFrom, EnvsOk, RowsOk, NamesOk, AddonsOk, HistoryOk;
    var named := s.(project := Some(w.newId({})));
    NamedOk(w, s);
    AddEnvsOk(w, named, Specs(m));
    AddEnvsIgnoresProject(w, s, named, Specs(m));
    var t := ServeCreate(w, s, Specs(m)).server;
    forall e | e in t.envs ensures exists d :: d in m.envs && CreatedFrom(w, e, Spec(d)) {
      var i :| 0 <= i < |t.envs| && t.envs[i] == e;
      assert CreatedFrom(w, e, Spec(m.envs[i]));
    }
  }

  lemma SameEnvs(w: World, m: Manifest, s: Server, t: Server, name: string)
    requires t.envs == s.envs
    ensures EnvBetween(w, m, s, t, name)
  {
  }

  lemma StepEnv(w: World, wait: bool, p: Plan, r: Run, i: Instr, name: string)
    requires WorldOk(w) && Quiet(w) && Going(w, r) && Aimed(w, r, i)
    ensures EnvBetween(w, p.manifest, r.server, Step(w, wait, p, r, i).server, name)
  {
    hide ServerOk, IdsHere, WorldOk, RequestComponent, RequestEnable, RequestDeploy, RequestCreate, RequestAddEnv, Arrive, Meanwhile, RowBefore, RowAfter, Found, FoundId, FoundById, EnabledIn, EnvBetween, StepFillIds, AllWellAddressed, EnvFor;
    SameEnvs(w, p.manifest, r.server, r.server, name);
    if r.status == Running {
      match i {
        case CreateProject => CreateBetween(w, p.manifest, r.server, name);
        case AddEnv(e) =>
          var d := FindDecl(p.manifest.envs, e.name);
          FindDeclName(p.manifest.envs, e.name);
          if d.Some? { AddEnvBetween(w, p.manifest, r.server, d.value, name); }
        case FillIds =>
          FillIdsServer(w, p.envs, r);
          QuietArrive(w, r.server);
          SameEnvs(w, p.manifest, r.server, Arrive(w, r.server), name);
        case _ =>
          WritesKeepEnvs(w, wait, p, r, i);
          SameEnvs(w, p.manifest, r.server, Step(w, wait, p, r, i).server, name);
      }
    }
  }

  lemma WritesKeepEnvs(w: World, wait: bool, p: Plan, r: Run, i: Instr)
    requires WorldOk(w) && Quiet(w) && Going(w, r) && Aimed(w, r, i) && !Opens(i)
    ensures Step(w, wait, p, r, i).server.envs == r.server.envs
  {
    hide ServerOk, IdsHere, WorldOk, RequestComponent, RequestEnable, RequestDeploy, Arrive, Meanwhile, RowBefore, RowAfter, Found, FoundId, FoundById, EnabledIn, AllWellAddressed, ServeComponent, ServeEnable;
    QuietArrive(w, r.server);
    if r.status == Running {
      match i {
        case WriteComponent(e, c) =>
          if c.action != Unchanged {
            RequestServes(w, r, e.name, c);
            ComponentWritesRows(w, Arrive(w, r.server), Named(w, r.server.envs, e.name).value.id, c);
          }
        case WriteAddon(e, a) =>
          if a.request.Some? {
            EnableServes(w, r, e.name, a.request.value);
            ServeEnableWrites(w, Arrive(w, r.server), Named(w, r.server.envs, e.name).value.id, a.request.value);
          }
        case Deploy(e) => DeployFrame(w, r.server, IdOf(w, r.ids, e.name), Slot("", "", ""), "");
      }
    }
  }

  lemma {:induction false} ExecEnv(w: World, wait: bool, p: Plan, r: Run, program: seq<Instr>, name: string)
    requires WorldOk(w) && Quiet(w) && Supported(w, p, r, program)
    ensures EnvBetween(w, p.manifest, r.server, Exec(w, wait, p, r, program).server, name)
  {
    hide WorldOk, Quiet, Supported, Going, Step, Aimed, EnvFor, AskedFor;
    if program != [] {
      var front, last := program[..|program| - 1], program[|program| - 1];
      Front(w, wait, p, r, program);
      ExecEnv(w, wait, p, r, front, name);
      StepEnv(w, wait, p, Exec(w, wait, p, r, front), last, name);
    }
  }
}
