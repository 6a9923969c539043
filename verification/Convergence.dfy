/** Convergence and resumability of `apply` (apps/cli/cmd/apply.go:405-532, 868-1046), when nobody else
    writes: a run that succeeds leaves nothing to do, and it makes no difference how many runs failed on
    the way there. */
module Convergence {
  import opened FieldDiffs
  import opened Addons
  import opened ControlPlane
  import opened ServerInvariants
  import opened Plans
  import opened Applies
  import opened Applier
  import opened Addressing
  import opened Lookups
  import opened Progress
  import opened Tracking
  import opened QuietPlans

  // ----- towards the goal -----

  predicate Declares(w: World, m: Manifest, k: Slot, d: Decl) {
    exists e :: e in m.envs && w.norm(e.name) == w.norm(k.env) && d in Decls(e.components) && d.kind == k.kind && d.name == k.name
  }

  predicate DeclaresAddon(w: World, m: Manifest, env: string, a: AddonDecl) {
    exists e :: e in m.envs && w.norm(e.name) == w.norm(env) && a in e.addons
  }

  predicate DeclaresEnv(w: World, m: Manifest, name: string) {
    exists e :: e in m.envs && w.norm(e.name) == w.norm(name)
  }

  /** Declared: the old values or the goal's. Otherwise the old ones. */
  ghost predicate SlotToward(w: World, m: Manifest, s: Server, t: Server, k: Slot) {
    && (forall d :: Declares(w, m, k, d) ==> DeclGood(w, d, SlotValues(w, s, k)) && Between(w, s, t, d, k))
    && ((exists d :: Declares(w, m, k, d)) || SlotValues(w, t, k) == SlotValues(w, s, k))
  }

  ghost predicate SlotReached(w: World, m: Manifest, s: Server, t: Server, k: Slot) {
    && (forall d :: Declares(w, m, k, d) ==> DeclGood(w, d, SlotValues(w, s, k)) && AtGoal(w, s, t, d, k))
    && ((exists d :: Declares(w, m, k, d)) || SlotValues(w, t, k) == SlotValues(w, s, k))
  }

  ghost predicate AddonToward(w: World, m: Manifest, s: Server, t: Server, env: string, id: string) {
    && (forall a :: DeclaresAddon(w, m, env, a) && a.id == id ==> AddonSound(w, a) && AddonBetween(w, s, t, env, a))
    && ((exists a :: DeclaresAddon(w, m, env, a) && a.id == id) || AddonFor(w, t, env, id) == AddonFor(w, s, env, id))
  }

  ghost predicate AddonReached(w: World, m: Manifest, s: Server, t: Server, env: string, id: string) {
    && (forall a :: DeclaresAddon(w, m, env, a) && a.id == id ==>
          AddonSound(w, a) && AddonFor(w, t, env, id) == AddonGoal(w, s, env, a))
    && ((exists a :: DeclaresAddon(w, m, env, a) && a.id == id) || AddonFor(w, t, env, id) == AddonFor(w, s, env, id))
  }

  ghost predicate EnvReached(w: World, m: Manifest, s: Server, t: Server, name: string) {
    EnvBetween(w, m, s, t, name) && (DeclaresEnv(w, m, name) ==> EnvFor(w, t, name).Some?)
  }

  /** Every component, add-on and environment is as it was, or as the file would have it. */
  ghost predicate Toward(w: World, m: Manifest, s: Server, t: Server) {
    && (forall k :: ProperSlot(w, k) ==> SlotToward(w, m, s, t, k))
    && (forall env, id :: AddonToward(w, m, s, t, env, id))
    && (forall name :: EnvBetween(w, m, s, t, name))
  }

  /** ... and everything the file declares is as the file would have it. */
  ghost predicate Reached(w: World, m: Manifest, s: Server, t: Server) {
    && (forall k :: ProperSlot(w, k) ==> SlotReached(w, m, s, t, k))
    && (forall env, id :: AddonReached(w, m, s, t, env, id))
    && (forall name :: EnvReached(w, m, s, t, name))
  }

  /** The same environments, component values and add-ons; ids and revisions may differ. */
  ghost predicate SameContent(w: World, s: Server, t: Server) {
    && (forall k :: ProperSlot(w, k) ==> SlotValues(w, s, k) == SlotValues(w, t, k))
    && (forall env, id :: AddonFor(w, s, env, id) == AddonFor(w, t, env, id))
    && (forall name :: EnvFor(w, s, name) == EnvFor(w, t, name))
  }

  // ----- the program in two stretches -----

  function Opening(p: Plan): seq<Instr> {
    (if p.projectId == "" then [CreateProject] else CreateInstrs(p.envs)) + [FillIds]
  }

  function Writing(p: Plan): seq<Instr> {
    ComponentInstrs(p.envs) + AddonInstrs(p.envs) + DeployInstrs(p.envs)
  }

  lemma TwoStretches(w: World, wait: bool, p: Plan, s: Server)
    ensures ApplyRun(w, wait, p, s) == Exec(w, wait, p, Exec(w, wait, p, Start(w, p, s), Opening(p)), Writing(p))
  {
    hide Step, Exec;
    assert Program(p) == Opening(p) + Writing(p);
    ExecAppend(w, wait, p, Start(w, p, s), Opening(p), Writing(p));
  }

  lemma PlannedIds(w: World, m: Manifest, s: Server, p: Plan)
    requires PlanIsOf(w, m, s, p)
    ensures IdsHere(w, KnownIds(w, p.envs), s)
  {
    hide PlanFromRow, PlanFor, EnvProblems, AddonPlanned;
    forall e | e in p.envs && e.id != "" ensures EnvHere(w, s, e.id, w.norm(e.name)) {
      var i :| 0 <= i < |p.envs| && p.envs[i] == e;
      assert EnvPlanned(w, s, m.envs[i], e);
    }
    KnownIdsHere(w, p.envs, s);
  }

  lemma {:induction false} KnownIdsHere(w: World, envs: seq<EnvPlan>, s: Server)
    requires forall e :: e in envs && e.id != "" ==> EnvHere(w, s, e.id, w.norm(e.name))
    ensures IdsHere(w, KnownIds(w, envs), s)
  {
    hide EnvHere;
    if envs != [] {
      KnownIdsHere(w, envs[..|envs| - 1], s);
      assert envs[|envs| - 1] in envs;
    }
  }

  lemma OpeningOpens(p: Plan)
    ensures forall i :: i in Opening(p) ==> Opens(i)
  {
    ProgramShape(p.envs);
  }

  lemma WritingWrites(p: Plan)
    ensures forall i :: i in Writing(p) ==> AddressedInstr(i, p.envs)
  {
    ProgramShape(p.envs);
  }

  /** Both stretches can rely on the ids. */
  lemma BothSupported(w: World, wait: bool, m: Manifest, s: Server, p: Plan)
    requires WorldOk(w) && Quiet(w) && ServerOk(w, s) && PlanIsOf(w, m, s, p)
    ensures var r := Start(w, p, s);
      Supported(w, p, r, Opening(p)) && Supported(w, p, Exec(w, wait, p, r, Opening(p)), Writing(p))
  {
    hide WorldOk, Quiet, ServerOk, IdsOk, IdsHere, PlanIsOf, Step, AllWellAddressed, AllKnown, Exec;
    var r := Start(w, p, s);
    PlannedIds(w, m, s, p);
    HereIsOk(w, r.ids, s);
    NothingLogged();
    OpeningOpens(p);
    WritingWrites(p);
    ProgramShape(p.envs);
    var p0 := if p.projectId == "" then [CreateProject] else CreateInstrs(p.envs);
    ExecUnaddressed(w, wait, p, r, p0);
    FillIdsPhase(w, wait, p, Exec(w, wait, p, r, p0));
    ExecAppend(w, wait, p, r, p0, [FillIds]);
    ExecIdsHere(w, wait, p, r, Opening(p));
  }

  lemma PlansAreProper(w: World, m: Manifest, s: Server, p: Plan)
    requires ValidManifest(w, m, s) && PlanIsOf(w, m, s, p)
    ensures forall i :: i in Opening(p) || i in Writing(p) ==> Proper(w, i)
    ensures DistinctPlans(w, p.envs)
    ensures forall e :: e in p.envs ==> DistinctComponents(e) && DistinctAddonPlans(e)
  {
    hide WellFormedEnv, SoundEnv, EnvPlanned;
    forall i | i in Opening(p) || i in Writing(p) ensures Proper(w, i) {
      OpeningOpens(p);
      ProgramShape(p.envs);
      if !Opens(i) {
        var x :| 0 <= x < |p.envs| && p.envs[x] == i.env;
        EnvPlanIsProper(w, s, m.envs[x], i.env);
      }
    }
    forall e | e in p.envs ensures DistinctComponents(e) && DistinctAddonPlans(e) {
      var x :| 0 <= x < |p.envs| && p.envs[x] == e;
      EnvPlanIsProper(w, s, m.envs[x], e);
    }
    forall i, j | 0 <= i < j < |p.envs| ensures w.norm(p.envs[i].name) != w.norm(p.envs[j].name) {
      EnvPlanIsProper(w, s, m.envs[i], p.envs[i]);
      EnvPlanIsProper(w, s, m.envs[j], p.envs[j]);
    }
  }

  lemma EnvPlanIsProper(w: World, s: Server, d: EnvDecl, e: EnvPlan)
    requires WellFormedEnv(w, d) && EnvPlanned(w, s, d, e)
    ensures e.name == d.name && DistinctComponents(e) && DistinctAddonPlans(e)
    ensures forall c :: c in e.components ==> ProperKey(w, c.kind, c.name)
    ensures forall a :: a in e.addons ==> a.request.Some? ==> a.request.value.id == a.id
  {
    hide PlanFromRow, PlanFor, AddonFits, EnvProblems, ProperKey;
    var ds := Decls(d.components);
    forall j | 0 <= j < |ds| ensures e.components[j].kind == ds[j].kind && e.components[j].name == ds[j].name && ProperKey(w, ds[j].kind, ds[j].name) {
      PlanKeeps(ds[j], SlotRow(w, s, Slot(d.name, ds[j].kind, ds[j].name)));
      assert DeclFits(w, ds[j]);
    }
    forall j | 0 <= j < |d.addons|
      ensures e.addons[j].id == d.addons[j].id && (e.addons[j].request.Some? ==> e.addons[j].request.value.id == e.addons[j].id)
    {
      PlanRequestsItself(d.addons[j], AddonFor(w, s, d.name, d.addons[j].id), EntryOf(w.catalog, d.addons[j].id));
    }
  }

  // ----- a slot through the run -----

  lemma OpeningKeepsSlot(w: World, wait: bool, m: Manifest, s: Server, p: Plan, k: Slot)
    requires WorldOk(w) && Quiet(w) && ServerOk(w, s) && ValidManifest(w, m, s) && PlanIsOf(w, m, s, p) && ProperSlot(w, k)
    ensures SlotRow(w, Exec(w, wait, p, Start(w, p, s), Opening(p)).server, k) == SlotRow(w, s, k)
  {
    hide WorldOk, Quiet, ServerOk, ValidManifest, PlanIsOf, Supported, Exec, ProperSlot, Opens, Opening, Proper;
    BothSupported(w, wait, m, s, p);
    PlansAreProper(w, m, s, p);
    OpeningOpens(p);
    OpeningHitsNothing(w, Opening(p), k, "");
    ExecSlotFrame(w, wait, p, Start(w, p, s), Opening(p), k);
  }

  lemma OpeningHitsNothing(w: World, program: seq<Instr>, k: Slot, id: string)
    requires forall i :: i in program ==> Opens(i)
    ensures !AnyHit(w, program, k) && !AnyAddonHit(w, program, k.env, id)
  {
    forall i | 0 <= i < |program| ensures Opens(program[i]) { assert program[i] in program; }
  }

  /** Only the component writes can hit a slot. */
  lemma WritingHitsOnce(w: World, p: Plan, k: Slot)
    requires DistinctPlans(w, p.envs) && forall e :: e in p.envs ==> DistinctComponents(e)
    ensures HitOnce(w, Writing(p), k)
    ensures forall i :: i in Writing(p) && Hits(w, i, k) ==> i in ComponentInstrs(p.envs)
    ensures (exists i :: i in ComponentInstrs(p.envs) && Hits(w, i, k)) ==> AnyHit(w, Writing(p), k)
  {
    var a, b := ComponentInstrs(p.envs), AddonInstrs(p.envs) + DeployInstrs(p.envs);
    ProgramShape(p.envs);
    ComponentsHitOnce(w, p.envs, k);
    assert Writing(p) == a + b;
    HitOnceAppend(w, a, b, k);
    if exists i :: i in a && Hits(w, i, k) {
      var i :| i in a && Hits(w, i, k);
      var x :| 0 <= x < |a| && a[x] == i;
      assert Writing(p)[x] == i;
    }
  }

  lemma SameInstr(w: World, program: seq<Instr>, k: Slot, i: Instr, j: Instr)
    requires HitOnce(w, program, k) && i in program && j in program && Hits(w, i, k) && Hits(w, j, k)
    ensures i == j
  {
    hide Hits;
    var x :| 0 <= x < |program| && program[x] == i;
    var y :| 0 <= y < |program| && program[y] == j;
    assert Hits(w, program[x], k) && Hits(w, program[y], k);
  }

  lemma DeclaredIsGood(w: World, m: Manifest, s: Server, k: Slot, d: Decl)
    requires ServerOk(w, s) && ValidManifest(w, m, s) && Declares(w, m, k, d)
    ensures DeclGood(w, d, SlotValues(w, s, k))
  {
    hide HistoryOk, RowsOk, NamesOk, AddonsOk, WellFormed, DeclGood, AddonSound, RowIn;
    var e :| e in m.envs && w.norm(e.name) == w.norm(k.env) && d in Decls(e.components) && d.kind == k.kind && d.name == k.name;
    assert SoundEnv(w, e, s);
    SameName(w, s.envs, e.name, k.env);
  }

  /** The instruction of a declared component. */
  lemma InstrOf(w: World, m: Manifest, s: Server, p: Plan, k: Slot, d: Decl) returns (i: Instr)
    requires ServerOk(w, s) && PlanIsOf(w, m, s, p) && Declares(w, m, k, d)
    ensures i in ComponentInstrs(p.envs) && Hits(w, i, k) && i.component == PlanFromRow(d, SlotRow(w, s, k))
  {
    hide PlanFromRow, EnvProblems, AddonPlanned, HistoryOk, RowsOk, RowIn, NamesOk, AddonsOk;
    var e :| e in m.envs && w.norm(e.name) == w.norm(k.env) && d in Decls(e.components) && d.kind == k.kind && d.name == k.name;
    var x :| 0 <= x < |m.envs| && m.envs[x] == e;
    var j :| 0 <= j < |Decls(e.components)| && Decls(e.components)[j] == d;
    assert EnvPlanned(w, s, e, p.envs[x]);
    ComponentInstrsAt(p.envs, x, j);
    i := WriteComponent(p.envs[x], p.envs[x].components[j]);
    SameName(w, s.envs, e.name, k.env);
    PlanKeeps(d, SlotRow(w, s, k));
  }

  /** A component the plan does not contain is one the file does not declare. */
  lemma HitIsDeclared(w: World, m: Manifest, s: Server, p: Plan, k: Slot, i: Instr)
    requires ValidManifest(w, m, s) && PlanIsOf(w, m, s, p) && i in ComponentInstrs(p.envs) && Hits(w, i, k)
    ensures exists d :: Declares(w, m, k, d)
  {
    hide PlanFromRow, EnvProblems, AddonPlanned, WellFormed;
    ProgramShape(p.envs);
    var x :| 0 <= x < |p.envs| && p.envs[x] == i.env;
    assert EnvPlanned(w, s, m.envs[x], i.env);
    var j :| 0 <= j < |i.env.components| && i.env.components[j] == i.component;
    var d := Decls(m.envs[x].components)[j];
    PlanKeeps(d, SlotRow(w, s, Slot(m.envs[x].name, d.kind, d.name)));
    assert m.envs[x] in m.envs;
    assert Declares(w, m, k, d);
  }

  lemma DeclaredSlotThroughRun(w: World, wait: bool, m: Manifest, s: Server, p: Plan, k: Slot, d: Decl)
    requires WorldOk(w) && Quiet(w) && ServerOk(w, s) && ValidManifest(w, m, s) && PlanIsOf(w, m, s, p) && ProperSlot(w, k)
    requires Declares(w, m, k, d)
    ensures DeclGood(w, d, SlotValues(w, s, k))
    ensures var t := ApplyRun(w, wait, p, s);
      Between(w, s, t.server, d, k) && (Succeeded(t) ==> AtGoal(w, s, t.server, d, k))
  {
    hide WorldOk, Quiet, ServerOk, ValidManifest, PlanIsOf, Supported, Exec, ProperSlot, Opens, Opening, Writing, Proper, DeclGood, PlanFromRow, Goal, HitOnce, AnyHit, ApplyRun, Succeeded;
    var i := InstrOf(w, m, s, p, k, d);
    DeclaredIsGood(w, m, s, k, d);
    BothSupported(w, wait, m, s, p);
    PlansAreProper(w, m, s, p);
    OpeningKeepsSlot(w, wait, m, s, p, k);
    WritingHitsOnce(w, p, k);
    InWriting(p, i);
    forall j | j in Writing(p) && Hits(w, j, k) ensures j == i { SameInstr(w, Writing(p), k, i, j); }
    TwoStretches(w, wait, p, s);
    ExecSlot(w, wait, p, Exec(w, wait, p, Start(w, p, s), Opening(p)), Writing(p), d, k);
  }

  lemma InWriting(p: Plan, i: Instr)
    requires i in ComponentInstrs(p.envs) || i in AddonInstrs(p.envs)
    ensures i in Writing(p)
  {
  }

  lemma UndeclaredSlotThroughRun(w: World, wait: bool, m: Manifest, s: Server, p: Plan, k: Slot)
    requires WorldOk(w) && Quiet(w) && ServerOk(w, s) && ValidManifest(w, m, s) && PlanIsOf(w, m, s, p) && ProperSlot(w, k)
    requires forall d :: !Declares(w, m, k, d)
    ensures SlotRow(w, ApplyRun(w, wait, p, s).server, k) == SlotRow(w, s, k)
  {
    hide WorldOk, Quiet, ServerOk, ValidManifest, PlanIsOf, Supported, Exec, ProperSlot, Opens, Opening, Proper, Declares, HitOnce;
    BothSupported(w, wait, m, s, p);
    PlansAreProper(w, m, s, p);
    OpeningKeepsSlot(w, wait, m, s, p, k);
    WritingHitsOnce(w, p, k);
    forall x | 0 <= x < |Writing(p)| ensures !Hits(w, Writing(p)[x], k) {
      if Hits(w, Writing(p)[x], k) { HitIsDeclared(w, m, s, p, k, Writing(p)[x]); }
    }
    TwoStretches(w, wait, p, s);
    ExecSlotFrame(w, wait, p, Exec(w, wait, p, Start(w, p, s), Opening(p)), Writing(p), k);
  }

  lemma SlotThroughRun(w: World, wait: bool, m: Manifest, s: Server, p: Plan, k: Slot)
    requires WorldOk(w) && Quiet(w) && ServerOk(w, s) && ValidManifest(w, m, s) && PlanIsOf(w, m, s, p) && ProperSlot(w, k)
    ensures var t := ApplyRun(w, wait, p, s);
      SlotToward(w, m, s, t.server, k) && (Succeeded(t) ==> SlotReached(w, m, s, t.server, k))
  {
    hide WorldOk, Quiet, ServerOk, ValidManifest, PlanIsOf, ApplyRun, Declares, Between, AtGoal, DeclGood, SlotRow, Succeeded;
    if exists d :: Declares(w, m, k, d) {
      forall d | Declares(w, m, k, d)
        ensures DeclGood(w, d, SlotValues(w, s, k)) && Between(w, s, ApplyRun(w, wait, p, s).server, d, k)
        ensures Succeeded(ApplyRun(w, wait, p, s)) ==> AtGoal(w, s, ApplyRun(w, wait, p, s).server, d, k)
      {
        DeclaredSlotThroughRun(w, wait, m, s, p, k, d);
      }
    } else {
      UndeclaredSlotThroughRun(w, wait, m, s, p, k);
    }
  }

  // ----- an add-on through the run -----

  lemma OpeningKeepsAddon(w: World, wait: bool, m: Manifest, s: Server, p: Plan, env: string, id: string)
    requires WorldOk(w) && Quiet(w) && ServerOk(w, s) && ValidManifest(w, m, s) && PlanIsOf(w, m, s, p)
    ensures AddonFor(w, Exec(w, wait, p, Start(w, p, s), Opening(p)).server, env, id) == AddonFor(w, s, env, id)
  {
    hide WorldOk, Quiet, ServerOk, ValidManifest, PlanIsOf, Supported, Exec, Opens, Opening, Proper;
    BothSupported(w, wait, m, s, p);
    PlansAreProper(w, m, s, p);
    OpeningOpens(p);
    OpeningHitsNothing(w, Opening(p), Slot(env, "", ""), id);
    ExecAddonFrame(w, wait, p, Start(w, p, s), Opening(p), env, id);
  }

  lemma WritingHitsAddonOnce(w: World, p: Plan, env: string, id: string)
    requires DistinctPlans(w, p.envs) && forall e :: e in p.envs ==> DistinctAddonPlans(e)
    ensures AddonHitOnce(w, Writing(p), env, id)
    ensures forall i :: i in Writing(p) && HitsAddon(w, i, env, id) ==> i in AddonInstrs(p.envs)
    ensures (exists i :: i in AddonInstrs(p.envs) && HitsAddon(w, i, env, id)) ==> AnyAddonHit(w, Writing(p), env, id)
  {
    var a, b, c := ComponentInstrs(p.envs), AddonInstrs(p.envs), DeployInstrs(p.envs);
    ProgramShape(p.envs);
    AddonsHitOnce(w, p.envs, env, id);
    AddonHitOnceAppend(w, a, b, env, id);
    AddonHitOnceAppend(w, a + b, c, env, id);
    if exists i :: i in b && HitsAddon(w, i, env, id) {
      var i :| i in b && HitsAddon(w, i, env, id);
      var x :| 0 <= x < |b| && b[x] == i;
      assert Writing(p)[|a| + x] == i;
    }
  }

  lemma SameAddonInstr(w: World, program: seq<Instr>, env: string, id: string, i: Instr, j: Instr)
    requires AddonHitOnce(w, program, env, id) && i in program && j in program && HitsAddon(w, i, env, id) && HitsAddon(w, j, env, id)
    ensures i == j
  {
    hide HitsAddon;
    var x :| 0 <= x < |program| && program[x] == i;
    var y :| 0 <= y < |program| && program[y] == j;
    assert HitsAddon(w, program[x], env, id) && HitsAddon(w, program[y], env, id);
  }

  /** The instruction of a declared add-on. */
  lemma AddonInstrOf(w: World, m: Manifest, s: Server, p: Plan, env: string, a: AddonDecl) returns (i: Instr)
    requires ServerOk(w, s) && ValidManifest(w, m, s) && PlanIsOf(w, m, s, p) && DeclaresAddon(w, m, env, a)
    ensures i in AddonInstrs(p.envs) && HitsAddon(w, i, env, a.id)
    ensures AddonSound(w, a)
    ensures AddonPlanned(w, s, env, a).Planned? && i.addon == AddonPlanned(w, s, env, a).plan
  {
    hide PlanFromRow, DeclGood, EnvProblems, PlanFor, HistoryOk, RowsOk, AddonIn, AddonSound, WellFormed, NamesOk, AddonsOk;
    var e :| e in m.envs && w.norm(e.name) == w.norm(env) && a in e.addons;
    var x :| 0 <= x < |m.envs| && m.envs[x] == e;
    var j :| 0 <= j < |e.addons| && e.addons[j] == a;
    assert SoundEnv(w, e, s) && EnvPlanned(w, s, e, p.envs[x]);
    AddonInstrsAt(p.envs, x, j);
    i := WriteAddon(p.envs[x], p.envs[x].addons[j]);
    SameName(w, s.envs, e.name, env);
    PlanRequestsItself(a, AddonFor(w, s, env, a.id), EntryOf(w.catalog, a.id));
  }

  lemma AddonHitIsDeclared(w: World, m: Manifest, s: Server, p: Plan, env: string, id: string, i: Instr)
    requires ValidManifest(w, m, s) && PlanIsOf(w, m, s, p) && i in AddonInstrs(p.envs) && HitsAddon(w, i, env, id)
    ensures exists a :: DeclaresAddon(w, m, env, a) && a.id == id
  {
    hide PlanFromRow, EnvProblems, PlanFor, WellFormed;
    ProgramShape(p.envs);
    var x :| 0 <= x < |p.envs| && p.envs[x] == i.env;
    assert EnvPlanned(w, s, m.envs[x], i.env);
    var j :| 0 <= j < |i.env.addons| && i.env.addons[j] == i.addon;
    var a := m.envs[x].addons[j];
    PlanRequestsItself(a, AddonFor(w, s, m.envs[x].name, a.id), EntryOf(w.catalog, a.id));
    assert m.envs[x] in m.envs;
    assert DeclaresAddon(w, m, env, a);
  }

  lemma DeclaredAddonThroughRun(w: World, wait: bool, m: Manifest, s: Server, p: Plan, env: string, a: AddonDecl)
    requires WorldOk(w) && Quiet(w) && ServerOk(w, s) && ValidManifest(w, m, s) && PlanIsOf(w, m, s, p)
    requires DeclaresAddon(w, m, env, a)
    ensures AddonSound(w, a)
    ensures var t := ApplyRun(w, wait, p, s);
      AddonBetween(w, s, t.server, env, a) && (Succeeded(t) ==> AddonFor(w, t.server, env, a.id) == AddonGoal(w, s, env, a))
  {
    hide WorldOk, Quiet, ServerOk, ValidManifest, PlanIsOf, Supported, Exec, Opens, Opening, Writing, Proper, AddonSound, PlanFor, AddonTarget, AddonFor, AddonHitOnce, AnyAddonHit, ApplyRun, Succeeded;
    var i := AddonInstrOf(w, m, s, p, env, a);
    BothSupported(w, wait, m, s, p);
    PlansAreProper(w, m, s, p);
    OpeningKeepsAddon(w, wait, m, s, p, env, a.id);
    WritingHitsAddonOnce(w, p, env, a.id);
    InWriting(p, i);
    forall j | j in Writing(p) && HitsAddon(w, j, env, a.id) ensures j == i { SameAddonInstr(w, Writing(p), env, a.id, i, j); }
    TwoStretches(w, wait, p, s);
    ExecAddon(w, wait, p, Exec(w, wait, p, Start(w, p, s), Opening(p)), Writing(p), env, a);
  }

  lemma UndeclaredAddonThroughRun(w: World, wait: bool, m: Manifest, s: Server, p: Plan, env: string, id: string)
    requires WorldOk(w) && Quiet(w) && ServerOk(w, s) && ValidManifest(w, m, s) && PlanIsOf(w, m, s, p)
    requires forall a :: !(DeclaresAddon(w, m, env, a) && a.id == id)
    ensures AddonFor(w, ApplyRun(w, wait, p, s).server, env, id) == AddonFor(w, s, env, id)
  {
    hide WorldOk, Quiet, ServerOk, ValidManifest, PlanIsOf, Supported, Exec, Opens, Opening, Proper, DeclaresAddon, AddonHitOnce;
    BothSupported(w, wait, m, s, p);
    PlansAreProper(w, m, s, p);
    OpeningKeepsAddon(w, wait, m, s, p, env, id);
    WritingHitsAddonOnce(w, p, env, id);
    forall x | 0 <= x < |Writing(p)| ensures !HitsAddon(w, Writing(p)[x], env, id) {
      if HitsAddon(w, Writing(p)[x], env, id) { AddonHitIsDeclared(w, m, s, p, env, id, Writing(p)[x]); }
    }
    TwoStretches(w, wait, p, s);
    ExecAddonFrame(w, wait, p, Exec(w, wait, p, Start(w, p, s), Opening(p)), Writing(p), env, id);
  }

  lemma AddonThroughRun(w: World, wait: bool, m: Manifest, s: Server, p: Plan, env: string, id: string)
    requires WorldOk(w) && Quiet(w) && ServerOk(w, s) && ValidManifest(w, m, s) && PlanIsOf(w, m, s, p)
    ensures var t := ApplyRun(w, wait, p, s);
      AddonToward(w, m, s, t.server, env, id) && (Succeeded(t) ==> AddonReached(w, m, s, t.server, env, id))
  {
    hide WorldOk, Quiet, ServerOk, ValidManifest, PlanIsOf, ApplyRun, DeclaresAddon, AddonBetween, AddonGoal, AddonSound, AddonFor, Succeeded;
    if exists a :: DeclaresAddon(w, m, env, a) && a.id == id {
      forall a | DeclaresAddon(w, m, env, a) && a.id == id
        ensures AddonSound(w, a) && AddonBetween(w, s, ApplyRun(w, wait, p, s).server, env, a)
        ensures Succeeded(ApplyRun(w, wait, p, s)) ==>
          AddonFor(w, ApplyRun(w, wait, p, s).server, env, id) == AddonGoal(w, s, env, a)
      {
        DeclaredAddonThroughRun(w, wait, m, s, p, env, a);
      }
    } else {
      UndeclaredAddonThroughRun(w, wait, m, s, p, env, id);
    }
  }

  // ----- an environment through the run -----

  /** Once the ids are complete, every environment of the plan exists. */
  lemma KnownExists(w: World, r: Run, envs: seq<EnvPlan>, name: string)
    requires ServerOk(w, r.server) && IdsHere(w, r.ids, r.server) && AllKnown(w, envs, r.ids)
    requires exists e :: e in envs && w.norm(e.name) == w.norm(name)
    ensures EnvFor(w, r.server, name).Some?
  {
    hide HistoryOk, RowsOk;
    var e :| e in envs && w.norm(e.name) == w.norm(name);
    assert EnvHere(w, r.server, IdOf(w, r.ids, e.name), w.norm(e.name));
    var x :| x in r.server.envs && x.id == IdOf(w, r.ids, e.name) && w.norm(x.name) == w.norm(e.name);
    NamedUnique(w, r.server.envs, x, name);
  }

  lemma EnvThroughRun(w: World, wait: bool, m: Manifest, s: Server, p: Plan, name: string)
    requires WorldOk(w) && Quiet(w) && ServerOk(w, s) && ValidManifest(w, m, s) && PlanIsOf(w, m, s, p)
    ensures var t := ApplyRun(w, wait, p, s);
      EnvBetween(w, m, s, t.server, name) && (Succeeded(t) ==> EnvReached(w, m, s, t.server, name))
  {
    hide WorldOk, Quiet, ServerOk, Exec, Opens, Opening, Writing, EnvFor, AllKnown, IdsHere, AskedFor, ValidManifest, AllWellAddressed, Succeeded, ApplyRun;
    BothSupported(w, wait, m, s, p);
    var r, t := Exec(w, wait, p, Start(w, p, s), Opening(p)), ApplyRun(w, wait, p, s);
    TwoStretches(w, wait, p, s);
    ExecEnv(w, wait, p, Start(w, p, s), Opening(p), name);
    ExecEnv(w, wait, p, r, Writing(p), name);
    if Succeeded(t) && DeclaresEnv(w, m, name) {
      SucceededBefore(w, wait, p, r, Writing(p));
      IdsComplete(w, wait, m, p, s);
      PlansNameTheirEnvs(w, m, s, p, name);
      KnownExists(w, r, p.envs, name);
    }
  }

  lemma PlansNameTheirEnvs(w: World, m: Manifest, s: Server, p: Plan, name: string)
    requires PlanIsOf(w, m, s, p) && DeclaresEnv(w, m, name)
    ensures exists e :: e in p.envs && w.norm(e.name) == w.norm(name)
  {
    hide PlanFromRow, EnvProblems, AddonPlanned;
    var d :| d in m.envs && w.norm(d.name) == w.norm(name);
    var x :| 0 <= x < |m.envs| && m.envs[x] == d;
    assert EnvPlanned(w, s, d, p.envs[x]) && p.envs[x] in p.envs;
  }

  lemma IdsComplete(w: World, wait: bool, m: Manifest, p: Plan, s: Server)
    requires WorldOk(w) && Quiet(w) && ServerOk(w, s) && PlanIsOf(w, m, s, p)
    requires Succeeded(Exec(w, wait, p, Start(w, p, s), Opening(p)))
    ensures AllKnown(w, p.envs, Exec(w, wait, p, Start(w, p, s), Opening(p)).ids)
  {
    hide WorldOk, Quiet, ServerOk, IdsOk, IdsHere, PlanIsOf, Step, AllWellAddressed, AllKnown, Exec;
    var r := Start(w, p, s);
    PlannedIds(w, m, s, p);
    HereIsOk(w, r.ids, s);
    NothingLogged();
    ProgramShape(p.envs);
    var p0 := if p.projectId == "" then [CreateProject] else CreateInstrs(p.envs);
    ExecUnaddressed(w, wait, p, r, p0);
    FillIdsPhase(w, wait, p, Exec(w, wait, p, r, p0));
    ExecAppend(w, wait, p, r, p0, [FillIds]);
  }

  // ----- the whole run -----

  /** Wherever a run of a plan of the file stops, everything is as it was or as the file would have it;
      when it succeeds, everything declared is as the file would have it. */
  lemma RunGoesToward(w: World, wait: bool, m: Manifest, s: Server, p: Plan)
    requires WorldOk(w) && Quiet(w) && ServerOk(w, s) && ValidManifest(w, m, s) && PlanIsOf(w, m, s, p)
    ensures var t := ApplyRun(w, wait, p, s);
      && ServerOk(w, t.server) && Toward(w, m, s, t.server)
      && (Succeeded(t) ==> Reached(w, m, s, t.server))
  {
    hide WorldOk, Quiet, ServerOk, ValidManifest, PlanIsOf, ApplyRun, SlotToward, SlotReached, AddonToward, AddonReached, EnvBetween, EnvReached, Succeeded, ProperSlot;
    var t := ApplyRun(w, wait, p, s);
    ApplyKeepsOk(w, wait, p, s);
    forall k | ProperSlot(w, k)
      ensures SlotToward(w, m, s, t.server, k) && (Succeeded(t) ==> SlotReached(w, m, s, t.server, k))
    {
      SlotThroughRun(w, wait, m, s, p, k);
    }
    forall env, id
      ensures AddonToward(w, m, s, t.server, env, id) && (Succeeded(t) ==> AddonReached(w, m, s, t.server, env, id))
    {
      AddonThroughRun(w, wait, m, s, p, env, id);
    }
    forall name
      ensures EnvBetween(w, m, s, t.server, name) && (Succeeded(t) ==> EnvReached(w, m, s, t.server, name))
    {
      EnvThroughRun(w, wait, m, s, p, name);
    }
  }

  lemma ApplyKeepsOk(w: World, wait: bool, p: Plan, s: Server)
    requires WorldOk(w) && ServerOk(w, s)
    ensures ServerOk(w, ApplyRun(w, wait, p, s).server) && Grows(w, s, ApplyRun(w, wait, p, s).server)
  {
    hide ServerOk, WorldOk, Exec, Program, Grows;
    ExecServerOk(w, wait, p, Start(w, p, s), Program(p));
  }
}
