/** The manifest, and `computePlan` (apps/cli/cmd/apply.go:405-625): what a file declares against what
    the server holds. It reads and never writes. */
module Plans {
  import opened Options
  import opened Ordering
  import opened Values
  import opened FieldDiffs
  import opened Addons
  import opened ControlPlane

  // ----- the file -----

  datatype ComponentDecl = ComponentDecl(name: string, fields: Fields)

  datatype KindDecl = KindDecl(kind: string, list: bool, entries: seq<ComponentDecl>)

  datatype EnvDecl = EnvDecl(
    name: string, stage: string, placement: string, lifecycle: string,
    components: seq<KindDecl>, addons: seq<AddonDecl>)

  datatype Manifest = Manifest(project: string, envs: seq<EnvDecl>)

  /** One declared component; `find` is the name it is looked up by. */
  datatype Decl = Decl(kind: string, name: string, find: string, fields: Fields)

  /** An environment's components in file order. */
  function Decls(kinds: seq<KindDecl>): seq<Decl> {
    if kinds == [] then [] else Decls(kinds[..|kinds| - 1]) + KindDecls(kinds[|kinds| - 1])
  }

  function KindDecls(k: KindDecl): seq<Decl> {
    seq(|k.entries|, i requires 0 <= i < |k.entries| =>
      Decl(k.kind, k.entries[i].name, if k.list then k.entries[i].name else "", k.entries[i].fields))
  }

  predicate DeclaresAddons(m: Manifest) {
    exists e :: e in m.envs && e.addons != []
  }

  // ----- the plan -----

  /** `read` is every settable value the plan saw; `revision` the copy it saw them on. */
  datatype ComponentPlan = ComponentPlan(
    kind: string, name: string, action: Action, fields: Fields,
    changes: seq<FieldChange>, revision: Option<nat>, read: Fields)

  datatype Problem = StageDiffers | PlacementDiffers | LifecycleDiffers | AddonProblem

  datatype EnvPlan = EnvPlan(
    name: string, stage: string, placement: string, action: Action, id: string,
    components: seq<ComponentPlan>, addons: seq<AddonPlan>, problems: seq<Problem>, deploy: bool)

  /** `projectId` is empty when apply will create the project. */
  datatype Plan = Plan(manifest: Manifest, projectId: string, envs: seq<EnvPlan>, unmanaged: seq<string>)

  /** `findComponent`. */
  method FindComponent(comps: seq<Component>, kind: string, name: string, ghost rows: seq<Row>)
    returns (c: Option<Component>)
    requires comps == Views(rows)
    ensures c == None <==> Find(rows, kind, name) == None
    ensures c.Some? ==> c.value == View(rows[Find(rows, kind, name).value])
  {
    for i := 0 to |comps|
      invariant forall j :: 0 <= j < i ==> !(rows[j].kind == kind && (name == "" || rows[j].name == name))
    {
      if comps[i].kind == kind && (name == "" || comps[i].name == name) {
        assert Find(rows, kind, name) == Some(i);
        return Some(comps[i]);
      }
    }
    return None;
  }

  // ----- computePlan, component by component -----

  ghost function PlanComponent(d: Decl, rows: seq<Row>): ComponentPlan {
    match Find(rows, d.kind, d.find)
    case None => ComponentPlan(d.kind, d.name, Create, d.fields, [], None, map[])
    case Some(i) =>
      var read := ComponentValues(View(rows[i]));
      var changes := Diff(d.fields, read);
      ComponentPlan(d.kind, d.name, if changes == [] then Unchanged else Update, d.fields, changes, rows[i].revision, read)
  }

  ghost function PlanComponents(ds: seq<Decl>, rows: seq<Row>): seq<ComponentPlan> {
    seq(|ds|, i requires 0 <= i < |ds| => PlanComponent(ds[i], rows))
  }

  method PlanOneComponent(d: Decl, comps: seq<Component>, ghost rows: seq<Row>) returns (cp: ComponentPlan)
    requires comps == Views(rows)
    ensures cp == PlanComponent(d, rows)
  {
    var found := FindComponent(comps, d.kind, d.find, rows);
    if found == None {
      return ComponentPlan(d.kind, d.name, Create, d.fields, [], None, map[]);
    }
    var read := ComponentValues(found.value);
    var changes := DiffFields(d.fields, read);
    return ComponentPlan(d.kind, d.name, if changes == [] then Unchanged else Update, d.fields, changes,
                         found.value.updatedAt, read);
  }

  // ----- computePlan, environment by environment -----

  /** `lifecycleProblem`: an omitted lifecycle declares the default; an unreported one is not compared. */
  predicate LifecycleProblem(declared: string, stored: string) {
    stored != "" && (if declared == "" then DEFAULT_LIFECYCLE else declared) != stored
  }

  function EnvProblems(d: EnvDecl, e: Env): seq<Problem> {
    (if e.stage != d.stage then [StageDiffers] else [])
    + (if e.placement != "" && e.placement != d.placement then [PlacementDiffers] else [])
    + (if LifecycleProblem(d.lifecycle, e.lifecycle) then [LifecycleDiffers] else [])
  }

  ghost function AddonOutcomes(w: World, ds: seq<AddonDecl>, stored: map<string, StoredAddon>): seq<AddonOutcome> {
    seq(|ds|, i requires 0 <= i < |ds| =>
      PlanFor(ds[i], if ds[i].id in stored then Some(stored[ds[i].id]) else None, EntryOf(w.catalog, ds[i].id)))
  }

  function AddonProblems(outcomes: seq<AddonOutcome>): seq<Problem> {
    if forall o :: o in outcomes ==> o.Planned? then [] else [AddonProblem]
  }

  /** The environment known by the (normalised) name: the last one listed. */
  function Named(w: World, envs: seq<Env>, name: string): (e: Option<Env>)
    ensures e.Some? ==> e.value in envs && w.norm(e.value.name) == w.norm(name)
    ensures e == None ==> forall x :: x in envs ==> w.norm(x.name) != w.norm(name)
  {
    if envs == [] then None
    else if w.norm(envs[|envs| - 1].name) == w.norm(name) then Some(envs[|envs| - 1])
    else Named(w, envs[..|envs| - 1], name)
  }

  /** The two reads of an existing environment; each one is a request. */
  function AfterComponentRead(w: World, s: Server, d: EnvDecl): Server {
    if d.components != [] then Meanwhile(w, s) else s
  }

  function AfterAddonRead(w: World, s: Server, declaresAddons: bool): Server {
    if declaresAddons then Meanwhile(w, s) else s
  }

  ghost function PlanNew(w: World, d: EnvDecl): EnvPlan {
    var outcomes := AddonOutcomes(w, d.addons, map[]);
    EnvPlan(d.name, d.stage, d.placement, Create, "", PlanComponents(Decls(d.components), []),
            PlansOf(outcomes), AddonProblems(outcomes), true)
  }

  /** `s` is the server when the components are read, `t` when the add-ons are. */
  ghost function PlanExisting(w: World, d: EnvDecl, e: Env, rows: seq<Row>, stored: map<string, StoredAddon>): EnvPlan {
    var outcomes := AddonOutcomes(w, d.addons, stored);
    EnvPlan(d.name, d.stage, d.placement, Unchanged, e.id, PlanComponents(Decls(d.components), rows),
            PlansOf(outcomes), EnvProblems(d, e) + AddonProblems(outcomes), true)
  }

  /** What a read gives, and the server it leaves: others may have written meanwhile. */
  datatype Reading<T> = Reading(result: T, server: Server)

  /** A read that is not answered, or does not find the environment, ends the plan. */
  ghost function PlanEnv(w: World, declaresAddons: bool, known: seq<Env>, d: EnvDecl, s: Server): Reading<Option<EnvPlan>> {
    match Named(w, known, d.name)
    case None => Reading(Some(PlanNew(w, d)), s)
    case Some(e) =>
      var s1 := AfterComponentRead(w, s, d);
      var s2 := AfterAddonRead(w, s1, declaresAddons);
      if d.components != [] && !ReadOf(w, s, e.id) then Reading(None, s1)
      else if declaresAddons && !ReadOf(w, s1, e.id) then Reading(None, s2)
      else
        var rows := if d.components != [] then RowsIn(s1, FoundId(w, s, e.id)) else [];
        var stored := if declaresAddons then AddonsIn(s2, FoundId(w, s1, e.id)) else map[];
        Reading(Some(PlanExisting(w, d, e, rows, stored)), s2)
  }

  ghost function PlanEnvs(w: World, declaresAddons: bool, known: seq<Env>, ds: seq<EnvDecl>, s: Server)
    : Reading<Option<seq<EnvPlan>>>
  {
    if ds == [] then Reading(Some([]), s)
    else
      var front := PlanEnvs(w, declaresAddons, known, ds[..|ds| - 1], s);
      if front.result == None then front
      else
        var last := PlanEnv(w, declaresAddons, known, ds[|ds| - 1], front.server);
        Reading(if last.result == None then None else Some(front.result.value + [last.result.value]), last.server)
  }

  predicate IsDeclared(w: World, m: Manifest, name: string) {
    exists d :: d in m.envs && w.norm(d.name) == w.norm(name)
  }

  function UnmanagedNames(w: World, m: Manifest, known: seq<Env>): seq<string> {
    if known == [] then []
    else
      var last := known[|known| - 1];
      UnmanagedNames(w, m, known[..|known| - 1]) + if IsDeclared(w, m, last.name) then [] else [last.name]
  }

  /** The project is looked up first, then its environments are listed; None when either is not answered. */
  function ListingRead(w: World, s: Server): Reading<Option<seq<Env>>> {
    var s1 := Arrive(w, s);
    if w.fate(s.served) != Delivered then Reading(None, s1)
    else if s1.project == None then Reading(Some([]), s1)
    else
      var s2 := Arrive(w, s1);
      Reading(if w.fate(s1.served) == Delivered then Some(s2.envs) else None, s2)
  }

  /** `computePlan`: the plan, or nothing when a read fails. */
  ghost function PlanOf(w: World, m: Manifest, s: Server): Reading<Option<Plan>> {
    var project, known := Arrive(w, s).project, ListingRead(w, s);
    if known.result == None then Reading(None, known.server)
    else
      var envs := PlanEnvs(w, DeclaresAddons(m), known.result.value, m.envs, known.server);
      Reading(
        if envs.result == None then None
        else Some(Plan(m, if project.Some? then project.value else "", envs.result.value,
                       Sort(StringLess, UnmanagedNames(w, m, known.result.value)))),
        envs.server)
  }
}
