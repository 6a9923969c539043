/** The server as `plan` and `apply` meet it: its state, each request of `applyClient`
    (apps/cli/cmd/apply.go:317-336) as a step on that state, and everything else that may happen
    around a request. */
module ControlPlane {
  import opened Options
  import opened Values
  import opened FieldDiffs
  import opened Addons

  datatype Env = Env(id: string, name: string, stage: string, placement: string, lifecycle: string, isDefault: bool)

  /** A component row. `revision` is its `updated_at`, none when its table keeps none. */
  datatype Row = Row(kind: string, name: string, status: string, values: Fields, revision: Option<nat>)

  /** The stages a reference may name (`isEnvironmentStage`). */
  const STAGES := {"development", "staging", "production"}

  /** What a revision stands for. */
  datatype Copy = Copy(env: string, kind: string, name: string, values: Fields)

  /** One project. `names` has the name of every environment there ever was, by id; `rows` and `addons`
      are by environment id; `clock` is the last revision handed out and `history` what each of them was;
      `served` counts requests; `jobs` are environment ids. */
  datatype Server = Server(
    project: Option<string>,
    envs: seq<Env>,
    names: map<string, string>,
    rows: map<string, seq<Row>>,
    addons: map<string, map<string, StoredAddon>>,
    jobs: seq<string>,
    clock: nat,
    history: map<nat, Copy>,
    served: nat)

  /** A write by someone else: the console, another apply. */
  datatype Foreign =
    | PutRow(env: string, kind: string, name: string, values: Fields)
    | DropRow(env: string, kind: string, name: string)
    | PutAddon(env: string, id: string, stored: StoredAddon)
    | DropAddon(env: string, id: string)
    | NewEnvironment(spec: EnvSpec)
    | DropEnvironment(env: string)

  /** What becomes of a request. `Refused` covers a run gate, a permission, a network that loses the
      request; `Unanswered` is a request that was served and whose answer was lost. */
  datatype Fate = Delivered | Refused | Unanswered

  /** Everything the client does not choose, and what the server publishes. */
  datatype World = World(
    norm: string -> string,               // NormalizeEnvironmentName
    singleton: string -> bool,            // the component schema's one-per-environment kinds
    revisioned: string -> bool,           // the kinds whose table has updated_at
    rules: string -> Rules,               // what the server makes of each kind's fields
    catalog: seq<CatalogEntry>,
    newId: set<string> -> string,         // an id outside the ones in use
    answersId: nat -> bool,               // request n's answer carries the created id
    foreign: nat -> seq<Foreign>,         // what others write just before request n arrives
    between: nat -> seq<Foreign>,         // ... and after it has looked its environment up, before it is served
    fate: nat -> Fate,
    succeeds: nat -> bool)                // job n ends in SUCCESS

  // ----- reading -----

  function RowsIn(s: Server, env: string): seq<Row> {
    if env in s.rows then s.rows[env] else []
  }

  function AddonsIn(s: Server, env: string): map<string, StoredAddon> {
    if env in s.addons then s.addons[env] else map[]
  }

  function AddonIn(s: Server, env: string, id: string): Option<StoredAddon> {
    if id in AddonsIn(s, env) then Some(AddonsIn(s, env)[id]) else None
  }

  /** The first row of the kind, and of the name when one is given. */
  function Find(rows: seq<Row>, kind: string, name: string): (i: Option<nat>)
    ensures i.Some? ==> i.value < |rows| && rows[i.value].kind == kind && (name == "" || rows[i.value].name == name)
    ensures i.Some? ==> forall j :: 0 <= j < i.value ==> !(rows[j].kind == kind && (name == "" || rows[j].name == name))
    ensures i == None ==> forall j :: 0 <= j < |rows| ==> !(rows[j].kind == kind && (name == "" || rows[j].name == name))
  {
    if rows == [] then None
    else if rows[0].kind == kind && (name == "" || rows[0].name == name) then Some(0)
    else
      var i := Find(rows[1..], kind, name);
      if i == None then None else Some(i.value + 1)
  }

  function RowIn(s: Server, env: string, kind: string, name: string): Option<Row> {
    var i := Find(RowsIn(s, env), kind, name);
    if i == None then None else Some(RowsIn(s, env)[i.value])
  }

  function FirstEnv(envs: seq<Env>, p: Env -> bool): (e: Option<Env>)
    ensures e.Some? ==> e.value in envs && p(e.value)
    ensures e.Some? ==> exists i :: 0 <= i < |envs| && envs[i] == e.value && forall j :: 0 <= j < i ==> !p(envs[j])
    ensures e == None ==> forall x :: x in envs ==> !p(x)
  {
    if envs == [] then None
    else if p(envs[0]) then Some(envs[0])
    else
      var e := FirstEnv(envs[1..], p);
      assert forall i :: 0 <= i < |envs[1..]| ==> envs[1..][i] == envs[i + 1];
      e
  }

  function OrElse<T>(a: Option<T>, b: Option<T>): Option<T> {
    if a.Some? then a else b
  }

  predicate AtStage(e: Env, ref: string) {
    ref in STAGES && e.stage == ref
  }

  /** The first environment of the stage, the default one before the others. */
  ghost predicate FirstOfStage(envs: seq<Env>, e: Env, ref: string) {
    && AtStage(e, ref)
    && exists i :: 0 <= i < |envs| && envs[i] == e && forall j :: 0 <= j < |envs| && AtStage(envs[j], ref) ==>
         if e.isDefault then j >= i || !envs[j].isDefault else j >= i && !envs[j].isDefault
  }

  function ByStage(envs: seq<Env>, ref: string): (e: Option<Env>)
    ensures e == None <==> forall x :: x in envs ==> !AtStage(x, ref)
    ensures e.Some? ==> e.value in envs && FirstOfStage(envs, e.value, ref)
  {
    var isDefault := (e: Env) => AtStage(e, ref) && e.isDefault;
    var any := (e: Env) => AtStage(e, ref);
    assert forall x :: isDefault(x) <==> AtStage(x, ref) && x.isDefault;
    assert forall x :: any(x) <==> AtStage(x, ref);
    var first := FirstEnv(envs, isDefault);
    if first.Some? then first
    else
      assert forall x :: x in envs ==> !isDefault(x);
      FirstEnv(envs, any)
  }

  /** `resolveCliEnvironment`: the one with the id, else the one with the exact name, else the first of the
      stage (apps/console/lib/cli/resolve-project.ts:164-193). */
  function Resolve(envs: seq<Env>, ref: string): (e: Option<Env>)
    ensures e == None <==> forall x :: x in envs ==> x.id != ref && x.name != ref && !AtStage(x, ref)
    ensures e.Some? ==> e.value in envs
    ensures (exists x :: x in envs && x.id == ref) ==> e.Some? && e.value.id == ref
    ensures (forall x :: x in envs ==> x.id != ref) && (exists x :: x in envs && x.name == ref) ==>
      e.Some? && e.value.name == ref
    ensures (forall x :: x in envs ==> x.id != ref && x.name != ref) && e.Some? ==> FirstOfStage(envs, e.value, ref)
  {
    OrElse(FirstEnv(envs, (e: Env) => e.id == ref),
    OrElse(FirstEnv(envs, (e: Env) => e.name == ref), ByStage(envs, ref)))
  }

  // ----- writing -----

  function Replace(s: Server, env: string, rows: seq<Row>, copy: Copy): Server {
    s.(rows := s.rows[env := rows], clock := s.clock + 1, history := s.history[s.clock + 1 := copy])
  }

  function Revision(w: World, s: Server, kind: string): Option<nat> {
    if w.revisioned(kind) then Some(s.clock + 1) else None
  }

  function SetRow(w: World, s: Server, env: string, i: nat, values: Fields): Server
    requires i < |RowsIn(s, env)|
  {
    var r := RowsIn(s, env)[i];
    Replace(s, env, RowsIn(s, env)[i := r.(values := values, revision := Revision(w, s, r.kind))],
            Copy(env, r.kind, r.name, values))
  }

  function AddRow(w: World, s: Server, env: string, kind: string, name: string, values: Fields): Server {
    Replace(s, env, RowsIn(s, env) + [Row(kind, name, "DRAFT", values, Revision(w, s, kind))], Copy(env, kind, name, values))
  }

  /** The lookup name of a row: a singleton is found by its kind alone. */
  function LookupName(w: World, kind: string, name: string): string {
    if w.singleton(kind) then "" else name
  }

  function ForeignWrite(w: World, s: Server, f: Foreign): Server {
    match f
    case PutRow(env, kind, name, values) =>
      // Only a row the server could hold: the kind's name rule, and an identity that is text.
      if FirstEnv(s.envs, (e: Env) => e.id == env) == None || (!w.singleton(kind) && name == "") || !StoredOk(values) then s
      else
        var i := Find(RowsIn(s, env), kind, LookupName(w, kind, name));
        if i.Some? then SetRow(w, s, env, i.value, values)
        else AddRow(w, s, env, kind, if w.singleton(kind) then kind else name, values)
    case DropRow(env, kind, name) =>
      var i := Find(RowsIn(s, env), kind, LookupName(w, kind, name));
      if i == None then s
      else s.(rows := s.rows[env := RowsIn(s, env)[..i.value] + RowsIn(s, env)[i.value + 1..]])
    case PutAddon(env, id, stored) =>
      // ... and only settings its schema leaves.
      if FirstEnv(s.envs, (e: Env) => e.id == env) == None || !AsRead(EntryOf(w.catalog, id), stored.settings) then s
      else s.(addons := s.addons[env := AddonsIn(s, env)[id := stored]])
    case DropAddon(env, id) =>
      if env !in s.addons then s else s.(addons := s.addons[env := s.addons[env] - {id}])
    case NewEnvironment(spec) => ServeAddEnv(w, s, spec.name, spec.stage, spec.placement, spec.lifecycle).server
    case DropEnvironment(env) =>
      // The default environment cannot be deleted; another goes with all it holds.
      if FirstEnv(s.envs, (e: Env) => e.id == env && e.isDefault).Some? then s
      else s.(envs := Without(s.envs, env), rows := s.rows - {env}, addons := s.addons - {env})
  }

  function Without(envs: seq<Env>, id: string): (rest: seq<Env>)
    ensures forall e :: e in rest <==> e in envs && e.id != id
    ensures |rest| <= |envs|
  {
    if envs == [] then []
    else
      var last := envs[|envs| - 1];
      assert envs == envs[..|envs| - 1] + [last];
      Without(envs[..|envs| - 1], id) + if last.id == id then [] else [last]
  }

  function ForeignWrites(w: World, s: Server, fs: seq<Foreign>): Server
    decreases |fs|
  {
    if fs == [] then s else ForeignWrites(w, ForeignWrite(w, s, fs[0]), fs[1..])
  }

  /** The identity column holds text or nothing. */
  predicate StoredOk(values: Fields) {
    CLOUD_IDENTITY in values ==> values[CLOUD_IDENTITY].Str?
  }

  /** A request reaches the server: whatever others wrote in the meantime is there already. */
  function Arrive(w: World, s: Server): Server {
    ForeignWrites(w, s, w.foreign(s.served)).(served := s.served + 1)
  }

  /** The server by the time a request that looked an environment up is served. */
  function Meanwhile(w: World, s: Server): Server {
    ForeignWrites(w, Arrive(w, s), w.between(s.served))
  }

  /** What a served request leads to. */
  datatype Served = Served(ok: bool, server: Server)

  /** The request is served, or not, and answered, or not. */
  function Answer(w: World, n: nat, arrived: Server, served: Served): Served {
    match w.fate(n)
    case Delivered => served
    case Refused => Served(false, arrived)
    case Unanswered => Served(false, served.server)
  }

  /** PATCH of a named component, and the upsert of a singleton that carries If-Match: an UPDATE of a
      row that exists and is still at that revision. */
  function ServeUpdate(w: World, s: Server, env: string, kind: string, name: string, body: Fields,
                       ifMatch: Option<nat>): Served {
    var i := Find(RowsIn(s, env), kind, name);
    if i == None then Served(false, s)
    else
      var r := RowsIn(s, env)[i.value];
      if !Accepts(w.rules(kind), r.values, body) || (ifMatch.Some? && r.revision != ifMatch) then Served(false, s)
      else Served(true, SetRow(w, s, env, i.value, Patched(w.rules(kind), r.values, body)))
  }

  /** POST of a component: an insert; for a singleton that exists, an update. */
  function ServeAdd(w: World, s: Server, env: string, kind: string, name: string, fields: Fields): Served {
    var i := Find(RowsIn(s, env), kind, LookupName(w, kind, name));
    var stored := if i.Some? then RowsIn(s, env)[i.value].values else map[];
    if !Accepts(w.rules(kind), stored, fields) || (!w.singleton(kind) && (name == "" || i.Some?)) then Served(false, s)
    else if i == None then
      Served(true, AddRow(w, s, env, kind, if w.singleton(kind) then kind else name, Inserted(w.rules(kind), fields)))
    else Served(true, SetRow(w, s, env, i.value, Patched(w.rules(kind), stored, fields)))
  }

  /** POST of an add-on. `stored` is what was read to merge the request over; all of it is written but a pin
      the request leaves out, which stays that of the row it is written to. */
  function ServeEnable(w: World, s: Server, env: string, stored: Option<StoredAddon>, req: AddonRequest): Served {
    var entry, all := EntryOf(w.catalog, req.id), AddonsIn(s, env);
    if !AcceptsAddon(entry, SettingsOf(stored), req) then Served(false, s)
    else
      var after := Reconfigured(entry, stored, req);
      var pin := if req.version.Some? then after.pin else if req.id in all then all[req.id].pin else None;
      Served(true, s.(addons := s.addons[env := all[req.id := after.(pin := pin)]]))
  }

  const DEFAULT_LIFECYCLE := "persistent"

  function UsedIds(s: Server): set<string> {
    s.names.Keys + s.rows.Keys + s.addons.Keys
  }

  /** A new environment under its normalised name; the default one when there is none yet. */
  function NewEnv(w: World, s: Server, name: string, stage: string, placement: string, lifecycle: string): Env {
    Env(w.newId(UsedIds(s)), w.norm(name), stage, placement,
        if lifecycle == "" then DEFAULT_LIFECYCLE else lifecycle,
        FirstEnv(s.envs, (e: Env) => e.isDefault) == None)
  }

  /** POST of an environment: its name is unique in the project. */
  function ServeAddEnv(w: World, s: Server, name: string, stage: string, placement: string, lifecycle: string): Served {
    if s.project == None || w.norm(name) == "" || FirstEnv(s.envs, (e: Env) => e.name == w.norm(name)).Some? then
      Served(false, s)
    else Served(true, WithEnv(s, NewEnv(w, s, name, stage, placement, lifecycle)))
  }

  function WithEnv(s: Server, e: Env): Server {
    s.(envs := s.envs + [e], names := s.names[e.id := e.name])
  }

  /** POST of a project with its matrix of environments. */
  function ServeCreate(w: World, s: Server, specs: seq<EnvSpec>): Served {
    if s.project.Some? || !SpecsOk(w, specs) then Served(false, s)
    else
      Served(true, AddEnvs(w, s, specs).(project := Some(w.newId({}))))
  }

  datatype EnvSpec = EnvSpec(name: string, stage: string, placement: string, lifecycle: string)

  predicate SpecsOk(w: World, specs: seq<EnvSpec>) {
    && (forall i :: 0 <= i < |specs| ==> w.norm(specs[i].name) != "")
    && (forall i, j :: 0 <= i < j < |specs| ==> w.norm(specs[i].name) != w.norm(specs[j].name))
  }

  function AddEnvs(w: World, s: Server, specs: seq<EnvSpec>): Server {
    if specs == [] then s
    else
      var e, before := specs[|specs| - 1], AddEnvs(w, s, specs[..|specs| - 1]);
      WithEnv(before, NewEnv(w, before, e.name, e.stage, e.placement, e.lifecycle))
  }

  // ----- a component on the wire -----

  /** The identity travels beside `config`, not in it. */
  datatype Component = Component(
    kind: string, name: string, status: string, cloudIdentity: Option<string>, config: Fields, updatedAt: Option<nat>)

  function View(row: Row): Component {
    var id := Get(row.values, CLOUD_IDENTITY);
    Component(row.kind, row.name, row.status, if id.Str? then Some(id.s) else None,
              row.values - {CLOUD_IDENTITY}, row.revision)
  }

  function Views(rows: seq<Row>): seq<Component> {
    seq(|rows|, i requires 0 <= i < |rows| => View(rows[i]))
  }

  /** `componentValues`: the identity folded back in. */
  function ComponentValues(c: Component): Fields {
    if c.cloudIdentity.Some? then c.config[CLOUD_IDENTITY := Str(c.cloudIdentity.value)] else c.config
  }

  /** What the plan compares is what the server stores. */
  lemma ValuesSurviveTheWire(row: Row)
    requires StoredOk(row.values)
    ensures ComponentValues(View(row)) == row.values
  {
  }

  // ----- requests -----

  /** The environment the server resolves a reference to when the request arrives. */
  function Found(w: World, s: Server, ref: string): Option<Env> {
    Resolve(Arrive(w, s).envs, ref)
  }

  /** ... and its id; nothing lives under the empty one. */
  function FoundId(w: World, s: Server, ref: string): string {
    var e := Found(w, s, ref);
    if e.Some? then e.value.id else ""
  }

  /** A read of an environment is answered: the request is, and the environment was found. */
  predicate ReadOf(w: World, s: Server, ref: string) {
    w.fate(s.served) == Delivered && Found(w, s, ref).Some?
  }

  /** A component write: the environment is looked up, and the row is written under its id, which fails when
      it has gone since. */
  function Write(w: World, s: Server, serve: (Server, Env) -> Served, ref: string): Served {
    var t, e := Meanwhile(w, s), Found(w, s, ref);
    Answer(w, s.served, t, if e == None || !HasEnv(t, e.value.id) then Served(false, t) else serve(t, e.value))
  }

  function RequestAdd(w: World, s: Server, ref: string, kind: string, name: string, fields: Fields): Served {
    Write(w, s, (t: Server, e: Env) => ServeAdd(w, t, e.id, kind, name, fields), ref)
  }

  function RequestUpdate(w: World, s: Server, ref: string, kind: string, name: string, body: Fields, ifMatch: Option<nat>): Served {
    Write(w, s, (t: Server, e: Env) => ServeUpdate(w, t, e.id, kind, name, body, ifMatch), ref)
  }

  /** Without a revision the upsert of a singleton is the add. */
  function RequestUpsert(w: World, s: Server, ref: string, kind: string, body: Fields, ifMatch: Option<nat>): Served {
    if ifMatch.Some? then RequestUpdate(w, s, ref, kind, "", body, ifMatch) else RequestAdd(w, s, ref, kind, "", body)
  }

  /** `resolveActiveEnvironmentId`: the environment with the id, else the project's default one. */
  function ActiveEnv(envs: seq<Env>, id: string): Option<Env> {
    OrElse(FirstEnv(envs, (e: Env) => e.id == id), FirstEnv(envs, (e: Env) => e.isDefault))
  }

  /** The environment an add-on is written to: the one that was found is looked up once more. */
  function EnabledIn(w: World, s: Server, ref: string): Option<Env> {
    var e := Found(w, s, ref);
    if e == None then None else ActiveEnv(Meanwhile(w, s).envs, e.value.id)
  }

  function RequestEnable(w: World, s: Server, ref: string, req: AddonRequest): Served {
    var t, e := Meanwhile(w, s), EnabledIn(w, s, ref);
    Answer(w, s.served, t,
           if e == None then Served(false, t)
           else ServeEnable(w, t, e.value.id, AddonIn(Arrive(w, s), FoundId(w, s, ref), req.id), req))
  }

  /** `resolveTargetEnvironment`: a deploy's environment is looked up by its id alone. */
  function FoundById(w: World, s: Server, ref: string): Option<Env> {
    FirstEnv(Arrive(w, s).envs, (e: Env) => e.id == ref)
  }

  /** POST of a deploy job, which refers to its environment. */
  function RequestDeploy(w: World, s: Server, ref: string): Served {
    var t, e := Meanwhile(w, s), FoundById(w, s, ref);
    Answer(w, s.served, t,
           if e == None || !HasEnv(t, e.value.id) then Served(false, t)
           else Served(true, t.(jobs := t.jobs + [e.value.id])))
  }

  function RequestCreate(w: World, s: Server, specs: seq<EnvSpec>): Served {
    Answer(w, s.served, Arrive(w, s), ServeCreate(w, Arrive(w, s), specs))
  }

  function RequestAddEnv(w: World, s: Server, spec: EnvSpec): Served {
    Answer(w, s.served, Arrive(w, s), ServeAddEnv(w, Arrive(w, s), spec.name, spec.stage, spec.placement, spec.lifecycle))
  }

  // ----- what always holds of a server -----

  predicate SameSlot(w: World, a: Row, b: Row) {
    a.kind == b.kind && (w.singleton(a.kind) || a.name == b.name)
  }

  /** The tables' own constraints: one row per slot, a name on every named kind, an identity that is
      text. */
  predicate RowsOk(w: World, rows: seq<Row>) {
    && (forall i, j :: 0 <= i < j < |rows| ==> !SameSlot(w, rows[i], rows[j]))
    && (forall i :: 0 <= i < |rows| ==> StoredOk(rows[i].values) && (w.singleton(rows[i].kind) || rows[i].name != ""))
  }

  predicate EnvsOk(w: World, envs: seq<Env>) {
    && (forall i :: 0 <= i < |envs| ==> envs[i].id != "" && w.norm(envs[i].name) == envs[i].name && envs[i].name != "")
    && (forall i, j :: 0 <= i < j < |envs| ==> envs[i].id != envs[j].id && envs[i].name != envs[j].name)
  }

  predicate RowKnown(history: map<nat, Copy>, env: string, row: Row) {
    row.revision.Some? ==>
      row.revision.value in history && history[row.revision.value] == Copy(env, row.kind, row.name, row.values)
  }

  predicate RowsKnown(history: map<nat, Copy>, env: string, rows: seq<Row>) {
    forall i :: 0 <= i < |rows| ==> RowKnown(history, env, rows[i])
  }

  /** A revision belongs to one copy of one row: every row is what its revision stands for. */
  predicate HistoryOk(s: Server) {
    && (forall r :: r in s.history ==> r <= s.clock)
    && (forall env :: env in s.rows ==> RowsKnown(s.history, env, s.rows[env]))
  }

  predicate HasEnv(s: Server, env: string) {
    exists e :: e in s.envs && e.id == env
  }

  /** Every environment has the name it was given, and no id is a stage. */
  predicate NamesOk(envs: seq<Env>, names: map<string, string>) {
    && (forall e :: e in envs ==> e.id in names && names[e.id] == e.name)
    && (forall id :: id in names ==> id != "" && id !in STAGES)
  }

  predicate AddonsOk(w: World, addons: map<string, StoredAddon>) {
    forall id :: id in addons ==> AsRead(EntryOf(w.catalog, id), addons[id].settings)
  }

  ghost predicate ServerOk(w: World, s: Server) {
    && (s.project.Some? ==> s.project.value != "")
    && (s.project == None ==> s.envs == [])
    && EnvsOk(w, s.envs) && NamesOk(s.envs, s.names)
    && (forall env :: env in s.rows ==> RowsOk(w, s.rows[env]))
    && (forall env :: env in s.addons ==> AddonsOk(w, s.addons[env]))
    && (forall env :: env in s.rows || env in s.addons ==> HasEnv(s, env))
    && HistoryOk(s)
  }

  /** The parts of the world that are promises rather than choices. */
  ghost predicate WorldOk(w: World) {
    && (forall x :: w.norm(w.norm(x)) == w.norm(x))
    && (forall used :: w.newId(used) !in used && w.newId(used) != "" && w.newId(used) !in STAGES)
    && (forall kind :: RulesOk(w.rules(kind)))
    && (forall i :: 0 <= i < |w.catalog| ==> EntryOk(w.catalog[i]))
  }

  /** Nobody else writes. */
  ghost predicate Quiet(w: World) {
    forall n :: w.foreign(n) == [] && w.between(n) == []
  }
}
