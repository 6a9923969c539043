/** What one run does to one environment, one component or one add-on, when nobody else writes: every
    instruction but one leaves it alone, and that one takes it to its goal or not at all. */
module Progress {
  import opened Options
  import opened Values
  import opened FieldDiffs
  import opened Addons
  import opened ControlPlane
  import opened ServerInvariants
  import opened Plans
  import opened Applies
  import opened Addressing
  import opened Lookups

  /** A component row by its environment's name, its kind and its lookup name. */
  datatype Slot = Slot(env: string, kind: string, name: string)

  function SlotRow(w: World, s: Server, k: Slot): Option<Row> {
    RowFor(w, s, k.env, k.kind, k.name)
  }

  function SlotValues(w: World, s: Server, k: Slot): Option<Fields> {
    ValuesOf(SlotRow(w, s, k))
  }

  predicate ProperSlot(w: World, k: Slot) {
    ProperKey(w, k.kind, k.name)
  }

  predicate EnvHere(w: World, s: Server, id: string, key: string) {
    exists e :: e in s.envs && e.id == id && w.norm(e.name) == key
  }

  /** When nobody else writes: every id is that of an environment that is there. */
  ghost predicate IdsHere(w: World, ids: map<string, string>, s: Server) {
    forall k :: k in ids && ids[k] != "" ==> EnvHere(w, s, ids[k], k)
  }

  lemma HereIsOk(w: World, ids: map<string, string>, s: Server)
    requires ServerOk(w, s) && IdsHere(w, ids, s)
    ensures IdsOk(w, ids, s)
  {
    hide ServerOk;
    forall k | k in ids && ids[k] != "" ensures IdNames(s, ids[k], k) {
      var e :| e in s.envs && e.id == ids[k] && w.norm(e.name) == k;
      NameOfEnv(w, s, e);
    }
  }

  lemma IdsHereGrow(w: World, ids: map<string, string>, s: Server, t: Server)
    requires IdsHere(w, ids, s) && EnvsGrow(s, t)
    ensures IdsHere(w, ids, t)
  {
    forall k | k in ids && ids[k] != "" ensures EnvHere(w, t, ids[k], k) {
      var e :| e in s.envs && e.id == ids[k] && w.norm(e.name) == k;
      assert e in t.envs[..|s.envs|];
    }
  }

  lemma {:induction false} FillFromHere(w: World, ids: map<string, string>, listed: seq<Env>, s: Server)
    requires IdsHere(w, ids, s) && forall e :: e in listed ==> e in s.envs
    ensures IdsHere(w, FillFrom(w, ids, listed), s)
  {
    if listed != [] {
      FillFromHere(w, ids, listed[..|listed| - 1], s);
      assert listed[|listed| - 1] in s.envs;
    }
  }

  lemma CreatedIdHere(w: World, m: Manifest, r: Run, e: EnvPlan)
    requires WorldOk(w) && Quiet(w) && ServerOk(w, r.server) && IdsHere(w, r.ids, r.server)
    ensures var t := StepAddEnv(w, m, r, e); IdsHere(w, t.ids, t.server)
  {
    hide ServerOk, Keeps, EnvsGrow, Arrive, WorldOk, Quiet;
    var d := FindDecl(m.envs, e.name);
    FindDeclName(m.envs, e.name);
    if d.Some? {
      RequestAddEnvOk(w, r.server, Spec(d.value));
      var a := RequestAddEnv(w, r.server, Spec(d.value));
      IdsHereGrow(w, r.ids, r.server, a.server);
      if a.ok {
        var last := a.server.envs[|a.server.envs| - 1];
        assert last in a.server.envs && last.name == w.norm(e.name);
        NameOfEnv(w, a.server, last);
        assert EnvHere(w, a.server, last.id, w.norm(e.name));
      }
    }
  }

  lemma StepIdsHere(w: World, wait: bool, p: Plan, r: Run, i: Instr)
    requires WorldOk(w) && Quiet(w) && ServerOk(w, r.server) && IdsHere(w, r.ids, r.server)
    ensures IdsHere(w, Step(w, wait, p, r, i).ids, Step(w, wait, p, r, i).server)
  {
    hide ServerOk, Keeps, EnvsGrow, WorldOk, Quiet, RequestComponent, RequestEnable, RequestDeploy, RequestCreate, RequestAddEnv, Arrive, Meanwhile, RowBefore, RowAfter, Found, FoundId, FoundById, EnabledIn, StepAddEnv, IdsHere;
    var t := Step(w, wait, p, r, i);
    StepServerOk(w, wait, p, r, i);
    IdsHereGrow(w, r.ids, r.server, t.server);
    if r.status == Running {
      match i {
        case AddEnv(e) => CreatedIdHere(w, p.manifest, r, e);
        case FillIds =>
          if !AllKnown(w, p.envs, r.ids) { FillFromHere(w, r.ids, t.server.envs, t.server); }
        case _ =>
      }
    }
  }

  lemma {:induction false} ExecIdsHere(w: World, wait: bool, p: Plan, r: Run, program: seq<Instr>)
    requires WorldOk(w) && Quiet(w) && ServerOk(w, r.server) && IdsHere(w, r.ids, r.server)
    ensures var t := Exec(w, wait, p, r, program); IdsHere(w, t.ids, t.server)
  {
    hide WorldOk, Quiet, ServerOk, IdsHere, Step;
    if program != [] {
      var front := program[..|program| - 1];
      ExecIdsHere(w, wait, p, r, front);
      ExecServerOk(w, wait, p, r, front);
      StepIdsHere(w, wait, p, Exec(w, wait, p, r, front), program[|program| - 1]);
    }
  }

  /** What always holds of a run. */
  ghost predicate Going(w: World, r: Run) {
    ServerOk(w, r.server) && IdsHere(w, r.ids, r.server) && AllWellAddressed(r.log)
  }

  // ----- where a request lands -----

  lemma WriteLands(w: World, r: Run, name: string)
    requires Quiet(w) && ServerOk(w, r.server) && IdsHere(w, r.ids, r.server) && IdOf(w, r.ids, name) != ""
    ensures Named(w, r.server.envs, name).Some?
    ensures Named(w, r.server.envs, name).value.id == IdOf(w, r.ids, name) && HasEnv(r.server, IdOf(w, r.ids, name))
    ensures Found(w, r.server, IdOf(w, r.ids, name)) == Named(w, r.server.envs, name)
  {
    hide HistoryOk, RowsOk, NamesOk, AddonsOk;
    QuietArrive(w, r.server);
    var id := IdOf(w, r.ids, name);
    assert EnvHere(w, r.server, id, w.norm(name));
    var e :| e in r.server.envs && e.id == id && w.norm(e.name) == w.norm(name);
    NamedUnique(w, r.server.envs, e, name);
    ResolveById(w, r.server.envs, e);
  }

  lemma SameName(w: World, envs: seq<Env>, a: string, b: string)
    requires EnvsOk(w, envs) && w.norm(a) == w.norm(b)
    ensures Named(w, envs, a) == Named(w, envs, b)
  {
    if Named(w, envs, a).Some? { NamedUnique(w, envs, Named(w, envs, a).value, b); }
  }

  lemma SameId(w: World, envs: seq<Env>, x: Env, y: Env)
    requires EnvsOk(w, envs) && x in envs && y in envs && x.id == y.id
    ensures x == y
  {
    var i :| 0 <= i < |envs| && envs[i] == x;
    var j :| 0 <= j < |envs| && envs[j] == y;
  }

  // ----- a component request -----

  /** The server's part of a component request. */
  function ServeComponent(w: World, s: Server, env: string, c: ComponentPlan): Served {
    if c.action == Create then ServeAdd(w, s, env, c.kind, c.name, c.fields)
    else if c.name == "" && c.revision == None then ServeAdd(w, s, env, c.kind, "", Body(c.changes))
    else ServeUpdate(w, s, env, c.kind, c.name, Body(c.changes), c.revision)
  }

  lemma RequestServes(w: World, r: Run, name: string, c: ComponentPlan)
    requires Quiet(w) && ServerOk(w, r.server) && IdsHere(w, r.ids, r.server) && IdOf(w, r.ids, name) != ""
    requires c.action != Unchanged
    ensures Named(w, r.server.envs, name).Some?
    ensures var t, e := Arrive(w, r.server), Named(w, r.server.envs, name).value;
      RequestComponent(w, r.server, IdOf(w, r.ids, name), c) ==
      Answer(w, r.server.served, t, ServeComponent(w, t, e.id, c))
  {
    hide ServerOk, IdsHere, Arrive, RequestComponent, ServeComponent, Found, Answer, Named;
    QuietArrive(w, r.server);
    WriteLands(w, r, name);
    RequestIsServe(w, r.server, IdOf(w, r.ids, name), c);
  }

  lemma RequestIsServe(w: World, s: Server, ref: string, c: ComponentPlan)
    requires c.action != Unchanged && Found(w, s, ref).Some? && HasEnv(Meanwhile(w, s), Found(w, s, ref).value.id)
    ensures var t := Meanwhile(w, s);
      RequestComponent(w, s, ref, c) == Answer(w, s.served, t, ServeComponent(w, t, Found(w, s, ref).value.id, c))
  {
    hide Meanwhile, Found, ServeAdd, ServeUpdate, Body, Answer;
  }

  /** It changes rows only. */
  lemma ComponentWritesRows(w: World, s: Server, env: string, c: ComponentPlan)
    ensures var t := ServeComponent(w, s, env, c).server; t.envs == s.envs && t.addons == s.addons && t.project == s.project
  {
    hide ServeAdd, ServeUpdate, Body;
    AddWritesRows(w, s, env, c.kind, c.name, c.fields);
    AddWritesRows(w, s, env, c.kind, "", Body(c.changes));
    UpdateWritesRows(w, s, env, c.kind, c.name, Body(c.changes), c.revision);
  }

  lemma AddWritesRows(w: World, s: Server, env: string, kind: string, name: string, fields: Fields)
    ensures var t := ServeAdd(w, s, env, kind, name, fields).server;
      t.envs == s.envs && t.addons == s.addons && t.project == s.project
  {
    hide Accepts, Patched, Inserted, Find;
  }

  lemma UpdateWritesRows(w: World, s: Server, env: string, kind: string, name: string, body: Fields, ifMatch: Option<nat>)
    ensures var t := ServeUpdate(w, s, env, kind, name, body, ifMatch).server;
      t.envs == s.envs && t.addons == s.addons && t.project == s.project
  {
    hide Accepts, Patched, Find;
  }

  lemma ServeComponentFrame(w: World, s: Server, env: string, c: ComponentPlan, env': string, kind: string, name: string)
    requires ServerOk(w, s) && ProperKey(w, c.kind, c.name) && ProperKey(w, kind, name)
    requires env' != env || kind != c.kind || name != c.name
    ensures RowIn(ServeComponent(w, s, env, c).server, env', kind, name) == RowIn(s, env', kind, name)
  {
    hide ServerOk, ServeAdd, ServeUpdate, Body;
    ServeAddFrame(w, s, env, c.kind, c.name, c.fields, env', kind, name);
    ServeUpdateFrame(w, s, env, c.kind, c.name, Body(c.changes), c.revision, env', kind, name);
    if c.name == "" {
      ServeAddFrame(w, s, env, c.kind, "", Body(c.changes), env', kind, name);
    }
  }

  lemma ArriveQuietly(w: World, s: Server)
    requires Quiet(w) && ServerOk(w, s)
    ensures ServerOk(w, Arrive(w, s)) && SameState(s, Arrive(w, s))
  {
    QuietArrive(w, s);
    Counted(w, s, s.served + 1);
  }

  predicate Hits(w: World, i: Instr, k: Slot) {
    i.WriteComponent? && w.norm(i.env.name) == w.norm(k.env) && i.component.kind == k.kind && i.component.name == k.name
  }

  /** A write to another slot. */
  lemma ComponentFrame(w: World, r: Run, e: EnvPlan, c: ComponentPlan, k: Slot)
    requires Quiet(w) && ServerOk(w, r.server) && IdsHere(w, r.ids, r.server) && IdOf(w, r.ids, e.name) != ""
    requires c.action != Unchanged && ProperKey(w, c.kind, c.name) && ProperSlot(w, k)
    requires !Hits(w, WriteComponent(e, c), k)
    ensures SlotRow(w, RequestComponent(w, r.server, IdOf(w, r.ids, e.name), c).server, k) == SlotRow(w, r.server, k)
  {
    hide RequestComponent, ServeComponent, IdsHere, Arrive, HistoryOk, RowsOk, RowIn, Answer;
    RequestServes(w, r, e.name, c);
    ArriveQuietly(w, r.server);
    var t, x := Arrive(w, r.server), Named(w, r.server.envs, e.name).value;
    ComponentWritesRows(w, t, x.id, c);
    var y := Named(w, r.server.envs, k.env);
    if y.Some? {
      if y.value.id == x.id { SameId(w, r.server.envs, x, y.value); }
      ServeComponentFrame(w, t, x.id, c, y.value.id, k.kind, k.name);
      AnswerKeepsRow(w, r.server.served, t, ServeComponent(w, t, x.id, c), y.value.id, k);
      SameRows(r.server, t, y.value.id, k.kind, k.name);
    } else {
      AnswerKeepsEnvs(w, r.server.served, t, ServeComponent(w, t, x.id, c));
    }
  }

  lemma SameRows(s: Server, t: Server, env: string, kind: string, name: string)
    requires SameState(s, t)
    ensures RowIn(s, env, kind, name) == RowIn(t, env, kind, name)
  {
  }

  lemma AnswerKeepsRow(w: World, n: nat, t: Server, served: Served, env: string, k: Slot)
    requires RowIn(served.server, env, k.kind, k.name) == RowIn(t, env, k.kind, k.name) && served.server.envs == t.envs
    ensures RowIn(Answer(w, n, t, served).server, env, k.kind, k.name) == RowIn(t, env, k.kind, k.name)
    ensures Answer(w, n, t, served).server.envs == t.envs
  {
  }

  lemma AnswerKeepsEnvs(w: World, n: nat, t: Server, served: Served)
    requires served.server.envs == t.envs
    ensures Answer(w, n, t, served).server.envs == t.envs
  {
  }

  /** The write the slot's own plan asks for. */
  lemma ComponentHit(w: World, r: Run, e: EnvPlan, d: Decl, k: Slot)
    requires Quiet(w) && ServerOk(w, r.server) && IdsHere(w, r.ids, r.server) && IdOf(w, r.ids, e.name) != ""
    requires DeclGood(w, d, SlotValues(w, r.server, k)) && k == Slot(k.env, d.kind, d.name) && w.norm(e.name) == w.norm(k.env)
    requires var c := PlanFromRow(d, SlotRow(w, r.server, k)); c.action != Unchanged
    ensures var c := PlanFromRow(d, SlotRow(w, r.server, k));
      var a := RequestComponent(w, r.server, IdOf(w, r.ids, e.name), c);
      var goal := Some(Goal(w.rules(d.kind), d.fields, SlotValues(w, r.server, k)));
      && (SlotValues(w, a.server, k) == SlotValues(w, r.server, k) || SlotValues(w, a.server, k) == goal)
      && (a.ok ==> SlotValues(w, a.server, k) == goal)
      && (w.fate(r.server.served) == Delivered ==> a.ok)
  {
    hide RequestComponent, IdsHere, Arrive, HistoryOk, RowsOk, RowIn, Goal, PlanFromRow, ServeAdd, ServeUpdate;
    var c := PlanFromRow(d, SlotRow(w, r.server, k));
    PlanKeeps(d, SlotRow(w, r.server, k));
    RequestServes(w, r, e.name, c);
    ArriveQuietly(w, r.server);
    var t, x := Arrive(w, r.server), Named(w, r.server.envs, e.name).value;
    SameName(w, r.server.envs, e.name, k.env);
    ComponentWritesRows(w, t, x.id, c);
    SameRows(r.server, t, x.id, k.kind, k.name);
    ServePlanned(w, t, x.id, d);
  }

  lemma PlanKeeps(d: Decl, row: Option<Row>)
    ensures PlanFromRow(d, row).kind == d.kind && PlanFromRow(d, row).name == d.name
  {
  }

  /** A plan with nothing to do is at its goal. */
  lemma UnchangedIsGoal(w: World, s: Server, d: Decl, row: Option<Row>)
    requires DeclGood(w, d, ValuesOf(row)) && PlanFromRow(d, row).action == Unchanged
    requires row.Some? ==> StoredOk(row.value.values)
    ensures ValuesOf(row) == Some(Goal(w.rules(d.kind), d.fields, ValuesOf(row)))
  {
    hide Diff;
    ValuesSurviveTheWire(row.value);
    NothingSentNothingChanged(w.rules(d.kind), row.value.values);
  }

  // ----- the other requests -----

  /** New environments are empty. */
  lemma NewEnvsAreEmpty(w: World, s: Server, t: Server, k: Slot, id: string)
    requires ServerOk(w, t) && EnvsGrow(s, t) && t.rows == s.rows && t.addons == s.addons
    requires forall e :: e in t.envs ==> e in s.envs || (e.id !in s.rows && e.id !in s.addons)
    ensures SlotRow(w, t, k) == SlotRow(w, s, k)
    ensures AddonFor(w, t, k.env, id) == AddonFor(w, s, k.env, id)
  {
    hide ServerOk, EnvsGrow;
    if Named(w, s.envs, k.env).Some? {
      NamedStays(w, s, t, k.env);
    } else if Named(w, t.envs, k.env).Some? {
      var e := Named(w, t.envs, k.env).value;
      assert e !in s.envs;
    }
  }

  lemma AddEnvFrame(w: World, s: Server, spec: EnvSpec, k: Slot, id: string)
    requires WorldOk(w) && Quiet(w) && ServerOk(w, s)
    ensures var t := RequestAddEnv(w, s, spec).server;
      SlotRow(w, t, k) == SlotRow(w, s, k) && AddonFor(w, t, k.env, id) == AddonFor(w, s, k.env, id)
  {
    hide ServerOk, Keeps, EnvsGrow, Arrive, SlotRow, AddonFor, Quiet;
    QuietArrive(w, s);
    RequestAddEnvOk(w, s, spec);
    var t := RequestAddEnv(w, s, spec).server;
    forall e | e in t.envs ensures e in s.envs || (e.id !in s.rows && e.id !in s.addons) {
      if e !in s.envs { assert e.id !in UsedIds(Arrive(w, s)); }
    }
    NewEnvsAreEmpty(w, s, t, k, id);
  }

  lemma CreateFrame(w: World, s: Server, specs: seq<EnvSpec>, k: Slot, id: string)
    requires WorldOk(w) && Quiet(w) && ServerOk(w, s)
    ensures var t := RequestCreate(w, s, specs).server;
      SlotRow(w, t, k) == SlotRow(w, s, k) && AddonFor(w, t, k.env, id) == AddonFor(w, s, k.env, id)
  {
    hide Keeps, EnvsGrow, Arrive, SlotRow, AddonFor, SpecsOk, HistoryOk, RowsOk, EnvsOk, AddonsOk, NamesOk, WorldOk, Quiet;
    QuietArrive(w, s);
    RequestCreateOk(w, s, specs);
    var t := RequestCreate(w, s, specs).server;
    AddEnvsAddsEnvs(w, Arrive(w, s), specs);
    if s.project == None {
      NothingWithoutEnvs(w, s);
      assert s.rows == map[] && s.addons == map[];
    }
    NewEnvsAreEmpty(w, s, t, k, id);
  }

  lemma {:induction false} AddEnvsAddsEnvs(w: World, s: Server, specs: seq<EnvSpec>)
    ensures AddEnvs(w, s, specs) == s.(envs := AddEnvs(w, s, specs).envs, names := AddEnvs(w, s, specs).names)
  {
    if specs != [] { AddEnvsAddsEnvs(w, s, specs[..|specs| - 1]); }
  }

  lemma ServeEnableFrame(w: World, s: Server, env: string, stored: Option<StoredAddon>, req: AddonRequest, env': string, id: string)
    requires env' != env || id != req.id
    ensures AddonIn(ServeEnable(w, s, env, stored, req).server, env', id) == AddonIn(s, env', id)
  {
    hide AcceptsAddon, Reconfigured;
  }

  lemma ServeEnableWrites(w: World, s: Server, env: string, req: AddonRequest)
    ensures var r := ServeEnable(w, s, env, AddonIn(s, env, req.id), req);
      && r.server == s.(addons := r.server.addons)
      && r.ok == AcceptsAddon(EntryOf(w.catalog, req.id), SettingsOf(AddonIn(s, env, req.id)), req)
      && AddonIn(r.server, env, req.id) == AfterEnable(EntryOf(w.catalog, req.id), AddonIn(s, env, req.id), req)
  {
    hide AcceptsAddon, Reconfigured;
    if req.version == None && AcceptsAddon(EntryOf(w.catalog, req.id), SettingsOf(AddonIn(s, env, req.id)), req) {
      PinIsKept(EntryOf(w.catalog, req.id), AddonIn(s, env, req.id), req);
    }
  }

  lemma PinIsKept(entry: CatalogEntry, stored: Option<StoredAddon>, req: AddonRequest)
    requires AcceptsAddon(entry, SettingsOf(stored), req) && req.version == None
    ensures Reconfigured(entry, stored, req).pin == if stored.Some? then stored.value.pin else None
  {
  }

  lemma EnableServes(w: World, r: Run, name: string, req: AddonRequest)
    requires Quiet(w) && ServerOk(w, r.server) && IdsHere(w, r.ids, r.server) && IdOf(w, r.ids, name) != ""
    ensures Named(w, r.server.envs, name).Some?
    ensures var t, e := Arrive(w, r.server), Named(w, r.server.envs, name).value;
      RequestEnable(w, r.server, IdOf(w, r.ids, name), req) ==
      Answer(w, r.server.served, t, ServeEnable(w, t, e.id, AddonIn(t, e.id, req.id), req))
  {
    hide ServerOk, IdsHere, Arrive, ServeEnable, Found, AddonIn, Quiet, Meanwhile, Named;
    QuietArrive(w, r.server);
    WriteLands(w, r, name);
    StaysActive(w, Arrive(w, r.server), IdOf(w, r.ids, name));
  }

  /** Another add-on is left alone. */
  lemma EnableFrame(w: World, r: Run, name: string, req: AddonRequest, env: string, id: string)
    requires Quiet(w) && ServerOk(w, r.server) && IdsHere(w, r.ids, r.server) && IdOf(w, r.ids, name) != ""
    requires w.norm(name) != w.norm(env) || req.id != id
    ensures AddonFor(w, RequestEnable(w, r.server, IdOf(w, r.ids, name), req).server, env, id) == AddonFor(w, r.server, env, id)
  {
    hide RequestEnable, ServeEnable, IdsHere, Arrive, HistoryOk, RowsOk, AddonIn;
    EnableServes(w, r, name, req);
    QuietArrive(w, r.server);
    var t, x := Arrive(w, r.server), Named(w, r.server.envs, name).value;
    ServeEnableWrites(w, t, x.id, req);
    var y := Named(w, r.server.envs, env);
    if y.Some? {
      if y.value.id == x.id { SameId(w, r.server.envs, x, y.value); }
      ServeEnableFrame(w, t, x.id, AddonIn(t, x.id, req.id), req, y.value.id, id);
      SameAddons(r.server, t, y.value.id, id);
    }
  }

  lemma SameAddons(s: Server, t: Server, env: string, id: string)
    requires SameState(s, t)
    ensures AddonIn(s, env, id) == AddonIn(t, env, id)
  {
  }

  /** A component is no concern of an add-on request. */
  lemma EnableKeepsRows(w: World, r: Run, name: string, req: AddonRequest, k: Slot)
    requires Quiet(w) && ServerOk(w, r.server) && IdsHere(w, r.ids, r.server) && IdOf(w, r.ids, name) != ""
    ensures SlotRow(w, RequestEnable(w, r.server, IdOf(w, r.ids, name), req).server, k) == SlotRow(w, r.server, k)
  {
    hide RequestEnable, ServeEnable, IdsHere, Arrive, ServerOk;
    EnableServes(w, r, name, req);
    QuietArrive(w, r.server);
    ServeEnableWrites(w, Arrive(w, r.server), Named(w, r.server.envs, name).value.id, req);
  }

  /** An add-on is no concern of a component request. */
  lemma ComponentKeepsAddons(w: World, r: Run, e: EnvPlan, c: ComponentPlan, env: string, id: string)
    requires Quiet(w) && ServerOk(w, r.server) && IdsHere(w, r.ids, r.server) && IdOf(w, r.ids, e.name) != ""
    requires c.action != Unchanged
    ensures AddonFor(w, RequestComponent(w, r.server, IdOf(w, r.ids, e.name), c).server, env, id) == AddonFor(w, r.server, env, id)
  {
    hide RequestComponent, ServeComponent, IdsHere, Arrive, ServerOk;
    RequestServes(w, r, e.name, c);
    QuietArrive(w, r.server);
    ComponentWritesRows(w, Arrive(w, r.server), Named(w, r.server.envs, e.name).value.id, c);
  }

  /** What is held is as its schema reads it. */
  lemma HeldIsAsRead(w: World, s: Server, env: string, id: string)
    requires ServerOk(w, s)
    ensures AddonFor(w, s, env, id).Some? ==> AsRead(EntryOf(w.catalog, id), AddonFor(w, s, env, id).value.settings)
  {
    hide HistoryOk, RowsOk, NamesOk, EnvsOk, AsRead;
  }

  /** The request of an add-on's own plan. */
  lemma AddonHit(w: World, r: Run, name: string, a: AddonDecl, env: string)
    requires Quiet(w) && ServerOk(w, r.server) && IdsHere(w, r.ids, r.server) && IdOf(w, r.ids, name) != ""
    requires w.norm(name) == w.norm(env)
    requires AddonDeclOk(a, EntryOf(w.catalog, a.id)) && EntryOk(EntryOf(w.catalog, a.id))
    requires var o := PlanFor(a, AddonFor(w, r.server, env, a.id), EntryOf(w.catalog, a.id)); o.Planned? && o.plan.request.Some?
    ensures var entry, have := EntryOf(w.catalog, a.id), AddonFor(w, r.server, env, a.id);
      var b := RequestEnable(w, r.server, IdOf(w, r.ids, name), PlanFor(a, have, entry).plan.request.value);
      var got := AddonFor(w, b.server, env, a.id);
      && (got == have || got == AddonTarget(a, have, entry))
      && (b.ok ==> got == AddonTarget(a, have, entry))
      && (w.fate(r.server.served) == Delivered ==> b.ok)
  {
    hide RequestEnable, ServeEnable, IdsHere, Arrive, HistoryOk, RowsOk, AddonIn, PlanFor, AddonDeclOk, IsPlanned, AfterEnable, AcceptsAddon, EntryOk, AsRead, NamesOk;
    var entry, have := EntryOf(w.catalog, a.id), AddonFor(w, r.server, env, a.id);
    var req := PlanFor(a, have, entry).plan.request.value;
    PlanRequestsItself(a, have, entry);
    HeldIsAsRead(w, r.server, env, a.id);
    AddonTargetSettles(a, have, entry);
    EnableServes(w, r, name, req);
    QuietArrive(w, r.server);
    SameName(w, r.server.envs, name, env);
    var t, x := Arrive(w, r.server), Named(w, r.server.envs, name).value;
    ServeEnableWrites(w, t, x.id, req);
    SameAddons(r.server, t, x.id, a.id);
  }

  lemma PlanRequestsItself(a: AddonDecl, stored: Option<StoredAddon>, entry: CatalogEntry)
    ensures var o := PlanFor(a, stored, entry);
      o.Planned? ==>
        && o.plan.id == a.id && (o.plan.request.Some? ==> o.plan.request.value.id == a.id)
        && (o.plan.request == None <==> o.plan.action == Unchanged)
  {
    hide AddonDiff;
  }

  lemma DeployFrame(w: World, s: Server, ref: string, k: Slot, id: string)
    requires Quiet(w)
    ensures var t := RequestDeploy(w, s, ref).server;
      SlotRow(w, t, k) == SlotRow(w, s, k) && AddonFor(w, t, k.env, id) == AddonFor(w, s, k.env, id) && t.envs == s.envs
  {
    hide Arrive, RowIn, AddonIn, Meanwhile, FoundById;
    QuietArrive(w, s);
    var t := RequestDeploy(w, s, ref).server;
    assert t.envs == s.envs && t.rows == s.rows && t.addons == s.addons;
    if Named(w, s.envs, k.env).Some? { SameTables(s, t, Named(w, s.envs, k.env).value.id, k.kind, k.name, id); }
  }

  lemma SameTables(s: Server, t: Server, env: string, kind: string, name: string, id: string)
    requires t.rows == s.rows && t.addons == s.addons
    ensures RowIn(t, env, kind, name) == RowIn(s, env, kind, name) && AddonIn(t, env, id) == AddonIn(s, env, id)
  {
  }

  lemma ArriveFrame(w: World, s: Server, k: Slot, id: string)
    requires Quiet(w)
    ensures SlotRow(w, Arrive(w, s), k) == SlotRow(w, s, k)
    ensures AddonFor(w, Arrive(w, s), k.env, id) == AddonFor(w, s, k.env, id)
  {
    QuietArrive(w, s);
  }
}
