/** Every request of a run goes to the environment it is meant for, or nowhere: the ids the run holds, and where
    they land. */
module Addressing {
  import opened Options
  import opened Values
  import opened FieldDiffs
  import opened Addons
  import opened ControlPlane
  import opened ServerInvariants
  import opened Plans
  import opened Applies
  import opened Applier

  // ----- one request keeps the server sound -----

  lemma ResolveById(w: World, envs: seq<Env>, e: Env)
    requires EnvsOk(w, envs) && e in envs
    ensures Resolve(envs, e.id) == Some(e)
  {
    var found := FirstEnv(envs, (x: Env) => x.id == e.id);
    assert found.Some?;
    var i :| 0 <= i < |envs| && envs[i] == e;
    var j :| 0 <= j < |envs| && envs[j] == found.value;
  }

  /** The answer of a request is the served server, or the one it arrived at. */
  lemma AnswerOk(w: World, n: nat, s: Server, arrived: Server, served: Served)
    requires ServerOk(w, arrived) && Grows(w, s, arrived) && ServerOk(w, served.server) && Extends(arrived, served.server)
    ensures ServerOk(w, Answer(w, n, arrived, served).server) && Grows(w, s, Answer(w, n, arrived, served).server)
  {
    hide ServerOk;
    GrowsTransitive(w, s, arrived, served.server);
  }

  lemma RequestAddOk(w: World, s: Server, ref: string, kind: string, name: string, fields: Fields)
    requires WorldOk(w) && ServerOk(w, s)
    ensures var t := RequestAdd(w, s, ref, kind, name, fields).server; ServerOk(w, t) && Grows(w, s, t)
  {
    hide WorldOk, ServerOk, Grows, Extends, ServeAdd, Meanwhile, Found;
    MeanwhileOk(w, s);
    var t, e := Meanwhile(w, s), Found(w, s, ref);
    Stays(t);
    var gone := e == None || !HasEnv(t, e.value.id);
    if !gone { ServeAddOk(w, t, e.value.id, kind, name, fields); }
    AnswerOk(w, s.served, s, t, if gone then Served(false, t) else ServeAdd(w, t, e.value.id, kind, name, fields));
  }

  lemma RequestUpdateOk(w: World, s: Server, ref: string, kind: string, name: string, body: Fields, ifMatch: Option<nat>)
    requires WorldOk(w) && ServerOk(w, s)
    ensures var t := RequestUpdate(w, s, ref, kind, name, body, ifMatch).server; ServerOk(w, t) && Grows(w, s, t)
  {
    hide WorldOk, ServerOk, Grows, Extends, ServeUpdate, Meanwhile, Found;
    MeanwhileOk(w, s);
    var t, e := Meanwhile(w, s), Found(w, s, ref);
    Stays(t);
    var gone := e == None || !HasEnv(t, e.value.id);
    if !gone { ServeUpdateOk(w, t, e.value.id, kind, name, body, ifMatch); }
    AnswerOk(w, s.served, s, t, if gone then Served(false, t) else ServeUpdate(w, t, e.value.id, kind, name, body, ifMatch));
  }

  lemma RequestComponentOk(w: World, s: Server, ref: string, c: ComponentPlan)
    requires WorldOk(w) && ServerOk(w, s) && c.action != Unchanged
    ensures var t := RequestComponent(w, s, ref, c).server; ServerOk(w, t) && Grows(w, s, t)
  {
    hide WorldOk, ServerOk, Grows, RequestAdd, RequestUpdate;
    RequestAddOk(w, s, ref, c.kind, c.name, c.fields);
    RequestAddOk(w, s, ref, c.kind, "", Body(c.changes));
    RequestUpdateOk(w, s, ref, c.kind, c.name, Body(c.changes), c.revision);
  }

  lemma RequestEnableOk(w: World, s: Server, ref: string, req: AddonRequest)
    requires WorldOk(w) && ServerOk(w, s)
    ensures var t := RequestEnable(w, s, ref, req).server; ServerOk(w, t) && Grows(w, s, t)
  {
    hide WorldOk, ServerOk, Grows, Extends, ServeEnable, Meanwhile, EnabledIn;
    MeanwhileOk(w, s);
    var t, e := Meanwhile(w, s), EnabledIn(w, s, ref);
    var stored := AddonIn(Arrive(w, s), FoundId(w, s, ref), req.id);
    Stays(t);
    EnabledIsThere(w, s, ref);
    if e.Some? { ServeEnableOk(w, t, e.value.id, stored, req); }
    AnswerOk(w, s.served, s, t, if e == None then Served(false, t) else ServeEnable(w, t, e.value.id, stored, req));
  }

  lemma EnabledIsThere(w: World, s: Server, ref: string)
    ensures EnabledIn(w, s, ref).Some? ==>
      EnabledIn(w, s, ref).value in Meanwhile(w, s).envs && HasEnv(Meanwhile(w, s), EnabledIn(w, s, ref).value.id)
  {
    hide Meanwhile, Found;
  }

  lemma QueueOk(w: World, s: Server, job: string)
    requires ServerOk(w, s)
    ensures var t := s.(jobs := s.jobs + [job]); ServerOk(w, t) && Extends(s, t)
  {
    hide EnvsOk, RowsOk, AddonsOk, NamesOk;
    Stays(s);
    HistoryIsRows(s, s.(jobs := s.jobs + [job]));
    forall env | env in s.rows || env in s.addons ensures HasEnv(s.(jobs := s.jobs + [job]), env) {
      assert HasEnv(s, env);
    }
  }

  lemma RequestDeployOk(w: World, s: Server, ref: string)
    requires WorldOk(w) && ServerOk(w, s)
    ensures var t := RequestDeploy(w, s, ref).server; ServerOk(w, t) && Grows(w, s, t)
  {
    hide WorldOk, ServerOk, Grows, Extends, Meanwhile, FoundById;
    MeanwhileOk(w, s);
    var t, e := Meanwhile(w, s), FoundById(w, s, ref);
    Stays(t);
    var gone := e == None || !HasEnv(t, e.value.id);
    if !gone { QueueOk(w, t, e.value.id); }
    AnswerOk(w, s.served, s, t, if gone then Served(false, t) else Served(true, t.(jobs := t.jobs + [e.value.id])));
  }

  lemma RequestCreateOk(w: World, s: Server, specs: seq<EnvSpec>)
    requires WorldOk(w) && ServerOk(w, s)
    ensures var t := RequestCreate(w, s, specs).server; ServerOk(w, t) && Grows(w, s, t)
  {
    hide WorldOk, ServerOk, Grows, Extends, Arrive, ServeCreate;
    ArriveOk(w, s);
    ServeCreateOk(w, Arrive(w, s), specs);
    AnswerOk(w, s.served, s, Arrive(w, s), ServeCreate(w, Arrive(w, s), specs));
  }

  lemma RequestAddEnvOk(w: World, s: Server, spec: EnvSpec)
    requires WorldOk(w) && ServerOk(w, s)
    ensures var t := RequestAddEnv(w, s, spec).server; ServerOk(w, t) && Grows(w, s, t)
  {
    hide WorldOk, ServerOk, Grows, Extends, Arrive, ServeAddEnv;
    ArriveOk(w, s);
    var t := Arrive(w, s);
    ServeAddEnvOk(w, t, spec.name, spec.stage, spec.placement, spec.lifecycle);
    AnswerOk(w, s.served, s, t, ServeAddEnv(w, t, spec.name, spec.stage, spec.placement, spec.lifecycle));
  }

  // ----- the run keeps the server sound -----

  lemma StepServerOk(w: World, wait: bool, p: Plan, r: Run, i: Instr)
    requires WorldOk(w) && ServerOk(w, r.server)
    ensures ServerOk(w, Step(w, wait, p, r, i).server) && Grows(w, r.server, Step(w, wait, p, r, i).server)
  {
    hide ServerOk, Grows, WorldOk, RequestComponent, RequestEnable, RequestDeploy, RequestCreate, RequestAddEnv, Arrive, RowBefore, RowAfter, Found, FoundById, EnabledIn;
    GrowsReflexive(w, r.server);
    if r.status == Running {
      match i {
        case CreateProject => RequestCreateOk(w, r.server, Specs(p.manifest));
        case AddEnv(e) =>
          var d := FindDecl(p.manifest.envs, e.name);
          if d.Some? { RequestAddEnvOk(w, r.server, Spec(d.value)); }
        case FillIds => ArriveOk(w, r.server);
        case WriteComponent(e, c) =>
          if c.action != Unchanged { RequestComponentOk(w, r.server, IdOf(w, r.ids, e.name), c); }
        case WriteAddon(e, a) =>
          if a.request.Some? { RequestEnableOk(w, r.server, IdOf(w, r.ids, e.name), a.request.value); }
        case Deploy(e) => RequestDeployOk(w, r.server, IdOf(w, r.ids, e.name));
      }
    }
  }

  lemma {:induction false} ExecServerOk(w: World, wait: bool, p: Plan, r: Run, program: seq<Instr>)
    requires WorldOk(w) && ServerOk(w, r.server)
    ensures ServerOk(w, Exec(w, wait, p, r, program).server) && Grows(w, r.server, Exec(w, wait, p, r, program).server)
  {
    hide ServerOk, Grows, WorldOk, Step;
    GrowsReflexive(w, r.server);
    if program != [] {
      var front, last := program[..|program| - 1], program[|program| - 1];
      ExecServerOk(w, wait, p, r, front);
      StepServerOk(w, wait, p, Exec(w, wait, p, r, front), last);
      GrowsTransitive(w, r.server, Exec(w, wait, p, r, front).server, Exec(w, wait, p, r, program).server);
    }
  }

  // ----- the ids a run holds -----

  /** The id is, or was, that of the environment of that normalised name. */
  predicate IdNames(s: Server, id: string, key: string) {
    id in s.names && s.names[id] == key
  }

  /** Every id is that of an environment of that normalised name. */
  ghost predicate IdsOk(w: World, ids: map<string, string>, s: Server) {
    forall k :: k in ids && ids[k] != "" ==> IdNames(s, ids[k], k)
  }

  lemma IdsOkGrows(w: World, ids: map<string, string>, s: Server, t: Server)
    requires IdsOk(w, ids, s) && Keeps(s, t)
    ensures IdsOk(w, ids, t)
  {
  }

  lemma NameOfEnv(w: World, s: Server, e: Env)
    requires ServerOk(w, s) && e in s.envs
    ensures IdNames(s, e.id, w.norm(e.name)) && e.id != "" && e.name == w.norm(e.name)
  {
    hide HistoryOk, RowsOk, AddonsOk;
    var i :| 0 <= i < |s.envs| && s.envs[i] == e;
  }

  lemma {:induction false} FillFromOk(w: World, ids: map<string, string>, listed: seq<Env>, s: Server)
    requires ServerOk(w, s) && IdsOk(w, ids, s) && forall e :: e in listed ==> e in s.envs
    ensures IdsOk(w, FillFrom(w, ids, listed), s)
  {
    hide ServerOk;
    if listed != [] {
      FillFromOk(w, ids, listed[..|listed| - 1], s);
      NameOfEnv(w, s, listed[|listed| - 1]);
    }
  }

  /** `fillEnvironmentIDs` keeps every id it is given, and leaves none out when it succeeds. */
  lemma {:induction false} FillKeepsKnownIds(w: World, ids: map<string, string>, listed: seq<Env>, name: string)
    requires IdOf(w, ids, name) != ""
    ensures IdOf(w, FillFrom(w, ids, listed), name) == IdOf(w, ids, name)
  {
    if listed != [] {
      FillKeepsKnownIds(w, ids, listed[..|listed| - 1], name);
    }
  }

  lemma {:induction false} KnownIdsOk(w: World, envs: seq<EnvPlan>, s: Server)
    requires forall e :: e in envs && e.id != "" ==> IdNames(s, e.id, w.norm(e.name))
    ensures IdsOk(w, KnownIds(w, envs), s)
  {
    if envs != [] {
      KnownIdsOk(w, envs[..|envs| - 1], s);
      assert envs[|envs| - 1] in envs;
    }
  }

  lemma {:induction false} FindDeclName(ds: seq<EnvDecl>, name: string)
    ensures FindDecl(ds, name).Some? ==> FindDecl(ds, name).value in ds && FindDecl(ds, name).value.name == name
    ensures FindDecl(ds, name) == None ==> forall d :: d in ds ==> d.name != name
  {
    if ds != [] && ds[0].name != name { FindDeclName(ds[1..], name); }
  }

  lemma CreatedIdOk(w: World, m: Manifest, r: Run, e: EnvPlan)
    requires WorldOk(w) && ServerOk(w, r.server) && IdsOk(w, r.ids, r.server)
    ensures var t := StepAddEnv(w, m, r, e); IdsOk(w, t.ids, t.server)
  {
    hide ServerOk, EnvsGrow, Arrive, WorldOk;
    var d := FindDecl(m.envs, e.name);
    FindDeclName(m.envs, e.name);
    if d.Some? {
      RequestAddEnvOk(w, r.server, Spec(d.value));
      var a := RequestAddEnv(w, r.server, Spec(d.value));
      IdsOkGrows(w, r.ids, r.server, a.server);
      if a.ok {
        var last := a.server.envs[|a.server.envs| - 1];
        assert last in a.server.envs && last.name == w.norm(e.name);
        NameOfEnv(w, a.server, last);
      }
    }
  }

  lemma StepIdsOk(w: World, wait: bool, p: Plan, r: Run, i: Instr)
    requires WorldOk(w) && ServerOk(w, r.server) && IdsOk(w, r.ids, r.server)
    ensures IdsOk(w, Step(w, wait, p, r, i).ids, Step(w, wait, p, r, i).server)
  {
    hide ServerOk, EnvsGrow, WorldOk, RequestComponent, RequestEnable, RequestDeploy, RequestCreate, RequestAddEnv, Arrive, RowBefore, RowAfter, Found, FoundById, EnabledIn, StepAddEnv, IdsOk;
    var t := Step(w, wait, p, r, i);
    StepServerOk(w, wait, p, r, i);
    IdsOkGrows(w, r.ids, r.server, t.server);
    if r.status == Running {
      match i {
        case AddEnv(e) => CreatedIdOk(w, p.manifest, r, e);
        case FillIds =>
          if !AllKnown(w, p.envs, r.ids) { FillFromOk(w, r.ids, t.server.envs, t.server); }
        case _ =>
      }
    }
  }

  // ----- where the requests land -----

  /** Where the lookup by id, name and stage takes an id: to the environment that is meant; or, when that is
      gone, nowhere — or to one whose very name is the id of the one that is gone. */
  predicate LandsAt(e: Option<Env>, id: string, key: string) {
    e.Some? ==> (e.value.id == id && e.value.name == key) || (e.value.id != id && e.value.name == id)
  }

  /** A request carries an id. What is done is done in an environment: for a component, where the lookup took
      the id; for a deploy, in the one that is meant and no other; for an add-on, where the lookup took the id
      or, when that has gone since, in the project's default one. */
  predicate WellAddressed(ev: Event) {
    match ev
    case Wrote(ref, target, landed, _, _, _, ok) =>
      ref != "" && LandsAt(landed, ref, target) && (ok ==> landed.Some?)
    case Enabled(ref, target, found, landed, _, ok) =>
      && ref != "" && LandsAt(found, ref, target) && (ok ==> landed.Some?)
      && (landed.Some? ==> found.Some? && StaysOrDefault(found.value, landed.value))
    case Queued(ref, target, landed, job) =>
      ref != "" && (landed.Some? ==> landed.value.id == ref && landed.value.name == target) && (job.Some? ==> landed.Some?)
    case _ => true
  }

  predicate SameEnv(e: Env, f: Env) {
    e.id == f.id && e.name == f.name
  }

  predicate StaysOrDefault(found: Env, landed: Env) {
    SameEnv(found, landed) || (landed.id != found.id && landed.isDefault)
  }

  predicate AllWellAddressed(log: seq<Event>) {
    forall i :: 0 <= i < |log| ==> WellAddressed(log[i])
  }

  /** An id whose environment is there lands in it. One whose environment is gone lands nowhere, except
      exactly when another environment has that id for its name. */
  lemma IdLands(w: World, s: Server, id: string, key: string)
    requires ServerOk(w, s) && IdNames(s, id, key)
    ensures LandsAt(Resolve(s.envs, id), id, key)
    ensures HasEnv(s, id) ==> Resolve(s.envs, id).Some? && Resolve(s.envs, id).value.id == id
    ensures !HasEnv(s, id) ==> (Resolve(s.envs, id).Some? <==> exists e :: e in s.envs && e.name == id)
  {
    hide HistoryOk, RowsOk, AddonsOk, EnvsOk;
    var e := Resolve(s.envs, id);
    assert forall x :: x in s.envs ==> !AtStage(x, id);
    if e.Some? && e.value.id == id { assert s.names[id] == e.value.name; }
  }

  lemma LandsWhereMeant(w: World, r: Run, name: string)
    requires WorldOk(w) && ServerOk(w, r.server) && IdsOk(w, r.ids, r.server) && IdOf(w, r.ids, name) != ""
    ensures var id := IdOf(w, r.ids, name);
      && LandsAt(Found(w, r.server, id), id, w.norm(name))
      && IdNames(Arrive(w, r.server), id, w.norm(name)) && ServerOk(w, Arrive(w, r.server))
  {
    hide WorldOk, ServerOk, Arrive, EnvsGrow;
    ArriveOk(w, r.server);
    IdsOkGrows(w, r.ids, r.server, Arrive(w, r.server));
    IdLands(w, Arrive(w, r.server), IdOf(w, r.ids, name), w.norm(name));
  }

  /** A component request that lands nowhere is not served. */
  lemma NowhereIsRefused(w: World, s: Server, ref: string, c: ComponentPlan)
    requires Found(w, s, ref) == None && c.action != Unchanged
    ensures !RequestComponent(w, s, ref, c).ok
  {
    hide Meanwhile, Found, ServeAdd, ServeUpdate, Body;
  }

  lemma EnableIsRefused(w: World, s: Server, ref: string, req: AddonRequest)
    ensures EnabledIn(w, s, ref) == None ==> !RequestEnable(w, s, ref, req).ok
    ensures EnabledIn(w, s, ref).Some? ==> Found(w, s, ref).Some?
  {
    hide Meanwhile, Found, ServeEnable, ActiveEnv;
  }

  /** A deploy is taken exactly when it is delivered and the environment with that very id is there, both when
      it is looked up and when the job is queued; it is queued for that one. */
  lemma DeployTakenIff(w: World, s: Server, id: string)
    ensures var a := RequestDeploy(w, s, id);
      && (a.ok <==> w.fate(s.served) == Delivered && HasEnv(Arrive(w, s), id) && HasEnv(Meanwhile(w, s), id))
      && (a.ok ==> FoundById(w, s, id).Some? && a.server == Meanwhile(w, s).(jobs := Meanwhile(w, s).jobs + [id]))
  {
    hide Meanwhile, Arrive;
    assert FoundById(w, s, id).Some? <==> HasEnv(Arrive(w, s), id);
  }

  lemma DeployFinds(w: World, s: Server, id: string, key: string)
    requires ServerOk(w, Arrive(w, s)) && IdNames(Arrive(w, s), id, key)
    ensures var e := FoundById(w, s, id); e.Some? ==> e.value.id == id && e.value.name == key
  {
    hide HistoryOk, RowsOk, AddonsOk, EnvsOk, Arrive;
  }

  lemma StaysActive(w: World, t: Server, id: string)
    requires HasEnv(t, id)
    ensures ActiveEnv(t.envs, id).Some? && ActiveEnv(t.envs, id).value.id == id
  {
  }

  /** The environment an add-on is written to is the one that was found, or — exactly when that has gone since
      and there is a default environment — the default one. */
  lemma EnabledInIff(w: World, s: Server, ref: string)
    requires WorldOk(w) && ServerOk(w, s) && Found(w, s, ref).Some?
    ensures var f, t, e := Found(w, s, ref).value, Meanwhile(w, s), EnabledIn(w, s, ref);
      && (HasEnv(t, f.id) ==> e.Some? && SameEnv(f, e.value))
      && (!HasEnv(t, f.id) ==>
            && (e.Some? <==> exists x :: x in t.envs && x.isDefault)
            && (e.Some? ==> e.value.isDefault && e.value.id != f.id))
  {
    hide WorldOk, ServerOk, Arrive, EnvsGrow, ForeignWrites;
    ArriveOk(w, s);
    MeanwhileOk(w, s);
    var f, t := Found(w, s, ref).value, Meanwhile(w, s);
    NameOfEnv(w, Arrive(w, s), f);
    EnabledIsThere(w, s, ref);
    var e := FirstEnv(t.envs, (x: Env) => x.id == f.id);
    if e.Some? { NameOfEnv(w, t, e.value); }
  }

  /** The one way a component goes astray: the environment with the id is gone, and another has that id for
      its name. */
  lemma NamesakeIsWritten(w: World, kind: string)
    requires w.foreign(0) == w.between(0) == [] && w.fate(0) == Delivered && !w.singleton(kind) && w.norm("d1") == "d1"
    ensures var s := Server(Some("p"), [Env("e2", "d1", "development", "dedicated", "persistent", true)],
                            map["d1" := "dev", "e2" := "d1"], map[], map[], [], 0, map[], 0);
      var a := RequestAdd(w, s, "d1", kind, "db", map[]);
      && ServerOk(w, s) && IdNames(s, "d1", "dev") && !HasEnv(s, "d1")
      && a.ok && RowIn(a.server, "e2", kind, "db").Some?
  {
    hide ServerOk, Resolve, ServeAdd;
    var heir := Env("e2", "d1", "development", "dedicated", "persistent", true);
    var s := Server(Some("p"), [heir], map["d1" := "dev", "e2" := "d1"], map[], map[], [], 0, map[], 0);
    var t := s.(served := 1);
    EmptyServerOk(w, s);
    assert Arrive(w, s) == t && Meanwhile(w, s) == t;
    assert heir in t.envs && HasEnv(t, "e2");
    ResolveAmongOne(heir, "d1");
    assert RequestAdd(w, s, "d1", kind, "db", map[]) == ServeAdd(w, t, "e2", kind, "db", map[]);
    FirstRowAdded(w, t, "e2", kind, "db");
  }

  lemma ResolveAmongOne(e: Env, ref: string)
    requires e.name == ref
    ensures Resolve([e], ref) == Some(e)
  {
    assert e in [e];
  }

  lemma FirstRowAdded(w: World, t: Server, env: string, kind: string, name: string)
    requires t.rows == map[] && !w.singleton(kind) && name != ""
    ensures var a := ServeAdd(w, t, env, kind, name, map[]); a.ok && RowIn(a.server, env, kind, name).Some?
  {
    hide Inserted;
  }

  lemma EmptyServerOk(w: World, s: Server)
    requires s.project == Some("p") && EnvsOk(w, s.envs) && NamesOk(s.envs, s.names)
    requires s.rows == map[] && s.addons == map[] && s.history == map[]
    ensures ServerOk(w, s)
  {
  }

  /** ... and the one an add-on has besides: its environment is deleted between the two lookups, and the
      request writes the default environment and answers that all went well. */
  lemma DefaultIsWritten(w: World, req: AddonRequest)
    requires w.foreign(0) == [] && w.between(0) == [DropEnvironment("e2")] && w.fate(0) == Delivered
    requires w.norm("live") == "live" && w.norm("dev") == "dev"
    requires AcceptsAddon(EntryOf(w.catalog, req.id), SettingsOf(None), req)
    ensures var s := Server(Some("p"), [Env("e1", "live", "production", "dedicated", "persistent", true),
                                        Env("e2", "dev", "development", "dedicated", "persistent", false)],
                            map["e1" := "live", "e2" := "dev"], map[], map[], [], 0, map[], 0);
      var a := RequestEnable(w, s, "e2", req);
      && ServerOk(w, s) && HasEnv(s, "e2")
      && a.ok && AddonIn(a.server, "e1", req.id).Some? && AddonIn(a.server, "e2", req.id) == None
  {
    hide AcceptsAddon, Resolve, ServerOk, ServeEnable, Without;
    var e1 := Env("e1", "live", "production", "dedicated", "persistent", true);
    var e2 := Env("e2", "dev", "development", "dedicated", "persistent", false);
    var s := Server(Some("p"), [e1, e2], map["e1" := "live", "e2" := "dev"], map[], map[], [], 0, map[], 0);
    EmptyServerOk(w, s);
    assert s.envs[1] == e2;
    ResolveById(w, s.envs, e2);
    DroppedBetween(w, s, e1, e2);
    FirstAddonEnabled(w, s.(served := 1, envs := [e1]), "e1", "e2", req);
  }

  lemma DroppedBetween(w: World, s: Server, e1: Env, e2: Env)
    requires w.foreign(s.served) == [] && w.between(s.served) == [DropEnvironment(e2.id)]
    requires s.envs == [e1, e2] && e1.id != e2.id && e1.isDefault && !e2.isDefault && s.rows == map[] && s.addons == map[]
    requires Resolve(s.envs, e2.id) == Some(e2)
    ensures Arrive(w, s) == s.(served := s.served + 1) && Meanwhile(w, s) == s.(served := s.served + 1, envs := [e1])
    ensures EnabledIn(w, s, e2.id) == Some(e1)
  {
    hide Resolve, ForeignWrite, Without;
    Dropped(w, s.(served := s.served + 1), e1, e2);
    OneWrite(w, s.(served := s.served + 1), DropEnvironment(e2.id));
    assert e1 in [e1];
  }

  lemma OneWrite(w: World, s: Server, f: Foreign)
    ensures ForeignWrites(w, s, [f]) == ForeignWrite(w, s, f)
  {
    hide ForeignWrite;
    assert [f][1..] == [];
  }

  lemma Dropped(w: World, s: Server, e1: Env, e2: Env)
    requires s.envs == [e1, e2] && e1.id != e2.id && !e2.isDefault && s.rows == map[] && s.addons == map[]
    ensures ForeignWrite(w, s, DropEnvironment(e2.id)) == s.(envs := [e1])
  {
    assert [e1, e2][..1] == [e1] && [e1][..0] == [];
    assert Without([e1], e2.id) == [e1] && Without([e1, e2], e2.id) == [e1];
  }

  lemma FirstAddonEnabled(w: World, t: Server, env: string, other: string, req: AddonRequest)
    requires t.addons == map[] && env != other && AcceptsAddon(EntryOf(w.catalog, req.id), SettingsOf(None), req)
    ensures var a := ServeEnable(w, t, env, None, req);
      a.ok && AddonIn(a.server, env, req.id).Some? && AddonIn(a.server, other, req.id) == None
  {
    hide AcceptsAddon, Reconfigured;
  }

  predicate AddressedInstr(i: Instr, envs: seq<EnvPlan>) {
    (i.WriteComponent? || i.WriteAddon? || i.Deploy?) && i.env in envs
  }

  /** Once the ids are complete, an instruction addresses its environment by id, and keeps them. */
  lemma StepAddressed(w: World, wait: bool, p: Plan, r: Run, i: Instr)
    requires WorldOk(w) && ServerOk(w, r.server) && IdsOk(w, r.ids, r.server) && AllWellAddressed(r.log)
    requires AddressedInstr(i, p.envs) && AllKnown(w, p.envs, r.ids)
    ensures AllWellAddressed(Step(w, wait, p, r, i).log) && Step(w, wait, p, r, i).ids == r.ids
  {
    hide WorldOk, ServerOk, RequestComponent, RequestEnable, RequestDeploy, Arrive, Meanwhile, RowBefore, RowAfter, Found, FoundById, EnabledIn, IdsOk, LandsAt;
    var ref := IdOf(w, r.ids, i.env.name);
    LandsWhereMeant(w, r, i.env.name);
    match i {
      case WriteComponent(e, c) =>
        if Found(w, r.server, ref) == None && c.action != Unchanged { NowhereIsRefused(w, r.server, ref, c); }
      case WriteAddon(e, a) =>
        if a.request.Some? {
          EnableIsRefused(w, r.server, ref, a.request.value);
          if EnabledIn(w, r.server, ref).Some? { EnabledInIff(w, r.server, ref); }
        }
      case Deploy(e) =>
        DeployTakenIff(w, r.server, ref);
        DeployFinds(w, r.server, ref, w.norm(e.name));
    }
  }

  lemma {:induction false} ExecAddressed(w: World, wait: bool, p: Plan, r: Run, program: seq<Instr>)
    requires WorldOk(w) && ServerOk(w, r.server) && IdsOk(w, r.ids, r.server) && AllWellAddressed(r.log)
    requires r.status == Running ==> AllKnown(w, p.envs, r.ids)
    requires forall i :: i in program ==> AddressedInstr(i, p.envs)
    ensures AllWellAddressed(Exec(w, wait, p, r, program).log)
    ensures var t := Exec(w, wait, p, r, program);
      && ServerOk(w, t.server) && IdsOk(w, t.ids, t.server)
      && (t.status == Running ==> AllKnown(w, p.envs, t.ids))
  {
    hide WorldOk, ServerOk, IdsOk, Step, AllKnown, AllWellAddressed;
    if program != [] {
      var front, last := program[..|program| - 1], program[|program| - 1];
      ExecAddressed(w, wait, p, r, front);
      var before := Exec(w, wait, p, r, front);
      StepServerOk(w, wait, p, before, last);
      StepIdsOk(w, wait, p, before, last);
      if before.status == Running {
        StepAddressed(w, wait, p, before, last);
      } else {
        StepStopped(w, wait, p, before, last);
      }
    }
  }

  lemma {:induction false} ExecUnaddressed(w: World, wait: bool, p: Plan, r: Run, program: seq<Instr>)
    requires WorldOk(w) && ServerOk(w, r.server) && IdsOk(w, r.ids, r.server) && AllWellAddressed(r.log)
    requires forall i :: i in program ==> i.CreateProject? || i.AddEnv? || i.FillIds?
    ensures var t := Exec(w, wait, p, r, program);
      ServerOk(w, t.server) && IdsOk(w, t.ids, t.server) && AllWellAddressed(t.log)
  {
    hide WorldOk, ServerOk, IdsOk, Step, AllWellAddressed;
    if program != [] {
      var front, last := program[..|program| - 1], program[|program| - 1];
      ExecUnaddressed(w, wait, p, r, front);
      StepServerOk(w, wait, p, Exec(w, wait, p, r, front), last);
      StepIdsOk(w, wait, p, Exec(w, wait, p, r, front), last);
      StepUnaddressed(w, wait, p, Exec(w, wait, p, r, front), last);
    }
  }

  lemma StepUnaddressed(w: World, wait: bool, p: Plan, r: Run, i: Instr)
    requires AllWellAddressed(r.log) && (i.CreateProject? || i.AddEnv? || i.FillIds?)
    ensures AllWellAddressed(Step(w, wait, p, r, i).log)
  {
    hide RequestCreate, RequestAddEnv, Arrive, FillFrom, AllKnown, FindDecl, Specs, Spec, Names;
  }

  lemma {:induction false} ProgramShape(envs: seq<EnvPlan>)
    ensures forall i :: i in CreateInstrs(envs) ==> i.AddEnv? && i.env in envs && i.env.action == Create
    ensures forall i :: i in ComponentInstrs(envs) ==> i.WriteComponent? && i.env in envs && i.component in i.env.components
    ensures forall i :: i in AddonInstrs(envs) ==> i.WriteAddon? && i.env in envs && i.addon in i.env.addons
    ensures forall i :: i in DeployInstrs(envs) ==> i.Deploy? && i.env in envs
  {
    if envs != [] {
      ProgramShape(envs[..|envs| - 1]);
    }
  }

  /** The ids a plan carries are those of environments of the same normalised names. */
  ghost predicate PlanIdsOk(w: World, p: Plan, s: Server) {
    forall e :: e in p.envs && e.id != "" ==> IdNames(s, e.id, w.norm(e.name))
  }

  /** Every component, add-on and deploy request of a run is addressed by id, whatever others write — or
      create, or delete, between a request's own lookups too — and whatever fails. A deploy lands in the
      environment of the plan's normalised name or is refused; a component in that one, or in one whose name
      is that very id once the one it is the id of has gone, or is refused; an add-on where a component would,
      or in the project's default environment when the one it was looked up in has gone since. */
  lemma EveryRequestIsWellAddressed(w: World, wait: bool, p: Plan, s: Server)
    requires WorldOk(w) && ServerOk(w, s) && PlanIdsOk(w, p, s)
    ensures AllWellAddressed(ApplyRun(w, wait, p, s).log)
  {
    hide WorldOk, ServerOk, IdsOk, Exec, Step, AllWellAddressed, AllKnown;
    var r := Start(w, p, s);
    var p0 := if p.projectId == "" then [CreateProject] else CreateInstrs(p.envs);
    ProgramPhases(w, wait, p, r);
    ProgramShape(p.envs);
    KnownIdsOk(w, p.envs, s);
    NothingLogged();
    ExecUnaddressed(w, wait, p, r, p0);
    var r0 := Exec(w, wait, p, r, p0);
    FillIdsPhase(w, wait, p, r0);
    var r1 := Exec(w, wait, p, r0, [FillIds]);
    ExecAddressed(w, wait, p, r1, ComponentInstrs(p.envs));
    var r2 := Exec(w, wait, p, r1, ComponentInstrs(p.envs));
    ExecAddressed(w, wait, p, r2, AddonInstrs(p.envs));
    ExecAddressed(w, wait, p, Exec(w, wait, p, r2, AddonInstrs(p.envs)), DeployInstrs(p.envs));
  }

  lemma NothingLogged()
    ensures AllWellAddressed([])
  {
  }

  lemma FillIdsPhase(w: World, wait: bool, p: Plan, r: Run)
    requires WorldOk(w) && ServerOk(w, r.server) && IdsOk(w, r.ids, r.server) && AllWellAddressed(r.log)
    ensures var t := Exec(w, wait, p, r, [FillIds]);
      && ServerOk(w, t.server) && IdsOk(w, t.ids, t.server) && AllWellAddressed(t.log) && t.log == r.log
      && (t.status == Running ==> AllKnown(w, p.envs, t.ids))
  {
    hide WorldOk, ServerOk, IdsOk;
    ExecSnoc(w, wait, p, r, [], FillIds);
    assert [] + [FillIds] == [FillIds];
    StepServerOk(w, wait, p, r, FillIds);
    StepIdsOk(w, wait, p, r, FillIds);
  }
}
