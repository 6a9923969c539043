/** Every step of the server, foreign writes included, keeps what always holds of it. */
module ServerInvariants {
  import opened Options
  import opened Values
  import opened FieldDiffs
  import opened Addons
  import opened ControlPlane

  /** The environments are the ones there were, and perhaps new ones. */
  predicate EnvsGrow(s: Server, t: Server) {
    |s.envs| <= |t.envs| && s.envs == t.envs[..|s.envs|]
  }

  /** Nothing the server once said is taken back: a revision keeps its meaning, and an id is never given to
      an environment of another name. */
  ghost predicate Keeps(s: Server, t: Server) {
    && s.clock <= t.clock
    && (forall r :: r in s.history ==> r in t.history && t.history[r] == s.history[r])
    && (forall id :: id in s.names ==> id in t.names && t.names[id] == s.names[id])
    && (s.project.Some? ==> t.project == s.project)
  }

  /** ... and when nobody else writes, no environment goes away. */
  ghost predicate Grows(w: World, s: Server, t: Server) {
    Keeps(s, t) && (Quiet(w) ==> EnvsGrow(s, t))
  }

  /** What one of this client's own requests does. */
  ghost predicate Extends(s: Server, t: Server) {
    Keeps(s, t) && EnvsGrow(s, t)
  }

  lemma EnvsGrowTransitive(s: Server, t: Server, u: Server)
    requires EnvsGrow(s, t) && EnvsGrow(t, u)
    ensures EnvsGrow(s, u)
  {
    assert u.envs[..|s.envs|] == u.envs[..|t.envs|][..|s.envs|];
  }

  lemma GrowsTransitive(w: World, s: Server, t: Server, u: Server)
    requires Grows(w, s, t) && Grows(w, t, u)
    ensures Grows(w, s, u)
  {
    if Quiet(w) { EnvsGrowTransitive(s, t, u); }
  }

  lemma Stays(s: Server)
    ensures Extends(s, s)
  {
    assert s.envs == s.envs[..|s.envs|];
  }

  lemma GrowsReflexive(w: World, s: Server)
    ensures Grows(w, s, s)
  {
    Stays(s);
  }

  lemma ExtendsTransitive(s: Server, t: Server, u: Server)
    requires Extends(s, t) && Extends(t, u)
    ensures Extends(s, u)
  {
    EnvsGrowTransitive(s, t, u);
  }

  lemma ReplaceOk(w: World, s: Server, env: string, rows: seq<Row>, copy: Copy)
    requires ServerOk(w, s) && HasEnv(s, env) && RowsOk(w, rows)
    requires RowsKnown(s.history[s.clock + 1 := copy], env, rows)
    ensures ServerOk(w, Replace(s, env, rows, copy)) && Extends(s, Replace(s, env, rows, copy))
  {
    hide RowsOk, EnvsOk;
    var t := Replace(s, env, rows, copy);
    Stays(s);
    forall e | e in t.rows ensures RowsKnown(t.history, e, t.rows[e]) {
      if e != env { StillKnown(s, e, copy); }
    }
    forall e | e in t.rows || e in t.addons ensures HasEnv(t, e) {
      assert HasEnv(s, e);
    }
  }

  lemma StillKnown(s: Server, env: string, copy: Copy)
    requires HistoryOk(s)
    ensures RowsKnown(s.history[s.clock + 1 := copy], env, RowsIn(s, env))
  {
    if env in s.rows {
      assert RowsKnown(s.history, env, s.rows[env]);
    }
  }

  lemma SetRowOk(w: World, s: Server, env: string, i: nat, values: Fields)
    requires ServerOk(w, s) && i < |RowsIn(s, env)| && StoredOk(values)
    ensures ServerOk(w, SetRow(w, s, env, i, values)) && Extends(s, SetRow(w, s, env, i, values))
  {
    var row := RowsIn(s, env)[i];
    var copy := Copy(env, row.kind, row.name, values);
    StillKnown(s, env, copy);
    RowsOkSet(w, RowsIn(s, env), i, row.(values := values, revision := Revision(w, s, row.kind)));
    ReplaceOk(w, s, env, RowsIn(s, env)[i := row.(values := values, revision := Revision(w, s, row.kind))], copy);
  }

  lemma RowsOkSet(w: World, rows: seq<Row>, i: nat, row: Row)
    requires RowsOk(w, rows) && i < |rows| && StoredOk(row.values)
    requires row.kind == rows[i].kind && row.name == rows[i].name
    ensures RowsOk(w, rows[i := row])
  {
  }

  lemma AddRowOk(w: World, s: Server, env: string, kind: string, name: string, values: Fields)
    requires ServerOk(w, s) && HasEnv(s, env) && StoredOk(values)
    requires w.singleton(kind) || name != ""
    requires Find(RowsIn(s, env), kind, LookupName(w, kind, name)) == None
    ensures ServerOk(w, AddRow(w, s, env, kind, name, values)) && Extends(s, AddRow(w, s, env, kind, name, values))
  {
    hide EnvsOk, NamesOk, AddonsOk;
    var copy := Copy(env, kind, name, values);
    StillKnown(s, env, copy);
    assert RowsOk(w, RowsIn(s, env));
    ReplaceOk(w, s, env, RowsIn(s, env) + [Row(kind, name, "DRAFT", values, Revision(w, s, kind))], copy);
  }

  lemma DropRowOk(w: World, s: Server, env: string, i: nat)
    requires ServerOk(w, s) && i < |RowsIn(s, env)|
    ensures var t := s.(rows := s.rows[env := RowsIn(s, env)[..i] + RowsIn(s, env)[i + 1..]]);
      ServerOk(w, t) && Extends(s, t)
  {
    hide EnvsOk, RowsOk, AddonsOk, RowsKnown, NamesOk;
    var rows := RowsIn(s, env)[..i] + RowsIn(s, env)[i + 1..];
    var t := s.(rows := s.rows[env := rows]);
    Stays(s);
    FewerRows(w, s.history, env, s.rows[env], i);
    forall e | e in t.rows || e in t.addons ensures HasEnv(t, e) {
      assert HasEnv(s, e);
    }
  }

  lemma FewerRows(w: World, history: map<nat, Copy>, env: string, rows: seq<Row>, i: nat)
    requires RowsOk(w, rows) && RowsKnown(history, env, rows) && i < |rows|
    ensures RowsOk(w, rows[..i] + rows[i + 1..]) && RowsKnown(history, env, rows[..i] + rows[i + 1..])
  {
    hide SameSlot, StoredOk, RowKnown;
  }

  lemma ForeignWriteOk(w: World, s: Server, f: Foreign)
    requires WorldOk(w) && ServerOk(w, s)
    ensures ServerOk(w, ForeignWrite(w, s, f)) && Keeps(s, ForeignWrite(w, s, f))
  {
    hide WorldOk, ServerOk, AsRead, EnvsGrow, ServeAddEnv;
    Stays(s);
    match f {
      case PutRow(env, kind, name, values) => PutRowOk(w, s, env, kind, name, values);
      case DropRow(env, kind, name) =>
        var i := Find(RowsIn(s, env), kind, LookupName(w, kind, name));
        if i.Some? { DropRowOk(w, s, env, i.value); }
      case PutAddon(env, id, stored) => PutAddonOk(w, s, env, id, stored);
      case DropAddon(env, id) =>
        if env in s.addons { DropAddonOk(w, s, env, id); }
      case NewEnvironment(spec) => ServeAddEnvOk(w, s, spec.name, spec.stage, spec.placement, spec.lifecycle);
      case DropEnvironment(env) => DropEnvOk(w, s, env);
    }
  }

  lemma {:induction false} WithoutOk(w: World, envs: seq<Env>, id: string)
    requires EnvsOk(w, envs)
    ensures EnvsOk(w, Without(envs, id))
  {
    if envs != [] {
      var front, last := envs[..|envs| - 1], envs[|envs| - 1];
      WithoutOk(w, front, id);
      forall e | e in Without(front, id) ensures e.id != last.id && e.name != last.name {
        var i :| 0 <= i < |front| && front[i] == e;
        assert envs[i].id != envs[|envs| - 1].id;
      }
    }
  }

  /** An environment goes with all it holds; its id keeps its name. */
  lemma DropEnvOk(w: World, s: Server, id: string)
    requires ServerOk(w, s)
    ensures var t := s.(envs := Without(s.envs, id), rows := s.rows - {id}, addons := s.addons - {id});
      ServerOk(w, t) && Keeps(s, t)
  {
    hide EnvsOk, RowsOk, AddonsOk, HistoryOk, NamesOk, Without;
    var t := s.(envs := Without(s.envs, id), rows := s.rows - {id}, addons := s.addons - {id});
    WithoutOk(w, s.envs, id);
    HistoryWithout(s, t, id);
    NamesWithout(s, t, id);
    forall env | env in t.rows || env in t.addons ensures HasEnv(t, env) {
      assert HasEnv(s, env);
      var e :| e in s.envs && e.id == env;
      assert e in t.envs;
    }
  }

  lemma HistoryWithout(s: Server, t: Server, id: string)
    requires HistoryOk(s) && t.history == s.history && t.clock == s.clock && t.rows == s.rows - {id}
    ensures HistoryOk(t)
  {
    hide RowsKnown;
  }

  lemma NamesWithout(s: Server, t: Server, id: string)
    requires NamesOk(s.envs, s.names) && t.names == s.names && t.envs == Without(s.envs, id)
    ensures NamesOk(t.envs, t.names)
  {
    hide Without;
  }

  lemma PutRowOk(w: World, s: Server, env: string, kind: string, name: string, values: Fields)
    requires ServerOk(w, s)
    ensures var t := ForeignWrite(w, s, PutRow(env, kind, name, values)); ServerOk(w, t) && Extends(s, t)
  {
    hide ServerOk, Extends;
    Stays(s);
    if FirstEnv(s.envs, (e: Env) => e.id == env).Some? && (w.singleton(kind) || name != "") && StoredOk(values) {
      var i := Find(RowsIn(s, env), kind, LookupName(w, kind, name));
      if i.Some? {
        SetRowOk(w, s, env, i.value, values);
      } else {
        AddRowOk(w, s, env, kind, if w.singleton(kind) then kind else name, values);
      }
    }
  }

  lemma PutAddonOk(w: World, s: Server, env: string, id: string, stored: StoredAddon)
    requires ServerOk(w, s)
    ensures var t := ForeignWrite(w, s, PutAddon(env, id, stored)); ServerOk(w, t) && Extends(s, t)
  {
    hide EnvsOk, RowsOk, HistoryOk, NamesOk, AsRead, Extends;
    Stays(s);
    if FirstEnv(s.envs, (e: Env) => e.id == env).Some? && AsRead(EntryOf(w.catalog, id), stored.settings) {
      SetAddonsOk(w, s, env, AddonsIn(s, env)[id := stored]);
    }
  }

  lemma DropAddonOk(w: World, s: Server, env: string, id: string)
    requires ServerOk(w, s) && env in s.addons
    ensures var t := ForeignWrite(w, s, DropAddon(env, id)); ServerOk(w, t) && Extends(s, t)
  {
    hide EnvsOk, RowsOk, HistoryOk, NamesOk, AsRead, Extends;
    SetAddonsOk(w, s, env, s.addons[env] - {id});
  }

  lemma SetAddonsOk(w: World, s: Server, env: string, addons: map<string, StoredAddon>)
    requires ServerOk(w, s) && HasEnv(s, env) && AddonsOk(w, addons)
    ensures var t := s.(addons := s.addons[env := addons]); ServerOk(w, t) && Extends(s, t)
  {
    hide EnvsOk, RowsOk, HistoryOk, AddonsOk;
    var t := s.(addons := s.addons[env := addons]);
    Stays(s);
    assert t.rows == s.rows && t.envs == s.envs;
    forall e | e in t.rows || e in t.addons ensures HasEnv(t, e) {
      assert HasEnv(s, e);
    }
    HistoryIsRows(s, t);
  }

  lemma HistoryIsRows(s: Server, t: Server)
    requires HistoryOk(s) && t.rows == s.rows && t.history == s.history && t.clock == s.clock
    ensures HistoryOk(t)
  {
  }

  lemma {:induction false} ForeignWritesOk(w: World, s: Server, fs: seq<Foreign>)
    requires WorldOk(w) && ServerOk(w, s)
    ensures ServerOk(w, ForeignWrites(w, s, fs)) && Keeps(s, ForeignWrites(w, s, fs))
    decreases |fs|
  {
    hide ServerOk, ForeignWrite, WorldOk;
    if fs != [] {
      ForeignWriteOk(w, s, fs[0]);
      ForeignWritesOk(w, ForeignWrite(w, s, fs[0]), fs[1..]);
    }
  }

  lemma ArriveOk(w: World, s: Server)
    requires WorldOk(w) && ServerOk(w, s)
    ensures ServerOk(w, Arrive(w, s)) && Grows(w, s, Arrive(w, s))
  {
    hide WorldOk, EnvsOk, NamesOk, RowsOk, HistoryOk, AddonsOk, ForeignWrite;
    ForeignWritesOk(w, s, w.foreign(s.served));
    Counted(w, ForeignWrites(w, s, w.foreign(s.served)), s.served + 1);
    Stays(s);
  }

  lemma MeanwhileOk(w: World, s: Server)
    requires WorldOk(w) && ServerOk(w, s)
    ensures ServerOk(w, Meanwhile(w, s)) && Grows(w, s, Meanwhile(w, s)) && Keeps(Arrive(w, s), Meanwhile(w, s))
  {
    hide WorldOk, ServerOk, ForeignWrite, Arrive, Keeps;
    ArriveOk(w, s);
    ForeignWritesOk(w, Arrive(w, s), w.between(s.served));
    KeepsTransitive(s, Arrive(w, s), Meanwhile(w, s));
  }

  lemma KeepsTransitive(s: Server, t: Server, u: Server)
    requires Keeps(s, t) && Keeps(t, u)
    ensures Keeps(s, u)
  {
  }

  lemma Counted(w: World, s: Server, n: nat)
    requires ServerOk(w, s)
    ensures ServerOk(w, s.(served := n)) && Extends(s, s.(served := n))
  {
    hide EnvsOk, RowsOk, AddonsOk;
    var t := s.(served := n);
    Stays(s);
    HistoryIsRows(s, t);
    forall env | env in t.rows || env in t.addons ensures HasEnv(t, env) { assert HasEnv(s, env); }
  }

  lemma PatchedOk(q: Rules, stored: Fields, body: Fields)
    requires StoredOk(stored) && Accepts(q, stored, body)
    ensures StoredOk(Patched(q, stored, body))
  {
    hide Accepts, Patched, Encodable;
    PatchedField(q, stored, body, CLOUD_IDENTITY);
    if CLOUD_IDENTITY in body { IdentityIsText(q, stored, body); }
  }

  lemma IdentityIsText(q: Rules, stored: Fields, body: Fields)
    requires StoredOk(stored) && Accepts(q, stored, body) && CLOUD_IDENTITY in body
    ensures CLOUD_IDENTITY in Patched(q, stored, body) ==> Patched(q, stored, body)[CLOUD_IDENTITY].Str?
  {
    hide Encodable;
    assert WholeAccepted(q, CLOUD_IDENTITY, body[CLOUD_IDENTITY]);
  }

  lemma CreatedOk(q: Rules, fields: Fields)
    requires Accepts(q, map[], fields)
    ensures StoredOk(Inserted(q, fields))
  {
    hide Accepts, Patched;
    PatchedOk(q, map[], fields);
  }

  lemma ServeUpdateOk(w: World, s: Server, env: string, kind: string, name: string, body: Fields, ifMatch: Option<nat>)
    requires ServerOk(w, s)
    ensures var t := ServeUpdate(w, s, env, kind, name, body, ifMatch).server; ServerOk(w, t) && Extends(s, t)
  {
    hide Accepts, Patched, EnvsOk, NamesOk, HistoryOk, AddonsOk;
    Stays(s);
    var r := ServeUpdate(w, s, env, kind, name, body, ifMatch);
    if r.ok {
      var i := Find(RowsIn(s, env), kind, name).value;
      var row := RowsIn(s, env)[i];
      assert RowsOk(w, s.rows[env]);
      PatchedOk(w.rules(kind), row.values, body);
      SetRowOk(w, s, env, i, Patched(w.rules(kind), row.values, body));
    }
  }

  lemma ServeAddOk(w: World, s: Server, env: string, kind: string, name: string, fields: Fields)
    requires ServerOk(w, s) && HasEnv(s, env)
    ensures var t := ServeAdd(w, s, env, kind, name, fields).server; ServerOk(w, t) && Extends(s, t)
  {
    hide Accepts, Patched, Inserted, EnvsOk, NamesOk, HistoryOk, AddonsOk;
    Stays(s);
    if ServeAdd(w, s, env, kind, name, fields).ok {
      var i := Find(RowsIn(s, env), kind, LookupName(w, kind, name));
      if i == None {
        CreatedOk(w.rules(kind), fields);
        AddRowOk(w, s, env, kind, if w.singleton(kind) then kind else name, Inserted(w.rules(kind), fields));
      } else {
        assert RowsOk(w, s.rows[env]);
        PatchedOk(w.rules(kind), RowsIn(s, env)[i.value].values, fields);
        SetRowOk(w, s, env, i.value, Patched(w.rules(kind), RowsIn(s, env)[i.value].values, fields));
      }
    }
  }

  lemma ServeEnableOk(w: World, s: Server, env: string, stored: Option<StoredAddon>, req: AddonRequest)
    requires WorldOk(w) && ServerOk(w, s) && HasEnv(s, env)
    ensures var t := ServeEnable(w, s, env, stored, req).server; ServerOk(w, t) && Extends(s, t)
  {
    hide WorldOk, EnvsOk, NamesOk, RowsOk, HistoryOk, AsRead, AcceptsAddon, Reconfigured, EntryOk;
    Stays(s);
    var served := ServeEnable(w, s, env, stored, req);
    if served.ok {
      EntryIsOk(w, req.id);
      EnabledIsAsRead(EntryOf(w.catalog, req.id), stored, req);
      SetAddonsOk(w, s, env, served.server.addons[env]);
    }
  }

  lemma EntryIsOk(w: World, id: string)
    requires WorldOk(w)
    ensures EntryOk(EntryOf(w.catalog, id))
  {
    hide EntryOk;
    EntriesOk(w.catalog, id);
  }

  lemma {:induction false} EntriesOk(catalog: seq<CatalogEntry>, id: string)
    requires forall i :: 0 <= i < |catalog| ==> EntryOk(catalog[i])
    ensures EntryOk(EntryOf(catalog, id))
  {
    hide EntryOk;
    NoEntryOk();
    if catalog != [] && catalog[0].id != id { EntriesOk(catalog[1..], id); }
  }

  lemma NewEnvApart(w: World, s: Server, name: string, stage: string, placement: string, lifecycle: string)
    requires WorldOk(w) && EnvsOk(w, s.envs) && NamesOk(s.envs, s.names)
    requires w.norm(name) != "" && forall e :: e in s.envs ==> e.name != w.norm(name)
    ensures EnvsOk(w, s.envs + [NewEnv(w, s, name, stage, placement, lifecycle)])
  {
    var e := NewEnv(w, s, name, stage, placement, lifecycle);
    assert e.id !in UsedIds(s) && e.id != "";
    assert w.norm(w.norm(name)) == w.norm(name);
    OneMoreEnv(w, s.envs, e);
  }

  lemma OneMoreEnv(w: World, envs: seq<Env>, e: Env)
    requires EnvsOk(w, envs) && e.id != "" && e.name != "" && w.norm(e.name) == e.name
    requires forall x :: x in envs ==> x.id != e.id && x.name != e.name
    ensures EnvsOk(w, envs + [e])
  {
  }

  lemma NewEnvNamed(w: World, s: Server, name: string, stage: string, placement: string, lifecycle: string)
    requires WorldOk(w) && NamesOk(s.envs, s.names)
    ensures var t := WithEnv(s, NewEnv(w, s, name, stage, placement, lifecycle)); NamesOk(t.envs, t.names) && Extends(s, t)
  {
    hide EnvsOk;
    var e := NewEnv(w, s, name, stage, placement, lifecycle);
    assert e.id !in UsedIds(s);
  }

  lemma NewEnvOk(w: World, s: Server, name: string, stage: string, placement: string, lifecycle: string)
    requires WorldOk(w) && ServerOk(w, s) && s.project.Some?
    requires w.norm(name) != "" && forall e :: e in s.envs ==> e.name != w.norm(name)
    ensures var t := WithEnv(s, NewEnv(w, s, name, stage, placement, lifecycle));
      ServerOk(w, t) && Extends(s, t)
  {
    hide RowsOk, EnvsOk, HistoryOk, AddonsOk, NamesOk, NewEnv, WorldOk, Extends;
    var t := WithEnv(s, NewEnv(w, s, name, stage, placement, lifecycle));
    NewEnvApart(w, s, name, stage, placement, lifecycle);
    NewEnvNamed(w, s, name, stage, placement, lifecycle);
    HistoryIsRows(s, t);
    forall env | env in t.rows || env in t.addons ensures HasEnv(t, env) {
      var x :| x in s.envs && x.id == env;
      assert x in t.envs;
    }
  }

  lemma ServeAddEnvOk(w: World, s: Server, name: string, stage: string, placement: string, lifecycle: string)
    requires WorldOk(w) && ServerOk(w, s)
    ensures var t := ServeAddEnv(w, s, name, stage, placement, lifecycle).server; ServerOk(w, t) && Extends(s, t)
  {
    hide WorldOk, ServerOk, WithEnv, NewEnv;
    Stays(s);
    if ServeAddEnv(w, s, name, stage, placement, lifecycle).ok {
      NewEnvOk(w, s, name, stage, placement, lifecycle);
    }
  }

  /** The environment a request asked for. */
  predicate CreatedFrom(w: World, e: Env, spec: EnvSpec) {
    && e.name == w.norm(spec.name) && e.stage == spec.stage && e.placement == spec.placement
    && e.lifecycle == if spec.lifecycle == "" then DEFAULT_LIFECYCLE else spec.lifecycle
  }

  /** The environments a matrix creates, in its order. */
  lemma {:induction false} AddEnvsOk(w: World, s: Server, specs: seq<EnvSpec>)
    requires WorldOk(w) && ServerOk(w, s) && s.project.Some? && s.envs == [] && SpecsOk(w, specs)
    ensures ServerOk(w, AddEnvs(w, s, specs)) && Extends(s, AddEnvs(w, s, specs))
    ensures AddEnvs(w, s, specs).project == s.project
    ensures |AddEnvs(w, s, specs).envs| == |specs|
    ensures forall i :: 0 <= i < |specs| ==> CreatedFrom(w, AddEnvs(w, s, specs).envs[i], specs[i])
  {
    hide ServerOk, Extends, NewEnv, WorldOk;
    Stays(s);
    if specs != [] {
      var front, e := specs[..|specs| - 1], specs[|specs| - 1];
      AddEnvsOk(w, s, front);
      var before := AddEnvs(w, s, front);
      forall x | x in before.envs ensures x.name != w.norm(e.name) {
        var i :| 0 <= i < |before.envs| && before.envs[i] == x;
        assert CreatedFrom(w, before.envs[i], front[i]);
        assert front[i] == specs[i];
      }
      NewEnvOk(w, before, e.name, e.stage, e.placement, e.lifecycle);
      NewEnvIsAsked(w, before, e);
      ExtendsTransitive(s, before, AddEnvs(w, s, specs));
    }
  }

  lemma NewEnvIsAsked(w: World, s: Server, spec: EnvSpec)
    ensures CreatedFrom(w, NewEnv(w, s, spec.name, spec.stage, spec.placement, spec.lifecycle), spec)
  {
  }

  lemma NothingWithoutEnvs(w: World, s: Server)
    requires ServerOk(w, s)
    ensures forall env :: env in s.rows || env in s.addons ==> s.envs != []
  {
    hide HistoryOk, EnvsOk, RowsOk, AddonsOk;
    forall env | env in s.rows || env in s.addons ensures s.envs != [] { assert HasEnv(s, env); }
  }

  /** A project still to be created. */
  lemma NamedOk(w: World, s: Server)
    requires WorldOk(w) && ServerOk(w, s) && s.project == None
    ensures ServerOk(w, s.(project := Some(w.newId({}))))
  {
    hide EnvsOk, RowsOk, AddonsOk;
    HistoryIsRows(s, s.(project := Some(w.newId({}))));
    NothingWithoutEnvs(w, s);
    assert s.rows == map[] && s.addons == map[];
  }

  lemma ServeCreateOk(w: World, s: Server, specs: seq<EnvSpec>)
    requires WorldOk(w) && ServerOk(w, s)
    ensures var t := ServeCreate(w, s, specs).server; ServerOk(w, t) && Extends(s, t)
  {
    hide WorldOk, ServerOk, Extends, SpecsOk, AddEnvs;
    Stays(s);
    if ServeCreate(w, s, specs).ok {
      var named := s.(project := Some(w.newId({})));
      NoProjectNoEnvs(w, s);
      NamedOk(w, s);
      AddEnvsOk(w, named, specs);
      AddEnvsIgnoresProject(w, s, named, specs);
      ExtendsUnnamed(s, named, AddEnvs(w, named, specs));
    }
  }

  lemma NoProjectNoEnvs(w: World, s: Server)
    requires ServerOk(w, s)
    ensures s.project == None ==> s.envs == []
  {
  }

  lemma ExtendsUnnamed(s: Server, named: Server, t: Server)
    requires s.project == None && named == s.(project := named.project) && Extends(named, t)
    ensures Extends(s, t)
  {
  }

  lemma {:induction false} AddEnvsIgnoresProject(w: World, s: Server, t: Server, specs: seq<EnvSpec>)
    requires t == s.(project := t.project)
    ensures AddEnvs(w, t, specs) == AddEnvs(w, s, specs).(project := t.project)
  {
    if specs != [] {
      AddEnvsIgnoresProject(w, s, t, specs[..|specs| - 1]);
    }
  }
}
