/** What a server holds for a name: an environment by its normalised name, a component or an add-on in
    it. What each step of a run does to one of them, when nobody else writes. */
module Lookups {
  import opened Options
  import opened Values
  import opened FieldDiffs
  import opened Addons
  import opened ControlPlane
  import opened ServerInvariants
  import opened Plans

  /** Only the count of requests has moved. */
  predicate SameState(s: Server, t: Server) {
    t == s.(served := t.served)
  }

  lemma QuietArrive(w: World, s: Server)
    requires Quiet(w)
    ensures Arrive(w, s) == s.(served := s.served + 1) && Meanwhile(w, s) == Arrive(w, s)
  {
  }

  /** A kind's rows are looked up by name, a one-per-environment kind's row without one. */
  predicate ProperKey(w: World, kind: string, name: string) {
    w.singleton(kind) <==> name == ""
  }

  function RowFor(w: World, s: Server, env: string, kind: string, name: string): Option<Row> {
    var e := Named(w, s.envs, env);
    if e == None then None else RowIn(s, e.value.id, kind, name)
  }

  function ValuesOf(r: Option<Row>): Option<Fields> {
    if r == None then None else Some(r.value.values)
  }

  function AddonFor(w: World, s: Server, env: string, id: string): Option<StoredAddon> {
    var e := Named(w, s.envs, env);
    if e == None then None else AddonIn(s, e.value.id, id)
  }

  // ----- environments -----

  lemma {:induction false} NamedUnique(w: World, envs: seq<Env>, e: Env, name: string)
    requires EnvsOk(w, envs) && e in envs && w.norm(e.name) == w.norm(name)
    ensures Named(w, envs, name) == Some(e)
  {
    var found := Named(w, envs, name);
    assert found.Some?;
    var i :| 0 <= i < |envs| && envs[i] == e;
    var j :| 0 <= j < |envs| && envs[j] == found.value;
  }

  /** An environment stays what it is. */
  lemma NamedStays(w: World, s: Server, t: Server, name: string)
    requires ServerOk(w, t) && EnvsGrow(s, t) && Named(w, s.envs, name).Some?
    ensures Named(w, t.envs, name) == Named(w, s.envs, name)
  {
    var e := Named(w, s.envs, name).value;
    assert e in t.envs[..|s.envs|];
    NamedUnique(w, t.envs, e, name);
  }

  // ----- a write to one row leaves the others -----

  lemma SetRowFrame(w: World, s: Server, env: string, i: nat, values: Fields, env': string, kind: string, name: string)
    requires i < |RowsIn(s, env)|
    requires env' == env ==> Find(RowsIn(s, env), kind, name) != Some(i)
    ensures RowIn(SetRow(w, s, env, i, values), env', kind, name) == RowIn(s, env', kind, name)
  {
    if env' == env {
      var before, after := RowsIn(s, env), RowsIn(SetRow(w, s, env, i, values), env);
      assert |after| == |before| && forall j :: 0 <= j < |after| ==> after[j].kind == before[j].kind && after[j].name == before[j].name;
      SameFind(before, after, kind, name);
    }
  }

  lemma SameFind(a: seq<Row>, b: seq<Row>, kind: string, name: string)
    requires |a| == |b| && forall j :: 0 <= j < |a| ==> a[j].kind == b[j].kind && a[j].name == b[j].name
    ensures Find(a, kind, name) == Find(b, kind, name)
  {
  }

  lemma AddRowFrame(w: World, s: Server, env: string, kind: string, name: string, values: Fields, env': string, kind': string, name': string)
    requires env' == env ==> !(kind' == kind && (name' == "" || name' == name))
    ensures RowIn(AddRow(w, s, env, kind, name, values), env', kind', name') == RowIn(s, env', kind', name')
  {
    if env' == env {
      FindAppend(RowsIn(s, env), Row(kind, name, "DRAFT", values, Revision(w, s, kind)), kind', name');
    }
  }

  lemma FindAppend(rows: seq<Row>, row: Row, kind: string, name: string)
    ensures Find(rows, kind, name).Some? ==> Find(rows + [row], kind, name) == Find(rows, kind, name)
    ensures Find(rows, kind, name) == None ==>
      Find(rows + [row], kind, name) ==
      if row.kind == kind && (name == "" || row.name == name) then Some(|rows|) else None
  {
    var i := Find(rows + [row], kind, name);
    if i.Some? && i.value < |rows| { assert (rows + [row])[i.value] == rows[i.value]; }
    if Find(rows, kind, name).Some? { assert (rows + [row])[Find(rows, kind, name).value] == rows[Find(rows, kind, name).value]; }
    assert (rows + [row])[|rows|] == row;
  }

  /** Two lookups of one environment that are not the same lookup find different rows. */
  lemma DifferentKeysDifferentRows(w: World, rows: seq<Row>, kind: string, name: string, kind': string, name': string)
    requires RowsOk(w, rows) && ProperKey(w, kind, name) && ProperKey(w, kind', name')
    requires kind != kind' || name != name'
    requires Find(rows, kind, name).Some?
    ensures Find(rows, kind', name') != Find(rows, kind, name)
  {
  }

  lemma ServeUpdateFrame(w: World, s: Server, env: string, kind: string, name: string, body: Fields, ifMatch: Option<nat>,
                         env': string, kind': string, name': string)
    requires ServerOk(w, s) && ProperKey(w, kind, name) && ProperKey(w, kind', name')
    requires env' != env || kind' != kind || name' != name
    ensures var t := ServeUpdate(w, s, env, kind, name, body, ifMatch).server;
      RowIn(t, env', kind', name') == RowIn(s, env', kind', name')
  {
    hide Patched, Accepts, HistoryOk, EnvsOk, NamesOk, AddonsOk;
    if ServeUpdate(w, s, env, kind, name, body, ifMatch).ok {
      var i := Find(RowsIn(s, env), kind, name).value;
      assert RowsOk(w, RowsIn(s, env));
      if env' == env { DifferentKeysDifferentRows(w, RowsIn(s, env), kind, name, kind', name'); }
      SetRowFrame(w, s, env, i, Patched(w.rules(kind), RowsIn(s, env)[i].values, body), env', kind', name');
    }
  }

  lemma ServeAddFrame(w: World, s: Server, env: string, kind: string, name: string, fields: Fields,
                      env': string, kind': string, name': string)
    requires ServerOk(w, s) && ProperKey(w, kind, name) && ProperKey(w, kind', name')
    requires env' != env || kind' != kind || name' != name
    ensures var t := ServeAdd(w, s, env, kind, name, fields).server;
      RowIn(t, env', kind', name') == RowIn(s, env', kind', name')
  {
    hide Patched, Inserted, Accepts, HistoryOk, EnvsOk, NamesOk, AddonsOk;
    if ServeAdd(w, s, env, kind, name, fields).ok {
      var i := Find(RowsIn(s, env), kind, name);
      if i == None {
        AddRowFrame(w, s, env, kind, if w.singleton(kind) then kind else name, Inserted(w.rules(kind), fields), env', kind', name');
      } else {
        assert RowsOk(w, RowsIn(s, env));
        if env' == env { DifferentKeysDifferentRows(w, RowsIn(s, env), kind, name, kind', name'); }
        SetRowFrame(w, s, env, i.value, Patched(w.rules(kind), RowsIn(s, env)[i.value].values, fields), env', kind', name');
      }
    }
  }

  // ----- what a planned component's request does to its own row -----

  /** The plan of a component from the row it was compared with. */
  ghost function PlanFromRow(d: Decl, row: Option<Row>): ComponentPlan {
    match row
    case None => ComponentPlan(d.kind, d.name, Create, d.fields, [], None, map[])
    case Some(r) =>
      var read := ComponentValues(View(r));
      var changes := Diff(d.fields, read);
      ComponentPlan(d.kind, d.name, if changes == [] then Unchanged else Update, d.fields, changes, r.revision, read)
  }

  /** Looked up by the name it is planned under, as its kind is. */
  predicate DeclFits(w: World, d: Decl) {
    d.find == d.name && ProperKey(w, d.kind, d.name)
  }

  /** ... and one that one request settles, given the component that is there. */
  predicate DeclGood(w: World, d: Decl, current: Option<Fields>) {
    DeclFits(w, d) && DeclOk(w.rules(d.kind), d.fields, current)
  }

  /** Served, the request of a component planned from the row as it is takes the row to its goal. */
  lemma ServePlanned(w: World, s: Server, env: string, d: Decl)
    requires ServerOk(w, s) && DeclGood(w, d, ValuesOf(RowIn(s, env, d.kind, d.name)))
    requires var row := RowIn(s, env, d.kind, d.name); PlanFromRow(d, row).action != Unchanged
    ensures var row := RowIn(s, env, d.kind, d.name); var c := PlanFromRow(d, row);
      var r := if c.action == Create then ServeAdd(w, s, env, d.kind, d.name, c.fields)
               else if c.name == "" && c.revision == None then ServeAdd(w, s, env, d.kind, "", Body(c.changes))
               else ServeUpdate(w, s, env, d.kind, d.name, Body(c.changes), c.revision);
      r.ok && ValuesOf(RowIn(r.server, env, d.kind, d.name)) == Some(Goal(w.rules(d.kind), d.fields, ValuesOf(row)))
  {
    hide HistoryOk, EnvsOk, NamesOk, AddonsOk, Diff, Patched, Inserted, Accepts, UpdateOk, CreateOk, Body;
    var row := RowIn(s, env, d.kind, d.name);
    var c := PlanFromRow(d, row);
    if row == None {
      ServeCreates(w, s, env, d);
    } else {
      assert RowsOk(w, RowsIn(s, env));
      ValuesSurviveTheWire(row.value);
      UpdateOkSettles(w.rules(d.kind), d.fields, row.value.values);
      Settles(w.rules(d.kind), d.fields, row.value.values);
      var i := Find(RowsIn(s, env), d.kind, d.name).value;
      SetRowFinds(w, s, env, i, Patched(w.rules(d.kind), row.value.values, Body(c.changes)), d.kind, d.name);
    }
  }

  lemma ServeCreates(w: World, s: Server, env: string, d: Decl)
    requires DeclGood(w, d, None) && RowIn(s, env, d.kind, d.name) == None
    ensures Accepts(w.rules(d.kind), map[], d.fields)
    ensures var r := ServeAdd(w, s, env, d.kind, d.name, d.fields);
      r.ok && ValuesOf(RowIn(r.server, env, d.kind, d.name)) == Some(Inserted(w.rules(d.kind), d.fields))
  {
    hide Inserted, Accepts, CreateOk;
    DeclOkCreates(w.rules(d.kind), d.fields);
    var name := if w.singleton(d.kind) then d.kind else d.name;
    FindAppend(RowsIn(s, env), Row(d.kind, name, "DRAFT", Inserted(w.rules(d.kind), d.fields), Revision(w, s, d.kind)), d.kind, d.name);
  }

  lemma SetRowFinds(w: World, s: Server, env: string, i: nat, values: Fields, kind: string, name: string)
    requires Find(RowsIn(s, env), kind, name) == Some(i)
    ensures RowIn(SetRow(w, s, env, i, values), env, kind, name).Some?
    ensures RowIn(SetRow(w, s, env, i, values), env, kind, name).value.values == values
  {
    SameFind(RowsIn(s, env), RowsIn(SetRow(w, s, env, i, values), env), kind, name);
  }
}
