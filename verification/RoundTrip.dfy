/** The file `export` writes plans as nothing to change (apps/cli/cmd/export.go:308-683, 736-811,
    1024-1113; apps/cli/cmd/apply.go:451-531). */
module RoundTrip {
  import opened Options
  import opened Ordering
  import opened Values
  import opened FieldDiffs
  import opened Addons
  import opened ControlPlane
  import opened Clients
  import opened Plans
  import opened Addressing
  import opened Lookups
  import opened Progress
  import opened Tracking
  import opened QuietPlans
  import opened Resumption
  import opened Credentials
  import opened Exports
  import opened AllowList

  /** The published documents are the server's own, and no template has a knob without a name. */
  ghost predicate SourceOk(w: World, x: Source) {
    && x.catalog == w.catalog
    && (forall d :: d in x.schema ==> (d.singleton <==> w.singleton(d.kind)))
    && (forall i, j :: 0 <= i < j < |x.schema| ==> x.schema[i].kind != x.schema[j].kind)
    && (forall cloud, kind :: !x.policy.knob(cloud, kind, ""))
    && (forall k :: x.policy.sameFolded(k, k))
  }

  predicate AllJson(fields: Fields) {
    forall k :: k in fields ==> Encodable(fields[k])
  }

  /** Everything the server holds came to it as JSON. */
  ghost predicate StoredJson(s: Server) {
    && (forall env, row :: env in s.rows && row in s.rows[env] ==> AllJson(row.values))
    && (forall env, id :: env in s.addons && id in s.addons[env] ==> AllJson(s.addons[env][id].settings))
  }

  // ----- what is written compares equal -----

  lemma PlainIsEqual(v: Value)
    requires Encodable(v)
    ensures ValuesEqual(PlainValue(v), v) && Encodable(PlainValue(v)) && (v != Null ==> PlainValue(v) != Null)
  {
    EncodableIsNaNFree(v);
    PlainValuePreserves(v);
    ValuesEqualMeans(PlainValue(v), v);
    PlainIsEncodable(v);
  }

  lemma {:induction false} PlainIsEncodable(v: Value)
    requires Encodable(v)
    ensures Encodable(PlainValue(v))
    decreases v
  {
    match v
    case List(items) => forall i | 0 <= i < |items| ensures Encodable(PlainValue(items[i])) { PlainIsEncodable(items[i]); }
    case Map(m) => forall k | k in m ensures Encodable(PlainValue(m[k])) { PlainIsEncodable(m[k]); }
    case _ =>
  }

  /** JSON carries every value, the merged field is a mapping without an empty key, and the cloud identity is
      text or null. */
  predicate CanBeSent(fields: Fields) {
    && AllJson(fields)
    && (MERGED in fields ==> fields[MERGED].Map? && "" !in fields[MERGED].fields)
    && (CLOUD_IDENTITY in fields ==> IsIdentity(fields[CLOUD_IDENTITY]))
  }

  lemma KnobsAreEqual(x: Source, cloud: string, kind: string, v: Value)
    requires Encodable(v)
    ensures forall k :: k in ProviderConfig(x, cloud, kind, v) ==>
      ValuesEqual(ProviderConfig(x, cloud, kind, v)[k], Get(KeysOf(v), k)) && Encodable(ProviderConfig(x, cloud, kind, v)[k])
  {
    hide PlainValue, IsPlain, HoldsCredential, ValuesEqual;
    forall k | k in ProviderConfig(x, cloud, kind, v)
      ensures ValuesEqual(ProviderConfig(x, cloud, kind, v)[k], Get(KeysOf(v), k)) && Encodable(ProviderConfig(x, cloud, kind, v)[k])
    {
      PlainIsEqual(KeysOf(v)[k]);
    }
  }

  lemma MergedIsEqual(x: Source, def: KindDef, c: Component)
    requires MERGED in FieldsWritten(x, def, c) && Encodable(Get(c.config, MERGED))
    ensures var v := FieldsWritten(x, def, c)[MERGED];
      Encodable(v) && FieldChanges(MERGED, v, Get(c.config, MERGED)) == {}
  {
    hide PlainValue, IsPlain, HoldsCredential, ValuesEqual, ProviderConfig, ComponentCloud, Admitted, PlainAndClean;
    KnobsAreEqual(x, ComponentCloud(x, c), def.kind, Get(c.config, MERGED));
  }

  lemma OtherIsEqual(x: Source, def: KindDef, c: Component, f: string)
    requires f in FieldsWritten(x, def, c) && f != MERGED && Encodable(Get(c.config, f))
    ensures var v := FieldsWritten(x, def, c)[f];
      Encodable(v) && FieldChanges(f, v, Get(c.config, f)) == {}
  {
    hide PlainValue, Encodable, ValuesEqual, ProviderConfig, ComponentCloud, Admitted, PlainAndClean, StringKeyed;
    PlainIsEqual(Get(c.config, f));
  }

  lemma FieldIsEqual(x: Source, def: KindDef, row: Row, f: string)
    requires AllJson(row.values) && f in FieldsWritten(x, def, View(row))
    ensures var v := FieldsWritten(x, def, View(row))[f];
      Encodable(v) && FieldChanges(f, v, Get(row.values, f)) == {}
  {
    hide FieldChanges, ProviderConfig, ComponentCloud, PlainAndClean, SchemaProperty;
    assert Get(View(row).config, f) == Get(row.values, f);
    if f == MERGED {
      MergedIsEqual(x, def, View(row));
    } else {
      OtherIsEqual(x, def, View(row), f);
    }
  }

  lemma NoEmptyKnob(w: World, x: Source, def: KindDef, c: Component)
    requires SourceOk(w, x) && MERGED in FieldsWritten(x, def, c)
    ensures FieldsWritten(x, def, c)[MERGED].Map? && "" !in FieldsWritten(x, def, c)[MERGED].fields
  {
    hide HoldsCredential, IsPlain, PlainValue, ComponentCloud;
  }

  /** A component's exported values: an apply could send them, and none of them differs from the row. */
  lemma WrittenIsUnchanged(w: World, x: Source, def: KindDef, row: Row)
    requires SourceOk(w, x) && AllJson(row.values)
    ensures CanBeSent(FieldsWritten(x, def, View(row))) && Diff(FieldsWritten(x, def, View(row)), row.values) == []
  {
    hide FieldsWritten, FieldChanges, SourceOk;
    var fields := FieldsWritten(x, def, View(row));
    forall f | f in fields ensures Encodable(fields[f]) && FieldChanges(f, fields[f], Get(row.values, f)) == {} {
      FieldIsEqual(x, def, row, f);
    }
    DiffMeans(fields, row.values);
    assert ChangeSet(fields, row.values) == {};
    if MERGED in fields { NoEmptyKnob(w, x, def, View(row)); }
    if CLOUD_IDENTITY in fields { FieldIsAllowed(x, def, View(row), CLOUD_IDENTITY); }
  }

  // ----- the declarations of an exported environment -----

  /** A declaration that comes from a row. */
  ghost predicate FromRow(x: Source, defs: seq<KindDef>, rows: seq<Row>, d: Decl) {
    exists def, i: nat :: def in defs && i < |rows| && FromThisRow(x, def, rows[i], d)
  }

  predicate FromThisRow(x: Source, def: KindDef, row: Row, d: Decl) {
    && row.kind == def.kind && d.kind == def.kind && d.name == (if def.singleton then "" else row.name)
    && d.find == d.name && d.fields == FieldsWritten(x, def, View(row))
  }

  lemma KindFromRows(x: Source, def: KindDef, rows: seq<Row>)
    ensures forall d :: d in KindDecls(KindOf(x, def, Views(rows))) ==> d.kind == def.kind && FromRow(x, [def], rows, d)
  {
    hide FieldsWritten, DeclaredRows;
    DeclaredAreListed(def, Views(rows));
    var declared := DeclaredRows(def, Views(rows));
    var ds := KindDecls(KindOf(x, def, Views(rows)));
    forall d | d in ds ensures d.kind == def.kind && FromRow(x, [def], rows, d) {
      var i :| 0 <= i < |ds| && ds[i] == d;
      assert declared[i] in Views(rows);
      var j :| 0 <= j < |rows| && Views(rows)[j] == declared[i];
      assert def in [def] && FromThisRow(x, def, rows[j], d);
    }
  }

  lemma {:induction false} DeclsFromRows(x: Source, defs: seq<KindDef>, rows: seq<Row>)
    ensures forall d :: d in Decls(Kinds(x, defs, Views(rows))) ==> FromRow(x, defs, rows, d)
    ensures forall d :: d in Decls(Kinds(x, defs, Views(rows))) ==> exists e :: e in defs && e.kind == d.kind
  {
    hide FieldsWritten, KindOf, KindDecls, RowsOfKind, FromThisRow;
    if defs != [] {
      var front, last := defs[..|defs| - 1], defs[|defs| - 1];
      DeclsFromRows(x, front, rows);
      KindFromRows(x, last, rows);
      DeclsOfKinds(x, defs, Views(rows));
      forall d | d in Decls(Kinds(x, defs, Views(rows)))
        ensures FromRow(x, defs, rows, d) && exists e :: e in defs && e.kind == d.kind
      {
        if d in Decls(Kinds(x, front, Views(rows))) {
          var def, i: nat :| def in front && i < |rows| && FromThisRow(x, def, rows[i], d);
          assert def in defs;
        } else {
          var def, i: nat :| def in [last] && i < |rows| && FromThisRow(x, def, rows[i], d);
          assert def in defs;
        }
      }
    }
  }

  lemma DeclsOfKinds(x: Source, defs: seq<KindDef>, comps: seq<Component>)
    requires defs != []
    ensures var last := defs[|defs| - 1];
      Decls(Kinds(x, defs, comps)) ==
      Decls(Kinds(x, defs[..|defs| - 1], comps)) + if RowsOfKind(comps, last.kind) == [] then [] else KindDecls(KindOf(x, last, comps))
  {
    hide KindOf, KindDecls, RowsOfKind;
    var front, last := Kinds(x, defs[..|defs| - 1], comps), defs[|defs| - 1];
    if RowsOfKind(comps, last.kind) != [] {
      assert (front + [KindOf(x, last, comps)])[..|front|] == front;
    } else {
      assert front + [] == front;
    }
  }

  lemma RowsApart(w: World, rows: seq<Row>)
    requires RowsOk(w, rows)
    ensures NamesApart(Views(rows))
    ensures forall i, j :: 0 <= i < j < |rows| && Views(rows)[i].kind == Views(rows)[j].kind ==> !w.singleton(Views(rows)[i].kind)
  {
    forall i, j | 0 <= i < j < |rows| && Views(rows)[i].kind == Views(rows)[j].kind
      ensures Views(rows)[i].name != Views(rows)[j].name && !w.singleton(Views(rows)[i].kind)
    {
      assert !SameSlot(w, rows[i], rows[j]);
    }
  }

  /** One kind's declarations have names of their own. */
  lemma KindApart(w: World, x: Source, def: KindDef, rows: seq<Row>)
    requires RowsOk(w, rows) && (def.singleton <==> w.singleton(def.kind))
    ensures DistinctDecls(KindDecls(KindOf(x, def, Views(rows))))
  {
    hide FieldsWritten, RowsOk;
    RowsApart(w, rows);
    var all := RowsOfKind(Views(rows), def.kind);
    RowsOfKindMean(Views(rows), def.kind);
    NamesOrder(all);
    SortSorts(NameLess, all);
    var sorted := Sort(NameLess, all);
    forall i, j | 0 <= i < j < |sorted| ensures sorted[i].name != sorted[j].name {
      assert NameLess(sorted[i], sorted[j]);
      StringLessTotal(sorted[i].name, sorted[j].name);
    }
  }

  lemma {:induction false} DeclsApart(w: World, x: Source, defs: seq<KindDef>, rows: seq<Row>)
    requires RowsOk(w, rows) && forall d :: d in defs ==> (d.singleton <==> w.singleton(d.kind))
    requires forall i, j :: 0 <= i < j < |defs| ==> defs[i].kind != defs[j].kind
    ensures DistinctDecls(Decls(Kinds(x, defs, Views(rows))))
  {
    hide FieldsWritten, KindOf, KindDecls, RowsOfKind, FromThisRow, RowsOk, FromRow;
    if defs != [] {
      var front, last := defs[..|defs| - 1], defs[|defs| - 1];
      DeclsApart(w, x, front, rows);
      KindApart(w, x, last, rows);
      KindFromRows(x, last, rows);
      DeclsFromRows(x, front, rows);
      DeclsOfKinds(x, defs, Views(rows));
    }
  }

  /** The row a declaration came from is the row it is planned against. */
  lemma FoundAgain(w: World, s: Server, e: Env, def: KindDef, i: nat, d: Decl, x: Source)
    requires ServerOk(w, s) && e in s.envs && i < |RowsIn(s, e.id)|
    requires (def.singleton <==> w.singleton(def.kind)) && FromThisRow(x, def, RowsIn(s, e.id)[i], d)
    ensures ProperKey(w, d.kind, d.name)
    ensures SlotRow(w, s, Slot(e.name, d.kind, d.name)) == Some(RowsIn(s, e.id)[i])
  {
    hide FieldsWritten, HistoryOk;
    NamedUnique(w, s.envs, e, e.name);
    var rows := RowsIn(s, e.id);
    assert RowsOk(w, rows);
    var j := Find(rows, d.kind, d.name);
    assert j.Some?;
    OneRow(w, rows, i, j.value);
  }

  lemma OneRow(w: World, rows: seq<Row>, i: nat, j: nat)
    requires RowsOk(w, rows) && i < |rows| && j < |rows| && SameSlot(w, rows[i], rows[j])
    ensures i == j
  {
  }

  // ----- the add-ons of an exported environment -----

  lemma {:induction false} AddonsFromRows(x: Source, rows: seq<AddonRow>)
    ensures forall a :: a in AddonsWritten(x, rows) ==> exists r :: r in rows && a == AddonWritten(x, r)
    ensures (forall i, j :: 0 <= i < j < |rows| ==> rows[i].id != rows[j].id) ==> DistinctAddons(AddonsWritten(x, rows))
  {
    hide SettingsWritten, EntryOf, InCatalog;
    if rows != [] {
      var front, last := rows[..|rows| - 1], rows[|rows| - 1];
      AddonsFromRows(x, front);
      if forall i, j :: 0 <= i < j < |rows| ==> rows[i].id != rows[j].id {
        forall a | a in AddonsWritten(x, front) ensures a.id != last.id {
          var r :| r in front && a == AddonWritten(x, r);
          var i :| 0 <= i < |front| && front[i] == r;
          assert rows[i].id != rows[|rows| - 1].id;
        }
      }
    }
  }

  lemma SortedListing(w: World, x: Source, stored: map<string, StoredAddon>)
    ensures var rows := Sort(IdLess, Arrange(ListedRows(w, stored)));
      && (forall r :: r in rows ==> r.id in stored && r == RowView(r.id, stored[r.id], EntryOf(w.catalog, r.id)))
      && (forall i, j :: 0 <= i < j < |rows| ==> rows[i].id != rows[j].id)
  {
    hide EntryOf;
    ListedByIdOrder(w, stored);
    ArrangedMeans(IdLess, ListedRows(w, stored));
    var rows := Sort(IdLess, Arrange(ListedRows(w, stored)));
    forall r | r in rows ensures r in ListedRows(w, stored) { assert r in Elements(rows); }
    forall i, j | 0 <= i < j < |rows| ensures rows[i].id != rows[j].id { StringLessTotal(rows[i].id, rows[j].id); }
  }

  lemma SettingIsEqual(x: Source, entry: CatalogEntry, row: AddonRow, k: string)
    requires AllJson(row.settings) && k in SettingsWritten(x, entry, row)
    ensures var v := SettingsWritten(x, entry, row)[k];
      Encodable(v) && v != Null && ValuesEqual(v, Get(row.settings, k))
  {
    hide PlainValue, IsScalar, HoldsCredential, ValuesEqual, IsSecretSetting;
    PlainIsEqual(row.settings[k]);
  }

  lemma WrittenSettings(w: World, x: Source, row: AddonRow)
    requires SourceOk(w, x) && AllJson(row.settings)
    ensures var a, entry := AddonWritten(x, row), EntryOf(w.catalog, row.id);
      forall k :: k in a.settings ==>
        && Encodable(a.settings[k]) && k !in entry.secretKeys && k !in row.secretKeys
        && ValuesEqual(Target(a.settings[k], entry.defaults, k), Get(row.settings, k))
  {
    hide SettingsWritten, ValuesEqual, Encodable;
    var a, entry := AddonWritten(x, row), EntryOf(w.catalog, row.id);
    forall k | k in a.settings
      ensures Encodable(a.settings[k]) && k !in entry.secretKeys && k !in row.secretKeys
      ensures ValuesEqual(Target(a.settings[k], entry.defaults, k), Get(row.settings, k))
    {
      SettingIsEqual(x, entry, row, k);
      SettingIsAllowed(x, entry, row, k);
      assert x.policy.sameFolded(k, k);
    }
  }

  /** An exported add-on: its settings can be sent and would be kept, and it is settled already. */
  lemma WrittenAddonUnchanged(w: World, x: Source, id: string, stored: StoredAddon)
    requires SourceOk(w, x) && WorldOk(w) && AllJson(stored.settings) && AsRead(EntryOf(w.catalog, id), stored.settings)
    ensures var entry := EntryOf(w.catalog, id);
      var a := AddonWritten(x, RowView(id, stored, entry));
      a.id == id && AddonFits(w, a) && AllKept(entry, a.settings) && PlanFor(a, Some(stored), entry) == Planned(AddonPlan(id, Unchanged, [], None))
  {
    hide SettingsWritten, ValuesEqual, Encodable, AddonDiff, EntryOf;
    var entry := EntryOf(w.catalog, id);
    var row := RowView(id, stored, entry);
    var a := AddonWritten(x, row);
    WrittenSettings(w, x, row);
    SettledMeans(a, stored, entry);
    forall k | k in a.settings ensures SettingKept(entry, k, a.settings[k]) {
      WrittenIsKept(x, entry, row, k);
    }
  }

  lemma WrittenIsKept(x: Source, entry: CatalogEntry, row: AddonRow, k: string)
    requires AllJson(row.settings) && AsRead(entry, row.settings) && k in SettingsWritten(x, entry, row)
    ensures SettingKept(entry, k, SettingsWritten(x, entry, row)[k])
  {
    hide PlainValue, IsScalar, HoldsCredential, ValuesEqual, IsSecretSetting, Encodable;
    SettingIsEqual(x, entry, row, k);
    ValuesEqualMeans(SettingsWritten(x, entry, row)[k], row.settings[k]);
  }

  // ----- an exported environment -----

  const DEDICATED := "dedicated"
  const SHARED := "namespace"

  /** `Normalize`: the stored form of the name, and the placement that goes with the position. */
  function Normalized(w: World, m: Manifest): Manifest {
    m.(envs := seq(|m.envs|, i requires 0 <= i < |m.envs| => NormalizedEnv(w, m.envs[i], i == 0)))
  }

  function NormalizedEnv(w: World, d: EnvDecl, first: bool): EnvDecl {
    d.(name := if w.norm(d.name) != "" then w.norm(d.name) else d.name,
       placement := if d.placement != "" then d.placement else if first then DEDICATED else SHARED)
  }

  /** What is written of an environment nobody is writing to. */
  ghost function Written(w: World, x: Source, e: Env, s: Server): EnvDecl {
    EnvWritten(x, e, Views(RowsIn(s, e.id)), Arrange(ListedRows(w, AddonsIn(s, e.id))))
  }

  /** A declaration, found again and equal. */
  lemma DeclIsSettled(w: World, x: Source, e: Env, s: Server, d: Decl)
    requires SourceOk(w, x) && ServerOk(w, s) && StoredJson(s) && e in s.envs
    requires d in Decls(Written(w, x, e, s).components)
    ensures DeclFits(w, d) && PlanFromRow(d, SlotRow(w, s, Slot(e.name, d.kind, d.name))).action == Unchanged
  {
    hide ServerOk, FieldsWritten, Diff, Kinds, Decls;
    var rows := RowsIn(s, e.id);
    DeclsFromRows(x, x.schema, rows);
    var def, i: nat :| def in x.schema && i < |rows| && FromThisRow(x, def, rows[i], d);
    FoundAgain(w, s, e, def, i, d, x);
    RowsAreStored(w, s, Slot(e.name, d.kind, d.name));
    assert rows[i] in s.rows[e.id];
    WrittenIsUnchanged(w, x, def, rows[i]);
    ValuesSurviveTheWire(rows[i]);
  }

  lemma AddonFromRow(w: World, x: Source, e: Env, s: Server, a: AddonDecl) returns (id: string)
    requires a in Written(w, x, e, s).addons
    ensures id in AddonsIn(s, e.id) && a == AddonWritten(x, RowView(id, AddonsIn(s, e.id)[id], EntryOf(w.catalog, id)))
  {
    hide AddonWritten, EntryOf, AddonsWritten, Kinds, ListedRows;
    var rows := Sort(IdLess, Arrange(ListedRows(w, AddonsIn(s, e.id))));
    AddonsFromRows(x, rows);
    SortedListing(w, x, AddonsIn(s, e.id));
    var r :| r in rows && a == AddonWritten(x, r);
    id := r.id;
  }

  lemma AddonIsSettled(w: World, x: Source, e: Env, s: Server, a: AddonDecl)
    requires WorldOk(w) && SourceOk(w, x) && ServerOk(w, s) && StoredJson(s) && e in s.envs
    requires a in Written(w, x, e, s).addons
    ensures AddonFits(w, a) && AddonPlanned(w, s, e.name, a) == Planned(AddonPlan(a.id, Unchanged, [], None))
  {
    hide HistoryOk, RowsOk, NamesOk, WorldOk, SourceOk, AddonFits, PlanFor, AddonWritten, EntryOf, Written, RowView, AsRead;
    var id := AddonFromRow(w, x, e, s, a);
    assert AddonsOk(w, s.addons[e.id]);
    WrittenAddonUnchanged(w, x, id, AddonsIn(s, e.id)[id]);
    NamedUnique(w, s.envs, e, e.name);
  }

  lemma WrittenApart(w: World, x: Source, e: Env, s: Server)
    requires SourceOk(w, x) && ServerOk(w, s)
    ensures DistinctDecls(Decls(Written(w, x, e, s).components)) && DistinctAddons(Written(w, x, e, s).addons)
  {
    hide HistoryOk, EnvsOk, AddonWritten, Kinds, Decls;
    DeclsApart(w, x, x.schema, RowsIn(s, e.id));
    SortedListing(w, x, AddonsIn(s, e.id));
    AddonsFromRows(x, Sort(IdLess, Arrange(ListedRows(w, AddonsIn(s, e.id)))));
  }

  lemma WrittenIsValid(w: World, x: Source, e: Env, s: Server, first: bool)
    requires WorldOk(w) && SourceOk(w, x) && ServerOk(w, s) && StoredJson(s) && e in s.envs
    ensures var d := NormalizedEnv(w, Written(w, x, e, s), first);
      d.name == e.name && w.norm(d.name) == e.name && WellFormedEnv(w, d)
  {
    hide WorldOk, SourceOk, HistoryOk, RowsOk, NamesOk, AddonsOk, StoredJson, AddonFits, DeclFits, Decls, Kinds, AddonsWritten;
    var d := Written(w, x, e, s);
    var i :| 0 <= i < |s.envs| && s.envs[i] == e;
    WrittenApart(w, x, e, s);
    forall c | c in Decls(d.components) ensures DeclFits(w, c) { DeclIsSettled(w, x, e, s, c); }
    forall a | a in d.addons ensures AddonFits(w, a) { AddonIsSettled(w, x, e, s, a); }
  }

  lemma NoEnvProblems(w: World, x: Source, e: Env, s: Server, first: bool)
    ensures EnvProblems(NormalizedEnv(w, Written(w, x, e, s), first), e) == []
  {
    hide Kinds, AddonsWritten;
  }

  /** Planned against what it was exported from, an environment has nothing to do. */
  lemma WrittenIsSettled(w: World, x: Source, e: Env, s: Server, first: bool, ep: EnvPlan)
    requires WorldOk(w) && SourceOk(w, x) && ServerOk(w, s) && StoredJson(s) && e in s.envs
    requires EnvPlanned(w, s, NormalizedEnv(w, Written(w, x, e, s), first), ep)
    ensures SettledEnv(ep)
  {
    hide WorldOk, SourceOk, HistoryOk, RowsOk, NamesOk, AddonsOk, StoredJson, DeclFits, Decls, Kinds, AddonsWritten, PlanFromRow, AddonPlanned, EnvProblems;
    var d := NormalizedEnv(w, Written(w, x, e, s), first);
    WrittenIsValid(w, x, e, s, first);
    NoEnvProblems(w, x, e, s, first);
    NamedUnique(w, s.envs, e, d.name);
    NameOfEnv(w, s, e);
    forall j | 0 <= j < |ep.components| ensures ep.components[j].action == Unchanged {
      DeclIsSettled(w, x, e, s, Decls(d.components)[j]);
    }
    forall j | 0 <= j < |ep.addons| ensures ep.addons[j].action == Unchanged {
      AddonIsSettled(w, x, e, s, d.addons[j]);
    }
  }

  // ----- the whole file -----

  lemma EnvReadQuietly(w: World, x: Source, e: Env, s: Server)
    requires Quiet(w) && ServerOk(w, s) && e in s.envs
    ensures var r := EnvRead(w, x, e, s);
      SameState(s, r.server) && (Answered(w) ==> r.result.Some?) && (r.result.Some? ==> r.result.value == Written(w, x, e, s))
  {
    hide ServerOk, EnvWritten, Meanwhile, FoundId, Arrive, ReadOf;
    QuietArrive(w, s);
    QuietArrive(w, Arrive(w, s));
    StillOk(w, s, Arrive(w, s));
    ReadsQuietly(w, s, e);
    ReadsQuietly(w, Arrive(w, s), e);
  }

  lemma {:induction false} EnvsReadQuietly(w: World, x: Source, envs: seq<Env>, s: Server)
    requires Quiet(w) && ServerOk(w, s) && forall e :: e in envs ==> e in s.envs
    ensures var r := EnvsRead(w, x, envs, s);
      && SameState(s, r.server) && (Answered(w) ==> r.result.Some?)
      && (r.result.Some? ==>
            |r.result.value| == |envs| && forall i :: 0 <= i < |envs| ==> r.result.value[i] == Written(w, x, envs[i], s))
  {
    hide ServerOk, EnvRead, Quiet, Answered;
    if envs != [] {
      var e := envs[|envs| - 1];
      assert e in envs;
      EnvsReadQuietly(w, x, envs[..|envs| - 1], s);
      var t := EnvsRead(w, x, envs[..|envs| - 1], s).server;
      StillOk(w, s, t);
      EnvReadQuietly(w, x, e, t);
    }
  }

  lemma {:induction false} FirstNamedMeans(w: World, envs: seq<Env>, want: string)
    ensures FirstNamed(w, envs, want).Some? ==> FirstNamed(w, envs, want).value in envs
  {
    if envs != [] { FirstNamedMeans(w, envs[1..], want); }
  }

  lemma ChosenAreListed(w: World, envs: seq<Env>, all: bool, env: string, answer: Option<string>)
    requires Choose(w, envs, all, env, answer).Some? && Distinct(envs)
    ensures var chosen := Choose(w, envs, all, env, answer).value; Distinct(chosen) && chosen != [] && forall e :: e in chosen ==> e in envs
  {
    FirstNamedMeans(w, envs, if env != "" || answer == None then env else answer.value);
  }

  lemma {:induction false} UnmanagedMeans(w: World, m: Manifest, known: seq<Env>)
    ensures Elements(UnmanagedNames(w, m, known)) == set e | e in known && !IsDeclared(w, m, e.name) :: e.name
  {
    hide IsDeclared;
    if known != [] {
      var front, last := known[..|known| - 1], known[|known| - 1];
      UnmanagedMeans(w, m, front);
      var rest := if IsDeclared(w, m, last.name) then [] else [last.name];
      assert Elements(UnmanagedNames(w, m, known)) == Elements(UnmanagedNames(w, m, front)) + Elements(rest);
      assert known == front + [last];
      assert (set e | e in known && !IsDeclared(w, m, e.name) :: e.name)
        == (set e | e in front && !IsDeclared(w, m, e.name) :: e.name) + Elements(rest);
    }
  }

  lemma OrderedMeans(w: World, envs: seq<Env>)
    requires EnvsOk(w, envs)
    ensures Distinct(Ordered(envs)) && forall e :: e in Ordered(envs) <==> e in envs
  {
    SameMultiset(envs, Ordered(envs));
    forall e ensures e in Ordered(envs) <==> e in envs { assert e in Elements(Ordered(envs)) <==> e in Elements(envs); }
  }

  /** The environments an export is of. */
  function Chosen(w: World, s: Server, all: bool, env: string, answer: Option<string>): Option<seq<Env>> {
    Choose(w, Ordered(s.envs), all, env, answer)
  }

  lemma ExportedQuietly(w: World, x: Source, project: string, all: bool, env: string, answer: Option<string>, s: Server)
    requires Quiet(w) && ServerOk(w, s)
    requires ExportOf(w, x, project, all, env, answer, s).result.Some?
    ensures var r, chosen := ExportOf(w, x, project, all, env, answer, s), Chosen(w, s, all, env, answer);
      && SameState(s, r.server) && chosen.Some? && chosen.value != [] && Distinct(chosen.value)
      && (forall e :: e in chosen.value ==> e in s.envs)
      && |r.result.value.envs| == |chosen.value|
      && (forall i :: 0 <= i < |chosen.value| ==> r.result.value.envs[i] == Written(w, x, chosen.value[i], s))
  {
    hide HistoryOk, RowsOk, NamesOk, AddonsOk, EnvWritten, Meanwhile, FoundId, Arrive, Ordered, Choose, EnvRead, EnvsRead;
    QuietArrive(w, s);
    OrderedMeans(w, s.envs);
    ChosenAreListed(w, Ordered(s.envs), all, env, answer);
    StillOk(w, s, Arrive(w, s));
    EnvsReadQuietly(w, x, Chosen(w, s, all, env, answer).value, Arrive(w, s));
  }

  lemma ExportIsValid(w: World, x: Source, m: Manifest, chosen: seq<Env>, s: Server)
    requires WorldOk(w) && SourceOk(w, x) && ServerOk(w, s) && StoredJson(s)
    requires |m.envs| == |chosen| && Distinct(chosen) && forall e :: e in chosen ==> e in s.envs
    requires forall i :: 0 <= i < |chosen| ==> m.envs[i] == Written(w, x, chosen[i], s)
    ensures WellFormed(w, Normalized(w, m))
    ensures forall i :: 0 <= i < |chosen| ==> w.norm(Normalized(w, m).envs[i].name) == chosen[i].name
  {
    hide WorldOk, SourceOk, HistoryOk, RowsOk, NamesOk, AddonsOk, StoredJson, WellFormedEnv, Written, NormalizedEnv;
    var n := Normalized(w, m);
    forall i | 0 <= i < |chosen| ensures WellFormedEnv(w, n.envs[i]) && w.norm(n.envs[i].name) == chosen[i].name {
      WrittenIsValid(w, x, chosen[i], s, i == 0);
    }
    forall i, j | 0 <= i < j < |chosen| ensures chosen[i].name != chosen[j].name {
      assert chosen[i] in s.envs && chosen[j] in s.envs;
      var a :| 0 <= a < |s.envs| && s.envs[a] == chosen[i];
      var b :| 0 <= b < |s.envs| && s.envs[b] == chosen[j];
    }
  }

  lemma DeclaredAreChosen(w: World, m: Manifest, chosen: seq<Env>, s: Server)
    requires EnvsOk(w, s.envs) && |m.envs| == |chosen| && forall e :: e in chosen ==> e in s.envs
    requires forall i :: 0 <= i < |chosen| ==> w.norm(m.envs[i].name) == chosen[i].name
    ensures forall e :: e in s.envs ==> (IsDeclared(w, m, e.name) <==> e in chosen)
  {
    forall e | e in s.envs ensures IsDeclared(w, m, e.name) <==> e in chosen {
      var a :| 0 <= a < |s.envs| && s.envs[a] == e;
      if IsDeclared(w, m, e.name) {
        var d :| d in m.envs && w.norm(d.name) == w.norm(e.name);
        var i :| 0 <= i < |m.envs| && m.envs[i] == d;
        assert chosen[i] in s.envs;
        var b :| 0 <= b < |s.envs| && s.envs[b] == chosen[i];
      }
      if e in chosen {
        var i :| 0 <= i < |chosen| && chosen[i] == e;
        assert m.envs[i] in m.envs;
      }
    }
  }

  lemma ExportIsSettled(w: World, x: Source, m: Manifest, chosen: seq<Env>, s: Server, p: Plan)
    requires WorldOk(w) && SourceOk(w, x) && ServerOk(w, s) && StoredJson(s)
    requires |m.envs| == |chosen| && chosen != [] && forall e :: e in chosen ==> e in s.envs
    requires forall i :: 0 <= i < |chosen| ==> m.envs[i] == Written(w, x, chosen[i], s)
    requires PlanIsOf(w, Normalized(w, m), s, p)
    ensures Settled(p)
  {
    hide WorldOk, SourceOk, HistoryOk, RowsOk, EnvsOk, StoredJson, EnvPlanned, Written, NormalizedEnv, SettledEnv;
    assert chosen[0] in chosen;
    forall ep | ep in p.envs ensures SettledEnv(ep) {
      var i :| 0 <= i < |p.envs| && p.envs[i] == ep;
      assert chosen[i] in s.envs;
      WrittenIsSettled(w, x, chosen[i], s, i == 0, ep);
    }
  }

  /** The round trip. Of a project nobody is writing to, whatever its environments hold, the exported file
      is one that validates; planning it, when its reads are answered, finds every environment, component
      and add-on unchanged and no problem; and the environments it leaves out, and no others, are listed as
      unmanaged. */
  lemma ExportRoundTrips(w: World, x: Source, project: string, all: bool, env: string, answer: Option<string>, s: Server)
    requires Quiet(w) && WorldOk(w) && SourceOk(w, x) && ServerOk(w, s) && StoredJson(s)
    requires ExportOf(w, x, project, all, env, answer, s).result.Some?
    ensures var exported := ExportOf(w, x, project, all, env, answer, s);
      var m := Normalized(w, exported.result.value);
      var plan := PlanOf(w, m, exported.server).result;
      && WellFormed(w, m) && (Answered(w) ==> plan.Some?)
      && (plan.Some? ==>
            && Settled(plan.value)
            && Elements(plan.value.unmanaged) ==
               set e | e in s.envs && e !in Chosen(w, s, all, env, answer).value :: e.name)
  {
    hide WorldOk, SourceOk, ServerOk, StoredJson, ExportOf, PlanOf, Normalized, Chosen, PlanIsOf, WellFormed, Settled, Written, Answered, Quiet;
    var exported, chosen := ExportOf(w, x, project, all, env, answer, s), Chosen(w, s, all, env, answer);
    ExportedQuietly(w, x, project, all, env, answer, s);
    var m := Normalized(w, exported.result.value);
    ExportIsValid(w, x, exported.result.value, chosen.value, s);
    StillOk(w, s, exported.server);
    PlanOfQuiet(w, m, exported.server);
    var plan := PlanOf(w, m, exported.server).result;
    if plan.Some? {
      PlanStays(w, m, exported.server, s, plan.value);
      ExportIsSettled(w, x, exported.result.value, chosen.value, s, plan.value);
      NamesAreUnique(w, s);
      NormalizedLength(w, exported.result.value);
      DeclaredAreChosen(w, m, chosen.value, s);
      UnmanagedAre(w, m, s, exported.server);
    }
  }

  lemma NormalizedLength(w: World, m: Manifest)
    ensures |Normalized(w, m).envs| == |m.envs|
  {
  }

  lemma NamesAreUnique(w: World, s: Server)
    requires ServerOk(w, s)
    ensures EnvsOk(w, s.envs)
  {
  }

  lemma PlanStays(w: World, m: Manifest, s: Server, t: Server, p: Plan)
    requires SameState(t, s) && PlanIsOf(w, m, s, p)
    ensures PlanIsOf(w, m, t, p)
  {
    hide EnvPlanned;
    forall i | 0 <= i < |m.envs| ensures EnvPlanned(w, t, m.envs[i], p.envs[i]) { StillPlanned(w, s, t, m.envs[i], p.envs[i]); }
  }

  lemma UnmanagedAre(w: World, m: Manifest, s: Server, t: Server)
    requires Quiet(w) && ServerOk(w, s) && SameState(s, t) && PlanOf(w, m, t).result.Some?
    ensures Elements(PlanOf(w, m, t).result.value.unmanaged) == set e | e in s.envs && !IsDeclared(w, m, e.name) :: e.name
  {
    hide ServerOk, Arrive, PlanEnvs, IsDeclared, ListingRead, UnmanagedNames;
    StillOk(w, s, t);
    ListedQuietly(w, t);
    UnmanagedMeans(w, m, s.envs);
    var names := UnmanagedNames(w, m, s.envs);
    SameMultiset(names, Sort(StringLess, names));
  }

  // ----- the file is the same whatever order the server lists in -----

  /** Two servers that hold the same, listed differently. */
  ghost predicate SameButOrder(s: Server, t: Server) {
    && t.served == s.served && multiset(t.envs) == multiset(s.envs)
    && t.addons == s.addons && forall env :: multiset(RowsIn(t, env)) == multiset(RowsIn(s, env))
  }

  lemma SameViews(a: seq<Row>, b: seq<Row>)
    requires multiset(a) == multiset(b)
    ensures forall c :: c in Views(a) <==> c in Views(b)
  {
    SameMultiset(a, b);
    forall r ensures r in a <==> r in b { assert r in Elements(a) <==> r in Elements(b); }
    forall c | c in Views(a) ensures c in Views(b) { ViewOf(a, b, c); }
    forall c | c in Views(b) ensures c in Views(a) { ViewOf(b, a, c); }
  }

  lemma ViewOf(a: seq<Row>, b: seq<Row>, c: Component)
    requires (forall r :: r in a <==> r in b) && c in Views(a)
    ensures c in Views(b)
  {
    var i :| 0 <= i < |a| && Views(a)[i] == c;
    assert a[i] in b;
    var j :| 0 <= j < |b| && b[j] == a[i];
    assert Views(b)[j] == c;
  }

  lemma WrittenAlike(w: World, x: Source, e: Env, s: Server, t: Server)
    requires ServerOk(w, s) && ServerOk(w, t) && SameButOrder(s, t)
    ensures Written(w, x, e, s) == Written(w, x, e, t)
  {
    hide HistoryOk, EnvsOk, Kinds, AddonsWritten, NamesApart;
    SameViews(RowsIn(s, e.id), RowsIn(t, e.id));
    RowsApart(w, RowsIn(s, e.id));
    RowsApart(w, RowsIn(t, e.id));
    SameRowsSameKinds(x, x.schema, Views(RowsIn(s, e.id)), Views(RowsIn(t, e.id)));
  }

  /** The exported manifest does not depend on the order of any of the server's lists. */
  lemma ExportIgnoresOrder(w: World, x: Source, project: string, all: bool, env: string, answer: Option<string>, s: Server, t: Server)
    requires Quiet(w) && ServerOk(w, s) && ServerOk(w, t) && SameButOrder(s, t)
    ensures ExportOf(w, x, project, all, env, answer, s).result == ExportOf(w, x, project, all, env, answer, t).result
  {
    hide ServerOk, Ordered, Choose, Written, EnvsRead, SameButOrder, Arrive;
    EnvsAlike(w, s, t);
    QuietArrive(w, s);
    QuietArrive(w, t);
    var a, b := ExportOf(w, x, project, all, env, answer, s), ExportOf(w, x, project, all, env, answer, t);
    ExportsFailAlike(w, x, project, all, env, answer, s, t);
    if a.result.Some? {
      ExportedQuietly(w, x, project, all, env, answer, s);
      ExportedQuietly(w, x, project, all, env, answer, t);
      var chosen := Chosen(w, s, all, env, answer).value;
      forall i | 0 <= i < |chosen| ensures a.result.value.envs[i] == b.result.value.envs[i] {
        WrittenAlike(w, x, chosen[i], s, t);
      }
      assert a.result.value.envs == b.result.value.envs;
    }
  }

  lemma ExportsFailAlike(w: World, x: Source, project: string, all: bool, env: string, answer: Option<string>, s: Server, t: Server)
    requires Quiet(w) && ServerOk(w, s) && ServerOk(w, t) && Ordered(s.envs) == Ordered(t.envs) && s.served == t.served
    ensures var a, b := ExportOf(w, x, project, all, env, answer, s).result, ExportOf(w, x, project, all, env, answer, t).result;
      (a.Some? <==> b.Some?) && (a.Some? ==> a.value.project == b.value.project)
  {
    hide ServerOk, Ordered, Choose, EnvsRead, Arrive;
    QuietArrive(w, s);
    QuietArrive(w, t);
    var chosen := Choose(w, Ordered(s.envs), all, env, answer);
    if chosen.Some? {
      StillOk(w, s, Arrive(w, s));
      StillOk(w, t, Arrive(w, t));
      ChosenStay(w, s, all, env, answer);
      ChosenStay(w, t, all, env, answer);
      ReadsFailAlike(w, x, chosen.value, Arrive(w, s), Arrive(w, t));
    }
  }

  lemma ChosenStay(w: World, s: Server, all: bool, env: string, answer: Option<string>)
    requires ServerOk(w, s) && Choose(w, Ordered(s.envs), all, env, answer).Some?
    ensures forall e :: e in Choose(w, Ordered(s.envs), all, env, answer).value ==> e in s.envs
  {
    hide Ordered, Choose, ServerOk;
    NamesAreUnique(w, s);
    OrderedMeans(w, s.envs);
    ChosenAreListed(w, Ordered(s.envs), all, env, answer);
  }

  /** Whether reads fail depends on when they are made, not on what is read. */
  lemma {:induction false} ReadsFailAlike(w: World, x: Source, envs: seq<Env>, s: Server, t: Server)
    requires Quiet(w) && ServerOk(w, s) && ServerOk(w, t) && s.served == t.served
    requires forall e :: e in envs ==> e in s.envs && e in t.envs
    ensures var a, b := EnvsRead(w, x, envs, s), EnvsRead(w, x, envs, t);
      (a.result.Some? <==> b.result.Some?) && a.server.served == b.server.served
  {
    hide ServerOk, EnvWritten, Meanwhile, FoundId, Arrive, ReadOf, ComponentsRead, Quiet;
    if envs != [] {
      var front, e := envs[..|envs| - 1], envs[|envs| - 1];
      assert e in envs;
      ReadsFailAlike(w, x, front, s, t);
      EnvsReadQuietly(w, x, front, s);
      EnvsReadQuietly(w, x, front, t);
      var s1, t1 := EnvsRead(w, x, front, s).server, EnvsRead(w, x, front, t).server;
      StillOk(w, s, s1);
      StillOk(w, t, t1);
      ReadsWhen(w, s1, e);
      ReadsWhen(w, t1, e);
    }
  }

  lemma ReadsWhen(w: World, s: Server, e: Env)
    requires Quiet(w) && ServerOk(w, s) && e in s.envs
    ensures ReadOf(w, s, e.id) <==> w.fate(s.served) == Delivered
    ensures ReadOf(w, Meanwhile(w, s), e.id) <==> w.fate(s.served + 1) == Delivered
    ensures Meanwhile(w, s).served == s.served + 1 && Meanwhile(w, Meanwhile(w, s)).served == s.served + 2
  {
    hide ServerOk, ReadOf, Arrive, Meanwhile;
    QuietArrive(w, s);
    QuietArrive(w, Arrive(w, s));
    StillOk(w, s, Arrive(w, s));
    ReadsQuietly(w, s, e);
    ReadsQuietly(w, Arrive(w, s), e);
  }

  lemma EnvsAlike(w: World, s: Server, t: Server)
    requires ServerOk(w, s) && SameButOrder(s, t)
    ensures Ordered(s.envs) == Ordered(t.envs) && s.served == t.served
  {
    EnvironmentsIgnoreOrder(s.envs, t.envs);
  }
}
