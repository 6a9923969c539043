/** `alethia export` (apps/cli/cmd/export.go:308-1113): a project as the manifest that `plan` reads back
    as nothing to change. What is written is an allow-list. */
module Exports {
  import opened Options
  import opened Ordering
  import opened Values
  import opened FieldDiffs
  import opened Addons
  import opened ControlPlane
  import opened Clients
  import opened Plans
  import opened Credentials

  /** One kind of the published component schema. */
  datatype KindDef = KindDef(kind: string, singleton: bool, fields: seq<string>, schema: Fields)

  datatype Identity = Identity(id: string, provider: string)

  /** What an export is checked against: the published documents, the organization's cloud accounts, and
      the project's cloud. */
  datatype Source = Source(
    policy: Policy, schema: seq<KindDef>, catalog: seq<CatalogEntry>, modes: seq<string>,
    identities: seq<Identity>, cloud: string)

  // ----- one component -----

  function IdentityProvider(ids: seq<Identity>, id: string): string {
    if ids == [] then "" else if ids[0].id == id then ids[0].provider else IdentityProvider(ids[1..], id)
  }

  /** The cloud a component's knobs are checked against: its own account's, or the project's. */
  function ComponentCloud(x: Source, c: Component): string {
    if c.cloudIdentity == None || c.cloudIdentity.value == "" then x.cloud
    else IdentityProvider(x.identities, c.cloudIdentity.value)
  }

  /** `schemaProperty`. */
  function SchemaProperty(def: KindDef, field: string): Option<Fields> {
    var props := StringKeyed(Get(def.schema, "properties"));
    if props == None then None else StringKeyed(Get(props.value, field))
  }

  /** `propertyIsSecret`. */
  predicate PropertyIsSecret(prop: Fields) {
    Get(prop, "writeOnly") == Bool(true) || Get(prop, "format") == Str("password")
  }

  /** The published schema admits the field, and it is not named like a credential. */
  predicate Admitted(x: Source, def: KindDef, field: string) {
    && field != CLOUD_IDENTITY
    && SchemaProperty(def, field).Some? && !PropertyIsSecret(SchemaProperty(def, field).value)
    && !x.policy.credentialName(field)
  }

  predicate PlainAndClean(p: Policy, v: Value) {
    IsPlain(v) && !HoldsCredential(p, v)
  }

  /** A settable knob of the kind on the component's cloud, not named like a credential. */
  predicate KnobAdmitted(x: Source, cloud: string, kind: string, key: string) {
    && cloud != "" && x.policy.knob(cloud, kind, key)
    && !x.policy.credentialName(key) && !(kind == "secrets" && x.policy.valueKey(key))
  }

  predicate KnobWritten(x: Source, cloud: string, kind: string, key: string, v: Value) {
    v != Null && KnobAdmitted(x, cloud, kind, key) && PlainAndClean(x.policy, v)
  }

  /** `exportProviderConfig`; what is not a mapping has no knob. */
  function ProviderConfig(x: Source, cloud: string, kind: string, v: Value): Fields {
    map k | k in KeysOf(v) && KnobWritten(x, cloud, kind, k, KeysOf(v)[k]) :: PlainValue(KeysOf(v)[k])
  }

  /** The value written for a field, if any. */
  function FieldWritten(x: Source, def: KindDef, c: Component, f: string): Option<Value> {
    var v := Get(c.config, f);
    if v == Null || !Admitted(x, def, f) then None
    else if f == MERGED then
      var pc := ProviderConfig(x, ComponentCloud(x, c), def.kind, v);
      if pc == map[] then None else Some(Map(pc))
    else if PlainAndClean(x.policy, v) then Some(PlainValue(v))
    else None
  }

  function FieldsWritten(x: Source, def: KindDef, c: Component): Fields {
    map f | f in def.fields && FieldWritten(x, def, c, f).Some? :: FieldWritten(x, def, c, f).value
  }

  method ExportProviderConfig(x: Source, cloud: string, kind: string, v: Value) returns (out: Fields)
    ensures out == ProviderConfig(x, cloud, kind, v)
  {
    hide HoldsCredential, IsPlain, PlainValue;
    out := map[];
    var m := StringKeyed(v);
    if m == None {
      return;
    }
    var rest := m.value.Keys;
    while rest != {}
      invariant rest <= m.value.Keys
      invariant out == map k | k in ProviderConfig(x, cloud, kind, v) && k !in rest :: ProviderConfig(x, cloud, kind, v)[k]
    {
      var k :| k in rest;
      rest := rest - {k};
      var val := m.value[k];
      if val == Null {
        continue;
      }
      if cloud == "" || !x.policy.knob(cloud, kind, k) {
      } else if x.policy.credentialName(k) || (kind == "secrets" && x.policy.valueKey(k)) {
      } else if !IsPlain(val) {
      } else if HoldsCredential(x.policy, val) {
      } else {
        out := out[k := PlainValue(val)];
      }
    }
  }

  /** One turn of `exportFields`. */
  method ExportField(x: Source, def: KindDef, c: Component, f: string) returns (out: Option<Value>)
    ensures out == FieldWritten(x, def, c, f)
  {
    hide HoldsCredential, IsPlain, PlainValue, ProviderConfig, ComponentCloud;
    if f == CLOUD_IDENTITY {
      return None;
    }
    var v := Get(c.config, f);
    if v == Null {
      return None;
    }
    var prop := SchemaProperty(def, f);
    if prop == None || PropertyIsSecret(prop.value) || x.policy.credentialName(f) {
      return None;
    }
    if f == MERGED {
      var pc := ExportProviderConfig(x, ComponentCloud(x, c), def.kind, v);
      return if pc != map[] then Some(Map(pc)) else None;
    }
    if !IsPlain(v) || HoldsCredential(x.policy, v) {
      return None;
    }
    return Some(PlainValue(v));
  }

  /** `exportFields`. */
  method ExportFields(x: Source, def: KindDef, c: Component) returns (out: Fields)
    ensures out == FieldsWritten(x, def, c)
  {
    hide FieldWritten;
    out := map[];
    for i := 0 to |def.fields|
      invariant out == map f | f in def.fields[..i] && FieldWritten(x, def, c, f).Some? :: FieldWritten(x, def, c, f).value
    {
      assert def.fields[..i + 1] == def.fields[..i] + [def.fields[i]];
      var v := ExportField(x, def, c, def.fields[i]);
      if v.Some? {
        out := out[def.fields[i] := v.value];
      }
    }
    assert def.fields[..|def.fields|] == def.fields;
  }

  // ----- an environment's components -----

  /** Being, or already, torn down. */
  predicate Gone(status: string) {
    status == "DESTROYING" || status == "DESTROYED"
  }

  predicate NameLess(a: Component, b: Component) {
    StringLess(a.name, b.name)
  }

  /** The rows of a kind that are still there, as listed. */
  function RowsOfKind(comps: seq<Component>, kind: string): seq<Component> {
    if comps == [] then []
    else
      var last := comps[|comps| - 1];
      RowsOfKind(comps[..|comps| - 1], kind) + if last.kind == kind && !Gone(last.status) then [last] else []
  }

  /** The rows of a kind the file declares: by name, the first one only of a one-per-environment kind. */
  function DeclaredRows(def: KindDef, comps: seq<Component>): seq<Component> {
    var rows := Sort(NameLess, RowsOfKind(comps, def.kind));
    if def.singleton && |rows| > 1 then rows[..1] else rows
  }

  function EntryOfRow(x: Source, def: KindDef, c: Component): ComponentDecl {
    ComponentDecl(if def.singleton then "" else c.name, FieldsWritten(x, def, c))
  }

  function KindOf(x: Source, def: KindDef, comps: seq<Component>): KindDecl {
    var rows := DeclaredRows(def, comps);
    KindDecl(def.kind, !def.singleton, seq(|rows|, i requires 0 <= i < |rows| => EntryOfRow(x, def, rows[i])))
  }

  /** The kinds that have rows, in schema order. */
  function Kinds(x: Source, defs: seq<KindDef>, comps: seq<Component>): seq<KindDecl> {
    if defs == [] then []
    else
      var last := defs[|defs| - 1];
      Kinds(x, defs[..|defs| - 1], comps) + if RowsOfKind(comps, last.kind) == [] then [] else [KindOf(x, last, comps)]
  }

  predicate InSchema(schema: seq<KindDef>, kind: string) {
    exists d :: d in schema && d.kind == kind
  }

  /** The rows that can be declared, by kind and as listed. */
  method GroupByKind(x: Source, comps: seq<Component>) returns (byKind: map<string, seq<Component>>)
    ensures forall k :: k in byKind ==> byKind[k] == RowsOfKind(comps, k)
    ensures forall k :: k !in byKind && InSchema(x.schema, k) ==> RowsOfKind(comps, k) == []
  {
    hide InSchema;
    byKind := map[];
    for i := 0 to |comps|
      invariant forall k :: k in byKind ==> InSchema(x.schema, k) && byKind[k] == RowsOfKind(comps[..i], k)
      invariant forall k :: k !in byKind && InSchema(x.schema, k) ==> RowsOfKind(comps[..i], k) == []
    {
      var c := comps[i];
      assert comps[..i + 1][..i] == comps[..i];
      if Gone(c.status) {
        continue;
      }
      if !InSchema(x.schema, c.kind) {
        continue;
      }
      byKind := byKind[c.kind := (if c.kind in byKind then byKind[c.kind] else []) + [c]];
    }
    assert comps[..|comps|] == comps;
  }

  /** `r.components`: the rows grouped by kind, then written kind by kind. */
  method ExportComponents(x: Source, comps: seq<Component>) returns (out: seq<KindDecl>)
    ensures out == Kinds(x, x.schema, comps)
  {
    hide FieldsWritten, Sort, RowsOfKind, EntryOfRow;
    var byKind := GroupByKind(x, comps);
    out := [];
    for i := 0 to |x.schema|
      invariant out == Kinds(x, x.schema[..i], comps)
    {
      var def := x.schema[i];
      assert x.schema[..i + 1][..i] == x.schema[..i];
      assert InSchema(x.schema, def.kind);
      var rows := if def.kind in byKind then byKind[def.kind] else [];
      if rows == [] {
        continue;
      }
      rows := Sort(NameLess, rows);
      if def.singleton && |rows| > 1 {
        rows := rows[..1];
      }
      var entries := ExportEntries(x, def, rows);
      out := out + [KindDecl(def.kind, !def.singleton, entries)];
    }
    assert x.schema[..|x.schema|] == x.schema;
  }

  method ExportEntries(x: Source, def: KindDef, rows: seq<Component>) returns (entries: seq<ComponentDecl>)
    ensures entries == seq(|rows|, i requires 0 <= i < |rows| => EntryOfRow(x, def, rows[i]))
  {
    entries := [];
    for i := 0 to |rows|
      invariant |entries| == i && forall j :: 0 <= j < i ==> entries[j] == EntryOfRow(x, def, rows[j])
    {
      var fields := ExportFields(x, def, rows[i]);
      entries := entries + [ComponentDecl(if def.singleton then "" else rows[i].name, fields)];
    }
  }

  // ----- an environment's add-ons -----

  predicate InCatalog(catalog: seq<CatalogEntry>, id: string) {
    exists i :: 0 <= i < |catalog| && catalog[i].id == id
  }

  /** `isSecretSetting`. */
  predicate IsSecretSetting(p: Policy, key: string, secret: seq<string>) {
    exists s :: s in secret && p.sameFolded(s, key)
  }

  predicate SettingWritten(x: Source, entry: CatalogEntry, row: AddonRow, k: string, v: Value) {
    && v != Null && !IsSecretSetting(x.policy, k, entry.secretKeys + row.secretKeys)
    && entry.settings.Some? && k in entry.settings.value
    && IsScalar(v) && !x.policy.credentialName(k) && !HoldsCredential(x.policy, v)
  }

  function SettingsWritten(x: Source, entry: CatalogEntry, row: AddonRow): Fields {
    map k | k in row.settings && SettingWritten(x, entry, row, k, row.settings[k]) :: PlainValue(row.settings[k])
  }

  /** An enabled add-on of the catalog: its pin, its mode and the settings the catalog declares. */
  function AddonWritten(x: Source, row: AddonRow): AddonDecl {
    AddonDecl(
      row.id, if row.pinned && row.version.Some? && row.version.value != "" then row.version else None,
      if row.mode in x.modes then row.mode else "", SettingsWritten(x, EntryOf(x.catalog, row.id), row),
      None, false, None, Blank)
  }

  predicate IdLess(a: AddonRow, b: AddonRow) {
    StringLess(a.id, b.id)
  }

  function AddonsWritten(x: Source, rows: seq<AddonRow>): seq<AddonDecl> {
    if rows == [] then []
    else
      var last := rows[|rows| - 1];
      AddonsWritten(x, rows[..|rows| - 1]) + if last.enabled && InCatalog(x.catalog, last.id) then [AddonWritten(x, last)] else []
  }

  method ExportSettings(x: Source, entry: CatalogEntry, row: AddonRow) returns (out: Fields)
    ensures out == SettingsWritten(x, entry, row)
  {
    hide HoldsCredential, IsScalar, PlainValue;
    out := map[];
    var rest := row.settings.Keys;
    var secret := entry.secretKeys + row.secretKeys;
    while rest != {}
      invariant rest <= row.settings.Keys
      invariant out == map k | k in SettingsWritten(x, entry, row) && k !in rest :: SettingsWritten(x, entry, row)[k]
    {
      var k :| k in rest;
      rest := rest - {k};
      var v := row.settings[k];
      if v == Null || IsSecretSetting(x.policy, k, secret) {
      } else if entry.settings == None {
      } else if k !in entry.settings.value {
      } else if !IsScalar(v) {
      } else if x.policy.credentialName(k) || HoldsCredential(x.policy, v) {
      } else {
        out := out[k := PlainValue(v)];
      }
    }
  }

  method ExportAddons(x: Source, listed: seq<AddonRow>) returns (out: seq<AddonDecl>)
    ensures out == AddonsWritten(x, Sort(IdLess, listed))
  {
    var rows := Sort(IdLess, listed);
    out := [];
    for i := 0 to |rows|
      invariant out == AddonsWritten(x, rows[..i])
    {
      var row := rows[i];
      assert rows[..i + 1][..i] == rows[..i];
      if !row.enabled {
        continue;
      }
      if !InCatalog(x.catalog, row.id) {
        continue;
      }
      var settings := ExportSettings(x, EntryOf(x.catalog, row.id), row);
      out := out + [AddonDecl(row.id, if row.pinned && row.version.Some? && row.version.value != "" then row.version else None,
                              if row.mode in x.modes then row.mode else "", settings, None, false, None, Blank)];
    }
    assert rows[..|rows|] == rows;
  }

  // ----- environments -----

  predicate EnvLess(a: Env, b: Env) {
    if a.isDefault != b.isDefault then a.isDefault else StringLess(a.name, b.name)
  }

  function EnvWritten(x: Source, e: Env, comps: seq<Component>, rows: seq<AddonRow>): EnvDecl {
    EnvDecl(e.name, e.stage, e.placement, if e.lifecycle == DEFAULT_LIFECYCLE then "" else e.lifecycle,
            Kinds(x, x.schema, comps), AddonsWritten(x, Sort(IdLess, rows)))
  }

  function FirstNamed(w: World, envs: seq<Env>, want: string): Option<Env> {
    if envs == [] then None
    else if envs[0].id == want || w.norm(envs[0].name) == w.norm(want) then Some(envs[0])
    else FirstNamed(w, envs[1..], want)
  }

  /** The picker's "every environment". */
  const EVERY := "*"

  /** `chooseEnvironments`: --all, --env, the only environment, or the picker's answer. */
  function Choose(w: World, envs: seq<Env>, all: bool, env: string, answer: Option<string>): Option<seq<Env>> {
    if envs == [] then None
    else if all || (env == "" && |envs| == 1) then Some(envs)
    else if env == "" && answer == None then None
    else if env == "" && answer.value == EVERY then Some(envs)
    else
      var e := FirstNamed(w, envs, if env != "" then env else answer.value);
      if e == None then None else Some([e.value])
  }

  /** The components an environment's own read gives. */
  ghost function ComponentsRead(w: World, e: Env, s: Server): seq<Component> {
    Views(RowsIn(Meanwhile(w, s), FoundId(w, s, e.id)))
  }

  /** One environment, read component by component and then add-on by add-on; a read that is not answered,
      or finds it gone, ends the export. */
  ghost function EnvRead(w: World, x: Source, e: Env, s: Server): Reading<Option<EnvDecl>> {
    var s1 := Meanwhile(w, s);
    var s2 := Meanwhile(w, s1);
    if !ReadOf(w, s, e.id) then Reading(None, s1)
    else if !ReadOf(w, s1, e.id) then Reading(None, s2)
    else Reading(Some(EnvWritten(x, e, ComponentsRead(w, e, s), Arrange(ListedRows(w, AddonsIn(s2, FoundId(w, s1, e.id)))))), s2)
  }

  ghost function EnvsRead(w: World, x: Source, envs: seq<Env>, s: Server): Reading<Option<seq<EnvDecl>>> {
    if envs == [] then Reading(Some([]), s)
    else
      var front := EnvsRead(w, x, envs[..|envs| - 1], s);
      if front.result == None then front
      else
        var last := EnvRead(w, x, envs[|envs| - 1], front.server);
        Reading(if last.result == None then None else Some(front.result.value + [last.result.value]), last.server)
  }

  /** The environments in export order. */
  function Ordered(envs: seq<Env>): seq<Env> {
    Sort(EnvLess, envs)
  }

  /** The listing is one request; it fails as a whole. */
  ghost function ExportOf(w: World, x: Source, project: string, all: bool, env: string, answer: Option<string>, s: Server): Reading<Option<Manifest>> {
    var s1 := Arrive(w, s);
    var chosen := if w.fate(s.served) == Delivered then Choose(w, Ordered(s1.envs), all, env, answer) else None;
    if chosen == None then Reading(None, s1)
    else
      var envs := EnvsRead(w, x, chosen.value, s1);
      Reading(if envs.result == None then None else Some(Manifest(project, envs.result.value)), envs.server)
  }

  lemma ListedByIdOrder(w: World, stored: map<string, StoredAddon>)
    ensures TotalOn(IdLess, ListedRows(w, stored))
  {
    hide EntryOf;
    forall a, b | a in ListedRows(w, stored) && b in ListedRows(w, stored)
      ensures !IdLess(a, a) && (a != b ==> IdLess(a, b) || IdLess(b, a))
    {
      StringLessTotal(a.id, b.id);
    }
    forall a, b, c | IdLess(a, b) && IdLess(b, c) ensures IdLess(a, c) { StringLessTransitive(a.id, b.id, c.id); }
  }

  /** `r.environment`. */
  method ExportEnvironment(c: Client, x: Source, e: Env) returns (ok: bool, d: EnvDecl)
    modifies c
    ensures Reading(if ok then Some(d) else None, c.server) == EnvRead(c.world, x, e, old(c.server))
  {
    hide Arrive, Meanwhile, FoundId, Kinds, AddonsWritten, Sort, RowOf, Listed, ReadOf;
    d := EnvDecl("", "", "", "", [], []);
    var comps: seq<Component>, rows: seq<AddonRow>;
    ok, comps := c.ListComponents(e.id);
    if !ok {
      return;
    }
    var components := ExportComponents(x, comps);
    ghost var before := c.server;
    ok, rows := c.GetProjectAddons(e.id);
    if !ok {
      return;
    }
    ghost var stored := AddonsIn(c.server, FoundId(c.world, before, e.id));
    ghost var listed := ListedRows(c.world, stored);
    ListedByIdOrder(c.world, stored);
    ArrangementIsDetermined(IdLess, listed, rows);
    var addons := ExportAddons(x, rows);
    d := EnvDecl(e.name, e.stage, e.placement, if e.lifecycle == DEFAULT_LIFECYCLE then "" else e.lifecycle, components, addons);
  }

  /** Once an environment cannot be read, the rest is not. */
  lemma {:induction false} EnvsReadStop(w: World, x: Source, envs: seq<Env>, s: Server, i: nat)
    requires i <= |envs| && EnvsRead(w, x, envs[..i], s).result == None
    ensures EnvsRead(w, x, envs, s) == EnvsRead(w, x, envs[..i], s)
  {
    hide EnvRead;
    if i < |envs| {
      assert envs[..|envs| - 1][..i] == envs[..i];
      EnvsReadStop(w, x, envs[..|envs| - 1], s, i);
    } else {
      assert envs[..i] == envs;
    }
  }

  /** `buildExport`. */
  method BuildExport(c: Client, x: Source, project: string, all: bool, env: string, answer: Option<string>)
    returns (m: Option<Manifest>)
    modifies c
    ensures Reading(m, c.server) == ExportOf(c.world, x, project, all, env, answer, old(c.server))
  {
    hide Arrive, EnvRead, Choose, Ordered;
    var ok, listed := c.ListEnvironments();
    if !ok {
      return None;
    }
    var chosen := Choose(c.world, Ordered(listed), all, env, answer);
    if chosen == None {
      return None;
    }
    ghost var start := c.server;
    var envs, decls := chosen.value, [];
    for i := 0 to |envs|
      invariant Reading(Some(decls), c.server) == EnvsRead(c.world, x, envs[..i], start)
    {
      assert envs[..i + 1][..i] == envs[..i];
      var d;
      ok, d := ExportEnvironment(c, x, envs[i]);
      if !ok {
        EnvsReadStop(c.world, x, envs, start, i + 1);
        return None;
      }
      decls := decls + [d];
    }
    assert envs[..|envs|] == envs;
    m := Some(Manifest(project, decls));
  }
}
