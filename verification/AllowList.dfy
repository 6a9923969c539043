/** What an export can and cannot carry (apps/cli/cmd/export.go:633-811, 1024-1113): only what the
    published documents admit, nothing that reads as a credential at any depth, and the same whatever
    order the server lists things in. */
module AllowList {
  import opened Ordering
  import opened Values
  import opened FieldDiffs
  import opened Addons
  import opened ControlPlane
  import opened Clients
  import opened Plans
  import opened Credentials
  import opened Exports

  // ----- every written value -----

  /** A value of the file: plain, and clean at every depth. */
  ghost predicate Harmless(p: Policy, v: Value) {
    IsPlain(v) && CleanEverywhere(p, v)
  }

  /** `cloud` is the component's own. */
  ghost predicate FieldAllowed(x: Source, def: KindDef, cloud: string, f: string, v: Value) {
    && f in def.fields && Admitted(x, def, f)
    && if f == MERGED then
         && v.Map?
         && forall k :: k in v.fields ==> KnobAdmitted(x, cloud, def.kind, k) && Harmless(x.policy, v.fields[k])
       else Harmless(x.policy, v)
  }

  ghost predicate EntryAllowed(x: Source, def: KindDef, cloud: string, fields: Fields) {
    forall f :: f in fields ==> FieldAllowed(x, def, cloud, f, fields[f])
  }

  /** No override, and only settings the catalog declares and nobody names secret. */
  ghost predicate AddonAllowed(x: Source, a: AddonDecl) {
    var entry := EntryOf(x.catalog, a.id);
    && InCatalog(x.catalog, a.id) && DeclaredOverride(a).NotDeclared?
    && (a.mode == "" || a.mode in x.modes) && (a.version.Some? ==> a.version.value != "")
    && forall k :: k in a.settings ==>
         && entry.settings.Some? && k in entry.settings.value
         && !IsSecretSetting(x.policy, k, entry.secretKeys) && !x.policy.credentialName(k)
         && IsScalar(a.settings[k]) && CleanEverywhere(x.policy, a.settings[k])
  }

  /** The entry is of one of the components, and admitted for that component's cloud. */
  ghost predicate EntryIsAllowed(x: Source, def: KindDef, comps: seq<Component>, e: ComponentDecl) {
    exists c :: c in comps && c.kind == def.kind && (def.singleton || c.name == e.name)
             && EntryAllowed(x, def, ComponentCloud(x, c), e.fields)
  }

  ghost predicate KindAllowed(x: Source, comps: seq<Component>, k: KindDecl) {
    exists def :: def in x.schema && def.kind == k.kind && forall e :: e in k.entries ==> EntryIsAllowed(x, def, comps, e)
  }

  /** `comps` are the components the environment was written from. */
  ghost predicate EnvAllowed(x: Source, comps: seq<Component>, d: EnvDecl) {
    (forall k :: k in d.components ==> KindAllowed(x, comps, k)) && (forall a :: a in d.addons ==> AddonAllowed(x, a))
  }

  lemma PlainIsHarmless(p: Policy, v: Value)
    requires PlainAndClean(p, v)
    ensures Harmless(p, PlainValue(v))
  {
    PlainValuePreserves(v);
    PlainValueHides(p, v);
    HoldsCredentialIff(p, PlainValue(v));
  }

  lemma FieldIsAllowed(x: Source, def: KindDef, c: Component, f: string)
    requires f in FieldsWritten(x, def, c)
    ensures FieldAllowed(x, def, ComponentCloud(x, c), f, FieldsWritten(x, def, c)[f])
  {
    hide HoldsCredential, CleanEverywhere, PlainValue, IsPlain;
    var v := Get(c.config, f);
    if f == MERGED {
      var cloud := ComponentCloud(x, c);
      forall k | k in ProviderConfig(x, cloud, def.kind, v)
        ensures KnobAdmitted(x, cloud, def.kind, k) && Harmless(x.policy, ProviderConfig(x, cloud, def.kind, v)[k])
      {
        PlainIsHarmless(x.policy, KeysOf(v)[k]);
      }
    } else {
      PlainIsHarmless(x.policy, v);
    }
  }

  lemma EntriesAreAllowed(x: Source, def: KindDef, c: Component)
    ensures EntryAllowed(x, def, ComponentCloud(x, c), EntryOfRow(x, def, c).fields)
  {
    hide FieldWritten, FieldAllowed;
    forall f | f in FieldsWritten(x, def, c) ensures FieldAllowed(x, def, ComponentCloud(x, c), f, FieldsWritten(x, def, c)[f]) {
      FieldIsAllowed(x, def, c, f);
    }
  }

  lemma DeclaredAreListed(def: KindDef, comps: seq<Component>)
    ensures forall c :: c in DeclaredRows(def, comps) ==> c in comps && c.kind == def.kind
  {
    RowsOfKindMean(comps, def.kind);
    var rows := RowsOfKind(comps, def.kind);
    SameMultiset(rows, Sort(NameLess, rows));
    forall c | c in DeclaredRows(def, comps) ensures c in Elements(rows) { assert c in Elements(Sort(NameLess, rows)); }
  }

  lemma {:induction false} KindsAreAllowed(x: Source, defs: seq<KindDef>, comps: seq<Component>)
    requires forall d :: d in defs ==> d in x.schema
    ensures forall k :: k in Kinds(x, defs, comps) ==> KindAllowed(x, comps, k)
  {
    hide EntryAllowed, FieldsWritten, DeclaredRows, ComponentCloud;
    if defs != [] {
      KindsAreAllowed(x, defs[..|defs| - 1], comps);
      var def := defs[|defs| - 1];
      var k := KindOf(x, def, comps);
      DeclaredAreListed(def, comps);
      forall e | e in k.entries ensures EntryIsAllowed(x, def, comps, e) {
        var i :| 0 <= i < |k.entries| && k.entries[i] == e;
        EntriesAreAllowed(x, def, DeclaredRows(def, comps)[i]);
        assert DeclaredRows(def, comps)[i] in comps;
      }
      assert def in x.schema && KindAllowed(x, comps, k);
    }
  }

  lemma WrittenAddonIsAllowed(x: Source, row: AddonRow)
    requires InCatalog(x.catalog, row.id)
    ensures AddonAllowed(x, AddonWritten(x, row))
  {
    hide HoldsCredential, CleanEverywhere, PlainValue, InCatalog, SettingsWritten;
    var a := AddonWritten(x, row);
    forall k | k in a.settings
      ensures var entry := EntryOf(x.catalog, row.id);
        && entry.settings.Some? && k in entry.settings.value
        && !IsSecretSetting(x.policy, k, entry.secretKeys) && !x.policy.credentialName(k)
        && IsScalar(a.settings[k]) && CleanEverywhere(x.policy, a.settings[k])
    {
      SettingIsAllowed(x, EntryOf(x.catalog, row.id), row, k);
    }
  }

  lemma SettingIsAllowed(x: Source, entry: CatalogEntry, row: AddonRow, k: string)
    requires k in SettingsWritten(x, entry, row)
    ensures
      && entry.settings.Some? && k in entry.settings.value
      && !IsSecretSetting(x.policy, k, entry.secretKeys) && !IsSecretSetting(x.policy, k, row.secretKeys)
      && !x.policy.credentialName(k)
      && IsScalar(SettingsWritten(x, entry, row)[k]) && CleanEverywhere(x.policy, SettingsWritten(x, entry, row)[k])
  {
    hide HoldsCredential, CleanEverywhere, PlainValue;
    var v := row.settings[k];
    PlainIsHarmless(x.policy, v);
    PlainScalar(v);
    forall s | s in entry.secretKeys || s in row.secretKeys ensures s in entry.secretKeys + row.secretKeys {}
  }

  lemma PlainScalar(v: Value)
    requires IsScalar(v)
    ensures IsScalar(PlainValue(v))
  {
    PlainValuePreserves(v);
  }

  lemma {:induction false} AddonsAreAllowed(x: Source, rows: seq<AddonRow>)
    ensures forall a :: a in AddonsWritten(x, rows) ==> AddonAllowed(x, a)
  {
    hide AddonAllowed, AddonWritten, InCatalog;
    if rows != [] {
      AddonsAreAllowed(x, rows[..|rows| - 1]);
      if InCatalog(x.catalog, rows[|rows| - 1].id) { WrittenAddonIsAllowed(x, rows[|rows| - 1]); }
    }
  }

  /** The components the `i`th environment of an export was written from. */
  ghost function ComponentsOf(w: World, x: Source, envs: seq<Env>, s: Server, i: nat): seq<Component>
    requires i < |envs|
  {
    ComponentsRead(w, envs[i], EnvsRead(w, x, envs[..i], s).server)
  }

  /** Every value of every exported environment is admitted by a published document — a knob for the cloud of
      the very component it is written of — and harmless, whatever the server holds and whoever writes to it
      meanwhile. */
  lemma {:induction false} ExportIsAllowed(w: World, x: Source, envs: seq<Env>, s: Server)
    ensures var r := EnvsRead(w, x, envs, s).result;
      r.Some? ==> |r.value| == |envs| && forall i :: 0 <= i < |envs| ==> EnvAllowed(x, ComponentsOf(w, x, envs, s, i), r.value[i])
  {
    hide Arrive, EnvRead, EnvAllowed, ComponentsRead;
    if envs != [] {
      var n := |envs| - 1;
      ExportIsAllowed(w, x, envs[..n], s);
      var front := EnvsRead(w, x, envs[..n], s);
      if EnvsRead(w, x, envs, s).result.Some? {
        EnvIsAllowed(w, x, envs[n], front.server);
        forall i | 0 <= i < n ensures ComponentsOf(w, x, envs, s, i) == ComponentsOf(w, x, envs[..n], s, i) {
          assert envs[..n][..i] == envs[..i];
        }
      }
    }
  }

  lemma EnvIsAllowed(w: World, x: Source, e: Env, s: Server)
    ensures EnvRead(w, x, e, s).result.Some? ==> EnvAllowed(x, ComponentsRead(w, e, s), EnvRead(w, x, e, s).result.value)
  {
    hide Arrive, Meanwhile, FoundId, Kinds, AddonsWritten, Sort, KindAllowed, AddonAllowed, ReadOf, ComponentsRead;
    var s1 := Meanwhile(w, s);
    KindsAreAllowed(x, x.schema, ComponentsRead(w, e, s));
    AddonsAreAllowed(x, Sort(IdLess, Arrange(ListedRows(w, AddonsIn(Meanwhile(w, s1), FoundId(w, s1, e.id))))));
  }

  // ----- nothing else matters -----

  /** The two components agree on everything the schema and the knobs admit. */
  ghost predicate AgreeOnAllowed(x: Source, def: KindDef, a: Component, b: Component) {
    && ComponentCloud(x, a) == ComponentCloud(x, b)
    && (forall f :: f in def.fields && Admitted(x, def, f) && f != MERGED ==> Get(a.config, f) == Get(b.config, f))
    && (Admitted(x, def, MERGED) ==>
          forall k :: KnobAdmitted(x, ComponentCloud(x, a), def.kind, k) ==>
            Get(KeysOf(Get(a.config, MERGED)), k) == Get(KeysOf(Get(b.config, MERGED)), k))
  }

  /** ... so the file says the same of them: no secret field, unknown field or unknown key shows through. */
  lemma DependsOnAllowedOnly(x: Source, def: KindDef, a: Component, b: Component)
    requires AgreeOnAllowed(x, def, a, b)
    ensures FieldsWritten(x, def, a) == FieldsWritten(x, def, b)
  {
    hide HoldsCredential, IsPlain, PlainValue, ComponentCloud, SchemaProperty;
    forall f | f in def.fields ensures FieldWritten(x, def, a, f) == FieldWritten(x, def, b, f) {
      if f == MERGED && Admitted(x, def, f) { SameProviderConfig(x, def, a, b); }
    }
  }

  lemma SameProviderConfig(x: Source, def: KindDef, a: Component, b: Component)
    requires AgreeOnAllowed(x, def, a, b) && Admitted(x, def, MERGED)
    ensures var cloud := ComponentCloud(x, a);
      ProviderConfig(x, cloud, def.kind, Get(a.config, MERGED)) == ProviderConfig(x, cloud, def.kind, Get(b.config, MERGED))
  {
    hide HoldsCredential, IsPlain, PlainValue, ComponentCloud, SchemaProperty, Admitted;
    var cloud := ComponentCloud(x, a);
    var m, n := KeysOf(Get(a.config, MERGED)), KeysOf(Get(b.config, MERGED));
    forall k ensures (k in m && KnobWritten(x, cloud, def.kind, k, m[k])) <==> (k in n && KnobWritten(x, cloud, def.kind, k, n[k])) {
      if KnobAdmitted(x, cloud, def.kind, k) { assert Get(m, k) == Get(n, k); }
    }
    forall k | k in m && KnobWritten(x, cloud, def.kind, k, m[k]) ensures m[k] == n[k] {
      assert Get(m, k) == Get(n, k);
    }
  }

  /** An add-on's override and the settings nobody published do not show through either. */
  lemma AddonDependsOnAllowedOnly(x: Source, a: AddonRow, b: AddonRow)
    requires a.id == b.id && a.mode == b.mode && a.pinned == b.pinned && a.version == b.version && a.secretKeys == b.secretKeys
    requires var entry := EntryOf(x.catalog, a.id);
      entry.settings.Some? ==>
        forall k :: k in entry.settings.value && !IsSecretSetting(x.policy, k, entry.secretKeys + a.secretKeys) ==>
          Get(a.settings, k) == Get(b.settings, k)
    ensures AddonWritten(x, a) == AddonWritten(x, b)
  {
    hide HoldsCredential, IsScalar, PlainValue, IsSecretSetting;
    var entry := EntryOf(x.catalog, a.id);
    forall k
      ensures (k in a.settings && SettingWritten(x, entry, a, k, a.settings[k])) <==> (k in b.settings && SettingWritten(x, entry, b, k, b.settings[k]))
      ensures k in a.settings && SettingWritten(x, entry, a, k, a.settings[k]) ==> a.settings[k] == b.settings[k]
    {
      if entry.settings.Some? && k in entry.settings.value && !IsSecretSetting(x.policy, k, entry.secretKeys + a.secretKeys) {
        assert Get(a.settings, k) == Get(b.settings, k);
      }
    }
    assert SettingsWritten(x, entry, a) == SettingsWritten(x, entry, b);
  }

  // ----- the order of the server's lists does not matter -----

  /** Of one kind, no two rows that are still there share a name. */
  predicate NamesApart(comps: seq<Component>) {
    forall i, j :: 0 <= i < j < |comps| && comps[i].kind == comps[j].kind && !Gone(comps[i].status) && !Gone(comps[j].status) ==>
      comps[i].name != comps[j].name
  }

  lemma {:induction false} RowsOfKindMean(comps: seq<Component>, kind: string)
    ensures forall c :: c in RowsOfKind(comps, kind) <==> c in comps && c.kind == kind && !Gone(c.status)
    ensures NamesApart(comps) ==> forall i, j :: 0 <= i < j < |RowsOfKind(comps, kind)| ==>
      RowsOfKind(comps, kind)[i].name != RowsOfKind(comps, kind)[j].name
  {
    if comps != [] {
      var front, last := comps[..|comps| - 1], comps[|comps| - 1];
      RowsOfKindMean(front, kind);
      if NamesApart(comps) {
        assert NamesApart(front);
        forall c | c in RowsOfKind(front, kind) && last.kind == kind && !Gone(last.status) ensures c.name != last.name {
          var i :| 0 <= i < |front| && front[i] == c;
          assert comps[i] == c;
        }
      }
    }
  }

  lemma NamesOrder(rows: seq<Component>)
    requires forall i, j :: 0 <= i < j < |rows| ==> rows[i].name != rows[j].name
    ensures TotalOn(NameLess, Elements(rows)) && Distinct(rows)
  {
    forall a, b | a in rows && b in rows ensures !NameLess(a, a) && (a != b ==> NameLess(a, b) || NameLess(b, a)) {
      StringLessTotal(a.name, b.name);
    }
    forall a, b, c | NameLess(a, b) && NameLess(b, c) ensures NameLess(a, c) { StringLessTransitive(a.name, b.name, c.name); }
  }

  lemma NamesApartPermutes(a: seq<Component>, b: seq<Component>)
    requires multiset(a) == multiset(b) && NamesApart(a)
    ensures NamesApart(b)
  {
    SameMultiset(a, b);
    forall i, j | 0 <= i < j < |b| && b[i].kind == b[j].kind && !Gone(b[i].status) && !Gone(b[j].status)
      ensures b[i].name != b[j].name
    {
      if b[i] == b[j] {
        CountTwice(b, i, j);
        TwoOf(a, b[i]);
      } else {
        assert b[i] in Elements(b) && b[j] in Elements(b);
        var k :| 0 <= k < |a| && a[k] == b[i];
        var l :| 0 <= l < |a| && a[l] == b[j];
      }
    }
  }

  lemma TwoOf<T>(xs: seq<T>, x: T)
    requires multiset(xs)[x] >= 2
    ensures exists i, j :: 0 <= i < j < |xs| && xs[i] == x && xs[j] == x
  {
    if forall i, j :: 0 <= i < j < |xs| && xs[i] == x ==> xs[j] != x { OneOf(xs, x); }
  }

  lemma {:induction false} OneOf<T>(xs: seq<T>, x: T)
    requires forall i, j :: 0 <= i < j < |xs| && xs[i] == x ==> xs[j] != x
    ensures multiset(xs)[x] <= 1
  {
    if xs != [] {
      var front, last := xs[..|xs| - 1], xs[|xs| - 1];
      assert xs == front + [last];
      OneOf(front, x);
      if last == x { assert x !in front; assert x !in multiset(front); }
    }
  }

  lemma SameRowsOfKind(a: seq<Component>, b: seq<Component>, kind: string)
    requires NamesApart(a) && NamesApart(b) && forall c :: c in a <==> c in b
    ensures Sort(NameLess, RowsOfKind(a, kind)) == Sort(NameLess, RowsOfKind(b, kind))
    ensures RowsOfKind(a, kind) == [] <==> RowsOfKind(b, kind) == []
  {
    hide NamesApart;
    RowsOfKindMean(a, kind);
    RowsOfKindMean(b, kind);
    NamesOrder(RowsOfKind(a, kind));
    NamesOrder(RowsOfKind(b, kind));
    assert Elements(RowsOfKind(a, kind)) == Elements(RowsOfKind(b, kind));
    ArrangementIsDetermined(NameLess, Elements(RowsOfKind(a, kind)), RowsOfKind(a, kind));
    ArrangementIsDetermined(NameLess, Elements(RowsOfKind(a, kind)), RowsOfKind(b, kind));
    SameLength(RowsOfKind(a, kind), RowsOfKind(b, kind));
  }

  lemma SameLength(a: seq<Component>, b: seq<Component>)
    requires Elements(a) == Elements(b)
    ensures a == [] <==> b == []
  {
    if a != [] { HasElements(a); }
    if b != [] { HasElements(b); }
  }

  /** Only which rows there are matters. */
  lemma {:induction false} SameRowsSameKinds(x: Source, defs: seq<KindDef>, a: seq<Component>, b: seq<Component>)
    requires NamesApart(a) && NamesApart(b) && forall c :: c in a <==> c in b
    ensures Kinds(x, defs, a) == Kinds(x, defs, b)
  {
    hide FieldsWritten, RowsOfKind, NamesApart, EntryOfRow;
    if defs != [] {
      SameRowsSameKinds(x, defs[..|defs| - 1], a, b);
      SameRowsOfKind(a, b, defs[|defs| - 1].kind);
    }
  }

  lemma ComponentsIgnoreOrder(x: Source, defs: seq<KindDef>, a: seq<Component>, b: seq<Component>)
    requires multiset(a) == multiset(b) && NamesApart(a)
    ensures Kinds(x, defs, a) == Kinds(x, defs, b)
  {
    NamesApartPermutes(a, b);
    SameMultiset(a, b);
    forall c ensures c in a <==> c in b { assert c in Elements(a) <==> c in Elements(b); }
    SameRowsSameKinds(x, defs, a, b);
  }

  lemma AddonsIgnoreOrder(x: Source, a: seq<AddonRow>, b: seq<AddonRow>)
    requires multiset(a) == multiset(b)
    requires forall i, j :: 0 <= i < j < |a| ==> a[i].id != a[j].id
    ensures AddonsWritten(x, Sort(IdLess, a)) == AddonsWritten(x, Sort(IdLess, b))
  {
    forall r, t | r in a && t in a ensures !IdLess(r, r) && (r != t ==> IdLess(r, t) || IdLess(t, r)) {
      StringLessTotal(r.id, t.id);
    }
    forall r, t, u | IdLess(r, t) && IdLess(t, u) ensures IdLess(r, u) { StringLessTransitive(r.id, t.id, u.id); }
    SortIgnoresOrder(IdLess, a, b);
  }

  /** One environment's section is the same whatever order its components and add-ons are listed in. */
  lemma EnvironmentIgnoresOrder(x: Source, e: Env, comps: seq<Component>, comps': seq<Component>, rows: seq<AddonRow>, rows': seq<AddonRow>)
    requires multiset(comps) == multiset(comps') && NamesApart(comps)
    requires multiset(rows) == multiset(rows') && forall i, j :: 0 <= i < j < |rows| ==> rows[i].id != rows[j].id
    ensures EnvWritten(x, e, comps, rows) == EnvWritten(x, e, comps', rows')
  {
    ComponentsIgnoreOrder(x, x.schema, comps, comps');
    AddonsIgnoreOrder(x, rows, rows');
  }

  lemma EnvOrder(envs: seq<Env>)
    requires forall i, j :: 0 <= i < j < |envs| ==> envs[i].name != envs[j].name
    ensures TotalOn(EnvLess, Elements(envs)) && Distinct(envs)
  {
    forall a, b | a in envs && b in envs ensures !EnvLess(a, a) && (a != b ==> EnvLess(a, b) || EnvLess(b, a)) {
      StringLessTotal(a.name, b.name);
    }
    forall a, b, c | EnvLess(a, b) && EnvLess(b, c) ensures EnvLess(a, c) {
      if a.isDefault == b.isDefault == c.isDefault { StringLessTransitive(a.name, b.name, c.name); }
    }
  }

  /** The environments come in one order however they are listed: the default ones, then the rest, by
      name. */
  lemma EnvironmentsIgnoreOrder(a: seq<Env>, b: seq<Env>)
    requires multiset(a) == multiset(b) && forall i, j :: 0 <= i < j < |a| ==> a[i].name != a[j].name
    ensures Ordered(a) == Ordered(b)
    ensures StrictlySorted(EnvLess, Ordered(a)) && multiset(Ordered(a)) == multiset(a)
  {
    EnvOrder(a);
    SortIgnoresOrder(EnvLess, a, b);
    SortSorts(EnvLess, a);
  }
}
