/** The add-ons half of `plan` and `apply` (apps/cli/cmd/apply_addons.go), and the server's
    keep/clear rule for an add-on (apps/console/app/api/cli/projects/[id]/addons/reconfigure.ts). */
module Addons {
  import opened Options
  import opened Ordering
  import opened Values
  import opened FieldDiffs

  /** The text of an Advanced override, by what parsing it gives. `Blank` is empty or white space;
      `NoContent` has text but no YAML node (only comments). */
  datatype Doc = Blank | NoContent | Invalid | NotMapping | Mapping(m: Fields)

  /** One add-on of the file. `content` is the text of `valuesFile`. */
  datatype AddonDecl = AddonDecl(
    id: string, version: Option<string>, mode: string, settings: Fields,
    values: Option<Fields>, valuesCleared: bool, valuesFile: Option<string>, content: Doc)

  /** What an add-on's schema makes of one setting: it refuses it, drops it as none of its own, or reads
      it as a value, which need not be the one that was sent. */
  datatype Knob = BadKnob | NoKnob | Knob(value: Value)

  /** A catalog entry. What the server publishes of it; then its schema: how it reads each setting, the
      rules that span settings, and the chart versions it takes. */
  datatype CatalogEntry = CatalogEntry(
    id: string, version: string, secretKeys: seq<string>, defaults: Fields, settings: Option<seq<string>>,
    read: (string, Value) -> Knob, consistent: Fields -> bool, validVersion: string -> bool)

  /** Go's zero entry, for an id the catalog does not list; the server refuses whatever is asked of it. */
  const NO_ENTRY :=
    CatalogEntry("", "", [], map[], None, (k: string, v: Value) => BadKnob, (m: Fields) => false, (v: string) => false)

  /** An add-on as the server lists it. */
  datatype AddonRow = AddonRow(
    id: string, enabled: bool, mode: string, version: Option<string>, pinned: bool,
    settings: Fields, valuesYaml: Option<Doc>, secretKeys: seq<string>)

  /** The `addon enable` request. `yaml`: None keeps the stored override, Blank removes it. */
  datatype AddonRequest = AddonRequest(
    id: string, version: Option<string>, mode: string, settings: Fields, yaml: Option<Doc>)

  datatype AddonPlan = AddonPlan(id: string, action: Action, changes: seq<FieldChange>, request: Option<AddonRequest>)

  datatype AddonOutcome = Planned(plan: AddonPlan) | SecretSetting | BadOverride

  const DEFAULT_LABEL := "(catalog default)"

  /** The delivery modes (`addon_mode`). */
  const MODES := {"managed", "gitops"}

  // ----- what the file says -----

  /** `parseOverride`: None is an error; no override is the empty mapping. */
  function ParseOverride(d: Doc): Option<Fields> {
    match d
    case Blank | NoContent => Some(map[])
    case Invalid | NotMapping => None
    case Mapping(m) => Some(m)
  }

  datatype OverrideDecl = NotDeclared | Unreadable | Declared(m: Fields)

  /** `declaredOverride`: every spelling of "no override" declares the empty mapping. */
  function DeclaredOverride(a: AddonDecl): OverrideDecl {
    if a.valuesFile.Some? then
      if a.valuesFile.value == "" then Declared(map[])
      else
        match ParseOverride(a.content)
        case None => Unreadable
        case Some(m) => Declared(m)
    else if a.valuesCleared then Declared(map[])
    else if a.values.Some? then Declared(a.values.value)
    else NotDeclared
  }

  /** `overrideText`. An inline mapping is written as YAML that parses back to it. */
  function OverrideText(a: AddonDecl): Option<Doc> {
    if a.valuesFile.Some? then
      Some(if a.valuesFile.value == "" then Blank else a.content)
    else if a.valuesCleared then Some(Blank)
    else if a.values.Some? then Some(if a.values.value == map[] then Blank else Mapping(a.values.value))
    else None
  }

  function MapOrNil(m: Fields): Value {
    if m == map[] then Null else Map(m)
  }

  function Stored(row: AddonRow): Fields {
    if row.valuesYaml == None then map[]
    else
      var m := ParseOverride(row.valuesYaml.value);
      if m.Some? then m.value else map[]
  }

  // ----- what differs -----

  function VersionChange(want: string, row: AddonRow): Option<FieldChange> {
    var have := if row.version.Some? then row.version.value else "";
    var from := Str(if row.pinned then have else DEFAULT_LABEL);
    if want == "" then
      if row.pinned then Some(FieldChange("version", "", from, Str(DEFAULT_LABEL))) else None
    else if row.pinned && have == want then None
    else Some(FieldChange("version", "", from, Str(want)))
  }

  /** What a declared setting is compared with: a reset is compared with the catalog's default. */
  function Target(want: Value, defaults: Fields, k: string): Value {
    if want == Null then Get(defaults, k) else want
  }

  function SettingsChanges(declared: Fields, stored: Fields, defaults: Fields): set<FieldChange> {
    set k | k in declared && !ValuesEqual(Target(declared[k], defaults, k), Get(stored, k)) ::
      FieldChange("settings", k, Get(stored, k), declared[k])
  }

  /** That the override changed, never what it says. */
  function ValuesChange(a: AddonDecl, row: AddonRow): Option<FieldChange> {
    var o := DeclaredOverride(a);
    if o.Declared? && !ValuesEqual(MapOrNil(o.m), MapOrNil(Stored(row))) then
      Some(FieldChange("values", "", Null, Str(if o.m == map[] then "removed" else "changed")))
    else None
  }

  /** The changes to fields that are not merged key by key. */
  function WholeChanges(a: AddonDecl, row: AddonRow): seq<FieldChange> {
    AsSeq(if a.version.Some? then VersionChange(a.version.value, row) else None)
    + (if a.mode != "" && a.mode != row.mode then [FieldChange("mode", "", Str(row.mode), Str(a.mode))] else [])
    + AsSeq(ValuesChange(a, row))
  }

  function AsSeq<T>(o: Option<T>): seq<T> {
    if o.Some? then [o.value] else []
  }

  function AddonChanges(a: AddonDecl, row: AddonRow, entry: CatalogEntry): set<FieldChange> {
    Elements(WholeChanges(a, row)) + SettingsChanges(a.settings, row.settings, entry.defaults)
  }

  lemma AddonChangesAreOrdered(a: AddonDecl, row: AddonRow, entry: CatalogEntry)
    ensures TotalOn(ChangeLess, AddonChanges(a, row, entry))
  {
    hide ValuesEqual, WholeChanges, TotalOn;
    var s := AddonChanges(a, row, entry);
    WholeChangesDiffer(a, row);
    DistinctPairsAreOrdered(s);
  }

  lemma WholeChangesDiffer(a: AddonDecl, row: AddonRow)
    ensures forall x :: x in WholeChanges(a, row) ==> x.field != "settings"
    ensures forall x, y :: x in WholeChanges(a, row) && y in WholeChanges(a, row) && x.field == y.field ==> x == y
  {
    hide ValuesEqual, DeclaredOverride;
    var version := AsSeq(if a.version.Some? then VersionChange(a.version.value, row) else None);
    var values := AsSeq(ValuesChange(a, row));
    assert forall x :: x in version ==> x.field == "version" && x == version[0];
    assert forall x :: x in values ==> x.field == "values" && x == values[0];
  }

  lemma WholeChangesApart(a: AddonDecl, row: AddonRow)
    ensures Distinct(WholeChanges(a, row))
  {
    hide VersionChange, ValuesChange;
    if a.version.Some? { VersionField(a.version.value, row); }
    ValuesField(a, row);
  }

  lemma VersionField(want: string, row: AddonRow)
    ensures VersionChange(want, row).Some? ==> VersionChange(want, row).value.field == "version"
  {
  }

  lemma ValuesField(a: AddonDecl, row: AddonRow)
    ensures ValuesChange(a, row).Some? ==> ValuesChange(a, row).value.field == "values"
  {
    hide ValuesEqual, DeclaredOverride;
  }

  ghost function AddonDiff(a: AddonDecl, row: AddonRow, entry: CatalogEntry): seq<FieldChange> {
    Sort(ChangeLess, Arrange(AddonChanges(a, row, entry)))
  }

  lemma AddonDiffMeans(a: AddonDecl, row: AddonRow, entry: CatalogEntry)
    ensures Elements(AddonDiff(a, row, entry)) == AddonChanges(a, row, entry)
    ensures StrictlySorted(ChangeLess, AddonDiff(a, row, entry))
    ensures AddonDiff(a, row, entry) == [] <==> AddonChanges(a, row, entry) == {}
  {
    AddonChangesAreOrdered(a, row, entry);
    ArrangedMeans(ChangeLess, AddonChanges(a, row, entry));
  }

  // ----- the request -----

  /** The changed settings, as `addonRequest` collects them. */
  function ChangedSettings(changes: seq<FieldChange>): Fields {
    if changes == [] then map[]
    else
      var c := changes[|changes| - 1];
      var rest := ChangedSettings(changes[..|changes| - 1]);
      if c.field == "settings" then rest[c.key := c.to] else rest
  }

  predicate Changed(changes: seq<FieldChange>, field: string) {
    exists c :: c in changes && c.field == field
  }

  /** A create sends everything the file declares. */
  function CreateRequest(a: AddonDecl): AddonRequest {
    AddonRequest(a.id, a.version, a.mode, a.settings, OverrideText(a))
  }

  /** An update sends only what changed. */
  function UpdateRequest(a: AddonDecl, changes: seq<FieldChange>): AddonRequest {
    AddonRequest(
      a.id,
      if Changed(changes, "version") then a.version else None,
      if Changed(changes, "mode") then a.mode else "",
      ChangedSettings(changes),
      if Changed(changes, "values") then OverrideText(a) else None)
  }

  /** `addonRequest`, with no changes for a create. */
  method BuildAddonRequest(a: AddonDecl, changes: Option<seq<FieldChange>>) returns (r: AddonRequest)
    ensures changes == None ==> r == CreateRequest(a)
    ensures changes.Some? ==> r == UpdateRequest(a, changes.value)
  {
    if changes == None {
      return CreateRequest(a);
    }
    var cs := changes.value;
    var changed: set<string>, settings: Fields := {}, map[];
    for i := 0 to |cs|
      invariant forall f :: f in changed <==> Changed(cs[..i], f)
      invariant settings == ChangedSettings(cs[..i])
    {
      assert cs[..i + 1] == cs[..i] + [cs[i]];
      changed := changed + {cs[i].field};
      if cs[i].field == "settings" {
        settings := settings[cs[i].key := cs[i].to];
      }
    }
    assert cs[..|cs|] == cs;
    r := AddonRequest(a.id, if "version" in changed then a.version else None, if "mode" in changed then a.mode else "",
                      settings, if "values" in changed then OverrideText(a) else None);
  }

  lemma {:induction false} ChangedSettingsMeans(changes: seq<FieldChange>)
    requires StrictlySorted(ChangeLess, changes)
    ensures forall k :: k in ChangedSettings(changes) ==>
      exists c :: c in changes && c.field == "settings" && c.key == k && c.to == ChangedSettings(changes)[k]
    ensures forall c :: c in changes && c.field == "settings" ==> c.key in ChangedSettings(changes)
  {
    if changes != [] {
      var front, last := changes[..|changes| - 1], changes[|changes| - 1];
      assert changes == front + [last];
      ChangedSettingsMeans(front);
    }
  }

  // ----- planAddons, one add-on -----

  ghost function PlanAddon(a: AddonDecl, row: Option<AddonRow>, entry: CatalogEntry): AddonOutcome {
    var secret := entry.secretKeys + (if row.Some? then row.value.secretKeys else []);
    if exists k :: k in a.settings && k in secret then SecretSetting
    else if DeclaredOverride(a).Unreadable? then BadOverride
    else if row == None then Planned(AddonPlan(a.id, Create, [], Some(CreateRequest(a))))
    else
      var changes := AddonDiff(a, row.value, entry);
      Planned(if changes == [] then AddonPlan(a.id, Unchanged, [], None)
              else AddonPlan(a.id, Update, changes, Some(UpdateRequest(a, changes))))
  }

  method CollectSettingsChanges(declared: Fields, stored: Fields, defaults: Fields) returns (out: seq<FieldChange>)
    ensures Elements(out) == SettingsChanges(declared, stored, defaults) && Distinct(out)
  {
    out := [];
    var rest := declared.Keys;
    while rest != {}
      invariant rest <= declared.Keys
      invariant Distinct(out)
      invariant Elements(out) == set ch | ch in SettingsChanges(declared, stored, defaults) && ch.key !in rest
    {
      var k :| k in rest;
      rest := rest - {k};
      var have := Get(stored, k);
      if !ValuesEqual(Target(declared[k], defaults, k), have) {
        var ch := FieldChange("settings", k, have, declared[k]);
        assert ch in SettingsChanges(declared, stored, defaults);
        assert Elements(out + [ch]) == Elements(out) + {ch};
        out := out + [ch];
      }
    }
  }

  /** The changes of one enabled add-on, in order. */
  method CollectAddonChanges(a: AddonDecl, row: AddonRow, entry: CatalogEntry) returns (out: seq<FieldChange>)
    ensures out == AddonDiff(a, row, entry)
  {
    hide ValuesEqual, WholeChanges;
    var settings := CollectSettingsChanges(a.settings, row.settings, entry.defaults);
    var whole := WholeChanges(a, row);
    forall c | c in settings ensures c.field == "settings" { assert c in Elements(settings); }
    assert Elements(whole + settings) == Elements(whole) + Elements(settings);
    AddonChangesAreOrdered(a, row, entry);
    WholeChangesDiffer(a, row);
    WholeChangesApart(a, row);
    DistinctAppend(whole, settings);
    ArrangementIsDetermined(ChangeLess, AddonChanges(a, row, entry), whole + settings);
    out := Sort(ChangeLess, whole + settings);
  }

  /** One turn of `planAddons`. */
  method PlanOneAddon(a: AddonDecl, row: Option<AddonRow>, entry: CatalogEntry) returns (o: AddonOutcome)
    ensures o == PlanAddon(a, row, entry)
  {
    var secret := entry.secretKeys + (if row.Some? then row.value.secretKeys else []);
    if exists k :: k in a.settings && k in secret {
      return SecretSetting;
    }
    if DeclaredOverride(a).Unreadable? {
      return BadOverride;
    }
    if row == None {
      var request := BuildAddonRequest(a, None);
      return Planned(AddonPlan(a.id, Create, [], Some(request)));
    }
    var changes := CollectAddonChanges(a, row.value, entry);
    if changes == [] {
      return Planned(AddonPlan(a.id, Unchanged, [], None));
    }
    var request := BuildAddonRequest(a, Some(changes));
    return Planned(AddonPlan(a.id, Update, changes, Some(request)));
  }

  // ----- planAddons -----

  /** The catalog's entry for an id: the first that matches. */
  function EntryOf(catalog: seq<CatalogEntry>, id: string): CatalogEntry {
    if catalog == [] then NO_ENTRY else if catalog[0].id == id then catalog[0] else EntryOf(catalog[1..], id)
  }

  /** The listed row of an id: the last one, as `byID` keeps it. */
  function RowOf(rows: seq<AddonRow>, id: string): Option<AddonRow> {
    if rows == [] then None
    else if rows[|rows| - 1].id == id then Some(rows[|rows| - 1])
    else RowOf(rows[..|rows| - 1], id)
  }

  ghost function Outcomes(declared: seq<AddonDecl>, rows: seq<AddonRow>, catalog: seq<CatalogEntry>): seq<AddonOutcome> {
    seq(|declared|, i requires 0 <= i < |declared| =>
      PlanAddon(declared[i], RowOf(rows, declared[i].id), EntryOf(catalog, declared[i].id)))
  }

  function PlansOf(outcomes: seq<AddonOutcome>): seq<AddonPlan> {
    if outcomes == [] then []
    else
      var last := outcomes[|outcomes| - 1];
      PlansOf(outcomes[..|outcomes| - 1]) + if last.Planned? then [last.plan] else []
  }

  /** `byID`. */
  method IndexById(rows: seq<AddonRow>) returns (byID: map<string, AddonRow>)
    ensures forall id :: RowOf(rows, id) == if id in byID then Some(byID[id]) else None
  {
    byID := map[];
    for i := 0 to |rows|
      invariant forall id :: RowOf(rows[..i], id) == if id in byID then Some(byID[id]) else None
    {
      assert rows[..i + 1][..i] == rows[..i];
      byID := byID[rows[i].id := rows[i]];
    }
    assert rows[..|rows|] == rows;
  }

  /** `planAddons`: the plans in file order, and the add-ons that cannot be applied as written. */
  method PlanAddons(declared: seq<AddonDecl>, rows: seq<AddonRow>, catalog: seq<CatalogEntry>)
    returns (plans: seq<AddonPlan>, problems: seq<string>)
    ensures plans == PlansOf(Outcomes(declared, rows, catalog))
    ensures problems == [] <==> forall o :: o in Outcomes(declared, rows, catalog) ==> o.Planned?
  {
    hide PlanAddon, RowOf, EntryOf;
    plans, problems := [], [];
    var byID := IndexById(rows);
    ghost var all := Outcomes(declared, rows, catalog);
    for i := 0 to |declared|
      invariant plans == PlansOf(all[..i])
      invariant problems == [] <==> forall j :: 0 <= j < i ==> all[j].Planned?
    {
      var a := declared[i];
      var row := if a.id in byID then Some(byID[a.id]) else None;
      var o := PlanOneAddon(a, row, EntryOf(catalog, a.id));
      assert o == all[i];
      assert all[..i + 1][..i] == all[..i];
      match o {
        case Planned(plan) => plans := plans + [plan];
        case _ => problems := problems + [a.id];
      }
    }
    assert all[..|declared|] == all;
  }

  // ----- the server's side -----

  /** What is stored for an enabled add-on; `settings` without the secret ones. */
  datatype StoredAddon = StoredAddon(mode: string, pin: Option<string>, settings: Fields, yaml: Option<Doc>)

  /** The row the server lists for it. */
  function RowView(id: string, stored: StoredAddon, entry: CatalogEntry): AddonRow {
    AddonRow(id, true, stored.mode, Some(if stored.pin.Some? then stored.pin.value else entry.version),
             stored.pin.Some?, stored.settings, stored.yaml, entry.secretKeys)
  }

  predicate AllEncodable(m: Fields) {
    forall k :: k in m ==> Encodable(m[k])
  }

  /** The settings as the schema reads them: one it does not know is dropped. */
  function ReadSettings(entry: CatalogEntry, m: Fields): Fields {
    map k | k in m && entry.read(k, m[k]).Knob? :: entry.read(k, m[k]).value
  }

  /** Each key sent is merged over the stored ones, a null one is removed; the schema reads the result, and
      every setting then missing takes the catalog's default. */
  function MergeSettings(entry: CatalogEntry, stored: Fields, sent: Fields): Fields
    requires AllEncodable(sent)
  {
    entry.defaults + ReadSettings(entry, MergeKeys(stored, sent))
  }

  /** JSON carries the settings; the schema reads each of the merged ones and finds them consistent; the
      version and the mode are ones it takes; and a replacing override is a mapping. */
  predicate AcceptsAddon(entry: CatalogEntry, stored: Fields, req: AddonRequest) {
    && AllEncodable(req.settings)
    && (forall k :: k in MergeKeys(stored, req.settings) ==> entry.read(k, MergeKeys(stored, req.settings)[k]) != BadKnob)
    && entry.consistent(MergeSettings(entry, stored, req.settings))
    && (req.version.Some? ==> VersionTaken(entry, req.version.value)) && ModeTaken(req.mode)
    && (req.yaml.Some? ==> req.yaml.value.Blank? || req.yaml.value.Mapping?)
  }

  predicate VersionTaken(entry: CatalogEntry, version: string) {
    version == "" || entry.validVersion(version)
  }

  predicate ModeTaken(mode: string) {
    mode == "" || mode in MODES
  }

  function SettingsOf(stored: Option<StoredAddon>): Fields {
    if stored.Some? then stored.value.settings else map[]
  }

  /** The stored add-on after an accepted request; a field left out keeps what is stored. */
  function Reconfigured(entry: CatalogEntry, stored: Option<StoredAddon>, req: AddonRequest): StoredAddon
    requires AcceptsAddon(entry, SettingsOf(stored), req)
  {
    var s := if stored.Some? then stored.value else StoredAddon("managed", None, map[], None);
    StoredAddon(
      if req.mode == "" then s.mode else req.mode,
      if req.version == None then s.pin else if req.version.value == "" then None else req.version,
      MergeSettings(entry, s.settings, req.settings),
      if req.yaml == None then s.yaml else if req.yaml.value.Blank? then None else req.yaml)
  }

  function AfterEnable(entry: CatalogEntry, stored: Option<StoredAddon>, req: AddonRequest): Option<StoredAddon> {
    if AcceptsAddon(entry, SettingsOf(stored), req) then Some(Reconfigured(entry, stored, req)) else stored
  }

  /** Settings as a schema leaves them: it reads each as itself. */
  predicate AsRead(entry: CatalogEntry, m: Fields) {
    forall k :: k in m ==> entry.read(k, m[k]) == Knob(m[k]) && Canonical(m[k]) == m[k]
  }

  predicate DefaultsAreJson(entry: CatalogEntry) {
    forall k :: k in entry.defaults ==> NaNFree(entry.defaults[k])
  }

  /** What a schema promises: it reads what it has read as itself, and its defaults are settings it knows. */
  ghost predicate EntryOk(entry: CatalogEntry) {
    && DefaultsAreJson(entry) && AsRead(entry, entry.defaults)
    && (forall k, v :: entry.read(k, v).Knob? ==>
          entry.read(k, entry.read(k, v).value) == entry.read(k, v) && Canonical(entry.read(k, v).value) == entry.read(k, v).value)
    && (forall k, v :: k in entry.defaults ==> entry.read(k, v) != NoKnob)
  }

  lemma NoEntryOk()
    ensures EntryOk(NO_ENTRY)
  {
  }

  /** What is stored is as read, whatever is sent. */
  lemma MergedIsAsRead(entry: CatalogEntry, stored: Fields, sent: Fields)
    requires EntryOk(entry) && AllEncodable(sent)
    ensures AsRead(entry, MergeSettings(entry, stored, sent))
  {
    hide Canonical, NaNFree, Encodable;
    var merged, after := MergeKeys(stored, sent), MergeSettings(entry, stored, sent);
    forall k | k in after ensures entry.read(k, after[k]) == Knob(after[k]) && Canonical(after[k]) == after[k] {
      if k in merged && entry.read(k, merged[k]).Knob? {
        assert after[k] == entry.read(k, merged[k]).value;
      } else {
        assert after[k] == entry.defaults[k];
      }
    }
  }

  // ----- settling -----

  /** A declared setting is read as a value that compares equal to it. A null one is a reset. */
  predicate SettingKept(entry: CatalogEntry, k: string, v: Value) {
    Encodable(v) && (v != Null ==> entry.read(k, Wire(v)).Knob? && ValuesEqual(v, entry.read(k, Wire(v)).value))
  }

  predicate AllKept(entry: CatalogEntry, m: Fields) {
    forall k :: k in m ==> SettingKept(entry, k, m[k])
  }

  /** The request can express the changes: each changed setting is kept, the merged settings are
      consistent, a changed version and a changed mode are ones the server takes, and a changed override is
      text it reads as a mapping (or no override) with no NaN in it. */
  ghost predicate AddonSendable(a: AddonDecl, stored: StoredAddon, entry: CatalogEntry) {
    var cs := ChangesOf(a, stored, entry);
    && AllKept(entry, ChangedSettings(cs))
    && entry.consistent(MergeSettings(entry, stored.settings, ChangedSettings(cs)))
    && (Changed(cs, "version") ==> a.version.Some? && VersionTaken(entry, a.version.value))
    && (Changed(cs, "mode") ==> ModeTaken(a.mode))
    && (Changed(cs, "values") ==> OverrideSettles(a))
  }

  /** The same of a create, which sends everything. */
  ghost predicate CreateSendable(a: AddonDecl, entry: CatalogEntry) {
    && AllKept(entry, a.settings)
    && entry.consistent(MergeSettings(entry, map[], a.settings))
    && (a.version.Some? ==> VersionTaken(entry, a.version.value)) && ModeTaken(a.mode)
    && (OverrideText(a).Some? ==> OverrideSettles(a))
  }

  predicate OverrideSettles(a: AddonDecl) {
    var text := OverrideText(a);
    text.Some? && (text.value.Blank? || (text.value.Mapping? && NaNFree(Map(text.value.m))))
  }

  ghost predicate IsPlanned(a: AddonDecl, stored: StoredAddon, entry: CatalogEntry, action: Action) {
    var o := PlanAddon(a, Some(RowView(a.id, stored, entry)), entry);
    o.Planned? && o.plan.action == action
  }

  ghost function ChangesOf(a: AddonDecl, stored: StoredAddon, entry: CatalogEntry): seq<FieldChange> {
    AddonDiff(a, RowView(a.id, stored, entry), entry)
  }

  lemma InAddonDiff(a: AddonDecl, row: AddonRow, entry: CatalogEntry, c: FieldChange)
    ensures c in AddonDiff(a, row, entry) <==> c in AddonChanges(a, row, entry)
  {
    AddonDiffMeans(a, row, entry);
    assert c in AddonDiff(a, row, entry) <==> c in Elements(AddonDiff(a, row, entry));
  }

  /** An update sends exactly the declared settings that differ from what they should settle at. */
  lemma SettingsSent(a: AddonDecl, row: AddonRow, entry: CatalogEntry, k: string)
    ensures var sent := UpdateRequest(a, AddonDiff(a, row, entry)).settings;
      && (k in sent <==> k in a.settings && !ValuesEqual(Target(a.settings[k], entry.defaults, k), Get(row.settings, k)))
      && (k in sent ==> sent[k] == a.settings[k])
  {
    hide ValuesEqual, AddonDiff;
    var cs := AddonDiff(a, row, entry);
    AddonDiffMeans(a, row, entry);
    ChangedSettingsMeans(cs);
    if k in ChangedSettings(cs) {
      var c :| c in cs && c.field == "settings" && c.key == k && c.to == ChangedSettings(cs)[k];
      InAddonDiff(a, row, entry, c);
      WholeChangesMean(a, row);
    } else if k in a.settings && !ValuesEqual(Target(a.settings[k], entry.defaults, k), Get(row.settings, k)) {
      var c := FieldChange("settings", k, Get(row.settings, k), a.settings[k]);
      assert c in SettingsChanges(a.settings, row.settings, entry.defaults);
      InAddonDiff(a, row, entry, c);
      assert false;
    }
  }

  /** ... and exactly the other declared fields that differ. */
  lemma WholeFieldsSent(a: AddonDecl, row: AddonRow, entry: CatalogEntry)
    ensures var cs := AddonDiff(a, row, entry);
      && (Changed(cs, "version") <==> a.version.Some? && VersionChange(a.version.value, row).Some?)
      && (Changed(cs, "mode") <==> a.mode != "" && a.mode != row.mode)
      && (Changed(cs, "values") <==> ValuesChange(a, row).Some?)
  {
    hide ValuesEqual, AddonDiff, WholeChanges;
    var cs := AddonDiff(a, row, entry);
    WholeChangesMean(a, row);
    forall c ensures c in cs && c.field != "settings" <==> c in WholeChanges(a, row) {
      InAddonDiff(a, row, entry, c);
    }
  }

  lemma WholeChangesMean(a: AddonDecl, row: AddonRow)
    ensures var w := WholeChanges(a, row);
      && (forall c :: c in w ==> c.field != "settings")
      && ((exists c :: c in w && c.field == "version") <==> a.version.Some? && VersionChange(a.version.value, row).Some?)
      && ((exists c :: c in w && c.field == "mode") <==> a.mode != "" && a.mode != row.mode)
      && ((exists c :: c in w && c.field == "values") <==> ValuesChange(a, row).Some?)
  {
    hide VersionChange, ValuesChange;
    if a.version.Some? { VersionField(a.version.value, row); }
    ValuesField(a, row);
    var w := WholeChanges(a, row);
    if a.version.Some? && VersionChange(a.version.value, row).Some? {
      assert VersionChange(a.version.value, row).value in w;
    }
    if a.mode != "" && a.mode != row.mode {
      assert FieldChange("mode", "", Str(row.mode), Str(a.mode)) in w;
    }
    if ValuesChange(a, row).Some? {
      assert ValuesChange(a, row).value in w;
    }
  }

  /** One setting after the merge. */
  lemma MergedSetting(entry: CatalogEntry, stored: Fields, sent: Fields, k: string)
    requires AllEncodable(sent)
    ensures var after := MergeSettings(entry, stored, sent);
      if k in sent && sent[k] != Null && entry.read(k, Wire(sent[k])).Knob? then
        k in after && after[k] == entry.read(k, Wire(sent[k])).value
      else if k !in sent && k in stored && entry.read(k, stored[k]).Knob? then
        k in after && after[k] == entry.read(k, stored[k]).value
      else Get(after, k) == Get(entry.defaults, k)
  {
  }

  /** One setting after an accepted update: a declared one is at its target exactly when it did not change
      or is kept; an undeclared one is as it was. */
  lemma SettingSettlesIff(a: AddonDecl, stored: StoredAddon, entry: CatalogEntry, k: string)
    requires EntryOk(entry) && AsRead(entry, stored.settings)
    requires AllEncodable(UpdateRequest(a, ChangesOf(a, stored, entry)).settings)
    ensures var sent := UpdateRequest(a, ChangesOf(a, stored, entry)).settings;
      var after := MergeSettings(entry, stored.settings, sent);
      && (k in a.settings ==>
            (ValuesEqual(Target(a.settings[k], entry.defaults, k), Get(after, k))
             <==> (k in sent ==> SettingKept(entry, k, sent[k]))))
      && (k !in a.settings && k in stored.settings ==> k in after && after[k] == stored.settings[k])
  {
    hide ValuesEqual, AddonDiff, NaNFree, Changed, OverrideText, ChangedSettings, MergeSettings, Canonical, Encodable, EntryOk, Target;
    var row := RowView(a.id, stored, entry);
    var sent := UpdateRequest(a, AddonDiff(a, row, entry)).settings;
    SettingsSent(a, row, entry, k);
    MergedSetting(entry, stored.settings, sent, k);
    if k in a.settings {
      if k in sent { SentSetting(entry, a.settings[k], k); } else { UnsentSetting(entry, stored.settings, a.settings[k], k); }
    }
  }

  lemma SentSetting(entry: CatalogEntry, v: Value, k: string)
    requires EntryOk(entry) && Encodable(v)
    ensures ValuesEqual(Target(v, entry.defaults, k),
                        if v != Null && entry.read(k, Wire(v)).Knob? then entry.read(k, Wire(v)).value else Get(entry.defaults, k))
            <==> SettingKept(entry, k, v)
  {
    hide ValuesEqual, NaNFree, Canonical, Encodable;
    EmptyIsNaNFree();
    if v == Null {
      ValuesEqualIsEquivalence(Get(entry.defaults, k), Null, Null);
    } else if !entry.read(k, Wire(v)).Knob? {
      NotNull(v);
      assert k in entry.defaults ==> entry.read(k, entry.defaults[k]).Knob?;
      NotAsRead(entry, v, k);
    }
  }

  lemma NotNull(v: Value)
    requires v != Null
    ensures !ValuesEqual(v, Null) && !ValuesEqual(Null, v)
  {
  }

  /** A value the schema does not read equals none it has read. */
  lemma NotAsRead(entry: CatalogEntry, v: Value, k: string)
    requires Encodable(v) && v != Null && !entry.read(k, Wire(v)).Knob? && AsRead(entry, entry.defaults)
    ensures !ValuesEqual(v, Get(entry.defaults, k))
  {
    hide NaNFree, Encodable;
    ValuesEqualMeans(v, Get(entry.defaults, k));
    CanonicalIsNull(v);
  }

  lemma CanonicalIsNull(v: Value)
    ensures Canonical(v) == Null <==> v == Null
  {
  }

  lemma UnsentSetting(entry: CatalogEntry, stored: Fields, v: Value, k: string)
    requires AsRead(entry, stored) && EntryOk(entry)
    requires ValuesEqual(Target(v, entry.defaults, k), Get(stored, k))
    ensures ValuesEqual(Target(v, entry.defaults, k),
                        if k in stored && entry.read(k, stored[k]).Knob? then entry.read(k, stored[k]).value
                        else Get(entry.defaults, k))
  {
    hide ValuesEqual, NaNFree, Canonical;
    var target := Target(v, entry.defaults, k);
    EmptyIsNaNFree();
    if k !in stored {
      if v == Null {
        ValuesEqualIsEquivalence(target, Null, Null);
      } else {
        NotNull(v);
      }
    }
  }

  /** The text that is sent reads back as the declared mapping. */
  lemma DeclaredIsSent(a: AddonDecl)
    requires DeclaredOverride(a).Declared?
    ensures OverrideText(a).Some?
    ensures OverrideText(a).value.Blank? ==> DeclaredOverride(a).m == map[]
    ensures OverrideText(a).value.Mapping? ==> DeclaredOverride(a).m == OverrideText(a).value.m
  {
  }

  /** The override after an accepted update compares equal to the declared one, exactly when the
      declared one has no NaN. */
  lemma OverrideSettlesIff(a: AddonDecl, stored: StoredAddon, entry: CatalogEntry)
    requires AcceptsAddon(entry, stored.settings, UpdateRequest(a, ChangesOf(a, stored, entry)))
    ensures var req := UpdateRequest(a, ChangesOf(a, stored, entry));
      var after := Reconfigured(entry, Some(stored), req);
      ValuesChange(a, RowView(a.id, after, entry)) == None
      <==> (Changed(ChangesOf(a, stored, entry), "values") ==> OverrideSettles(a))
  {
    hide ValuesEqual, AddonDiff, NaNFree, MergeSettings, Encodable;
    var row := RowView(a.id, stored, entry);
    WholeFieldsSent(a, row, entry);
    var after := Reconfigured(entry, Some(stored), UpdateRequest(a, ChangesOf(a, stored, entry)));
    if ValuesChange(a, row).Some? {
      DeclaredIsSent(a);
      var m := DeclaredOverride(a).m;
      assert Stored(RowView(a.id, after, entry)) == m;
      ValuesEqualIsEquivalence(MapOrNil(m), Null, Null);
      EmptyIsNaNFree();
    }
  }

  lemma EmptyIsNaNFree()
    ensures NaNFree(Null) && NaNFree(Map(map[]))
  {
  }

  /** The server takes the request exactly when JSON carries its settings, the schema reads each of them
      and finds the result consistent, the server takes the version and the mode and can read the override. */
  lemma AcceptedIff(a: AddonDecl, stored: StoredAddon, entry: CatalogEntry)
    requires !DeclaredOverride(a).Unreadable? && AsRead(entry, stored.settings)
    ensures var cs := ChangesOf(a, stored, entry);
      AcceptsAddon(entry, stored.settings, UpdateRequest(a, cs)) <==>
        && AllEncodable(ChangedSettings(cs))
        && (forall k :: k in ChangedSettings(cs) && ChangedSettings(cs)[k] != Null ==>
              entry.read(k, Wire(ChangedSettings(cs)[k])) != BadKnob)
        && entry.consistent(MergeSettings(entry, stored.settings, ChangedSettings(cs)))
        && (Changed(cs, "version") ==> a.version.Some? && VersionTaken(entry, a.version.value))
        && (Changed(cs, "mode") ==> ModeTaken(a.mode))
        && (Changed(cs, "values") ==> OverrideText(a).Some? && !OverrideText(a).value.NoContent?)
  {
    hide ValuesEqual, AddonDiff, NaNFree, Changed, MergeSettings, Canonical, Encodable, ChangedSettings;
    var row := RowView(a.id, stored, entry);
    var cs := ChangesOf(a, stored, entry);
    WholeFieldsSent(a, row, entry);
    assert UpdateRequest(a, cs).settings == ChangedSettings(cs);
    if AllEncodable(ChangedSettings(cs)) { MergedRead(entry, stored.settings, ChangedSettings(cs)); }
    if Changed(cs, "values") {
      DeclaredIsSent(a);
      assert UpdateRequest(a, cs).yaml == OverrideText(a);
    } else {
      assert UpdateRequest(a, cs).yaml == None;
    }
  }

  lemma MergedRead(entry: CatalogEntry, stored: Fields, sent: Fields)
    requires AllEncodable(sent) && AsRead(entry, stored)
    ensures (forall k :: k in MergeKeys(stored, sent) ==> entry.read(k, MergeKeys(stored, sent)[k]) != BadKnob)
            <==> forall k :: k in sent && sent[k] != Null ==> entry.read(k, Wire(sent[k])) != BadKnob
  {
    hide Canonical, Encodable;
    var merged := MergeKeys(stored, sent);
    forall k | k in sent && sent[k] != Null ensures k in merged && merged[k] == Wire(sent[k]) {}
    forall k | k in merged && k !in sent ensures entry.read(k, merged[k]) != BadKnob {
      assert merged[k] == stored[k];
    }
  }

  /** One apply settles an add-on exactly when its request can express the changes. */
  lemma AddonSettlesIff(a: AddonDecl, stored: StoredAddon, entry: CatalogEntry)
    requires EntryOk(entry) && AsRead(entry, stored.settings)
    requires IsPlanned(a, stored, entry, Update)
    ensures var after := AfterEnable(entry, Some(stored), UpdateRequest(a, ChangesOf(a, stored, entry))).value;
      IsPlanned(a, after, entry, Unchanged) <==> AddonSendable(a, stored, entry)
  {
    hide ValuesEqual, AddonDiff, NaNFree, Encodable, EntryOk, MergeSettings, Changed, ChangedSettings, SettingKept, AcceptsAddon, AddonSendable;
    var req := UpdateRequest(a, ChangesOf(a, stored, entry));
    if AcceptsAddon(entry, stored.settings, req) {
      SettledIffKept(a, stored, entry);
    } else {
      NotSendable(a, stored, entry);
    }
  }

  lemma NotSendable(a: AddonDecl, stored: StoredAddon, entry: CatalogEntry)
    requires AsRead(entry, stored.settings) && !DeclaredOverride(a).Unreadable?
    requires !AcceptsAddon(entry, stored.settings, UpdateRequest(a, ChangesOf(a, stored, entry)))
    ensures !AddonSendable(a, stored, entry)
  {
    hide ValuesEqual, AddonDiff, NaNFree, Encodable, MergeSettings, Changed, ChangedSettings, AcceptsAddon;
    AcceptedIff(a, stored, entry);
  }

  lemma SettledIffKept(a: AddonDecl, stored: StoredAddon, entry: CatalogEntry)
    requires EntryOk(entry) && AsRead(entry, stored.settings) && IsPlanned(a, stored, entry, Update)
    requires AcceptsAddon(entry, stored.settings, UpdateRequest(a, ChangesOf(a, stored, entry)))
    ensures var after := Reconfigured(entry, Some(stored), UpdateRequest(a, ChangesOf(a, stored, entry)));
      IsPlanned(a, after, entry, Unchanged) <==> AddonSendable(a, stored, entry)
  {
    hide ValuesEqual, AddonDiff, NaNFree, Encodable, EntryOk, MergeSettings, Changed, ChangedSettings, SettingKept;
    var cs := ChangesOf(a, stored, entry);
    var req := UpdateRequest(a, cs);
    var after := Reconfigured(entry, Some(stored), req);
    AcceptedIff(a, stored, entry);
    OverrideSettlesIff(a, stored, entry);
    SettledMeans(a, after, entry);
    VersionSettles(a, stored, entry);
    assert req.settings == ChangedSettings(cs);
    forall k
      ensures k in a.settings ==>
        (ValuesEqual(Target(a.settings[k], entry.defaults, k), Get(after.settings, k))
         <==> (k in req.settings ==> SettingKept(entry, k, req.settings[k])))
      ensures k in req.settings ==> k in a.settings
    {
      SettingSettlesIff(a, stored, entry, k);
      SettingsSent(a, RowView(a.id, stored, entry), entry, k);
    }
  }

  /** An accepted update leaves the declared version and mode. */
  lemma VersionSettles(a: AddonDecl, stored: StoredAddon, entry: CatalogEntry)
    requires AcceptsAddon(entry, stored.settings, UpdateRequest(a, ChangesOf(a, stored, entry)))
    ensures var after := Reconfigured(entry, Some(stored), UpdateRequest(a, ChangesOf(a, stored, entry)));
      && (a.version.Some? ==> VersionChange(a.version.value, RowView(a.id, after, entry)) == None)
      && (a.mode == "" || a.mode == after.mode)
  {
    hide ValuesEqual, AddonDiff, NaNFree, Encodable, MergeSettings, Changed, ChangedSettings, OverrideText, ValuesChange;
    WholeFieldsSent(a, RowView(a.id, stored, entry), entry);
  }

  /** An add-on is unchanged when nothing it declares differs from the row. */
  lemma SettledMeans(a: AddonDecl, stored: StoredAddon, entry: CatalogEntry)
    ensures ChangesOf(a, stored, entry) == [] <==>
      && (a.version.Some? ==> VersionChange(a.version.value, RowView(a.id, stored, entry)) == None)
      && (a.mode == "" || a.mode == stored.mode)
      && ValuesChange(a, RowView(a.id, stored, entry)) == None
      && (forall k :: k in a.settings ==>
            ValuesEqual(Target(a.settings[k], entry.defaults, k), Get(stored.settings, k)))
  {
    hide ValuesEqual, AddonDiff;
    var row := RowView(a.id, stored, entry);
    AddonDiffMeans(a, row, entry);
    if forall k :: k in a.settings ==> ValuesEqual(Target(a.settings[k], entry.defaults, k), Get(stored.settings, k)) {
      assert SettingsChanges(a.settings, row.settings, entry.defaults) == {};
    } else {
      var k :| k in a.settings && !ValuesEqual(Target(a.settings[k], entry.defaults, k), Get(stored.settings, k));
      var c := FieldChange("settings", k, Get(stored.settings, k), a.settings[k]);
      assert c in SettingsChanges(a.settings, row.settings, entry.defaults);
    }
    if WholeChanges(a, row) != [] {
      assert WholeChanges(a, row)[0] in AddonChanges(a, row, entry);
    }
  }

  /** What the file does not declare keeps its stored value. */
  lemma UndeclaredIsKept(a: AddonDecl, stored: StoredAddon, entry: CatalogEntry)
    requires EntryOk(entry) && AsRead(entry, stored.settings)
    ensures var after := AfterEnable(entry, Some(stored), UpdateRequest(a, ChangesOf(a, stored, entry))).value;
      && (a.version == None ==> after.pin == stored.pin)
      && (a.mode == "" ==> after.mode == stored.mode)
      && (DeclaredOverride(a).NotDeclared? ==> after.yaml == stored.yaml)
      && (forall k :: k in stored.settings && k !in a.settings ==>
            k in after.settings && after.settings[k] == stored.settings[k])
  {
    hide ValuesEqual, AddonDiff, NaNFree, Encodable, EntryOk, MergeSettings;
    var row := RowView(a.id, stored, entry);
    WholeFieldsSent(a, row, entry);
    if AcceptsAddon(entry, stored.settings, UpdateRequest(a, ChangesOf(a, stored, entry))) {
      forall k | k in stored.settings && k !in a.settings
        ensures var after := MergeSettings(entry, stored.settings, UpdateRequest(a, ChangesOf(a, stored, entry)).settings);
          k in after && after[k] == stored.settings[k]
      {
        SettingSettlesIff(a, stored, entry, k);
      }
    }
  }

  // ----- a create -----

  /** One create settles an add-on exactly when its request can express the declaration. */
  lemma CreateSettlesIff(a: AddonDecl, entry: CatalogEntry)
    requires EntryOk(entry) && PlanFor(a, None, entry).Planned?
    ensures var after := AfterEnable(entry, None, CreateRequest(a));
      (after.Some? && IsPlanned(a, after.value, entry, Unchanged)) <==> CreateSendable(a, entry)
  {
    hide ValuesEqual, AddonDiff, NaNFree, Encodable, EntryOk, MergeSettings, SettingKept, AcceptsAddon, CreateSendable;
    if AcceptsAddon(entry, map[], CreateRequest(a)) {
      CreatedIffKept(a, entry);
    } else {
      CreateRefused(a, entry);
    }
  }

  lemma CreateRefused(a: AddonDecl, entry: CatalogEntry)
    requires !AcceptsAddon(entry, map[], CreateRequest(a))
    ensures !CreateSendable(a, entry)
  {
    hide ValuesEqual, NaNFree, Encodable, MergeSettings, Canonical;
    if AllEncodable(a.settings) { MergedRead(entry, map[], a.settings); }
  }

  lemma CreatedIffKept(a: AddonDecl, entry: CatalogEntry)
    requires EntryOk(entry) && PlanFor(a, None, entry).Planned? && AcceptsAddon(entry, map[], CreateRequest(a))
    ensures IsPlanned(a, Reconfigured(entry, None, CreateRequest(a)), entry, Unchanged) <==> CreateSendable(a, entry)
  {
    hide ValuesEqual, AddonDiff, NaNFree, Encodable, EntryOk, MergeSettings, SettingKept;
    var after := Reconfigured(entry, None, CreateRequest(a));
    SettledMeans(a, after, entry);
    CreatedOverrideIff(a, entry);
    forall k | k in a.settings
      ensures ValuesEqual(Target(a.settings[k], entry.defaults, k), Get(after.settings, k)) <==> SettingKept(entry, k, a.settings[k])
    {
      CreatedSettingIff(a.settings, entry, k);
    }
  }

  lemma CreatedOverrideIff(a: AddonDecl, entry: CatalogEntry)
    requires AcceptsAddon(entry, map[], CreateRequest(a)) && !DeclaredOverride(a).Unreadable?
    ensures ValuesChange(a, RowView(a.id, Reconfigured(entry, None, CreateRequest(a)), entry)) == None
            <==> (OverrideText(a).Some? ==> OverrideSettles(a))
  {
    hide ValuesEqual, NaNFree, Encodable, MergeSettings;
    if DeclaredOverride(a).Declared? {
      DeclaredIsSent(a);
      ValuesEqualIsEquivalence(MapOrNil(DeclaredOverride(a).m), Null, Null);
      EmptyIsNaNFree();
    }
  }

  lemma CreatedSettingIff(settings: Fields, entry: CatalogEntry, k: string)
    requires EntryOk(entry) && k in settings && AllEncodable(settings)
    ensures ValuesEqual(Target(settings[k], entry.defaults, k), Get(MergeSettings(entry, map[], settings), k))
            <==> SettingKept(entry, k, settings[k])
  {
    hide ValuesEqual, NaNFree, Encodable, MergeSettings, EntryOk, SettingKept, Canonical;
    MergedSetting(entry, map[], settings, k);
    SentSetting(entry, settings[k], k);
  }

  // ----- declarations that never settle -----

  /** A `values_file` of nothing but comments declares "no override", but its text is not one the server
      reads as that: an add-on that is not enabled is refused for ever, and over a stored override it is a
      change that no apply ever makes. */
  lemma CommentsNeverSettle(a: AddonDecl, stored: Option<StoredAddon>, entry: CatalogEntry)
    requires a.valuesFile.Some? && a.valuesFile.value != "" && a.content == NoContent
    requires PlanFor(a, stored, entry).Planned?
    requires stored.Some? ==> ValuesChange(a, RowView(a.id, stored.value, entry)).Some?
    ensures DeclaredOverride(a) == Declared(map[])
    ensures PlanFor(a, stored, entry).plan.action == if stored.Some? then Update else Create
    ensures AddonTarget(a, stored, entry) == stored
  {
    hide ValuesEqual, AddonDiff, NaNFree, Encodable, MergeSettings;
    if stored.Some? {
      WholeFieldsSent(a, RowView(a.id, stored.value, entry), entry);
      assert ChangesOf(a, stored.value, entry) != [];
    }
  }

  /** A setting the schema reads as something else is a change against whatever is stored. */
  lemma NotKeptAlwaysDiffers(a: AddonDecl, stored: StoredAddon, entry: CatalogEntry, k: string)
    requires AsRead(entry, stored.settings) && k in a.settings
    requires Encodable(a.settings[k]) && a.settings[k] != Null && !SettingKept(entry, k, a.settings[k])
    ensures ChangesOf(a, stored, entry) != []
  {
    hide AddonDiff, Encodable, NaNFree;
    var v := a.settings[k];
    SettledMeans(a, stored, entry);
    ValuesEqualMeans(v, Get(stored.settings, k));
    CanonicalIsNull(v);
    WireSettles(v);
  }

  /** A number written as text, where the schema reads text as a number: the add-on differs from every state
      an apply can leave it in. */
  lemma QuotedNumberNeverSettles(a: AddonDecl, stored: Option<StoredAddon>, entry: CatalogEntry)
    requires EntryOk(entry) && (stored.Some? ==> AsRead(entry, stored.value.settings))
    requires "replicas" in a.settings && a.settings["replicas"] == Str("3")
    requires entry.read("replicas", Str("3")) == Knob(Float(Finite(3.0)))
    ensures !AddonDeclOk(a, entry)
    ensures var after := AddonTarget(a, stored, entry); after.Some? ==> ChangesOf(a, after.value, entry) != []
  {
    hide AddonDiff, NaNFree, MergeSettings, EntryOk, PlanFor;
    TargetIsAsRead(a, stored, entry);
    var after := AddonTarget(a, stored, entry);
    assert !SettingKept(entry, "replicas", Str("3"));
    if after.Some? { NotKeptAlwaysDiffers(a, after.value, entry, "replicas"); }
  }

  lemma TargetIsAsRead(a: AddonDecl, stored: Option<StoredAddon>, entry: CatalogEntry)
    requires EntryOk(entry) && (stored.Some? ==> AsRead(entry, stored.value.settings))
    ensures AddonTarget(a, stored, entry).Some? ==> AsRead(entry, AddonTarget(a, stored, entry).value.settings)
  {
    hide MergeSettings, EntryOk, PlanFor, Encodable, Canonical;
    var o := PlanFor(a, stored, entry);
    if o.Planned? && o.plan.request.Some? && AcceptsAddon(entry, SettingsOf(stored), o.plan.request.value) {
      EnabledIsAsRead(entry, stored, o.plan.request.value);
    }
  }

  lemma EnabledIsAsRead(entry: CatalogEntry, stored: Option<StoredAddon>, req: AddonRequest)
    requires EntryOk(entry) && AcceptsAddon(entry, SettingsOf(stored), req)
    ensures AsRead(entry, Reconfigured(entry, stored, req).settings)
  {
    hide MergeSettings, EntryOk, Encodable, Canonical;
    MergedIsAsRead(entry, SettingsOf(stored), req.settings);
  }

  // ----- the state an apply aims for -----

  /** Settings that are as declared, as read, and complete with the defaults. */
  predicate AsDeclared(a: AddonDecl, entry: CatalogEntry, m: Fields) {
    && AsRead(entry, m) && entry.defaults.Keys <= m.Keys
    && forall k :: k in a.settings ==> ValuesEqual(Target(a.settings[k], entry.defaults, k), Get(m, k))
  }

  /** The declaration is one an apply can settle from any stored state: each setting is kept and not
      secret, no rule that spans settings refuses any that are as declared, the version and the mode are ones
      the server takes, and the override can be sent. */
  ghost predicate AddonDeclOk(a: AddonDecl, entry: CatalogEntry) {
    && AllKept(entry, a.settings) && (forall k :: k in a.settings ==> k !in entry.secretKeys)
    && (forall m :: AsDeclared(a, entry, m) ==> entry.consistent(m))
    && (a.version.Some? ==> VersionTaken(entry, a.version.value)) && ModeTaken(a.mode)
    && !DeclaredOverride(a).Unreadable?
    && (DeclaredOverride(a).Declared? ==> OverrideSettles(a))
  }

  ghost function PlanFor(a: AddonDecl, stored: Option<StoredAddon>, entry: CatalogEntry): AddonOutcome {
    PlanAddon(a, if stored.Some? then Some(RowView(a.id, stored.value, entry)) else None, entry)
  }

  /** What is stored once the planned request, if any, has been served. */
  ghost function AddonTarget(a: AddonDecl, stored: Option<StoredAddon>, entry: CatalogEntry): Option<StoredAddon> {
    var o := PlanFor(a, stored, entry);
    if o.Planned? && o.plan.request.Some? then AfterEnable(entry, stored, o.plan.request.value) else stored
  }

  /** A sound declaration is planned without a problem, its request is accepted, and once it is served
      the add-on is unchanged: nothing is left to aim for. */
  lemma AddonTargetSettles(a: AddonDecl, stored: Option<StoredAddon>, entry: CatalogEntry)
    requires AddonDeclOk(a, entry) && EntryOk(entry) && (stored.Some? ==> AsRead(entry, stored.value.settings))
    ensures PlanFor(a, stored, entry).Planned?
    ensures PlanFor(a, stored, entry).plan.request.Some? ==>
      AcceptsAddon(entry, SettingsOf(stored), PlanFor(a, stored, entry).plan.request.value)
    ensures AddonTarget(a, stored, entry).Some?
    ensures IsPlanned(a, AddonTarget(a, stored, entry).value, entry, Unchanged)
    ensures AddonTarget(a, AddonTarget(a, stored, entry), entry) == AddonTarget(a, stored, entry)
  {
    hide AddonDeclOk, EntryOk, AcceptsAddon, AsRead, AddonDiff, Reconfigured, ValuesEqual;
    if stored == None {
      CreateSettles(a, entry);
    } else {
      UpdateSettles(a, stored.value, entry);
    }
  }

  lemma UpdateSettles(a: AddonDecl, stored: StoredAddon, entry: CatalogEntry)
    requires AddonDeclOk(a, entry) && EntryOk(entry) && AsRead(entry, stored.settings)
    ensures var o := PlanFor(a, Some(stored), entry);
      o.Planned? && (o.plan.request.Some? ==> AcceptsAddon(entry, stored.settings, o.plan.request.value))
    ensures IsPlanned(a, AddonTarget(a, Some(stored), entry).value, entry, Unchanged)
  {
    hide ValuesEqual, AddonDiff, NaNFree, Encodable, EntryOk, MergeSettings, AddonSendable, AcceptsAddon, ChangedSettings, SettingKept;
    if ChangesOf(a, stored, entry) != [] {
      SoundIsSendable(a, stored, entry);
      AddonSettlesIff(a, stored, entry);
      SendableIsTaken(a, stored, entry);
    }
  }

  lemma SendableIsTaken(a: AddonDecl, stored: StoredAddon, entry: CatalogEntry)
    requires AsRead(entry, stored.settings) && !DeclaredOverride(a).Unreadable? && AddonSendable(a, stored, entry)
    ensures AcceptsAddon(entry, stored.settings, UpdateRequest(a, ChangesOf(a, stored, entry)))
  {
    hide ValuesEqual, AddonDiff, NaNFree, Encodable, MergeSettings, Changed, ChangedSettings, AcceptsAddon;
    AcceptedIff(a, stored, entry);
  }

  lemma SoundIsSendable(a: AddonDecl, stored: StoredAddon, entry: CatalogEntry)
    requires AddonDeclOk(a, entry) && EntryOk(entry) && AsRead(entry, stored.settings)
    ensures AddonSendable(a, stored, entry)
  {
    hide ValuesEqual, AddonDiff, NaNFree, Encodable, EntryOk, MergeSettings, Changed, ChangedSettings, SettingKept, Canonical;
    var cs := ChangesOf(a, stored, entry);
    var row := RowView(a.id, stored, entry);
    WholeFieldsSent(a, row, entry);
    assert UpdateRequest(a, cs).settings == ChangedSettings(cs);
    forall k | k in ChangedSettings(cs) ensures SettingKept(entry, k, ChangedSettings(cs)[k]) {
      SettingsSent(a, row, entry, k);
    }
    KeptIsEncodable(entry, ChangedSettings(cs));
    var m := MergeSettings(entry, stored.settings, ChangedSettings(cs));
    MergedIsAsRead(entry, stored.settings, ChangedSettings(cs));
    MergedHasDefaults(entry, stored.settings, ChangedSettings(cs));
    forall k | k in a.settings ensures ValuesEqual(Target(a.settings[k], entry.defaults, k), Get(m, k)) {
      SettingSettlesIff(a, stored, entry, k);
    }
    assert AsDeclared(a, entry, m);
  }

  lemma KeptIsEncodable(entry: CatalogEntry, m: Fields)
    requires AllKept(entry, m)
    ensures AllEncodable(m)
  {
    hide Encodable, ValuesEqual;
  }

  lemma MergedHasDefaults(entry: CatalogEntry, stored: Fields, sent: Fields)
    requires AllEncodable(sent)
    ensures entry.defaults.Keys <= MergeSettings(entry, stored, sent).Keys
  {
    hide Encodable;
  }

  lemma CreateSettles(a: AddonDecl, entry: CatalogEntry)
    requires AddonDeclOk(a, entry) && EntryOk(entry)
    ensures PlanFor(a, None, entry).Planned? && AcceptsAddon(entry, map[], CreateRequest(a))
    ensures IsPlanned(a, Reconfigured(entry, None, CreateRequest(a)), entry, Unchanged)
  {
    hide ValuesEqual, AddonDiff, NaNFree, Encodable, EntryOk, MergeSettings, SettingKept, Canonical;
    if DeclaredOverride(a).Declared? { DeclaredIsSent(a); }
    KeptIsEncodable(entry, a.settings);
    var m := MergeSettings(entry, map[], a.settings);
    MergedIsAsRead(entry, map[], a.settings);
    MergedHasDefaults(entry, map[], a.settings);
    forall k | k in a.settings ensures ValuesEqual(Target(a.settings[k], entry.defaults, k), Get(m, k)) {
      CreatedSettingIff(a.settings, entry, k);
    }
    assert AsDeclared(a, entry, m);
    CreateSettlesIff(a, entry);
  }

  // ----- the condition is exact -----

  ghost predicate EveryUpdateSendable(a: AddonDecl, entry: CatalogEntry) {
    forall stored: StoredAddon :: AsRead(entry, stored.settings) && IsPlanned(a, stored, entry, Update) ==> AddonSendable(a, stored, entry)
  }

  /** Of an add-on that declares a setting, `AddonDeclOk` is that very condition: its create settles it, and
      so does its update of whatever is stored. */
  lemma AddonDeclOkIff(a: AddonDecl, entry: CatalogEntry)
    requires EntryOk(entry) && exists k :: k in a.settings && a.settings[k] != Null
    ensures AddonDeclOk(a, entry) <==>
      PlanFor(a, None, entry).Planned? && CreateSendable(a, entry) && EveryUpdateSendable(a, entry)
  {
    hide EntryOk, AddonSendable, CreateSendable, AsRead, AddonDeclOk, IsPlanned, AcceptsAddon, Reconfigured;
    if AddonDeclOk(a, entry) {
      CreateSettles(a, entry);
      CreateSettlesIff(a, entry);
      forall stored: StoredAddon | AsRead(entry, stored.settings) && IsPlanned(a, stored, entry, Update) ensures AddonSendable(a, stored, entry) {
        SoundIsSendable(a, stored, entry);
      }
    }
    if PlanFor(a, None, entry).Planned? && CreateSendable(a, entry) && EveryUpdateSendable(a, entry) {
      var k :| k in a.settings && a.settings[k] != Null;
      NoRuleRefuses(a, entry, k);
      SendableIsSound(a, entry);
    }
  }

  lemma SendableIsSound(a: AddonDecl, entry: CatalogEntry)
    requires PlanFor(a, None, entry).Planned? && CreateSendable(a, entry)
    requires forall m :: AsDeclared(a, entry, m) ==> entry.consistent(m)
    ensures AddonDeclOk(a, entry)
  {
    hide AddonDiff, MergeSettings, AsDeclared, SettingKept, NaNFree;
    if DeclaredOverride(a).Declared? { DeclaredIsSent(a); }
  }

  /** Settings that are as declared are what some update leaves: of the same ones without `k`. */
  lemma NoRuleRefuses(a: AddonDecl, entry: CatalogEntry, k: string)
    requires EntryOk(entry) && PlanFor(a, None, entry).Planned? && CreateSendable(a, entry) && EveryUpdateSendable(a, entry)
    requires k in a.settings && a.settings[k] != Null
    ensures forall m :: AsDeclared(a, entry, m) ==> entry.consistent(m)
  {
    hide EntryOk, CreateSendable, AsDeclared, PlanFor, IsPlanned, AddonDiff, MergeSettings, AsRead;
    forall m | AsDeclared(a, entry, m) ensures entry.consistent(m) {
      var stored := StoredAddon("managed", None, m - {k}, None);
      WithoutOne(a, entry, k, m);
      assert IsPlanned(a, stored, entry, Update) && AsRead(entry, stored.settings);
      assert AddonSendable(a, stored, entry);
    }
  }

  lemma WithoutOne(a: AddonDecl, entry: CatalogEntry, k: string, m: Fields)
    requires EntryOk(entry) && PlanFor(a, None, entry).Planned? && CreateSendable(a, entry)
    requires k in a.settings && a.settings[k] != Null && AsDeclared(a, entry, m)
    ensures var stored := StoredAddon("managed", None, m - {k}, None);
      && AsRead(entry, stored.settings) && IsPlanned(a, stored, entry, Update)
      && AllEncodable(ChangedSettings(ChangesOf(a, stored, entry)))
      && MergeSettings(entry, stored.settings, ChangedSettings(ChangesOf(a, stored, entry))) == m
  {
    hide EntryOk, ValuesEqual, AddonDiff, MergeSettings, NaNFree, Encodable, Canonical, Changed, ChangedSettings, OverrideText, ValuesChange, VersionChange;
    var stored := StoredAddon("managed", None, m - {k}, None);
    var row := RowView(a.id, stored, entry);
    var sent := ChangedSettings(ChangesOf(a, stored, entry));
    NotNull(a.settings[k]);
    SettledMeans(a, stored, entry);
    assert UpdateRequest(a, ChangesOf(a, stored, entry)).settings == sent;
    forall j ensures j in sent <==> j == k {
      SettingsSent(a, row, entry, j);
      if j != k && j in a.settings { assert Get(m - {k}, j) == Get(m, j); }
    }
    SettingsSent(a, row, entry, k);
    assert sent == map[k := a.settings[k]];
    KeptIsEncodable(entry, a.settings);
    PutBack(entry, m, k, a.settings[k]);
  }

  lemma PutBack(entry: CatalogEntry, m: Fields, k: string, v: Value)
    requires EntryOk(entry) && AsRead(entry, m) && entry.defaults.Keys <= m.Keys
    requires v != Null && SettingKept(entry, k, v) && ValuesEqual(v, Get(m, k))
    ensures MergeSettings(entry, m - {k}, map[k := v]) == m
  {
    hide ValuesEqual, NaNFree, Encodable, Canonical;
    NotNull(v);
    assert k in m;
    ValuesEqualMeans(v, m[k]);
    ValuesEqualMeans(v, entry.read(k, Wire(v)).value);
    assert m[k] == entry.read(k, Wire(v)).value;
    assert AllEncodable(map[k := v]);
    assert MergeKeys(m - {k}, map[k := v]) == m[k := Wire(v)];
    assert ReadSettings(entry, m[k := Wire(v)]) == m;
  }
}
