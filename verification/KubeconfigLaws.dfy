/** What a merge keeps of the user's kubeconfig, and what it leaves working
    (apps/cli/cmd/clusters_kubeconfig_write.go:85-183). */
module KubeconfigLaws {
  import opened Options
  import opened Kubeconfig

  predicate IsSection(key: string) {
    key == CLUSTERS || key == USERS || key == CONTEXTS
  }

  /** The keys a merge writes. */
  predicate Owned(key: string) {
    IsSection(key) || key == CURRENT
  }

  // ----- what is dropped and what is kept -----

  lemma {:induction false} KeptMeans(items: seq<Yaml>, name: string)
    ensures forall y :: y in Kept(items, name) <==> y in items && !Called(y, name)
  {
    if items != [] { KeptMeans(items[..|items| - 1], name); }
  }

  lemma {:induction false} KeptNothing(items: seq<Yaml>, name: string)
    requires forall y :: y in items ==> !Called(y, name)
    ensures Kept(items, name) == items
  {
    if items != [] {
      KeptNothing(items[..|items| - 1], name);
      assert items == items[..|items| - 1] + [items[|items| - 1]];
    }
  }

  lemma {:induction false} KeptAppend(a: seq<Yaml>, y: Yaml, name: string)
    ensures Kept(a + [y], name) == Kept(a, name) + if Called(y, name) then [] else [y]
  {
    assert (a + [y])[..|a + [y]| - 1] == a;
  }

  /** Merging the entry again changes nothing. */
  lemma KeptAgain(items: seq<Yaml>, entry: Yaml, name: string)
    requires Called(entry, name)
    ensures Kept(Kept(items, name) + [entry], name) == Kept(items, name)
  {
    hide Called;
    KeptAppend(Kept(items, name), entry, name);
    KeptMeans(items, name);
    KeptNothing(Kept(items, name), name);
  }

  // ----- one section -----

  /** The merge is refused exactly when the minted document lacks its one entry in some section, or the
      user's has something there that is not a list. */
  predicate Mergeable(content: seq<Yaml>, incoming: seq<Yaml>, key: string) {
    OneEntry(incoming, key).Some? && SectionItems(content, key).Some?
  }

  function NewSection(content: seq<Yaml>, incoming: seq<Yaml>, key: string, name: string): Yaml
    requires Mergeable(content, incoming, key)
  {
    Sequence(Kept(SectionItems(content, key).value, name) + [OneEntry(incoming, key).value])
  }

  lemma SectionMeans(content: seq<Yaml>, incoming: seq<Yaml>, key: string, name: string, other: string)
    requires Paired(content) && MergedSection(content, incoming, key, name).Some?
    ensures var m := MergedSection(content, incoming, key, name).value;
      && Paired(m) && |content| <= |m|
      && Mergeable(content, incoming, key) && Value(m, key) == Some(NewSection(content, incoming, key, name))
      && (other != key ==> Value(m, other) == Value(content, other) && ValueAt(m, other) == ValueAt(content, other))
      && (forall i :: 0 <= i < |content| && ValueAt(content, key) != Some(i) ==> m[i] == content[i])
  {
    hide ValueAt, With, Kept, Paired;
    var y := Sequence(Kept(SectionItems(content, key).value, name) + [OneEntry(incoming, key).value]);
    WithMeans(content, key, y);
    if other != key { WithOther(content, key, y, other); }
  }

  lemma SameValueSameItems(a: seq<Yaml>, b: seq<Yaml>, key: string)
    requires Value(a, key) == Value(b, key)
    ensures SectionItems(a, key) == SectionItems(b, key)
  {
  }

  predicate SectionPlace(content: seq<Yaml>, i: nat) {
    ValueAt(content, CLUSTERS) == Some(i) || ValueAt(content, USERS) == Some(i) || ValueAt(content, CONTEXTS) == Some(i)
  }

  lemma SectionsMean(content: seq<Yaml>, incoming: seq<Yaml>, name: string, key: string)
    requires Paired(content)
    ensures MergedSections(content, incoming, name).Some? <==>
      Mergeable(content, incoming, CLUSTERS) && Mergeable(content, incoming, USERS) && Mergeable(content, incoming, CONTEXTS)
    ensures MergedSections(content, incoming, name).Some? ==>
      var m := MergedSections(content, incoming, name).value;
      && Paired(m) && |content| <= |m|
      && (if IsSection(key) then Value(m, key) == Some(NewSection(content, incoming, key, name))
          else Value(m, key) == Value(content, key) && ValueAt(m, key) == ValueAt(content, key))
      && (forall i :: 0 <= i < |content| && !SectionPlace(content, i) ==> m[i] == content[i])
  {
    hide ValueAt, With, Kept, Paired, Value, OneEntry, SectionItems;
    var c1 := MergedSection(content, incoming, CLUSTERS, name);
    if c1.Some? {
      SectionMeans(content, incoming, CLUSTERS, name, key);
      SectionMeans(content, incoming, CLUSTERS, name, USERS);
      SectionMeans(content, incoming, CLUSTERS, name, CONTEXTS);
      SameValueSameItems(content, c1.value, USERS);
      SameValueSameItems(content, c1.value, CONTEXTS);
      var c2 := MergedSection(c1.value, incoming, USERS, name);
      if c2.Some? {
        SectionMeans(c1.value, incoming, USERS, name, key);
        SectionMeans(c1.value, incoming, USERS, name, CONTEXTS);
        SameValueSameItems(c1.value, c2.value, CONTEXTS);
        if MergedSection(c2.value, incoming, CONTEXTS, name).Some? {
          SectionMeans(c2.value, incoming, CONTEXTS, name, key);
        }
      }
    }
  }

  // ----- the whole merge -----

  lemma DefaultMeans(content: seq<Yaml>, key: string, text: string, other: string)
    requires Paired(content)
    ensures var m := WithDefault(content, key, text);
      && Paired(m) && |content| <= |m| && m[..|content|] == content
      && Value(m, key) == (if Value(content, key) == None then Some(Scalar(STR, text)) else Value(content, key))
      && (other != key ==> Value(m, other) == Value(content, other) && ValueAt(m, other) == ValueAt(content, other))
  {
    hide ValueAt, Paired;
    if Value(content, key) == None {
      WithMeans(content, key, Scalar(STR, text));
      if other != key { WithOther(content, key, Scalar(STR, text), other); }
    }
  }

  /** A key's value, the two a kubeconfig cannot be without filled in. */
  function Defaulted(content: seq<Yaml>, key: string): Option<Yaml> {
    if Value(content, key).Some? then Value(content, key)
    else if key == "apiVersion" then Some(Scalar(STR, "v1"))
    else if key == "kind" then Some(Scalar(STR, "Config"))
    else None
  }

  lemma FinishedMeans(content: seq<Yaml>, name: string, key: string)
    requires Paired(content)
    ensures var m := Finished(content, name);
      && Paired(m) && |content| <= |m|
      && Value(m, CURRENT) == Some(Scalar(STR, name))
      && (key != CURRENT ==> Value(m, key) == Defaulted(content, key))
      && (forall i :: 0 <= i < |content| && ValueAt(content, CURRENT) != Some(i) ==> m[i] == content[i])
  {
    hide ValueAt, With, Paired, WithDefault, Value;
    var c1 := WithDefault(content, "apiVersion", "v1");
    var c2 := WithDefault(c1, "kind", "Config");
    DefaultMeans(content, "apiVersion", "v1", key);
    DefaultMeans(content, "apiVersion", "v1", "kind");
    DefaultMeans(content, "apiVersion", "v1", CURRENT);
    DefaultMeans(c1, "kind", "Config", key);
    DefaultMeans(c1, "kind", "Config", CURRENT);
    WithMeans(c2, CURRENT, Scalar(STR, name));
    if key != CURRENT { WithOther(c2, CURRENT, Scalar(STR, name), key); }
    forall i | 0 <= i < |content| ensures c2[i] == content[i] { assert c1[i] == c1[..|content|][i]; assert c2[i] == c2[..|c1|][i]; }
  }

  lemma MergedIff(content: seq<Yaml>, incoming: seq<Yaml>, name: string)
    requires Paired(content)
    ensures Merged(content, incoming, name).Some? <==>
      Mergeable(content, incoming, CLUSTERS) && Mergeable(content, incoming, USERS) && Mergeable(content, incoming, CONTEXTS)
  {
    hide Mergeable, MergedSections, Finished;
    SectionsMean(content, incoming, name, CLUSTERS);
  }

  lemma DefaultedSame(a: seq<Yaml>, b: seq<Yaml>, key: string)
    ensures Value(a, key) == Value(b, key) ==> Defaulted(a, key) == Defaulted(b, key)
    ensures Value(a, key).Some? ==> Defaulted(a, key) == Value(a, key)
    ensures Value(b, key).Some? ==> Defaulted(b, key) == Value(b, key)
    ensures Defaulted(a, "apiVersion").Some? && Defaulted(a, "kind").Some?
  {
    hide Value;
  }

  /** Every key of the merged document: the sections have the old entries not called `name`, in order, and
      then the minted one; `current-context` is `name`; every other key keeps its value, except that
      `apiVersion` and `kind` are filled in. */
  lemma MergedMeans(content: seq<Yaml>, incoming: seq<Yaml>, name: string, key: string)
    requires Paired(content) && Merged(content, incoming, name).Some?
    ensures var m := Merged(content, incoming, name).value;
      && Paired(m)
      && (IsSection(key) ==> Mergeable(content, incoming, key) && Value(m, key) == Some(NewSection(content, incoming, key, name)))
      && Value(m, CURRENT) == Some(Scalar(STR, name))
      && (!Owned(key) ==> Value(m, key) == Defaulted(content, key))
  {
    hide ValueAt, With, Kept, Paired, Value, OneEntry, SectionItems, MergedSections, Finished, Mergeable, NewSection;
    SectionsMean(content, incoming, name, key);
    DefaultedSame(content, MergedSections(content, incoming, name).value, key);
    FinishedMeans(MergedSections(content, incoming, name).value, name, key);
  }

  /** Nothing moves: a place of the old document that is not the value of an owned key is as it was. */
  lemma NothingElseMoves(content: seq<Yaml>, incoming: seq<Yaml>, name: string, i: nat)
    requires Paired(content) && Merged(content, incoming, name).Some? && i < |content|
    requires forall key :: Owned(key) ==> ValueAt(content, key) != Some(i)
    ensures i < |Merged(content, incoming, name).value| && Merged(content, incoming, name).value[i] == content[i]
  {
    hide ValueAt, With, Kept, Paired, Value, OneEntry, SectionItems, MergedSections, Finished, Mergeable;
    SectionsMean(content, incoming, name, CURRENT);
    FinishedMeans(MergedSections(content, incoming, name).value, name, CURRENT);
    assert Owned(CLUSTERS) && Owned(USERS) && Owned(CONTEXTS) && Owned(CURRENT);
  }

  // ----- idempotence -----

  /** The minted document is filed under the name. */
  predicate Filed(incoming: seq<Yaml>, name: string) {
    forall key :: key in {CLUSTERS, USERS, CONTEXTS} ==> OneEntry(incoming, key).Some? && Called(OneEntry(incoming, key).value, name)
  }

  lemma SectionAgain(content: seq<Yaml>, incoming: seq<Yaml>, key: string, name: string, items: seq<Yaml>)
    requires Paired(content) && OneEntry(incoming, key).Some? && Called(OneEntry(incoming, key).value, name)
    requires Value(content, key) == Some(Sequence(Kept(items, name) + [OneEntry(incoming, key).value]))
    ensures MergedSection(content, incoming, key, name) == Some(content)
  {
    hide ValueAt, Called, Kept, With;
    var entry := OneEntry(incoming, key).value;
    KeptAgain(items, entry, name);
    WithAgain(content, key, Sequence(Kept(items, name) + [entry]));
  }

  /** Merging the same kubeconfig twice is merging it once. */
  lemma MergeIsIdempotent(content: seq<Yaml>, incoming: seq<Yaml>, name: string)
    requires Paired(content) && Filed(incoming, name) && Merged(content, incoming, name).Some?
    ensures Merged(Merged(content, incoming, name).value, incoming, name) == Merged(content, incoming, name)
  {
    hide ValueAt, With, Kept, Paired, Value, OneEntry, SectionItems, Called, Merged, MergedSection, WithDefault;
    var m := Merged(content, incoming, name).value;
    MergedMeans(content, incoming, name, CLUSTERS);
    MergedMeans(content, incoming, name, USERS);
    MergedMeans(content, incoming, name, CONTEXTS);
    SectionAgain(m, incoming, CLUSTERS, name, SectionItems(content, CLUSTERS).value);
    SectionAgain(m, incoming, USERS, name, SectionItems(content, USERS).value);
    SectionAgain(m, incoming, CONTEXTS, name, SectionItems(content, CONTEXTS).value);
    assert MergedSections(m, incoming, name) == Some(m);
    FinishedAgain(content, incoming, name);
    MergedUnfolds(m, incoming, name);
  }

  lemma MergedUnfolds(content: seq<Yaml>, incoming: seq<Yaml>, name: string)
    requires MergedSections(content, incoming, name) == Some(content)
    ensures Merged(content, incoming, name) == Some(Finished(content, name))
  {
  }

  lemma FinishedAgain(content: seq<Yaml>, incoming: seq<Yaml>, name: string)
    requires Paired(content) && Merged(content, incoming, name).Some?
    ensures Finished(Merged(content, incoming, name).value, name) == Merged(content, incoming, name).value
  {
    hide ValueAt, With, Kept, Paired, Value, OneEntry, SectionItems, Merged;
    var m := Merged(content, incoming, name).value;
    MergedMeans(content, incoming, name, "apiVersion");
    MergedMeans(content, incoming, name, "kind");
    DefaultedSame(content, content, "kind");
    WithAgain(m, CURRENT, Scalar(STR, name));
  }

  // ----- what still works -----

  predicate HasEntry(content: seq<Yaml>, key: string, name: string) {
    var items := SectionItems(content, key);
    items.Some? && exists y :: y in items.value && Called(y, name)
  }

  /** The text under a key of a mapping inside an entry. */
  function Inner(y: Yaml, key: string): Option<string> {
    if !y.Mapping? then None
    else
      var v := Value(y.content, key);
      if v == None then None else Some(Text(v.value))
  }

  function ContextBody(y: Yaml): Yaml {
    if y.Mapping? && Value(y.content, "context").Some? then Value(y.content, "context").value else Mapping([])
  }

  /** The context entry names a cluster and a user the document has. */
  predicate EntryResolves(content: seq<Yaml>, y: Yaml) {
    var cluster, user := Inner(ContextBody(y), "cluster"), Inner(ContextBody(y), "user");
    cluster.Some? && user.Some? && HasEntry(content, CLUSTERS, cluster.value) && HasEntry(content, USERS, user.value)
  }

  predicate ContextResolves(content: seq<Yaml>, name: string) {
    var items := SectionItems(content, CONTEXTS);
    items.Some? && exists y :: y in items.value && Called(y, name) && EntryResolves(content, y)
  }

  /** The minted context points at the minted cluster and user. */
  predicate PointsAtItself(incoming: seq<Yaml>, name: string) {
    && OneEntry(incoming, CONTEXTS).Some?
    && Inner(ContextBody(OneEntry(incoming, CONTEXTS).value), "cluster") == Some(name)
    && Inner(ContextBody(OneEntry(incoming, CONTEXTS).value), "user") == Some(name)
  }

  lemma EntriesStay(content: seq<Yaml>, incoming: seq<Yaml>, name: string, key: string, other: string)
    requires Paired(content) && Filed(incoming, name) && Merged(content, incoming, name).Some? && IsSection(key)
    ensures HasEntry(content, key, other) || other == name ==> HasEntry(Merged(content, incoming, name).value, key, other)
  {
    hide ValueAt, Kept, Paired, Value, OneEntry, Called, Merged;
    var m := Merged(content, incoming, name).value;
    MergedMeans(content, incoming, name, key);
    SectionRead(m, key, Kept(SectionItems(content, key).value, name) + [OneEntry(incoming, key).value]);
    KeptMeans(SectionItems(content, key).value, name);
    if other == name {
      assert OneEntry(incoming, key).value in SectionItems(m, key).value;
    } else if HasEntry(content, key, other) {
      var y :| y in SectionItems(content, key).value && Called(y, other);
      OneName(y, name, other);
      assert y in SectionItems(m, key).value;
    }
  }

  lemma SectionRead(content: seq<Yaml>, key: string, items: seq<Yaml>)
    requires Value(content, key) == Some(Sequence(items))
    ensures SectionItems(content, key) == Some(items)
  {
  }

  lemma OneName(y: Yaml, a: string, b: string)
    requires Called(y, b) && a != b
    ensures !Called(y, a)
  {
  }

  /** Every context that resolved to a cluster and a user still does — also one that shares the replaced
      cluster or user — and so does the new one. */
  lemma ContextsStillResolve(content: seq<Yaml>, incoming: seq<Yaml>, name: string, context: string)
    requires Paired(content) && Filed(incoming, name) && PointsAtItself(incoming, name)
    requires Merged(content, incoming, name).Some?
    requires ContextResolves(content, context) || context == name
    ensures ContextResolves(Merged(content, incoming, name).value, context)
  {
    hide ValueAt, Kept, Paired, Value, OneEntry, Called, Merged, Inner, ContextBody, HasEntry;
    var m := Merged(content, incoming, name).value;
    MergedMeans(content, incoming, name, CONTEXTS);
    SectionRead(m, CONTEXTS, Kept(SectionItems(content, CONTEXTS).value, name) + [OneEntry(incoming, CONTEXTS).value]);
    KeptMeans(SectionItems(content, CONTEXTS).value, name);
    if context == name {
      var y := OneEntry(incoming, CONTEXTS).value;
      EntriesStay(content, incoming, name, CLUSTERS, name);
      EntriesStay(content, incoming, name, USERS, name);
      assert y in SectionItems(m, CONTEXTS).value && EntryResolves(m, y);
    } else {
      var y :| y in SectionItems(content, CONTEXTS).value && Called(y, context) && EntryResolves(content, y);
      OneName(y, name, context);
      EntriesStay(content, incoming, name, CLUSTERS, Inner(ContextBody(y), "cluster").value);
      EntriesStay(content, incoming, name, USERS, Inner(ContextBody(y), "user").value);
      assert y in SectionItems(m, CONTEXTS).value && EntryResolves(m, y);
    }
  }

  // ----- renaming the minted document -----

  /** What the parser promises: keys and values alternate, at every depth. */
  predicate Parsed(y: Yaml) {
    match y
    case Mapping(content) => Paired(content) && forall i :: 0 <= i < |content| ==> Parsed(content[i])
    case Sequence(items) => forall i :: 0 <= i < |items| ==> Parsed(items[i])
    case _ => true
  }

  lemma ParsedValue(content: seq<Yaml>, key: string)
    requires Parsed(Mapping(content))
    ensures Paired(content) && (Value(content, key).Some? ==> Parsed(Value(content, key).value))
  {
  }

  lemma ParsedEntry(content: seq<Yaml>, key: string)
    requires Parsed(Mapping(content)) && OneMapping(content, key).Some?
    ensures Parsed(Mapping(OneMapping(content, key).value))
  {
    hide ValueAt;
    ParsedValue(content, key);
  }

  lemma ParsedWith(content: seq<Yaml>, key: string, y: Yaml)
    requires Parsed(Mapping(content)) && Parsed(y)
    ensures Parsed(Mapping(With(content, key, y)))
  {
    hide ValueAt;
  }

  lemma NamedMeans(content: seq<Yaml>, name: string)
    requires Parsed(Mapping(content))
    ensures Called(Named(content, name), name) && Parsed(Named(content, name)) && Named(content, name).Mapping?
  {
    hide ValueAt, With;
    ParsedWith(content, "name", Scalar(STR, name));
    WithMeans(content, "name", Scalar(STR, name));
  }

  lemma RenamedSectionMeans(content: seq<Yaml>, key: string, name: string, other: string)
    requires Parsed(Mapping(content)) && RenamedSection(content, key, name).Some?
    ensures var m := RenamedSection(content, key, name).value;
      && Parsed(Mapping(m))
      && OneMapping(content, key).Some? && Value(m, key) == Some(Sequence([Named(OneMapping(content, key).value, name)]))
      && Called(Named(OneMapping(content, key).value, name), name)
      && Named(OneMapping(content, key).value, name).Mapping?
      && OneMapping(m, key) == Some(Named(OneMapping(content, key).value, name).content)
      && (other != key ==> Value(m, other) == Value(content, other))
  {
    hide ValueAt, With, Called, Named;
    var e := OneMapping(content, key).value;
    ParsedEntry(content, key);
    NamedMeans(e, name);
    ParsedSingle(Named(e, name));
    ParsedWith(content, key, Sequence([Named(e, name)]));
    WithMeans(content, key, Sequence([Named(e, name)]));
    if other != key { WithOther(content, key, Sequence([Named(e, name)]), other); }
  }

  lemma ParsedSingle(y: Yaml)
    requires Parsed(y)
    ensures Parsed(Sequence([y]))
  {
  }

  lemma PointedMeans(context: seq<Yaml>, name: string)
    requires Parsed(Mapping(context))
    ensures Inner(Mapping(Pointed(context, name)), "cluster") == Some(name)
    ensures Inner(Mapping(Pointed(context, name)), "user") == Some(name)
  {
    hide ValueAt, With;
    ParsedWith(context, "cluster", Scalar(STR, name));
    WithMeans(context, "cluster", Scalar(STR, name));
    WithMeans(With(context, "cluster", Scalar(STR, name)), "user", Scalar(STR, name));
    WithOther(With(context, "cluster", Scalar(STR, name)), "user", Scalar(STR, name), "cluster");
  }

  /** The context entry, renamed and pointed. */
  lemma EntryPointed(entry: seq<Yaml>, name: string)
    requires Parsed(Mapping(entry)) && Called(Mapping(entry), name)
    requires Value(entry, "context").Some? && Value(entry, "context").value.Mapping?
    ensures var y := Mapping(With(entry, "context", Mapping(Pointed(Value(entry, "context").value.content, name))));
      Called(y, name) && Inner(ContextBody(y), "cluster") == Some(name) && Inner(ContextBody(y), "user") == Some(name)
  {
    hide ValueAt, With, Pointed;
    ParsedValue(entry, "context");
    var context := Value(entry, "context").value.content;
    PointedMeans(context, name);
    WithMeans(entry, "context", Mapping(Pointed(context, name)));
    WithOther(entry, "context", Mapping(Pointed(context, name)), "name");
  }

  /** A renamed document can be merged under its name: one entry called so in each section, a context that
      points at them, and nothing else touched. */
  lemma RenamedMeans(content: seq<Yaml>, name: string, key: string)
    requires Parsed(Mapping(content)) && Renamed(content, name).Some?
    ensures var m := Renamed(content, name).value;
      && Filed(m, name) && PointsAtItself(m, name)
      && Value(m, CURRENT) == Some(Scalar(STR, name))
      && (!Owned(key) ==> Value(m, key) == Value(content, key))
  {
    hide ValueAt, With, Called, Named, Parsed, Inner, ContextBody, Value, RenamedSection, Pointed, OneMapping;
    var c1 := RenamedSection(content, CLUSTERS, name).value;
    var c2 := RenamedSection(c1, USERS, name).value;
    var c3 := RenamedSection(c2, CONTEXTS, name).value;
    RenamedSectionMeans(content, CLUSTERS, name, key);
    RenamedSectionMeans(c1, USERS, name, key);
    RenamedSectionMeans(c2, CONTEXTS, name, key);
    RenamedSectionMeans(c1, USERS, name, CLUSTERS);
    RenamedSectionMeans(c2, CONTEXTS, name, CLUSTERS);
    RenamedSectionMeans(c2, CONTEXTS, name, USERS);
    LastRename(c3, name, Named(OneMapping(c2, CONTEXTS).value, name), key);
    LastRename(c3, name, Named(OneMapping(c2, CONTEXTS).value, name), CLUSTERS);
    LastRename(c3, name, Named(OneMapping(c2, CONTEXTS).value, name), USERS);
    var m := Renamed(content, name).value;
    OneEntryRead(m, CLUSTERS, Named(OneMapping(content, CLUSTERS).value, name));
    OneEntryRead(m, USERS, Named(OneMapping(c1, USERS).value, name));
  }

  lemma OneEntryRead(content: seq<Yaml>, key: string, y: Yaml)
    requires Value(content, key) == Some(Sequence([y]))
    ensures OneEntry(content, key) == Some(y)
  {
  }

  /** The last part of the rename: the context is pointed, and made the current one. */
  function Repointed(c3: seq<Yaml>, entry: seq<Yaml>, context: seq<Yaml>, name: string): seq<Yaml> {
    With(With(c3, CONTEXTS, Sequence([Mapping(With(entry, "context", Mapping(Pointed(context, name))))])), CURRENT, Scalar(STR, name))
  }

  lemma LastRename(c3: seq<Yaml>, name: string, entry: Yaml, key: string)
    requires Parsed(Mapping(c3)) && entry.Mapping? && Called(entry, name)
    requires Value(c3, CONTEXTS) == Some(Sequence([entry]))
    requires Value(entry.content, "context").Some? && Value(entry.content, "context").value.Mapping?
    ensures OneMapping(c3, CONTEXTS) == Some(entry.content)
    ensures var m := Repointed(c3, entry.content, Value(entry.content, "context").value.content, name);
      && OneEntry(m, CONTEXTS).Some? && Called(OneEntry(m, CONTEXTS).value, name) && PointsAtItself(m, name)
      && Value(m, CURRENT) == Some(Scalar(STR, name))
      && (key != CONTEXTS && key != CURRENT ==> Value(m, key) == Value(c3, key))
  {
    hide ValueAt, With, Called, Inner, ContextBody, Pointed;
    ParsedValue(c3, CONTEXTS);
    ParsedItem(entry);
    EntryPointed(entry.content, name);
    var context := Value(entry.content, "context").value.content;
    var y := Mapping(With(entry.content, "context", Mapping(Pointed(context, name))));
    var c4 := With(c3, CONTEXTS, Sequence([y]));
    WithMeans(c3, CONTEXTS, Sequence([y]));
    WithMeans(c4, CURRENT, Scalar(STR, name));
    WithOther(c4, CURRENT, Scalar(STR, name), CONTEXTS);
    if key != CONTEXTS && key != CURRENT {
      WithOther(c3, CONTEXTS, Sequence([y]), key);
      WithOther(c4, CURRENT, Scalar(STR, name), key);
    }
  }

  lemma ParsedItem(y: Yaml)
    requires Parsed(Sequence([y]))
    ensures Parsed(y)
  {
    assert Sequence([y]).items[0] == y;
  }
}
