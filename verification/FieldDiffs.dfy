/** The difference between the fields a file declares and the values the server holds, the request
    body it becomes (apps/cli/cmd/apply_diff.go), and what the server makes of that body. */
module FieldDiffs {
  import opened Options
  import opened Ordering
  import opened Values

  /** One declared field that differs. A non-empty `key` names one key of a merged field. */
  datatype FieldChange = FieldChange(field: string, key: string, from: Value, to: Value)

  /** What apply does with one thing the file declares. */
  datatype Action = Create | Update | Unchanged

  /** The one field the server merges key by key, and the one column that is not in `config`. */
  const MERGED := "provider_config"
  const CLOUD_IDENTITY := "cloud_identity_id"

  /** A cluster's two sizing fields, of which one write may set one. */
  const NODE_SIZE := "node_size"
  const INSTANCE_TYPES := "instance_types"

  function KeysOf(v: Value): Fields {
    var m := StringKeyed(v);
    if m.Some? then m.value else map[]
  }

  // ----- what a difference is -----

  /** The changes to single keys of a merged field. */
  function KeyChanges(field: string, declared: Fields, current: Fields): set<FieldChange> {
    set k | k in declared && !ValuesEqual(declared[k], Get(current, k)) ::
      FieldChange(field, k, Get(current, k), declared[k])
  }

  /** The field is compared key by key. */
  predicate ByKey(field: string, want: Value) {
    field == MERGED && StringKeyed(want).Some?
  }

  function FieldChanges(field: string, want: Value, have: Value): set<FieldChange> {
    if ByKey(field, want) then KeyChanges(field, KeysOf(want), KeysOf(have))
    else if ValuesEqual(want, have) then {}
    else {FieldChange(field, "", have, want)}
  }

  /** Every change, in no order. */
  function ChangeSet(declared: Fields, current: Fields): set<FieldChange> {
    set f, ch | f in declared && ch in FieldChanges(f, declared[f], Get(current, f)) :: ch
  }

  predicate ChangeLess(a: FieldChange, b: FieldChange) {
    if a.field != b.field then StringLess(a.field, b.field) else StringLess(a.key, b.key)
  }

  /** Distinct (field, key) pairs leave `sortChanges` one order. */
  lemma DistinctPairsAreOrdered(s: set<FieldChange>)
    requires forall x, y :: x in s && y in s && x.field == y.field && x.key == y.key ==> x == y
    ensures TotalOn(ChangeLess, s)
  {
    forall x, y ensures !ChangeLess(x, x) && (x in s && y in s && x != y ==> ChangeLess(x, y) || ChangeLess(y, x)) {
      StringLessTotal(x.field, y.field);
      StringLessTotal(x.key, y.key);
    }
    forall x, y, z | x in s && y in s && z in s && ChangeLess(x, y) && ChangeLess(y, z)
      ensures ChangeLess(x, z)
    {
      StringLessTotal(x.field, y.field);
      StringLessTotal(y.field, z.field);
      if x.field == y.field == z.field {
        StringLessTransitive(x.key, y.key, z.key);
      } else if x.field != y.field && y.field != z.field {
        StringLessTransitive(x.field, y.field, z.field);
      }
    }
  }

  lemma ChangesAreOrdered(declared: Fields, current: Fields)
    ensures TotalOn(ChangeLess, ChangeSet(declared, current))
  {
    hide ValuesEqual;
    var s := ChangeSet(declared, current);
    forall x, y | x in s && y in s && x.field == y.field && x.key == y.key ensures x == y {
      ChangesOfField(declared, current, x.field);
    }
    DistinctPairsAreOrdered(s);
  }

  // ----- diffFields -----

  /** The plan's changes: the change set in (field, key) order. */
  ghost function Diff(declared: Fields, current: Fields): seq<FieldChange> {
    Sort(ChangeLess, Arrange(ChangeSet(declared, current)))
  }

  lemma DiffMeans(declared: Fields, current: Fields)
    ensures Elements(Diff(declared, current)) == ChangeSet(declared, current)
    ensures StrictlySorted(ChangeLess, Diff(declared, current))
    ensures Diff(declared, current) == [] <==> ChangeSet(declared, current) == {}
  {
    ChangesAreOrdered(declared, current);
    ArrangedMeans(ChangeLess, ChangeSet(declared, current));
  }

  /** `diffKeys`: Go visits the keys in random order. */
  method DiffKeys(field: string, declared: Fields, current: Fields) returns (out: seq<FieldChange>)
    ensures Elements(out) == KeyChanges(field, declared, current) && Distinct(out)
  {
    out := [];
    var rest := declared.Keys;
    while rest != {}
      invariant rest <= declared.Keys
      invariant Distinct(out)
      invariant Elements(out) == set ch | ch in KeyChanges(field, declared, current) && ch.key !in rest
    {
      var k :| k in rest;
      rest := rest - {k};
      var have := Get(current, k);
      if !ValuesEqual(declared[k], have) {
        var ch := FieldChange(field, k, have, declared[k]);
        assert ch in KeyChanges(field, declared, current);
        assert Elements(out + [ch]) == Elements(out) + {ch};
        out := out + [ch];
      }
    }
  }

  /** `diffFields`: whatever order the fields are visited in, the result is `Diff`. */
  method DiffFields(declared: Fields, current: Fields) returns (out: seq<FieldChange>)
    ensures out == Diff(declared, current)
  {
    out := [];
    var rest := declared.Keys;
    while rest != {}
      invariant rest <= declared.Keys
      invariant Distinct(out)
      invariant forall ch :: ch in out <==> ch in ChangeSet(declared, current) && ch.field !in rest
    {
      var f :| f in rest;
      rest := rest - {f};
      var want, have := declared[f], Get(current, f);
      var more: seq<FieldChange>;
      if ByKey(f, want) {
        more := DiffKeys(f, KeysOf(want), KeysOf(have));
      } else if ValuesEqual(want, have) {
        more := [];
      } else {
        more := [FieldChange(f, "", have, want)];
      }
      assert Elements(more) == FieldChanges(f, want, have);
      ChangesOfField(declared, current, f);
      assert forall ch :: ch in more <==> ch in Elements(more);
      assert forall ch :: ch in out + more <==> ch in out || ch in more;
      out := out + more;
    }
    ChangesAreOrdered(declared, current);
    ArrangementIsDetermined(ChangeLess, ChangeSet(declared, current), out);
    out := Sort(ChangeLess, out);
  }

  lemma ChangesOfField(declared: Fields, current: Fields, f: string)
    requires f in declared
    ensures forall ch :: ch in FieldChanges(f, declared[f], Get(current, f)) <==>
                         ch in ChangeSet(declared, current) && ch.field == f
  {
  }

  // ----- changedFields -----

  /** One iteration of `changedFields`. */
  function AddChange(out: Fields, c: FieldChange): Fields {
    if c.key == "" then out[c.field := c.to]
    else
      var keys := if c.field in out && out[c.field].Map? then out[c.field].fields else map[];
      out[c.field := Map(keys[c.key := c.to])]
  }

  function Body(changes: seq<FieldChange>): Fields {
    if changes == [] then map[] else AddChange(Body(changes[..|changes| - 1]), changes[|changes| - 1])
  }

  method ChangedFields(changes: seq<FieldChange>) returns (out: Fields)
    ensures out == Body(changes)
  {
    out := map[];
    for i := 0 to |changes|
      invariant out == Body(changes[..i])
    {
      assert changes[..i + 1][..i] == changes[..i];
      out := AddChange(out, changes[i]);
    }
    assert changes[..|changes|] == changes;
  }

  /** In a plan a field is changed either whole or key by key; only an empty key reads as both. */
  ghost predicate Shaped(changes: seq<FieldChange>) {
    && StrictlySorted(ChangeLess, changes)
    && (forall c :: c in changes && c.field != MERGED ==> c.key == "")
  }

  lemma DiffIsShaped(declared: Fields, current: Fields)
    ensures Shaped(Diff(declared, current))
  {
    hide ValuesEqual, Diff;
    DiffMeans(declared, current);
    var d := Diff(declared, current);
    forall c | c in d && c.field != MERGED ensures c.key == "" {
      assert c in Elements(d);
    }
  }

  /** What the body holds for a field that is replaced whole. */
  lemma {:induction false} BodyWhole(changes: seq<FieldChange>, f: string)
    requires Shaped(changes) && f != MERGED
    ensures f in Body(changes) <==> exists c :: c in changes && c.field == f
    ensures forall c :: c in changes && c.field == f ==> Body(changes)[f] == c.to
  {
    hide StringLess;
    if changes != [] {
      var front, last := changes[..|changes| - 1], changes[|changes| - 1];
      assert changes == front + [last];
      BodyWhole(front, f);
      if last.field == f {
        forall c | c in front ensures c.field != f {
          StringLessTotal(c.field, f);
          StringLessTotal(c.key, last.key);
        }
      }
    }
  }

  /** What a body holds for the merged field when no change is to the empty key. */
  ghost predicate KeyBody(changes: seq<FieldChange>, b: Fields) {
    && (MERGED in b ==> b[MERGED].Map? && exists c :: c in changes && c.field == MERGED)
    && (MERGED in b ==> forall k :: k in b[MERGED].fields ==> exists c :: c in changes && c.field == MERGED && c.key == k)
    && (forall c :: c in changes && c.field == MERGED ==> MERGED in b && Holds(b[MERGED], c))
  }

  lemma {:induction false} BodyByKey(changes: seq<FieldChange>)
    requires Shaped(changes)
    requires forall c :: c in changes && c.field == MERGED ==> c.key != ""
    ensures KeyBody(changes, Body(changes))
  {
    if changes != [] {
      var front, last := changes[..|changes| - 1], changes[|changes| - 1];
      assert changes == front + [last];
      BodyByKey(front);
      forall c | c in front && c.field == last.field ensures c.key != last.key {
        assert ChangeLess(c, last);
        StringLessTotal(c.key, last.key);
      }
      KeyBodyStep(front, last, Body(front));
    }
  }

  lemma KeyBodyStep(front: seq<FieldChange>, last: FieldChange, b: Fields)
    requires KeyBody(front, b)
    requires forall c :: c in front && c.field == last.field == MERGED ==> c.key != last.key
    requires last.field == MERGED ==> last.key != ""
    ensures KeyBody(front + [last], AddChange(b, last))
  {
    var changes, after := front + [last], AddChange(b, last);
    assert last in changes;
    if last.field == MERGED {
      forall k | k in after[MERGED].fields
        ensures exists c :: c in changes && c.field == MERGED && c.key == k
      {
        if k != last.key {
          var c :| c in front && c.field == MERGED && c.key == k;
          assert c in changes;
        }
      }
    } else if MERGED in b {
      var c :| c in front && c.field == MERGED;
      assert c in changes;
      assert after[MERGED] == b[MERGED];
    }
  }

  predicate Holds(v: Value, c: FieldChange) {
    v.Map? && c.key in v.fields && v.fields[c.key] == c.to
  }

  /** A change to the empty key is sent as though it were the whole field: the body either is its
      value, or has under the empty key only what that value itself holds there. */
  lemma {:induction false} BodyEmptyKey(changes: seq<FieldChange>, e: FieldChange)
    requires Shaped(changes) && e in changes && e.field == MERGED && e.key == ""
    ensures MERGED in Body(changes)
    ensures var b := Body(changes)[MERGED];
      b == e.to || (b.Map? && if e.to.Map? && "" in e.to.fields
                              then "" in b.fields && b.fields[""] == e.to.fields[""]
                              else "" !in b.fields)
  {
    var front, last := changes[..|changes| - 1], changes[|changes| - 1];
    assert changes == front + [last];
    if e in front {
      BodyEmptyKey(front, e);
      if last.field == MERGED {
        StringLessTotal(e.key, last.key);
      }
    }
  }

  // ----- the server's side of a write -----

  /** What the server makes of a kind's fields. `parse` is the schema's reading of a field's value, or
      its refusal; `identity` says which cloud identities the caller may use; by a component's identity, or
      for lack of one, `cloud` says whether a cloud is known and `knob` which values of the merged field that
      cloud takes; `sized` is the kind with the two sizing fields, and `defaultType` the instance type of a new
      one without a size, by its identity. */
  datatype Rules = Rules(
    sized: bool,
    parse: (string, Value) -> Option<Value>,
    identity: string -> bool,
    cloud: Value -> bool,
    knob: (Value, string, Value) -> bool,
    defaultType: Value -> Option<string>)

  predicate NoTypes(v: Value) {
    v == Null || v == List([])
  }

  /** A null size and an empty list of types are read as they are, and as nothing else is. */
  ghost predicate RulesOk(q: Rules) {
    q.sized ==>
      && q.parse(NODE_SIZE, Null) == Some(Null)
      && q.parse(INSTANCE_TYPES, List([])) == Some(List([]))
      && forall v :: q.parse(INSTANCE_TYPES, v).Some? && NoTypes(q.parse(INSTANCE_TYPES, v).value) ==>
           q.parse(INSTANCE_TYPES, v).value == v
  }

  predicate IsIdentity(v: Value) {
    v == Null || Canonical(v).Str?
  }

  /** JSON carries the value of a field that is replaced whole, and the server takes it: the cloud identity
      is text (one the caller may use) or null, any other field is one its schema reads. */
  predicate WholeAccepted(q: Rules, f: string, v: Value) {
    && f != MERGED && Encodable(v)
    && if f == CLOUD_IDENTITY then IsIdentity(v) && (v != Null ==> q.identity(Canonical(v).s)) else q.parse(f, Wire(v)).Some?
  }

  /** ... of one knob, on the cloud of the identity. */
  predicate KnobAccepted(q: Rules, id: Value, k: string, v: Value) {
    q.cloud(id) && Encodable(v) && q.knob(id, k, Wire(v))
  }

  /** ... and of the merged field: an object of knobs, on a cloud that is known. */
  predicate MergedAccepted(q: Rules, id: Value, v: Value) {
    Encodable(v) && v.Map? && q.cloud(id) && forall k :: k in v.fields ==> KnobAccepted(q, id, k, v.fields[k])
  }

  /** What is stored for a field that is replaced whole. */
  function Kept(q: Rules, f: string, v: Value): Value
    requires WholeAccepted(q, f, v)
  {
    if f == CLOUD_IDENTITY then Wire(v) else q.parse(f, Wire(v)).value
  }

  /** The identity a write is judged by: the one it sets, else the row's own
      (apps/console/lib/cli/project-components.ts:1206-1208). */
  function IdentityOf(stored: Fields, body: Fields): Value {
    Canonical(Get(if CLOUD_IDENTITY in body then body else stored, CLOUD_IDENTITY))
  }

  predicate WholesAccepted(q: Rules, body: Fields) {
    forall f :: f in body && f != MERGED ==> WholeAccepted(q, f, body[f])
  }

  predicate FieldsAccepted(q: Rules, id: Value, body: Fields) {
    WholesAccepted(q, body) && (MERGED in body ==> MergedAccepted(q, id, body[MERGED]))
  }

  predicate SetsSize(q: Rules, body: Fields)
    requires WholesAccepted(q, body)
  {
    q.sized && NODE_SIZE in body && Kept(q, NODE_SIZE, body[NODE_SIZE]) != Null
  }

  predicate PinsType(q: Rules, body: Fields)
    requires WholesAccepted(q, body)
  {
    && q.sized && INSTANCE_TYPES in body
    && Kept(q, INSTANCE_TYPES, body[INSTANCE_TYPES]).List? && Kept(q, INSTANCE_TYPES, body[INSTANCE_TYPES]) != List([])
  }

  /** The write over what is stored is accepted: every field is, and it does not size the cluster both ways. */
  predicate Accepts(q: Rules, stored: Fields, body: Fields) {
    FieldsAccepted(q, IdentityOf(stored, body), body) && !(SetsSize(q, body) && PinsType(q, body))
  }

  /** `mergeProviderConfig`: a key sent is written, a key sent as null is removed, any other is kept. */
  function MergeKeys(stored: Fields, patch: Fields): Fields
    requires forall k :: k in patch ==> Encodable(patch[k])
  {
    map k | k in stored.Keys + patch.Keys && !(k in patch && patch[k] == Null) ::
      if k in patch then Wire(patch[k]) else stored[k]
  }

  /** The fields of the write, over what is stored. The cloud identity is a nullable column: null is the
      same as no value. */
  function Written(q: Rules, stored: Fields, body: Fields): Fields
    requires Accepts(q, stored, body)
  {
    map f | f in stored.Keys + body.Keys && !(f == CLOUD_IDENTITY && f in body && body[f] == Null) ::
      if f !in body then stored[f]
      else if f == MERGED then Map(MergeKeys(KeysOf(Get(stored, f)), body[f].fields))
      else Kept(q, f, body[f])
  }

  /** `applySizingOneWriter`: what a write leaves in the sizing field it clears. */
  function Cleared(q: Rules, body: Fields, f: string): Option<Value>
    requires WholesAccepted(q, body)
  {
    if f == INSTANCE_TYPES && SetsSize(q, body) then Some(List([]))
    else if f == NODE_SIZE && PinsType(q, body) then Some(Null)
    else None
  }

  /** The stored values after an accepted update: setting a size clears the types, pinning types clears
      the size. */
  function Patched(q: Rules, stored: Fields, body: Fields): Fields
    requires Accepts(q, stored, body)
  {
    var after := Written(q, stored, body);
    if SetsSize(q, body) then after[INSTANCE_TYPES := List([])]
    else if PinsType(q, body) then after[NODE_SIZE := Null]
    else after
  }

  /** The stored values after sending the body: unchanged when it is refused. */
  function AfterUpdate(q: Rules, stored: Fields, body: Fields): Fields {
    if Accepts(q, stored, body) then Patched(q, stored, body) else stored
  }

  /** The instance type a new row gets when it names neither a type nor a size. */
  function Stamp(q: Rules, fields: Fields): Option<string> {
    if q.sized && NoTypes(Get(fields, INSTANCE_TYPES)) && Get(fields, NODE_SIZE) == Null then
      q.defaultType(Get(fields, CLOUD_IDENTITY))
    else None
  }

  /** The stored values of a new row. */
  function Inserted(q: Rules, fields: Fields): Fields
    requires Accepts(q, map[], fields)
  {
    var after := Patched(q, map[], fields);
    match Stamp(q, after)
    case None => after
    case Some(t) => after[INSTANCE_TYPES := List([Str(t)])]
  }

  /** One field after an accepted write. */
  lemma PatchedField(q: Rules, stored: Fields, body: Fields, f: string)
    requires Accepts(q, stored, body)
    ensures Cleared(q, body, f).Some? ==> f in Patched(q, stored, body) && Patched(q, stored, body)[f] == Cleared(q, body, f).value
    ensures Cleared(q, body, f) == None && f !in body ==>
      (f in Patched(q, stored, body) <==> f in stored) && Get(Patched(q, stored, body), f) == Get(stored, f)
    ensures Cleared(q, body, f) == None && f in body && f != MERGED ==> Get(Patched(q, stored, body), f) == Kept(q, f, body[f])
    ensures f == MERGED && f in body ==>
      Get(Patched(q, stored, body), f) == Map(MergeKeys(KeysOf(Get(stored, f)), body[f].fields))
  {
  }

  // ----- the diff/patch law -----

  /** The stored values after `apply` sends the plan's changes. */
  ghost function AfterApply(q: Rules, declared: Fields, current: Fields): Fields {
    AfterUpdate(q, current, Body(Diff(declared, current)))
  }

  /** A change the update request can express and the server takes. */
  predicate Sendable(q: Rules, id: Value, c: FieldChange) {
    if c.field == MERGED then c.key != "" && KnobAccepted(q, id, c.key, c.to) else WholeAccepted(q, c.field, c.to)
  }

  /** ... and what is then stored compares equal to it. */
  predicate Settling(q: Rules, id: Value, c: FieldChange) {
    Sendable(q, id, c) && (c.field != MERGED ==> ValuesEqual(c.to, Kept(q, c.field, c.to)))
  }

  ghost predicate AllSendable(q: Rules, declared: Fields, current: Fields) {
    forall c :: c in Diff(declared, current) ==> Sendable(q, IdentityOf(current, declared), c)
  }

  ghost predicate AllSettling(q: Rules, declared: Fields, current: Fields) {
    forall c :: c in Diff(declared, current) ==> Settling(q, IdentityOf(current, declared), c)
  }

  ghost predicate NoEmptyKey(declared: Fields, current: Fields) {
    forall c :: c in Diff(declared, current) && c.field == MERGED ==> c.key != ""
  }

  /** The plan changes a field that is replaced whole. */
  predicate Differs(declared: Fields, current: Fields, f: string) {
    f in declared && !ValuesEqual(declared[f], Get(current, f))
  }

  /** The plan sets a size. */
  predicate PlansSize(q: Rules, declared: Fields, current: Fields) {
    q.sized && Differs(declared, current, NODE_SIZE) && Canonical(declared[NODE_SIZE]) != Null
  }

  /** The plan pins types. */
  predicate PlansTypes(q: Rules, declared: Fields, current: Fields) {
    && q.sized && Differs(declared, current, INSTANCE_TYPES)
    && Canonical(declared[INSTANCE_TYPES]).List? && Canonical(declared[INSTANCE_TYPES]) != List([])
  }

  /** A size is set only where no types are declared, types are pinned only where no size is. */
  predicate SizedOneWay(q: Rules, declared: Fields, current: Fields) {
    && (PlansSize(q, declared, current) && INSTANCE_TYPES in declared ==> ValuesEqual(declared[INSTANCE_TYPES], List([])))
    && (PlansTypes(q, declared, current) && NODE_SIZE in declared ==> ValuesEqual(declared[NODE_SIZE], Null))
  }

  lemma InDiff(declared: Fields, current: Fields, c: FieldChange)
    ensures c in Diff(declared, current) <==>
            c.field in declared && c in FieldChanges(c.field, declared[c.field], Get(current, c.field))
  {
    hide Diff, ValuesEqual, StringLess;
    DiffMeans(declared, current);
    assert c in Diff(declared, current) <==> c in Elements(Diff(declared, current));
    if c.field in declared { ChangesOfField(declared, current, c.field); }
  }

  /** What the body holds of a field that is replaced whole. */
  lemma WholeFieldSent(declared: Fields, current: Fields, f: string)
    requires f != MERGED
    ensures f in Body(Diff(declared, current)) <==> Differs(declared, current, f)
    ensures f in Body(Diff(declared, current)) ==> Body(Diff(declared, current))[f] == declared[f]
    ensures Differs(declared, current, f) ==> FieldChange(f, "", Get(current, f), declared[f]) in Diff(declared, current)
  {
    hide ValuesEqual, Diff;
    var d := Diff(declared, current);
    DiffIsShaped(declared, current);
    BodyWhole(d, f);
    if f in declared { InDiff(declared, current, FieldChange(f, "", Get(current, f), declared[f])); }
    forall c | c in d && c.field == f
      ensures Differs(declared, current, f) && c == FieldChange(f, "", Get(current, f), declared[f])
    {
      InDiff(declared, current, c);
    }
  }

  /** The update is judged by the declared identity, or where none is declared by the stored one. */
  lemma SentIdentity(declared: Fields, current: Fields)
    ensures IdentityOf(current, Body(Diff(declared, current))) == IdentityOf(current, declared)
  {
    hide ValuesEqual, Diff, Body;
    WholeFieldSent(declared, current, CLOUD_IDENTITY);
    if CLOUD_IDENTITY in declared {
      ValuesEqualMeans(declared[CLOUD_IDENTITY], Get(current, CLOUD_IDENTITY));
    }
  }

  /** The merged field is in the body only for changes to its keys. */
  lemma MergedFieldSent(declared: Fields, current: Fields)
    requires NoEmptyKey(declared, current)
    requires MERGED in Body(Diff(declared, current))
    ensures MERGED in declared && ByKey(MERGED, declared[MERGED])
    ensures Body(Diff(declared, current))[MERGED].Map?
    ensures forall k :: k in Body(Diff(declared, current))[MERGED].fields ==>
      KeySent(KeysOf(declared[MERGED]), KeysOf(Get(current, MERGED)), Body(Diff(declared, current))[MERGED].fields, k)
  {
    hide ValuesEqual, Diff, StringKeyed;
    var d := Diff(declared, current);
    DiffIsShaped(declared, current);
    BodyByKey(d);
    var c :| c in d && c.field == MERGED;
    InDiff(declared, current, c);
    forall k | k in Body(d)[MERGED].fields
      ensures KeySent(KeysOf(declared[MERGED]), KeysOf(Get(current, MERGED)), Body(d)[MERGED].fields, k)
    {
      var e :| e in d && e.field == MERGED && e.key == k;
      assert Holds(Body(d)[MERGED], e);
      KeyChangeIsSent(declared, current, e);
    }
  }

  /** The body's entry under `k` is the declared one, and it differs from the stored one. */
  predicate KeySent(want: Fields, have: Fields, sent: Fields, k: string) {
    k in want && !ValuesEqual(want[k], Get(have, k)) && k in sent && sent[k] == want[k]
  }

  lemma KeyChangeIsSent(declared: Fields, current: Fields, e: FieldChange)
    requires e in Diff(declared, current) && e.field == MERGED && e.key != ""
    ensures MERGED in declared && ByKey(MERGED, declared[MERGED])
    ensures e.key in KeysOf(declared[MERGED]) && e.to == KeysOf(declared[MERGED])[e.key]
    ensures !ValuesEqual(e.to, Get(KeysOf(Get(current, MERGED)), e.key))
  {
    hide ValuesEqual, Diff;
    InDiff(declared, current, e);
  }

  lemma DifferingKeySent(declared: Fields, current: Fields, k: string)
    requires NoEmptyKey(declared, current)
    requires MERGED in declared && ByKey(MERGED, declared[MERGED]) && k in KeysOf(declared[MERGED])
    requires !ValuesEqual(KeysOf(declared[MERGED])[k], Get(KeysOf(Get(current, MERGED)), k))
    ensures FieldChange(MERGED, k, Get(KeysOf(Get(current, MERGED)), k), KeysOf(declared[MERGED])[k]) in Diff(declared, current)
    ensures MERGED in Body(Diff(declared, current)) && Body(Diff(declared, current))[MERGED].Map?
    ensures k in Body(Diff(declared, current))[MERGED].fields
  {
    var c := FieldChange(MERGED, k, Get(KeysOf(Get(current, MERGED)), k), KeysOf(declared[MERGED])[k]);
    InDiff(declared, current, c);
    DiffIsShaped(declared, current);
    BodyByKey(Diff(declared, current));
  }

  /** Only entries that differ are sent, with the file's own value. */
  lemma OnlyDifferencesAreSent(declared: Fields, current: Fields, f: string)
    requires NoEmptyKey(declared, current)
    requires f in Body(Diff(declared, current))
    ensures f in declared
    ensures !ByKey(f, declared[f]) ==>
      !ValuesEqual(declared[f], Get(current, f)) && Body(Diff(declared, current))[f] == declared[f]
    ensures ByKey(f, declared[f]) ==>
      Body(Diff(declared, current))[f] ==
      Map(map k | k in KeysOf(declared[f]) && !ValuesEqual(KeysOf(declared[f])[k], Get(KeysOf(Get(current, f)), k)) ::
            KeysOf(declared[f])[k])
  {
    hide ValuesEqual, Diff;
    if f == MERGED {
      MergedFieldSent(declared, current);
      var want, have := KeysOf(declared[f]), KeysOf(Get(current, f));
      forall k | k in want && !ValuesEqual(want[k], Get(have, k))
        ensures k in Body(Diff(declared, current))[f].fields
      {
        DifferingKeySent(declared, current, k);
      }
    } else {
      WholeFieldSent(declared, current, f);
    }
  }

  // ----- what an accepted update does -----

  lemma SendableIsAccepted(q: Rules, declared: Fields, current: Fields)
    requires AllSendable(q, declared, current)
    ensures FieldsAccepted(q, IdentityOf(current, declared), Body(Diff(declared, current)))
  {
    hide Diff, ValuesEqual;
    var d := Diff(declared, current);
    var b := Body(d);
    var id := IdentityOf(current, declared);
    forall f | f in b && f != MERGED ensures WholeAccepted(q, f, b[f]) { WholeFieldSent(declared, current, f); }
    if MERGED in b {
      MergedFieldSent(declared, current);
      forall k | k in b[MERGED].fields ensures KnobAccepted(q, id, k, b[MERGED].fields[k]) {
        assert KeySent(KeysOf(declared[MERGED]), KeysOf(Get(current, MERGED)), b[MERGED].fields, k);
        DifferingKeySent(declared, current, k);
      }
      SomeKeySent(declared, current);
    }
  }

  /** The merged field is not sent empty. */
  lemma SomeKeySent(declared: Fields, current: Fields)
    requires NoEmptyKey(declared, current) && MERGED in Body(Diff(declared, current))
    ensures Body(Diff(declared, current))[MERGED].Map? && Body(Diff(declared, current))[MERGED].fields != map[]
  {
    hide ValuesEqual, Diff;
    DiffIsShaped(declared, current);
    BodyByKey(Diff(declared, current));
  }

  /** ... and conversely, unless an empty key was sent as the whole field. */
  lemma AcceptedIsSendable(q: Rules, declared: Fields, current: Fields)
    requires NoEmptyKey(declared, current) && FieldsAccepted(q, IdentityOf(current, declared), Body(Diff(declared, current)))
    ensures AllSendable(q, declared, current)
  {
    hide Diff, ValuesEqual;
    var b := Body(Diff(declared, current));
    forall c | c in Diff(declared, current) ensures Sendable(q, IdentityOf(current, declared), c) {
      InDiff(declared, current, c);
      if c.field == MERGED {
        KeyChangeIsSent(declared, current, c);
        DifferingKeySent(declared, current, c.key);
        MergedFieldSent(declared, current);
        assert KeySent(KeysOf(declared[MERGED]), KeysOf(Get(current, MERGED)), b[MERGED].fields, c.key);
      } else {
        WholeFieldSent(declared, current, c.field);
      }
    }
  }

  /** What an accepted update does to one field: the partner of a sizing field that is set is cleared; a
      declared value that differs is stored as the schema reads it; a merged field changes only in the
      declared keys that differ; the rest is kept. */
  ghost predicate FieldReconciled(q: Rules, declared: Fields, current: Fields, f: string)
    requires Accepts(q, current, Body(Diff(declared, current))) && NoEmptyKey(declared, current)
  {
    var body, after := Body(Diff(declared, current)), AfterApply(q, declared, current);
    if Cleared(q, body, f).Some? then Get(after, f) == Cleared(q, body, f).value
    else if f !in declared then (f in after <==> f in current) && Get(after, f) == Get(current, f)
    else if ByKey(f, declared[f]) then
      forall k :: KeyReconciled(KeysOf(declared[f]), KeysOf(Get(current, f)), KeysOf(Get(after, f)), k)
    else if ValuesEqual(declared[f], Get(current, f)) then Get(after, f) == Get(current, f)
    else WholeAccepted(q, f, declared[f]) && Get(after, f) == Kept(q, f, declared[f])
  }

  ghost predicate KeyReconciled(declared: Fields, current: Fields, after: Fields, k: string) {
    if k in declared && !ValuesEqual(declared[k], Get(current, k)) then Get(after, k) == Canonical(declared[k])
    else (k in after <==> k in current) && Get(after, k) == Get(current, k)
  }

  lemma ReconciledWhole(q: Rules, declared: Fields, current: Fields, f: string)
    requires Accepts(q, current, Body(Diff(declared, current))) && NoEmptyKey(declared, current) && f != MERGED
    ensures FieldReconciled(q, declared, current, f)
  {
    hide ValuesEqual, Diff, Patched, Cleared, WholeAccepted, Kept;
    WholeFieldSent(declared, current, f);
    PatchedField(q, current, Body(Diff(declared, current)), f);
  }

  lemma ReconciledByKey(q: Rules, declared: Fields, current: Fields)
    requires Accepts(q, current, Body(Diff(declared, current))) && NoEmptyKey(declared, current)
    ensures FieldReconciled(q, declared, current, MERGED)
  {
    hide ValuesEqual, Diff, Patched, SetsSize, PinsType;
    PatchedField(q, current, Body(Diff(declared, current)), MERGED);
    if MERGED in Body(Diff(declared, current)) { MergedFieldSent(declared, current); }
    if MERGED in declared {
      if ByKey(MERGED, declared[MERGED]) {
        forall k
          ensures KeyReconciled(KeysOf(declared[MERGED]), KeysOf(Get(current, MERGED)),
                                KeysOf(Get(AfterApply(q, declared, current), MERGED)), k)
        {
          ReconciledKey(q, declared, current, k);
        }
      } else {
        InDiff(declared, current, FieldChange(MERGED, "", Get(current, MERGED), declared[MERGED]));
      }
    }
  }

  lemma ReconciledKey(q: Rules, declared: Fields, current: Fields, k: string)
    requires Accepts(q, current, Body(Diff(declared, current))) && NoEmptyKey(declared, current)
    requires MERGED in declared && ByKey(MERGED, declared[MERGED])
    ensures KeyReconciled(KeysOf(declared[MERGED]), KeysOf(Get(current, MERGED)),
                          KeysOf(Get(AfterApply(q, declared, current), MERGED)), k)
  {
    hide ValuesEqual, Diff, Body, IsIdentity, Patched, SetsSize, PinsType;
    var b := Body(Diff(declared, current));
    var want, have := KeysOf(declared[MERGED]), KeysOf(Get(current, MERGED));
    PatchedField(q, current, b, MERGED);
    if k in want && !ValuesEqual(want[k], Get(have, k)) {
      DifferingKeySent(declared, current, k);
    }
    if MERGED in b {
      MergedFieldSent(declared, current);
      assert Get(AfterApply(q, declared, current), MERGED) == Map(MergeKeys(have, b[MERGED].fields));
    }
  }

  /** An accepted update reconciles every field, and touches nothing that is not declared but the partner
      of a sizing field. */
  lemma ApplyReconciles(q: Rules, declared: Fields, current: Fields, f: string)
    requires Accepts(q, current, Body(Diff(declared, current))) && NoEmptyKey(declared, current)
    ensures FieldReconciled(q, declared, current, f)
  {
    if f == MERGED { ReconciledByKey(q, declared, current); } else { ReconciledWhole(q, declared, current, f); }
  }

  // ----- when one update settles -----

  /** The sizes the body sets are those the plan sets. */
  lemma SizesSent(q: Rules, declared: Fields, current: Fields)
    requires AllSettling(q, declared, current)
    ensures FieldsAccepted(q, IdentityOf(current, declared), Body(Diff(declared, current)))
    ensures SetsSize(q, Body(Diff(declared, current))) <==> PlansSize(q, declared, current)
    ensures PinsType(q, Body(Diff(declared, current))) <==> PlansTypes(q, declared, current)
  {
    hide Diff, ValuesEqual, FieldsAccepted, Body;
    SendableIsAccepted(q, declared, current);
    SizeSent(q, declared, current, NODE_SIZE);
    SizeSent(q, declared, current, INSTANCE_TYPES);
  }

  lemma SizeSent(q: Rules, declared: Fields, current: Fields, f: string)
    requires AllSettling(q, declared, current) && FieldsAccepted(q, IdentityOf(current, declared), Body(Diff(declared, current)))
    requires f == NODE_SIZE || f == INSTANCE_TYPES
    ensures f in Body(Diff(declared, current)) <==> Differs(declared, current, f)
    ensures Differs(declared, current, f) ==>
      var v := Kept(q, f, Body(Diff(declared, current))[f]);
      && ValuesEqual(declared[f], v)
      && (v == Null <==> Canonical(declared[f]) == Null)
      && (v.List? <==> Canonical(declared[f]).List?)
      && (v == List([]) <==> Canonical(declared[f]) == List([]))
  {
    hide Diff, ValuesEqual, FieldsAccepted, Body;
    WholeFieldSent(declared, current, f);
    if Differs(declared, current, f) {
      var c := FieldChange(f, "", Get(current, f), declared[f]);
      assert Settling(q, IdentityOf(current, declared), c);
      ValuesEqualMeans(declared[f], Kept(q, f, declared[f]));
      CanonicalShape(Kept(q, f, declared[f]));
    }
  }

  lemma CanonicalShape(v: Value)
    ensures v == Null <==> Canonical(v) == Null
    ensures v.List? <==> Canonical(v).List?
    ensures v == List([]) <==> Canonical(v) == List([])
  {
  }

  /** One apply settles the declaration exactly when every change of the plan can be sent and is stored as
      equal to what was declared, and the plan sizes the cluster one way. */
  lemma SettlesIff(q: Rules, declared: Fields, current: Fields)
    requires RulesOk(q)
    ensures Diff(declared, AfterApply(q, declared, current)) == [] <==>
            AllSettling(q, declared, current) && SizedOneWay(q, declared, current)
  {
    hide Diff, AfterApply, SizedOneWay, RulesOk, Settling;
    if AllSettling(q, declared, current) {
      if SizedOneWay(q, declared, current) {
        Settles(q, declared, current);
      } else {
        BothWaysUnsettled(q, declared, current);
      }
    } else {
      var c :| c in Diff(declared, current) && !Settling(q, IdentityOf(current, declared), c);
      Unsettled(q, declared, current, c);
    }
  }

  lemma Settles(q: Rules, declared: Fields, current: Fields)
    requires AllSettling(q, declared, current) && SizedOneWay(q, declared, current)
    ensures Accepts(q, current, Body(Diff(declared, current)))
    ensures Diff(declared, AfterApply(q, declared, current)) == []
  {
    hide Diff, ValuesEqual, AfterApply, Settling;
    var after := AfterApply(q, declared, current);
    OneWayIsAccepted(q, declared, current);
    DiffMeans(declared, after);
    forall f, c | f in declared ensures c !in FieldChanges(f, declared[f], Get(after, f)) {
      SettledField(q, declared, current, f, c);
    }
    assert ChangeSet(declared, after) == {};
  }

  lemma OneWayIsAccepted(q: Rules, declared: Fields, current: Fields)
    requires AllSettling(q, declared, current) && SizedOneWay(q, declared, current)
    ensures Accepts(q, current, Body(Diff(declared, current)))
  {
    hide Diff, ValuesEqual, Body, Settling;
    SentIdentity(declared, current);
    SizesSent(q, declared, current);
    if PlansSize(q, declared, current) && PlansTypes(q, declared, current) {
      ValuesEqualMeans(declared[INSTANCE_TYPES], List([]));
    }
  }

  lemma SettledField(q: Rules, declared: Fields, current: Fields, f: string, c: FieldChange)
    requires AllSettling(q, declared, current) && SizedOneWay(q, declared, current)
    requires Accepts(q, current, Body(Diff(declared, current))) && f in declared
    ensures c !in FieldChanges(f, declared[f], Get(AfterApply(q, declared, current), f))
  {
    hide Diff, ValuesEqual, Body, AfterApply;
    ApplyReconciles(q, declared, current, f);
    SizesSent(q, declared, current);
    var after := AfterApply(q, declared, current);
    if ByKey(f, declared[f]) {
      var want, have := KeysOf(declared[f]), KeysOf(Get(current, f));
      assert KeyReconciled(want, have, KeysOf(Get(after, f)), c.key);
      if c.key in want && !ValuesEqual(want[c.key], Get(have, c.key)) {
        InDiff(declared, current, FieldChange(f, c.key, Get(have, c.key), want[c.key]));
        WireSettles(want[c.key]);
      }
    } else if Cleared(q, Body(Diff(declared, current)), f) == None && !ValuesEqual(declared[f], Get(current, f)) {
      InDiff(declared, current, FieldChange(f, "", Get(current, f), declared[f]));
    }
  }

  lemma StillDiffersWhole(declared: Fields, after: Fields, f: string)
    requires f != MERGED && Differs(declared, after, f)
    ensures Diff(declared, after) != []
  {
    hide Diff, ValuesEqual;
    InDiff(declared, after, FieldChange(f, "", Get(after, f), declared[f]));
  }

  /** A plan that sizes the cluster both ways is refused, or clears what it should have kept. */
  lemma BothWaysUnsettled(q: Rules, declared: Fields, current: Fields)
    requires AllSettling(q, declared, current) && !SizedOneWay(q, declared, current)
    ensures Diff(declared, AfterApply(q, declared, current)) != []
  {
    hide Diff, ValuesEqual, Body, Settling;
    SentIdentity(declared, current);
    SizesSent(q, declared, current);
    var b := Body(Diff(declared, current));
    if Accepts(q, current, b) {
      PatchedField(q, current, b, INSTANCE_TYPES);
      PatchedField(q, current, b, NODE_SIZE);
      StillDiffersWhole(declared, AfterApply(q, declared, current), if PlansSize(q, declared, current) then INSTANCE_TYPES else NODE_SIZE);
    } else {
      StillDiffersWhole(declared, current, NODE_SIZE);
    }
  }

  /** A change that cannot settle is still a change after the apply: the request is refused, or the empty
      key is sent as the whole field, or something else is stored. */
  lemma Unsettled(q: Rules, declared: Fields, current: Fields, c: FieldChange)
    requires RulesOk(q) && c in Diff(declared, current) && !Settling(q, IdentityOf(current, declared), c)
    ensures Diff(declared, AfterApply(q, declared, current)) != []
  {
    hide ValuesEqual, Diff, StringKeyed, Body;
    var b := Body(Diff(declared, current));
    if Accepts(q, current, b) {
      if NoEmptyKey(declared, current) {
        SentIdentity(declared, current);
        AcceptedIsSendable(q, declared, current);
        StoredOtherwise(q, declared, current, c);
      } else {
        var e :| e in Diff(declared, current) && e.field == MERGED && e.key == "";
        EmptyKeyUnsettled(q, declared, current, e);
      }
    }
  }

  lemma StoredOtherwise(q: Rules, declared: Fields, current: Fields, c: FieldChange)
    requires RulesOk(q) && c in Diff(declared, current)
    requires Sendable(q, IdentityOf(current, declared), c) && !Settling(q, IdentityOf(current, declared), c)
    requires Accepts(q, current, Body(Diff(declared, current)))
    ensures Diff(declared, AfterApply(q, declared, current)) != []
  {
    hide ValuesEqual, Diff, Body, Patched;
    var b := Body(Diff(declared, current));
    InDiff(declared, current, c);
    WholeFieldSent(declared, current, c.field);
    PatchedField(q, current, b, c.field);
    if Cleared(q, b, c.field).Some? {
      ClearedIsItself(q, c.field, c.to, Cleared(q, b, c.field).value);
    }
    StillDiffersWhole(declared, AfterApply(q, declared, current), c.field);
  }

  /** A declared value equal to a cleared one is stored as it is. */
  lemma ClearedIsItself(q: Rules, f: string, v: Value, cleared: Value)
    requires RulesOk(q) && q.sized && WholeAccepted(q, f, v)
    requires (f == INSTANCE_TYPES && cleared == List([])) || (f == NODE_SIZE && cleared == Null)
    ensures ValuesEqual(v, cleared) ==> ValuesEqual(v, Kept(q, f, v))
  {
    hide ValuesEqual;
    ValuesEqualMeans(v, cleared);
    CanonicalShape(cleared);
  }

  lemma EmptyKeyUnsettled(q: Rules, declared: Fields, current: Fields, e: FieldChange)
    requires e in Diff(declared, current) && e.field == MERGED && e.key == ""
    requires Accepts(q, current, Body(Diff(declared, current)))
    ensures Diff(declared, AfterApply(q, declared, current)) != []
  {
    hide ValuesEqual, Diff, Patched, SetsSize, PinsType;
    var d := Diff(declared, current);
    InDiff(declared, current, e);
    DiffIsShaped(declared, current);
    BodyEmptyKey(d, e);
    var b := Body(d)[MERGED];
    var have := KeysOf(Get(current, MERGED));
    PatchedField(q, current, Body(d), MERGED);
    if ByKey(MERGED, declared[MERGED]) {
      EmptyKeyStillDiffers(e.to, have, b);
    } else {
      ValuesEqualMeans(declared[MERGED], Map(MergeKeys(have, b.fields)));
    }
    StillDiffers(declared, AfterApply(q, declared, current), MergeKeys(have, b.fields));
  }

  lemma StillDiffers(declared: Fields, after: Fields, stored: Fields)
    requires MERGED in declared && Get(after, MERGED) == Map(stored)
    requires if ByKey(MERGED, declared[MERGED])
             then "" in KeysOf(declared[MERGED]) && !ValuesEqual(KeysOf(declared[MERGED])[""], Get(stored, ""))
             else !ValuesEqual(declared[MERGED], Map(stored))
    ensures Diff(declared, after) != []
  {
    var c := if ByKey(MERGED, declared[MERGED])
             then FieldChange(MERGED, "", Get(stored, ""), KeysOf(declared[MERGED])[""])
             else FieldChange(MERGED, "", Map(stored), declared[MERGED]);
    InDiff(declared, after, c);
  }

  lemma EmptyKeyStillDiffers(want: Value, have: Fields, body: Value)
    requires !ValuesEqual(want, Get(have, ""))
    requires body.Map? && Encodable(body)
    requires body == want || if want.Map? && "" in want.fields
                             then "" in body.fields && body.fields[""] == want.fields[""]
                             else "" !in body.fields
    ensures !ValuesEqual(want, Get(MergeKeys(have, body.fields), ""))
  {
    var stored := MergeKeys(have, body.fields);
    if "" in body.fields {
      NotItsOwnEntry(want, "");
      CanonicalIdempotent(body.fields[""]);
      ValuesEqualMeans(want, Get(stored, ""));
    }
  }

  /** A mapping is not equal to an entry of itself. */
  lemma NotItsOwnEntry(v: Value, k: string)
    requires v.Map? && k in v.fields
    ensures Canonical(v) != Canonical(v.fields[k]) && Canonical(v) != Null
  {
    var c := Canonical(v);
    assert c.fields[k] == Canonical(v.fields[k]);
    EntryIsSmaller(c, k);
  }

  lemma EntryIsSmaller(v: Value, k: string)
    requires v.Map? && k in v.fields
    ensures v.fields[k] < v && v.fields[k] != v
  {
    match v
    case Map(m) => assert m[k] < v;
  }

  // ----- when a create settles -----

  /** What a create stores compares equal to what it declared: each field is kept, a size is set only where
      no types are declared and the other way round, and a default type fills in only undeclared types. */
  predicate CreateSettling(q: Rules, declared: Fields)
    requires Accepts(q, map[], declared)
  {
    && (forall f :: f in declared && f != MERGED ==> ValuesEqual(declared[f], Kept(q, f, declared[f])))
    && (SetsSize(q, declared) && INSTANCE_TYPES in declared ==> ValuesEqual(declared[INSTANCE_TYPES], List([])))
    && (PinsType(q, declared) && NODE_SIZE in declared ==> ValuesEqual(declared[NODE_SIZE], Null))
    && (Stamp(q, Patched(q, map[], declared)).Some? ==> INSTANCE_TYPES !in declared)
  }

  lemma CreatedField(q: Rules, declared: Fields, f: string)
    requires Accepts(q, map[], declared) && f in declared && f != MERGED
    ensures Stamp(q, Patched(q, map[], declared)) == None || f != INSTANCE_TYPES ==>
      Get(Inserted(q, declared), f) == if Cleared(q, declared, f).Some? then Cleared(q, declared, f).value else Kept(q, f, declared[f])
  {
    hide Patched, WholeAccepted, Kept;
    PatchedField(q, map[], declared, f);
  }

  lemma CreatedMerged(q: Rules, declared: Fields)
    requires Accepts(q, map[], declared) && MERGED in declared
    ensures FieldChanges(MERGED, declared[MERGED], Get(Inserted(q, declared), MERGED)) == {}
  {
    hide Patched, SetsSize, PinsType, ValuesEqual;
    PatchedField(q, map[], declared, MERGED);
    var sent := declared[MERGED].fields;
    forall k | k in sent ensures ValuesEqual(sent[k], Get(MergeKeys(map[], sent), k)) {
      if sent[k] == Null { ValuesEqualMeans(Null, Null); } else { WireSettles(sent[k]); }
    }
  }

  /** What a create stores differs in nothing from what it declared, exactly when the declaration is kept. */
  lemma CreatedIsDeclaredIff(q: Rules, declared: Fields)
    requires RulesOk(q) && Accepts(q, map[], declared)
    ensures Diff(declared, Inserted(q, declared)) == [] <==> CreateSettling(q, declared)
  {
    hide Diff, Inserted, RulesOk, CreateSettling;
    if CreateSettling(q, declared) {
      CreatedIsDeclared(q, declared);
    } else {
      CreatedOtherwise(q, declared);
    }
  }

  lemma CreatedIsDeclared(q: Rules, declared: Fields)
    requires Accepts(q, map[], declared) && CreateSettling(q, declared)
    ensures Diff(declared, Inserted(q, declared)) == []
  {
    hide Diff, ValuesEqual, Inserted, Patched;
    var after := Inserted(q, declared);
    DiffMeans(declared, after);
    forall f, c | f in declared ensures c !in FieldChanges(f, declared[f], Get(after, f)) {
      if f == MERGED { CreatedMerged(q, declared); } else { CreatedField(q, declared, f); }
    }
    assert ChangeSet(declared, after) == {};
  }

  lemma CreatedOtherwise(q: Rules, declared: Fields)
    requires RulesOk(q) && Accepts(q, map[], declared) && !CreateSettling(q, declared)
    ensures Diff(declared, Inserted(q, declared)) != []
  {
    hide Diff, ValuesEqual, Inserted, Patched, RulesOk, Kept, Stamp, PinsType, SetsSize;
    if Stamp(q, Patched(q, map[], declared)).Some? && INSTANCE_TYPES in declared {
      StampedOver(q, declared);
    } else if f :| f in declared && f != MERGED && !ValuesEqual(declared[f], Kept(q, f, declared[f])) {
      CreatedField(q, declared, f);
      if Cleared(q, declared, f).Some? { KeptOrCleared(q, declared, f); }
      StillDiffersWhole(declared, Inserted(q, declared), f);
    } else {
      var f := if SetsSize(q, declared) then INSTANCE_TYPES else NODE_SIZE;
      CreatedField(q, declared, f);
      StillDiffersWhole(declared, Inserted(q, declared), f);
    }
  }

  lemma KeptOrCleared(q: Rules, declared: Fields, f: string)
    requires RulesOk(q) && Accepts(q, map[], declared) && f in declared && f != MERGED && Cleared(q, declared, f).Some?
    ensures ValuesEqual(declared[f], Cleared(q, declared, f).value) ==> ValuesEqual(declared[f], Kept(q, f, declared[f]))
  {
    hide ValuesEqual, RulesOk;
    ClearedIsItself(q, f, declared[f], Cleared(q, declared, f).value);
  }

  /** A default type stamped over declared types is not what was declared. */
  lemma StampedOver(q: Rules, declared: Fields)
    requires RulesOk(q) && Accepts(q, map[], declared)
    requires Stamp(q, Patched(q, map[], declared)).Some? && INSTANCE_TYPES in declared
    ensures Diff(declared, Inserted(q, declared)) != []
  {
    hide Diff, ValuesEqual, Patched;
    PatchedField(q, map[], declared, INSTANCE_TYPES);
    PatchedField(q, map[], declared, NODE_SIZE);
    var v, after := declared[INSTANCE_TYPES], Inserted(q, declared);
    assert NoTypes(Canonical(v));
    ValuesEqualMeans(v, Get(after, INSTANCE_TYPES));
    StillDiffersWhole(declared, after, INSTANCE_TYPES);
  }

  // ----- the values an apply aims for -----

  /** A declaration every update settles, judged by the identity: each value is taken and kept as it is
      declared, the merged field is a mapping without an empty key whose every knob the identity's cloud takes,
      and a declared size stands beside no types. */
  predicate UpdateOk(q: Rules, id: Value, declared: Fields) {
    && (forall f :: f in declared && f != MERGED ==>
          WholeAccepted(q, f, declared[f]) && ValuesEqual(declared[f], Kept(q, f, declared[f])))
    && (MERGED in declared ==>
          ByKey(MERGED, declared[MERGED]) && forall k :: k in KeysOf(declared[MERGED]) ==>
            k != "" && KnobAccepted(q, id, k, KeysOf(declared[MERGED])[k]))
    && (q.sized && INSTANCE_TYPES in declared && !NoSize(declared) ==> ValuesEqual(declared[INSTANCE_TYPES], List([])))
  }

  predicate NoSize(declared: Fields) {
    Canonical(Get(declared, NODE_SIZE)) == Null
  }

  /** ... and whose create does: the merged field is an object and a cloud is known, and declared absence of
      types and size stands beside no default type. */
  predicate CreateOk(q: Rules, declared: Fields) {
    var id := IdentityOf(map[], declared);
    && UpdateOk(q, id, declared)
    && (MERGED in declared ==> MergedAccepted(q, id, declared[MERGED]))
    && (q.sized && INSTANCE_TYPES in declared && NoSize(declared) && NoTypes(Canonical(declared[INSTANCE_TYPES])) ==>
          q.defaultType(id) == None)
  }

  /** What is stored of a component that is there or not. */
  function StoredIn(current: Option<Fields>): Fields {
    if current.Some? then current.value else map[]
  }

  /** A declaration one request settles, whatever else is stored: by its own identity, or where it declares
      none by that of the component. */
  predicate DeclOk(q: Rules, declared: Fields, current: Option<Fields>) {
    if current == None then CreateOk(q, declared) else UpdateOk(q, IdentityOf(current.value, declared), declared)
  }

  /** From every stored state judged by the identity. */
  ghost predicate EveryUpdateSettles(q: Rules, id: Value, declared: Fields) {
    forall current :: IdentityOf(current, declared) == id ==> Diff(declared, AfterApply(q, declared, current)) == []
  }

  /** `DeclOk` is that very condition. */
  lemma DeclOkIff(q: Rules, declared: Fields, current: Option<Fields>)
    requires RulesOk(q)
    ensures DeclOk(q, declared, current) <==>
      && EveryUpdateSettles(q, IdentityOf(StoredIn(current), declared), declared)
      && (current == None ==> Accepts(q, map[], declared) && Diff(declared, Inserted(q, declared)) == [])
  {
    hide Diff, AfterApply, Inserted, UpdateOk, CreateOk, RulesOk, Accepts, EveryUpdateSettles, IdentityOf;
    UpdateOkIff(q, declared, StoredIn(current));
    if current == None {
      if CreateOk(q, declared) {
        CreateIsUpdateOk(q, declared);
        DeclOkCreates(q, declared);
        CreatedIsDeclaredIff(q, declared);
      }
      if UpdateOk(q, IdentityOf(map[], declared), declared) && Accepts(q, map[], declared) && Diff(declared, Inserted(q, declared)) == [] {
        CreatedIsDeclaredIff(q, declared);
        SettledIsCreateOk(q, declared);
      }
    }
  }

  lemma CreateIsUpdateOk(q: Rules, declared: Fields)
    requires CreateOk(q, declared)
    ensures UpdateOk(q, IdentityOf(map[], declared), declared)
  {
  }

  lemma UpdateOkIff(q: Rules, declared: Fields, base: Fields)
    requires RulesOk(q)
    ensures UpdateOk(q, IdentityOf(base, declared), declared) <==> EveryUpdateSettles(q, IdentityOf(base, declared), declared)
  {
    hide Diff, AfterApply, UpdateOk, RulesOk, IdentityOf;
    var id := IdentityOf(base, declared);
    if UpdateOk(q, id, declared) {
      forall current | IdentityOf(current, declared) == id ensures Diff(declared, AfterApply(q, declared, current)) == [] {
        UpdateOkSettles(q, declared, current);
        Settles(q, declared, current);
      }
    }
    if EveryUpdateSettles(q, id, declared) { KeptEverywhere(q, declared, base); }
  }

  lemma UpdateOkSettles(q: Rules, declared: Fields, current: Fields)
    requires UpdateOk(q, IdentityOf(current, declared), declared)
    ensures AllSettling(q, declared, current) && SizedOneWay(q, declared, current)
  {
    hide ValuesEqual, Diff, IdentityOf, WholeAccepted, KnobAccepted, Kept;
    forall c | c in Diff(declared, current) ensures Settling(q, IdentityOf(current, declared), c) {
      InDiff(declared, current, c);
    }
    if INSTANCE_TYPES in declared { ValuesEqualMeans(declared[INSTANCE_TYPES], List([])); }
    if NODE_SIZE in declared { ValuesEqualMeans(declared[NODE_SIZE], Null); }
  }

  lemma SizesKept(q: Rules, id: Value, declared: Fields)
    requires UpdateOk(q, id, declared) && q.sized
    ensures WholesAccepted(q, declared)
    ensures SetsSize(q, declared) <==> Canonical(Get(declared, NODE_SIZE)) != Null
    ensures PinsType(q, declared) <==>
      Canonical(Get(declared, INSTANCE_TYPES)).List? && Canonical(Get(declared, INSTANCE_TYPES)) != List([])
    ensures SetsSize(q, declared) && INSTANCE_TYPES in declared ==> Canonical(declared[INSTANCE_TYPES]) == List([])
  {
    hide ValuesEqual;
    if NODE_SIZE in declared {
      ValuesEqualMeans(declared[NODE_SIZE], Kept(q, NODE_SIZE, declared[NODE_SIZE]));
      CanonicalShape(Kept(q, NODE_SIZE, declared[NODE_SIZE]));
    }
    if INSTANCE_TYPES in declared {
      ValuesEqualMeans(declared[INSTANCE_TYPES], Kept(q, INSTANCE_TYPES, declared[INSTANCE_TYPES]));
      ValuesEqualMeans(declared[INSTANCE_TYPES], List([]));
      CanonicalShape(Kept(q, INSTANCE_TYPES, declared[INSTANCE_TYPES]));
    }
  }

  /** Whether a declaration that is kept is stamped. */
  lemma StampMeans(q: Rules, declared: Fields)
    requires Accepts(q, map[], declared)
    requires forall f :: f in declared && f != MERGED ==> ValuesEqual(declared[f], Kept(q, f, declared[f]))
    ensures Stamp(q, Patched(q, map[], declared)) ==
      if q.sized && NoTypes(Canonical(Get(declared, INSTANCE_TYPES))) && Canonical(Get(declared, NODE_SIZE)) == Null
      then q.defaultType(Canonical(Get(declared, CLOUD_IDENTITY))) else None
  {
    hide ValuesEqual, Patched;
    if q.sized {
      StampedField(q, declared, INSTANCE_TYPES);
      StampedField(q, declared, NODE_SIZE);
      PatchedField(q, map[], declared, CLOUD_IDENTITY);
    }
  }

  lemma StampedField(q: Rules, declared: Fields, f: string)
    requires Accepts(q, map[], declared) && f != MERGED && f != CLOUD_IDENTITY
    requires f in declared ==> ValuesEqual(declared[f], Kept(q, f, declared[f]))
    ensures Cleared(q, declared, f) == None ==> Canonical(Get(Patched(q, map[], declared), f)) == Canonical(Get(declared, f))
    ensures f in declared ==> Canonical(Kept(q, f, declared[f])) == Canonical(declared[f])
    ensures Cleared(q, declared, f).Some? ==> Get(Patched(q, map[], declared), f) == Cleared(q, declared, f).value
    ensures var v := Get(Patched(q, map[], declared), f);
      (v == Null <==> Canonical(v) == Null) && (v == List([]) <==> Canonical(v) == List([]))
  {
    hide ValuesEqual, Patched;
    PatchedField(q, map[], declared, f);
    if f in declared { ValuesEqualMeans(declared[f], Kept(q, f, declared[f])); }
    CanonicalShape(Get(Patched(q, map[], declared), f));
  }

  lemma DeclOkCreates(q: Rules, declared: Fields)
    requires CreateOk(q, declared)
    ensures Accepts(q, map[], declared) && CreateSettling(q, declared)
  {
    hide ValuesEqual, Patched, Stamp, WholeAccepted, MergedAccepted, KnobAccepted, Kept;
    if q.sized { SizesKept(q, IdentityOf(map[], declared), declared); }
    StampMeans(q, declared);
    if NODE_SIZE in declared { ValuesEqualMeans(declared[NODE_SIZE], Null); }
    if INSTANCE_TYPES in declared { ValuesEqualMeans(declared[INSTANCE_TYPES], List([])); }
  }

  lemma SettledIsCreateOk(q: Rules, declared: Fields)
    requires UpdateOk(q, IdentityOf(map[], declared), declared) && Accepts(q, map[], declared) && CreateSettling(q, declared)
    ensures CreateOk(q, declared)
  {
    hide ValuesEqual, Patched, Stamp, WholeAccepted, MergedAccepted, KnobAccepted, Kept, UpdateOk;
    StampMeans(q, declared);
  }

  /** A value that is not equal to the one given. */
  function Other(v: Value): Value {
    if ValuesEqual(v, Null) then Bool(true) else Null
  }

  lemma OtherDiffers(v: Value)
    ensures !ValuesEqual(v, Other(v))
  {
    hide ValuesEqual;
    ValuesEqualMeans(v, Null);
    ValuesEqualMeans(v, Bool(true));
  }

  /** Nothing but the identity is stored. */
  function IdentityOnly(base: Fields): Fields {
    if CLOUD_IDENTITY in base then map[CLOUD_IDENTITY := base[CLOUD_IDENTITY]] else map[]
  }

  lemma KeptEverywhere(q: Rules, declared: Fields, base: Fields)
    requires RulesOk(q) && EveryUpdateSettles(q, IdentityOf(base, declared), declared)
    ensures UpdateOk(q, IdentityOf(base, declared), declared)
  {
    hide ValuesEqual, RulesOk, EveryUpdateSettles, WholeAccepted, KnobAccepted, Kept, IdentityOf, StringKeyed, IdentityOnly;
    forall f | f in declared && f != MERGED
      ensures WholeAccepted(q, f, declared[f]) && ValuesEqual(declared[f], Kept(q, f, declared[f]))
    {
      WholeIsKept(q, declared, base, f);
    }
    if MERGED in declared {
      MergedIsByKey(q, declared, base);
      forall k | k in KeysOf(declared[MERGED])
        ensures k != "" && KnobAccepted(q, IdentityOf(base, declared), k, KeysOf(declared[MERGED])[k])
      {
        KnobIsTaken(q, declared, base, k);
      }
    }
    SizedAlone(q, declared, base);
  }

  /** From a state of the identity every planned change settles. */
  lemma SettlesFrom(q: Rules, declared: Fields, base: Fields, current: Fields)
    requires RulesOk(q) && EveryUpdateSettles(q, IdentityOf(base, declared), declared)
    requires CLOUD_IDENTITY in declared || Get(current, CLOUD_IDENTITY) == Get(base, CLOUD_IDENTITY)
    ensures IdentityOf(current, declared) == IdentityOf(base, declared)
    ensures AllSettling(q, declared, current) && SizedOneWay(q, declared, current)
  {
    hide RulesOk, AllSettling, SizedOneWay, Diff, AfterApply;
    assert IdentityOf(current, declared) == IdentityOf(base, declared);
    SettlesIff(q, declared, current);
  }

  lemma WholeIsKept(q: Rules, declared: Fields, base: Fields, f: string)
    requires RulesOk(q) && EveryUpdateSettles(q, IdentityOf(base, declared), declared) && f in declared && f != MERGED
    ensures WholeAccepted(q, f, declared[f]) && ValuesEqual(declared[f], Kept(q, f, declared[f]))
  {
    hide ValuesEqual, RulesOk, EveryUpdateSettles, IdentityOf, Diff, WholeAccepted, Kept, SizedOneWay, Other;
    var current := IdentityOnly(base)[f := Other(declared[f])];
    SettlesFrom(q, declared, base, current);
    OtherDiffers(declared[f]);
    var c := FieldChange(f, "", Get(current, f), declared[f]);
    InDiff(declared, current, c);
    assert Settling(q, IdentityOf(base, declared), c);
  }

  lemma MergedIsByKey(q: Rules, declared: Fields, base: Fields)
    requires RulesOk(q) && EveryUpdateSettles(q, IdentityOf(base, declared), declared) && MERGED in declared
    ensures ByKey(MERGED, declared[MERGED])
  {
    hide ValuesEqual, RulesOk, EveryUpdateSettles, IdentityOf, Diff, SizedOneWay, Other;
    var current := IdentityOnly(base)[MERGED := Other(declared[MERGED])];
    SettlesFrom(q, declared, base, current);
    OtherDiffers(declared[MERGED]);
    var c := FieldChange(MERGED, "", Get(current, MERGED), declared[MERGED]);
    InDiff(declared, current, c);
    assert c in Diff(declared, current) ==> Settling(q, IdentityOf(base, declared), c);
  }

  lemma KnobIsTaken(q: Rules, declared: Fields, base: Fields, k: string)
    requires RulesOk(q) && EveryUpdateSettles(q, IdentityOf(base, declared), declared) && MERGED in declared
    requires ByKey(MERGED, declared[MERGED]) && k in KeysOf(declared[MERGED])
    ensures k != "" && KnobAccepted(q, IdentityOf(base, declared), k, KeysOf(declared[MERGED])[k])
  {
    hide ValuesEqual, RulesOk, EveryUpdateSettles, IdentityOf, Diff, SizedOneWay, Other, KnobAccepted;
    var want := KeysOf(declared[MERGED])[k];
    var current := IdentityOnly(base)[MERGED := Map(map[k := Other(want)])];
    SettlesFrom(q, declared, base, current);
    OtherDiffers(want);
    assert KeysOf(Get(current, MERGED)) == map[k := Other(want)];
    var c := FieldChange(MERGED, k, Other(want), want);
    InDiff(declared, current, c);
    assert Settling(q, IdentityOf(base, declared), c);
  }

  lemma SizedAlone(q: Rules, declared: Fields, base: Fields)
    requires RulesOk(q) && EveryUpdateSettles(q, IdentityOf(base, declared), declared)
    ensures q.sized && INSTANCE_TYPES in declared && !NoSize(declared) ==> ValuesEqual(declared[INSTANCE_TYPES], List([]))
  {
    hide ValuesEqual, RulesOk, EveryUpdateSettles, IdentityOf, AllSettling;
    SettlesFrom(q, declared, base, IdentityOnly(base));
    if q.sized && INSTANCE_TYPES in declared && !NoSize(declared) {
      ValuesEqualMeans(declared[NODE_SIZE], Null);
      assert PlansSize(q, declared, IdentityOnly(base));
    }
  }

  /** The stored values once the component has been created or brought up to date. */
  ghost function Goal(q: Rules, declared: Fields, current: Option<Fields>): Fields
    requires DeclOk(q, declared, current)
  {
    match current
    case None =>
      DeclOkCreates(q, declared);
      Inserted(q, declared)
    case Some(c) => AfterApply(q, declared, c)
  }

  lemma NothingSentNothingChanged(q: Rules, stored: Fields)
    ensures AfterUpdate(q, stored, Body([])) == stored
  {
  }

  /** At the goal nothing differs, the declaration still settles, and the goal is its own goal. */
  lemma GoalSettles(q: Rules, declared: Fields, current: Option<Fields>)
    requires DeclOk(q, declared, current)
    ensures Diff(declared, Goal(q, declared, current)) == []
    ensures DeclOk(q, declared, Some(Goal(q, declared, current)))
    ensures Goal(q, declared, Some(Goal(q, declared, current))) == Goal(q, declared, current)
  {
    hide Diff, UpdateOk, AfterApply, Inserted, IdentityOf;
    match current {
      case None =>
        DeclOkCreates(q, declared);
        CreatedIsDeclared(q, declared);
      case Some(c) =>
        UpdateOkSettles(q, declared, c);
        Settles(q, declared, c);
    }
    GoalKeepsIdentity(q, declared, current);
    NothingLeftToSend(q, declared, Goal(q, declared, current));
  }

  lemma NothingLeftToSend(q: Rules, declared: Fields, current: Fields)
    requires Diff(declared, current) == []
    ensures AfterApply(q, declared, current) == current
  {
    NothingSentNothingChanged(q, current);
  }

  /** A component is judged by the same identity at its goal. */
  lemma GoalKeepsIdentity(q: Rules, declared: Fields, current: Option<Fields>)
    requires DeclOk(q, declared, current)
    ensures IdentityOf(Goal(q, declared, current), declared) == IdentityOf(StoredIn(current), declared)
  {
    if CLOUD_IDENTITY !in declared {
      match current {
        case None => CreateKeepsIdentity(q, declared);
        case Some(c) => UpdateKeepsIdentity(q, declared, c);
      }
    }
  }

  lemma CreateKeepsIdentity(q: Rules, declared: Fields)
    requires CreateOk(q, declared) && CLOUD_IDENTITY !in declared
    ensures Accepts(q, map[], declared) && Get(Inserted(q, declared), CLOUD_IDENTITY) == Null
  {
    hide UpdateOk, Patched, CreateOk, Stamp;
    DeclOkCreates(q, declared);
    PatchedField(q, map[], declared, CLOUD_IDENTITY);
  }

  lemma UpdateKeepsIdentity(q: Rules, declared: Fields, current: Fields)
    requires CLOUD_IDENTITY !in declared
    ensures Get(AfterApply(q, declared, current), CLOUD_IDENTITY) == Get(current, CLOUD_IDENTITY)
  {
    hide Diff, Body, Patched, ValuesEqual;
    WholeFieldSent(declared, current, CLOUD_IDENTITY);
    var b := Body(Diff(declared, current));
    if Accepts(q, current, b) { PatchedField(q, current, b, CLOUD_IDENTITY); }
  }

  // ----- two declarations that never settle -----

  /** A cluster declared with a size and with types, whose row has that size: each apply is accepted, and
      each undoes the one before. */
  lemma BothSizesNeverSettle(q: Rules, size: Value, types: seq<Value>)
    requires q.sized && types != [] && size != Null && Encodable(size) && AllPlain(types)
    requires q.parse(NODE_SIZE, size) == Some(size) && Canonical(size) == size
    requires q.parse(INSTANCE_TYPES, List(types)) == Some(List(types))
    ensures var declared: Fields := map[NODE_SIZE := size, INSTANCE_TYPES := List(types)];
      var first: Fields := map[NODE_SIZE := size, INSTANCE_TYPES := List([])];
      var second: Fields := map[NODE_SIZE := Null, INSTANCE_TYPES := List(types)];
      && AfterApply(q, declared, first) == second && AfterApply(q, declared, second) == first
      && Diff(declared, first) != [] && Diff(declared, second) != []
  {
    hide Diff, ValuesEqual, Patched, Body;
    var declared: Fields := map[NODE_SIZE := size, INSTANCE_TYPES := List(types)];
    var first: Fields := map[NODE_SIZE := size, INSTANCE_TYPES := List([])];
    var second: Fields := map[NODE_SIZE := Null, INSTANCE_TYPES := List(types)];
    PlainTypes(types);
    WireSettles(size);
    WireSettles(List(types));
    ValuesEqualMeans(List(types), List([]));
    ValuesEqualMeans(size, Null);
    OneFieldSent(declared, first, INSTANCE_TYPES);
    OneFieldSent(declared, second, NODE_SIZE);
    TypesReplaceSize(q, size, types);
    SizeReplacesTypes(q, size, types);
    StillDiffersWhole(declared, first, INSTANCE_TYPES);
    StillDiffersWhole(declared, second, NODE_SIZE);
  }

  lemma TypesReplaceSize(q: Rules, size: Value, types: seq<Value>)
    requires q.sized && types != [] && Encodable(List(types)) && Canonical(List(types)) == List(types)
    requires q.parse(INSTANCE_TYPES, List(types)) == Some(List(types))
    ensures var body: Fields := map[INSTANCE_TYPES := List(types)];
      && Accepts(q, map[NODE_SIZE := size, INSTANCE_TYPES := List([])], body)
      && Patched(q, map[NODE_SIZE := size, INSTANCE_TYPES := List([])], body)
         == map[NODE_SIZE := Null, INSTANCE_TYPES := List(types)]
  {
    hide Encodable, Canonical;
  }

  lemma SizeReplacesTypes(q: Rules, size: Value, types: seq<Value>)
    requires q.sized && size != Null && Encodable(size) && Canonical(size) == size
    requires q.parse(NODE_SIZE, size) == Some(size)
    ensures var body: Fields := map[NODE_SIZE := size];
      && Accepts(q, map[NODE_SIZE := Null, INSTANCE_TYPES := List(types)], body)
      && Patched(q, map[NODE_SIZE := Null, INSTANCE_TYPES := List(types)], body)
         == map[NODE_SIZE := size, INSTANCE_TYPES := List([])]
  {
    hide Encodable, Canonical;
  }

  predicate AllPlain(types: seq<Value>) {
    forall i :: 0 <= i < |types| ==> types[i].Str?
  }

  lemma PlainTypes(types: seq<Value>)
    requires AllPlain(types)
    ensures Encodable(List(types)) && Canonical(List(types)) == List(types)
  {
    assert Canonical(List(types)).items == types;
  }

  lemma OneFieldSent(declared: Fields, current: Fields, f: string)
    requires MERGED !in declared && Differs(declared, current, f)
    requires forall g :: Differs(declared, current, g) ==> g == f
    ensures Body(Diff(declared, current)) == map[f := declared[f]]
  {
    hide Diff, ValuesEqual, Body, Differs;
    IsDeclaredWhole(declared, current, f);
    forall g ensures g in Body(Diff(declared, current)) <==> g == f {
      if g == MERGED { NotSent(declared, current, g); } else { WholeFieldSent(declared, current, g); }
    }
    WholeFieldSent(declared, current, f);
  }

  lemma IsDeclaredWhole(declared: Fields, current: Fields, f: string)
    requires MERGED !in declared && Differs(declared, current, f)
    ensures f in declared && f != MERGED
  {
  }

  lemma NotSent(declared: Fields, current: Fields, f: string)
    requires f == MERGED && MERGED !in declared
    ensures f !in Body(Diff(declared, current))
  {
    hide Diff, ValuesEqual, Body;
    forall c | c in Diff(declared, current) ensures c.field != MERGED { InDiff(declared, current, c); }
    if f in Body(Diff(declared, current)) { MergedFieldSent(declared, current); }
  }

  /** A new cluster that declares no types and no size, on a cloud with a default type: the server stores
      the default, and the declaration differs from it. */
  lemma EmptyTypesAreStamped(q: Rules, t: string)
    requires RulesOk(q) && q.sized && q.defaultType(Null) == Some(t)
    ensures var declared: Fields := map[INSTANCE_TYPES := List([])];
      && Accepts(q, map[], declared)
      && Inserted(q, declared) == map[INSTANCE_TYPES := List([Str(t)])]
      && Diff(declared, Inserted(q, declared)) != []
  {
    hide Diff, ValuesEqual;
    var declared: Fields := map[INSTANCE_TYPES := List([])];
    assert Canonical(List([])) == List([]);
    assert Accepts(q, map[], declared);
    CreatedIsDeclaredIff(q, declared);
  }
}
