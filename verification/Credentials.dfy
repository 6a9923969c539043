/** What `export` takes for a credential (apps/cli/cmd/export.go:842-903), and that no depth of a value
    escapes it. */
module Credentials {
  import opened Options
  import opened Values

  /** The name and text tests, which fold case, width and look-alikes. `pairKey` is the spelling of a
      key under which a name/value pair names its setting; `valueKey` the one of `value`. */
  datatype Policy = Policy(
    credentialName: string -> bool,       // isCredentialKeyName
    nestedName: string -> bool,           // isNestedCredentialName
    pairKey: string -> bool,
    valueKey: string -> bool,
    secretText: string -> bool,           // stringHoldsCredential
    sameFolded: (string, string) -> bool, // strings.EqualFold
    knob: (string, string, string) -> bool) // providerConfigKeyAllowed: cloud, kind, key

  /** `{name: master_password, value: …}`. */
  predicate NamesCredential(p: Policy, k: string, v: Value) {
    v.Str? && p.pairKey(k) && p.nestedName(v.s)
  }

  /** `holdsCredential`. */
  predicate HoldsCredential(p: Policy, v: Value)
    decreases v
  {
    match v
    case Str(s) => p.secretText(s)
    case List(items) => exists i :: 0 <= i < |items| && HoldsCredential(p, items[i])
    case _ =>
      var m := StringKeyed(v);
      m.Some? && exists k :: k in m.value && (p.nestedName(k) || HoldsCredential(p, m.value[k]) || NamesCredential(p, k, m.value[k]))
  }

  /** A way into a value. */
  datatype Hop = Item(i: nat) | Key(k: string)

  function At(v: Value, path: seq<Hop>): Option<Value> {
    if path == [] then Some(v)
    else
      match path[0]
      case Item(i) => if v.List? && i < |v.items| then At(v.items[i], path[1..]) else None
      case Key(k) =>
        var m := StringKeyed(v);
        if m.Some? && k in m.value then At(m.value[k], path[1..]) else None
  }

  /** Nothing at this very place reads as a credential: not the text, not a key, not a named pair. */
  predicate CleanHere(p: Policy, v: Value) {
    && (v.Str? ==> !p.secretText(v.s))
    && (StringKeyed(v).Some? ==>
          forall k :: k in StringKeyed(v).value ==> !p.nestedName(k) && !NamesCredential(p, k, StringKeyed(v).value[k]))
  }

  ghost predicate CleanEverywhere(p: Policy, v: Value) {
    forall path :: At(v, path).Some? ==> CleanHere(p, At(v, path).value)
  }

  lemma {:induction false} CleanAt(p: Policy, v: Value, path: seq<Hop>)
    requires !HoldsCredential(p, v) && At(v, path).Some?
    ensures CleanHere(p, At(v, path).value)
    decreases |path|
  {
    if path != [] {
      match path[0] {
        case Item(i) => CleanAt(p, v.items[i], path[1..]);
        case Key(k) => CleanAt(p, StringKeyed(v).value[k], path[1..]);
      }
    }
  }

  lemma {:induction false} DirtyAt(p: Policy, v: Value) returns (path: seq<Hop>)
    requires HoldsCredential(p, v)
    ensures At(v, path).Some? && !CleanHere(p, At(v, path).value)
    decreases v
  {
    if v.List? {
      var i :| 0 <= i < |v.items| && HoldsCredential(p, v.items[i]);
      var rest := DirtyAt(p, v.items[i]);
      path := [Item(i)] + rest;
    } else if !v.Str? && CleanHere(p, v) {
      var m := StringKeyed(v).value;
      var k :| k in m && HoldsCredential(p, m[k]);
      var rest := DirtyAt(p, m[k]);
      path := [Key(k)] + rest;
    } else {
      path := [];
    }
  }

  /** `holdsCredential` finds a credential exactly when there is one at some depth. */
  lemma HoldsCredentialIff(p: Policy, v: Value)
    ensures HoldsCredential(p, v) <==> !CleanEverywhere(p, v)
  {
    if HoldsCredential(p, v) {
      var path := DirtyAt(p, v);
    } else {
      forall path | At(v, path).Some? ensures CleanHere(p, At(v, path).value) { CleanAt(p, v, path); }
    }
  }

  /** Writing numbers plainly neither hides a credential nor makes one. */
  lemma {:induction false} PlainValueHides(p: Policy, v: Value)
    ensures HoldsCredential(p, PlainValue(v)) == HoldsCredential(p, v)
    decreases v
  {
    match v
    case List(items) =>
      var q := PlainValue(v).items;
      forall i | 0 <= i < |items| ensures HoldsCredential(p, q[i]) == HoldsCredential(p, items[i]) { PlainValueHides(p, items[i]); }
    case Map(m) =>
      var q := PlainValue(v).fields;
      forall k | k in m
        ensures HoldsCredential(p, q[k]) == HoldsCredential(p, m[k]) && NamesCredential(p, k, q[k]) == NamesCredential(p, k, m[k])
      {
        PlainValueHides(p, m[k]);
      }
      assert StringKeyed(v).value == m && StringKeyed(PlainValue(v)).value == q;
    case _ =>
  }
}
