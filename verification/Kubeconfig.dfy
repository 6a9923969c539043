/** Merging a minted kubeconfig into the user's own (apps/cli/cmd/clusters_kubeconfig_write.go:75-183).
    A YAML mapping is the flat list of its keys and values, as the node tree has it. */
module Kubeconfig {
  import opened Options

  /** A node, without comments and style. */
  datatype Yaml =
    | Scalar(tag: string, text: string)
    | Mapping(content: seq<Yaml>)
    | Sequence(items: seq<Yaml>)
    | Alias(anchor: string)

  /** `Node.Value`. */
  function Text(y: Yaml): string {
    match y
    case Scalar(_, text) => text
    case Alias(anchor) => anchor
    case _ => ""
  }

  const CLUSTERS := "clusters"
  const USERS := "users"
  const CONTEXTS := "contexts"
  const CURRENT := "current-context"
  const STR := "!!str"
  const NULL := "!!null"

  function Key(k: string): Yaml {
    Scalar(STR, k)
  }

  // ----- a mapping -----

  /** Where the value of the first entry with the key is. */
  function ValueAt(content: seq<Yaml>, key: string): (i: Option<nat>)
    ensures i.Some? ==> 0 < i.value < |content| && i.value % 2 == 1 && Text(content[i.value - 1]) == key
    ensures i.Some? ==> forall j :: 0 <= j < i.value - 1 && j % 2 == 0 ==> Text(content[j]) != key
    ensures i == None ==> forall j :: 0 <= j && j + 1 < |content| && j % 2 == 0 ==> Text(content[j]) != key
  {
    if |content| < 2 then None
    else if Text(content[0]) == key then Some(1)
    else
      var i := ValueAt(content[2..], key);
      assert forall j :: 2 <= j < |content| ==> content[2..][j - 2] == content[j];
      if i == None then None else Some(i.value + 2)
  }

  function Value(content: seq<Yaml>, key: string): Option<Yaml> {
    var i := ValueAt(content, key);
    if i == None then None else Some(content[i.value])
  }

  /** The key set to a node, added at the end when it is absent. */
  function With(content: seq<Yaml>, key: string, y: Yaml): seq<Yaml> {
    var i := ValueAt(content, key);
    if i == None then content + [Key(key), y] else content[i.value := y]
  }

  /** Keys and values alternate. */
  predicate Paired(content: seq<Yaml>) {
    |content| % 2 == 0
  }

  lemma ValueAtIs(content: seq<Yaml>, key: string, i: nat)
    requires 0 < i < |content| && i % 2 == 1 && Text(content[i - 1]) == key
    requires forall j :: 0 <= j < i - 1 && j % 2 == 0 ==> Text(content[j]) != key
    ensures ValueAt(content, key) == Some(i)
  {
  }

  lemma ValueAtNone(content: seq<Yaml>, key: string)
    requires forall j :: 0 <= j && j + 1 < |content| && j % 2 == 0 ==> Text(content[j]) != key
    ensures ValueAt(content, key) == None
  {
  }

  /** Setting a key sets that key and moves nothing. */
  lemma WithMeans(content: seq<Yaml>, key: string, y: Yaml)
    requires Paired(content)
    ensures Paired(With(content, key, y)) && Value(With(content, key, y), key) == Some(y)
    ensures |content| <= |With(content, key, y)|
    ensures forall i :: 0 <= i < |content| && ValueAt(content, key) != Some(i) ==> With(content, key, y)[i] == content[i]
  {
    hide ValueAt, Text;
    var i := ValueAt(content, key);
    KeysStay(content, key, y);
    KeyText(key);
    ValueAtIs(With(content, key, y), key, if i == None then |content| + 1 else i.value);
  }

  /** ... and no other key. */
  lemma WithOther(content: seq<Yaml>, key: string, y: Yaml, other: string)
    requires Paired(content) && other != key
    ensures ValueAt(With(content, key, y), other) == ValueAt(content, other)
    ensures Value(With(content, key, y), other) == Value(content, other)
  {
    hide ValueAt, Text;
    var after, i, o := With(content, key, y), ValueAt(content, key), ValueAt(content, other);
    KeysStay(content, key, y);
    if o.Some? {
      ValueAtIs(after, other, o.value);
    } else {
      forall j | 0 <= j && j + 1 < |after| && j % 2 == 0 ensures Text(after[j]) != other {
        if j < |content| { assert Text(content[j]) != other; } else { assert after[j] == Key(key); KeyText(key); }
      }
      ValueAtNone(after, other);
    }
  }

  lemma KeyText(key: string)
    ensures Text(Key(key)) == key
  {
  }

  lemma KeysStay(content: seq<Yaml>, key: string, y: Yaml)
    requires Paired(content)
    ensures forall j :: 0 <= j < |content| && j % 2 == 0 ==> With(content, key, y)[j] == content[j]
  {
    hide ValueAt;
  }

  lemma WithAgain(content: seq<Yaml>, key: string, y: Yaml)
    requires Paired(content) && Value(content, key) == Some(y)
    ensures With(content, key, y) == content
  {
  }

  // ----- a section -----

  /** An entry called `name`. */
  predicate Called(y: Yaml, name: string) {
    y.Mapping? && Value(y.content, "name").Some? && Text(Value(y.content, "name").value) == name
  }

  /** What stays of a section. */
  function Kept(items: seq<Yaml>, name: string): seq<Yaml> {
    if items == [] then []
    else
      var last := items[|items| - 1];
      Kept(items[..|items| - 1], name) + if Called(last, name) then [] else [last]
  }

  /** The list under a section key; an absent or null one is an empty list, any other shape is refused. */
  function SectionItems(content: seq<Yaml>, key: string): Option<seq<Yaml>> {
    match Value(content, key)
    case None => Some([])
    case Some(Scalar(tag, _)) => if tag == NULL then Some([]) else None
    case Some(Sequence(items)) => Some(items)
    case _ => None
  }

  /** The one entry the incoming document has for a section. */
  function OneEntry(content: seq<Yaml>, key: string): Option<Yaml> {
    match Value(content, key)
    case Some(Sequence(items)) => if |items| == 1 then Some(items[0]) else None
    case _ => None
  }

  /** One section merged; None refuses the merge. */
  function MergedSection(content: seq<Yaml>, incoming: seq<Yaml>, key: string, name: string): Option<seq<Yaml>> {
    var entry, items := OneEntry(incoming, key), SectionItems(content, key);
    if entry == None || items == None then None
    else Some(With(content, key, Sequence(Kept(items.value, name) + [entry.value])))
  }

  function MergedSections(content: seq<Yaml>, incoming: seq<Yaml>, name: string): Option<seq<Yaml>> {
    match MergedSection(content, incoming, CLUSTERS, name)
    case None => None
    case Some(c1) =>
      match MergedSection(c1, incoming, USERS, name)
      case None => None
      case Some(c2) => MergedSection(c2, incoming, CONTEXTS, name)
  }

  function WithDefault(content: seq<Yaml>, key: string, text: string): seq<Yaml> {
    if Value(content, key) == None then With(content, key, Scalar(STR, text)) else content
  }

  function Finished(content: seq<Yaml>, name: string): seq<Yaml> {
    With(WithDefault(WithDefault(content, "apiVersion", "v1"), "kind", "Config"), CURRENT, Scalar(STR, name))
  }

  /** The merged top-level mapping. */
  function Merged(content: seq<Yaml>, incoming: seq<Yaml>, name: string): Option<seq<Yaml>> {
    var c := MergedSections(content, incoming, name);
    if c == None then None else Some(Finished(c.value, name))
  }

  // ----- documents -----

  /** A kubeconfig file by what parsing it gives. `Blank` is empty or white space, or no file at all;
      `NoNode` has only comments. */
  datatype Document = Blank | NoNode | Unparsable | NotAMapping | Top(content: seq<Yaml>)

  /** `parseKubeconfigMapping`. */
  function TopMapping(d: Document): Option<seq<Yaml>> {
    match d
    case Blank | NoNode => Some([])
    case Unparsable | NotAMapping => None
    case Top(content) => Some(content)
  }

  /** `mergeKubeconfig`: None is an error. */
  function MergedDocument(existing: Document, incoming: Document, name: string): Option<Document> {
    if TopMapping(incoming) == None then None
    else if existing == Blank then Some(incoming)
    else if TopMapping(existing) == None then None
    else
      var m := Merged(TopMapping(existing).value, TopMapping(incoming).value, name);
      if m == None then None else Some(Top(m.value))
  }

  // ----- renaming the minted document -----

  /** The one mapping a section of the minted document has. */
  function OneMapping(content: seq<Yaml>, key: string): Option<seq<Yaml>> {
    var e := OneEntry(content, key);
    if e.Some? && e.value.Mapping? then Some(e.value.content) else None
  }

  function Named(content: seq<Yaml>, name: string): Yaml {
    Mapping(With(content, "name", Scalar(STR, name)))
  }

  function RenamedSection(content: seq<Yaml>, key: string, name: string): Option<seq<Yaml>> {
    var e := OneMapping(content, key);
    if e == None then None else Some(With(content, key, Sequence([Named(e.value, name)])))
  }

  /** The context pointed at the renamed cluster and user. */
  function Pointed(context: seq<Yaml>, name: string): seq<Yaml> {
    With(With(context, "cluster", Scalar(STR, name)), "user", Scalar(STR, name))
  }

  /** `renameKubeconfig`. */
  function Renamed(content: seq<Yaml>, name: string): Option<seq<Yaml>> {
    match RenamedSection(content, CLUSTERS, name)
    case None => None
    case Some(c1) =>
      match RenamedSection(c1, USERS, name)
      case None => None
      case Some(c2) =>
        match RenamedSection(c2, CONTEXTS, name)
        case None => None
        case Some(c3) =>
          var entry := OneMapping(c3, CONTEXTS);
          var context := if entry == None then None else Value(entry.value, "context");
          if context == None || !context.value.Mapping? then None
          else
            var c4 := With(c3, CONTEXTS, Sequence([Mapping(With(entry.value, "context", Mapping(Pointed(context.value.content, name))))]));
            Some(With(c4, CURRENT, Scalar(STR, name)))
  }

  // ----- the node tree, in place -----

  /** The top-level mapping node of a parsed document. */
  class Node {
    var content: seq<Yaml>

    constructor (c: seq<Yaml>)
      ensures content == c
    {
      content := c;
    }

    /** `mappingValue`, by the value's index. */
    method Find(key: string) returns (i: Option<nat>)
      ensures i == ValueAt(content, key)
    {
      var k := 0;
      while k + 1 < |content|
        invariant k % 2 == 0 && k <= |content| + 1
        invariant forall j :: 0 <= j < k && j % 2 == 0 && j + 1 < |content| ==> Text(content[j]) != key
      {
        if Text(content[k]) == key {
          ValueAtIs(content, key, k + 1);
          return Some(k + 1);
        }
        k := k + 2;
      }
      return None;
    }

    /** `setMappingScalar`. */
    method SetScalar(key: string, text: string)
      modifies this
      ensures content == With(old(content), key, Scalar(STR, text))
    {
      var i := Find(key);
      if i.Some? {
        content := content[i.value := Scalar(STR, text)];
      } else {
        content := content + [Key(key), Scalar(STR, text)];
      }
    }

    /** `sectionList`: the list's place in the mapping, made when there is none. */
    method SectionList(key: string) returns (i: Option<nat>)
      requires Paired(content)
      modifies this
      ensures i == None <==> SectionItems(old(content), key) == None
      ensures i.Some? ==> content == With(old(content), key, Sequence(SectionItems(old(content), key).value))
      ensures i.Some? ==> Paired(content) && ValueAt(content, key) == i && content[i.value] == Sequence(SectionItems(old(content), key).value)
    {
      i := Find(key);
      if i == None {
        content := content + [Key(key), Sequence([])];
        ValueAtIs(content, key, |content| - 1);
        return Some(|content| - 1);
      }
      if content[i.value].Scalar? && content[i.value].tag == NULL {
        content := content[i.value := Sequence([])];
        ValueAtIs(content, key, i.value);
      }
      if !content[i.value].Sequence? {
        return None;
      }
    }

    /** One turn of the merge's loop over the sections. */
    method MergeSection(incoming: seq<Yaml>, key: string, name: string) returns (ok: bool)
      requires Paired(content)
      modifies this
      ensures ok <==> MergedSection(old(content), incoming, key, name).Some?
      ensures ok ==> Paired(content) && content == MergedSection(old(content), incoming, key, name).value
    {
      var entry := OneEntry(incoming, key);
      if entry == None {
        return false;
      }
      ghost var before := content;
      var i := SectionList(key);
      if i == None {
        return false;
      }
      ghost var items := SectionItems(before, key).value;
      var have := content[i.value].items;
      var list := new Yaml[|have|](k requires 0 <= k < |have| => have[k]);
      assert list[..] == items;
      var merged, n := CompactAndAppend(list, name, entry.value);
      content := content[i.value := Sequence(merged[..n])];
      SetTwice(before, key, Sequence(items), Sequence(Kept(items, name) + [entry.value]));
      return true;
    }

    /** `mergeKubeconfig`, once both documents are parsed. */
    method Merge(incoming: seq<Yaml>, name: string) returns (ok: bool)
      requires Paired(content)
      modifies this
      ensures ok <==> Merged(old(content), incoming, name).Some?
      ensures ok ==> content == Merged(old(content), incoming, name).value
    {
      hide ValueAt, With, MergedSection, Paired;
      ok := MergeSection(incoming, CLUSTERS, name);
      if ok { ok := MergeSection(incoming, USERS, name); }
      if ok { ok := MergeSection(incoming, CONTEXTS, name); }
      if !ok {
        return;
      }
      var i := Find("apiVersion");
      if i == None {
        SetScalar("apiVersion", "v1");
      }
      i := Find("kind");
      if i == None {
        SetScalar("kind", "Config");
      }
      SetScalar(CURRENT, name);
    }

    /** One turn of the renaming loop. */
    method RenameSection(key: string, name: string) returns (ok: bool)
      modifies this
      ensures ok <==> RenamedSection(old(content), key, name).Some?
      ensures ok ==> content == RenamedSection(old(content), key, name).value
    {
      var i := Find(key);
      if i == None || !content[i.value].Sequence? || |content[i.value].items| != 1 || !content[i.value].items[0].Mapping? {
        return false;
      }
      var entry := new Node(content[i.value].items[0].content);
      entry.SetScalar("name", name);
      content := content[i.value := Sequence([Mapping(entry.content)])];
      return true;
    }

    /** `renameKubeconfig`. */
    method Rename(name: string) returns (ok: bool)
      requires Paired(content)
      modifies this
      ensures ok <==> Renamed(old(content), name).Some?
      ensures ok ==> content == Renamed(old(content), name).value
    {
      hide ValueAt, With;
      ok := RenameSection(CLUSTERS, name);
      if ok { ok := RenameSection(USERS, name); }
      if ok { ok := RenameSection(CONTEXTS, name); }
      if !ok {
        return;
      }
      ghost var c3 := content;
      var entry := OneMapping(content, CONTEXTS);
      if entry == None {
        return false;
      }
      var context := Value(entry.value, "context");
      if context == None || !context.value.Mapping? {
        return false;
      }
      var node := new Node(context.value.content);
      node.SetScalar("cluster", name);
      node.SetScalar("user", name);
      content := With(content, CONTEXTS, Sequence([Mapping(With(entry.value, "context", Mapping(node.content)))]));
      SetScalar(CURRENT, name);
    }
  }

  lemma SetTwice(content: seq<Yaml>, key: string, y: Yaml, z: Yaml)
    requires Paired(content)
    ensures With(With(content, key, y), key, z) == With(content, key, z)
    ensures ValueAt(With(content, key, y), key).Some?
  {
    var i := ValueAt(content, key);
    ValueAtIs(With(content, key, y), key, if i == None then |content| + 1 else i.value);
  }

  /** The in-place compaction: entries called `name` are dropped and the incoming one is appended, in the
      list's own storage as long as there is room for it. */
  method CompactAndAppend(list: array<Yaml>, name: string, entry: Yaml) returns (merged: array<Yaml>, n: nat)
    modifies list
    ensures n <= merged.Length && merged[..n] == Kept(old(list[..]), name) + [entry]
    ensures merged == list || fresh(merged)
  {
    var kept := 0;
    for i := 0 to list.Length
      invariant kept <= i
      invariant list[..kept] == Kept(old(list[..i]), name)
      invariant list[i..] == old(list[i..])
    {
      assert old(list[..i + 1])[..i] == old(list[..i]);
      var item := list[i];
      assert item == list[i..][0] == old(list[i]);
      if Called(item, name) {
        continue;
      }
      list[kept] := item;
      kept := kept + 1;
    }
    assert old(list[..list.Length]) == old(list[..]);
    if kept < list.Length {
      list[kept] := entry;
      return list, kept + 1;
    }
    merged := new Yaml[kept + 1](k requires 0 <= k <= kept reads list => if k < kept && k < list.Length then list[k] else entry);
    n := kept + 1;
    assert merged[..n] == list[..kept] + [entry];
  }
}
