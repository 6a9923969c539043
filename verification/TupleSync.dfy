/** The OpenFGA dual-write (ee/src/fga-tuple-sync.ts): reading a store page by page to exhaustion, writing
    to it in batches, and replacing or revoking what a grant put there. */
module TupleSync {
  import opened Options
  import opened Ordering

  /** An object, `type:id`; a subject is an object or a team's members. */
  datatype Obj = Obj(kind: string, id: string)
  datatype Subject = Of(obj: Obj) | Members(team: string)

  datatype Tuple = Tuple(user: Subject, relation: string, obj: Obj)

  const ORG := "org"
  const TEAM := "team"
  const USER := "user"
  const PARENT := "parent"

  const BATCH := 80
  const MAX_READ_PAGES := 1000

  // ----- chunk -----

  function Flat<T>(xss: seq<seq<T>>): seq<T> {
    if xss == [] then [] else Flat(xss[..|xss| - 1]) + xss[|xss| - 1]
  }

  /** The chunks put together are the list, none is empty, and none but the last falls short of the size. */
  method Chunk<T>(items: seq<T>, size: nat) returns (out: seq<seq<T>>)
    requires size > 0
    ensures Flat(out) == items
    ensures forall i :: 0 <= i < |out| ==> 0 < |out[i]| <= size
    ensures forall i :: 0 <= i < |out| - 1 ==> |out[i]| == size
  {
    out := [];
    var i := 0;
    while i < |items|
      invariant Flat(out) == items[..if i < |items| then i else |items|]
      invariant forall j :: 0 <= j < |out| ==> 0 < |out[j]| <= size && (i < |items| ==> |out[j]| == size)
      invariant forall j :: 0 <= j < |out| - 1 ==> |out[j]| == size
    {
      var end := if i + size < |items| then i + size else |items|;
      ghost var before := out;
      out := out + [items[i..end]];
      assert out[..|out| - 1] == before;
      assert items[..i] + items[i..end] == items[..end];
      i := i + size;
    }
    assert items[..|items|] == items;
  }

  // ----- reading -----

  /** What a read asks for; a type-only object has no id. */
  datatype Filter = Filter(user: Option<Subject>, relation: Option<string>, kind: string, id: Option<string>)

  predicate Matches(f: Filter, t: Tuple) {
    && (f.user.Some? ==> t.user == f.user.value) && (f.relation.Some? ==> t.relation == f.relation.value)
    && t.obj.kind == f.kind && (f.id.Some? ==> t.obj.id == f.id.value)
  }

  /** A page: its entries, with or without a key, and the token of the next page; an empty or absent one
      ends the walk. */
  datatype Page = Page(entries: seq<Option<Tuple>>, next: string)

  /** The entries that have a key. */
  function Keys(entries: seq<Option<Tuple>>): seq<Tuple> {
    if entries == [] then []
    else
      var last := entries[|entries| - 1];
      Keys(entries[..|entries| - 1]) + if last.Some? then [last.value] else []
  }

  /** A server's answers to one filter: by the token of the request, none for the first. */
  type Pages = Option<string> -> Page

  /** The token the request for page `n` carries. */
  function TokenAt(pages: Pages, n: nat): Option<string> {
    if n == 0 then None else Some(pages(TokenAt(pages, n - 1)).next)
  }

  function PageAt(pages: Pages, n: nat): Page {
    pages(TokenAt(pages, n))
  }

  /** The first `n` pages, concatenated. */
  function Content(pages: Pages, n: nat): seq<Tuple> {
    if n == 0 then [] else Content(pages, n - 1) + Keys(PageAt(pages, n - 1).entries)
  }

  /** Page `n` is the last. */
  ghost predicate EndsAt(pages: Pages, n: nat) {
    PageAt(pages, n).next == "" && forall i: nat :: i < n ==> PageAt(pages, i).next != ""
  }

  /** `readAllTuples`: every tuple of every page, or an error — never a part. */
  method ReadAllTuples(pages: Pages) returns (out: Option<seq<Tuple>>, count: nat)
    ensures count <= MAX_READ_PAGES
    ensures out.Some? <==> exists n: nat :: n < MAX_READ_PAGES && EndsAt(pages, n)
    ensures out.Some? ==> count > 0 && EndsAt(pages, count - 1) && out.value == Content(pages, count)
  {
    hide TokenAt, PageAt, Content;
    var all, seen := [], {};
    var token: Option<string> := None;
    count := 0;
    Beginning(pages);
    while count < MAX_READ_PAGES
      invariant count <= MAX_READ_PAGES
      invariant token == TokenAt(pages, count) && all == Content(pages, count)
      invariant forall i: nat :: i < count ==> PageAt(pages, i).next != "" && PageAt(pages, i).next in seen
      invariant forall x :: x in seen ==> exists i: nat :: i < count && PageAt(pages, i).next == x
    {
      var res := pages(token);
      all := all + Keys(res.entries);
      Following(pages, count);
      if res.next == "" {
        assert EndsAt(pages, count);
        return Some(all), count + 1;
      }
      if res.next in seen {
        ghost var i: nat :| i < count && PageAt(pages, i).next == res.next;
        RepeatNeverEnds(pages, i, count);
        return None, count + 1;
      }
      seen := seen + {res.next};
      token := Some(res.next);
      count := count + 1;
    }
    return None, count;
  }

  lemma Beginning(pages: Pages)
    ensures TokenAt(pages, 0) == None && Content(pages, 0) == []
  {
  }

  lemma Following(pages: Pages, n: nat)
    ensures PageAt(pages, n) == pages(TokenAt(pages, n))
    ensures TokenAt(pages, n + 1) == Some(PageAt(pages, n).next)
    ensures Content(pages, n + 1) == Content(pages, n) + Keys(PageAt(pages, n).entries)
  {
  }

  /** A token that comes again brings the same pages again. */
  lemma {:induction false} Cycles(pages: Pages, i: nat, j: nat, n: nat)
    requires i < j && PageAt(pages, i).next == PageAt(pages, j).next
    ensures PageAt(pages, i + 1 + n) == PageAt(pages, j + 1 + n)
  {
    if n > 0 { Cycles(pages, i, j, n - 1); }
  }

  /** ... so the walk would never end. */
  lemma {:induction false} RepeatNeverEnds(pages: Pages, i: nat, j: nat)
    requires i < j && PageAt(pages, i).next == PageAt(pages, j).next
    requires forall k: nat :: k <= j ==> PageAt(pages, k).next != ""
    ensures forall n: nat :: PageAt(pages, n).next != ""
  {
    forall n: nat ensures PageAt(pages, n).next != "" { InCycle(pages, i, j, n); }
  }

  lemma {:induction false} InCycle(pages: Pages, i: nat, j: nat, n: nat)
    requires i < j && PageAt(pages, i).next == PageAt(pages, j).next
    requires forall k: nat :: k <= j ==> PageAt(pages, k).next != ""
    ensures PageAt(pages, n).next != ""
    decreases n
  {
    if n > j {
      Cycles(pages, i, j, n - j - 1);
      InCycle(pages, i, j, n - (j - i));
    }
  }

  // ----- the store -----

  function Matching(tuples: set<Tuple>, f: Filter): set<Tuple> {
    set t | t in tuples && Matches(f, t)
  }

  /** How a server pages its store: a walk that ends has shown exactly what matches. */
  ghost predicate PagesTruly(pages: (set<Tuple>, Filter) -> Pages) {
    forall tuples, f, n: nat :: EndsAt(pages(tuples, f), n) ==> Elements(Content(pages(tuples, f), n + 1)) == Matching(tuples, f)
  }

  /** The walk over a filter ends within the pages a read goes through. */
  ghost predicate Readable(pages: (set<Tuple>, Filter) -> Pages, tuples: set<Tuple>, f: Filter) {
    exists n: nat :: n < MAX_READ_PAGES && EndsAt(pages(tuples, f), n)
  }

  function PairFilter(user: Subject, obj: Obj): Filter {
    Filter(Some(user), None, obj.kind, Some(obj.id))
  }

  /** The reads of one kind: what the member has on it, and which of its instances the org owns. */
  ghost predicate KindReadable(pages: (set<Tuple>, Filter) -> Pages, tuples: set<Tuple>, org: string, user: string, kind: string) {
    && Readable(pages, tuples, Filter(Some(Of(Obj(USER, user))), None, kind, None))
    && Readable(pages, tuples, Filter(Some(Of(Obj(ORG, org))), Some(PARENT), kind, None))
  }

  /** Every read behind a member's tuples in the org. */
  ghost predicate MemberReadable(pages: (set<Tuple>, Filter) -> Pages, tuples: set<Tuple>, org: string, user: string,
                                 kinds: seq<string>, teams: seq<string>) {
    && Readable(pages, tuples, Filter(Some(Of(Obj(USER, user))), None, ORG, Some(org)))
    && (forall i :: 0 <= i < |kinds| ==> KindReadable(pages, tuples, org, user, kinds[i]))
    && (teams != [] ==> Readable(pages, tuples, Filter(Some(Of(Obj(USER, user))), None, TEAM, None)))
  }

  /** The read before row `i` of a resync is replaced, when its turn comes. */
  ghost predicate RowReadable(pages: (set<Tuple>, Filter) -> Pages, tuples: set<Tuple>, rows: seq<Option<Grant>>,
                              expand: Grant -> seq<Tuple>, i: nat)
    requires i < |rows|
  {
    rows[i].Some? ==>
      Readable(pages, Resynced(tuples, rows[..i], expand), PairFilter(GrantSubject(rows[i].value), GrantObject(rows[i].value)))
  }

  /** OpenFGA's store, and its client. */
  class Store {
    var tuples: set<Tuple>
    const pages: (set<Tuple>, Filter) -> Pages

    constructor (t: set<Tuple>, p: (set<Tuple>, Filter) -> Pages)
      ensures tuples == t && pages == p
    {
      tuples, pages := t, p;
    }

    /** A write request: all of the batch or, when one of its tuples is there already, none. */
    method Write(writes: seq<Tuple>) returns (ok: bool)
      modifies this
      ensures ok <==> Distinct(writes) && forall t :: t in writes ==> t !in old(tuples)
      ensures tuples == if ok then old(tuples) + Elements(writes) else old(tuples)
    {
      ok := (forall i, j :: 0 <= i < j < |writes| ==> writes[i] != writes[j]) && forall t :: t in writes ==> t !in tuples;
      if ok {
        tuples := tuples + Elements(writes);
      }
    }

    /** A delete request: refused when the tuple is not there. */
    method Delete(t: Tuple) returns (ok: bool)
      modifies this
      ensures ok <==> t in old(tuples)
      ensures tuples == old(tuples) - {t}
    {
      ok := t in tuples;
      tuples := tuples - {t};
    }

    /** Every tuple that matches, or an error exactly when the walk is too long. */
    method ReadAll(f: Filter) returns (out: Option<seq<Tuple>>)
      requires PagesTruly(pages)
      ensures out.Some? <==> Readable(pages, tuples, f)
      ensures out.Some? ==> Elements(out.value) == Matching(tuples, f)
    {
      var count: nat;
      out, count := ReadAllTuples(pages(tuples, f));
    }

    // ----- writing and deleting -----

    /** One batch: in one request, or tuple by tuple when that is refused. */
    method WriteChunk(batch: seq<Tuple>)
      modifies this
      ensures tuples == old(tuples) + Elements(batch)
    {
      var ok := Write(batch);
      if ok {
        return;
      }
      for i := 0 to |batch|
        invariant tuples == old(tuples) + Elements(batch[..i])
      {
        assert batch[..i + 1] == batch[..i] + [batch[i]];
        var _ := Write([batch[i]]);
      }
      assert batch[..|batch|] == batch;
    }

    /** `writeTuples`: set union, whatever was there already and however often a tuple is listed. */
    method WriteTuples(list: seq<Tuple>)
      modifies this
      ensures tuples == old(tuples) + Elements(list)
    {
      var chunks := Chunk(list, BATCH);
      for i := 0 to |chunks|
        invariant tuples == old(tuples) + Elements(Flat(chunks[..i]))
      {
        assert chunks[..i + 1][..i] == chunks[..i];
        WriteChunk(chunks[i]);
      }
      assert chunks[..|chunks|] == chunks;
    }

    /** `deleteTuples`: set difference. */
    method DeleteTuples(list: seq<Tuple>)
      modifies this
      ensures tuples == old(tuples) - Elements(list)
    {
      var chunks := Chunk(list, BATCH);
      for i := 0 to |chunks|
        invariant tuples == old(tuples) - Elements(Flat(chunks[..i]))
      {
        assert chunks[..i + 1][..i] == chunks[..i];
        DeleteChunk(chunks[i]);
      }
      assert chunks[..|chunks|] == chunks;
    }

    method DeleteChunk(batch: seq<Tuple>)
      modifies this
      ensures tuples == old(tuples) - Elements(batch)
    {
      for i := 0 to |batch|
        invariant tuples == old(tuples) - Elements(batch[..i])
      {
        assert batch[..i + 1] == batch[..i] + [batch[i]];
        var _ := Delete(batch[i]);
      }
      assert batch[..|batch|] == batch;
    }

    // ----- grants -----

    /** `clearGrantTuples`: everything the subject has on the object. */
    method ClearPair(user: Subject, obj: Obj) returns (ok: bool)
      requires PagesTruly(pages)
      modifies this
      ensures ok <==> Readable(pages, old(tuples), PairFilter(user, obj))
      ensures tuples == if ok then old(tuples) - OnPair(old(tuples), user, obj) else old(tuples)
    {
      hide Readable;
      var existing := ReadAll(PairFilter(user, obj));
      if existing == None {
        return false;
      }
      DeleteTuples(existing.value);
      return true;
    }

    /** `syncScopedGrant`: the subject's tuples on the object, replaced. */
    method SyncScopedGrant(g: Grant, expansion: seq<Tuple>) returns (ok: bool)
      requires PagesTruly(pages)
      modifies this
      ensures ok <==> Readable(pages, old(tuples), PairFilter(GrantSubject(g), GrantObject(g)))
      ensures tuples == if ok then Replaced(old(tuples), g, Elements(expansion)) else old(tuples)
    {
      hide Readable;
      ok := ClearPair(GrantSubject(g), GrantObject(g));
      if ok {
        WriteTuples(expansion);
      }
    }

    /** `resyncRole`: every grant of the role, in the order the database lists them; a row that confers
        nothing is skipped. The first read that fails ends it, and leaves the grants done so far. */
    method ResyncRole(rows: seq<Option<Grant>>, expand: Grant -> seq<Tuple>) returns (ok: bool, ghost done: nat)
      requires PagesTruly(pages)
      modifies this
      ensures done <= |rows| && (ok <==> done == |rows|)
      ensures forall i :: 0 <= i < done ==> RowReadable(pages, old(tuples), rows, expand, i)
      ensures done < |rows| ==> !RowReadable(pages, old(tuples), rows, expand, done)
      ensures tuples == Resynced(old(tuples), rows[..done], expand)
    {
      hide Readable, Replaced, PagesTruly;
      done := 0;
      for i := 0 to |rows|
        invariant done == i && tuples == Resynced(old(tuples), rows[..i], expand)
        invariant forall j :: 0 <= j < i ==> RowReadable(pages, old(tuples), rows, expand, j)
      {
        assert rows[..i + 1][..i] == rows[..i];
        if rows[i].Some? {
          var synced := SyncScopedGrant(rows[i].value, expand(rows[i].value));
          if !synced {
            return false, i;
          }
        }
        done := i + 1;
      }
      assert rows[..|rows|] == rows;
      ok := true;
    }

    // ----- a member of an organization -----

    /** `memberTuplesInOrg`. */
    method MemberTuplesInOrg(org: string, user: string, kinds: seq<string>, listed: string -> seq<string>, teams: seq<string>)
      returns (out: Option<seq<Tuple>>)
      requires PagesTruly(pages)
      ensures out.Some? <==> MemberReadable(pages, tuples, org, user, kinds, teams)
      ensures out.Some? ==> Elements(out.value) == InOrg(tuples, org, user, kinds, listed, teams)
    {
      hide PagesTruly, Readable, KindReadable;
      var me := Of(Obj(USER, user));
      out := ReadAll(Filter(Some(me), None, ORG, Some(org)));
      if out == None {
        return;
      }
      var all := out.value;
      for i := 0 to |kinds|
        invariant Elements(all) == OnOrg(tuples, org, user) + OnInstances(tuples, org, user, kinds[..i], listed)
        invariant forall j :: 0 <= j < i ==> KindReadable(pages, tuples, org, user, kinds[j])
      {
        assert kinds[..i + 1] == kinds[..i] + [kinds[i]];
        var part := MemberTuplesOfKind(org, user, kinds[i], listed(kinds[i]));
        if part == None {
          return None;
        }
        InstancesSnoc(tuples, org, user, kinds[..i], kinds[i], listed);
        assert Elements(all + part.value) == Elements(all) + Elements(part.value);
        all := all + part.value;
      }
      assert kinds[..|kinds|] == kinds;
      if teams != [] {
        var mine := ReadAll(Filter(Some(me), None, TEAM, None));
        if mine == None {
          return None;
        }
        var kept := Keep(mine.value, (t: Tuple) => t.obj.id in teams);
        forall t ensures t in Elements(kept) <==> t in OnTeams(tuples, user, teams) {
          assert t in mine.value <==> t in Elements(mine.value);
        }
        assert Elements(all + kept) == Elements(all) + Elements(kept);
        all := all + kept;
      }
      out := Some(all);
    }

    /** One kind's turn: the member's tuples on instances the org owns. */
    method MemberTuplesOfKind(org: string, user: string, kind: string, ids: seq<string>) returns (out: Option<seq<Tuple>>)
      requires PagesTruly(pages)
      ensures out.Some? <==> KindReadable(pages, tuples, org, user, kind)
      ensures out.Some? ==> Elements(out.value) == OnKind(tuples, org, user, kind, ids)
    {
      hide PagesTruly, Readable;
      var mine := ReadAll(Filter(Some(Of(Obj(USER, user))), None, kind, None));
      var parents := ReadAll(Filter(Some(Of(Obj(ORG, org))), Some(PARENT), kind, None));
      if mine == None || parents == None {
        return None;
      }
      var inOrg: set<Obj> := (set t | t in parents.value :: t.obj) + (set id | id in ids :: Obj(kind, id));
      forall o: Obj ensures o in inOrg <==> (Tuple(Of(Obj(ORG, org)), PARENT, o) in tuples && o.kind == kind) || (o.kind == kind && o.id in ids) {
        if Tuple(Of(Obj(ORG, org)), PARENT, o) in tuples && o.kind == kind {
          assert Tuple(Of(Obj(ORG, org)), PARENT, o) in Elements(parents.value);
        }
        if o in (set t | t in parents.value :: t.obj) {
          var t :| t in parents.value && t.obj == o;
          assert t in Elements(parents.value);
        }
        if o.kind == kind && o.id in ids { assert o == Obj(kind, o.id); }
      }
      var kept := Keep(mine.value, (t: Tuple) => t.obj in inOrg);
      forall t ensures t in Elements(kept) <==> t in OnKind(tuples, org, user, kind, ids) {
        assert t in mine.value <==> t in Elements(mine.value);
      }
      return Some(kept);
    }

    /** `revokeMemberGrant`: exactly the member's tuples in the org are gone. */
    method RevokeMemberGrant(org: string, user: string, kinds: seq<string>, listed: string -> seq<string>, teams: seq<string>)
      returns (ok: bool)
      requires PagesTruly(pages)
      modifies this
      ensures ok <==> MemberReadable(pages, old(tuples), org, user, kinds, teams)
      ensures tuples == if ok then old(tuples) - InOrg(old(tuples), org, user, kinds, listed, teams) else old(tuples)
    {
      var found := MemberTuplesInOrg(org, user, kinds, listed, teams);
      if found == None {
        return false;
      }
      DeleteTuples(found.value);
      return true;
    }
  }

  function Keep(list: seq<Tuple>, p: Tuple -> bool): (r: seq<Tuple>)
    ensures forall t :: t in r <==> t in list && p(t)
  {
    if list == [] then []
    else
      var last := list[|list| - 1];
      Keep(list[..|list| - 1], p) + if p(last) then [last] else []
  }

  // ----- what a grant puts where -----

  datatype Principal = User(id: string) | Team(id: string)

  /** A grant with the keys it grants; a scope is the whole organization or one resource. */
  datatype Grant = Grant(org: string, principal: Principal, deny: bool, scope: Option<Obj>, keys: seq<string>)

  function GrantSubject(g: Grant): Subject {
    match g.principal
    case User(id) => Of(Obj(USER, id))
    case Team(id) => Members(id)
  }

  function GrantObject(g: Grant): Obj {
    if g.scope == None then Obj(ORG, g.org) else g.scope.value
  }

  function OnPair(tuples: set<Tuple>, user: Subject, obj: Obj): set<Tuple> {
    set t | t in tuples && t.user == user && t.obj == obj
  }

  function Replaced(tuples: set<Tuple>, g: Grant, expansion: set<Tuple>): set<Tuple> {
    tuples - OnPair(tuples, GrantSubject(g), GrantObject(g)) + expansion
  }

  function Resynced(tuples: set<Tuple>, rows: seq<Option<Grant>>, expand: Grant -> seq<Tuple>): set<Tuple> {
    if rows == [] then tuples
    else
      var before, last := Resynced(tuples, rows[..|rows| - 1], expand), rows[|rows| - 1];
      if last == None then before else Replaced(before, last.value, Elements(expand(last.value)))
  }

  /** `expandGrant`'s tuples sit on the grant's subject and object. */
  ghost predicate ExpandsInPlace(expand: Grant -> seq<Tuple>) {
    forall g, t :: t in expand(g) ==> t.user == GrantSubject(g) && t.obj == GrantObject(g)
  }

  predicate SamePair(g: Grant, user: Subject, obj: Obj) {
    GrantSubject(g) == user && GrantObject(g) == obj
  }

  /** Replacing a grant gives its subject exactly the expansion on its object, and touches no other pair. */
  lemma ReplacedMeans(tuples: set<Tuple>, g: Grant, expand: Grant -> seq<Tuple>, user: Subject, obj: Obj)
    requires ExpandsInPlace(expand)
    ensures OnPair(Replaced(tuples, g, Elements(expand(g))), user, obj) ==
      if SamePair(g, user, obj) then Elements(expand(g)) else OnPair(tuples, user, obj)
  {
    var after := OnPair(Replaced(tuples, g, Elements(expand(g))), user, obj);
    if SamePair(g, user, obj) {
      forall t ensures t in after <==> t in Elements(expand(g)) {}
    } else {
      forall t ensures t in after <==> t in OnPair(tuples, user, obj) {}
    }
  }

  /** Syncing twice is syncing once. */
  lemma ReplacedTwice(tuples: set<Tuple>, g: Grant, expand: Grant -> seq<Tuple>)
    requires ExpandsInPlace(expand)
    ensures var once := Replaced(tuples, g, Elements(expand(g))); Replaced(once, g, Elements(expand(g))) == once
  {
    var e := Elements(expand(g));
    var once := Replaced(tuples, g, e);
    ReplacedMeans(tuples, g, expand, GrantSubject(g), GrantObject(g));
    forall t ensures t in Replaced(once, g, e) <==> t in once {}
  }

  /** The last row that grants something to the subject on the object. */
  function LastOn(rows: seq<Option<Grant>>, user: Subject, obj: Obj): Option<Grant> {
    if rows == [] then None
    else
      var last := rows[|rows| - 1];
      if last.Some? && SamePair(last.value, user, obj) then last else LastOn(rows[..|rows| - 1], user, obj)
  }

  /** A resync leaves every pair with the expansion of the last grant on it alone, and every pair no grant
      is on as it was. */
  lemma {:induction false} LastGrantWins(tuples: set<Tuple>, rows: seq<Option<Grant>>, expand: Grant -> seq<Tuple>, user: Subject, obj: Obj)
    requires ExpandsInPlace(expand)
    ensures OnPair(Resynced(tuples, rows, expand), user, obj) ==
      match LastOn(rows, user, obj)
      case None => OnPair(tuples, user, obj)
      case Some(g) => Elements(expand(g))
  {
    hide Replaced, OnPair, ExpandsInPlace;
    if rows != [] {
      var front, last := rows[..|rows| - 1], rows[|rows| - 1];
      LastGrantWins(tuples, front, expand, user, obj);
      if last.Some? { ReplacedMeans(Resynced(tuples, front, expand), last.value, expand, user, obj); }
    }
  }

  /** Every grant's tuples are in the store. */
  ghost predicate AllInStore(tuples: set<Tuple>, rows: seq<Option<Grant>>, expand: Grant -> seq<Tuple>) {
    forall i :: 0 <= i < |rows| && rows[i].Some? ==> Elements(expand(rows[i].value)) <= tuples
  }

  /** No grant has a tuple that the last grant on the same subject and object lacks. */
  ghost predicate LastCoversAll(rows: seq<Option<Grant>>, expand: Grant -> seq<Tuple>) {
    forall i :: 0 <= i < |rows| && rows[i].Some? ==>
      var last := LastOn(rows, GrantSubject(rows[i].value), GrantObject(rows[i].value));
      last.Some? && Elements(expand(rows[i].value)) <= Elements(expand(last.value))
  }

  lemma {:induction false} LastOnExists(rows: seq<Option<Grant>>, i: nat)
    requires i < |rows| && rows[i].Some?
    ensures LastOn(rows, GrantSubject(rows[i].value), GrantObject(rows[i].value)).Some?
  {
    if i < |rows| - 1 {
      assert rows[..|rows| - 1][i] == rows[i];
      LastOnExists(rows[..|rows| - 1], i);
    }
  }

  /** The store mirrors all of the role's grants after a resync exactly when, on every subject and object,
      the last grant covers the others: of an allow and a deny at one scope only the later survives. */
  lemma ResyncCompleteIff(tuples: set<Tuple>, rows: seq<Option<Grant>>, expand: Grant -> seq<Tuple>)
    requires ExpandsInPlace(expand)
    ensures AllInStore(Resynced(tuples, rows, expand), rows, expand) <==> LastCoversAll(rows, expand)
  {
    var after := Resynced(tuples, rows, expand);
    forall i | 0 <= i < |rows| && rows[i].Some?
      ensures var g := rows[i].value; var last := LastOn(rows, GrantSubject(g), GrantObject(g));
        last.Some? && (Elements(expand(g)) <= after <==> Elements(expand(g)) <= Elements(expand(last.value)))
    {
      RowInStoreIff(tuples, rows, expand, i);
    }
  }

  lemma RowInStoreIff(tuples: set<Tuple>, rows: seq<Option<Grant>>, expand: Grant -> seq<Tuple>, i: nat)
    requires ExpandsInPlace(expand) && i < |rows| && rows[i].Some?
    ensures var g := rows[i].value; var last := LastOn(rows, GrantSubject(g), GrantObject(g));
      && last.Some?
      && (Elements(expand(g)) <= Resynced(tuples, rows, expand) <==> Elements(expand(g)) <= Elements(expand(last.value)))
  {
    hide Resynced, LastOn;
    var g, after := rows[i].value, Resynced(tuples, rows, expand);
    LastOnExists(rows, i);
    LastGrantWins(tuples, rows, expand, GrantSubject(g), GrantObject(g));
    forall t | t in Elements(expand(g))
      ensures t in after <==> t in OnPair(after, GrantSubject(g), GrantObject(g))
    {
    }
  }

  /** Where the resync writes a subject and object of another grant, its last grant there covers that one. */
  ghost predicate Spares(rows: seq<Option<Grant>>, others: seq<Option<Grant>>, expand: Grant -> seq<Tuple>) {
    forall i :: 0 <= i < |others| && others[i].Some? ==>
      var last := LastOn(rows, GrantSubject(others[i].value), GrantObject(others[i].value));
      last.Some? ==> Elements(expand(others[i].value)) <= Elements(expand(last.value))
  }

  /** Grants of other roles, in the store already, are all still there after a resync exactly when it spares
      them: clearing a subject's tuples on an object does not ask whose grant put them there. */
  lemma OthersSurviveIff(tuples: set<Tuple>, rows: seq<Option<Grant>>, others: seq<Option<Grant>>, expand: Grant -> seq<Tuple>)
    requires ExpandsInPlace(expand) && AllInStore(tuples, others, expand)
    ensures AllInStore(Resynced(tuples, rows, expand), others, expand) <==> Spares(rows, others, expand)
  {
    hide Resynced, LastOn;
    forall i | 0 <= i < |others| && others[i].Some?
      ensures var g := others[i].value; var last := LastOn(rows, GrantSubject(g), GrantObject(g));
        Elements(expand(g)) <= Resynced(tuples, rows, expand) <==>
        (last.Some? ==> Elements(expand(g)) <= Elements(expand(last.value)))
    {
      OtherSurvivesIff(tuples, rows, others[i].value, expand);
    }
  }

  lemma OtherSurvivesIff(tuples: set<Tuple>, rows: seq<Option<Grant>>, g: Grant, expand: Grant -> seq<Tuple>)
    requires ExpandsInPlace(expand) && Elements(expand(g)) <= tuples
    ensures var last := LastOn(rows, GrantSubject(g), GrantObject(g));
      Elements(expand(g)) <= Resynced(tuples, rows, expand) <==>
      (last.Some? ==> Elements(expand(g)) <= Elements(expand(last.value)))
  {
    hide Resynced, LastOn;
    var user, obj, after := GrantSubject(g), GrantObject(g), Resynced(tuples, rows, expand);
    LastGrantWins(tuples, rows, expand, user, obj);
    forall t | t in Elements(expand(g)) ensures t in tuples && (t in after <==> t in OnPair(after, user, obj)) {}
  }

  /** An allow and then a deny of the same person on the same resource: the allow's tuple is gone. */
  lemma AllowBeforeDenyIsLost(tuples: set<Tuple>, allow: Grant, deny: Grant, expand: Grant -> seq<Tuple>, t: Tuple)
    requires ExpandsInPlace(expand) && SamePair(deny, GrantSubject(allow), GrantObject(allow))
    requires t in expand(allow) && t !in expand(deny)
    ensures t !in Resynced(tuples, [Some(allow), Some(deny)], expand)
  {
    var rows := [Some(allow), Some(deny)];
    LastGrantWins(tuples, rows, expand, GrantSubject(allow), GrantObject(allow));
    assert rows[|rows| - 1] == Some(deny);
  }

  // ----- a member's tuples -----

  function OnOrg(tuples: set<Tuple>, org: string, user: string): set<Tuple> {
    set t | t in tuples && t.user == Of(Obj(USER, user)) && t.obj == Obj(ORG, org)
  }

  /** The org owns the instance: a `parent` tuple or the database says so. */
  predicate Owns(tuples: set<Tuple>, org: string, obj: Obj, ids: seq<string>) {
    Tuple(Of(Obj(ORG, org)), PARENT, obj) in tuples || obj.id in ids
  }

  function OnKind(tuples: set<Tuple>, org: string, user: string, kind: string, ids: seq<string>): set<Tuple> {
    set t | t in tuples && t.user == Of(Obj(USER, user)) && t.obj.kind == kind && Owns(tuples, org, t.obj, ids)
  }

  function OnInstances(tuples: set<Tuple>, org: string, user: string, kinds: seq<string>, listed: string -> seq<string>): set<Tuple> {
    set t | t in tuples && t.user == Of(Obj(USER, user)) && t.obj.kind in kinds && Owns(tuples, org, t.obj, listed(t.obj.kind))
  }

  function OnTeams(tuples: set<Tuple>, user: string, teams: seq<string>): set<Tuple> {
    set t | t in tuples && t.user == Of(Obj(USER, user)) && t.obj.kind == TEAM && t.obj.id in teams
  }

  lemma InstancesSnoc(tuples: set<Tuple>, org: string, user: string, kinds: seq<string>, kind: string, listed: string -> seq<string>)
    ensures OnInstances(tuples, org, user, kinds + [kind], listed) ==
      OnInstances(tuples, org, user, kinds, listed) + OnKind(tuples, org, user, kind, listed(kind))
  {
  }

  /** The member's tuples in the org: on the org itself, on the instances it owns, and on its teams. */
  function InOrg(tuples: set<Tuple>, org: string, user: string, kinds: seq<string>, listed: string -> seq<string>, teams: seq<string>): set<Tuple> {
    OnOrg(tuples, org, user) + OnInstances(tuples, org, user, kinds, listed) + OnTeams(tuples, user, teams)
  }

  /** A revoke in one org leaves the member's tuples of an object of another alone. */
  lemma RevokeStaysInOrg(tuples: set<Tuple>, org: string, user: string, kinds: seq<string>, listed: string -> seq<string>, teams: seq<string>, t: Tuple)
    requires t in tuples
    requires t.user != Of(Obj(USER, user))
      || (t.obj != Obj(ORG, org) && (t.obj.kind in kinds ==> !Owns(tuples, org, t.obj, listed(t.obj.kind)))
          && (t.obj.kind == TEAM ==> t.obj.id !in teams))
    ensures t in tuples - InOrg(tuples, org, user, kinds, listed, teams)
  {
  }
}
