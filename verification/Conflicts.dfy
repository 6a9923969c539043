/** What a refused update is reported as (apps/cli/cmd/apply_conflict.go:29-91): the settings that moved
    on the server after the plan read the component. */
module Conflicts {
  import opened Options
  import opened Ordering
  import opened Values
  import opened ControlPlane

  /** A run that holds an environment: a job of some kind, or a promotion. */
  datatype HeldBy = HeldBy(kind: string, status: string, id: string)

  /** The server's 409: a run in progress (named while it still is), or its copy now (none once removed). */
  datatype Conflict = Busy(run: Option<HeldBy>) | Moved(current: Option<Component>)

  /** What the report calls a job. */
  datatype JobKind = ADeploy | ItsImageBuild | ADestroy

  datatype Report =
    | AsTheServerPutIt
    | RunFinished
    | PromotionInProgress(promotion: string, status: string)
    | JobInProgress(kind: JobKind, job: string, status: string)
    | Removed
    | Resaved
    | Changed(fields: seq<string>)

  /** Every setting whose value differs, whichever side has it and whether or not the file declares it. */
  function Differing(read: Fields, now: Fields): set<string> {
    set f | f in read.Keys + now.Keys && !ValuesEqual(Get(read, f), Get(now, f))
  }

  predicate Names(fields: seq<string>, s: set<string>) {
    Elements(fields) == s && StrictlySorted(StringLess, fields)
  }

  lemma StringsAreOrdered(s: set<string>)
    ensures TotalOn(StringLess, s)
  {
    forall a, b ensures !StringLess(a, a) && (a != b ==> StringLess(a, b) || StringLess(b, a)) { StringLessTotal(a, b); }
    forall a, b, c | StringLess(a, b) && StringLess(b, c) ensures StringLess(a, c) { StringLessTransitive(a, b, c); }
  }

  /** The fields of either copy, sorted. */
  method FieldsOfEither(read: Fields, now: Fields) returns (names: seq<string>)
    ensures Names(names, read.Keys + now.Keys)
  {
    names := [];
    var rest := read.Keys + now.Keys;
    while rest != {}
      invariant rest <= read.Keys + now.Keys && Elements(names) == read.Keys + now.Keys - rest && Distinct(names)
    {
      var f :| f in rest;
      rest := rest - {f};
      assert f !in Elements(names);
      assert Elements(names + [f]) == Elements(names) + {f};
      names := names + [f];
    }
    StringsAreOrdered(Elements(names));
    SortSorts(StringLess, names);
    SameMultiset(names, Sort(StringLess, names));
    names := Sort(StringLess, names);
  }

  /** `serverSideChanges`, by field. */
  method ServerSideChanges(read: Fields, now: Fields) returns (out: seq<string>)
    ensures Names(out, Differing(read, now))
  {
    hide ValuesEqual;
    var names := FieldsOfEither(read, now);
    out := [];
    for i := 0 to |names|
      invariant forall f :: f in out <==> f in names[..i] && !ValuesEqual(Get(read, f), Get(now, f))
      invariant StrictlySorted(StringLess, out)
    {
      var f := names[i];
      assert names[..i + 1] == names[..i] + [f];
      if ValuesEqual(Get(read, f), Get(now, f)) {
        continue;
      }
      forall g | g in out ensures StringLess(g, f) {
        var j :| 0 <= j < |names[..i]| && names[..i][j] == g;
      }
      out := out + [f];
    }
    assert names[..|names|] == names;
    forall f ensures f in names <==> f in read.Keys + now.Keys { assert f in names <==> f in Elements(names); }
  }

  /** The report: why nothing was changed, and the settings that moved are exactly the ones named. */
  method ComponentUpdateRefusal(read: Fields, conflict: Option<Conflict>) returns (r: Report)
    ensures conflict == None <==> r == AsTheServerPutIt
    ensures r == RunFinished <==> conflict.Some? && conflict.value.Busy? && conflict.value.run == None
    ensures conflict.Some? && conflict.value.Busy? && conflict.value.run.Some? ==>
      var run := conflict.value.run.value;
      && (r == PromotionInProgress(run.id, run.status) <==> run.kind == "PROMOTION")
      && (r == JobInProgress(ADestroy, run.id, run.status) <==> run.kind == "DESTROY")
      && (r == JobInProgress(ItsImageBuild, run.id, run.status) <==> run.kind == "BUILD")
      && (r == JobInProgress(ADeploy, run.id, run.status) <==> run.kind !in {"PROMOTION", "DESTROY", "BUILD"})
    ensures conflict.Some? && conflict.value.Moved? ==> (r == Removed <==> conflict.value.current == None)
    ensures conflict.Some? && conflict.value.Moved? && conflict.value.current.Some? ==>
      var moved := Differing(read, ComponentValues(conflict.value.current.value));
      && (r == Resaved <==> moved == {})
      && (moved != {} ==> r.Changed? && Names(r.fields, moved))
  {
    hide ValuesEqual;
    match conflict {
      case None => return AsTheServerPutIt;
      case Some(Busy(None)) => return RunFinished;
      case Some(Busy(Some(run))) =>
        if run.kind == "PROMOTION" {
          return PromotionInProgress(run.id, run.status);
        }
        var what := ADeploy;
        match run.kind {
          case "DESTROY" => what := ADestroy;
          case "BUILD" => what := ItsImageBuild;
          case _ =>
        }
        return JobInProgress(what, run.id, run.status);
      case Some(Moved(None)) => return Removed;
      case Some(Moved(Some(current))) =>
        var changed := ServerSideChanges(read, ComponentValues(current));
        if changed == [] {
          return Resaved;
        }
        HasElements(changed);
        return Changed(changed);
    }
  }

  /** Without NaN, no setting is named exactly when the two copies mean the same. */
  lemma NothingDiffersIff(read: Fields, now: Fields)
    requires NaNFree(Map(read)) && NaNFree(Map(now))
    ensures Differing(read, now) == {} <==>
      forall f :: f in read.Keys + now.Keys ==> Canonical(Get(read, f)) == Canonical(Get(now, f))
  {
    forall f | f in read.Keys + now.Keys
      ensures ValuesEqual(Get(read, f), Get(now, f)) <==> Canonical(Get(read, f)) == Canonical(Get(now, f))
    {
      ValuesEqualMeans(Get(read, f), Get(now, f));
    }
    if Differing(read, now) == {} {
      forall f | f in read.Keys + now.Keys ensures ValuesEqual(Get(read, f), Get(now, f)) {
        assert f !in Differing(read, now);
      }
    }
  }
}
