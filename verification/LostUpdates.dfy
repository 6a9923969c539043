/** Optimistic concurrency (apps/cli/cmd/apply.go:503-515, 953-977): an update that carries the revision
    the plan read lands on that copy or not at all, whatever others write in between. */
module LostUpdates {
  import opened Options
  import opened Ordering
  import opened Values
  import opened FieldDiffs
  import opened Addons
  import opened ControlPlane
  import opened ServerInvariants
  import opened Plans
  import opened Applies
  import opened Applier
  import opened Addressing

  // ----- what a plan knows, while others write -----

  /** The revision the plan carries stands for the copy it read. */
  predicate CopyKnown(t: Server, c: ComponentPlan) {
    c.revision.Some? ==>
      && c.revision.value in t.history
      && var copy := t.history[c.revision.value];
         copy.kind == c.kind && (c.name == "" || copy.name == c.name) && copy.values == c.read
  }

  ghost predicate ChangesKnown(c: ComponentPlan) {
    c.action == Update ==> c.changes == Diff(c.fields, c.read)
  }

  ghost predicate EnvPlanKnown(w: World, e: EnvPlan, t: Server) {
    && (e.id != "" ==> IdNames(t, e.id, w.norm(e.name)))
    && (forall c :: c in e.components ==> CopyKnown(t, c) && ChangesKnown(c))
  }

  ghost predicate PlanKnown(w: World, envs: seq<EnvPlan>, t: Server) {
    forall e :: e in envs ==> EnvPlanKnown(w, e, t)
  }

  lemma PlanKnownGrows(w: World, envs: seq<EnvPlan>, s: Server, t: Server)
    requires PlanKnown(w, envs, s) && Keeps(s, t)
    ensures PlanKnown(w, envs, t)
  {
    hide ChangesKnown;
    forall e | e in envs ensures EnvPlanKnown(w, e, t) {
      assert EnvPlanKnown(w, e, s);
    }
  }

  /** A declared component is looked up by the name it is planned under. */
  predicate NamesMatch(kinds: seq<KindDecl>) {
    forall k, e :: k in kinds && e in k.entries && !k.list ==> e.name == ""
  }

  lemma {:induction false} DeclsMatch(kinds: seq<KindDecl>)
    requires NamesMatch(kinds)
    ensures forall d :: d in Decls(kinds) ==> d.find == d.name
  {
    if kinds != [] {
      DeclsMatch(kinds[..|kinds| - 1]);
      assert kinds[|kinds| - 1] in kinds;
    }
  }

  lemma ComponentKnown(w: World, d: Decl, s: Server, env: string)
    requires ServerOk(w, s) && d.find == d.name
    ensures CopyKnown(s, PlanComponent(d, RowsIn(s, env))) && ChangesKnown(PlanComponent(d, RowsIn(s, env)))
  {
    hide Diff, Canonical, ValuesEqual, EnvsOk, NamesOk, AddonsOk;
    var rows := RowsIn(s, env);
    var i := Find(rows, d.kind, d.find);
    if i.Some? {
      assert RowsOk(w, s.rows[env]) && RowsKnown(s.history, env, s.rows[env]);
      assert RowKnown(s.history, env, rows[i.value]);
      ValuesSurviveTheWire(rows[i.value]);
    }
  }

  lemma ComponentsKnown(w: World, ds: seq<Decl>, s: Server, env: string)
    requires ServerOk(w, s) && forall d :: d in ds ==> d.find == d.name
    ensures forall c :: c in PlanComponents(ds, RowsIn(s, env)) ==> CopyKnown(s, c) && ChangesKnown(c)
  {
    hide PlanComponent, CopyKnown, ChangesKnown, ServerOk;
    forall i | 0 <= i < |ds|
      ensures CopyKnown(s, PlanComponent(ds[i], RowsIn(s, env))) && ChangesKnown(PlanComponent(ds[i], RowsIn(s, env)))
    {
      ComponentKnown(w, ds[i], s, env);
    }
  }

  lemma NoRowsKnown(ds: seq<Decl>, s: Server)
    ensures forall c :: c in PlanComponents(ds, []) ==> CopyKnown(s, c) && ChangesKnown(c)
  {
  }

  lemma PlanExistingKnown(w: World, d: EnvDecl, e: Env, s: Server, env: string, stored: map<string, StoredAddon>)
    requires ServerOk(w, s) && NamesMatch(d.components) && IdNames(s, e.id, w.norm(d.name))
    ensures EnvPlanKnown(w, PlanExisting(w, d, e, if d.components != [] then RowsIn(s, env) else [], stored), s)
  {
    hide ServerOk, CopyKnown, ChangesKnown, PlanComponents, AddonOutcomes, PlansOf, EnvProblems, AddonProblems;
    DeclsMatch(d.components);
    ComponentsKnown(w, Decls(d.components), s, env);
    NoRowsKnown(Decls(d.components), s);
  }

  lemma PlanNewKnown(w: World, d: EnvDecl, s: Server)
    ensures EnvPlanKnown(w, PlanNew(w, d), s)
  {
    hide CopyKnown, ChangesKnown, AddonOutcomes, PlansOf, AddonProblems;
    NoRowsKnown(Decls(d.components), s);
  }

  /** The listed environments have the names they were listed under. */
  ghost predicate Listing(w: World, known: seq<Env>, s: Server) {
    forall e :: e in known ==> IdNames(s, e.id, w.norm(e.name))
  }

  lemma PlanEnvKnown(w: World, declaresAddons: bool, known: seq<Env>, d: EnvDecl, s: Server)
    requires WorldOk(w) && ServerOk(w, s) && NamesMatch(d.components) && Listing(w, known, s)
    ensures var r := PlanEnv(w, declaresAddons, known, d, s);
      ServerOk(w, r.server) && Grows(w, s, r.server) && (r.result.Some? ==> EnvPlanKnown(w, r.result.value, r.server))
  {
    hide WorldOk, ServerOk, EnvsGrow, Arrive, EnvPlanKnown, PlanExisting, PlanNew, NamesMatch, Meanwhile, FoundId, ReadOf;
    GrowsReflexive(w, s);
    var existing := Named(w, known, d.name);
    if existing == None {
      PlanNewKnown(w, d, s);
    } else {
      var e := existing.value;
      var s1 := AfterComponentRead(w, s, d);
      MeanwhileOk(w, s);
      var s2 := AfterAddonRead(w, s1, declaresAddons);
      MeanwhileOk(w, s1);
      GrowsReflexive(w, s1);
      GrowsTransitive(w, s, s1, s2);
      PlanExistingKnown(w, d, e, s1, FoundId(w, s, e.id), if declaresAddons then AddonsIn(s2, FoundId(w, s1, e.id)) else map[]);
      var r := PlanEnv(w, declaresAddons, known, d, s);
      if r.result.Some? {
        PlanKnownGrows(w, [r.result.value], s1, s2);
        assert r.result.value in [r.result.value];
      }
    }
  }

  lemma {:induction false} PlanEnvsKnown(w: World, declaresAddons: bool, known: seq<Env>, ds: seq<EnvDecl>, s: Server)
    requires WorldOk(w) && ServerOk(w, s) && (forall d :: d in ds ==> NamesMatch(d.components)) && Listing(w, known, s)
    ensures var r := PlanEnvs(w, declaresAddons, known, ds, s);
      ServerOk(w, r.server) && Grows(w, s, r.server) && (r.result.Some? ==> PlanKnown(w, r.result.value, r.server))
  {
    hide WorldOk, ServerOk, EnvsGrow, PlanEnv, EnvPlanKnown, NamesMatch;
    GrowsReflexive(w, s);
    if ds != [] {
      var front := PlanEnvs(w, declaresAddons, known, ds[..|ds| - 1], s);
      PlanEnvsKnown(w, declaresAddons, known, ds[..|ds| - 1], s);
      if front.result.Some? {
        PlanEnvKnown(w, declaresAddons, known, ds[|ds| - 1], front.server);
        var last := PlanEnv(w, declaresAddons, known, ds[|ds| - 1], front.server);
        GrowsTransitive(w, s, front.server, last.server);
        PlanKnownGrows(w, front.result.value, front.server, last.server);
      }
    }
  }

  predicate FileNamesMatch(m: Manifest) {
    forall d :: d in m.envs ==> NamesMatch(d.components)
  }

  lemma ListingReadOk(w: World, s: Server)
    requires WorldOk(w) && ServerOk(w, s)
    ensures var r := ListingRead(w, s);
      ServerOk(w, r.server) && Grows(w, s, r.server) && (r.result.Some? ==> Listing(w, r.result.value, r.server))
  {
    hide WorldOk, ServerOk, Grows, Arrive;
    var s1 := Arrive(w, s);
    ArriveOk(w, s);
    ArriveOk(w, s1);
    GrowsTransitive(w, s, s1, Arrive(w, s1));
    forall e | e in Arrive(w, s1).envs ensures IdNames(Arrive(w, s1), e.id, w.norm(e.name)) { NameOfEnv(w, Arrive(w, s1), e); }
  }

  /** However others write while it reads, a plan's revisions are those of the copies it compared, and
      its ids those of environments of its names. */
  lemma PlanKnowsItsCopies(w: World, m: Manifest, s: Server)
    requires WorldOk(w) && ServerOk(w, s) && FileNamesMatch(m)
    ensures var r := PlanOf(w, m, s);
      && ServerOk(w, r.server) && Grows(w, s, r.server)
      && (r.result.Some? ==> PlanKnown(w, r.result.value.envs, r.server) && PlanIdsOk(w, r.result.value, r.server))
  {
    hide WorldOk, ServerOk, Grows, Arrive, PlanEnvs, EnvPlanKnown, UnmanagedNames, Sort, ListingRead, Listing;
    ListingReadOk(w, s);
    var known := ListingRead(w, s);
    if known.result.Some? {
      PlanEnvsKnown(w, DeclaresAddons(m), known.result.value, m.envs, known.server);
      var r := PlanOf(w, m, s);
      GrowsTransitive(w, s, known.server, r.server);
      if r.result.Some? {
        forall e | e in r.result.value.envs && e.id != "" ensures IdNames(r.server, e.id, w.norm(e.name)) {
          IdOfKnownPlan(w, e, r.server);
        }
      }
    }
  }

  lemma IdOfKnownPlan(w: World, e: EnvPlan, t: Server)
    requires EnvPlanKnown(w, e, t) && e.id != ""
    ensures IdNames(t, e.id, w.norm(e.name))
  {
  }

  // ----- one write -----

  /** The row is exactly the planned copy, and the write makes exactly the planned changes to it. */
  ghost predicate PlannedTransition(w: World, c: ComponentPlan, before: Option<Row>, after: Option<Row>) {
    && before.Some? && before.value.revision == c.revision && before.value.values == c.read
    && Accepts(w.rules(c.kind), c.read, Body(c.changes))
    && after.Some? && after.value.kind == before.value.kind && after.value.name == before.value.name
    && after.value.values == Patched(w.rules(c.kind), c.read, Body(c.changes))
  }

  /** The row is left as it was, or the planned transition is made; done only in the second case. */
  ghost predicate AsPlanned(w: World, c: ComponentPlan, before: Option<Row>, after: Option<Row>, ok: bool) {
    (before == after || PlannedTransition(w, c, before, after)) && (ok ==> PlannedTransition(w, c, before, after))
  }

  /** An update that carries a revision leaves the row as it finds it, or makes the planned transition;
      it is reported as done only in the second case. */
  ghost predicate NotLost(w: World, ev: Event) {
    ev.Wrote? && ev.plan.action == Update && ev.plan.revision.Some? ==>
      AsPlanned(w, ev.plan, ev.before, ev.after, ev.ok)
  }

  ghost predicate NoneLost(w: World, log: seq<Event>) {
    forall i :: 0 <= i < |log| ==> NotLost(w, log[i])
  }

  /** The updated row is found again where it was. */
  lemma FindAfterSet(w: World, s: Server, env: string, i: nat, values: Fields, kind: string, name: string)
    requires Find(RowsIn(s, env), kind, name) == Some(i)
    ensures Find(RowsIn(SetRow(w, s, env, i, values), env), kind, name) == Some(i)
    ensures RowsIn(SetRow(w, s, env, i, values), env)[i].values == values
    ensures RowsIn(SetRow(w, s, env, i, values), env)[i].kind == RowsIn(s, env)[i].kind
    ensures RowsIn(SetRow(w, s, env, i, values), env)[i].name == RowsIn(s, env)[i].name
  {
    var rows := RowsIn(SetRow(w, s, env, i, values), env);
    var j := Find(rows, kind, name);
    assert rows[i].kind == kind;
  }

  lemma UpdateTransition(w: World, t: Server, env: string, c: ComponentPlan)
    requires ServerOk(w, t) && c.revision.Some? && CopyKnown(t, c)
    requires ServeUpdate(w, t, env, c.kind, c.name, Body(c.changes), c.revision).ok
    ensures var u := ServeUpdate(w, t, env, c.kind, c.name, Body(c.changes), c.revision).server;
      var i := Find(RowsIn(t, env), c.kind, c.name);
      && i.Some? && Find(RowsIn(u, env), c.kind, c.name) == i && u.envs == t.envs
      && PlannedTransition(w, c, Some(RowsIn(t, env)[i.value]), Some(RowsIn(u, env)[i.value]))
  {
    hide EnvsOk, Patched, Accepts, NamesOk, AddonsOk, Body;
    var i := Find(RowsIn(t, env), c.kind, c.name).value;
    var row := RowsIn(t, env)[i];
    assert RowsKnown(t.history, env, t.rows[env]);
    assert RowKnown(t.history, env, row);
    FindAfterSet(w, t, env, i, Patched(w.rules(c.kind), row.values, Body(c.changes)), c.kind, c.name);
  }

  /** What the request of a planned update comes to, once its environment has been looked up. */
  function ServedUpdate(w: World, s: Server, ref: string, c: ComponentPlan): Served {
    var t, e := Meanwhile(w, s), Found(w, s, ref);
    if e == None || !HasEnv(t, e.value.id) then Served(false, t)
    else ServeUpdate(w, t, e.value.id, c.kind, c.name, Body(c.changes), c.revision)
  }

  lemma RequestIsUpdate(w: World, s: Server, ref: string, c: ComponentPlan)
    requires c.action == Update && c.revision.Some?
    ensures RequestComponent(w, s, ref, c) == Answer(w, s.served, Meanwhile(w, s), ServedUpdate(w, s, ref, c))
  {
    hide Meanwhile, Found, ServeUpdate, Body;
  }

  /** The row before is as found, the row after as it is on `u`. */
  ghost predicate UpdateAsPlanned(w: World, s: Server, ref: string, c: ComponentPlan, u: Server, ok: bool) {
    AsPlanned(w, c, RowBefore(w, s, ref, c), RowAfter(w, s, ref, c, u), ok)
  }

  lemma AnswerAsPlanned(w: World, s: Server, served: Served, ref: string, c: ComponentPlan)
    requires UpdateAsPlanned(w, s, ref, c, served.server, served.ok)
    ensures var a := Answer(w, s.served, Meanwhile(w, s), served); UpdateAsPlanned(w, s, ref, c, a.server, a.ok)
  {
    hide PlannedTransition, Meanwhile, FoundId, RowIn;
  }

  lemma ServedAsPlanned(w: World, s: Server, ref: string, c: ComponentPlan)
    requires ServerOk(w, Meanwhile(w, s)) && c.revision.Some? && CopyKnown(Meanwhile(w, s), c)
    ensures var u := ServedUpdate(w, s, ref, c); UpdateAsPlanned(w, s, ref, c, u.server, u.ok)
  {
    hide ServerOk, PlannedTransition, ServeUpdate, CopyKnown, Body, Find, Meanwhile, Found;
    var t, env := Meanwhile(w, s), FoundId(w, s, ref);
    if ServedUpdate(w, s, ref, c).ok {
      UpdateTransition(w, t, env, c);
    } else if Found(w, s, ref).Some? && HasEnv(t, env) {
      RefusedUpdate(w, t, env, c);
    }
  }

  /** The request of a planned update with a revision, against a server others have been writing to, and
      wherever it lands. */
  lemma RequestNotLost(w: World, s: Server, ref: string, c: ComponentPlan)
    requires WorldOk(w) && ServerOk(w, s) && c.action == Update && c.revision.Some? && CopyKnown(s, c)
    ensures var a := RequestComponent(w, s, ref, c); UpdateAsPlanned(w, s, ref, c, a.server, a.ok)
  {
    hide WorldOk, ServerOk, Keeps, EnvsGrow, Meanwhile, RequestComponent, CopyKnown, UpdateAsPlanned, ServedUpdate, Answer;
    MeanwhileOk(w, s);
    CopyStillKnown(s, Meanwhile(w, s), c);
    RequestIsUpdate(w, s, ref, c);
    ServedAsPlanned(w, s, ref, c);
    AnswerAsPlanned(w, s, ServedUpdate(w, s, ref, c), ref, c);
  }

  lemma CopyStillKnown(s: Server, t: Server, c: ComponentPlan)
    requires Keeps(s, t) && CopyKnown(s, c)
    ensures CopyKnown(t, c)
  {
  }

  lemma RefusedUpdate(w: World, t: Server, env: string, c: ComponentPlan)
    requires !ServeUpdate(w, t, env, c.kind, c.name, Body(c.changes), c.revision).ok
    ensures ServeUpdate(w, t, env, c.kind, c.name, Body(c.changes), c.revision).server == t
  {
  }

  // ----- every write of a run -----

  lemma StepNotLost(w: World, wait: bool, p: Plan, r: Run, i: Instr)
    requires WorldOk(w) && ServerOk(w, r.server) && NoneLost(w, r.log)
    requires i.WriteComponent? && i.component in i.env.components && EnvPlanKnown(w, i.env, r.server)
    ensures NoneLost(w, Step(w, wait, p, r, i).log)
  {
    hide WorldOk, ServerOk, Grows, Arrive, Meanwhile, RowBefore, RowAfter, Found, FoundId, FoundById, EnabledIn, RequestComponent, PlannedTransition, ChangesKnown;
    var c := i.component;
    if r.status == Running && c.action == Update && c.revision.Some? {
      RequestNotLost(w, r.server, IdOf(w, r.ids, i.env.name), c);
    }
  }

  predicate ComponentInstr(p: Plan, i: Instr) {
    i.WriteComponent? && i.env in p.envs && i.component in i.env.components
  }

  lemma {:induction false} ExecNotLost(w: World, wait: bool, p: Plan, r: Run, program: seq<Instr>)
    requires WorldOk(w) && ServerOk(w, r.server) && NoneLost(w, r.log) && PlanKnown(w, p.envs, r.server)
    requires forall i :: i in program ==> ComponentInstr(p, i)
    ensures NoneLost(w, Exec(w, wait, p, r, program).log)
  {
    hide WorldOk, ServerOk, Step, NoneLost, EnvsGrow, EnvPlanKnown;
    if program != [] {
      var front, last := program[..|program| - 1], program[|program| - 1];
      ExecNotLost(w, wait, p, r, front);
      var before := Exec(w, wait, p, r, front);
      ExecServerOk(w, wait, p, r, front);
      PlanKnownGrows(w, p.envs, r.server, before.server);
      assert ComponentInstr(p, last);
      StepNotLost(w, wait, p, before, last);
    }
  }

  /** Without a component write there is no update to lose. */
  lemma StepWritesNone(w: World, wait: bool, p: Plan, r: Run, i: Instr)
    requires NoneLost(w, r.log) && !i.WriteComponent?
    ensures NoneLost(w, Step(w, wait, p, r, i).log)
  {
    hide RequestEnable, RequestDeploy, RequestCreate, RequestAddEnv, Arrive, Meanwhile, RowBefore, RowAfter, Found, FoundId, FoundById, EnabledIn, IdOf, RefusedIn, FindDecl, FillFrom, AllKnown, Specs, Spec, Names, PlannedTransition;
  }

  lemma {:induction false} ExecWritesNone(w: World, wait: bool, p: Plan, r: Run, program: seq<Instr>)
    requires NoneLost(w, r.log) && forall i :: i in program ==> !i.WriteComponent?
    ensures NoneLost(w, Exec(w, wait, p, r, program).log)
  {
    hide Step, NoneLost;
    if program != [] {
      var front, last := program[..|program| - 1], program[|program| - 1];
      assert last in program;
      ExecWritesNone(w, wait, p, r, front);
      StepWritesNone(w, wait, p, Exec(w, wait, p, r, front), last);
    }
  }

  /** Every update of a run of a plan that knows its copies is as planned, or changes nothing. */
  lemma RunLosesNothing(w: World, wait: bool, p: Plan, s: Server)
    requires WorldOk(w) && ServerOk(w, s) && PlanKnown(w, p.envs, s)
    ensures NoneLost(w, ApplyRun(w, wait, p, s).log)
  {
    hide WorldOk, ServerOk, Exec, Step, NoneLost, PlanKnown, EnvsGrow;
    var r := Start(w, p, s);
    var p0 := (if p.projectId == "" then [CreateProject] else CreateInstrs(p.envs)) + [FillIds];
    ProgramPhases(w, wait, p, r);
    ProgramShape(p.envs);
    NothingLost(w);
    ExecAppend(w, wait, p, r, p0[..|p0| - 1], [FillIds]);
    ExecServerOk(w, wait, p, r, p0);
    ExecWritesNone(w, wait, p, r, p0);
    var r1 := Exec(w, wait, p, r, p0);
    PlanKnownGrows(w, p.envs, s, r1.server);
    ExecNotLost(w, wait, p, r1, ComponentInstrs(p.envs));
    var r2 := Exec(w, wait, p, r1, ComponentInstrs(p.envs));
    ExecWritesNone(w, wait, p, r2, AddonInstrs(p.envs));
    ExecWritesNone(w, wait, p, Exec(w, wait, p, r2, AddonInstrs(p.envs)), DeployInstrs(p.envs));
  }

  lemma NothingLost(w: World)
    ensures NoneLost(w, [])
  {
  }

  /** An add-on carries no revision, and its request is merged over what was read at its first lookup: what
      another writes to it before it is served is gone. */
  lemma AddonWriteIsLost(w: World, s: Server, e: Env, req: AddonRequest, theirs: StoredAddon)
    requires ServerOk(w, s) && e in s.envs && w.fate(s.served) == Delivered && req.version.Some?
    requires w.foreign(s.served) == [] && w.between(s.served) == [PutAddon(e.id, req.id, theirs)]
    requires AcceptsAddon(EntryOf(w.catalog, req.id), SettingsOf(AddonIn(s, e.id, req.id)), req)
    ensures var a := RequestEnable(w, s, e.id, req);
      a.ok && AddonIn(a.server, e.id, req.id) == Some(Reconfigured(EntryOf(w.catalog, req.id), AddonIn(s, e.id, req.id), req))
  {
    hide ServerOk, Resolve, ServeEnable, ForeignWrite, AcceptsAddon, Reconfigured, AsRead, EntryOf;
    var t := s.(served := s.served + 1);
    assert Arrive(w, s) == t;
    ResolvedAtFirst(w, s, e);
    OneWrite(w, t, PutAddon(e.id, req.id, theirs));
    PutKeepsEnvs(w, t, e.id, req.id, theirs);
    StaysActive(w, t, e.id);
    var u := Meanwhile(w, s);
    assert EnabledIn(w, s, e.id).value.id == e.id;
    EnabledFromRead(w, u, e.id, AddonIn(s, e.id, req.id), req);
    assert AddonIn(t, e.id, req.id) == AddonIn(s, e.id, req.id);
  }

  lemma ResolvedAtFirst(w: World, s: Server, e: Env)
    requires ServerOk(w, s) && e in s.envs
    ensures Resolve(s.envs, e.id) == Some(e) && HasEnv(s, e.id)
  {
    ResolveById(w, s.envs, e);
  }

  lemma PutKeepsEnvs(w: World, s: Server, env: string, id: string, stored: StoredAddon)
    ensures ForeignWrite(w, s, PutAddon(env, id, stored)).envs == s.envs
  {
    hide AsRead, EntryOf;
  }

  lemma EnabledFromRead(w: World, t: Server, env: string, read: Option<StoredAddon>, req: AddonRequest)
    requires AcceptsAddon(EntryOf(w.catalog, req.id), SettingsOf(read), req) && req.version.Some?
    ensures var a := ServeEnable(w, t, env, read, req);
      a.ok && AddonIn(a.server, env, req.id) == Some(Reconfigured(EntryOf(w.catalog, req.id), read, req))
  {
    hide AcceptsAddon, Reconfigured, EntryOf;
  }

  /** No lost update, for every plan computed and applied while others write: every update sent with a
      revision finds the row as the plan read it and makes exactly the planned changes, or changes
      nothing. */
  lemma NoLostUpdate(w: World, wait: bool, m: Manifest, s: Server)
    requires WorldOk(w) && ServerOk(w, s) && FileNamesMatch(m)
    ensures var planned := PlanOf(w, m, s);
      planned.result.Some? ==> NoneLost(w, ApplyRun(w, wait, planned.result.value, planned.server).log)
  {
    hide WorldOk, ServerOk, ApplyRun, NoneLost, PlanKnown, Grows, PlanOf, PlanIdsOk;
    PlanKnowsItsCopies(w, m, s);
    var planned := PlanOf(w, m, s);
    if planned.result.Some? { RunLosesNothing(w, wait, planned.result.value, planned.server); }
  }
}
