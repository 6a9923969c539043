/** The plan of a file against a server nobody else writes to, and where each declared thing is in it. */
module QuietPlans {
  import opened Options
  import opened Ordering
  import opened FieldDiffs
  import opened Addons
  import opened ControlPlane
  import opened ServerInvariants
  import opened Plans
  import opened Applies
  import opened Addressing
  import opened Lookups
  import opened Progress
  import opened Tracking

  // ----- the file -----

  predicate DistinctDecls(ds: seq<Decl>) {
    forall i, j :: 0 <= i < j < |ds| ==> ds[i].kind != ds[j].kind || ds[i].name != ds[j].name
  }

  predicate DistinctAddons(ds: seq<AddonDecl>) {
    forall i, j :: 0 <= i < j < |ds| ==> ds[i].id != ds[j].id
  }

  /** No setting is a secret one, and the override can be read. */
  predicate AddonFits(w: World, a: AddonDecl) {
    (forall k :: k in a.settings ==> k !in EntryOf(w.catalog, a.id).secretKeys) && !DeclaredOverride(a).Unreadable?
  }

  predicate WellFormedEnv(w: World, d: EnvDecl) {
    && w.norm(d.name) != ""
    && DistinctDecls(Decls(d.components)) && DistinctAddons(d.addons)
    && (forall c :: c in Decls(d.components) ==> DeclFits(w, c))
    && (forall a :: a in d.addons ==> AddonFits(w, a))
  }

  /** What a manifest that validates promises. */
  predicate WellFormed(w: World, m: Manifest) {
    && (forall d :: d in m.envs ==> WellFormedEnv(w, d))
    && (forall i, j :: 0 <= i < j < |m.envs| ==> w.norm(m.envs[i].name) != w.norm(m.envs[j].name))
  }

  ghost predicate SoundEnv(w: World, d: EnvDecl, s: Server) {
    && (forall c :: c in Decls(d.components) ==> DeclGood(w, c, SlotValues(w, s, Slot(d.name, c.kind, c.name))))
    && (forall a :: a in d.addons ==> AddonSound(w, a))
  }

  /** ... and each thing it declares is one that one request settles, whatever is stored — but for a
      component's cloud identity, which is the one on the server where the file declares none. */
  ghost predicate ValidManifest(w: World, m: Manifest, s: Server) {
    WellFormed(w, m) && forall d :: d in m.envs ==> SoundEnv(w, d, s)
  }

  /** Every request is answered. */
  ghost predicate Answered(w: World) {
    forall n :: w.fate(n) == Delivered
  }

  // ----- its plan -----

  /** A declared environment, planned from what the server holds. */
  ghost predicate EnvPlanned(w: World, s: Server, d: EnvDecl, e: EnvPlan) {
    var decls, known := Decls(d.components), Named(w, s.envs, d.name);
    && e.name == d.name && e.stage == d.stage && e.placement == d.placement
    && |e.components| == |decls|
    && (forall j :: 0 <= j < |decls| ==>
          e.components[j] == PlanFromRow(decls[j], SlotRow(w, s, Slot(d.name, decls[j].kind, decls[j].name))))
    && |e.addons| == |d.addons|
    && (forall j :: 0 <= j < |d.addons| ==>
          AddonPlanned(w, s, d.name, d.addons[j]).Planned? && e.addons[j] == AddonPlanned(w, s, d.name, d.addons[j]).plan)
    && e.action == (if known == None then Create else Unchanged)
    && e.id == (if known == None then "" else known.value.id)
    && e.problems == (if known == None then [] else EnvProblems(d, known.value))
  }

  /** A plan of the manifest, whichever deploys it has been narrowed to. */
  ghost predicate PlanIsOf(w: World, m: Manifest, s: Server, p: Plan) {
    && p.manifest == m && p.projectId == (if s.project.Some? then s.project.value else "")
    && |p.envs| == |m.envs| && forall i :: 0 <= i < |m.envs| ==> EnvPlanned(w, s, m.envs[i], p.envs[i])
  }

  lemma {:induction false} PlansOfPlanned(outcomes: seq<AddonOutcome>)
    requires forall o :: o in outcomes ==> o.Planned?
    ensures |PlansOf(outcomes)| == |outcomes|
    ensures forall j :: 0 <= j < |outcomes| ==> PlansOf(outcomes)[j] == outcomes[j].plan
  {
    if outcomes != [] { PlansOfPlanned(outcomes[..|outcomes| - 1]); }
  }

  /** An add-on that fits is planned, whatever is held. */
  lemma FitsIsPlanned(w: World, a: AddonDecl, stored: Option<StoredAddon>)
    requires AddonFits(w, a)
    ensures PlanFor(a, stored, EntryOf(w.catalog, a.id)).Planned?
  {
    hide AddonDiff, EntryOf;
  }

  lemma OutcomesPlanned(w: World, d: EnvDecl, s: Server, stored: map<string, StoredAddon>)
    requires forall a :: a in d.addons ==> AddonFits(w, a)
    requires forall a :: a in d.addons ==>
      AddonFor(w, s, d.name, a.id) == if a.id in stored then Some(stored[a.id]) else None
    ensures var outcomes := AddonOutcomes(w, d.addons, stored);
      && AddonProblems(outcomes) == [] && |PlansOf(outcomes)| == |d.addons|
      && (forall j :: 0 <= j < |d.addons| ==>
            && AddonPlanned(w, s, d.name, d.addons[j]).Planned?
            && PlansOf(outcomes)[j] == AddonPlanned(w, s, d.name, d.addons[j]).plan)
  {
    hide AddonFits, PlanFor, AddonFor, EntryOf;
    var outcomes := AddonOutcomes(w, d.addons, stored);
    forall j | 0 <= j < |d.addons|
      ensures outcomes[j].Planned? && outcomes[j] == AddonPlanned(w, s, d.name, d.addons[j])
    {
      FitsIsPlanned(w, d.addons[j], AddonFor(w, s, d.name, d.addons[j].id));
    }
    PlansOfPlanned(outcomes);
  }

  lemma NewEnvPlanned(w: World, d: EnvDecl, s: Server)
    requires WellFormedEnv(w, d) && Named(w, s.envs, d.name) == None
    ensures EnvPlanned(w, s, d, PlanNew(w, d))
  {
    hide PlanFor, ProperKey, AddonFits, Diff, EntryOf;
    OutcomesPlanned(w, d, s, map[]);
  }

  lemma ExistingEnvPlanned(w: World, d: EnvDecl, e: Env, s: Server, rows: seq<Row>, stored: map<string, StoredAddon>)
    requires WellFormedEnv(w, d) && Named(w, s.envs, d.name) == Some(e)
    requires d.components != [] ==> rows == RowsIn(s, e.id)
    requires d.addons != [] ==> stored == AddonsIn(s, e.id)
    ensures EnvPlanned(w, s, d, PlanExisting(w, d, e, rows, stored))
  {
    hide PlanFor, AddonFits, Diff, ProperKey, AddonOutcomes, PlansOf, AddonProblems, EnvProblems, AddonPlanned, EntryOf;
    OutcomesPlanned(w, d, s, stored);
    assert EnvProblems(d, e) + [] == EnvProblems(d, e);
    var decls := Decls(d.components);
    forall j | 0 <= j < |decls|
      ensures PlanComponent(decls[j], rows) == PlanFromRow(decls[j], SlotRow(w, s, Slot(d.name, decls[j].kind, decls[j].name)))
    {
      assert DeclFits(w, decls[j]);
    }
  }

  /** An environment that is there can be read whenever the read is answered. */
  lemma ReadsQuietly(w: World, s: Server, e: Env)
    requires Quiet(w) && ServerOk(w, s) && e in s.envs
    ensures ReadOf(w, s, e.id) <==> w.fate(s.served) == Delivered
    ensures FoundId(w, s, e.id) == e.id
  {
    hide ServerOk, Arrive, Resolve;
    QuietArrive(w, s);
    ResolveHere(w, s, e);
  }

  lemma ResolveHere(w: World, s: Server, e: Env)
    requires ServerOk(w, s) && e in s.envs
    ensures Resolve(s.envs, e.id) == Some(e)
  {
    ResolveById(w, s.envs, e);
  }

  lemma EnvPlannedQuietly(w: World, m: Manifest, s0: Server, s: Server, d: EnvDecl)
    requires Quiet(w) && ServerOk(w, s) && SameState(s0, s) && WellFormedEnv(w, d) && d in m.envs
    ensures var r := PlanEnv(w, DeclaresAddons(m), s.envs, d, s);
      SameState(s0, r.server) && (r.result.Some? ==> EnvPlanned(w, s0, d, r.result.value)) && (Answered(w) ==> r.result.Some?)
  {
    hide ServerOk, WellFormedEnv, EnvPlanned, PlanNew, PlanExisting, Meanwhile, FoundId, Arrive, ReadOf;
    var found := Named(w, s.envs, d.name);
    if found == None {
      NewEnvPlanned(w, d, s0);
    } else {
      var e := found.value;
      QuietArrive(w, s);
      StillOk(w, s, Arrive(w, s));
      var s1 := AfterComponentRead(w, s, d);
      QuietArrive(w, s1);
      var s2 := AfterAddonRead(w, s1, DeclaresAddons(m));
      ReadsQuietly(w, s, e);
      ReadsQuietly(w, s1, e);
      ExistingEnvPlanned(w, d, e, s0, if d.components != [] then RowsIn(s1, e.id) else [],
                         if DeclaresAddons(m) then AddonsIn(s2, e.id) else map[]);
    }
  }

  lemma {:induction false} EnvsPlannedQuietly(w: World, m: Manifest, s0: Server, s: Server, k: nat)
    requires Quiet(w) && ServerOk(w, s) && SameState(s0, s) && WellFormed(w, m) && k <= |m.envs|
    ensures var r := PlanEnvs(w, DeclaresAddons(m), s.envs, m.envs[..k], s);
      && SameState(s0, r.server) && ServerOk(w, r.server) && (Answered(w) ==> r.result.Some?)
      && (r.result.Some? ==>
            |r.result.value| == k && forall i :: 0 <= i < k ==> EnvPlanned(w, s0, m.envs[i], r.result.value[i]))
  {
    hide ServerOk, WellFormedEnv, EnvPlanned, PlanEnv, DeclaresAddons, Answered, Quiet;
    if k > 0 {
      EnvsPlannedQuietly(w, m, s0, s, k - 1);
      assert m.envs[..k][..k - 1] == m.envs[..k - 1];
      var front := PlanEnvs(w, DeclaresAddons(m), s.envs, m.envs[..k - 1], s);
      if front.result.Some? {
        assert m.envs[k - 1] in m.envs;
        EnvPlannedQuietly(w, m, s0, front.server, m.envs[k - 1]);
        StillOk(w, s, PlanEnvs(w, DeclaresAddons(m), s.envs, m.envs[..k], s).server);
      }
    }
  }

  lemma StillOk(w: World, s: Server, t: Server)
    requires ServerOk(w, s) && SameState(s, t)
    ensures ServerOk(w, t)
  {
    hide ServerOk;
    Counted(w, s, t.served);
  }

  lemma ListedQuietly(w: World, s: Server)
    requires Quiet(w) && ServerOk(w, s)
    ensures var r := ListingRead(w, s);
      && SameState(s, r.server) && (Answered(w) ==> r.result.Some?) && (r.result.Some? ==> r.result.value == s.envs)
  {
    hide ServerOk, Arrive;
    QuietArrive(w, s);
    QuietArrive(w, Arrive(w, s));
    NoProjectNoEnvs(w, s);
  }

  /** Planning leaves a quiet server as it is, and plans everything from what it holds. */
  lemma PlanOfQuiet(w: World, m: Manifest, s: Server)
    requires Quiet(w) && ServerOk(w, s) && WellFormed(w, m)
    ensures var r := PlanOf(w, m, s);
      && SameState(s, r.server) && ServerOk(w, r.server) && (Answered(w) ==> r.result.Some?)
      && (r.result.Some? ==> PlanIsOf(w, m, s, r.result.value) && PlanIsOf(w, m, r.server, r.result.value))
  {
    hide ServerOk, WellFormed, EnvPlanned, PlanEnvs, DeclaresAddons, Arrive, UnmanagedNames, Sort, ListingRead, Answered, Quiet;
    QuietArrive(w, s);
    ListedQuietly(w, s);
    var known := ListingRead(w, s);
    StillOk(w, s, known.server);
    if known.result.Some? {
      assert m.envs[..|m.envs|] == m.envs;
      EnvsPlannedQuietly(w, m, s, known.server, |m.envs|);
      var r := PlanOf(w, m, s);
      if r.result.Some? {
        forall i | 0 <= i < |m.envs| ensures EnvPlanned(w, r.server, m.envs[i], r.result.value.envs[i]) {
          StillPlanned(w, s, r.server, m.envs[i], r.result.value.envs[i]);
        }
      }
    }
  }

  lemma StillPlanned(w: World, s: Server, t: Server, d: EnvDecl, e: EnvPlan)
    requires SameState(s, t) && EnvPlanned(w, s, d, e)
    ensures EnvPlanned(w, t, d, e)
  {
    hide PlanFromRow, PlanFor, RowIn, AddonIn, EnvProblems;
    forall k: Slot ensures SlotRow(w, t, k) == SlotRow(w, s, k) {
      if Named(w, s.envs, k.env).Some? { SameTables(s, t, Named(w, s.envs, k.env).value.id, k.kind, k.name, ""); }
    }
    forall env, id ensures AddonFor(w, t, env, id) == AddonFor(w, s, env, id) {
      if Named(w, s.envs, env).Some? { SameTables(s, t, Named(w, s.envs, env).value.id, "", "", id); }
    }
  }

  // ----- where a declared thing is in the program -----

  lemma {:induction false} ComponentInstrsAt(envs: seq<EnvPlan>, i: nat, j: nat)
    requires i < |envs| && j < |envs[i].components|
    ensures WriteComponent(envs[i], envs[i].components[j]) in ComponentInstrs(envs)
  {
    if i == |envs| - 1 {
      assert EnvComponentInstrs(envs[i])[j] == WriteComponent(envs[i], envs[i].components[j]);
    } else {
      ComponentInstrsAt(envs[..|envs| - 1], i, j);
    }
  }

  lemma {:induction false} AddonInstrsAt(envs: seq<EnvPlan>, i: nat, j: nat)
    requires i < |envs| && j < |envs[i].addons|
    ensures WriteAddon(envs[i], envs[i].addons[j]) in AddonInstrs(envs)
  {
    if i == |envs| - 1 {
      assert EnvAddonInstrs(envs[i])[j] == WriteAddon(envs[i], envs[i].addons[j]);
    } else {
      AddonInstrsAt(envs[..|envs| - 1], i, j);
    }
  }

  predicate DistinctPlans(w: World, envs: seq<EnvPlan>) {
    forall i, j :: 0 <= i < j < |envs| ==> w.norm(envs[i].name) != w.norm(envs[j].name)
  }

  predicate DistinctComponents(e: EnvPlan) {
    forall i, j :: 0 <= i < j < |e.components| ==>
      e.components[i].kind != e.components[j].kind || e.components[i].name != e.components[j].name
  }

  predicate DistinctAddonPlans(e: EnvPlan) {
    forall i, j :: 0 <= i < j < |e.addons| ==> e.addons[i].id != e.addons[j].id
  }

  lemma {:induction false} ComponentsHitOnce(w: World, envs: seq<EnvPlan>, k: Slot)
    requires DistinctPlans(w, envs) && forall e :: e in envs ==> DistinctComponents(e)
    ensures HitOnce(w, ComponentInstrs(envs), k)
    ensures forall i :: i in ComponentInstrs(envs) && Hits(w, i, k) ==> exists e :: e in envs && w.norm(e.name) == w.norm(k.env)
  {
    if envs != [] {
      var front, last := envs[..|envs| - 1], envs[|envs| - 1];
      ComponentsHitOnce(w, front, k);
      assert DistinctComponents(last);
      var a, b := ComponentInstrs(front), EnvComponentInstrs(last);
      assert HitOnce(w, b, k);
      if exists i :: i in a && Hits(w, i, k) {
        var i :| i in a && Hits(w, i, k);
        var e :| e in front && w.norm(e.name) == w.norm(k.env);
        var x :| 0 <= x < |front| && front[x] == e;
        assert w.norm(envs[x].name) != w.norm(envs[|envs| - 1].name);
      }
      HitOnceAppend(w, a, b, k);
    }
  }

  lemma HitOnceAppend(w: World, a: seq<Instr>, b: seq<Instr>, k: Slot)
    requires HitOnce(w, a, k) && HitOnce(w, b, k)
    requires (forall i :: i in a ==> !Hits(w, i, k)) || (forall i :: i in b ==> !Hits(w, i, k))
    ensures HitOnce(w, a + b, k)
  {
    hide Hits;
  }

  lemma {:induction false} AddonsHitOnce(w: World, envs: seq<EnvPlan>, env: string, id: string)
    requires DistinctPlans(w, envs) && forall e :: e in envs ==> DistinctAddonPlans(e)
    ensures AddonHitOnce(w, AddonInstrs(envs), env, id)
    ensures forall i :: i in AddonInstrs(envs) && HitsAddon(w, i, env, id) ==> exists e :: e in envs && w.norm(e.name) == w.norm(env)
  {
    if envs != [] {
      var front, last := envs[..|envs| - 1], envs[|envs| - 1];
      AddonsHitOnce(w, front, env, id);
      assert DistinctAddonPlans(last);
      var a, b := AddonInstrs(front), EnvAddonInstrs(last);
      assert AddonHitOnce(w, b, env, id);
      if exists i :: i in a && HitsAddon(w, i, env, id) {
        var i :| i in a && HitsAddon(w, i, env, id);
        var e :| e in front && w.norm(e.name) == w.norm(env);
        var x :| 0 <= x < |front| && front[x] == e;
        assert w.norm(envs[x].name) != w.norm(envs[|envs| - 1].name);
      }
      AddonHitOnceAppend(w, a, b, env, id);
    }
  }

  lemma AddonHitOnceAppend(w: World, a: seq<Instr>, b: seq<Instr>, env: string, id: string)
    requires AddonHitOnce(w, a, env, id) && AddonHitOnce(w, b, env, id)
    requires (forall i :: i in a ==> !HitsAddon(w, i, env, id)) || (forall i :: i in b ==> !HitsAddon(w, i, env, id))
    ensures AddonHitOnce(w, a + b, env, id)
  {
    hide HitsAddon;
  }
}
