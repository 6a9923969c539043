/** What a user is promised of `apply` run after run, when nobody else writes: the run that succeeds is
    the last one with anything to do, and the runs that failed before it make no difference
    (apps/cli/cmd/apply.go:405-532, 886-1046). */
module Resumption {
  import opened Options
  import opened FieldDiffs
  import opened Addons
  import opened ControlPlane
  import opened ServerInvariants
  import opened Plans
  import opened Planner
  import opened Applies
  import opened Applier
  import opened Commands
  import opened Addressing
  import opened Lookups
  import opened Progress
  import opened Tracking
  import opened QuietPlans
  import opened Convergence

  ghost function After(w: World, m: Manifest, attempts: seq<Attempt>, s: Server): Server {
    if attempts == [] then s
    else Apply(w, m, attempts[|attempts| - 1], After(w, m, attempts[..|attempts| - 1], s)).server
  }

  // ----- one attempt -----

  lemma NarrowedIsPlan(w: World, m: Manifest, s: Server, p: Plan, only: seq<string>)
    requires PlanIsOf(w, m, s, p)
    ensures PlanIsOf(w, m, s, NarrowTo(w, p, only))
  {
    hide PlanFromRow, AddonPlanned, EnvProblems, Wanted;
    var q := NarrowTo(w, p, only);
    forall i | 0 <= i < |m.envs| ensures EnvPlanned(w, s, m.envs[i], q.envs[i]) {
      assert EnvPlanned(w, s, m.envs[i], p.envs[i]);
    }
  }

  lemma NothingMoved(w: World, s: Server, t: Server)
    requires SameState(s, t)
    ensures forall k :: SlotRow(w, t, k) == SlotRow(w, s, k)
    ensures forall env, id :: AddonFor(w, t, env, id) == AddonFor(w, s, env, id)
    ensures forall name :: EnvFor(w, t, name) == EnvFor(w, s, name)
  {
    hide RowIn, AddonIn;
    forall k: Slot ensures SlotRow(w, t, k) == SlotRow(w, s, k) {
      if Named(w, s.envs, k.env).Some? { SameTables(s, t, Named(w, s.envs, k.env).value.id, k.kind, k.name, ""); }
    }
    forall env, id ensures AddonFor(w, t, env, id) == AddonFor(w, s, env, id) {
      if Named(w, s.envs, env).Some? { SameTables(s, t, Named(w, s.envs, env).value.id, "", "", id); }
    }
  }

  lemma FromTheSame(w: World, m: Manifest, s: Server, s': Server, t: Server)
    requires SameState(s, s')
    ensures Toward(w, m, s', t) ==> Toward(w, m, s, t)
    ensures Reached(w, m, s', t) ==> Reached(w, m, s, t)
  {
    hide SlotToward, SlotReached, AddonToward, AddonReached, EnvBetween, EnvReached, ProperSlot, SlotRow, AddonFor, EnvFor;
    NothingMoved(w, s, s');
    forall k
      ensures SlotToward(w, m, s', t, k) ==> SlotToward(w, m, s, t, k)
      ensures SlotReached(w, m, s', t, k) ==> SlotReached(w, m, s, t, k)
    {
      SlotFromTheSame(w, m, s, s', t, k);
    }
    forall env, id
      ensures AddonToward(w, m, s', t, env, id) ==> AddonToward(w, m, s, t, env, id)
      ensures AddonReached(w, m, s', t, env, id) ==> AddonReached(w, m, s, t, env, id)
    {
      AddonFromTheSame(w, m, s, s', t, env, id);
    }
    forall name
      ensures EnvBetween(w, m, s', t, name) ==> EnvBetween(w, m, s, t, name)
      ensures EnvReached(w, m, s', t, name) ==> EnvReached(w, m, s, t, name)
    {
      EnvFromTheSame(w, m, s, s', t, name);
    }
  }

  lemma SlotFromTheSame(w: World, m: Manifest, s: Server, s': Server, t: Server, k: Slot)
    requires SlotRow(w, s', k) == SlotRow(w, s, k)
    ensures SlotToward(w, m, s', t, k) ==> SlotToward(w, m, s, t, k)
    ensures SlotReached(w, m, s', t, k) ==> SlotReached(w, m, s, t, k)
  {
    hide Declares, DeclGood, Goal, SlotRow;
  }

  lemma AddonFromTheSame(w: World, m: Manifest, s: Server, s': Server, t: Server, env: string, id: string)
    requires AddonFor(w, s', env, id) == AddonFor(w, s, env, id)
    ensures AddonToward(w, m, s', t, env, id) ==> AddonToward(w, m, s, t, env, id)
    ensures AddonReached(w, m, s', t, env, id) ==> AddonReached(w, m, s, t, env, id)
  {
    hide DeclaresAddon, AddonSound, AddonFor, AddonTarget;
  }

  lemma EnvFromTheSame(w: World, m: Manifest, s: Server, s': Server, t: Server, name: string)
    requires EnvFor(w, s', name) == EnvFor(w, s, name)
    ensures EnvBetween(w, m, s', t, name) ==> EnvBetween(w, m, s, t, name)
    ensures EnvReached(w, m, s', t, name) ==> EnvReached(w, m, s, t, name)
  {
    hide EnvFor, AskedFor;
  }

  lemma StillValid(w: World, m: Manifest, s: Server, t: Server)
    requires SameState(s, t) && ValidManifest(w, m, s)
    ensures ValidManifest(w, m, t)
  {
    hide WellFormed, DeclGood, AddonSound, SlotRow;
    NothingMoved(w, s, t);
    forall d | d in m.envs ensures SoundEnv(w, d, t) { assert SoundEnv(w, d, s); }
  }

  lemma AttemptGoesToward(w: World, m: Manifest, a: Attempt, s: Server)
    requires WorldOk(w) && Quiet(w) && ServerOk(w, s) && ValidManifest(w, m, s)
    ensures var t := Apply(w, m, a, s);
      ServerOk(w, t.server) && Toward(w, m, s, t.server) && (Succeeded(t) ==> Reached(w, m, s, t.server))
  {
    hide WorldOk, Quiet, ServerOk, WellFormed, SoundEnv, PlanIsOf, PlanOf, NarrowTo, ApplyRun, Toward, Reached;
    PlanOfQuiet(w, m, s);
    var planned := PlanOf(w, m, s);
    StillValid(w, m, s, planned.server);
    if Goes(w, planned.result, a) {
      NarrowedIsPlan(w, m, planned.server, planned.result.value, a.only);
      RunGoesToward(w, a.wait, m, planned.server, NarrowTo(w, planned.result.value, a.only));
    } else {
      TowardItself(w, m, planned.server);
    }
    FromTheSame(w, m, s, planned.server, Apply(w, m, a, s).server);
  }

  // ----- attempt after attempt -----

  lemma SlotFurther(w: World, m: Manifest, s: Server, t: Server, u: Server, k: Slot)
    requires SlotToward(w, m, s, t, k)
    ensures SlotToward(w, m, t, u, k) ==> SlotToward(w, m, s, u, k)
    ensures SlotReached(w, m, t, u, k) ==> SlotReached(w, m, s, u, k)
  {
    hide Declares, Goal, ProperKey, SlotValues, DeclOk;
    forall d | Declares(w, m, k, d)
      ensures DeclGood(w, d, SlotValues(w, s, k))
      ensures DeclOk(w.rules(d.kind), d.fields, Some(Goal(w.rules(d.kind), d.fields, SlotValues(w, s, k))))
      ensures Goal(w.rules(d.kind), d.fields, Some(Goal(w.rules(d.kind), d.fields, SlotValues(w, s, k)))) ==
              Goal(w.rules(d.kind), d.fields, SlotValues(w, s, k))
    {
      GoalSettles(w.rules(d.kind), d.fields, SlotValues(w, s, k));
    }
  }

  lemma AddonFurther(w: World, m: Manifest, s: Server, t: Server, u: Server, env: string, id: string)
    requires ServerOk(w, s) && AddonToward(w, m, s, t, env, id)
    ensures AddonToward(w, m, t, u, env, id) ==> AddonToward(w, m, s, u, env, id)
    ensures AddonReached(w, m, t, u, env, id) ==> AddonReached(w, m, s, u, env, id)
  {
    hide DeclaresAddon, AddonTarget, AddonFor, AddonDeclOk, EntryOk, IsPlanned, PlanFor, ServerOk, AsRead;
    HeldIsAsRead(w, s, env, id);
    forall a | DeclaresAddon(w, m, env, a) && a.id == id
      ensures var entry := EntryOf(w.catalog, a.id);
        AddonTarget(a, AddonGoal(w, s, env, a), entry) == AddonGoal(w, s, env, a)
    {
      AddonTargetSettles(a, AddonFor(w, s, env, a.id), EntryOf(w.catalog, a.id));
    }
  }

  lemma EnvFurther(w: World, m: Manifest, s: Server, t: Server, u: Server, name: string)
    requires EnvBetween(w, m, s, t, name)
    ensures EnvBetween(w, m, t, u, name) ==> EnvBetween(w, m, s, u, name)
    ensures EnvReached(w, m, t, u, name) ==> EnvReached(w, m, s, u, name)
  {
    hide EnvFor, AskedFor, DeclaresEnv;
  }

  lemma Further(w: World, m: Manifest, s: Server, t: Server, u: Server)
    requires ServerOk(w, s) && Toward(w, m, s, t)
    ensures Toward(w, m, t, u) ==> Toward(w, m, s, u)
    ensures Reached(w, m, t, u) ==> Reached(w, m, s, u)
  {
    hide SlotToward, SlotReached, AddonToward, AddonReached, EnvBetween, EnvReached, ProperSlot, ServerOk;
    forall k | ProperSlot(w, k)
      ensures SlotToward(w, m, t, u, k) ==> SlotToward(w, m, s, u, k)
      ensures SlotReached(w, m, t, u, k) ==> SlotReached(w, m, s, u, k)
    {
      SlotFurther(w, m, s, t, u, k);
    }
    forall env, id
      ensures AddonToward(w, m, t, u, env, id) ==> AddonToward(w, m, s, u, env, id)
      ensures AddonReached(w, m, t, u, env, id) ==> AddonReached(w, m, s, u, env, id)
    {
      AddonFurther(w, m, s, t, u, env, id);
    }
    forall name
      ensures EnvBetween(w, m, t, u, name) ==> EnvBetween(w, m, s, u, name)
      ensures EnvReached(w, m, t, u, name) ==> EnvReached(w, m, s, u, name)
    {
      EnvFurther(w, m, s, t, u, name);
    }
  }

  lemma TowardItself(w: World, m: Manifest, s: Server)
    requires ServerOk(w, s) && ValidManifest(w, m, s)
    ensures Toward(w, m, s, s)
  {
    hide Goal, DeclGood, AddonSound, EnvFor, AddonTarget, SlotValues, AddonFor, ServerOk;
    forall k, d | Declares(w, m, k, d) ensures DeclGood(w, d, SlotValues(w, s, k)) { DeclaredIsGood(w, m, s, k, d); }
    forall e | e in m.envs ensures SoundEnv(w, e, s) {}
  }

  /** What settles keeps settling on the way. */
  lemma ValidOnTheWay(w: World, m: Manifest, s: Server, t: Server)
    requires ValidManifest(w, m, s) && Toward(w, m, s, t)
    ensures ValidManifest(w, m, t)
  {
    hide WellFormedEnv, DeclGood, AddonSound, SlotToward, AddonToward, EnvBetween, SlotValues;
    forall e | e in m.envs ensures SoundEnv(w, e, t) {
      assert SoundEnv(w, e, s) && WellFormedEnv(w, e);
      forall c | c in Decls(e.components) ensures DeclGood(w, c, SlotValues(w, t, Slot(e.name, c.kind, c.name))) {
        DeclOnTheWay(w, m, s, t, e, c);
      }
    }
  }

  lemma DeclOnTheWay(w: World, m: Manifest, s: Server, t: Server, e: EnvDecl, c: Decl)
    requires Toward(w, m, s, t) && e in m.envs && c in Decls(e.components)
    requires DeclGood(w, c, SlotValues(w, s, Slot(e.name, c.kind, c.name)))
    ensures DeclGood(w, c, SlotValues(w, t, Slot(e.name, c.kind, c.name)))
  {
    hide Goal, DeclOk, SlotValues, AddonToward, EnvBetween, ProperKey;
    var k := Slot(e.name, c.kind, c.name);
    assert Declares(w, m, k, c) && ProperSlot(w, k);
    assert SlotToward(w, m, s, t, k);
    GoalSettles(w.rules(c.kind), c.fields, SlotValues(w, s, k));
  }

  lemma {:induction false} AttemptsGoToward(w: World, m: Manifest, attempts: seq<Attempt>, s: Server)
    requires WorldOk(w) && Quiet(w) && ServerOk(w, s) && ValidManifest(w, m, s)
    ensures ServerOk(w, After(w, m, attempts, s)) && Toward(w, m, s, After(w, m, attempts, s))
  {
    hide WorldOk, Quiet, ServerOk, ValidManifest, Toward, Apply;
    if attempts == [] {
      TowardItself(w, m, s);
    } else {
      var before := After(w, m, attempts[..|attempts| - 1], s);
      AttemptsGoToward(w, m, attempts[..|attempts| - 1], s);
      ValidOnTheWay(w, m, s, before);
      AttemptGoesToward(w, m, attempts[|attempts| - 1], before);
      Further(w, m, s, before, After(w, m, attempts, s));
    }
  }

  // ----- resumability -----

  /** Two worlds that differ only in what becomes of requests and jobs, and in the ids given out. */
  ghost predicate Alike(w: World, v: World) {
    w.norm == v.norm && w.singleton == v.singleton && w.revisioned == v.revisioned && w.catalog == v.catalog && w.rules == v.rules
  }

  lemma {:induction false} NamedAlike(w: World, v: World, envs: seq<Env>, name: string)
    requires Alike(w, v)
    ensures Named(w, envs, name) == Named(v, envs, name)
  {
    if envs != [] { NamedAlike(w, v, envs[..|envs| - 1], name); }
  }

  lemma SlotAlike(w: World, v: World, s: Server, k: Slot)
    requires Alike(w, v)
    ensures SlotRow(w, s, k) == SlotRow(v, s, k)
  {
    NamedAlike(w, v, s.envs, k.env);
  }

  lemma AddonAlike(w: World, v: World, s: Server, env: string, id: string)
    requires Alike(w, v)
    ensures AddonFor(w, s, env, id) == AddonFor(v, s, env, id)
  {
    NamedAlike(w, v, s.envs, env);
  }

  lemma ManifestAlike(w: World, v: World, m: Manifest, s: Server)
    requires Alike(w, v) && ValidManifest(w, m, s) && ServerOk(w, s)
    ensures ValidManifest(v, m, s) && ServerOk(v, s)
  {
    hide DeclOk, AddonDeclOk, EntryOk, HistoryOk, EntryOf, ProperKey, NamesOk, EnvsOk, AsRead;
    forall d | d in m.envs ensures WellFormedEnv(v, d) && SoundEnv(v, d, s) {
      EnvAlike(w, v, d, s);
    }
    forall e | e in s.rows ensures RowsOk(v, s.rows[e]) { assert RowsOk(w, s.rows[e]); }
    forall e | e in s.addons ensures AddonsOk(v, s.addons[e]) { assert AddonsOk(w, s.addons[e]); }
    SameEnvsOk(w, v, s.envs);
  }

  lemma SameEnvsOk(w: World, v: World, envs: seq<Env>)
    requires Alike(w, v) && EnvsOk(w, envs)
    ensures EnvsOk(v, envs)
  {
  }

  lemma EnvAlike(w: World, v: World, d: EnvDecl, s: Server)
    requires Alike(w, v) && WellFormedEnv(w, d) && SoundEnv(w, d, s)
    ensures WellFormedEnv(v, d) && SoundEnv(v, d, s)
  {
    hide DeclOk, AddonDeclOk, EntryOk, EntryOf, DeclaredOverride, DistinctDecls, DistinctAddons, SlotRow;
    forall c | c in Decls(d.components)
      ensures DeclFits(v, c) && DeclGood(v, c, SlotValues(v, s, Slot(d.name, c.kind, c.name)))
    {
      SlotAlike(w, v, s, Slot(d.name, c.kind, c.name));
      assert DeclGood(w, c, SlotValues(w, s, Slot(d.name, c.kind, c.name)));
    }
    forall a | a in d.addons ensures AddonFits(v, a) && AddonSound(v, a) { assert AddonFits(w, a) && AddonSound(w, a); }
  }

  lemma SameSlots(w: World, v: World, m: Manifest, s: Server, t: Server, u: Server, k: Slot)
    requires Alike(w, v) && SlotReached(w, m, s, t, k) && SlotReached(v, m, s, u, k)
    ensures SlotValues(w, t, k) == SlotValues(w, u, k)
  {
    hide Goal, SlotRow, DeclGood;
    SlotAlike(w, v, s, k);
    SlotAlike(w, v, u, k);
    forall d ensures Declares(w, m, k, d) <==> Declares(v, m, k, d) {}
    if d :| Declares(w, m, k, d) {
      assert AtGoal(w, s, t, d, k) && AtGoal(v, s, u, d, k);
    }
  }

  lemma SameAddonsReached(w: World, v: World, m: Manifest, s: Server, t: Server, u: Server, env: string, id: string)
    requires Alike(w, v) && AddonReached(w, m, s, t, env, id) && AddonReached(v, m, s, u, env, id)
    ensures AddonFor(w, t, env, id) == AddonFor(w, u, env, id)
  {
    hide AddonTarget, AddonFor, AddonSound;
    AddonAlike(w, v, s, env, id);
    AddonAlike(w, v, u, env, id);
    forall a ensures DeclaresAddon(w, m, env, a) <==> DeclaresAddon(v, m, env, a) {}
  }

  lemma SameEnvsReached(w: World, v: World, m: Manifest, s: Server, t: Server, u: Server, name: string)
    requires Alike(w, v) && WellFormed(w, m) && EnvReached(w, m, s, t, name) && EnvReached(v, m, s, u, name)
    ensures EnvFor(w, t, name) == EnvFor(w, u, name)
  {
    hide WellFormedEnv;
    NamedAlike(w, v, s.envs, name);
    NamedAlike(w, v, u.envs, name);
    if DeclaresEnv(w, m, name) && EnvFor(w, s, name) == None {
      assert DeclaresEnv(v, m, name);
      var d :| d in m.envs && w.norm(d.name) == w.norm(name) && EnvFor(w, t, name).value == Asked(w, d);
      var d' :| d' in m.envs && v.norm(d'.name) == v.norm(name) && EnvFor(v, u, name).value == Asked(v, d');
      OneDecl(w, m, d, d');
    }
  }

  lemma OneDecl(w: World, m: Manifest, d: EnvDecl, e: EnvDecl)
    requires WellFormed(w, m) && d in m.envs && e in m.envs && w.norm(d.name) == w.norm(e.name)
    ensures d == e
  {
    hide WellFormedEnv;
    var i :| 0 <= i < |m.envs| && m.envs[i] == d;
    var j :| 0 <= j < |m.envs| && m.envs[j] == e;
  }

  /** Whatever attempts were made before it — refused at any request, or served without an answer — an
      apply that succeeds leaves the environments, the component values and the add-ons that one
      uninterrupted apply would have left. */
  lemma Resumes(w: World, v: World, m: Manifest, s: Server, failed: seq<Attempt>, last: Attempt, once: Attempt)
    requires Alike(w, v) && WorldOk(w) && WorldOk(v) && Quiet(w) && Quiet(v)
    requires ServerOk(w, s) && ValidManifest(w, m, s)
    requires Succeeded(Apply(w, m, last, After(w, m, failed, s))) && Succeeded(Apply(v, m, once, s))
    ensures SameContent(w, Apply(w, m, last, After(w, m, failed, s)).server, Apply(v, m, once, s).server)
  {
    hide WorldOk, Quiet, ServerOk, WellFormed, SoundEnv, Toward, Apply, SlotReached, AddonReached, EnvReached, Succeeded, ProperSlot, Alike, After;
    var t := After(w, m, failed, s);
    ManifestAlike(w, v, m, s);
    AttemptsGoToward(w, m, failed, s);
    ValidOnTheWay(w, m, s, t);
    AttemptGoesToward(w, m, last, t);
    Further(w, m, s, t, Apply(w, m, last, t).server);
    AttemptGoesToward(v, m, once, s);
    SameProperSlots(w, v);
    forall k | ProperSlot(w, k) ensures SlotValues(w, Apply(w, m, last, t).server, k) == SlotValues(w, Apply(v, m, once, s).server, k) {
      SameSlots(w, v, m, s, Apply(w, m, last, t).server, Apply(v, m, once, s).server, k);
    }
    forall env, id ensures AddonFor(w, Apply(w, m, last, t).server, env, id) == AddonFor(w, Apply(v, m, once, s).server, env, id) {
      SameAddonsReached(w, v, m, s, Apply(w, m, last, t).server, Apply(v, m, once, s).server, env, id);
    }
    forall name ensures EnvFor(w, Apply(w, m, last, t).server, name) == EnvFor(w, Apply(v, m, once, s).server, name) {
      SameEnvsReached(w, v, m, s, Apply(w, m, last, t).server, Apply(v, m, once, s).server, name);
    }
  }

  lemma SameProperSlots(w: World, v: World)
    requires Alike(w, v)
    ensures forall k :: ProperSlot(w, k) <==> ProperSlot(v, k)
  {
  }

  // ----- convergence -----

  /** Nothing to do, and nothing to complain about. */
  predicate SettledEnv(e: EnvPlan) {
    && e.action == Unchanged && e.id != "" && e.problems == []
    && (forall c :: c in e.components ==> c.action == Unchanged)
    && (forall a :: a in e.addons ==> a.action == Unchanged)
  }

  predicate Settled(p: Plan) {
    p.projectId != "" && forall e :: e in p.envs ==> SettledEnv(e)
  }

  predicate OnlyDeploys(log: seq<Event>) {
    forall i :: 0 <= i < |log| ==> log[i].Queued? || log[i].Finished?
  }

  lemma ComponentSettled(w: World, m: Manifest, s: Server, t: Server, k: Slot, d: Decl)
    requires ServerOk(w, t) && SlotReached(w, m, s, t, k) && Declares(w, m, k, d)
    ensures PlanFromRow(d, SlotRow(w, t, k)).action == Unchanged
  {
    hide Diff, Goal, SlotRow, Declares, ProperKey, DeclOk, ServerOk;
    RowsAreStored(w, t, k);
    assert DeclGood(w, d, SlotValues(w, s, k)) && AtGoal(w, s, t, d, k);
    GoalSettles(w.rules(d.kind), d.fields, SlotValues(w, s, k));
    ValuesSurviveTheWire(SlotRow(w, t, k).value);
  }

  lemma AddonSettled(w: World, m: Manifest, s: Server, t: Server, env: string, a: AddonDecl)
    requires ServerOk(w, s) && AddonReached(w, m, s, t, env, a.id) && DeclaresAddon(w, m, env, a)
    ensures AddonPlanned(w, t, env, a).Planned? ==> AddonPlanned(w, t, env, a).plan.action == Unchanged
  {
    hide AddonTarget, AddonFor, DeclaresAddon, PlanAddon, AddonDeclOk, EntryOk, ServerOk, AsRead;
    HeldIsAsRead(w, s, env, a.id);
    AddonTargetSettles(a, AddonFor(w, s, env, a.id), EntryOf(w.catalog, a.id));
  }

  lemma EnvSettled(w: World, m: Manifest, s: Server, t: Server, d: EnvDecl, e: EnvPlan)
    requires WellFormed(w, m) && d in m.envs && EnvPlanned(w, s, d, e) && e.problems == []
    requires EnvReached(w, m, s, t, d.name)
    ensures Named(w, t.envs, d.name).Some? && EnvProblems(d, Named(w, t.envs, d.name).value) == []
  {
    hide WellFormedEnv, PlanFromRow, AddonPlanned;
    assert DeclaresEnv(w, m, d.name);
    var now := Named(w, t.envs, d.name).value;
    var have := EnvFor(w, t, d.name).value;
    if EnvFor(w, s, d.name) == None {
      var d' :| d' in m.envs && w.norm(d'.name) == w.norm(d.name) && have == Asked(w, d');
      OneDecl(w, m, d, d');
    } else {
      SameProblems(d, Named(w, s.envs, d.name).value, now);
    }
  }

  lemma SameProblems(d: EnvDecl, a: Env, b: Env)
    requires a.stage == b.stage && a.placement == b.placement && a.lifecycle == b.lifecycle
    ensures EnvProblems(d, a) == EnvProblems(d, b)
  {
  }

  lemma ComponentsSettled(w: World, m: Manifest, s: Server, t: Server, d: EnvDecl, f: EnvPlan)
    requires ServerOk(w, t) && WellFormed(w, m) && d in m.envs && EnvPlanned(w, t, d, f)
    requires Reached(w, m, s, t)
    ensures forall c :: c in f.components ==> c.action == Unchanged
  {
    hide ServerOk, PlanFromRow, AddonPlanned, EnvProblems, SlotReached, AddonReached, EnvReached, AddonSound, SlotRow, DeclOk;
    var ds := Decls(d.components);
    forall j | 0 <= j < |ds| ensures f.components[j].action == Unchanged {
      var k := Slot(d.name, ds[j].kind, ds[j].name);
      assert WellFormedEnv(w, d) && DeclFits(w, ds[j]) && ProperSlot(w, k);
      assert Declares(w, m, k, ds[j]);
      ComponentSettled(w, m, s, t, k, ds[j]);
    }
  }

  lemma AddonsSettled(w: World, m: Manifest, s: Server, t: Server, d: EnvDecl, f: EnvPlan)
    requires ServerOk(w, s) && d in m.envs && EnvPlanned(w, t, d, f)
    requires Reached(w, m, s, t)
    ensures forall a :: a in f.addons ==> a.action == Unchanged
  {
    hide PlanFromRow, AddonPlanned, EnvProblems, SlotReached, AddonReached, EnvReached, AddonSound, SlotRow, ServerOk;
    forall j | 0 <= j < |d.addons| ensures f.addons[j].action == Unchanged {
      assert DeclaresAddon(w, m, d.name, d.addons[j]);
      AddonSettled(w, m, s, t, d.name, d.addons[j]);
    }
  }

  lemma EnvPlanSettled(w: World, m: Manifest, s: Server, t: Server, d: EnvDecl, e: EnvPlan, f: EnvPlan)
    requires ServerOk(w, s) && ServerOk(w, t) && WellFormed(w, m) && Reached(w, m, s, t) && d in m.envs
    requires EnvPlanned(w, s, d, e) && e.problems == [] && EnvPlanned(w, t, d, f)
    ensures SettledEnv(f)
  {
    hide PlanFromRow, AddonPlanned, EnvProblems, SlotReached, AddonReached, EnvReached, WellFormed, SoundEnv, HistoryOk, RowsOk, NamesOk, AddonsOk, SlotRow;
    EnvSettled(w, m, s, t, d, e);
    ComponentsSettled(w, m, s, t, d, f);
    AddonsSettled(w, m, s, t, d, f);
    var now := Named(w, t.envs, d.name).value;
    var x :| 0 <= x < |t.envs| && t.envs[x] == now;
  }

  lemma PlanSettled(w: World, m: Manifest, s: Server, t: Server, p: Plan, q: Plan)
    requires ServerOk(w, s) && ServerOk(w, t) && WellFormed(w, m) && Reached(w, m, s, t) && t.project.Some?
    requires PlanIsOf(w, m, s, p) && NoProblems(p) && PlanIsOf(w, m, t, q)
    ensures Settled(q)
  {
    hide EnvPlanned, SettledEnv, Reached, WellFormed, ServerOk;
    ProjectIdMeans(w, t);
    forall f | f in q.envs ensures SettledEnv(f) {
      var i :| 0 <= i < |q.envs| && q.envs[i] == f;
      assert p.envs[i] in p.envs && m.envs[i] in m.envs;
      EnvPlanSettled(w, m, s, t, m.envs[i], p.envs[i], f);
    }
  }

  /** A run that succeeds has a project. */
  lemma ProjectExists(w: World, wait: bool, p: Plan, s: Server)
    requires WorldOk(w) && ServerOk(w, s) && p.projectId == (if s.project.Some? then s.project.value else "")
    requires Succeeded(ApplyRun(w, wait, p, s))
    ensures ApplyRun(w, wait, p, s).server.project.Some?
  {
    hide WorldOk, ServerOk, Step, Exec, Program, EnvsGrow, Succeeded;
    ApplyKeepsOk(w, wait, p, s);
    ProjectIdMeans(w, s);
    if s.project == None {
      var r := Start(w, p, s);
      var rest := [FillIds] + ComponentInstrs(p.envs) + AddonInstrs(p.envs) + DeployInstrs(p.envs);
      CreatesFirst(p, rest);
      ExecAppend(w, wait, p, r, [CreateProject], rest);
      ExecSnoc(w, wait, p, r, [], CreateProject);
      assert [] + [CreateProject] == [CreateProject];
      ExecNothing(w, wait, p, r);
      var r1 := Exec(w, wait, p, r, [CreateProject]);
      SucceededBefore(w, wait, p, r1, rest);
      CreatedProject(w, wait, p, r);
      StepServerOk(w, wait, p, r, CreateProject);
      ExecServerOk(w, wait, p, r1, rest);
    }
  }

  lemma CreatesFirst(p: Plan, rest: seq<Instr>)
    requires p.projectId == ""
    requires rest == [FillIds] + ComponentInstrs(p.envs) + AddonInstrs(p.envs) + DeployInstrs(p.envs)
    ensures Program(p) == [CreateProject] + rest
  {
  }

  lemma CreatedProject(w: World, wait: bool, p: Plan, r: Run)
    requires r.status == Running && Succeeded(Step(w, wait, p, r, CreateProject))
    ensures Step(w, wait, p, r, CreateProject).server.project.Some?
  {
    hide RequestCreate;
  }

  lemma ExecNothing(w: World, wait: bool, p: Plan, r: Run)
    ensures Exec(w, wait, p, r, []) == r
  {
  }

  lemma ProjectIdMeans(w: World, s: Server)
    requires ServerOk(w, s)
    ensures s.project.Some? ==> s.project.value != ""
  {
  }

  // ----- a settled plan -----

  lemma {:induction false} KnownIdsComplete(w: World, envs: seq<EnvPlan>, e: EnvPlan)
    requires (forall x :: x in envs ==> x.id != "") && e in envs
    ensures IdOf(w, KnownIds(w, envs), e.name) != ""
  {
    var front, last := envs[..|envs| - 1], envs[|envs| - 1];
    if w.norm(e.name) != w.norm(last.name) {
      assert e in front;
      KnownIdsComplete(w, front, e);
    }
  }

  lemma {:induction false} NothingToCreate(envs: seq<EnvPlan>)
    requires forall e :: e in envs ==> e.action != Create
    ensures CreateInstrs(envs) == []
  {
    if envs != [] { NothingToCreate(envs[..|envs| - 1]); }
  }

  lemma OpeningDoesNothing(w: World, wait: bool, p: Plan, s: Server)
    requires Settled(p)
    ensures Exec(w, wait, p, Start(w, p, s), Opening(p)) == Start(w, p, s)
  {
    hide Arrive, KnownIds, CreateInstrs, FillFrom, Exec;
    var r := Start(w, p, s);
    ExecNothing(w, wait, p, r);
    NothingToCreate(p.envs);
    forall e | e in p.envs ensures IdOf(w, r.ids, e.name) != "" { KnownIdsComplete(w, p.envs, e); }
    assert Opening(p) == [FillIds];
    assert [] + [FillIds] == [FillIds];
    ExecSnoc(w, wait, p, r, [], FillIds);
  }

  predicate SameTablesAs(s: Server, t: Server) {
    t.project == s.project && t.envs == s.envs && t.rows == s.rows && t.addons == s.addons
  }

  predicate DoesNothing(i: Instr) {
    || (i.WriteComponent? && i.component.action == Unchanged)
    || (i.WriteAddon? && i.addon.action == Unchanged)
    || i.Deploy?
  }

  lemma {:induction false} ExecDoesNothing(w: World, wait: bool, p: Plan, r: Run, program: seq<Instr>)
    requires Quiet(w) && OnlyDeploys(r.log) && forall i :: i in program ==> DoesNothing(i)
    ensures var t := Exec(w, wait, p, r, program); OnlyDeploys(t.log) && SameTablesAs(r.server, t.server)
  {
    hide Quiet, Step, OnlyDeploys;
    if program != [] {
      var front, last := program[..|program| - 1], program[|program| - 1];
      assert last in program;
      ExecDoesNothing(w, wait, p, r, front);
      StepDoesNothing(w, wait, p, Exec(w, wait, p, r, front), last);
    }
  }

  lemma StepDoesNothing(w: World, wait: bool, p: Plan, r: Run, i: Instr)
    requires Quiet(w) && OnlyDeploys(r.log) && DoesNothing(i)
    ensures var t := Step(w, wait, p, r, i); OnlyDeploys(t.log) && SameTablesAs(r.server, t.server)
  {
    hide Arrive, Meanwhile, FoundById, RequestDeploy;
    if i.Deploy? { DeployKeepsTables(w, r.server, IdOf(w, r.ids, i.env.name)); }
  }

  lemma DeployKeepsTables(w: World, s: Server, ref: string)
    requires Quiet(w)
    ensures SameTablesAs(s, RequestDeploy(w, s, ref).server)
  {
    hide Arrive, Resolve;
    QuietArrive(w, s);
  }

  /** Applying a settled plan writes nothing: it only deploys. */
  lemma SettledOnlyDeploys(w: World, wait: bool, p: Plan, s: Server)
    requires Quiet(w) && Settled(p)
    ensures var t := ApplyRun(w, wait, p, s); OnlyDeploys(t.log) && SameTablesAs(s, t.server)
  {
    hide Quiet, Exec, Step, Opening, Settled;
    TwoStretches(w, wait, p, s);
    OpeningDoesNothing(w, wait, p, s);
    WritingDoesNothing(p);
    ExecDoesNothing(w, wait, p, Start(w, p, s), Writing(p));
  }

  lemma WritingDoesNothing(p: Plan)
    requires Settled(p)
    ensures forall i :: i in Writing(p) ==> DoesNothing(i)
  {
    ProgramShape(p.envs);
  }

  lemma NarrowedIsSettled(w: World, p: Plan, only: seq<string>)
    requires Settled(p)
    ensures Settled(NarrowTo(w, p, only))
  {
    hide Wanted;
    var q := NarrowTo(w, p, only);
    forall e | e in q.envs ensures SettledEnv(e) {
      var i :| 0 <= i < |q.envs| && q.envs[i] == e;
      assert p.envs[i] in p.envs;
    }
  }

  /** Once an apply has succeeded, planning the same file finds every environment, component and add-on
      unchanged and no problem, and applying it again writes nothing. */
  lemma Converges(w: World, m: Manifest, s: Server, first: Attempt, second: Attempt)
    requires WorldOk(w) && Quiet(w) && ServerOk(w, s) && ValidManifest(w, m, s)
    requires Succeeded(Apply(w, m, first, s))
    ensures var t := Apply(w, m, first, s).server;
      && (PlanOf(w, m, t).result.Some? ==> Settled(PlanOf(w, m, t).result.value))
      && OnlyDeploys(Apply(w, m, second, t).log) && SameTablesAs(t, Apply(w, m, second, t).server)
  {
    hide WorldOk, Quiet, ServerOk, WellFormed, SoundEnv, PlanIsOf, PlanOf, NarrowTo, ApplyRun, Toward, Reached, Settled, NoProblems, Narrows;
    var t := Apply(w, m, first, s).server;
    AttemptGoesToward(w, m, first, s);
    PlanOfQuiet(w, m, s);
    PlanOfQuiet(w, m, t);
    var p, q := PlanOf(w, m, s), PlanOf(w, m, t);
    NarrowedIsPlan(w, m, p.server, p.result.value, first.only);
    PlannedProject(w, m, p.server, NarrowTo(w, p.result.value, first.only));
    ProjectExists(w, first.wait, NarrowTo(w, p.result.value, first.only), p.server);
    if q.result.Some? {
      PlanSettled(w, m, s, t, p.result.value, q.result.value);
      NarrowedIsSettled(w, q.result.value, second.only);
      SettledOnlyDeploys(w, second.wait, NarrowTo(w, q.result.value, second.only), q.server);
    }
  }

  lemma PlannedProject(w: World, m: Manifest, s: Server, p: Plan)
    requires PlanIsOf(w, m, s, p)
    ensures p.projectId == (if s.project.Some? then s.project.value else "")
  {
  }
}
