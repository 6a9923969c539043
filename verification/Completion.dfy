/** An apply that meets no failure and no other writer gets to its end (apps/cli/cmd/apply.go:868-1046):
    nothing it sends is of a kind the server refuses. */
module Completion {
  import opened Options
  import opened FieldDiffs
  import opened Addons
  import opened ControlPlane
  import opened ServerInvariants
  import opened Plans
  import opened Applies
  import opened Applier
  import opened Commands
  import opened Addressing
  import opened Lookups
  import opened Progress
  import opened Tracking
  import opened QuietPlans
  import opened Convergence
  import opened Resumption

  /** Every request is served and answered, and every job succeeds. */
  ghost predicate Reliable(w: World) {
    Answered(w) && (forall n :: w.succeeds(n))
  }

  // ----- the environments -----

  lemma {:induction false} FillCompletes(w: World, ids: map<string, string>, listed: seq<Env>, name: string)
    requires exists e :: e in listed && w.norm(e.name) == w.norm(name) && e.id != ""
    requires forall e :: e in listed ==> e.id != ""
    ensures IdOf(w, FillFrom(w, ids, listed), name) != ""
  {
    var front, last := listed[..|listed| - 1], listed[|listed| - 1];
    if w.norm(last.name) != w.norm(name) {
      var e :| e in listed && w.norm(e.name) == w.norm(name) && e.id != "";
      assert e in front;
      FillCompletes(w, ids, front, name);
    }
  }

  /** The listing completes the ids once every environment of the plan exists. */
  lemma FillSucceeds(w: World, envs: seq<EnvPlan>, r: Run)
    requires Quiet(w) && Reliable(w) && ServerOk(w, r.server) && Succeeded(r)
    requires forall e :: e in envs ==> Named(w, r.server.envs, e.name).Some?
    ensures Succeeded(StepFillIds(w, envs, r))
  {
    hide HistoryOk, RowsOk, Arrive, FillFrom;
    QuietArrive(w, r.server);
    var listed := r.server.envs;
    forall e | e in envs ensures IdOf(w, FillFrom(w, r.ids, listed), e.name) != "" {
      var x := Named(w, listed, e.name).value;
      var i :| 0 <= i < |listed| && listed[i] == x;
      FillCompletes(w, r.ids, listed, e.name);
    }
  }

  lemma CreateSucceeds(w: World, m: Manifest, r: Run)
    requires WorldOk(w) && Quiet(w) && Reliable(w) && ServerOk(w, r.server) && WellFormed(w, m) && Succeeded(r)
    requires r.server.project == None
    ensures var t := StepCreateProject(w, m, r);
      Succeeded(t) && forall d :: d in m.envs ==> Named(w, t.server.envs, d.name).Some?
  {
    hide Arrive, WorldOk, WellFormedEnv, HistoryOk, RowsOk, EnvsOk, NamesOk, AddonsOk, AddEnvs, Extends;
    QuietArrive(w, r.server);
    var s := Arrive(w, r.server);
    ArriveOk(w, r.server);
    SpecsAreOk(w, m);
    var named := s.(project := Some(w.newId({})));
    NamedOk(w, s);
    AddEnvsOk(w, named, Specs(m));
    AddEnvsIgnoresProject(w, s, named, Specs(m));
    var t := StepCreateProject(w, m, r);
    forall d | d in m.envs ensures Named(w, t.server.envs, d.name).Some? {
      var i :| 0 <= i < |m.envs| && m.envs[i] == d;
      assert CreatedFrom(w, t.server.envs[i], Specs(m)[i]);
      NormIsIdempotent(w, d.name);
    }
  }

  lemma NormIsIdempotent(w: World, x: string)
    requires WorldOk(w)
    ensures w.norm(w.norm(x)) == w.norm(x)
  {
  }

  lemma SpecsAreOk(w: World, m: Manifest)
    requires WellFormed(w, m)
    ensures SpecsOk(w, Specs(m))
  {
    forall i | 0 <= i < |m.envs| ensures w.norm(Specs(m)[i].name) != "" { assert WellFormedEnv(w, m.envs[i]); }
  }

  /** Adding an environment that does not exist succeeds, and brings only that one. */
  lemma AddSucceeds(w: World, m: Manifest, r: Run, e: EnvPlan, other: string)
    requires WorldOk(w) && Quiet(w) && Reliable(w) && ServerOk(w, r.server) && Succeeded(r) && r.server.project.Some?
    requires w.norm(e.name) != "" && Named(w, r.server.envs, e.name) == None && exists d :: d in m.envs && d.name == e.name
    ensures var t := StepAddEnv(w, m, r, e);
      && Succeeded(t) && t.server.project.Some?
      && Named(w, t.server.envs, e.name).Some?
      && (w.norm(other) != w.norm(e.name) ==> (Named(w, t.server.envs, other).Some? <==> Named(w, r.server.envs, other).Some?))
  {
    hide Arrive, HistoryOk, RowsOk, EnvsOk, NewEnv;
    QuietArrive(w, r.server);
    FindDeclName(m.envs, e.name);
    NormIsIdempotent(w, e.name);
    var spec := Spec(FindDecl(m.envs, e.name).value);
    NewEnvIsAsked(w, Arrive(w, r.server), spec);
    AbsentByName(w, r.server, e.name);
    var t := StepAddEnv(w, m, r, e);
    assert t.server.envs[|r.server.envs|].name == w.norm(e.name) && t.server.envs[|r.server.envs|] in t.server.envs;
    assert forall x :: x in r.server.envs ==> x in t.server.envs;
  }

  lemma AbsentByName(w: World, s: Server, name: string)
    requires WorldOk(w) && Named(w, s.envs, name) == None
    ensures FirstEnv(s.envs, (e: Env) => e.name == w.norm(name)) == None
  {
    NormIsIdempotent(w, name);
  }

  /** How far the creation of environments has got. */
  ghost predicate CreatedUpTo(w: World, p: Plan, r: Run, k: nat) {
    && Succeeded(r) && r.server.project.Some?
    && (forall j :: 0 <= j < |p.envs| ==>
          (Named(w, r.server.envs, p.envs[j].name).Some? <==> j < k || p.envs[j].action != Create))
  }

  lemma {:induction false} CreatesSucceed(w: World, wait: bool, m: Manifest, s: Server, p: Plan, k: nat)
    requires WorldOk(w) && Quiet(w) && Reliable(w) && ServerOk(w, s) && ValidManifest(w, m, s) && PlanIsOf(w, m, s, p)
    requires s.project.Some? && k <= |p.envs|
    ensures CreatedUpTo(w, p, Exec(w, wait, p, Start(w, p, s), CreateInstrs(p.envs[..k])), k)
  {
    hide WorldOk, Quiet, Reliable, ServerOk, ValidManifest, PlanIsOf, Step, Succeeded, CreatedUpTo;
    var r := Start(w, p, s);
    if k == 0 {
      NothingCreated(w, m, s, p);
    } else {
      CreatesSucceed(w, wait, m, s, p, k - 1);
      assert p.envs[..k][..k - 1] == p.envs[..k - 1];
      var before := Exec(w, wait, p, r, CreateInstrs(p.envs[..k - 1]));
      ExecServerOk(w, wait, p, r, CreateInstrs(p.envs[..k - 1]));
      if p.envs[k - 1].action == Create {
        ExecSnoc(w, wait, p, r, CreateInstrs(p.envs[..k - 1]), AddEnv(p.envs[k - 1]));
        CreateOneMore(w, wait, m, s, p, before, k - 1);
      } else {
        assert CreateInstrs(p.envs[..k - 1]) + [] == CreateInstrs(p.envs[..k - 1]);
        SkipOne(w, p, before, k - 1);
      }
    }
  }

  lemma NothingCreated(w: World, m: Manifest, s: Server, p: Plan)
    requires PlanIsOf(w, m, s, p) && s.project.Some?
    ensures CreatedUpTo(w, p, Start(w, p, s), 0)
  {
    hide PlanFromRow, AddonPlanned, EnvProblems;
    forall j | 0 <= j < |p.envs| ensures Named(w, s.envs, p.envs[j].name).Some? <==> p.envs[j].action != Create {
      assert EnvPlanned(w, s, m.envs[j], p.envs[j]);
    }
  }

  lemma SkipOne(w: World, p: Plan, r: Run, k: nat)
    requires CreatedUpTo(w, p, r, k) && k < |p.envs| && p.envs[k].action != Create
    ensures CreatedUpTo(w, p, r, k + 1)
  {
  }

  lemma CreateOneMore(w: World, wait: bool, m: Manifest, s: Server, p: Plan, r: Run, k: nat)
    requires WorldOk(w) && Quiet(w) && Reliable(w) && ServerOk(w, r.server) && ValidManifest(w, m, s) && PlanIsOf(w, m, s, p)
    requires CreatedUpTo(w, p, r, k) && k < |p.envs| && p.envs[k].action == Create
    ensures CreatedUpTo(w, p, Step(w, wait, p, r, AddEnv(p.envs[k])), k + 1)
  {
    hide WorldOk, Quiet, Reliable, ServerOk, StepAddEnv, PlanFromRow, AddonPlanned, EnvProblems, DeclGood, AddonSound, AddonFits;
    var e := p.envs[k];
    assert EnvPlanned(w, s, m.envs[k], e) && m.envs[k] in m.envs && WellFormedEnv(w, m.envs[k]);
    AddSucceeds(w, m, r, e, "");
    forall j | 0 <= j < |p.envs|
      ensures Named(w, StepAddEnv(w, m, r, e).server.envs, p.envs[j].name).Some? <==> j < k + 1 || p.envs[j].action != Create
    {
      if j != k {
        assert EnvPlanned(w, s, m.envs[j], p.envs[j]);
        AddSucceeds(w, m, r, e, p.envs[j].name);
      }
    }
  }

  lemma OpeningSucceeds(w: World, wait: bool, m: Manifest, s: Server, p: Plan)
    requires WorldOk(w) && Quiet(w) && Reliable(w) && ServerOk(w, s) && ValidManifest(w, m, s) && PlanIsOf(w, m, s, p)
    ensures Succeeded(Exec(w, wait, p, Start(w, p, s), Opening(p)))
  {
    hide WorldOk, Quiet, Reliable, ServerOk, ValidManifest, PlanIsOf, Succeeded, StepFillIds, StepCreateProject, CreateInstrs;
    var r := Start(w, p, s);
    ProjectIdMeans(w, s);
    PlannedProject(w, m, s, p);
    StartSucceeds(w, p, s);
    if s.project == None {
      assert [] + [CreateProject] == [CreateProject];
      ExecSnoc(w, wait, p, r, [], CreateProject);
      ExecSnoc(w, wait, p, r, [CreateProject], FillIds);
      PlanManifest(w, m, s, p);
      ValidIsWellFormed(w, m, s);
      CreateSucceeds(w, m, r);
      StepServerOk(w, wait, p, r, CreateProject);
      StillRunning(w, wait, p, Step(w, wait, p, r, CreateProject));
      FillSucceeds(w, p.envs, Step(w, wait, p, r, CreateProject));
    } else {
      var creates := CreateInstrs(p.envs);
      assert p.envs[..|p.envs|] == p.envs;
      CreatesSucceed(w, wait, m, s, p, |p.envs|);
      var before := Exec(w, wait, p, r, creates);
      ExecServerOk(w, wait, p, r, creates);
      ExecSnoc(w, wait, p, r, creates, FillIds);
      StillRunning(w, wait, p, before);
      FillSucceeds(w, p.envs, before);
    }
  }

  lemma ValidIsWellFormed(w: World, m: Manifest, s: Server)
    requires ValidManifest(w, m, s)
    ensures WellFormed(w, m)
  {
  }

  lemma StartSucceeds(w: World, p: Plan, s: Server)
    ensures Succeeded(Start(w, p, s)) && Start(w, p, s).status == Running
  {
  }

  lemma StillRunning(w: World, wait: bool, p: Plan, r: Run)
    requires Succeeded(r)
    ensures r.status == Running && Step(w, wait, p, r, FillIds) == StepFillIds(w, p.envs, r)
  {
  }

  lemma PlanManifest(w: World, m: Manifest, s: Server, p: Plan)
    requires PlanIsOf(w, m, s, p)
    ensures p.manifest == m && forall e :: e in p.envs ==> exists d :: d in m.envs && d.name == e.name
  {
    hide PlanFromRow, AddonPlanned, EnvProblems;
    forall e | e in p.envs ensures exists d :: d in m.envs && d.name == e.name {
      var i :| 0 <= i < |p.envs| && p.envs[i] == e;
      assert EnvPlanned(w, s, m.envs[i], e) && m.envs[i] in m.envs;
    }
  }

  // ----- the writes -----

  /** The slot an instruction writes is as it was planned from, when its turn comes. */
  lemma ComponentTurn(w: World, wait: bool, m: Manifest, s: Server, p: Plan, r: Run, n: nat)
    requires WorldOk(w) && Quiet(w) && Reliable(w) && ServerOk(w, s) && ValidManifest(w, m, s) && PlanIsOf(w, m, s, p)
    requires r == Exec(w, wait, p, Start(w, p, s), Opening(p))
    requires n < |Writing(p)| && Writing(p)[n].WriteComponent?
    requires Succeeded(Exec(w, wait, p, r, Writing(p)[..n]))
    ensures Succeeded(Step(w, wait, p, Exec(w, wait, p, r, Writing(p)[..n]), Writing(p)[n]))
  {
    hide WorldOk, Quiet, Reliable, ServerOk, ValidManifest, PlanIsOf, Supported, Going, Exec, ProperSlot, Opening, Writing, Proper, DeclGood, PlanFromRow, HitOnce, AnyHit, SlotRow, Step, Aimed, Hits, Declares, Succeeded;
    var i := Writing(p)[n];
    var k := Slot(i.env.name, i.component.kind, i.component.name);
    PlansAreProper(w, m, s, p);
    WritingHitsOnce(w, p, k);
    HitsItself(w, i, k);
    assert i in Writing(p);
    HitIsDeclared(w, m, s, p, k, i);
    var d :| Declares(w, m, k, d);
    var j := InstrOf(w, m, s, p, k, d);
    DeclaredIsGood(w, m, s, k, d);
    InWriting(p, j);
    SameInstr(w, Writing(p), k, i, j);
    BothSupported(w, wait, m, s, p);
    OpeningProper(w, i, k);
    OpeningKeepsSlot(w, wait, m, s, p, k);
    PrefixSupported(w, p, r, Writing(p), n);
    NoHitBefore(w, Writing(p), k, n);
    ExecSlotFrame(w, wait, p, r, Writing(p)[..n], k);
    TurnIsReady(w, wait, p, r, n);
    DeclaredKey(w, m, k, d);
    ComponentSucceeds(w, wait, p, Exec(w, wait, p, r, Writing(p)[..n]), i, d, k);
  }

  lemma HitsItself(w: World, i: Instr, k: Slot)
    requires i.WriteComponent? && k == Slot(i.env.name, i.component.kind, i.component.name)
    ensures Hits(w, i, k)
  {
  }

  lemma OpeningProper(w: World, i: Instr, k: Slot)
    requires i.WriteComponent? && Proper(w, i) && k == Slot(i.env.name, i.component.kind, i.component.name)
    ensures ProperSlot(w, k)
  {
  }

  lemma DeclaredKey(w: World, m: Manifest, k: Slot, d: Decl)
    requires Declares(w, m, k, d)
    ensures k == Slot(k.env, d.kind, d.name)
  {
  }

  lemma PrefixSupported(w: World, p: Plan, r: Run, program: seq<Instr>, n: nat)
    requires Supported(w, p, r, program) && n <= |program|
    ensures Supported(w, p, r, program[..n]) && (forall i :: i in program[..n] ==> i in program)
  {
    hide Going, AllKnown, AddressedInstr, Opens;
    forall i | i in program[..n] ensures i in program {}
  }

  lemma NoHitBefore(w: World, program: seq<Instr>, k: Slot, n: nat)
    requires HitOnce(w, program, k) && n < |program| && Hits(w, program[n], k)
    ensures !AnyHit(w, program[..n], k)
  {
    hide Hits;
    forall i | 0 <= i < n ensures !Hits(w, program[..n][i], k) { assert program[..n][i] == program[i]; }
  }

  lemma TurnIsReady(w: World, wait: bool, p: Plan, r: Run, n: nat)
    requires WorldOk(w) && Quiet(w) && Supported(w, p, r, Writing(p)) && n < |Writing(p)|
    ensures var before := Exec(w, wait, p, r, Writing(p)[..n]); Going(w, before) && Aimed(w, before, Writing(p)[n])
  {
    hide WorldOk, Quiet, Supported, Going, Exec, Aimed, Writing;
    PrefixSupported(w, p, r, Writing(p), n + 1);
    assert Writing(p)[..n + 1][..n] == Writing(p)[..n];
    Front(w, wait, p, r, Writing(p)[..n + 1]);
  }

  lemma ComponentSucceeds(w: World, wait: bool, p: Plan, r: Run, i: Instr, d: Decl, k: Slot)
    requires Quiet(w) && Reliable(w) && Going(w, r) && Aimed(w, r, i) && Succeeded(r)
    requires DeclGood(w, d, SlotValues(w, r.server, k)) && k == Slot(k.env, d.kind, d.name) && Hits(w, i, k)
    requires i.component == PlanFromRow(d, SlotRow(w, r.server, k))
    ensures Succeeded(Step(w, wait, p, r, i))
  {
    hide ServerOk, IdsOk, RequestComponent, Arrive, Meanwhile, RowBefore, RowAfter, Found, FoundId, FoundById, EnabledIn, SlotRow, AllWellAddressed, Goal, PlanFromRow, DeclGood, Quiet;
    if i.component.action != Unchanged { ComponentHit(w, r, i.env, d, k); }
  }

  lemma AddonTurn(w: World, wait: bool, m: Manifest, s: Server, p: Plan, r: Run, n: nat)
    requires WorldOk(w) && Quiet(w) && Reliable(w) && ServerOk(w, s) && ValidManifest(w, m, s) && PlanIsOf(w, m, s, p)
    requires r == Exec(w, wait, p, Start(w, p, s), Opening(p))
    requires n < |Writing(p)| && Writing(p)[n].WriteAddon?
    requires Succeeded(Exec(w, wait, p, r, Writing(p)[..n]))
    ensures Succeeded(Step(w, wait, p, Exec(w, wait, p, r, Writing(p)[..n]), Writing(p)[n]))
  {
    hide WorldOk, Quiet, Reliable, ServerOk, ValidManifest, PlanIsOf, Supported, Going, Exec, Opening, Writing, Proper, AddonSound, PlanFor, AddonHitOnce, AnyAddonHit, AddonFor, Step, Aimed, HitsAddon, DeclaresAddon, Succeeded;
    var i := Writing(p)[n];
    var env, id := i.env.name, i.addon.id;
    PlansAreProper(w, m, s, p);
    WritingHitsAddonOnce(w, p, env, id);
    HitsItsAddon(w, i);
    assert i in Writing(p);
    AddonHitIsDeclared(w, m, s, p, env, id, i);
    var a :| DeclaresAddon(w, m, env, a) && a.id == id;
    var j := AddonInstrOf(w, m, s, p, env, a);
    InWriting(p, j);
    SameAddonInstr(w, Writing(p), env, id, i, j);
    BothSupported(w, wait, m, s, p);
    OpeningKeepsAddon(w, wait, m, s, p, env, id);
    PrefixSupported(w, p, r, Writing(p), n);
    NoAddonHitBefore(w, Writing(p), env, id, n);
    ExecAddonFrame(w, wait, p, r, Writing(p)[..n], env, id);
    TurnIsReady(w, wait, p, r, n);
    AddonSucceeds(w, wait, p, Exec(w, wait, p, r, Writing(p)[..n]), i, env, a);
  }

  lemma HitsItsAddon(w: World, i: Instr)
    requires i.WriteAddon?
    ensures HitsAddon(w, i, i.env.name, i.addon.id)
  {
  }

  lemma NoAddonHitBefore(w: World, program: seq<Instr>, env: string, id: string, n: nat)
    requires AddonHitOnce(w, program, env, id) && n < |program| && HitsAddon(w, program[n], env, id)
    ensures !AnyAddonHit(w, program[..n], env, id)
  {
    hide HitsAddon;
    forall i | 0 <= i < n ensures !HitsAddon(w, program[..n][i], env, id) { assert program[..n][i] == program[i]; }
  }

  lemma AddonSucceeds(w: World, wait: bool, p: Plan, r: Run, i: Instr, env: string, a: AddonDecl)
    requires Quiet(w) && Reliable(w) && Going(w, r) && Aimed(w, r, i) && Succeeded(r)
    requires AddonSound(w, a) && HitsAddon(w, i, env, a.id)
    requires AddonPlanned(w, r.server, env, a).Planned? && i.addon == AddonPlanned(w, r.server, env, a).plan
    ensures Succeeded(Step(w, wait, p, r, i))
  {
    hide ServerOk, IdsOk, RequestEnable, Arrive, Meanwhile, RowBefore, RowAfter, Found, FoundId, FoundById, EnabledIn, AddonFor, AllWellAddressed, PlanFor, AddonTarget, AddonDeclOk, Quiet;
    if i.addon.request.Some? { AddonHit(w, r, i.env.name, a, env); }
  }

  lemma DeploySucceeds(w: World, wait: bool, p: Plan, r: Run, i: Instr)
    requires Quiet(w) && Reliable(w) && Going(w, r) && Aimed(w, r, i) && Succeeded(r) && i.Deploy?
    ensures Succeeded(Step(w, wait, p, r, i))
  {
    hide ServerOk, IdsOk, Arrive, AllWellAddressed, Resolve;
    WriteLands(w, r, i.env.name);
    QuietArrive(w, r.server);
  }

  lemma {:induction false} WritingSucceeds(w: World, wait: bool, m: Manifest, s: Server, p: Plan, r: Run, n: nat)
    requires WorldOk(w) && Quiet(w) && Reliable(w) && ServerOk(w, s) && ValidManifest(w, m, s) && PlanIsOf(w, m, s, p)
    requires r == Exec(w, wait, p, Start(w, p, s), Opening(p)) && Succeeded(r) && n <= |Writing(p)|
    ensures Succeeded(Exec(w, wait, p, r, Writing(p)[..n]))
  {
    hide WorldOk, Quiet, Reliable, ServerOk, ValidManifest, PlanIsOf, Supported, Step, Opening, Writing, Succeeded, Going, Aimed;
    if n == 0 {
      ExecNothing(w, wait, p, r);
      assert Writing(p)[..0] == [];
    } else {
      WritingSucceeds(w, wait, m, s, p, r, n - 1);
      assert Writing(p)[..n][..n - 1] == Writing(p)[..n - 1];
      var i := Writing(p)[n - 1];
      WritingWrites(p);
      assert i in Writing(p) && AddressedInstr(i, p.envs);
      if i.WriteComponent? {
        ComponentTurn(w, wait, m, s, p, r, n - 1);
      } else if i.WriteAddon? {
        AddonTurn(w, wait, m, s, p, r, n - 1);
      } else {
        BothSupported(w, wait, m, s, p);
        TurnIsReady(w, wait, p, r, n - 1);
        DeploySucceeds(w, wait, p, Exec(w, wait, p, r, Writing(p)[..n - 1]), i);
      }
    }
  }

  /** A file whose declarations can settle, a server nobody else writes to and no failing request: the apply
      succeeds, and everything declared is as the file would have it, exactly when the plan has no problem
      and `--env` names declared environments; otherwise nothing is written. */
  lemma Completes(w: World, m: Manifest, s: Server, a: Attempt)
    requires WorldOk(w) && Quiet(w) && Reliable(w) && ServerOk(w, s) && ValidManifest(w, m, s)
    ensures var plan, t := PlanOf(w, m, s).result, Apply(w, m, a, s);
      && plan.Some?
      && (Succeeded(t) <==> NoProblems(plan.value) && Narrows(w, plan.value, a.only))
      && (if Succeeded(t) then Reached(w, m, s, t.server) else SameState(s, t.server))
  {
    hide WorldOk, Quiet, ServerOk, WellFormed, SoundEnv, PlanIsOf, PlanOf, NarrowTo, Exec, Opening, Writing, Reached, Toward, NoProblems, Narrows, Answered;
    PlanOfQuiet(w, m, s);
    var planned := PlanOf(w, m, s);
    if Goes(w, planned.result, a) {
      var p := NarrowTo(w, planned.result.value, a.only);
      NarrowedIsPlan(w, m, planned.server, planned.result.value, a.only);
      StillValid(w, m, s, planned.server);
      PlanSucceeds(w, a.wait, m, planned.server, p);
    }
    AttemptGoesToward(w, m, a, s);
  }

  lemma PlanSucceeds(w: World, wait: bool, m: Manifest, s: Server, p: Plan)
    requires WorldOk(w) && Quiet(w) && Reliable(w) && ServerOk(w, s) && ValidManifest(w, m, s) && PlanIsOf(w, m, s, p)
    ensures Succeeded(ApplyRun(w, wait, p, s))
  {
    hide WorldOk, Quiet, Reliable, ServerOk, ValidManifest, PlanIsOf, Exec, Opening, Writing, Succeeded;
    OpeningSucceeds(w, wait, m, s, p);
    var r := Exec(w, wait, p, Start(w, p, s), Opening(p));
    WritingSucceeds(w, wait, m, s, p, r, |Writing(p)|);
    assert Writing(p)[..|Writing(p)|] == Writing(p);
    TwoStretches(w, wait, p, s);
  }
}
