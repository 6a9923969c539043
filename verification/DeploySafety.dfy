/** What is deployed, when, and what keeps an environment from being deployed
    (apps/cli/cmd/apply.go:598-625, 941-1036). */
module DeploySafety {
  import opened FieldDiffs
  import opened Addons
  import opened ControlPlane
  import opened Plans
  import opened Applies
  import opened Applier
  import opened Addressing

  // ----- environments, then components, then add-ons, then deploys -----

  function Phase(ev: Event): nat {
    match ev
    case Created(_) => 0
    case Wrote(_, _, _, _, _, _, _) => 1
    case Enabled(_, _, _, _, _, _) => 2
    case _ => 3
  }

  function PhaseOf(i: Instr): nat {
    match i
    case CreateProject | AddEnv(_) | FillIds => 0
    case WriteComponent(_, _) => 1
    case WriteAddon(_, _) => 2
    case Deploy(_) => 3
  }

  predicate InPhases(log: seq<Event>) {
    forall i, j :: 0 <= i < j < |log| ==> Phase(log[i]) <= Phase(log[j])
  }

  /** The log so far is in order, and nothing in it is later than `n`. */
  predicate UpTo(log: seq<Event>, n: nat) {
    InPhases(log) && forall i :: 0 <= i < |log| ==> Phase(log[i]) <= n
  }

  /** A component update or an add-on change that was not done. */
  predicate IsRefusal(ev: Event, target: string) {
    || (ev.Wrote? && ev.plan.action == Update && !ev.ok && ev.target == target)
    || (ev.Enabled? && !ev.ok && ev.target == target)
  }

  /** What a step of a phase adds to the log, and to the record of refusals. */
  ghost predicate Appends(r: Run, t: Run, phase: nat) {
    && r.log <= t.log && |t.log| <= |r.log| + 2
    && (forall k :: |r.log| <= k < |t.log| ==> Phase(t.log[k]) == phase)
    && (|t.log| == |r.log| + 2 ==> t.log[|r.log| + 1].Finished?)
    && (forall x :: x in t.refused <==> x in r.refused || exists k :: |r.log| <= k < |t.log| && IsRefusal(t.log[k], x))
  }

  lemma OpeningAppends(w: World, p: Plan, r: Run, i: Instr)
    ensures Appends(r, StepCreateProject(w, p.manifest, r), 0)
    ensures i.AddEnv? ==> Appends(r, StepAddEnv(w, p.manifest, r, i.env), 0)
    ensures Appends(r, StepFillIds(w, p.envs, r), 0)
  {
    hide RequestCreate, RequestAddEnv, Arrive, FindDecl, FillFrom, AllKnown, Specs, Spec, Names;
  }

  lemma ComponentAppends(w: World, r: Run, e: EnvPlan, c: ComponentPlan)
    ensures Appends(r, StepComponent(w, r, e, c), 1)
  {
    hide RequestComponent, Arrive, Meanwhile, RowBefore, RowAfter, Found, FoundId, FoundById, EnabledIn, IdOf, RefusedIn;
    var t := StepComponent(w, r, e, c);
    if |t.log| > |r.log| { assert t.log[|r.log|].Wrote?; }
  }

  lemma AddonAppends(w: World, r: Run, e: EnvPlan, a: AddonPlan)
    ensures Appends(r, StepAddon(w, r, e, a), 2)
  {
    hide RequestEnable, Arrive, Meanwhile, RowBefore, RowAfter, Found, FoundId, FoundById, EnabledIn, IdOf, RefusedIn;
    var t := StepAddon(w, r, e, a);
    if |t.log| > |r.log| { assert t.log[|r.log|].Enabled?; }
  }

  lemma DeployAppends(w: World, wait: bool, r: Run, e: EnvPlan)
    ensures Appends(r, StepDeploy(w, wait, r, e), 3)
  {
    hide RequestDeploy, Arrive, Meanwhile, RowBefore, RowAfter, Found, FoundId, FoundById, EnabledIn, IdOf;
  }

  /** A step adds at most one event of its phase — a waited-for deploy also its end — and records a refusal
      exactly when it adds one. */
  lemma StepAppends(w: World, wait: bool, p: Plan, r: Run, i: Instr)
    ensures Appends(r, Step(w, wait, p, r, i), PhaseOf(i))
  {
    hide StepCreateProject, StepAddEnv, StepFillIds, StepComponent, StepAddon, StepDeploy;
    OpeningAppends(w, p, r, i);
    match i {
      case WriteComponent(e, c) => ComponentAppends(w, r, e, c);
      case WriteAddon(e, a) => AddonAppends(w, r, e, a);
      case Deploy(e) => DeployAppends(w, wait, r, e);
      case _ =>
    }
  }

  lemma StepPhase(w: World, wait: bool, p: Plan, r: Run, i: Instr)
    requires UpTo(r.log, PhaseOf(i))
    ensures UpTo(Step(w, wait, p, r, i).log, PhaseOf(i))
  {
    hide Step, Phase, PhaseOf;
    StepAppends(w, wait, p, r, i);
    var log := Step(w, wait, p, r, i).log;
    forall k | 0 <= k < |r.log| ensures log[k] == r.log[k] {
      assert log[..|r.log|] == r.log;
    }
  }

  lemma {:induction false} ExecPhase(w: World, wait: bool, p: Plan, r: Run, program: seq<Instr>, n: nat)
    requires UpTo(r.log, n) && forall i :: i in program ==> PhaseOf(i) == n
    ensures UpTo(Exec(w, wait, p, r, program).log, n)
  {
    hide Step;
    if program != [] {
      var front, last := program[..|program| - 1], program[|program| - 1];
      assert last in program;
      ExecPhase(w, wait, p, r, front, n);
      StepPhase(w, wait, p, Exec(w, wait, p, r, front), last);
    }
  }

  lemma Later(log: seq<Event>, m: nat, n: nat)
    requires UpTo(log, m) && m <= n
    ensures UpTo(log, n)
  {
  }

  /** In every run, all environments are created before the first component is written, all components
      written before the first add-on, and all add-ons before the first deploy is queued. */
  lemma PhasesInOrder(w: World, wait: bool, p: Plan, s: Server)
    ensures InPhases(ApplyRun(w, wait, p, s).log)
  {
    hide Exec, Step, UpTo;
    var r := Start(w, p, s);
    var p0 := if p.projectId == "" then [CreateProject] else CreateInstrs(p.envs);
    ProgramPhases(w, wait, p, r);
    ProgramShape(p.envs);
    NothingYet();
    ExecPhase(w, wait, p, r, p0, 0);
    var r0 := Exec(w, wait, p, r, p0);
    ExecPhase(w, wait, p, r0, [FillIds], 0);
    var r1 := Exec(w, wait, p, r0, [FillIds]);
    Later(r1.log, 0, 1);
    ExecPhase(w, wait, p, r1, ComponentInstrs(p.envs), 1);
    var r2 := Exec(w, wait, p, r1, ComponentInstrs(p.envs));
    Later(r2.log, 1, 2);
    ExecPhase(w, wait, p, r2, AddonInstrs(p.envs), 2);
    var r3 := Exec(w, wait, p, r2, AddonInstrs(p.envs));
    Later(r3.log, 2, 3);
    ExecPhase(w, wait, p, r3, DeployInstrs(p.envs), 3);
    InOrder(ApplyRun(w, wait, p, s).log);
  }

  lemma NothingYet()
    ensures UpTo([], 0)
  {
  }

  lemma InOrder(log: seq<Event>)
    requires UpTo(log, 3)
    ensures InPhases(log)
  {
  }

  // ----- what is held back -----

  predicate HeldBack(log: seq<Event>, target: string) {
    exists i :: 0 <= i < |log| && IsRefusal(log[i], target)
  }

  /** The record of refusals is exactly that of the log. */
  ghost predicate RefusalsOk(r: Run) {
    forall t :: t in r.refused <==> HeldBack(r.log, t)
  }

  lemma StepRefusalsOk(w: World, wait: bool, p: Plan, r: Run, i: Instr)
    requires RefusalsOk(r)
    ensures RefusalsOk(Step(w, wait, p, r, i))
    ensures i.Deploy? ==> Step(w, wait, p, r, i).refused == r.refused
  {
    hide Step, HeldBack, IsRefusal;
    var t := Step(w, wait, p, r, i);
    StepAppends(w, wait, p, r, i);
    forall x ensures x in t.refused <==> HeldBack(t.log, x) {
      HeldBackMore(r.log, t.log, x);
    }
    if i.Deploy? { DeployKeepsRefusals(w, wait, p, r, i.env); }
  }

  lemma HeldBackMore(log: seq<Event>, more: seq<Event>, x: string)
    requires log <= more
    ensures HeldBack(more, x) <==> HeldBack(log, x) || exists k :: |log| <= k < |more| && IsRefusal(more[k], x)
  {
    hide IsRefusal;
    if HeldBack(log, x) {
      var k :| 0 <= k < |log| && IsRefusal(log[k], x);
      assert more[..|log|][k] == more[k];
    }
    if HeldBack(more, x) {
      var k :| 0 <= k < |more| && IsRefusal(more[k], x);
      assert k < |log| ==> more[..|log|][k] == log[k];
    }
  }

  lemma {:induction false} ExecRefusalsOk(w: World, wait: bool, p: Plan, r: Run, program: seq<Instr>)
    requires RefusalsOk(r)
    ensures RefusalsOk(Exec(w, wait, p, r, program))
    ensures (forall i :: i in program ==> i.Deploy?) ==> Exec(w, wait, p, r, program).refused == r.refused
  {
    hide Step, RefusalsOk;
    if program != [] {
      var front, last := program[..|program| - 1], program[|program| - 1];
      assert last in program;
      ExecRefusalsOk(w, wait, p, r, front);
      StepRefusalsOk(w, wait, p, Exec(w, wait, p, r, front), last);
    }
  }

  // ----- what is deployed, and in which order -----

  /** The environments a run queued deploys for, in order. */
  function QueuedTargets(log: seq<Event>): seq<string> {
    if log == [] then []
    else
      var last := log[|log| - 1];
      QueuedTargets(log[..|log| - 1]) + if last.Queued? then [last.target] else []
  }

  /** The environments to deploy, in file order: not excluded by --env, and nothing of theirs refused. */
  function Deployable(w: World, envs: seq<EnvPlan>, refused: map<string, Refusals>): seq<string> {
    if envs == [] then []
    else
      var last := envs[|envs| - 1];
      Deployable(w, envs[..|envs| - 1], refused)
      + if last.deploy && w.norm(last.name) !in refused then [w.norm(last.name)] else []
  }

  lemma QueuedSnoc(log: seq<Event>, ev: Event)
    ensures QueuedTargets(log + [ev]) == QueuedTargets(log) + if ev.Queued? then [ev.target] else []
  {
    assert (log + [ev])[..|log + [ev]| - 1] == log;
  }

  lemma {:induction false} NoneQueued(log: seq<Event>, n: nat)
    requires UpTo(log, n) && n < 3
    ensures QueuedTargets(log) == []
  {
    if log != [] {
      var front := log[..|log| - 1];
      assert UpTo(front, n);
      NoneQueued(front, n);
      assert Phase(log[|log| - 1]) <= n;
    }
  }

  /** A deploy that was followed by another had succeeded first. */
  predicate SucceededFirst(log: seq<Event>, i: nat)
    requires i < |log|
  {
    log[i].Queued? ==> i + 1 < |log| && log[i].job.Some? && log[i + 1] == Finished(log[i].job.value, true)
  }

  predicate AllSucceeded(log: seq<Event>) {
    forall i :: 0 <= i < |log| ==> SucceededFirst(log, i)
  }

  /** ... so in a run that waits only the last queued deploy can be one that did not succeed. */
  predicate OneAtATime(log: seq<Event>) {
    forall i, j :: 0 <= i < j < |log| && log[i].Queued? && log[j].Queued? ==> SucceededFirst(log, i)
  }

  lemma TurnDeploys(w: World, wait: bool, p: Plan, r: Run, e: EnvPlan)
    requires r.status == Running
    ensures var t := Step(w, wait, p, r, Deploy(e));
      && QueuedTargets(t.log) == QueuedTargets(r.log)
           + (if e.deploy && w.norm(e.name) !in r.refused then [w.norm(e.name)] else [])
      && (wait && AllSucceeded(r.log) ==>
            OneAtATime(t.log) && (t.status == Running ==> AllSucceeded(t.log)))
  {
    hide RequestDeploy, Arrive, Meanwhile, RowBefore, RowAfter, Found, FoundId, FoundById, EnabledIn, OneAtATime, AllSucceeded, QueuedTargets, IsRefusal, IdOf, Phase;
    var t := Step(w, wait, p, r, Deploy(e));
    StepAppends(w, wait, p, r, Deploy(e));
    var n := |r.log|;
    if |t.log| == n + 1 {
      assert t.log == r.log + [t.log[n]];
      QueuedSnoc(r.log, t.log[n]);
    } else if |t.log| == n + 2 {
      assert t.log == r.log + [t.log[n]] + [t.log[n + 1]];
      QueuedSnoc(r.log, t.log[n]);
      QueuedSnoc(r.log + [t.log[n]], t.log[n + 1]);
    }
    if wait && AllSucceeded(r.log) {
      TurnWaits(w, p, r, e);
    }
  }

  lemma TurnWaits(w: World, p: Plan, r: Run, e: EnvPlan)
    requires r.status == Running && AllSucceeded(r.log)
    ensures var t := Step(w, true, p, r, Deploy(e)); OneAtATime(t.log) && (t.status == Running ==> AllSucceeded(t.log))
  {
    hide RequestDeploy, Arrive, Meanwhile, RowBefore, RowAfter, Found, FoundId, FoundById, EnabledIn, OneAtATime, AllSucceeded, IsRefusal, IdOf, Phase;
    StepAppends(w, true, p, r, Deploy(e));
    OneMore(r.log, Step(w, true, p, r, Deploy(e)).log);
  }

  /** At most one more deploy, after which nothing is queued. */
  lemma OneMore(log: seq<Event>, more: seq<Event>)
    requires AllSucceeded(log) && log <= more
    requires forall j :: |log| < j < |more| ==> !more[j].Queued?
    ensures OneAtATime(more)
    ensures (forall i :: |log| <= i < |more| ==> SucceededFirst(more, i)) ==> AllSucceeded(more)
  {
    forall i | 0 <= i < |log| ensures SucceededFirst(more, i) {
      assert SucceededFirst(log, i);
    }
  }

  /** The deploy loop, as far as it gets. */
  lemma {:induction false} DeploysInOrder(w: World, wait: bool, p: Plan, r: Run, k: nat)
    requires r.status == Running && k <= |p.envs|
    requires QueuedTargets(r.log) == [] && AllSucceeded(r.log)
    ensures var t := Exec(w, wait, p, r, DeployInstrs(p.envs)[..k]);
      && t.refused == r.refused
      && QueuedTargets(t.log) <= Deployable(w, p.envs[..k], r.refused)
      && (t.status == Running ==> QueuedTargets(t.log) == Deployable(w, p.envs[..k], r.refused))
      && (wait ==> OneAtATime(t.log) && (t.status == Running ==> AllSucceeded(t.log)))
  {
    hide Step, AllSucceeded, OneAtATime;
    AllSucceededIsOrderly(r.log);
    if k > 0 {
      var program := DeployInstrs(p.envs)[..k];
      assert program[..k - 1] == DeployInstrs(p.envs)[..k - 1] && program[k - 1] == Deploy(p.envs[k - 1]);
      assert p.envs[..k][..k - 1] == p.envs[..k - 1];
      DeploysInOrder(w, wait, p, r, k - 1);
      var before := Exec(w, wait, p, r, program[..k - 1]);
      DeployKeepsRefusals(w, wait, p, before, p.envs[k - 1]);
      if before.status == Running {
        TurnDeploys(w, wait, p, before, p.envs[k - 1]);
      } else {
        StepStopped(w, wait, p, before, program[k - 1]);
      }
    }
  }

  lemma AllSucceededIsOrderly(log: seq<Event>)
    requires AllSucceeded(log)
    ensures OneAtATime(log)
  {
  }

  lemma DeployKeepsRefusals(w: World, wait: bool, p: Plan, r: Run, e: EnvPlan)
    ensures Step(w, wait, p, r, Deploy(e)).refused == r.refused
  {
    hide RequestDeploy, Arrive, Meanwhile, RowBefore, RowAfter, Found, FoundId, FoundById, EnabledIn;
  }

  lemma NothingQueuedSucceeded(log: seq<Event>, n: nat)
    requires UpTo(log, n) && n < 3
    ensures AllSucceeded(log)
  {
    forall i | 0 <= i < |log| ensures SucceededFirst(log, i) {
      assert Phase(log[i]) <= n;
    }
  }

  /** What a run deploys: the environments of the file that --env keeps and in which nothing was
      refused, in file order; all of them unless the run stops early. No environment with a refused
      component or add-on is among them, and when the run waits each deploy follows the success of the
      one before it. */
  lemma DeploysAreSafe(w: World, wait: bool, p: Plan, s: Server)
    ensures var r := ApplyRun(w, wait, p, s);
      && QueuedTargets(r.log) <= Deployable(w, p.envs, r.refused)
      && (r.status == Running ==> QueuedTargets(r.log) == Deployable(w, p.envs, r.refused))
      && (forall t :: HeldBack(r.log, t) ==> t !in QueuedTargets(r.log))
      && (wait ==> OneAtATime(r.log))
  {
    hide Exec, Step, UpTo, HeldBack, OneAtATime, AllSucceeded, RefusalsOk;
    var r := Start(w, p, s);
    var p0 := if p.projectId == "" then [CreateProject] else CreateInstrs(p.envs);
    ProgramPhases(w, wait, p, r);
    ProgramShape(p.envs);
    NothingYet();
    ExecPhase(w, wait, p, r, p0, 0);
    var r0 := Exec(w, wait, p, r, p0);
    ExecPhase(w, wait, p, r0, [FillIds], 0);
    var r1 := Exec(w, wait, p, r0, [FillIds]);
    Later(r1.log, 0, 1);
    ExecPhase(w, wait, p, r1, ComponentInstrs(p.envs), 1);
    var r2 := Exec(w, wait, p, r1, ComponentInstrs(p.envs));
    Later(r2.log, 1, 2);
    ExecPhase(w, wait, p, r2, AddonInstrs(p.envs), 2);
    var r3 := Exec(w, wait, p, r2, AddonInstrs(p.envs));
    NoneQueued(r3.log, 2);
    NothingQueuedSucceeded(r3.log, 2);
    var t := Exec(w, wait, p, r3, DeployInstrs(p.envs));
    if r3.status == Running {
      DeploysInOrder(w, wait, p, r3, |p.envs|);
      assert DeployInstrs(p.envs)[..|p.envs|] == DeployInstrs(p.envs) && p.envs[..|p.envs|] == p.envs;
    } else {
      StoppedPhase(w, wait, p, r3, DeployInstrs(p.envs));
      AllSucceededIsOrderly(r3.log);
    }
    NothingRefused(r);
    ExecRefusalsOk(w, wait, p, r, Program(p));
    assert t == ApplyRun(w, wait, p, s);
    forall x | HeldBack(t.log, x) ensures x !in QueuedTargets(t.log) {
      RefusedIsHeldBack(t, x);
      DeployableIsClear(w, p.envs, t.refused, x);
    }
  }

  lemma NothingRefused(r: Run)
    requires r.refused == map[] && r.log == []
    ensures RefusalsOk(r)
  {
  }

  lemma RefusedIsHeldBack(r: Run, x: string)
    requires RefusalsOk(r) && HeldBack(r.log, x)
    ensures x in r.refused
  {
  }

  lemma {:induction false} DeployableIsClear(w: World, envs: seq<EnvPlan>, refused: map<string, Refusals>, x: string)
    requires x in refused
    ensures x !in Deployable(w, envs, refused)
  {
    if envs != [] {
      DeployableIsClear(w, envs[..|envs| - 1], refused, x);
    }
  }
}
