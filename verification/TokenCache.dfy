/** `alethia cluster token` run by any number of kubectls at once for one cluster
    (apps/cli/cmd/clusters_token.go:75-113, 154-175; apps/cli/internal/kubecache/kubecache.go:70-100):
    lock, look in the cache, mint when there is nothing fresh, cache, print, unlock. Times are seconds. */
module TokenCache {
  import opened Options

  const MIN_REMAINING := 60

  /** A credential; `serial` tells one mint's token from another's. */
  datatype Entry = Entry(serial: nat, expiresAt: int)

  /** `FreshAt`. */
  predicate FreshAt(e: Option<Entry>, now: int) {
    e.Some? && e.value.expiresAt - now >= MIN_REMAINING
  }

  // ----- one process, under the lock -----

  /** What a process does between lock and unlock, to what it finds cached: the cache after it, what it
      prints, and whether it asked for a mint. `minted` is what a mint would bring, none when it fails. */
  datatype Turn = Turn(cache: Option<Entry>, out: Option<Entry>, mints: nat)

  function TurnOn(cache: Option<Entry>, now: int, minted: Option<Entry>, putOk: bool): Turn {
    if FreshAt(cache, now) then Turn(cache, cache, 0)
    else Turn(if minted.Some? && putOk then minted else cache, minted, 1)
  }

  /** The cache file of the cluster and its tier. */
  class Cache {
    var entry: Option<Entry>

    constructor ()
      ensures entry == None
    {
      entry := None;
    }

    /** `mintClusterToken`: a credential that cannot be cached is still served. */
    method MintClusterToken(minted: Option<Entry>, putOk: bool) returns (e: Option<Entry>)
      modifies this
      ensures e == minted
      ensures entry == if minted.Some? && putOk then minted else old(entry)
    {
      if minted == None {
        return None;
      }
      if putOk {
        entry := minted;
      }
      return minted;
    }

    /** `runClusterToken` between lock and unlock: what is printed is fresh in the cache, or just minted;
        and a mint is made only when the cache has nothing fresh. */
    method RunClusterToken(now: int, minted: Option<Entry>, putOk: bool) returns (out: Option<Entry>, mints: nat)
      modifies this
      ensures Turn(entry, out, mints) == TurnOn(old(entry), now, minted, putOk)
      ensures mints == if FreshAt(old(entry), now) then 0 else 1
    {
      var e := entry;
      mints := 0;
      if e == None || !FreshAt(e, now) {
        e := MintClusterToken(minted, putOk);
        mints := 1;
      }
      out := e;
    }
  }

  // ----- many processes -----

  /** `Stale` found nothing fresh at that time; `Fetched` has minted and not yet cached. */
  datatype Process = Waiting | Locked | Stale(at: int) | Fetched(entry: Entry) | Serving(entry: Entry) | Leaving(ok: bool) | Done | Failed

  /** A mint, and when its process had looked in the cache. */
  datatype Mint = Mint(entry: Entry, checkedAt: int)

  /** `cached` has the serials that reached the cache; `printed` what each process printed. */
  datatype State = State(
    now: int, lock: Option<nat>, cache: Option<Entry>, procs: seq<Process>,
    mints: seq<Mint>, cached: set<nat>, printed: seq<Option<Entry>>)

  /** `ok` is false when the call fails. A process that dies lets go of the lock, which is the kernel's. */
  datatype Step =
    | Tick(seconds: nat)
    | Acquire(p: nat, ok: bool) | Check(p: nat, ok: bool) | Fetch(p: nat, expiresAt: int, ok: bool)
    | Put(p: nat, ok: bool) | Print(p: nat) | Release(p: nat) | Die(p: nat)

  function Start(now: int, cache: Option<Entry>, n: nat): State {
    State(now, None, cache, seq(n, _ => Waiting), [], {}, seq(n, _ => None))
  }

  function Becomes(s: State, p: nat, q: Process): State
    requires p < |s.procs|
  {
    s.(procs := s.procs[p := q])
  }

  /** A mint's token is new. */
  function TakeMint(s: State, p: nat, expiresAt: int): State
    requires p < |s.procs| && s.procs[p].Stale?
  {
    var e := Entry(|s.mints|, expiresAt);
    Becomes(s.(mints := s.mints + [Mint(e, s.procs[p].at)]), p, Fetched(e))
  }

  function Next(s: State, step: Step): State
    requires |s.printed| == |s.procs|
  {
    if step.Tick? then s.(now := s.now + step.seconds)
    else if step.p >= |s.procs| then s
    else
      match (step, s.procs[step.p])
      case (Acquire(p, ok), Waiting) =>
        if !ok then Becomes(s, p, Failed) else if s.lock == None then Becomes(s.(lock := Some(p)), p, Locked) else s
      case (Check(p, ok), Locked) =>
        if !ok then Becomes(s, p, Leaving(false))
        else if FreshAt(s.cache, s.now) then Becomes(s, p, Serving(s.cache.value))
        else Becomes(s, p, Stale(s.now))
      case (Fetch(p, expiresAt, ok), Stale(_)) => if ok then TakeMint(s, p, expiresAt) else Becomes(s, p, Leaving(false))
      case (Put(p, ok), Fetched(e)) =>
        Becomes(if ok then s.(cache := Some(e), cached := s.cached + {e.serial}) else s, p, Serving(e))
      case (Print(p), Serving(e)) => Becomes(s.(printed := s.printed[p := Some(e)]), p, Leaving(true))
      case (Release(p), Leaving(ok)) => Becomes(s.(lock := None), p, if ok then Done else Failed)
      case (Die(p), q) =>
        if q.Done? || q.Failed? then s else Becomes(s.(lock := if InCritical(q) then None else s.lock), p, Failed)
      case _ => s
  }

  predicate InCritical(q: Process) {
    q.Locked? || q.Stale? || q.Fetched? || q.Serving? || q.Leaving?
  }

  // ----- what every step keeps -----

  /** What the cache holds after some mints: the last one that was cached. */
  function LastCached(initial: Option<Entry>, mints: seq<Mint>, cached: set<nat>): Option<Entry> {
    if mints == [] then initial
    else if mints[|mints| - 1].entry.serial in cached then Some(mints[|mints| - 1].entry)
    else LastCached(initial, mints[..|mints| - 1], cached)
  }

  ghost predicate Exclusive(s: State) {
    && |s.printed| == |s.procs|
    && (forall p :: 0 <= p < |s.procs| && InCritical(s.procs[p]) ==> s.lock == Some(p))
  }

  /** Serials number the mints; a mint not yet cached is the last one. */
  ghost predicate Numbered(s: State) {
    && (forall k :: 0 <= k < |s.mints| ==> s.mints[k].entry.serial == k && s.mints[k].checkedAt <= s.now)
    && (forall x :: x in s.cached ==> x < |s.mints|)
    && (forall p :: 0 <= p < |s.procs| && s.procs[p].Fetched? ==>
          s.mints != [] && s.procs[p].entry == s.mints[|s.mints| - 1].entry && s.procs[p].entry.serial !in s.cached)
  }

  /** The cache is the last cached mint, and whoever is about to mint found nothing fresh in it. */
  ghost predicate Faithful(initial: Option<Entry>, s: State) {
    && s.cache == LastCached(initial, s.mints, s.cached)
    && (forall p :: 0 <= p < |s.procs| && s.procs[p].Stale? ==> s.procs[p].at <= s.now && !FreshAt(s.cache, s.procs[p].at))
  }

  /** Every mint was needed: nothing the cache held was fresh when its process looked. */
  ghost predicate Needed(initial: Option<Entry>, s: State) {
    forall k :: 0 <= k < |s.mints| ==> !FreshAt(LastCached(initial, s.mints[..k], s.cached), s.mints[k].checkedAt)
  }

  predicate IsMinted(s: State, e: Entry) {
    exists k :: 0 <= k < |s.mints| && s.mints[k].entry == e
  }

  /** A credential that may be handed out: minted here, or cached before and fresh at the start. */
  predicate Servable(initial: Option<Entry>, start: int, s: State, e: Entry) {
    (initial == Some(e) && FreshAt(initial, start)) || IsMinted(s, e)
  }

  ghost predicate Genuine(initial: Option<Entry>, start: int, s: State) {
    && |s.printed| == |s.procs| && start <= s.now
    && (forall p :: 0 <= p < |s.procs| && s.procs[p].Fetched? ==> IsMinted(s, s.procs[p].entry))
    && (forall p :: 0 <= p < |s.procs| && s.procs[p].Serving? ==> Servable(initial, start, s, s.procs[p].entry))
    && (forall p :: 0 <= p < |s.procs| && s.printed[p].Some? ==> Servable(initial, start, s, s.printed[p].value))
    && (forall p :: 0 <= p < |s.procs| && (s.procs[p].Done? || (s.procs[p].Leaving? && s.procs[p].ok)) ==> s.printed[p].Some?)
    && (s.cache == initial || (s.cache.Some? && IsMinted(s, s.cache.value)))
  }

  ghost predicate Inv(initial: Option<Entry>, start: int, s: State) {
    Exclusive(s) && Numbered(s) && Faithful(initial, s) && Needed(initial, s) && Genuine(initial, start, s)
  }

  lemma StepExclusive(s: State, step: Step)
    requires Exclusive(s)
    ensures Exclusive(Next(s, step))
  {
    hide FreshAt;
  }

  lemma StepNumbered(s: State, step: Step)
    requires Exclusive(s) && Numbered(s)
    requires forall p :: 0 <= p < |s.procs| && s.procs[p].Stale? ==> s.procs[p].at <= s.now
    ensures Numbered(Next(s, step))
  {
    hide FreshAt;
  }

  /** Caching a later mint does not change what the cache held before it. */
  lemma {:induction false} LaterCached(initial: Option<Entry>, mints: seq<Mint>, cached: set<nat>, x: nat)
    requires forall k :: 0 <= k < |mints| ==> mints[k].entry.serial != x
    ensures LastCached(initial, mints, cached + {x}) == LastCached(initial, mints, cached)
  {
    if mints != [] { LaterCached(initial, mints[..|mints| - 1], cached, x); }
  }

  lemma CacheStep(initial: Option<Entry>, s: State, step: Step)
    requires Exclusive(s) && Numbered(s) && Faithful(initial, s)
    ensures Next(s, step).cache == LastCached(initial, Next(s, step).mints, Next(s, step).cached)
  {
    hide FreshAt;
    var t := Next(s, step);
    if t.mints != s.mints {
      assert t.mints[..|t.mints| - 1] == s.mints;
    }
  }

  lemma StepFaithful(initial: Option<Entry>, s: State, step: Step)
    requires Exclusive(s) && Numbered(s) && Faithful(initial, s)
    ensures Faithful(initial, Next(s, step))
  {
    hide FreshAt, LastCached, Numbered;
    CacheStep(initial, s, step);
  }

  lemma MintsGrow(s: State, step: Step)
    requires |s.printed| == |s.procs|
    ensures var t := Next(s, step);
      || (t.mints == s.mints && t.cached == s.cached)
      || (t.mints == s.mints && step.Put? && step.p < |s.procs| && s.procs[step.p].Fetched?
          && t.cached == s.cached + {s.procs[step.p].entry.serial})
      || (t.cached == s.cached && step.Fetch? && step.p < |s.procs| && s.procs[step.p].Stale?
          && |t.mints| == |s.mints| + 1 && t.mints[..|s.mints|] == s.mints
          && t.mints[|s.mints|].checkedAt == s.procs[step.p].at)
  {
    hide FreshAt;
  }

  lemma StepNeeded(initial: Option<Entry>, s: State, step: Step)
    requires Exclusive(s) && Numbered(s) && Faithful(initial, s) && Needed(initial, s)
    ensures Needed(initial, Next(s, step))
  {
    hide FreshAt, LastCached, Next, Exclusive;
    SameLengths(s);
    MintsGrow(s, step);
    var t := Next(s, step);
    forall k | 0 <= k < |t.mints| ensures !FreshAt(LastCached(initial, t.mints[..k], t.cached), t.mints[k].checkedAt) {
      if t.cached != s.cached {
        LaterCached(initial, s.mints[..k], s.cached, s.procs[step.p].entry.serial);
      } else if k == |s.mints| {
        assert t.mints[..k] == s.mints;
      } else {
        assert t.mints[..k] == s.mints[..k];
        assert t.mints[k] == t.mints[..|s.mints|][k];
      }
    }
  }

  lemma SameLengths(s: State)
    requires Exclusive(s)
    ensures |s.printed| == |s.procs|
  {
  }

  lemma MintedStays(s: State, step: Step)
    requires |s.printed| == |s.procs|
    ensures forall e :: IsMinted(s, e) ==> IsMinted(Next(s, step), e)
  {
    hide FreshAt, Next;
    MintsGrow(s, step);
    var t := Next(s, step);
    forall e | IsMinted(s, e) ensures IsMinted(t, e) {
      var k :| 0 <= k < |s.mints| && s.mints[k].entry == e;
      if t.mints != s.mints { assert t.mints[..|s.mints|][k] == t.mints[k]; }
    }
  }

  /** A credential in hand is a mint, or was fresh in the cache. */
  lemma FromSomewhere(initial: Option<Entry>, start: int, s: State, step: Step, p: nat)
    requires Genuine(initial, start, s) && p < |s.procs|
    ensures var t := Next(s, step);
      && (t.procs[p].Fetched? ==> IsMinted(t, t.procs[p].entry))
      && (t.procs[p].Serving? ==> Servable(initial, start, t, t.procs[p].entry))
  {
    MintedStays(s, step);
    var t := Next(s, step);
    if t.procs[p] != s.procs[p] && t.procs[p].Fetched? {
      assert t.mints[|t.mints| - 1].entry == t.procs[p].entry;
    }
  }

  lemma CacheIsKnown(initial: Option<Entry>, start: int, s: State, step: Step)
    requires Genuine(initial, start, s)
    ensures var t := Next(s, step); t.cache == initial || (t.cache.Some? && IsMinted(t, t.cache.value))
  {
    hide FreshAt, IsMinted;
    MintedStays(s, step);
  }

  lemma StepGenuine(initial: Option<Entry>, start: int, s: State, step: Step)
    requires Genuine(initial, start, s)
    ensures Genuine(initial, start, Next(s, step))
  {
    hide FreshAt, IsMinted;
    var t := Next(s, step);
    MintedStays(s, step);
    forall p | 0 <= p < |t.procs|
      ensures t.procs[p].Fetched? ==> IsMinted(t, t.procs[p].entry)
      ensures t.procs[p].Serving? ==> Servable(initial, start, t, t.procs[p].entry)
    {
      FromSomewhere(initial, start, s, step, p);
    }
    CacheIsKnown(initial, start, s, step);
  }

  lemma StepKeepsInv(initial: Option<Entry>, start: int, s: State, step: Step)
    requires Inv(initial, start, s)
    ensures Inv(initial, start, Next(s, step))
  {
    hide Next, Numbered, Needed, Genuine, Exclusive;
    SameLengths(s);
    StepExclusive(s, step);
    StepNumbered(s, step);
    StepFaithful(initial, s, step);
    StepNeeded(initial, s, step);
    StepGenuine(initial, start, s, step);
  }

  function Run(s: State, steps: seq<Step>): (t: State)
    requires |s.printed| == |s.procs|
    ensures |t.printed| == |t.procs| == |s.procs|
  {
    if steps == [] then s else Next(Run(s, steps[..|steps| - 1]), steps[|steps| - 1])
  }

  // ----- the steps of one process are its turn -----

  lemma RunSnoc(s: State, steps: seq<Step>, step: Step)
    requires |s.printed| == |s.procs|
    ensures Run(s, steps + [step]) == Next(Run(s, steps), step)
  {
    assert (steps + [step])[..|steps|] == steps;
  }

  /** The steps of a process that is not interrupted: the call that mints succeeds or not, and so does the
      one that caches. */
  function TurnSteps(s: State, p: nat, expiresAt: int, mintOk: bool, putOk: bool): seq<Step> {
    [Acquire(p, true), Check(p, true)]
    + (if FreshAt(s.cache, s.now) then [] else if mintOk then [Fetch(p, expiresAt, true), Put(p, putOk)] else [Fetch(p, expiresAt, false)])
    + (if FreshAt(s.cache, s.now) || mintOk then [Print(p)] else [])
    + [Release(p)]
  }

  /** They make of the cache what `runClusterToken` makes of it, print what it prints, and mint as often. */
  lemma StepsAreTurn(s: State, p: nat, expiresAt: int, mintOk: bool, putOk: bool)
    requires |s.printed| == |s.procs| && p < |s.procs| && s.procs[p].Waiting? && s.lock == None
    ensures var minted := if mintOk then Some(Entry(|s.mints|, expiresAt)) else None;
      var turn := TurnOn(s.cache, s.now, minted, putOk);
      var t := Run(s, TurnSteps(s, p, expiresAt, mintOk, putOk));
      && t.cache == turn.cache && t.lock == None
      && t.procs == s.procs[p := if turn.out.Some? then Done else Failed]
      && t.printed == (if turn.out.Some? then s.printed[p := turn.out] else s.printed)
      && |t.mints| == |s.mints| + if turn.mints == 1 && mintOk then 1 else 0
  {
    hide Run, Next, FreshAt;
    var ab := [Acquire(p, true), Check(p, true)];
    Looks(s, p);
    var t := Run(s, ab);
    if FreshAt(s.cache, s.now) {
      FreshIsThere(s.cache, s.now);
      assert TurnSteps(s, p, expiresAt, mintOk, putOk) == ab + [Print(p)] + [Release(p)];
      RunSnoc(s, ab, Print(p));
      RunSnoc(s, ab + [Print(p)], Release(p));
      Serves(t, p);
    } else if mintOk {
      var c, d := Fetch(p, expiresAt, true), Put(p, putOk);
      assert TurnSteps(s, p, expiresAt, mintOk, putOk) == ab + [c] + [d] + [Print(p)] + [Release(p)];
      RunSnoc(s, ab, c);
      RunSnoc(s, ab + [c], d);
      RunSnoc(s, ab + [c] + [d], Print(p));
      RunSnoc(s, ab + [c] + [d] + [Print(p)], Release(p));
      Mints(t, p, expiresAt, putOk);
      Serves(Next(Next(t, c), d), p);
    } else {
      var c := Fetch(p, expiresAt, false);
      assert TurnSteps(s, p, expiresAt, mintOk, putOk) == ab + [c] + [Release(p)];
      RunSnoc(s, ab, c);
      RunSnoc(s, ab + [c], Release(p));
      GivesUp(t, p, expiresAt);
    }
  }

  lemma FreshIsThere(e: Option<Entry>, now: int)
    requires FreshAt(e, now)
    ensures e.Some?
  {
  }

  lemma Looks(s: State, p: nat)
    requires |s.printed| == |s.procs| && p < |s.procs| && s.procs[p].Waiting? && s.lock == None
    ensures Run(s, [Acquire(p, true), Check(p, true)]) ==
      s.(lock := Some(p), procs := s.procs[p := if FreshAt(s.cache, s.now) then Serving(s.cache.value) else Stale(s.now)])
  {
    hide Run, FreshAt;
    RunTwo(s, Acquire(p, true), Check(p, true));
    assert s.procs[p := Locked][p := Serving(Entry(0, 0))] == s.procs[p := Serving(Entry(0, 0))];
  }

  lemma Serves(s: State, p: nat)
    requires |s.printed| == |s.procs| && p < |s.procs| && s.procs[p].Serving?
    ensures Next(Next(s, Print(p)), Release(p)) ==
      s.(lock := None, procs := s.procs[p := Done], printed := s.printed[p := Some(s.procs[p].entry)])
  {
  }

  lemma Mints(s: State, p: nat, expiresAt: int, putOk: bool)
    requires |s.printed| == |s.procs| && p < |s.procs| && s.procs[p].Stale?
    ensures var e := Entry(|s.mints|, expiresAt);
      var t := Next(Next(s, Fetch(p, expiresAt, true)), Put(p, putOk));
      && t.cache == (if putOk then Some(e) else s.cache) && t.procs == s.procs[p := Serving(e)]
      && t.lock == s.lock && t.printed == s.printed && |t.mints| == |s.mints| + 1
  {
  }

  lemma GivesUp(s: State, p: nat, expiresAt: int)
    requires |s.printed| == |s.procs| && p < |s.procs| && s.procs[p].Stale?
    ensures Next(Next(s, Fetch(p, expiresAt, false)), Release(p)) == s.(lock := None, procs := s.procs[p := Failed])
  {
  }

  lemma RunTwo(s: State, a: Step, b: Step)
    requires |s.printed| == |s.procs|
    ensures Run(s, [a, b]) == Next(Next(s, a), b)
  {
    RunSnoc(s, [], a);
    RunSnoc(s, [a], b);
    assert [] + [a] == [a] && [a] + [b] == [a, b];
  }

  /** While one process is between lock and unlock, no step of another touches the cache, the lock or it:
      interrupting a turn changes nothing it sees but the time. */
  lemma TurnIsAlone(s: State, p: nat, step: Step)
    requires Exclusive(s) && p < |s.procs| && InCritical(s.procs[p]) && (step.Tick? || step.p != p)
    ensures var t := Next(s, step); t.cache == s.cache && t.lock == s.lock && t.procs[p] == s.procs[p] && t.printed[p] == s.printed[p]
  {
    hide FreshAt;
  }

  // ----- every interleaving -----

  /** In every interleaving, whatever fails or dies: one process at a time is between lock and unlock, every
      mint was needed, and everything printed was minted or was in the cache to begin with. */
  lemma {:induction false} EveryMintIsNeeded(now: int, cache: Option<Entry>, n: nat, steps: seq<Step>)
    ensures Inv(cache, now, Run(Start(now, cache, n), steps))
  {
    hide Next;
    if steps == [] {
      Begins(now, cache, n);
    } else {
      EveryMintIsNeeded(now, cache, n, steps[..|steps| - 1]);
      StepKeepsInv(cache, now, Run(Start(now, cache, n), steps[..|steps| - 1]), steps[|steps| - 1]);
    }
  }

  lemma Begins(now: int, cache: Option<Entry>, n: nat)
    ensures Inv(cache, now, Start(now, cache, n))
  {
  }

  // ----- one mint -----

  /** A credential that could be served now. */
  predicate StillFresh(s: State) {
    forall k :: 0 <= k < |s.mints| ==> FreshAt(Some(s.mints[k].entry), s.now)
  }

  /** Every mint is in the cache, or on its way there. */
  ghost predicate NoneDropped(s: State) {
    forall k :: 0 <= k < |s.mints| ==>
      k in s.cached || exists p :: 0 <= p < |s.procs| && s.procs[p].Fetched? && s.procs[p].entry == s.mints[k].entry
  }

  /** A step that neither fails to cache a credential nor dies with one that is not cached. */
  predicate DropsNothing(s: State, step: Step) {
    && (step.Put? ==> step.ok)
    && (step.Die? && step.p < |s.procs| ==> !s.procs[step.p].Fetched?)
  }

  predicate RunDropsNothing(s: State, steps: seq<Step>)
    requires |s.printed| == |s.procs|
  {
    steps != [] ==> RunDropsNothing(s, steps[..|steps| - 1]) && DropsNothing(Run(s, steps[..|steps| - 1]), steps[|steps| - 1])
  }

  lemma StepDropsNothing(s: State, step: Step)
    requires Exclusive(s) && Numbered(s) && NoneDropped(s) && DropsNothing(s, step)
    ensures NoneDropped(Next(s, step))
  {
    hide FreshAt;
    SameLengths(s);
    MintsGrow(s, step);
    var t := Next(s, step);
    forall k | 0 <= k < |t.mints|
      ensures k in t.cached || exists p :: 0 <= p < |t.procs| && t.procs[p].Fetched? && t.procs[p].entry == t.mints[k].entry
    {
      if k < |s.mints| {
        assert t.mints[k] == t.mints[..|s.mints|][k];
        if k !in t.cached {
          var p :| 0 <= p < |s.procs| && s.procs[p].Fetched? && s.procs[p].entry == s.mints[k].entry;
          assert t.procs[p] == s.procs[p];
        }
      } else {
        assert t.procs[step.p].Fetched?;
      }
    }
  }

  lemma {:induction false} RunKeepsAll(now: int, cache: Option<Entry>, n: nat, steps: seq<Step>)
    requires RunDropsNothing(Start(now, cache, n), steps)
    ensures NoneDropped(Run(Start(now, cache, n), steps))
  {
    hide Next, DropsNothing, Numbered, NoneDropped;
    if steps == [] {
      StartDropsNothing(now, cache, n);
    } else {
      var before := Run(Start(now, cache, n), steps[..|steps| - 1]);
      RunKeepsAll(now, cache, n, steps[..|steps| - 1]);
      EveryMintIsNeeded(now, cache, n, steps[..|steps| - 1]);
      StepDropsNothing(before, steps[|steps| - 1]);
    }
  }

  lemma StartDropsNothing(now: int, cache: Option<Entry>, n: nat)
    ensures NoneDropped(Start(now, cache, n))
  {
  }

  lemma FirstIsCached(s: State)
    requires Numbered(s) && NoneDropped(s) && |s.mints| >= 2
    ensures 0 in s.cached
  {
    forall p | 0 <= p < |s.procs| && s.procs[p].Fetched? ensures s.procs[p].entry.serial == |s.mints| - 1 {}
    assert s.mints[0].entry.serial == 0;
  }

  /** A second mint means the first credential has run out. */
  lemma SecondMeansStale(initial: Option<Entry>, start: int, s: State)
    requires Inv(initial, start, s) && NoneDropped(s) && |s.mints| >= 2
    ensures !FreshAt(Some(s.mints[0].entry), s.now)
  {
    hide Genuine, Faithful, Exclusive;
    FirstIsCached(s);
    assert LastCached(initial, s.mints[..1], s.cached) == Some(s.mints[0].entry);
    assert !FreshAt(LastCached(initial, s.mints[..1], s.cached), s.mints[1].checkedAt);
  }

  /** Single mint. On a cold cache, with every credential cached once minted and still fresh, any number of
      processes in any interleaving make at most one mint; every credential printed is that one; and once
      one process is done there has been exactly one. */
  lemma SingleMint(now: int, cache: Option<Entry>, n: nat, steps: seq<Step>)
    requires !FreshAt(cache, now) && RunDropsNothing(Start(now, cache, n), steps)
    requires StillFresh(Run(Start(now, cache, n), steps))
    ensures var s := Run(Start(now, cache, n), steps);
      && |s.mints| <= 1
      && (forall p :: 0 <= p < |s.procs| && s.printed[p].Some? ==> |s.mints| == 1 && s.printed[p].value == s.mints[0].entry)
      && (forall p :: 0 <= p < |s.procs| && s.procs[p].Done? ==> s.printed[p].Some?)
  {
    hide Run, RunDropsNothing, NoneDropped, FreshAt, Exclusive, Numbered, Faithful, Needed;
    var s := Run(Start(now, cache, n), steps);
    EveryMintIsNeeded(now, cache, n, steps);
    RunKeepsAll(now, cache, n, steps);
    if |s.mints| >= 2 { SecondMeansStale(cache, now, s); }
  }
}
