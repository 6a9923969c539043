/** Minting a kubeconfig credential: the backoff poll and the checks on what comes back
    (apps/cli/cmd/clusters_kubeconfig_mint.go:59-155). Times are milliseconds since the request was
    queued. Sealing is ideal: only the key of the request, with the ids it was sealed for, opens it. */
module MintPoll {
  import opened Options

  const POLL_FIRST := 500
  const POLL_MAX := 5000
  const CEILING := 660000

  datatype Spec = Spec(cluster: string, tier: string, shape: string)

  /** The mint the control plane says it queued. */
  datatype Mint = Mint(id: string, cluster: string, tier: string, shape: string)

  datatype Plain = NotACredential | Malformed | Credential(tier: string, shape: string, token: string, expiresAt: int)

  datatype Sealed = Sealed(key: nat, mintId: string, cluster: string, plain: Plain)

  /** `Other` is a status this client does not know; `Unreachable` a poll that failed. */
  datatype Answer = Pending | Ready(sealed: Sealed) | Failed | Expired | Other | Unreachable

  /** What the control plane answers poll by poll, how much longer than the sleep each turn takes, and
      what the local clock reads when the queue request has been answered. */
  datatype World = World(answer: nat -> Answer, extra: nat -> nat, start: int)

  datatype Outcome =
    | Minted(credential: Plain)
    | QueuedSomethingElse | PollFailed | TimedOut | RunnerFailed | RequestExpired
    | DidNotOpen | NotUnderstood | BadCredential | WrongCredential | AlreadyExpired

  // ----- the poll -----

  /** Before a poll: the delay it sleeps first, and the time. */
  datatype Wait = Wait(delay: nat, time: nat)

  function Min(a: nat, b: nat): nat {
    if a < b then a else b
  }

  function Polled(w: World, i: nat): Wait
    decreases i, 0
  {
    if i == 0 then Wait(POLL_FIRST, 0)
    else
      var before := Polled(w, i - 1);
      Wait(if w.answer(i - 1) == Pending then Min(2 * before.delay, POLL_MAX) else before.delay, AfterPoll(w, i - 1))
  }

  /** The time when poll `i` has been answered. */
  function AfterPoll(w: World, i: nat): nat
    decreases i, 1
  {
    var before := Polled(w, i);
    before.time + before.delay + w.extra(i)
  }

  /** The loop ends with this poll. */
  predicate Stops(w: World, i: nat) {
    match w.answer(i)
    case Pending => AfterPoll(w, i) >= CEILING
    case Other => false
    case _ => true
  }

  predicate StopsFirst(w: World, i: nat) {
    Stops(w, i) && forall j: nat :: j < i ==> !Stops(w, j)
  }

  // ----- opening -----

  function Open(key: nat, s: Sealed, mintId: string, cluster: string): Option<Plain> {
    if s.key == key && s.mintId == mintId && s.cluster == cluster then Some(s.plain) else None
  }

  /** The credential is the one that was asked for, sealed for this very request, and still valid. */
  predicate Bound(key: nat, spec: Spec, mint: Mint, s: Sealed, now: int) {
    && s.key == key && s.mintId == mint.id && s.cluster == spec.cluster
    && s.plain.Credential? && s.plain.tier == spec.tier && s.plain.shape == spec.shape
    && s.plain.expiresAt > now
  }

  /** `openKubeMint`. */
  method OpenKubeMint(key: nat, mint: Mint, spec: Spec, s: Sealed, now: int) returns (o: Outcome)
    ensures o.Minted? <==> Bound(key, spec, mint, s, now)
    ensures o.Minted? ==> o.credential == s.plain
    ensures !o.Minted? ==> o in {DidNotOpen, NotUnderstood, BadCredential, WrongCredential, AlreadyExpired}
    ensures o == AlreadyExpired ==> s.plain.Credential? && s.plain.expiresAt <= now
  {
    var plain := Open(key, s, mint.id, spec.cluster);
    if plain == None {
      return DidNotOpen;
    }
    match plain.value {
      case NotACredential => return NotUnderstood;
      case Malformed => return BadCredential;
      case Credential(tier, shape, token, expiresAt) =>
        if tier != spec.tier || shape != spec.shape {
          return WrongCredential;
        }
        if !(expiresAt > now) {
          return AlreadyExpired;
        }
        return Minted(plain.value);
    }
  }

  predicate AsAsked(mint: Mint, spec: Spec) {
    mint.id != "" && mint.cluster == spec.cluster && mint.tier == spec.tier && mint.shape == spec.shape
  }

  /** The poll hands over a credential that checks out at the time it arrives. */
  predicate ReadyAndBound(w: World, key: nat, spec: Spec, mint: Mint, i: nat) {
    w.answer(i).Ready? && Bound(key, spec, mint, w.answer(i).sealed, w.start + AfterPoll(w, i))
  }

  /** `mintKubeCredential`, from the queued mint on. `last` is a poll that ends the loop, without which
      there is no end to it; `polls` counts the ones made. */
  method MintKubeCredential(w: World, key: nat, spec: Spec, mint: Mint, ghost last: nat) returns (o: Outcome, polls: nat)
    requires AsAsked(mint, spec) ==> Stops(w, last)
    ensures !AsAsked(mint, spec) ==> o == QueuedSomethingElse && polls == 0
    ensures AsAsked(mint, spec) ==> 0 < polls <= last + 1 && StopsFirst(w, polls - 1)
    ensures o.Minted? <==> polls > 0 && AsAsked(mint, spec) && ReadyAndBound(w, key, spec, mint, polls - 1)
    ensures o.Minted? ==> o.credential == w.answer(polls - 1).sealed.plain
    ensures o == TimedOut ==> AsAsked(mint, spec) && w.answer(polls - 1) == Pending && AfterPoll(w, polls - 1) >= CEILING
  {
    polls := 0;
    if !AsAsked(mint, spec) {
      return QueuedSomethingElse, 0;
    }
    var now: nat, delay: nat := 0, POLL_FIRST;
    while true
      invariant polls <= last && Wait(delay, now) == Polled(w, polls)
      invariant forall j: nat :: j < polls ==> !Stops(w, j)
      decreases last - polls
    {
      now := now + delay + w.extra(polls);
      var answer := w.answer(polls);
      polls := polls + 1;
      match answer {
        case Unreachable => return PollFailed, polls;
        case Pending =>
          if !(now < CEILING) {
            return TimedOut, polls;
          }
          delay := Min(delay * 2, POLL_MAX);
        case Ready(sealed) =>
          o := OpenKubeMint(key, mint, spec, sealed, w.start + now);
          return o, polls;
        case Failed => return RunnerFailed, polls;
        case Expired => return RequestExpired, polls;
        case Other =>
      }
    }
  }

  // ----- how long -----

  /** The 135th poll is answered no sooner than 662.5 seconds in. */
  const LAST := 134

  /** Waiting all along, the time after poll `i` is at least the sum of the delays. */
  function Least(i: nat): nat {
    if i == 0 then 500 else if i == 1 then 1500 else if i == 2 then 3500 else 7500 + 5000 * (i - 3)
  }

  function Delay(i: nat): nat {
    if i == 0 then 500 else if i == 1 then 1000 else if i == 2 then 2000 else if i == 3 then 4000 else 5000
  }

  lemma {:induction false} TimePasses(w: World, i: nat)
    requires forall j: nat :: j < i ==> w.answer(j) == Pending
    ensures Polled(w, i).delay == Delay(i) && AfterPoll(w, i) >= Least(i)
    ensures (forall j: nat :: j <= i ==> w.extra(j) == 0) ==> AfterPoll(w, i) == Least(i)
  {
    if i > 0 { TimePasses(w, i - 1); }
  }

  /** The statuses this client knows. */
  ghost predicate Knows(w: World) {
    forall i: nat :: w.answer(i) != Other
  }

  lemma {:induction false} PendingUntil(w: World, n: nat)
    requires Knows(w) && forall j: nat :: j < n ==> !Stops(w, j)
    ensures forall j: nat :: j < n ==> w.answer(j) == Pending
  {
    forall j: nat | j < n ensures w.answer(j) == Pending { assert !Stops(w, j); }
  }

  /** Whatever the known answers and however slow the turns, the poll ends within 135 polls ... */
  lemma PollEnds(w: World)
    requires Knows(w)
    ensures exists i: nat :: i <= LAST && Stops(w, i)
  {
    if forall j: nat :: j < LAST ==> !Stops(w, j) {
      PendingUntil(w, LAST);
      TimePasses(w, LAST);
      assert Stops(w, LAST);
    }
  }

  /** ... and a server that only ever says `pending`, answered at once, is polled 135 times. */
  lemma BoundIsTight(w: World)
    requires forall i: nat :: w.answer(i) == Pending && w.extra(i) == 0
    ensures StopsFirst(w, LAST)
  {
    hide Polled, AfterPoll;
    TimePasses(w, LAST);
    forall j: nat | j < LAST ensures !Stops(w, j) { TimePasses(w, j); }
  }

  lemma {:induction false} EveryTurnTakesTime(w: World, i: nat)
    ensures Polled(w, i).delay >= POLL_FIRST && AfterPoll(w, i) >= POLL_FIRST * (i + 1)
  {
    if i > 0 { EveryTurnTakesTime(w, i - 1); }
  }

  /** The poll by which the ceiling has passed whatever the answers were. */
  const LATE := 1319

  /** A status this client does not know is waited out with no deadline: the poll goes on for ever exactly
      when nothing ends it before the ceiling and every answer from then on is such a status. */
  lemma NeverEndsIff(w: World)
    ensures (forall i: nat :: !Stops(w, i)) <==>
      (forall i: nat :: i < LATE ==> !Stops(w, i)) && (forall i: nat :: i >= LATE ==> w.answer(i) == Other)
  {
    forall i: nat | i >= LATE ensures Stops(w, i) <==> w.answer(i) != Other {
      EveryTurnTakesTime(w, i);
    }
    forall i: nat | forall j: nat :: !Stops(w, j) ensures i >= LATE ==> w.answer(i) == Other {
      assert !Stops(w, i);
    }
    forall i: nat ensures Stops(w, i) ==> i < LATE || w.answer(i) != Other {}
  }

  lemma {:induction false} UnknownNeverEnds(w: World, i: nat)
    requires forall j: nat :: w.answer(j) == Other
    ensures !Stops(w, i) && Polled(w, i).delay == POLL_FIRST && AfterPoll(w, i) >= POLL_FIRST * (i + 1)
  {
    if i > 0 { UnknownNeverEnds(w, i - 1); }
  }
}
