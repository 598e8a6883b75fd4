/** Attempt ownership over every run of the scheduler. */
module ReconnectTheorems {
  import opened Common
  import opened Backoff
  import opened ReconnectModel

  // ---- Attempts and their owners -------------------------------------------------

  /** An attempt in the slot was scheduled for the registered profile, and an attempt of
      the registered profile that is alive sits in the slot. */
  ghost predicate Owned(e: Engine) {
    && (e.slot.Some? ==> e.slot.value.id < e.nextProfile)
    && (forall a :: a in e.attempts ==> a < |e.owners|)
    && (forall a :: 0 <= a < |e.owners| ==> e.owners[a] < e.nextProfile)
    && (e.inflight.Some? ==> IsMine(e, e.inflight.value))
    && (forall a :: a in e.attempts && IsMine(e, a) ==> e.inflight == Some(a))
  }

  lemma EditKeepsOwned(e: Engine, profile: Profile)
    requires Owned(e) && e.slot.Some?
    ensures Owned(WithProfile(e, profile))
  {
  }

  lemma EndKeepsOwned(e: Engine, attempt: nat)
    requires Owned(e)
    ensures Owned(e.(attempts := e.attempts - {attempt}))
  {
  }

  lemma RegisterKeepsOwned(e: Engine, enabled: bool)
    requires Owned(e)
    ensures Owned(RegisterSpeaker(e, enabled))
  {
  }

  lemma TickKeepsOwned(e: Engine, now: real, delay: real)
    requires Owned(e)
    ensures Owned(OnTick(e, now, delay))
  {
    if e.slot.Some? {
      EditKeepsOwned(e, TickProfile(e.slot.value.profile, now, delay));
    }
  }

  lemma BeginKeepsOwned(e: Engine, attempt: nat, now: real)
    requires Owned(e) && attempt in e.attempts
    ensures Owned(OnBegin(e, attempt, now))
  {
    EndKeepsOwned(e, attempt);
  }

  lemma OwnedStep(c: Config, e: Engine, t: Timed)
    requires Owned(e) && Enabled(c, e, t.event)
    ensures Owned(Step(c, e, t))
  {
    match t.event
    case Register(enabled) => RegisterKeepsOwned(e, enabled);
    case Report(_, _) => RegisterKeepsOwned(e, true);
    case Tick(delay) => TickKeepsOwned(e, t.now, delay);
    case Begin(a) => BeginKeepsOwned(e, a, t.now);
    case End(a, _, _) => EndKeepsOwned(e, a);
    case Abandon(a) => EndKeepsOwned(e, a);
    case _ =>
  }

  /** Identities are never reused and the record of owners only grows. */
  lemma IdentitiesGrow(c: Config, e: Engine, t: Timed)
    requires Enabled(c, e, t.event)
    ensures var r := Step(c, e, t);
            && r.nextProfile >= e.nextProfile
            && |r.owners| >= |e.owners| && r.owners[..|e.owners|] == e.owners
            && (r.slot.Some? ==> r.slot.value.id == e.nextProfile
                                 || (e.slot.Some? && r.slot.value.id == e.slot.value.id))
  {
  }

  lemma {:induction false} OwnedInRuns(c: Config, states: seq<Engine>, events: seq<Timed>, k: nat)
    requires IsRun(c, states, events) && k <= |events|
    ensures Owned(states[k])
  {
    if k > 0 {
      OwnedInRuns(c, states, events, k - 1);
      OwnedStep(c, states[k - 1], events[k - 1]);
    }
  }

  /** At most one attempt of the registered profile is ever alive. */
  lemma OneAttemptAtATime(c: Config, states: seq<Engine>, events: seq<Timed>, k: nat, a: nat, b: nat)
    requires IsRun(c, states, events) && k <= |events|
    requires a in states[k].attempts && b in states[k].attempts && IsMine(states[k], a) && IsMine(states[k], b)
    ensures a == b
  {
    OwnedInRuns(c, states, events, k);
  }

  /** Every attempt that is alive was scheduled for the registered profile. */
  ghost predicate NoneStale(e: Engine) {
    forall a :: a in e.attempts ==> IsMine(e, a)
  }

  predicate Unregisters(event: Event) {
    event.Unregister? || (event.SetGate? && !event.on)
  }

  lemma NoneStaleStep(c: Config, e: Engine, t: Timed)
    requires Owned(e) && NoneStale(e) && Enabled(c, e, t.event) && !Unregisters(t.event)
    ensures NoneStale(Step(c, e, t))
  {
  }

  lemma {:induction false} NoneStaleInRuns(c: Config, states: seq<Engine>, events: seq<Timed>, k: nat)
    requires IsRun(c, states, events) && k <= |events|
    requires forall i :: 0 <= i < k ==> !Unregisters(events[i].event)
    ensures NoneStale(states[k])
  {
    if k > 0 {
      NoneStaleInRuns(c, states, events, k - 1);
      OwnedInRuns(c, states, events, k - 1);
      NoneStaleStep(c, states[k - 1], events[k - 1]);
    }
  }

  /** While the address was never unregistered, at most one attempt of any kind is alive. */
  lemma OneAttemptAtAll(c: Config, states: seq<Engine>, events: seq<Timed>, k: nat, a: nat, b: nat)
    requires IsRun(c, states, events) && k <= |events|
    requires forall i :: 0 <= i < k ==> !Unregisters(events[i].event)
    requires a in states[k].attempts && b in states[k].attempts
    ensures a == b
  {
    NoneStaleInRuns(c, states, events, k);
    OneAttemptAtATime(c, states, events, k, a, b);
  }

  predicate Concerns(event: Event, attempt: nat) {
    match event
    case Begin(a) => a == attempt
    case End(a, _, _) => a == attempt
    case Abandon(a) => a == attempt
    case Release(a) => a == attempt
    case _ => false
  }

  /** Whatever becomes of an attempt that an earlier profile of this address scheduled, the
      registered profile and its attempt slot stay as they are. */
  lemma StaleAttemptIsIsolated(c: Config, e: Engine, t: Timed, stale: nat)
    requires Owned(e) && Enabled(c, e, t.event) && Concerns(t.event, stale)
    requires stale < |e.owners| && !IsMine(e, stale)
    ensures var r := Step(c, e, t);
            r.slot == e.slot && r.inflight == e.inflight && r.attempts == e.attempts - {stale}
  {
  }

  /** r comes after e, at which the address was not registered. */
  ghost predicate Since(e: Engine, r: Engine) {
    && |r.owners| >= |e.owners| && r.owners[..|e.owners|] == e.owners
    && r.nextProfile >= e.nextProfile
    && (r.slot.Some? ==> r.slot.value.id >= e.nextProfile)
  }

  lemma SinceStep(c: Config, e: Engine, r: Engine, t: Timed)
    requires Since(e, r) && Enabled(c, r, t.event)
    ensures Since(e, Step(c, r, t))
  {
    IdentitiesGrow(c, r, t);
    var n := Step(c, r, t);
    assert n.owners[..|e.owners|] == n.owners[..|r.owners|][..|e.owners|];
  }

  lemma {:induction false} SinceInRuns(c: Config, states: seq<Engine>, events: seq<Timed>, m: nat, k: nat)
    requires IsRun(c, states, events) && m <= k <= |events| && states[m].slot.None?
    ensures Since(states[m], states[k])
    decreases k
  {
    if k > m {
      SinceInRuns(c, states, events, m, k - 1);
      SinceStep(c, states[m], states[k - 1], events[k - 1]);
    }
  }

  /** Once an address is unregistered, every attempt it had is stale for good: no later
      profile has the identity of the old one. */
  lemma UnregisteredStaysStale(c: Config, states: seq<Engine>, events: seq<Timed>, m: nat, k: nat, attempt: nat)
    requires IsRun(c, states, events) && m <= k <= |events|
    requires states[m].slot.None? && attempt < |states[m].owners|
    ensures attempt < |states[k].owners| && !IsMine(states[k], attempt)
  {
    OwnedInRuns(c, states, events, m);
    SinceInRuns(c, states, events, m, k);
    assert states[k].owners[..|states[m].owners|][attempt] == states[m].owners[attempt];
  }
}
