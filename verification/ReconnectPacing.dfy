/** How often the scheduler can fail during an outage. */
module ReconnectPacing {
  import opened Common
  import opened Backoff
  import opened ReconnectModel
  import opened ReconnectTheorems

  /** While an attempt of the registered profile connects, no breaker hold lies ahead. */
  ghost predicate Calm(e: Engine, now: real) {
    forall a :: a in e.attempts && IsMine(e, a) && e.attempts[a].Connecting? ==> e.slot.value.profile.brokenUntil <= now
  }

  lemma CalmStep(c: Config, e: Engine, t: Timed)
    requires Owned(e) && Calm(e, t.now) && t.now >= 0.0 && Enabled(c, e, t.event)
    ensures Calm(Step(c, e, t), t.now)
  {
  }

  lemma {:induction false} RunsAreCalm(c: Config, states: seq<Engine>, events: seq<Timed>, k: nat)
    requires IsRun(c, states, events) && k < |events|
    ensures Owned(states[k]) && Calm(states[k], events[k].now)
  {
    OwnedInRuns(c, states, events, k);
    if k > 0 {
      RunsAreCalm(c, states, events, k - 1);
      CalmStep(c, states[k - 1], events[k - 1]);
      assert events[k - 1].now <= events[k].now;
    }
  }

  /** An event that leaves an outage an outage: no connect is reported or succeeds, and the
      profile is not replaced. */
  predicate InOutage(e: Engine, event: Event) {
    match event
    case Report(connected, _) => !connected
    case Unregister => false
    case SetGate(on) => on
    case End(a, outcome, _) => !(outcome.Success? && IsMine(e, a))
    case _ => true
  }

  predicate IsFailure(e: Engine, event: Event) {
    event.End? && event.outcome.Failure? && IsMine(e, event.attempt)
  }

  /** No deadline of q lies before the same deadline of p. */
  predicate NoEarlier(p: Profile, q: Profile) {
    q.nextRetry >= p.nextRetry && q.brokenUntil >= p.brokenUntil
  }

  lemma TickIsNoEarlier(p: Profile, now: real, delay: real)
    ensures NoEarlier(p, TickProfile(p, now, delay)) && TickProfile(p, now, delay).failures == p.failures
  {
  }

  lemma OutcomeIsNoEarlier(c: Config, p: Profile, now: real, delay: real)
    ensures NoEarlier(p, DeferBusy(p, now, delay)) && NoEarlier(p, CancelAttempt(p, now, delay))
    ensures NoEarlier(p, FailAttempt(c, p, now, delay)) && NoEarlier(p, ReportDropped(p, now))
    ensures p.failures + 1 >= c.maxFailures ==> FailAttempt(c, p, now, delay).brokenUntil >= now + c.breakerCooldown
  {
  }

  /** During an outage no event brings a deadline forward, and only a failure counts. A
      failure never comes before the breaker hold has ended, and from the limit on it
      starts a hold of its own. */
  lemma DeadlinesNeverMoveForward(c: Config, e: Engine, t: Timed)
    requires Calm(e, t.now) && Enabled(c, e, t.event) && InOutage(e, t.event) && e.slot.Some?
    ensures var r := Step(c, e, t);
            && r.slot.Some? && r.slot.value.id == e.slot.value.id
            && NoEarlier(e.slot.value.profile, r.slot.value.profile)
            && CountsFailure(c, e, t, r)
  {
    var p := e.slot.value.profile;
    match t.event
    case Tick(delay) => TickIsNoEarlier(p, t.now, delay);
    case End(_, _, delay) => OutcomeIsNoEarlier(c, p, t.now, delay);
    case _ => OutcomeIsNoEarlier(c, p, t.now, 0.0);
  }

  /** What a failure, and nothing else, does to the count and to the breaker. */
  ghost predicate CountsFailure(c: Config, e: Engine, t: Timed, r: Engine)
    requires e.slot.Some? && r.slot.Some?
  {
    var p, q := e.slot.value.profile, r.slot.value.profile;
    && q.failures == (if IsFailure(e, t.event) then p.failures + 1 else p.failures)
    && (IsFailure(e, t.event) ==> p.brokenUntil <= t.now)
    && (IsFailure(e, t.event) && q.failures >= c.maxFailures ==> q.brokenUntil >= t.now + c.breakerCooldown)
  }

  /** Events m up to n of a run, all in one outage of one profile. */
  ghost predicate OutageWindow(c: Config, states: seq<Engine>, events: seq<Timed>, m: nat, n: nat) {
    && IsRun(c, states, events)
    && m <= n <= |events|
    && states[m].slot.Some?
    && forall k :: m <= k < n ==> InOutage(states[k], events[k].event)
  }

  ghost function FailureOf(e: Engine, t: Timed): seq<real> {
    if IsFailure(e, t.event) then [t.now] else []
  }

  /** The times at which attempts of the registered profile failed, from event m up to n. */
  ghost function FailureTimes(states: seq<Engine>, events: seq<Timed>, m: nat, n: nat): seq<real>
    requires m <= n <= |events| && |states| == |events| + 1
    decreases n
  {
    if n == m then []
    else FailureTimes(states, events, m, n - 1) + FailureOf(states[n - 1], events[n - 1])
  }

  function Last(times: seq<real>): real
    requires times != []
  {
    times[|times| - 1]
  }

  /** Failures from the limit on lie a breaker cooldown apart. */
  ghost predicate Spaced(c: Config, times: seq<real>) {
    && (forall i, j :: 0 <= i <= j < |times| ==> times[i] <= times[j])
    && (forall i :: 0 < i < |times| && i >= c.maxFailures ==> times[i] >= times[i - 1] + c.breakerCooldown)
  }

  /** What the failures so far say about the profile. */
  ghost predicate Tracked(c: Config, times: seq<real>, e: Engine, now: real) {
    && e.slot.Some?
    && Spaced(c, times)
    && e.slot.value.profile.failures >= |times|
    && (times != [] ==> Last(times) <= now)
    && (times != [] && e.slot.value.profile.failures >= c.maxFailures ==>
          e.slot.value.profile.brokenUntil >= Last(times) + c.breakerCooldown)
  }

  lemma TrackedStep(c: Config, times: seq<real>, e: Engine, t: Timed, r: Engine)
    requires Tracked(c, times, e, t.now) && r.slot.Some?
    requires NoEarlier(e.slot.value.profile, r.slot.value.profile) && CountsFailure(c, e, t, r)
    ensures Tracked(c, times + FailureOf(e, t), r, t.now)
  {
  }

  lemma TrackedByEvent(c: Config, times: seq<real>, e: Engine, t: Timed)
    requires Tracked(c, times, e, t.now) && Calm(e, t.now) && Enabled(c, e, t.event) && InOutage(e, t.event)
    ensures Tracked(c, times + FailureOf(e, t), Step(c, e, t), t.now)
  {
    DeadlinesNeverMoveForward(c, e, t);
    TrackedStep(c, times, e, t, Step(c, e, t));
  }

  lemma {:induction false} OutageIsTracked(c: Config, states: seq<Engine>, events: seq<Timed>, m: nat, n: nat, now: real)
    requires OutageWindow(c, states, events, m, n)
    requires n > 0 ==> events[n - 1].now <= now
    ensures Tracked(c, FailureTimes(states, events, m, n), states[n], now)
    decreases n
  {
    if n > m {
      OutageIsTracked(c, states, events, m, n - 1, events[n - 1].now);
      RunsAreCalm(c, states, events, n - 1);
      TrackedNext(c, FailureTimes(states, events, m, n - 1), states[n - 1], events[n - 1], now);
    }
  }

  lemma TrackedNext(c: Config, times: seq<real>, e: Engine, t: Timed, now: real)
    requires Tracked(c, times, e, t.now) && Calm(e, t.now) && Enabled(c, e, t.event) && InOutage(e, t.event)
    requires t.now <= now
    ensures Tracked(c, times + FailureOf(e, t), Step(c, e, t), now)
  {
    TrackedByEvent(c, times, e, t);
    TrackedLater(c, times + FailureOf(e, t), Step(c, e, t), t.now, now);
  }

  lemma TrackedLater(c: Config, times: seq<real>, e: Engine, now: real, later: real)
    requires Tracked(c, times, e, now) && now <= later
    ensures Tracked(c, times, e, later)
  {
  }

  /** From the failure number i + k on, k cooldowns have passed. */
  lemma {:induction false} CooldownsAddUp(c: Config, times: seq<real>, i: nat, j: nat)
    requires Spaced(c, times) && c.maxFailures >= 1 && c.maxFailures - 1 <= i <= j < |times|
    ensures times[j] >= times[i] + (j - i) as real * c.breakerCooldown
    decreases j
  {
    if i < j {
      CooldownsAddUp(c, times, i, j - 1);
      assert (j - i) as real * c.breakerCooldown == (j - 1 - i) as real * c.breakerCooldown + c.breakerCooldown;
    }
  }

  /** Any window of `span` seconds of an outage holds at most max_failures + floor(span / cooldown)
      failed attempts: if failures number i and j lie within the span, there are no more
      than that from i to j. */
  lemma OutageRateBound(c: Config, states: seq<Engine>, events: seq<Timed>, m: nat, n: nat, i: nat, j: nat, span: real)
    requires OutageWindow(c, states, events, m, n)
    requires c.maxFailures >= 1 && c.breakerCooldown > 0.0
    requires i <= j < |FailureTimes(states, events, m, n)|
    requires FailureTimes(states, events, m, n)[j] - FailureTimes(states, events, m, n)[i] <= span
    ensures j - i + 1 <= c.maxFailures + (span / c.breakerCooldown).Floor
  {
    OutageIsTracked(c, states, events, m, n, if n == 0 then 0.0 else events[n - 1].now);
    SpacedBound(c, FailureTimes(states, events, m, n), i, j, span);
  }

  lemma SpacedBound(c: Config, times: seq<real>, i: nat, j: nat, span: real)
    requires Spaced(c, times) && c.maxFailures >= 1 && c.breakerCooldown > 0.0
    requires i <= j < |times| && times[j] - times[i] <= span
    ensures j - i + 1 <= c.maxFailures + (span / c.breakerCooldown).Floor
  {
    var start := i + c.maxFailures - 1;
    if start <= j {
      CooldownsAddUp(c, times, start, j);
      FloorBound(j - start, span, c.breakerCooldown);
    } else {
      assert 0 as real * c.breakerCooldown == 0.0;
      FloorBound(0, span, c.breakerCooldown);
    }
  }

  lemma FloorBound(count: nat, span: real, cooldown: real)
    requires cooldown > 0.0 && count as real * cooldown <= span
    ensures count <= (span / cooldown).Floor
  {
    var q := span / cooldown;
    assert q * cooldown == span;
    Compare(count as real, q, cooldown);
  }

  lemma Compare(x: real, y: real, rate: real)
    requires rate > 0.0 && x * rate <= y * rate
    ensures x <= y
  {
    assert x * rate - y * rate == (x - y) * rate;
  }
}
