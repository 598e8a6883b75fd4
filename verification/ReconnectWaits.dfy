/**
 How long the scheduler waits: no sooner than the backoff calls for after an attempt that did
 not connect, and never for longer than its configuration bounds.
 */
module ReconnectWaits {
  import opened Common
  import opened Backoff
  import opened ReconnectModel
  import opened ReconnectTheorems
  import opened ReconnectPacing

  predicate SchedulesAt(e: Engine, t: Timed) {
    t.event.Tick? && Schedules(e, t.now, t.event.delay)
  }

  /** An attempt of the registered profile ends in this way. */
  predicate EndsMine(e: Engine, event: Event, outcome: Outcome) {
    event.End? && event.outcome == outcome && IsMine(e, event.attempt)
  }

  // ---- A deadline outlasts the outage ---------------------------------------------

  lemma NoAttemptBeforeRetry(e: Engine, t: Timed)
    requires SchedulesAt(e, t)
    ensures e.slot.Some? && t.now >= e.slot.value.profile.nextRetry && t.now >= e.slot.value.profile.brokenUntil
  {
    TickIsNoEarlier(e.slot.value.profile, t.now, t.event.delay);
  }

  /** In an outage nothing is scheduled before a retry time or a breaker hold that was set. */
  lemma {:induction false} DeadlineLasts(c: Config, states: seq<Engine>, events: seq<Timed>, m: nat, n: nat)
    requires OutageWindow(c, states, events, m, n)
    ensures states[n].slot.Some? && NoEarlier(states[m].slot.value.profile, states[n].slot.value.profile)
    ensures states[n].slot.value.id == states[m].slot.value.id
    decreases n
  {
    if n > m {
      DeadlineLasts(c, states, events, m, n - 1);
      RunsAreCalm(c, states, events, n - 1);
      DeadlinesNeverMoveForward(c, states[n - 1], events[n - 1]);
    }
  }

  lemma WindowHoldsAttempts(c: Config, states: seq<Engine>, events: seq<Timed>, m: nat, n: nat)
    requires OutageWindow(c, states, events, m, n) && n < |events| && SchedulesAt(states[n], events[n])
    ensures events[n].now >= states[m].slot.value.profile.nextRetry
    ensures events[n].now >= states[m].slot.value.profile.brokenUntil
  {
    DeadlineLasts(c, states, events, m, n);
    NoAttemptBeforeRetry(states[n], events[n]);
  }

  // ---- The wait after each outcome --------------------------------------------------

  /** The steps that a failure, a busy answer and a cancellation take, and the deadlines they
      leave behind. */
  lemma FailureWaits(c: Config, e: Engine, t: Timed)
    requires Enabled(c, e, t.event) && EndsMine(e, t.event, Failure)
    ensures var r := Step(c, e, t);
            && r.slot.Some? && r.slot.value.id == e.slot.value.id
            && r.slot.value.profile.nextRetry >= t.now + Geometric(c.backoff, e.slot.value.profile.step + 1)
            && (e.slot.value.profile.failures + 1 >= c.maxFailures ==>
                  r.slot.value.profile.brokenUntil >= t.now + c.breakerCooldown)
  {
  }

  lemma BusyWaits(c: Config, e: Engine, t: Timed)
    requires Enabled(c, e, t.event) && EndsMine(e, t.event, Busy)
    ensures var r := Step(c, e, t);
            && r.slot.Some? && r.slot.value.id == e.slot.value.id
            && r.slot.value.profile.nextRetry >= t.now + Geometric(c.backoff, e.slot.value.profile.step)
            && r.slot.value.profile.nextRetry >= t.now + SETTLE_SECONDS
  {
  }

  lemma CancelledWaits(c: Config, e: Engine, t: Timed)
    requires Enabled(c, e, t.event) && EndsMine(e, t.event, Cancelled)
    ensures var r := Step(c, e, t);
            && r.slot.Some? && r.slot.value.id == e.slot.value.id
            && r.slot.value.profile.nextRetry >= t.now + Geometric(c.backoff, e.slot.value.profile.step)
  {
  }

  /** A tick that arms the backoff sets the retry time to the latest of: the one there was, the
      end of the drawn delay, and the ends of the breaker hold and of a cooldown that still runs. */
  lemma ArmingTakesTheLatest(c: Config, e: Engine, t: Timed)
    requires Enabled(c, e, t.event) && t.event.Tick? && e.slot.Some? && Arms(e.slot.value.profile, t.now)
    ensures Step(c, e, t).slot.Some?
    ensures var p, q := e.slot.value.profile, Step(c, e, t).slot.value.profile;
            && q.state.BackingOff? && q.droppedAt.None? && q.brokenUntil == p.brokenUntil && q.step == p.step
            && q.nextRetry >= p.nextRetry && q.nextRetry >= t.now + t.event.delay
            && q.nextRetry >= q.brokenUntil && (q.cooldownUntil > t.now ==> q.nextRetry >= q.cooldownUntil)
            && (|| q.nextRetry == p.nextRetry || q.nextRetry == t.now + t.event.delay
                || q.nextRetry == q.brokenUntil || q.nextRetry == q.cooldownUntil)
  {
  }

  /** From event k on, up to j, no connect is reported or succeeds and the profile stays. */
  ghost predicate OutageAfter(c: Config, states: seq<Engine>, events: seq<Timed>, k: nat, j: nat) {
    IsRun(c, states, events) && k < j < |events| && forall i :: k < i < j ==> InOutage(states[i], events[i].event)
  }

  /** Over runs: after a failed attempt the next one is scheduled no sooner than the backoff of
      the next step, and from the failure limit on no sooner than the breaker cooldown. */
  lemma AttemptFollowsFailure(c: Config, states: seq<Engine>, events: seq<Timed>, k: nat, j: nat)
    requires OutageAfter(c, states, events, k, j) && EndsMine(states[k], events[k].event, Failure)
    requires SchedulesAt(states[j], events[j])
    ensures events[j].now >= events[k].now + Geometric(c.backoff, states[k].slot.value.profile.step + 1)
    ensures states[k].slot.value.profile.failures + 1 >= c.maxFailures ==> events[j].now >= events[k].now + c.breakerCooldown
  {
    FailureWaits(c, states[k], events[k]);
    WindowHoldsAttempts(c, states, events, k + 1, j);
  }

  /** After a busy answer the next attempt waits for the backoff and for the settle time. */
  lemma AttemptFollowsBusy(c: Config, states: seq<Engine>, events: seq<Timed>, k: nat, j: nat)
    requires OutageAfter(c, states, events, k, j) && EndsMine(states[k], events[k].event, Busy)
    requires SchedulesAt(states[j], events[j])
    ensures events[j].now >= events[k].now + Geometric(c.backoff, states[k].slot.value.profile.step)
    ensures events[j].now >= events[k].now + 15.0
  {
    BusyWaits(c, states[k], events[k]);
    WindowHoldsAttempts(c, states, events, k + 1, j);
  }

  /** After a cancelled attempt the next one waits for the backoff. */
  lemma AttemptFollowsCancel(c: Config, states: seq<Engine>, events: seq<Timed>, k: nat, j: nat)
    requires OutageAfter(c, states, events, k, j) && EndsMine(states[k], events[k].event, Cancelled)
    requires SchedulesAt(states[j], events[j])
    ensures events[j].now >= events[k].now + Geometric(c.backoff, states[k].slot.value.profile.step)
  {
    CancelledWaits(c, states[k], events[k]);
    WindowHoldsAttempts(c, states, events, k + 1, j);
  }

  // ---- The step is the number of failures -------------------------------------------

  predicate StepFits(e: Engine) {
    e.slot.Some? ==> e.slot.value.profile.step == e.slot.value.profile.failures
  }

  lemma StepFitsStep(c: Config, e: Engine, t: Timed)
    requires StepFits(e) && Enabled(c, e, t.event)
    ensures StepFits(Step(c, e, t))
  {
  }

  lemma {:induction false} StepIsFailures(c: Config, states: seq<Engine>, events: seq<Timed>, n: nat)
    requires IsRun(c, states, events) && n <= |events|
    ensures StepFits(states[n])
  {
    if n > 0 {
      StepIsFailures(c, states, events, n - 1);
      StepFitsStep(c, states[n - 1], events[n - 1]);
    }
  }

  /** The link comes up: the profile hears of a connection, or its own attempt succeeds. */
  predicate Connects(e: Engine, t: Timed) {
    || (t.event.Report? && t.event.connected && e.slot.Some? && e.slot.value.profile.enabled)
    || EndsMine(e, t.event, Success)
  }

  /** A connection resets the pacing: no failure counts, and nothing is waited for. */
  lemma ConnectionResets(c: Config, e: Engine, t: Timed)
    requires Enabled(c, e, t.event) && Connects(e, t)
    ensures var r := Step(c, e, t);
            && r.slot.Some? && r.slot.value.id == e.slot.value.id
            && var p := r.slot.value.profile;
               && p.state.Connected? && p.droppedAt.None?
               && p.failures == 0 && p.step == 0 && p.nextRetry == 0.0 && p.brokenUntil == 0.0
  {
  }

  /** In an outage the failures add up one by one. */
  lemma {:induction false} FailuresAddUp(c: Config, states: seq<Engine>, events: seq<Timed>, m: nat, n: nat)
    requires OutageWindow(c, states, events, m, n)
    ensures states[n].slot.Some?
    ensures states[n].slot.value.profile.failures == states[m].slot.value.profile.failures + |FailureTimes(states, events, m, n)|
    decreases n
  {
    if n > m {
      FailuresAddUp(c, states, events, m, n - 1);
      RunsAreCalm(c, states, events, n - 1);
      DeadlinesNeverMoveForward(c, states[n - 1], events[n - 1]);
    }
  }

  /** Waits grow: if the link came up at event m, and the attempt that ends at event k is the
      failure number i of the outage since, then the next attempt is scheduled no sooner than
      min(cap, initial * multiplier^i) after it. */
  lemma WaitsGrow(c: Config, states: seq<Engine>, events: seq<Timed>, m: nat, k: nat, j: nat)
    requires OutageAfter(c, states, events, m, j) && m < k < j && Connects(states[m], events[m])
    requires EndsMine(states[k], events[k].event, Failure) && SchedulesAt(states[j], events[j])
    ensures OutageWindow(c, states, events, m + 1, k)
    ensures var i := |FailureTimes(states, events, m + 1, k)| + 1;
            events[j].now >= events[k].now + Geometric(c.backoff, i)
  {
    ConnectionResets(c, states[m], events[m]);
    FailuresAddUp(c, states, events, m + 1, k);
    StepIsFailures(c, states, events, k);
    AttemptFollowsFailure(c, states, events, k, j);
  }

  // ---- The settle window -------------------------------------------------------------

  /** The profile becomes connected in this event. */
  predicate LinksUp(e: Engine, t: Timed) {
    Connects(e, t) && (!e.slot.value.profile.state.Connected? || t.event.End?)
  }

  predicate LinkedSince(e: Engine, since: real) {
    e.slot.Some? ==> e.slot.value.profile.connectedAt >= since
  }

  lemma LinkUpIsRecorded(c: Config, e: Engine, t: Timed)
    requires Enabled(c, e, t.event) && e.slot.Some?
    ensures LinksUp(e, t) ==> Step(c, e, t).slot.Some? && Step(c, e, t).slot.value.profile.connectedAt == t.now
    ensures !LinksUp(e, t) && Step(c, e, t).slot.Some? ==>
              Step(c, e, t).slot.value.profile.connectedAt == e.slot.value.profile.connectedAt
  {
  }

  lemma {:induction false} LinkUpStays(c: Config, states: seq<Engine>, events: seq<Timed>, m: nat, n: nat)
    requires IsRun(c, states, events) && m < n <= |events| && LinksUp(states[m], events[m])
    requires forall i :: m <= i <= n ==> states[i].slot.Some?
    ensures LinkedSince(states[n], events[m].now)
    decreases n
  {
    if n == m + 1 {
      LinkUpIsRecorded(c, states[m], events[m]);
    } else {
      LinkUpStays(c, states, events, m, n - 1);
      assert events[m].now <= events[n - 1].now;
      LinkStaysStep(c, states[n - 1], events[n - 1], events[m].now);
    }
  }

  lemma LinkStaysStep(c: Config, e: Engine, t: Timed, since: real)
    requires Enabled(c, e, t.event) && e.slot.Some? && LinkedSince(e, since) && since <= t.now
    ensures LinkedSince(Step(c, e, t), since)
  {
    LinkUpIsRecorded(c, e, t);
  }

  /** Over runs: no attempt is scheduled within fifteen seconds of a link-up, as long as the
      profile stays registered. */
  lemma SettleHoldsAttempts(c: Config, states: seq<Engine>, events: seq<Timed>, m: nat, k: nat)
    requires IsRun(c, states, events) && m < k < |events| && LinksUp(states[m], events[m])
    requires forall i :: m <= i <= k ==> states[i].slot.Some?
    requires SchedulesAt(states[k], events[k])
    ensures events[k].now >= events[m].now + 15.0
  {
    LinkUpStays(c, states, events, m, k);
    SettledWhenScheduled(states[k], events[k]);
  }

  lemma SettledWhenScheduled(e: Engine, t: Timed)
    requires SchedulesAt(e, t)
    ensures e.slot.Some? && t.now - e.slot.value.profile.connectedAt >= SETTLE_SECONDS
  {
  }
}
