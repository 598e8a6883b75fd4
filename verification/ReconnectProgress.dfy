/**
 The scheduler gets on: every wait is bounded, no profile is stuck, and registration and the
 reports of a speaker do what they say.
 */
module ReconnectProgress {
  import opened Common
  import opened Backoff
  import opened ReconnectModel
  import opened ReconnectTheorems
  import opened ReconnectWaits

  // ---- Every wait is bounded ---------------------------------------------------------

  /** The longest that a configuration lets a profile wait, from the last event on. */
  function LongestWait(c: Config): real {
    Max(Max(c.backoff.cap, FLAP_COOLDOWN_SECONDS), Max(c.breakerCooldown, SETTLE_SECONDS))
  }

  /** No deadline of the profile lies further ahead. */
  predicate BoundedProfile(c: Config, p: Profile, now: real) {
    var until := now + LongestWait(c);
    && p.nextRetry <= until && p.brokenUntil <= until && p.cooldownUntil <= until
    && p.connectedAt + SETTLE_SECONDS <= until
  }

  predicate Bounded(c: Config, e: Engine, now: real) {
    e.slot.Some? ==> BoundedProfile(c, e.slot.value.profile, now)
  }

  lemma TickIsBounded(c: Config, p: Profile, now: real, delay: real)
    requires delay <= c.backoff.cap && BoundedProfile(c, p, now)
    ensures BoundedProfile(c, TickProfile(p, now, delay), now)
  {
  }

  lemma EndIsBounded(c: Config, p: Profile, now: real, delay: real)
    requires now >= 0.0 && delay <= c.backoff.cap && BoundedProfile(c, p, now)
    ensures BoundedProfile(c, DeferBusy(p, now, delay), now)
    ensures BoundedProfile(c, FailAttempt(c, p, now, delay), now)
    ensures BoundedProfile(c, CancelAttempt(p, now, delay), now)
  {
  }

  lemma ConnectIsBounded(c: Config, p: Profile, now: real)
    requires now >= 0.0 && BoundedProfile(c, p, now)
    ensures BoundedProfile(c, Succeed(p, now), now) && BoundedProfile(c, ReportConnected(p, now), now)
    ensures BoundedProfile(c, ReportDropped(p, now), now)
    ensures forall enabled :: BoundedProfile(c, NewProfile(enabled), now)
  {
  }

  lemma BoundedEnd(c: Config, e: Engine, t: Timed)
    requires t.now >= 0.0 && Bounded(c, e, t.now) && Enabled(c, e, t.event) && t.event.End?
    ensures Bounded(c, Step(c, e, t), t.now)
  {
    if IsMine(e, t.event.attempt) {
      EndIsBounded(c, e.slot.value.profile, t.now, t.event.delay);
      ConnectIsBounded(c, e.slot.value.profile, t.now);
    }
  }

  lemma BoundedReport(c: Config, e: Engine, t: Timed)
    requires t.now >= 0.0 && Bounded(c, e, t.now) && t.event.Report?
    ensures Bounded(c, Step(c, e, t), t.now)
  {
    if e.slot.Some? {
      ConnectIsBounded(c, e.slot.value.profile, t.now);
    } else {
      ConnectIsBounded(c, NewProfile(true), t.now);
    }
  }

  lemma BoundedOther(c: Config, e: Engine, t: Timed)
    requires t.now >= 0.0 && Bounded(c, e, t.now) && Enabled(c, e, t.event)
    requires !t.event.End? && !t.event.Report? && !t.event.Tick?
    ensures Bounded(c, Step(c, e, t), t.now)
  {
  }

  lemma BoundedTick(c: Config, e: Engine, t: Timed)
    requires Bounded(c, e, t.now) && Enabled(c, e, t.event) && t.event.Tick?
    ensures Bounded(c, Step(c, e, t), t.now)
  {
    if e.slot.Some? {
      TickIsBounded(c, e.slot.value.profile, t.now, t.event.delay);
    }
  }

  lemma BoundedStep(c: Config, e: Engine, t: Timed)
    requires t.now >= 0.0 && Bounded(c, e, t.now) && Enabled(c, e, t.event)
    ensures Bounded(c, Step(c, e, t), t.now)
  {
    if t.event.End? {
      BoundedEnd(c, e, t);
    } else if t.event.Report? {
      BoundedReport(c, e, t);
    } else if t.event.Tick? {
      BoundedTick(c, e, t);
    } else {
      BoundedOther(c, e, t);
    }
  }

  lemma BoundedLater(c: Config, e: Engine, now: real, later: real)
    requires Bounded(c, e, now) && now <= later
    ensures Bounded(c, e, later)
  {
  }

  lemma {:induction false} WaitsAreBounded(c: Config, states: seq<Engine>, events: seq<Timed>, n: nat, now: real)
    requires IsRun(c, states, events) && n <= |events| && now >= 0.0
    requires n > 0 ==> events[n - 1].now <= now
    ensures Bounded(c, states[n], now)
  {
    if n > 0 {
      WaitsAreBounded(c, states, events, n - 1, events[n - 1].now);
      BoundedStep(c, states[n - 1], events[n - 1]);
      BoundedLater(c, states[n], events[n - 1].now, now);
    }
  }

  /** Does the profile wait for its next attempt? */
  predicate Waits(p: Profile) {
    p.enabled && (p.state.BackingOff? || p.state.CircuitBroken?)
  }

  lemma TickSchedules(c: Config, e: Engine, t: Timed)
    requires t.event.Tick? && e.slot.Some? && Waits(e.slot.value.profile) && SlotFree(e)
    requires var p := e.slot.value.profile;
             t.now >= p.nextRetry && t.now >= p.brokenUntil && t.now >= p.cooldownUntil && t.now - p.connectedAt >= SETTLE_SECONDS
    ensures SchedulesAt(e, t)
    ensures var r := Step(c, e, t);
            && r.inflight == Some(|e.owners|) && |e.owners| in r.attempts && r.attempts[|e.owners|].Scheduled? && IsMine(r, |e.owners|)
  {
  }

  /** Over runs: a profile that waits, with no attempt in flight, gets one from the first tick
      that comes the longest wait after the event before it. */
  lemma AttemptComesInTime(c: Config, states: seq<Engine>, events: seq<Timed>, n: nat, before: real)
    requires IsRun(c, states, events) && n < |events| && events[n].event.Tick?
    requires before >= 0.0 && (n > 0 ==> events[n - 1].now <= before) && events[n].now >= before + LongestWait(c)
    requires states[n].slot.Some? && Waits(states[n].slot.value.profile) && SlotFree(states[n])
    ensures SchedulesAt(states[n], events[n])
  {
    WaitsAreBounded(c, states, events, n, before);
    TickSchedules(c, states[n], events[n]);
  }

  // ---- From a drop to the wait -------------------------------------------------------

  /** A drop that an idle or connected profile hears of is noted, once. */
  lemma DropIsNoted(c: Config, e: Engine, t: Timed)
    requires t.event.Report? && !t.event.connected && e.slot.Some? && e.slot.value.profile.enabled
    ensures var p, q := e.slot.value.profile, Step(c, e, t).slot.value.profile;
            if p.droppedAt.None? && (p.state.Connected? || p.state.Idle?) then q == p.(droppedAt := Some(t.now)) else q == p
  {
  }

  /** A tick that finds a drop at least the grace old makes the profile wait; one that comes
      sooner leaves it alone. */
  lemma GraceDecides(c: Config, e: Engine, t: Timed)
    requires t.event.Tick? && e.slot.Some? && e.slot.value.profile.enabled && t.now >= e.slot.value.profile.brokenUntil
    requires e.slot.value.profile.droppedAt.Some? && (e.slot.value.profile.state.Connected? || e.slot.value.profile.state.Idle?)
    ensures var p, q := e.slot.value.profile, Step(c, e, t).slot.value.profile;
            if t.now - p.droppedAt.value >= 5.0 then q.state.BackingOff? && q.droppedAt.None? else q == p
  {
  }

  // ---- No profile is stuck -----------------------------------------------------------

  /** A profile that says it reconnects has an attempt that does. */
  ghost predicate NotStuck(e: Engine) {
    e.slot.Some? && e.slot.value.profile.state.Reconnecting? ==>
      exists a :: a in e.attempts && e.attempts[a].Connecting? && IsMine(e, a)
  }

  lemma NotStuckTick(c: Config, e: Engine, t: Timed)
    requires Owned(e) && NotStuck(e) && t.event.Tick? && Enabled(c, e, t.event)
    ensures NotStuck(Step(c, e, t))
  {
    var r := Step(c, e, t);
    if r.slot.Some? && r.slot.value.profile.state.Reconnecting? {
      var a :| a in e.attempts && e.attempts[a].Connecting? && IsMine(e, a);
      assert a in r.attempts && r.attempts[a].Connecting? && IsMine(r, a);
    }
  }

  lemma NotStuckAttempt(c: Config, e: Engine, t: Timed)
    requires Owned(e) && NotStuck(e) && (t.event.Begin? || t.event.End? || t.event.Abandon?) && Enabled(c, e, t.event)
    ensures NotStuck(Step(c, e, t))
  {
    var r := Step(c, e, t);
    if r.slot.Some? && r.slot.value.profile.state.Reconnecting? {
      if t.event.Begin? && t.event.attempt in r.attempts {
        assert r.attempts[t.event.attempt].Connecting? && IsMine(r, t.event.attempt);
      } else {
        var a :| a in e.attempts && e.attempts[a].Connecting? && IsMine(e, a);
        assert a in r.attempts && r.attempts[a].Connecting? && IsMine(r, a);
      }
    }
  }

  lemma NotStuckOther(c: Config, e: Engine, t: Timed)
    requires Owned(e) && NotStuck(e) && Enabled(c, e, t.event)
    requires t.event.Register? || t.event.Unregister? || t.event.SetGate? || t.event.Report? || t.event.Release?
    ensures NotStuck(Step(c, e, t))
  {
    var r := Step(c, e, t);
    if r.slot.Some? && r.slot.value.profile.state.Reconnecting? {
      var a :| a in e.attempts && e.attempts[a].Connecting? && IsMine(e, a);
      assert a in r.attempts && r.attempts[a].Connecting? && IsMine(r, a);
    }
  }

  lemma NotStuckStep(c: Config, e: Engine, t: Timed)
    requires Owned(e) && NotStuck(e) && Enabled(c, e, t.event)
    ensures NotStuck(Step(c, e, t))
  {
    if t.event.Tick? {
      NotStuckTick(c, e, t);
    } else if t.event.Begin? || t.event.End? || t.event.Abandon? {
      NotStuckAttempt(c, e, t);
    } else {
      NotStuckOther(c, e, t);
    }
  }

  lemma {:induction false} NeverStuck(c: Config, states: seq<Engine>, events: seq<Timed>, n: nat)
    requires IsRun(c, states, events) && n <= |events|
    ensures NotStuck(states[n])
  {
    if n > 0 {
      NeverStuck(c, states, events, n - 1);
      OwnedInRuns(c, states, events, n - 1);
      NotStuckStep(c, states[n - 1], events[n - 1]);
    }
  }

  /** An attempt that did not connect leaves its profile waiting: broken from the failure limit
      on, and backing off otherwise. Either way the attempt is over. Only a busy answer clears a
      pending drop. */
  lemma EndedAttemptWaits(c: Config, e: Engine, t: Timed)
    requires Owned(e) && Enabled(c, e, t.event) && t.event.End? && IsMine(e, t.event.attempt) && !t.event.outcome.Success?
    ensures var p, r := e.slot.value.profile, Step(c, e, t);
            && r.slot.Some? && SlotFree(r) && t.event.attempt !in r.attempts
            && var q := r.slot.value.profile;
               && (if t.event.outcome.Failure? && p.failures + 1 >= c.maxFailures then q.state.CircuitBroken? else q.state.BackingOff?)
               && q.droppedAt == if t.event.outcome.Busy? then None else p.droppedAt
  {
  }

  /** A scheduled attempt runs if and only if its profile is still the registered one, switched
      on and not held by the breaker; otherwise it ends at once and changes nothing else. */
  lemma AttemptRunsIff(c: Config, e: Engine, t: Timed)
    requires Enabled(c, e, t.event) && t.event.Begin?
    ensures var a, r := t.event.attempt, Step(c, e, t);
            if IsMine(e, a) && e.slot.value.profile.enabled && t.now >= e.slot.value.profile.brokenUntil
            then a in r.attempts && r.attempts[a].Connecting? && r.slot.Some? && r.slot.value.profile.state.Reconnecting?
            else r == e.(attempts := e.attempts - {a})
  {
  }

  /** The done callback of the attempt in the slot empties it. That changes nothing about
      whether an attempt can be scheduled, since a finished one does not stand in the way. */
  lemma ReleaseEmptiesSlot(c: Config, e: Engine, t: Timed)
    requires Enabled(c, e, t.event) && t.event.Release?
    ensures var r := Step(c, e, t);
            && r.inflight == (if e.inflight == Some(t.event.attempt) then None else e.inflight)
            && r.slot == e.slot && r.attempts == e.attempts && (SlotFree(r) <==> SlotFree(e))
  {
  }

  // ---- Registration and the switch ---------------------------------------------------

  /** With the gate open a registration leaves a profile that is switched as asked: the one
      there was, otherwise untouched, or a fresh one. With the gate closed it does nothing. */
  lemma RegistrationTakesEffect(c: Config, e: Engine, t: Timed)
    requires t.event.Register?
    ensures var r := Step(c, e, t);
            if !e.gate then r == e
            else
              && r.slot.Some? && r.slot.value.profile.enabled == t.event.enabled
              && (e.slot.Some? ==> r == e.(slot := r.slot) && r.slot.value.id == e.slot.value.id
                                   && r.slot.value.profile == e.slot.value.profile.(enabled := t.event.enabled))
              && (e.slot.None? ==> r.slot.value.id == e.nextProfile && r.slot.value.profile.state.Idle?
                                   && r.slot.value.profile.failures == 0 && r.slot.value.profile.droppedAt.None?)
  {
  }

  /** A report about an unknown speaker registers it if and only if it is a trusted sink and
      the gate is open. */
  lemma ReportRegistersIff(c: Config, e: Engine, t: Timed)
    requires t.event.Report? && e.slot.None?
    ensures Step(c, e, t).slot.Some? <==> t.event.trustedSink && e.gate
    ensures Step(c, e, t).slot.None? ==> Step(c, e, t) == e
  {
  }

  /** A profile that is switched off is left alone by reports and ticks. */
  lemma SwitchedOffIsLeftAlone(c: Config, e: Engine, t: Timed)
    requires e.slot.Some? && !e.slot.value.profile.enabled && (t.event.Report? || t.event.Tick?)
    ensures Step(c, e, t) == e
  {
  }

  // ---- Suppressed flaps --------------------------------------------------------------

  /** A connection that the profile hears of while a drop is pending. */
  predicate Suppresses(e: Engine, t: Timed) {
    && t.event.Report? && t.event.connected && e.slot.Some? && e.slot.value.profile.enabled
    && e.slot.value.profile.droppedAt.Some?
  }

  function Suppressions(states: seq<Engine>, events: seq<Timed>, m: nat, n: nat): nat
    requires m <= n <= |events| && |states| == |events| + 1
    decreases n
  {
    if n == m then 0
    else Suppressions(states, events, m, n - 1) + if Suppresses(states[n - 1], events[n - 1]) then 1 else 0
  }

  lemma SuppressedStep(c: Config, e: Engine, t: Timed)
    requires Enabled(c, e, t.event) && e.slot.Some? && Step(c, e, t).slot.Some?
    ensures Step(c, e, t).slot.value.profile.suppressed
            == e.slot.value.profile.suppressed + if Suppresses(e, t) then 1 else 0
  {
  }

  /** While the profile stays registered its counter is the number of drops that a connection
      cleared inside the grace. */
  lemma {:induction false} SuppressedAreCounted(c: Config, states: seq<Engine>, events: seq<Timed>, m: nat, n: nat)
    requires IsRun(c, states, events) && m <= n <= |events| && forall i :: m <= i <= n ==> states[i].slot.Some?
    ensures states[n].slot.value.profile.suppressed
            == states[m].slot.value.profile.suppressed + Suppressions(states, events, m, n)
    decreases n
  {
    if n > m {
      SuppressedAreCounted(c, states, events, m, n - 1);
      assert states[n - 1].slot.Some? && states[n].slot.Some? && states[n] == Step(c, states[n - 1], events[n - 1]);
      SuppressedStep(c, states[n - 1], events[n - 1]);
    }
  }
}
