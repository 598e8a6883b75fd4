/** What must have happened between a connected report and the next attempt. */
module ReconnectGrace {
  import opened Common
  import opened Backoff
  import opened ReconnectModel
  import opened ReconnectTheorems

  /** An event that leaves the profile registered. It may switch it off and on again. */
  predicate KeepsProfile(event: Event) {
    match event
    case Unregister => false
    case SetGate(on) => on
    case _ => true
  }

  /** A report that the profile hears: it is registered and switched on. */
  predicate Hears(e: Engine, t: Timed) {
    t.event.Report? && e.slot.Some? && e.slot.value.profile.enabled
  }

  predicate SchedulesAttempt(e: Engine, t: Timed) {
    t.event.Tick? && Schedules(e, t.now, t.event.delay)
  }

  ghost predicate NoneAlive(e: Engine) {
    forall a :: a in e.attempts ==> !IsMine(e, a)
  }

  /** Where a profile stands since it was reported connected: up, dropped by the report at
      event d, or armed by the tick at event a. */
  datatype Stage = Up | Dropped(d: nat) | Armed(d: nat, a: nat)

  /** Event d reports a drop that the profile hears, and from there up to n it hears of no
      connection. */
  ghost predicate DropStands(states: seq<Engine>, events: seq<Timed>, d: nat, n: nat) {
    && d < n <= |events| && |states| == |events| + 1
    && Hears(states[d], events[d]) && !events[d].event.connected
    && forall i :: d < i < n ==> !(Hears(states[i], events[i]) && events[i].event.connected)
  }

  /** The tick at event a found that drop older than the grace window. */
  ghost predicate GraceOver(events: seq<Timed>, d: nat, a: nat) {
    && d < a < |events|
    && events[a].event.Tick?
    && events[a].now - events[d].now >= 5.0
  }

  function LeastDelay(c: Config): real {
    Min(c.backoff.cap, c.backoff.initial)
  }

  ghost predicate AtStage(c: Config, states: seq<Engine>, events: seq<Timed>, m: nat, n: nat, stage: Stage)
    requires n < |states|
  {
    && states[n].slot.Some? && NoneAlive(states[n])
    && var p := states[n].slot.value.profile;
       match stage
       case Up => p.state.Connected? && p.droppedAt.None?
       case Dropped(d) =>
         m <= d && DropStands(states, events, d, n) && p.state.Connected? && p.droppedAt == Some(events[d].now)
       case Armed(d, a) =>
         && m <= d && a < n && DropStands(states, events, d, n) && GraceOver(events, d, a)
         && p.state.BackingOff? && p.droppedAt.None?
         && p.nextRetry >= events[a].now + LeastDelay(c)
  }

  /** How an event that schedules nothing changes the profile. */
  lemma QuietEvent(c: Config, e: Engine, t: Timed)
    requires Enabled(c, e, t.event) && KeepsProfile(t.event) && !SchedulesAttempt(e, t)
    requires e.slot.Some? && NoneAlive(e)
    ensures var r := Step(c, e, t);
            && r.slot.Some? && NoneAlive(r)
            && var p, q := e.slot.value.profile, r.slot.value.profile;
               q == if Hears(e, t) then
                      if t.event.connected then ReportConnected(p, t.now) else ReportDropped(p, t.now)
                    else if t.event.Tick? then TickProfile(p, t.now, t.event.delay)
                    else p.(enabled := q.enabled)
  {
  }

  lemma ArmingWaits(c: Config, p: Profile, now: real, delay: real)
    requires Legal(c.backoff) && DelayFits(c, p.step, delay)
    ensures ArmBackoff(p, now, delay).nextRetry >= now + LeastDelay(c)
    ensures ArmBackoff(p, now, delay).state.BackingOff? && ArmBackoff(p, now, delay).droppedAt.None?
  {
    GeometricAtLeast(c.backoff, p.step);
  }

  lemma NextStage(c: Config, states: seq<Engine>, events: seq<Timed>, m: nat, n: nat, stage: Stage) returns (next: Stage)
    requires Legal(c.backoff) && m <= n < |events| && |states| == |events| + 1 && AtStage(c, states, events, m, n, stage)
    requires Enabled(c, states[n], events[n].event) && states[n + 1] == Step(c, states[n], events[n])
    requires KeepsProfile(events[n].event) && !SchedulesAttempt(states[n], events[n])
    ensures AtStage(c, states, events, m, n + 1, next)
  {
    var e, t, p := states[n], events[n], states[n].slot.value.profile;
    QuietEvent(c, e, t);
    if Hears(e, t) {
      next := if t.event.connected then Up else if stage.Up? then Dropped(n) else stage;
    } else if t.event.Tick? && Arms(p, t.now) {
      ArmingWaits(c, p, t.now, t.event.delay);
      next := Armed(stage.d, n);
    } else {
      next := stage;
    }
  }

  lemma {:induction false} StageOf(c: Config, states: seq<Engine>, events: seq<Timed>, m: nat, n: nat) returns (stage: Stage)
    requires IsRun(c, states, events) && Legal(c.backoff) && m <= n <= |events|
    requires AtStage(c, states, events, m, m, Up)
    requires forall i :: m <= i < n ==> KeepsProfile(events[i].event) && !SchedulesAttempt(states[i], events[i])
    ensures AtStage(c, states, events, m, n, stage)
    decreases n
  {
    if n == m {
      stage := Up;
    } else {
      var before := StageOf(c, states, events, m, n - 1);
      stage := NextStage(c, states, events, m, n - 1, before);
    }
  }

  /** A speaker is connected at event m with no attempt in flight, and event k is the next
      tick that schedules one. Then the profile heard of a drop at some event d and of no
      connection up to k; a tick at some event a found the drop at least five seconds old; and
      the attempt is scheduled at least min(cap, initial) after that tick and fifteen seconds
      after the recorded link-up. The profile may be switched off and on in between. */
  lemma AttemptFollowsGrace(c: Config, states: seq<Engine>, events: seq<Timed>, m: nat, k: nat) returns (d: nat, a: nat)
    requires IsRun(c, states, events) && Legal(c.backoff) && m <= k < |events|
    requires states[m].slot.Some? && NoneAlive(states[m])
    requires var p := states[m].slot.value.profile; p.state.Connected? && p.droppedAt.None?
    requires forall i :: m <= i < k ==> KeepsProfile(events[i].event) && !SchedulesAttempt(states[i], events[i])
    requires SchedulesAttempt(states[k], events[k])
    ensures m <= d && DropStands(states, events, d, k + 1)
    ensures GraceOver(events, d, a) && a <= k
    ensures events[k].now >= events[a].now + LeastDelay(c)
    ensures events[k].now >= states[k].slot.value.profile.connectedAt + 15.0
  {
    var stage := StageOf(c, states, events, m, k);
    var p, t := states[k].slot.value.profile, events[k];
    assert Due(TickProfile(p, t.now, t.event.delay), t.now);
    d := stage.d;
    if stage.Dropped? {
      ArmingWaits(c, p, t.now, t.event.delay);
      a := k;
    } else {
      a := stage.a;
    }
  }

  lemma ConnectedReportIsUp(c: Config, e: Engine, t: Timed)
    requires Hears(e, t) && t.event.connected && NoneAlive(e)
    ensures var r := Step(c, e, t);
            && r.slot.Some? && NoneAlive(r)
            && r.slot.value.profile.state.Connected? && r.slot.value.profile.droppedAt.None?
  {
  }

  /** From a report on: if the profile hears that the speaker is connected while no attempt is
      in flight, the next attempt comes only after all that, whatever the profile went through
      before. */
  lemma AttemptFollowsReport(c: Config, states: seq<Engine>, events: seq<Timed>, m: nat, k: nat) returns (d: nat, a: nat)
    requires IsRun(c, states, events) && Legal(c.backoff) && m < k < |events|
    requires Hears(states[m], events[m]) && events[m].event.connected && NoneAlive(states[m])
    requires forall i :: m < i < k ==> KeepsProfile(events[i].event) && !SchedulesAttempt(states[i], events[i])
    requires SchedulesAttempt(states[k], events[k])
    ensures m < d && DropStands(states, events, d, k + 1)
    ensures GraceOver(events, d, a) && a <= k
    ensures events[k].now >= events[a].now + LeastDelay(c)
    ensures events[k].now >= states[k].slot.value.profile.connectedAt + 15.0
  {
    ConnectedReportIsUp(c, states[m], events[m]);
    d, a := AttemptFollowsGrace(c, states, events, m + 1, k);
  }
}
