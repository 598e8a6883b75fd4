/**
 The reconnect scheduler of one speaker. Time is a parameter of every event, in seconds; a
 run gives it in non-decreasing order. What the random jitter and the connection attempt
 bring is part of the event.
 */
module ReconnectModel {
  import opened Common
  import opened Backoff

  const GRACE_SECONDS: real := 5.0
  const SETTLE_SECONDS: real := 15.0
  const FLAP_WINDOW_SECONDS: real := 120.0
  const FLAP_LIMIT: nat := 6
  const FLAP_COOLDOWN_SECONDS: real := 60.0

  datatype LinkState = Idle | Connected | Reconnecting | BackingOff | CircuitBroken

  datatype Profile = Profile(
    enabled: bool,
    state: LinkState,
    failures: nat,
    step: nat,
    nextRetry: real,
    brokenUntil: real,
    droppedAt: Option<real>,
    connectedAt: real,
    suppressed: nat,
    flaps: seq<real>,
    cooldownUntil: real)

  datatype Config = Config(backoff: Settings, maxFailures: int, breakerCooldown: real)

  function NewProfile(enabled: bool): Profile {
    Profile(enabled, Idle, 0, 0, 0.0, 0.0, None, 0.0, 0, [], 0.0)
  }

  /** The delays that a call of the backoff calculation may return for a step. */
  predicate DelayFits(c: Config, step: nat, delay: real) {
    Geometric(c.backoff, step) <= delay <= Min(c.backoff.cap, 1.15 * Geometric(c.backoff, step))
  }

  // ---- One profile ---------------------------------------------------------------

  predicate WatchesForDrops(p: Profile) {
    p.state.Connected? || p.state.Idle?
  }

  function ReportConnected(p: Profile, now: real): Profile {
    p.(droppedAt := None,
       suppressed := if p.droppedAt.Some? then p.suppressed + 1 else p.suppressed,
       connectedAt := if p.state.Connected? then p.connectedAt else now,
       state := Connected, failures := 0, step := 0, nextRetry := 0.0, brokenUntil := 0.0)
  }

  function ReportDropped(p: Profile, now: real): Profile {
    if p.droppedAt.None? && WatchesForDrops(p) then p.(droppedAt := Some(now)) else p
  }

  /** The times that lie within the flap window before `now`. */
  function Recent(times: seq<real>, now: real): seq<real> {
    if times == [] then []
    else (if now - times[0] <= FLAP_WINDOW_SECONDS then [times[0]] else []) + Recent(times[1..], now)
  }

  function RecordFlap(p: Profile, now: real): Profile {
    var flaps := Recent(p.flaps, now) + [now];
    if |flaps| < FLAP_LIMIT then p.(flaps := flaps)
    else p.(flaps := [], cooldownUntil := now + FLAP_COOLDOWN_SECONDS)
  }

  function ArmBackoff(p: Profile, now: real, delay: real): Profile {
    var q := RecordFlap(p, now);
    var wait := if q.cooldownUntil > now then Max(delay, q.cooldownUntil - now) else delay;
    q.(droppedAt := None, state := BackingOff,
       nextRetry := Max(Max(q.nextRetry, now + wait), q.brokenUntil))
  }

  /** Does a tick look at this profile at all? */
  predicate Awake(p: Profile, now: real) {
    p.enabled && now >= p.brokenUntil
  }

  /** Does a tick find a dropout that has outlived the grace window? */
  predicate Arms(p: Profile, now: real) {
    Awake(p, now) && p.droppedAt.Some? && WatchesForDrops(p) && now - p.droppedAt.value >= GRACE_SECONDS
  }

  function TickProfile(p: Profile, now: real, delay: real): Profile {
    if !Awake(p, now) then p
    else if p.state.CircuitBroken? then p.(state := BackingOff)
    else if Arms(p, now) then ArmBackoff(p, now, delay)
    else p
  }

  /** Is an attempt due on a profile that the tick has just looked at? */
  predicate Due(p: Profile, now: real) {
    && Awake(p, now) && p.state.BackingOff?
    && now >= p.nextRetry && now >= p.cooldownUntil
    && now - p.connectedAt >= SETTLE_SECONDS
  }

  function DeferBusy(p: Profile, now: real, delay: real): Profile {
    p.(droppedAt := None, state := BackingOff,
       nextRetry := Max(Max(Max(Max(p.nextRetry, now + delay), now + SETTLE_SECONDS), p.cooldownUntil), p.brokenUntil))
  }

  function CancelAttempt(p: Profile, now: real, delay: real): Profile {
    p.(state := BackingOff,
       nextRetry := Max(Max(Max(p.nextRetry, now + delay), p.cooldownUntil), p.brokenUntil))
  }

  function Succeed(p: Profile, now: real): Profile {
    p.(state := Connected, connectedAt := now, droppedAt := None, failures := 0, step := 0,
       nextRetry := 0.0, brokenUntil := 0.0)
  }

  /** `delay` is the one drawn for the step after this failure. */
  function FailAttempt(c: Config, p: Profile, now: real, delay: real): Profile {
    var broken := p.failures + 1 >= c.maxFailures;
    var brokenUntil := if broken then Max(p.brokenUntil, now + c.breakerCooldown) else p.brokenUntil;
    p.(failures := p.failures + 1, step := p.step + 1,
       state := if broken then CircuitBroken else BackingOff,
       brokenUntil := brokenUntil,
       nextRetry := Max(Max(Max(p.nextRetry, now + delay), p.cooldownUntil), brokenUntil))
  }

  // ---- The engine ----------------------------------------------------------------

  datatype Phase = Scheduled | Connecting

  datatype Outcome = Success | Busy | Failure | Cancelled

  /** The registered profile; `id` stands for the identity of the profile object. */
  datatype Slot = Slot(id: nat, profile: Profile)

  /** `owners` names, for every attempt ever scheduled, the profile it was scheduled for;
      `attempts` holds those that are still alive. */
  datatype Engine = Engine(
    gate: bool,
    slot: Option<Slot>,
    nextProfile: nat,
    inflight: Option<nat>,
    owners: seq<nat>,
    attempts: map<nat, Phase>)

  datatype Event =
    | Register(enabled: bool)
    | Unregister
    | SetGate(on: bool)
    | Report(connected: bool, trustedSink: bool)
    | Tick(delay: real)
    | Begin(attempt: nat)
    | End(attempt: nat, outcome: Outcome, delay: real)
    | Abandon(attempt: nat)               // cancelled before it ever ran
    | Release(attempt: nat)               // the done callback of a finished attempt

  datatype Timed = Timed(now: real, event: Event)

  function RegisterSpeaker(e: Engine, enabled: bool): Engine {
    if !e.gate then e
    else if e.slot.None? then e.(slot := Some(Slot(e.nextProfile, NewProfile(enabled))), nextProfile := e.nextProfile + 1)
    else WithProfile(e, e.slot.value.profile.(enabled := enabled))
  }

  function WithProfile(e: Engine, profile: Profile): Engine
    requires e.slot.Some?
  {
    e.(slot := Some(e.slot.value.(profile := profile)))
  }

  function UnregisterSpeaker(e: Engine): Engine {
    e.(slot := None, inflight := None)
  }

  /** An unknown speaker is registered if it is a trusted sink. With the gate closed that
      registers nothing, and looking the profile up then raises: nothing changes. */
  function OnReport(e: Engine, connected: bool, trustedSink: bool, now: real): Engine {
    var e1 := if e.slot.None? && trustedSink then RegisterSpeaker(e, true) else e;
    if e1.slot.None? || !e1.slot.value.profile.enabled then e1
    else
      var p := e1.slot.value.profile;
      WithProfile(e1, if connected then ReportConnected(p, now) else ReportDropped(p, now))
  }

  /** An attempt slot is free when there is no attempt in it or it has finished. */
  predicate SlotFree(e: Engine) {
    e.inflight.None? || e.inflight.value !in e.attempts
  }

  predicate Schedules(e: Engine, now: real, delay: real) {
    e.slot.Some? && Due(TickProfile(e.slot.value.profile, now, delay), now) && SlotFree(e)
  }

  function ScheduleAttempt(e: Engine): Engine
    requires e.slot.Some?
  {
    e.(inflight := Some(|e.owners|), owners := e.owners + [e.slot.value.id], attempts := e.attempts[|e.owners| := Scheduled])
  }

  function OnTick(e: Engine, now: real, delay: real): Engine {
    if e.slot.None? then e
    else
      var ticked := WithProfile(e, TickProfile(e.slot.value.profile, now, delay));
      if Schedules(e, now, delay) then ScheduleAttempt(ticked) else ticked
  }

  /** Was this attempt scheduled for the profile that is registered now? */
  predicate IsMine(e: Engine, attempt: nat) {
    attempt < |e.owners| && e.slot.Some? && e.owners[attempt] == e.slot.value.id
  }

  function OnBegin(e: Engine, attempt: nat, now: real): Engine {
    if !IsMine(e, attempt) || !Awake(e.slot.value.profile, now) then e.(attempts := e.attempts - {attempt})
    else WithProfile(e, e.slot.value.profile.(state := Reconnecting)).(attempts := e.attempts[attempt := Connecting])
  }

  function OnEnd(c: Config, e: Engine, attempt: nat, outcome: Outcome, now: real, delay: real): Engine {
    var ended := e.(attempts := e.attempts - {attempt});
    if !IsMine(e, attempt) then ended
    else
      var p := e.slot.value.profile;
      WithProfile(ended,
        match outcome
        case Success => Succeed(p, now)
        case Busy => DeferBusy(p, now, delay)
        case Failure => FailAttempt(c, p, now, delay)
        case Cancelled => CancelAttempt(p, now, delay))
  }

  /** The backoff step at which an event's delay is drawn. */
  function DrawStep(e: Engine, event: Event): nat {
    if e.slot.None? then 0
    else if event.End? && event.outcome.Failure? then e.slot.value.profile.step + 1
    else e.slot.value.profile.step
  }

  predicate Enabled(c: Config, e: Engine, event: Event) {
    match event
    case Tick(delay) => DelayFits(c, DrawStep(e, event), delay)
    case Begin(a) => a in e.attempts && e.attempts[a].Scheduled?
    case End(a, _, delay) =>
      a in e.attempts && e.attempts[a].Connecting? && (IsMine(e, a) ==> DelayFits(c, DrawStep(e, event), delay))
    case Abandon(a) => a in e.attempts && e.attempts[a].Scheduled?
    case Release(a) => a < |e.owners| && a !in e.attempts
    case _ => true
  }

  function Step(c: Config, e: Engine, t: Timed): Engine {
    match t.event
    case Register(enabled) => RegisterSpeaker(e, enabled)
    case Unregister => UnregisterSpeaker(e)
    case SetGate(on) => if on then e.(gate := true) else UnregisterSpeaker(e).(gate := false)
    case Report(connected, trustedSink) => OnReport(e, connected, trustedSink, t.now)
    case Tick(delay) => OnTick(e, t.now, delay)
    case Begin(a) => OnBegin(e, a, t.now)
    case End(a, outcome, delay) => OnEnd(c, e, a, outcome, t.now, delay)
    case Abandon(a) => e.(attempts := e.attempts - {a})
    case Release(a) => if e.inflight == Some(a) then e.(inflight := None) else e
  }

  const INITIAL: Engine := Engine(true, None, 0, None, [], map[])

  /** The states of a run, the first and the last included. Every event is possible when it
      comes, and the clock, which counts from the epoch, never goes back. */
  ghost predicate IsRun(c: Config, states: seq<Engine>, events: seq<Timed>) {
    && |states| == |events| + 1
    && states[0] == INITIAL
    && (forall k :: 0 <= k < |events| ==>
          Enabled(c, states[k], events[k].event) && states[k + 1] == Step(c, states[k], events[k]))
    && (forall k :: 0 <= k < |events| ==> events[k].now >= 0.0)
    && (forall i, j :: 0 <= i <= j < |events| ==> events[i].now <= events[j].now)
  }
}
