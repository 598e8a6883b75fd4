/**
 The engine object for one address. Each method is one stretch of the engine's code between
 two suspension points and is proved to take the model's step, with the delay that the
 logarithmic backoff calculation returns for the jitter drawn.
 */
module ReconnectEngine {
  import opened Common
  import opened Backoff
  import Model = ReconnectModel

  class SpeakerReconnectProfile {
    const id: nat
    var enabled: bool
    var state: Model.LinkState
    var consecutiveFailures: nat
    var backoffStep: nat
    var nextRetryTime: real
    var circuitBrokenUntil: real
    var disconnectedSince: Option<real>
    var connectedAt: real
    var suppressedFlaps: nat
    var flapTimes: seq<real>
    var cooldownUntil: real

    ghost function View(): Model.Profile
      reads this
    {
      Model.Profile(enabled, state, consecutiveFailures, backoffStep, nextRetryTime, circuitBrokenUntil,
                    disconnectedSince, connectedAt, suppressedFlaps, flapTimes, cooldownUntil)
    }

    constructor (id: nat, enabled: bool)
      ensures this.id == id && View() == Model.NewProfile(enabled)
    {
      this.id := id;
      this.enabled := enabled;
      state := Model.Idle;
      consecutiveFailures, backoffStep, suppressedFlaps := 0, 0, 0;
      nextRetryTime, circuitBrokenUntil, connectedAt, cooldownUntil := 0.0, 0.0, 0.0, 0.0;
      disconnectedSince := None;
      flapTimes := [];
    }
  }

  class AutoReconnectEngine {
    const config: Model.Config
    ghost const library: Library
    var globallyEnabled: bool
    var profile: SpeakerReconnectProfile?
    var nextProfile: nat
    var inflight: Option<nat>
    var owners: seq<nat>
    var attempts: map<nat, Model.Phase>

    ghost function View(): Model.Engine
      reads this, profile
    {
      Model.Engine(globallyEnabled,
                   if profile == null then None else Some(Model.Slot(profile.id, profile.View())),
                   nextProfile, inflight, owners, attempts)
    }

    ghost predicate Ready() {
      Legal(config.backoff) && Lawful(library)
    }

    constructor (config: Model.Config, ghost library: Library)
      requires Legal(config.backoff) && Lawful(library)
      ensures this.config == config && this.library == library
      ensures Ready() && View() == Model.INITIAL
    {
      this.config := config;
      this.library := library;
      globallyEnabled := true;
      profile := null;
      nextProfile := 0;
      inflight := None;
      owners := [];
      attempts := map[];
    }

    /** The delay for a step, with the jitter drawn for it. */
    ghost function Delay(step: nat, jitter: real): (delay: real)
      requires Ready() && 0.0 <= jitter <= BACKOFF_JITTER
      ensures Model.DelayFits(config, step, delay)
    {
      JitterIsBounded(config.backoff, library, step, jitter);
      BackoffDelay(config.backoff, library, step, jitter)
    }

    method RegisterSpeaker(enabled: bool)
      modifies this`profile, this`nextProfile, profile
      ensures View() == Model.RegisterSpeaker(old(View()), enabled)
      ensures profile == old(profile) || fresh(profile)
    {
      if !globallyEnabled {
        return;
      }
      if profile == null {
        profile := new SpeakerReconnectProfile(nextProfile, enabled);
        nextProfile := nextProfile + 1;
      } else {
        profile.enabled := enabled;
      }
    }

    method UnregisterSpeaker()
      modifies this`inflight, this`profile
      ensures View() == Model.UnregisterSpeaker(old(View()))
    {
      inflight := None;
      profile := null;
    }

    method SetGlobalEnabled(enabled: bool)
      modifies this
      ensures View() == Model.Step(config, old(View()), Model.Timed(0.0, Model.SetGate(enabled)))
    {
      globallyEnabled := enabled;
      if !enabled {
        UnregisterSpeaker();
      }
    }

    /** A device event. Looking up a missing profile with the gate closed raises. */
    method OnDeviceEvent(connected: bool, trustedSink: bool, now: real)
      modifies this, profile
      ensures View() == Model.OnReport(old(View()), connected, trustedSink, now)
    {
      if profile == null {
        if trustedSink {
          RegisterSpeaker(true);
        } else {
          return;
        }
      }
      if profile == null || !profile.enabled {
        return;
      }
      NoteReport(profile, connected, now);
    }

    method NoteReport(p: SpeakerReconnectProfile, connected: bool, now: real)
      modifies p
      ensures p.View() == if connected then Model.ReportConnected(old(p.View()), now) else Model.ReportDropped(old(p.View()), now)
    {
      if connected {
        if p.disconnectedSince != None {
          p.disconnectedSince := None;
          p.suppressedFlaps := p.suppressedFlaps + 1;
        }
        if p.state != Model.Connected {
          p.connectedAt := now;
        }
        p.state := Model.Connected;
        p.consecutiveFailures := 0;
        p.backoffStep := 0;
        p.nextRetryTime := 0.0;
        p.circuitBrokenUntil := 0.0;
      } else if p.disconnectedSince == None && (p.state == Model.Connected || p.state == Model.Idle) {
        p.disconnectedSince := Some(now);
      }
    }

    method RecordFlap(p: SpeakerReconnectProfile, now: real)
      modifies p`flapTimes, p`cooldownUntil
      ensures p.View() == Model.RecordFlap(old(p.View()), now)
    {
      p.flapTimes := Model.Recent(p.flapTimes, now);
      p.flapTimes := p.flapTimes + [now];
      if |p.flapTimes| < Model.FLAP_LIMIT {
        return;
      }
      p.flapTimes := [];
      p.cooldownUntil := now + Model.FLAP_COOLDOWN_SECONDS;
    }

    method ArmBackoff(p: SpeakerReconnectProfile, now: real, drawn: real)
      modifies p
      ensures p.View() == Model.ArmBackoff(old(p.View()), now, drawn)
    {
      RecordFlap(p, now);
      p.disconnectedSince := None;
      p.state := Model.BackingOff;
      var delay := drawn;
      if p.cooldownUntil > now {
        delay := Max(delay, p.cooldownUntil - now);
      }
      p.nextRetryTime := Max(Max(p.nextRetryTime, now + delay), p.circuitBrokenUntil);
    }

    /** One pass of the loop over the profile. It schedules an attempt when one is due and
        the attempt slot is free. */
    method Tick(now: real, drawn: real, ghost jitter: real)
      requires Ready() && 0.0 <= jitter <= BACKOFF_JITTER
      requires profile != null ==> drawn == Delay(profile.backoffStep, jitter)
      modifies this, profile
      ensures View() == Model.OnTick(old(View()), now, drawn)
      ensures old(View()).slot.Some? ==> Model.DelayFits(config, Model.DrawStep(old(View()), Model.Tick(drawn)), drawn)
    {
      if profile == null || !profile.enabled {
        return;
      }
      if now < profile.circuitBrokenUntil {
        return;
      }
      if profile.state == Model.CircuitBroken {
        profile.state := Model.BackingOff;
      }
      if profile.disconnectedSince != None && (profile.state == Model.Connected || profile.state == Model.Idle) {
        if now - profile.disconnectedSince.value < Model.GRACE_SECONDS {
          return;
        }
        ArmBackoff(profile, now, drawn);
      }
      ScheduleIfDue(now);
    }

    method ScheduleIfDue(now: real)
      requires profile != null && Model.Awake(profile.View(), now)
      modifies this`inflight, this`owners, this`attempts
      ensures var e := old(View());
              View() == if Model.Due(e.slot.value.profile, now) && Model.SlotFree(e) then Model.ScheduleAttempt(e) else e
    {
      if profile.state == Model.BackingOff && now >= profile.nextRetryTime && now >= profile.cooldownUntil
         && now - profile.connectedAt >= Model.SETTLE_SECONDS
      {
        if inflight == None || inflight.value !in attempts {
          attempts := attempts[|owners| := Model.Scheduled];
          inflight := Some(|owners|);
          owners := owners + [profile.id];
        }
      }
    }

    /** An attempt starts to run: it gives up unless its profile is still registered, is
        enabled and is not held by the breaker. */
    method BeginAttempt(attempt: nat, now: real)
      requires attempt in attempts && attempt < |owners|
      modifies this`attempts, profile
      ensures View() == Model.OnBegin(old(View()), attempt, now)
    {
      if profile == null || profile.id != owners[attempt] || !profile.enabled || now < profile.circuitBrokenUntil {
        attempts := attempts - {attempt};
        return;
      }
      profile.state := Model.Reconnecting;
      attempts := attempts[attempt := Model.Connecting];
    }

    /** An attempt ends. Unless its profile is still the registered one it changes nothing
        but its own life. */
    method EndAttempt(attempt: nat, outcome: Model.Outcome, now: real, drawn: real)
      requires attempt in attempts && attempt < |owners|
      modifies this`attempts, profile
      ensures View() == Model.OnEnd(config, old(View()), attempt, outcome, now, drawn)
    {
      attempts := attempts - {attempt};
      if profile == null || profile.id != owners[attempt] {
        return;
      }
      match outcome
      case Success =>
        profile.state := Model.Connected;
        profile.connectedAt := now;
        profile.disconnectedSince := None;
        profile.consecutiveFailures := 0;
        profile.backoffStep := 0;
        profile.nextRetryTime := 0.0;
        profile.circuitBrokenUntil := 0.0;
      case Cancelled =>
        profile.state := Model.BackingOff;
        profile.nextRetryTime :=
          Max(Max(Max(profile.nextRetryTime, now + drawn), profile.cooldownUntil), profile.circuitBrokenUntil);
      case Busy =>
        profile.disconnectedSince := None;
        profile.state := Model.BackingOff;
        profile.nextRetryTime :=
          Max(Max(Max(Max(profile.nextRetryTime, now + drawn), now + Model.SETTLE_SECONDS), profile.cooldownUntil),
              profile.circuitBrokenUntil);
      case Failure =>
        RecordFailure(now, drawn);
    }

    method RecordFailure(now: real, drawn: real)
      requires profile != null
      modifies profile
      ensures profile.View() == Model.FailAttempt(config, old(profile.View()), now, drawn)
    {
      profile.consecutiveFailures := profile.consecutiveFailures + 1;
      profile.backoffStep := profile.backoffStep + 1;
      if profile.consecutiveFailures >= config.maxFailures {
        profile.state := Model.CircuitBroken;
        profile.circuitBrokenUntil := Max(profile.circuitBrokenUntil, now + config.breakerCooldown);
      } else {
        profile.state := Model.BackingOff;
      }
      profile.nextRetryTime :=
        Max(Max(Max(profile.nextRetryTime, now + drawn), profile.cooldownUntil), profile.circuitBrokenUntil);
    }

    /** The done callback frees the slot only for the attempt that is in it. */
    method ReleaseInflight(attempt: nat)
      modifies this`inflight
      ensures View() == Model.Step(config, old(View()), Model.Timed(0.0, Model.Release(attempt)))
    {
      if inflight == Some(attempt) {
        inflight := None;
      }
    }
  }
}
