/** The sliding flap window, against the full record of armed dropouts. */
module ReconnectFlaps {
  import opened Common
  import opened ReconnectModel

  /** Every dropout armed for the registered profile, and which of them set the cooldown. */
  datatype DropLog = DropLog(armed: seq<real>, cleared: set<nat>)

  predicate ArmsNow(e: Engine, t: Timed) {
    t.event.Tick? && e.slot.Some? && Arms(e.slot.value.profile, t.now) && !e.slot.value.profile.state.CircuitBroken?
  }

  /** Is the cooldown set by a dropout armed at this time? */
  predicate SetsCooldown(p: Profile, now: real) {
    |Recent(p.flaps, now)| + 1 >= FLAP_LIMIT
  }

  function OneMore(drops: DropLog, p: Profile, now: real): DropLog {
    DropLog(drops.armed + [now], if SetsCooldown(p, now) then drops.cleared + {|drops.armed|} else drops.cleared)
  }

  function Noted(drops: DropLog, e: Engine, t: Timed): DropLog {
    if t.event.Unregister? || (t.event.SetGate? && !t.event.on) then DropLog([], {})
    else if ArmsNow(e, t) then
      OneMore(drops, e.slot.value.profile, t.now)
    else drops
  }

  /** The record of the first k events of a run. */
  ghost function DropsAt(states: seq<Engine>, events: seq<Timed>, k: nat): DropLog
    requires k <= |events| && |states| == |events| + 1
  {
    if k == 0 then DropLog([], {}) else Noted(DropsAt(states, events, k - 1), states[k - 1], events[k - 1])
  }

  // ---- The window ----------------------------------------------------------------

  ghost predicate Sorted(times: seq<real>) {
    forall i, j :: 0 <= i <= j < |times| ==> times[i] <= times[j]
  }

  /** Looking back twice is looking back from the later time. */
  lemma {:induction false} RecentTwice(times: seq<real>, now: real, later: real)
    requires now <= later
    ensures Recent(Recent(times, now), later) == Recent(times, later)
  {
    if times != [] {
      RecentTwice(times[1..], now, later);
      var rest := Recent(times[1..], now);
      if now - times[0] <= FLAP_WINDOW_SECONDS {
        assert Recent(times, now) == [times[0]] + rest && ([times[0]] + rest)[1..] == rest;
      } else {
        assert Recent(times, now) == [] + rest == rest;
        assert Recent(times, later) == [] + Recent(times[1..], later) == Recent(times[1..], later);
      }
    }
  }

  lemma {:induction false} RecentOfMore(times: seq<real>, one: real, now: real)
    ensures Recent(times + [one], now) == Recent(times, now) + Recent([one], now)
  {
    if times == [] {
      assert times + [one] == [one];
    } else {
      var rest, more := times[1..], times + [one];
      RecentOfMore(rest, one, now);
      assert more[0] == times[0] && more[1..] == rest + [one];
      var first := if now - times[0] <= FLAP_WINDOW_SECONDS then [times[0]] else [];
      assert Recent(more, now) == first + (Recent(rest, now) + Recent([one], now));
    }
  }

  /** In a sorted record, everything from a recent entry on is recent. */
  lemma {:induction false} RecentKeepsTail(times: seq<real>, j: nat, now: real)
    requires Sorted(times) && j < |times| && now - times[j] <= FLAP_WINDOW_SECONDS
    ensures |Recent(times, now)| >= |times| - j
  {
    if j == 0 {
      if |times| > 1 {
        assert times[0] <= times[1];
        RecentKeepsTail(times[1..], 0, now);
      }
    } else {
      RecentKeepsTail(times[1..], j - 1, now);
    }
  }

  // ---- The invariant -------------------------------------------------------------

  /** The dropouts armed since the last one that set the cooldown. */
  ghost predicate IsSinceClear(drops: DropLog, start: nat) {
    && start <= |drops.armed|
    && (forall k :: k in drops.cleared ==> k < start)
    && (start == 0 || start - 1 in drops.cleared)
  }

  ghost predicate WindowHolds(drops: DropLog, flaps: seq<real>, start: nat) {
    && IsSinceClear(drops, start)
    && (if drops.armed == [] then flaps == []
        else flaps == Recent(drops.armed[start..], drops.armed[|drops.armed| - 1]))
    && |flaps| < FLAP_LIMIT
  }

  /** No six dropouts armed within the window go without one that sets the cooldown. */
  ghost predicate NoSixUnchecked(drops: DropLog) {
    forall i, j :: 0 <= i < j < |drops.armed| && j == i + 5 && drops.armed[j] - drops.armed[i] <= 120.0 ==>
      exists k :: i <= k <= j && k in drops.cleared
  }

  ghost predicate Refines(drops: DropLog, e: Engine, now: real) {
    && Sorted(drops.armed)
    && (drops.armed != [] ==> drops.armed[|drops.armed| - 1] <= now)
    && NoSixUnchecked(drops)
    && (e.slot.Some? ==> exists start :: WindowHolds(drops, e.slot.value.profile.flaps, start))
    && (e.slot.None? ==> drops == DropLog([], {}))
  }

  /** What one more armed dropout does to the window. */
  lemma ArmingKeepsWindow(drops: DropLog, p: Profile, start: nat, now: real)
    requires Sorted(drops.armed) && (drops.armed != [] ==> drops.armed[|drops.armed| - 1] <= now)
    requires WindowHolds(drops, p.flaps, start)
    ensures WindowHolds(OneMore(drops, p, now), RecordFlap(p, now).flaps, if SetsCooldown(p, now) then |drops.armed| + 1 else start)
    ensures Recent(p.flaps, now) == Recent(drops.armed[start..], now)
  {
    if drops.armed != [] {
      RecentTwice(drops.armed[start..], drops.armed[|drops.armed| - 1], now);
    }
    RecentOfMore(drops.armed[start..], now, now);
    assert (drops.armed + [now])[start..] == drops.armed[start..] + [now];
    assert Recent([now], now) == [now];
  }

  lemma ArmingChecksSix(drops: DropLog, p: Profile, start: nat, now: real)
    requires Sorted(drops.armed) && (drops.armed != [] ==> drops.armed[|drops.armed| - 1] <= now)
    requires WindowHolds(drops, p.flaps, start) && NoSixUnchecked(drops)
    ensures NoSixUnchecked(OneMore(drops, p, now))
  {
    ArmingKeepsWindow(drops, p, start, now);
    var n := |drops.armed|;
    var more := OneMore(drops, p, now);
    forall i, j | 0 <= i < j < n + 1 && j == i + 5 && more.armed[j] - more.armed[i] <= FLAP_WINDOW_SECONDS
      ensures exists k :: i <= k <= j && k in more.cleared
    {
      if j < n {
        assert drops.armed[j] - drops.armed[i] <= FLAP_WINDOW_SECONDS;
        var k :| i <= k <= j && k in drops.cleared;
        assert k in more.cleared;
      } else if SetsCooldown(p, now) {
        assert n in more.cleared;
      } else {
        FiveRecentMeanClear(drops, p, start, now, i);
      }
    }
  }

  /** Five recent entries that did not set the cooldown hold one that did. */
  lemma FiveRecentMeanClear(drops: DropLog, p: Profile, start: nat, now: real, i: nat)
    requires Sorted(drops.armed) && IsSinceClear(drops, start)
    requires |drops.armed| == i + 5 && now - drops.armed[i] <= FLAP_WINDOW_SECONDS
    requires |Recent(drops.armed[start..], now)| + 1 < FLAP_LIMIT
    ensures exists k :: i <= k <= i + 5 && k in drops.cleared
  {
    if start <= i {
      var since := drops.armed[start..];
      assert since[i - start] == drops.armed[i];
      RecentKeepsTail(since, i - start, now);
    }
    assert start - 1 in drops.cleared;
  }

  lemma OtherEventsKeepFlaps(c: Config, e: Engine, t: Timed)
    requires Enabled(c, e, t.event) && !ArmsNow(e, t) && e.slot.Some?
    ensures var r := Step(c, e, t);
            && (r.slot.None? <==> t.event.Unregister? || (t.event.SetGate? && !t.event.on))
            && (r.slot.Some? ==>
                  && r.slot.value.profile.flaps == e.slot.value.profile.flaps
                  && r.slot.value.profile.cooldownUntil == e.slot.value.profile.cooldownUntil)
  {
  }

  lemma ArmingStep(c: Config, drops: DropLog, e: Engine, t: Timed)
    requires Refines(drops, e, t.now) && Enabled(c, e, t.event) && ArmsNow(e, t)
    ensures Refines(Noted(drops, e, t), Step(c, e, t), t.now)
  {
    var p := e.slot.value.profile;
    var start :| WindowHolds(drops, p.flaps, start);
    ArmingKeepsWindow(drops, p, start, t.now);
    ArmingChecksSix(drops, p, start, t.now);
    ArmingRecordsFlap(c, e, t);
    ArmingKeepsOrder(drops, p, t.now);
  }

  lemma ArmingRecordsFlap(c: Config, e: Engine, t: Timed)
    requires ArmsNow(e, t)
    ensures Step(c, e, t).slot.Some?
    ensures Step(c, e, t).slot.value.profile.flaps == RecordFlap(e.slot.value.profile, t.now).flaps
  {
  }

  lemma ArmingKeepsOrder(drops: DropLog, p: Profile, now: real)
    requires Sorted(drops.armed) && (drops.armed != [] ==> drops.armed[|drops.armed| - 1] <= now)
    ensures var more := OneMore(drops, p, now);
            Sorted(more.armed) && more.armed != [] && more.armed[|more.armed| - 1] <= now
  {
  }

  lemma FirstStep(c: Config, drops: DropLog, e: Engine, t: Timed)
    requires Refines(drops, e, t.now) && Enabled(c, e, t.event) && e.slot.None?
    ensures Refines(Noted(drops, e, t), Step(c, e, t), t.now)
  {
    var r := Step(c, e, t);
    assert r.slot.Some? ==> r.slot.value.profile.flaps == [];
    assert WindowHolds(DropLog([], {}), [], 0);
  }

  lemma RefinesStep(c: Config, drops: DropLog, e: Engine, t: Timed)
    requires Refines(drops, e, t.now) && Enabled(c, e, t.event)
    ensures Refines(Noted(drops, e, t), Step(c, e, t), t.now)
  {
    if e.slot.None? {
      FirstStep(c, drops, e, t);
    } else if ArmsNow(e, t) {
      ArmingStep(c, drops, e, t);
    } else {
      OtherEventsKeepFlaps(c, e, t);
    }
  }

  /** Over any run the stored flap times are exactly the dropouts armed since the last one
      that set the cooldown, as far as they lie within the window before the newest; there
      are never as many as the limit, and no six armed within the window go unchecked. */
  lemma {:induction false} FlapWindowRefinesRecord(c: Config, states: seq<Engine>, events: seq<Timed>, k: nat, now: real)
    requires IsRun(c, states, events) && k <= |events|
    requires k > 0 ==> events[k - 1].now <= now
    ensures Refines(DropsAt(states, events, k), states[k], now)
  {
    if k > 0 {
      FlapWindowRefinesRecord(c, states, events, k - 1, events[k - 1].now);
      RefinesStep(c, DropsAt(states, events, k - 1), states[k - 1], events[k - 1]);
    }
  }

  // ---- The cooldown --------------------------------------------------------------

  predicate StartsCooldown(e: Engine, t: Timed) {
    ArmsNow(e, t) && SetsCooldown(e.slot.value.profile, t.now)
  }

  /** The registered profile, if there is one, is held until a time. */
  predicate HeldUntil(e: Engine, until: real) {
    e.slot.Some? ==> e.slot.value.profile.cooldownUntil >= until
  }

  lemma CooldownBegins(c: Config, e: Engine, t: Timed)
    requires Enabled(c, e, t.event) && StartsCooldown(e, t)
    ensures HeldUntil(Step(c, e, t), t.now + FLAP_COOLDOWN_SECONDS)
    ensures !Schedules(e, t.now, t.event.delay)
  {
  }

  lemma CooldownStays(c: Config, e: Engine, t: Timed, until: real)
    requires Enabled(c, e, t.event) && e.slot.Some? && HeldUntil(e, until) && until <= t.now + FLAP_COOLDOWN_SECONDS
    ensures HeldUntil(Step(c, e, t), until)
  {
    if !ArmsNow(e, t) {
      OtherEventsKeepFlaps(c, e, t);
    }
  }

  lemma {:induction false} CooldownLasts(c: Config, states: seq<Engine>, events: seq<Timed>, m: nat, k: nat)
    requires IsRun(c, states, events) && m < k <= |events| && StartsCooldown(states[m], events[m])
    requires forall i :: m <= i < k ==> states[i].slot.Some?
    ensures HeldUntil(states[k], events[m].now + FLAP_COOLDOWN_SECONDS)
    decreases k
  {
    if k == m + 1 {
      CooldownBegins(c, states[m], events[m]);
    } else {
      CooldownLasts(c, states, events, m, k - 1);
      assert events[m].now <= events[k - 1].now;
      CooldownStays(c, states[k - 1], events[k - 1], events[m].now + FLAP_COOLDOWN_SECONDS);
    }
  }

  /** Over runs: once a dropout sets the cooldown, no tick schedules an attempt before it ends,
      the one that armed the dropout included, as long as the profile stays registered. */
  lemma CooldownHoldsAttempts(c: Config, states: seq<Engine>, events: seq<Timed>, m: nat, k: nat)
    requires IsRun(c, states, events) && m <= k < |events| && StartsCooldown(states[m], events[m])
    requires forall i :: m <= i <= k ==> states[i].slot.Some?
    requires events[k].event.Tick? && events[k].now < events[m].now + 60.0
    ensures !Schedules(states[k], events[k].now, events[k].event.delay)
  {
    if k == m {
      CooldownBegins(c, states[m], events[m]);
    } else {
      CooldownLasts(c, states, events, m, k);
      HeldIsNotDue(states[k], events[k].now, events[k].event.delay, events[m].now + FLAP_COOLDOWN_SECONDS);
    }
  }

  lemma HeldIsNotDue(e: Engine, now: real, delay: real, until: real)
    requires e.slot.Some? && HeldUntil(e, until) && now < until <= now + FLAP_COOLDOWN_SECONDS
    ensures !Schedules(e, now, delay)
  {
  }
}
