/**
 The playback timeline of one speaker: a position, and the moment its clock last started if
 it runs. Times are reals on a clock that does not go back.
 */
module Timeline {
  import opened Common

  datatype Entry = Entry(position: real, clockStartedAt: Option<real>, duration: Option<real>, url: string)

  datatype Action =
    | Start(url: string)
    | Pause
    | Resume
    | Clear
    | Probed(url: string, current: bool, duration: Option<real>)

  datatype Event = Event(at: real, action: Action)

  function AtLeastZero(x: real): real {
    if x < 0.0 then 0.0 else x
  }

  function Position(entry: Entry, now: real): real {
    AtLeastZero(entry.position + if entry.clockStartedAt.Some? then now - entry.clockStartedAt.value else 0.0)
  }

  function Reported(entry: Entry, now: real): real {
    if entry.duration.Some? && entry.duration.value < Position(entry, now) then entry.duration.value else Position(entry, now)
  }

  function OnPause(entry: Entry, now: real): Entry {
    if entry.clockStartedAt.None? then entry else entry.(position := Position(entry, now), clockStartedAt := None)
  }

  function OnResume(entry: Entry, now: real): Entry {
    if entry.clockStartedAt.Some? then entry else entry.(clockStartedAt := Some(now))
  }

  /** A probe's duration counts only if its generation is current and its stream still plays. */
  function OnProbed(entry: Entry, url: string, current: bool, duration: Option<real>): Entry {
    if !current || entry.url != url || duration.None? then entry else entry.(duration := duration)
  }

  function Apply(timeline: Option<Entry>, e: Event): Option<Entry> {
    if e.action.Start? then Some(Entry(0.0, Some(e.at), None, e.action.url))
    else if e.action.Clear? || timeline.None? then None
    else
      match e.action
      case Pause => Some(OnPause(timeline.value, e.at))
      case Resume => Some(OnResume(timeline.value, e.at))
      case Probed(url, current, duration) => Some(OnProbed(timeline.value, url, current, duration))
  }

  function After(events: seq<Event>, n: nat): Option<Entry>
    requires n <= |events|
  {
    if n == 0 then None else Apply(After(events, n - 1), events[n - 1])
  }

  ghost predicate ClockRises(events: seq<Event>) {
    forall i, j :: 0 <= i < j < |events| ==> events[i].at <= events[j].at
  }

  // ---- Unpaused time -------------------------------------------------------------

  /** The timeline of the first n events was started at event s, and not started again or
      cleared since. */
  predicate StartedAt(events: seq<Event>, s: nat, n: nat)
    requires n <= |events|
  {
    && s < n && events[s].action.Start?
    && forall i :: s < i < n ==> !events[i].action.Start? && !events[i].action.Clear?
  }

  /** Some start or resume since event s has not been followed by a pause. */
  predicate Unpaused(events: seq<Event>, s: nat, n: nat)
    requires s < n <= |events|
  {
    exists k :: s <= k < n && (events[k].action.Start? || events[k].action.Resume?)
                && forall j :: k < j < n ==> !events[j].action.Pause?
  }

  /** The unpaused time between events s and n - 1, interval by interval. */
  function Played(events: seq<Event>, s: nat, n: nat): real
    requires s < n <= |events|
  {
    if n == s + 1 then 0.0
    else Played(events, s, n - 1) + if Unpaused(events, s, n - 1) then events[n - 1].at - events[n - 2].at else 0.0
  }

  /** The same up to a moment after the last event. */
  function PlayedBy(events: seq<Event>, s: nat, n: nat, now: real): real
    requires s < n <= |events|
  {
    Played(events, s, n) + if Unpaused(events, s, n) then now - events[n - 1].at else 0.0
  }

  lemma UnpausedStep(events: seq<Event>, s: nat, n: nat)
    requires s + 1 < n <= |events| && !events[n - 1].action.Start?
    ensures Unpaused(events, s, n) <==>
              events[n - 1].action.Resume? || (Unpaused(events, s, n - 1) && !events[n - 1].action.Pause?)
  {
    if events[n - 1].action.Resume? {
      assert Unpaused(events, s, n);
    } else if Unpaused(events, s, n - 1) && !events[n - 1].action.Pause? {
      var k :| s <= k < n - 1 && (events[k].action.Start? || events[k].action.Resume?)
               && forall j :: k < j < n - 1 ==> !events[j].action.Pause?;
      assert forall j :: k < j < n ==> !events[j].action.Pause?;
    }
  }

  lemma {:induction false} PlayedIsNotNegative(events: seq<Event>, s: nat, n: nat)
    requires s < n <= |events| && ClockRises(events)
    ensures Played(events, s, n) >= 0.0
  {
    if n > s + 1 {
      PlayedIsNotNegative(events, s, n - 1);
    }
  }

  lemma {:induction false} EntryMatches(events: seq<Event>, s: nat, n: nat)
    requires n <= |events| && ClockRises(events) && StartedAt(events, s, n)
    ensures After(events, n).Some?
    ensures var entry := After(events, n).value;
            && (entry.clockStartedAt.Some? <==> Unpaused(events, s, n))
            && (entry.clockStartedAt.Some? ==> entry.clockStartedAt.value <= events[n - 1].at)
            && entry.position >= 0.0
            && entry.url == events[s].action.url
            && (forall now :: now >= events[n - 1].at ==> Position(entry, now) == PlayedBy(events, s, n, now))
  {
    if n == s + 1 {
      assert Unpaused(events, s, n);
    } else {
      EntryMatches(events, s, n - 1);
      UnpausedStep(events, s, n);
      PlayedIsNotNegative(events, s, n);
      assert events[n - 2].at <= events[n - 1].at;
      assert Position(After(events, n - 1).value, events[n - 1].at) == PlayedBy(events, s, n - 1, events[n - 1].at) == Played(events, s, n);
    }
  }

  /** The position is the total unpaused time since the last start, however often the stream
      was paused or resumed in between. */
  lemma PositionIsUnpausedTime(events: seq<Event>, s: nat, n: nat, now: real)
    requires n <= |events| && ClockRises(events) && StartedAt(events, s, n) && now >= events[n - 1].at
    ensures After(events, n).Some? && Position(After(events, n).value, now) == PlayedBy(events, s, n, now)
  {
    EntryMatches(events, s, n);
  }

  /** There is a timeline exactly when some start has not been followed by a clear. */
  lemma {:induction false} TimelineExists(events: seq<Event>, n: nat)
    requires n <= |events|
    ensures After(events, n).Some? <==> exists s :: StartedAt(events, s, n)
  {
    if n > 0 {
      TimelineExists(events, n - 1);
      var last := events[n - 1].action;
      if last.Start? {
        assert StartedAt(events, n - 1, n);
      } else if !last.Clear? && After(events, n - 1).Some? {
        var s :| StartedAt(events, s, n - 1);
        assert StartedAt(events, s, n);
      } else if s :| StartedAt(events, s, n) {
        assert last.Clear? || StartedAt(events, s, n - 1);
      }
    }
  }

  lemma {:induction false} PlayedGrows(events: seq<Event>, s: nat, n: nat, later: nat, now: real, until: real)
    requires s < n <= later <= |events| && ClockRises(events)
    requires events[n - 1].at <= now && (later > n ==> now <= events[n].at)
    requires events[later - 1].at <= until && now <= until
    ensures PlayedBy(events, s, n, now) <= PlayedBy(events, s, later, until)
    decreases later
  {
    if later > n {
      assert later - 1 == n || events[n].at <= events[later - 1].at;
      PlayedGrows(events, s, n, later - 1, now, events[later - 1].at);
    }
  }

  /** Until the next start the position never goes back. */
  lemma PositionNeverGoesBack(events: seq<Event>, s: nat, n: nat, later: nat, now: real, until: real)
    requires n <= later <= |events| && ClockRises(events) && StartedAt(events, s, n) && StartedAt(events, s, later)
    requires events[n - 1].at <= now && (later > n ==> now <= events[n].at)
    requires events[later - 1].at <= until && now <= until
    ensures After(events, n).Some? && After(events, later).Some?
    ensures Position(After(events, n).value, now) <= Position(After(events, later).value, until)
  {
    EntryMatches(events, s, n);
    EntryMatches(events, s, later);
    PlayedGrows(events, s, n, later, now, until);
  }

  /** The reported position is capped by a known duration, so a duration that arrives late can
      pull it back. It does not go back if and only if the duration known later is no
      shorter than what was reported before. */
  lemma ReportNeverGoesBackIff(events: seq<Event>, s: nat, n: nat, later: nat, now: real, until: real)
    requires n <= later <= |events| && ClockRises(events) && StartedAt(events, s, n) && StartedAt(events, s, later)
    requires events[n - 1].at <= now && (later > n ==> now <= events[n].at)
    requires events[later - 1].at <= until && now <= until
    ensures After(events, n).Some? && After(events, later).Some?
    ensures var before, after := After(events, n).value, After(events, later).value;
            Reported(before, now) <= Reported(after, until)
            <==> (after.duration.None? || Reported(before, now) <= after.duration.value)
  {
    PositionNeverGoesBack(events, s, n, later, now, until);
  }

  /** A report that does go back: four seconds in, a probe finds a duration of three. */
  lemma LateDurationPullsBack()
    ensures exists events, n: nat, later: nat, now, until ::
              && n <= later <= |events| && ClockRises(events)
              && StartedAt(events, 0, n) && StartedAt(events, 0, later) && now <= until
              && After(events, n).Some? && After(events, later).Some?
              && Reported(After(events, n).value, now) > Reported(After(events, later).value, until)
  {
    var events := [Event(0.0, Start("u")), Event(4.0, Probed("u", true, Some(3.0)))];
    assert After(events, 1) == Some(Entry(0.0, Some(0.0), None, "u"));
    assert After(events, 2) == Some(Entry(0.0, Some(0.0), Some(3.0), "u"));
    assert StartedAt(events, 0, 1) && StartedAt(events, 0, 2);
    assert Reported(After(events, 1).value, 4.0) == 4.0 && Reported(After(events, 2).value, 4.0) == 3.0;
  }

  /** The duration of a timeline was probed for its own stream, by a probe that was current. */
  lemma {:induction false} DurationIsItsOwn(events: seq<Event>, s: nat, n: nat)
    requires n <= |events| && ClockRises(events) && StartedAt(events, s, n)
    ensures After(events, n).Some? && (After(events, n).value.duration.Some? ==>
              exists i :: s < i < n && events[i].action == Probed(events[s].action.url, true, After(events, n).value.duration))
  {
    EntryMatches(events, s, n);
    if n > s + 1 {
      DurationIsItsOwn(events, s, n - 1);
      EntryMatches(events, s, n - 1);
    }
  }

  /** A current probe of the stream that event s started, with a duration. */
  predicate Measures(events: seq<Event>, s: nat, i: nat)
    requires s < |events| && events[s].action.Start? && i < |events|
  {
    var action := events[i].action;
    action.Probed? && action.current && action.url == events[s].action.url && action.duration.Some?
  }

  lemma DurationStep(events: seq<Event>, s: nat, n: nat)
    requires n < |events| && ClockRises(events) && StartedAt(events, s, n + 1) && s < n
    ensures After(events, n).Some? && After(events, n + 1).Some?
    ensures After(events, n + 1).value.duration
            == if Measures(events, s, n) then events[n].action.duration else After(events, n).value.duration
  {
    EntryMatches(events, s, n);
    EntryMatches(events, s, n + 1);
  }

  /** Event i is the latest such probe among the first n events. */
  predicate MeasuresLast(events: seq<Event>, s: nat, i: nat, n: nat)
    requires s < |events| && events[s].action.Start? && i < n <= |events|
  {
    Measures(events, s, i) && forall j :: i < j < n ==> !Measures(events, s, j)
  }

  /** The duration is that of the latest such probe since the start ... */
  lemma {:induction false} DurationIsTheLatest(events: seq<Event>, s: nat, i: nat, n: nat)
    requires s < i < n <= |events| && ClockRises(events) && StartedAt(events, s, n) && MeasuresLast(events, s, i, n)
    ensures After(events, n).Some? && After(events, n).value.duration == events[i].action.duration
    decreases n
  {
    DurationStep(events, s, n - 1);
    if i < n - 1 {
      DurationIsTheLatest(events, s, i, n - 1);
    }
  }

  /** ... and unknown before any. */
  lemma {:induction false} DurationIsUnknownBefore(events: seq<Event>, s: nat, n: nat)
    requires n <= |events| && ClockRises(events) && StartedAt(events, s, n)
    requires forall i :: s < i < n ==> !Measures(events, s, i)
    ensures After(events, n).Some? && After(events, n).value.duration == None
  {
    if n == s + 1 {
      EntryMatches(events, s, n);
    } else {
      DurationIsUnknownBefore(events, s, n - 1);
      DurationStep(events, s, n - 1);
    }
  }

  // ---- The object ----------------------------------------------------------------

  class MediaTimeline {
    var timeline: Option<Entry>

    constructor ()
      ensures timeline == After([], 0)
    {
      timeline := None;
    }

    method StartTimeline(url: string, now: real)
      modifies this
      ensures timeline == Apply(old(timeline), Event(now, Start(url)))
    {
      timeline := Some(Entry(0.0, Some(now), None, url));
    }

    method PauseTimeline(now: real)
      modifies this
      ensures timeline == Apply(old(timeline), Event(now, Pause))
    {
      if timeline.None? || timeline.value.clockStartedAt.None? {
        return;
      }
      var position := TimelinePosition(now);
      timeline := Some(timeline.value.(position := position, clockStartedAt := None));
    }

    method ResumeTimeline(now: real)
      modifies this
      ensures timeline == Apply(old(timeline), Event(now, Resume))
    {
      if timeline.None? || timeline.value.clockStartedAt.Some? {
        return;
      }
      timeline := Some(timeline.value.(clockStartedAt := Some(now)));
    }

    method ClearTimeline(now: real)
      modifies this
      ensures timeline == Apply(old(timeline), Event(now, Clear))
    {
      timeline := None;
    }

    method ProbeAnswered(url: string, current: bool, duration: Option<real>, now: real)
      modifies this
      ensures timeline == Apply(old(timeline), Event(now, Probed(url, current, duration)))
    {
      if !current || timeline.None? || timeline.value.url != url {
        return;
      }
      if duration.Some? {
        timeline := Some(timeline.value.(duration := duration));
      }
    }

    method TimelinePosition(now: real) returns (position: real)
      requires timeline.Some?
      ensures position == Position(timeline.value, now)
    {
      position := timeline.value.position;
      if timeline.value.clockStartedAt.Some? {
        position := position + (now - timeline.value.clockStartedAt.value);
      }
      if position < 0.0 {
        position := 0.0;
      }
    }

    /** The position to report, before rounding: at most the duration, if that is known. */
    method GetTimeline(now: real) returns (position: Option<real>)
      ensures position == if timeline.None? then None else Some(Reported(timeline.value, now))
    {
      if timeline.None? {
        return None;
      }
      var elapsed := TimelinePosition(now);
      if timeline.value.duration.Some? && timeline.value.duration.value < elapsed {
        elapsed := timeline.value.duration.value;
      }
      position := Some(elapsed);
    }
  }
}
