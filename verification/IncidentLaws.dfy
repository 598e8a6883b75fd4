/** Conservation of the counted warnings, and the bounds and contents of the daily files. */
module IncidentLaws {
  import opened Common
  import opened IncidentModel

  // ---- Conservation --------------------------------------------------------------

  /** Every warning counted in the first n events. */
  function Counted(events: seq<Event>, n: nat): multiset<Category>
    requires n <= |events|
  {
    if n == 0 then multiset{}
    else Counted(events, n - 1) + Hit(events[n - 1])
  }

  function Hit(e: Event): multiset<Category> {
    match e
    case Emit(own, category) => if own then multiset{} else multiset{category}
    case _ => multiset{}
  }

  /** The entries whose samples ended with a given answer of storage. */
  ghost function Ended(states: seq<Recorder>, events: seq<Event>, n: nat, written: bool): seq<Entry>
    requires IsRun(states, events) && n <= |events|
  {
    if n == 0 then []
    else
      var before := Ended(states, events, n - 1, written);
      match Answer(states[n - 1], events[n - 1])
      case Some(stored) =>
        if stored.Written? == written then before + [states[n - 1].inFlight.value.entry] else before
      case None => before
  }

  ghost function Recorded(states: seq<Recorder>, events: seq<Event>, n: nat): seq<Entry>
    requires IsRun(states, events) && n <= |events|
  {
    Ended(states, events, n, true)
  }

  ghost function Lost(states: seq<Recorder>, events: seq<Event>, n: nat): seq<Entry>
    requires IsRun(states, events) && n <= |events|
  {
    Ended(states, events, n, false)
  }

  function Patterns(entries: seq<Entry>): multiset<Category> {
    if entries == [] then multiset{} else Patterns(entries[..|entries| - 1]) + entries[|entries| - 1].patterns
  }

  function Pending(r: Recorder): multiset<Category> {
    r.counts + if r.inFlight.Some? then r.inFlight.value.entry.patterns else multiset{}
  }

  lemma PatternsGrow(entries: seq<Entry>, entry: Entry)
    ensures Patterns(entries + [entry]) == Patterns(entries) + entry.patterns
  {
    assert (entries + [entry])[..|entries|] == entries;
  }

  /** What finishing an append does to everything but the files. */
  lemma FinishMoves(r: Recorder, e: Event)
    requires Enabled(r, e) && e.Finish?
    ensures var s, written := Step(r, e), Answer(r, e) == Some(Written);
            && s.counts == r.counts && s.inFlight == None
            && s.dropped == (if written then r.dropped else r.dropped + 1)
            && s.previous == (if written then Some(r.inFlight.value.entry.context) else r.previous)
  {
  }

  /** An event moves warnings between the places that hold them, and adds only its own. */
  lemma PendingMoves(r: Recorder, e: Event)
    requires Enabled(r, e)
    ensures if e.Finish? then Pending(r) == Pending(Step(r, e)) + r.inFlight.value.entry.patterns && Hit(e) == multiset{}
            else Pending(Step(r, e)) == Pending(r) + Hit(e)
  {
    if e.Finish? {
      FinishMoves(r, e);
    }
  }

  /** The account after a step, from the one before it. */
  lemma Carry<T>(whole: multiset<T>, hit: multiset<T>, before: multiset<T>, after: multiset<T>, a: multiset<T>, b: multiset<T>)
    requires whole == before + a + b && after == before + hit
    ensures whole + hit == after + a + b
  {
  }

  lemma Regroup<T>(whole: multiset<T>, hit: multiset<T>, before: multiset<T>, after: multiset<T>, moved: multiset<T>,
                   a: multiset<T>, b: multiset<T>)
    requires whole == before + a + b && before == after + moved && hit == multiset{}
    ensures whole + hit == after + (a + moved) + b && whole + hit == after + a + (b + moved)
  {
  }

  lemma EndedGrows(states: seq<Recorder>, events: seq<Event>, n: nat, written: bool)
    requires IsRun(states, events) && n < |events| && events[n].Finish?
    ensures Ended(states, events, n + 1, written)
            == if (Answer(states[n], events[n]) == Some(Written)) == written
               then Ended(states, events, n, written) + [states[n].inFlight.value.entry]
               else Ended(states, events, n, written)
  {
  }

  lemma FinishBalances(states: seq<Recorder>, events: seq<Event>, n: nat, recorded: seq<Entry>, lost: seq<Entry>)
    requires IsRun(states, events) && n < |events| && events[n].Finish?
    requires recorded == Recorded(states, events, n) && lost == Lost(states, events, n)
    requires Counted(events, n) == Pending(states[n]) + Patterns(recorded) + Patterns(lost)
    ensures Counted(events, n + 1) == Pending(states[n + 1]) + Patterns(Recorded(states, events, n + 1))
                                                            + Patterns(Lost(states, events, n + 1))
  {
    var r, e := states[n], events[n];
    var entry := r.inFlight.value.entry;
    PendingMoves(r, e);
    EndedGrows(states, events, n, true);
    EndedGrows(states, events, n, false);
    PatternsGrow(recorded, entry);
    PatternsGrow(lost, entry);
    Regroup(Counted(events, n), Hit(e), Pending(r), Pending(states[n + 1]), entry.patterns, Patterns(recorded), Patterns(lost));
  }

  /** Every counted warning is in exactly one place: still pending, in an entry that was
      recorded, or in an entry that was lost. */
  lemma {:induction false} WarningsAreConserved(states: seq<Recorder>, events: seq<Event>, n: nat)
    requires IsRun(states, events) && n <= |events|
    ensures Counted(events, n)
            == Pending(states[n]) + Patterns(Recorded(states, events, n)) + Patterns(Lost(states, events, n))
  {
    if n > 0 {
      WarningsAreConserved(states, events, n - 1);
      var r, e := states[n - 1], events[n - 1];
      var recorded, lost := Recorded(states, events, n - 1), Lost(states, events, n - 1);
      if e.Finish? {
        FinishBalances(states, events, n - 1, recorded, lost);
      } else {
        PendingMoves(r, e);
        assert Answer(r, e) == None;
        Carry(Counted(events, n - 1), Hit(e), Pending(r), Pending(states[n]), Patterns(recorded), Patterns(lost));
      }
    }
  }

  /** Each lost entry was counted in `dropped`, and nothing else was. */
  lemma {:induction false} DroppedCountsLosses(states: seq<Recorder>, events: seq<Event>, n: nat)
    requires IsRun(states, events) && n <= |events|
    ensures states[n].dropped == |Lost(states, events, n)|
  {
    if n > 0 {
      DroppedCountsLosses(states, events, n - 1);
      if events[n - 1].Finish? {
        FinishMoves(states[n - 1], events[n - 1]);
        EndedGrows(states, events, n - 1, false);
      }
    }
  }

  lemma EndedStays(states: seq<Recorder>, events: seq<Event>, n: nat, written: bool)
    requires IsRun(states, events) && n < |events| && !events[n].Finish?
    ensures Ended(states, events, n + 1, written) == Ended(states, events, n, written)
  {
    assert Answer(states[n], events[n]) == None;
  }

  lemma NoFinishKeepsPrevious(r: Recorder, e: Event)
    requires Enabled(r, e) && !e.Finish?
    ensures Step(r, e).previous == r.previous
  {
  }

  lemma {:induction false} PreviousMeansRecorded(states: seq<Recorder>, events: seq<Event>, n: nat)
    requires IsRun(states, events) && n <= |events|
    ensures states[n].previous.Some? <==> Recorded(states, events, n) != []
  {
    if n > 0 {
      PreviousMeansRecorded(states, events, n - 1);
      if events[n - 1].Finish? {
        FinishMoves(states[n - 1], events[n - 1]);
        EndedGrows(states, events, n - 1, true);
      } else {
        NoFinishKeepsPrevious(states[n - 1], events[n - 1]);
        EndedStays(states, events, n - 1, true);
      }
    }
  }

  /** The entry being written, if there is one, was made of a recorder in this state. */
  ghost predicate KnowsItsPast(r: Recorder, dropped: nat, recorded: bool) {
    r.inFlight.Some? ==>
      r.inFlight.value.entry.droppedBefore == dropped && (r.inFlight.value.entry.started <==> !recorded)
  }

  lemma SampleKnowsItsPast(r: Recorder, e: Event)
    requires Enabled(r, e) && KnowsItsPast(r, r.dropped, r.previous.Some?)
    ensures KnowsItsPast(Step(r, e), Step(r, e).dropped, Step(r, e).previous.Some?)
  {
    if e.Finish? {
      FinishMoves(r, e);
    }
  }

  lemma {:induction false} SamplesKnowTheirPast(states: seq<Recorder>, events: seq<Event>, n: nat)
    requires IsRun(states, events) && n <= |events|
    ensures KnowsItsPast(states[n], states[n].dropped, states[n].previous.Some?)
  {
    if n > 0 {
      SamplesKnowTheirPast(states, events, n - 1);
      SampleKnowsItsPast(states[n - 1], events[n - 1]);
    }
  }

  /** The entry being written knows how many were lost before it, and calls itself the start
      of monitoring exactly when nothing was recorded before it. */
  lemma EntriesKnowTheirPast(states: seq<Recorder>, events: seq<Event>, n: nat)
    requires IsRun(states, events) && n <= |events|
    ensures states[n].previous.Some? <==> Recorded(states, events, n) != []
    ensures states[n].inFlight.Some? ==>
              && states[n].inFlight.value.entry.droppedBefore == |Lost(states, events, n)|
              && (states[n].inFlight.value.entry.started <==> Recorded(states, events, n) == [])
  {
    PreviousMeansRecorded(states, events, n);
    SamplesKnowTheirPast(states, events, n);
    DroppedCountsLosses(states, events, n);
  }

  // ---- Bounds --------------------------------------------------------------------

  ghost predicate Capped(files: map<Day, string>) {
    forall day :: day in files ==> |files[day]| <= 2_097_152
  }

  /** No file ever passes its cap, whatever storage and the clock do. */
  lemma {:induction false} FilesStayCapped(states: seq<Recorder>, events: seq<Event>, n: nat)
    requires IsRun(states, events) && n <= |events| && Capped(states[0].files)
    ensures Capped(states[n].files)
  {
    if n > 0 {
      FilesStayCapped(states, events, n - 1);
    }
  }

  ghost predicate Dated(files: map<Day, string>, today: Day) {
    forall day :: day in files ==> day <= today
  }

  ghost predicate DatesRise(events: seq<Event>) {
    forall i, j :: 0 <= i < j < |events| && events[i].Finish? && events[j].Finish? ==> events[i].today <= events[j].today
  }

  lemma {:induction false} DaysAreBounded(days: set<Day>, low: int, high: int)
    requires low <= high + 1 && forall day :: day in days ==> low <= day <= high
    ensures |days| <= high - low + 1
    decreases high - low + 1
  {
    if day :| day in days {
      DaysAreBounded(days - {high}, low, high - 1);
    } else {
      assert days == {};
    }
  }

  /** Storage let this append remove every file that is too old. */
  predicate RemovesAllOld(files: map<Day, string>, today: Day, fault: Fault) {
    fault.Unopened? ==> OldDays(files, today) <= fault.removed
  }

  lemma AppendKeepsOrAddsToday(files: map<Day, string>, today: Day, line: string, fault: Fault)
    ensures forall day :: day in Append(files, today, line, fault).0 ==>
              day == today || (day in files && (day < Cutoff(today) ==> fault.Unopened? && day !in fault.removed))
    ensures fault.Unopened? ==>
              forall day :: day in OldDays(files, today) && day !in fault.removed ==> day in Append(files, today, line, fault).0
  {
  }

  /** No file older than thirty days survives an append if and only if storage let it remove
      them all. An append that removes them and then cannot open its file is as good. */
  lemma NoOldFileSurvivesIff(files: map<Day, string>, today: Day, line: string, fault: Fault)
    ensures (forall day :: day in Append(files, today, line, fault).0 ==> day >= Cutoff(today))
       <==> RemovesAllOld(files, today, fault)
  {
    AppendKeepsOrAddsToday(files, today, line, fault);
    if fault.Unopened? && !RemovesAllOld(files, today, fault) {
      var day :| day in OldDays(files, today) && day !in fault.removed;
      assert day in Append(files, today, line, fault).0;
    }
  }

  /** An append removes no file of today or of the twenty-nine days before it, whatever storage
      does; and without a fault before the open it removes every older one. */
  lemma ThirtyDaysAreKept(files: map<Day, string>, today: Day, line: string, fault: Fault, day: Day)
    requires day in files
    ensures today - 29 <= day ==> day in Append(files, today, line, fault).0
    ensures today - 29 > day && !fault.Unopened? ==> day !in Append(files, today, line, fault).0
    ensures today - 29 <= day && day != today ==> Content(Append(files, today, line, fault).0, day) == files[day]
  {
  }

  /** At most thirty files survive an append that removes the old ones, if none is dated in
      the future. */
  lemma AppendBoundsFiles(files: map<Day, string>, today: Day, line: string, fault: Fault)
    requires Dated(files, today) && RemovesAllOld(files, today, fault)
    ensures |Append(files, today, line, fault).0| <= 30
  {
    var kept := Append(files, today, line, fault).0;
    NoOldFileSurvivesIff(files, today, line, fault);
    AppendKeepsOrAddsToday(files, today, line, fault);
    DaysAreBounded(kept.Keys, Cutoff(today), today);
    assert |kept| == |kept.Keys|;
  }

  lemma {:induction false} FilesStayDated(states: seq<Recorder>, events: seq<Event>, n: nat, today: Day)
    requires IsRun(states, events) && n <= |events| && DatesRise(events)
    requires forall i :: 0 <= i < n && events[i].Finish? ==> events[i].today <= today
    requires Dated(states[0].files, today)
    ensures Dated(states[n].files, today)
  {
    if n > 0 {
      FilesStayDated(states, events, n - 1, today);
    }
  }

  /** While the date never goes back, at most thirty files remain after any append of a run
      that storage lets remove the old ones. */
  lemma AtMostThirtyFiles(states: seq<Recorder>, events: seq<Event>, n: nat)
    requires IsRun(states, events) && n < |events| && DatesRise(events)
    requires events[n].Finish? && Dated(states[0].files, events[n].today)
    requires RemovesAllOld(states[n].files, events[n].today, events[n].fault)
    ensures |states[n + 1].files| <= 30
  {
    FilesStayDated(states, events, n, events[n].today);
    AppendBoundsFiles(states[n].files, events[n].today, states[n].inFlight.value.entry.text + "\n", events[n].fault);
  }

  /** One empty file for each of the first n days. */
  function EmptyFiles(n: nat): (files: map<Day, string>)
    ensures files.Keys == FirstDays(n)
  {
    map day | day in FirstDays(n) :: ""
  }

  function FirstDays(n: nat): (days: set<Day>)
    ensures |days| == n && forall day: nat :: day in days <==> day < n
  {
    if n == 0 then {} else FirstDays(n - 1) + {n - 1}
  }

  lemma StuckFileStays(files: map<Day, string>, today: Day, line: string)
    ensures Append(files, today, line, Unopened({})) == (files, Failed)
  {
    var none: set<Day> := {};
    assert files - (none * OldDays(files, today)) == files;
  }

  lemma StuckSample(files: map<Day, string>, sample: Sample, today: Day)
    ensures OnFinish(Fresh(files).(inFlight := Some(sample)), today, Unopened({})) == Fresh(files).(dropped := 1, failing := true)
  {
    StuckFileStays(files, today, sample.entry.text + "\n");
  }

  /** One sample of a fresh recorder that can remove nothing. */
  lemma StuckRun(files: map<Day, string>, today: Day) returns (states: seq<Recorder>, events: seq<Event>)
    ensures IsRun(states, events) && |events| == 2 && events[0].Begin? && events[1] == Finish(today, Unopened({}))
    ensures states[0].files == states[1].files == states[2].files == files
  {
    var sample := Sample(Entry(true, multiset{}, "", 0, ""), 0.0);
    events := [Begin("", 0.0, true, ""), Finish(today, Unopened({}))];
    states := [Fresh(files), Fresh(files).(inFlight := Some(sample)), Fresh(files).(dropped := 1, failing := true)];
    StuckSample(files, sample, today);
  }

  /** Where the bound fails: for any n above thirty there is a run of one sample, with a date
      that does not go back, after which n files remain because the oldest cannot be removed. */
  lemma StuckFileOutlivesRetention(n: nat) returns (states: seq<Recorder>, events: seq<Event>)
    requires n > 30
    ensures IsRun(states, events) && |events| == 2 && DatesRise(events)
    ensures events[1] == Finish(n - 1, Unopened({})) && Dated(states[0].files, n - 1)
    ensures !RemovesAllOld(states[1].files, n - 1, Unopened({}))
    ensures |states[2].files| == n
  {
    var files := EmptyFiles(n);
    states, events := StuckRun(files, n - 1);
    assert 0 in OldDays(files, n - 1);
    assert |files| == |files.Keys|;
  }

  // ---- Contents ------------------------------------------------------------------

  /** The complete lines of a text, and what follows the last newline. */
  function Lines(text: string): (lines: seq<string>)
    ensures text == "" ==> lines == []
  {
    if text == "" then []
    else if text[|text| - 1] == '\n' then Lines(text[..|text| - 1]) + [Tail(text[..|text| - 1])]
    else Lines(text[..|text| - 1])
  }

  function Tail(text: string): (tail: string)
    ensures '\n' !in tail
  {
    if text == "" || text[|text| - 1] == '\n' then "" else Tail(text[..|text| - 1]) + [text[|text| - 1]]
  }

  lemma {:induction false} PartOfLine(text: string, part: string)
    requires '\n' !in part
    ensures Lines(text + part) == Lines(text) && Tail(text + part) == Tail(text) + part
  {
    if part == "" {
      assert text + part == text;
    } else {
      var init, last := part[..|part| - 1], part[|part| - 1];
      assert last in part;
      PartOfLine(text, init);
      assert (text + part)[..|text + part| - 1] == text + init;
      assert Tail(text) + init + [last] == Tail(text) + part;
    }
  }

  lemma NewlineEndsLine(text: string)
    ensures Lines(text + "\n") == Lines(text) + [Tail(text)] && Tail(text + "\n") == ""
  {
    assert (text + "\n")[..|text|] == text;
  }

  /** A line joins whatever follows the last newline. */
  lemma LineJoinsTail(text: string, line: string)
    requires '\n' !in line
    ensures Lines(text + (line + "\n")) == Lines(text) + [Tail(text) + line] && Tail(text + (line + "\n")) == ""
  {
    PartOfLine(text, line);
    NewlineEndsLine(text + line);
    Joined(text, line, "\n");
  }

  /** A recorded entry can be read back as a line of its own if and only if the file had no
      cut-off line at its end. */
  lemma RecordedEntryIsReadable(files: map<Day, string>, today: Day, text: string, fault: Fault)
    requires '\n' !in text && Append(files, today, text + "\n", fault).1.Written?
    ensures var before, after := Content(files - OldDays(files, today), today), Append(files, today, text + "\n", fault).0[today];
            && |Lines(after)| == |Lines(before)| + 1
            && Lines(after)[..|Lines(before)|] == Lines(before)
            && (Lines(after)[|Lines(before)|] == text <==> Tail(before) == "")
  {
    LineJoinsTail(Content(files - OldDays(files, today), today), text);
  }

  /** An append that failed while writing is counted as lost. Its line is in the file
      nevertheless if and only if storage failed only after all of its bytes: only a
      failure inside the line leaves a cut-off line behind. */
  lemma LostEntryMayBeReadable(files: map<Day, string>, today: Day, text: string, bytes: nat)
    requires '\n' !in text && bytes <= |text| + 1
    requires Append(files, today, text + "\n", CutShort(bytes)).1.Failed?
    ensures var before, after := Content(files - OldDays(files, today), today), Append(files, today, text + "\n", CutShort(bytes)).0[today];
            && (Lines(after) == Lines(before) + [Tail(before) + text] <==> bytes == |text| + 1)
            && (bytes <= |text| ==> Lines(after) == Lines(before) && Tail(after) == Tail(before) + text[..bytes])
  {
    var before := Content(files - OldDays(files, today), today);
    if bytes == |text| + 1 {
      assert (text + "\n")[..bytes] == text + "\n";
      LineJoinsTail(before, text);
    } else {
      assert (text + "\n")[..bytes] == text[..bytes];
      PartOfLine(before, text[..bytes]);
    }
  }

  /** The lines that appends complete in the file of a day. */
  ghost function Appended(states: seq<Recorder>, events: seq<Event>, n: nat, day: Day): seq<string>
    requires IsRun(states, events) && n <= |events|
  {
    if n == 0 then []
    else
      var before := Appended(states, events, n - 1, day);
      if Completes(states[n - 1], events[n - 1], day) then before + [states[n - 1].inFlight.value.entry.text] else before
  }

  /** Does this event put its whole line into the file of the day? */
  predicate Completes(r: Recorder, e: Event, day: Day)
    requires Enabled(r, e)
  {
    && e.Finish? && e.today == day && !e.fault.Unopened?
    && HasRoom(r.files - OldDays(r.files, day), day, r.inFlight.value.entry.text + "\n")
    && (e.fault.CutShort? ==> e.fault.bytes == |r.inFlight.value.entry.text| + 1)
  }

  /** No append fails inside its line. */
  ghost predicate NeverTorn(states: seq<Recorder>, events: seq<Event>)
    requires IsRun(states, events)
  {
    forall i :: 0 <= i < |events| && events[i].Finish? && events[i].fault.CutShort? ==>
      events[i].fault.bytes == 0 || events[i].fault.bytes == |states[i].inFlight.value.entry.text| + 1
  }

  ghost predicate Retained(events: seq<Event>, n: nat, day: Day)
    requires n <= |events|
  {
    forall i :: 0 <= i < n && events[i].Finish? ==> day >= Cutoff(events[i].today)
  }

  lemma {:induction false} TextsHaveNoNewline(states: seq<Recorder>, events: seq<Event>, n: nat)
    requires IsRun(states, events) && n <= |events|
    ensures states[n].inFlight.Some? ==> '\n' !in states[n].inFlight.value.entry.text
  {
    if n > 0 {
      TextsHaveNoNewline(states, events, n - 1);
    }
  }

  lemma FinishExtendsDay(r: Recorder, e: Event, day: Day)
    requires Enabled(r, e) && e.Finish? && day >= Cutoff(e.today) && '\n' !in r.inFlight.value.entry.text
    requires e.fault.CutShort? ==> e.fault.bytes == 0 || e.fault.bytes == |r.inFlight.value.entry.text| + 1
    ensures var text, after := r.inFlight.value.entry.text, Content(Step(r, e).files, day);
            after == Content(r.files, day) + if Completes(r, e, day) then text + "\n" else ""
  {
    var line := r.inFlight.value.entry.text + "\n";
    assert line[..|line|] == line && line[..0] == "";
    assert Content(r.files - OldDays(r.files, e.today), day) == Content(r.files, day);
  }

  lemma FinishExtendsLines(r: Recorder, e: Event, day: Day)
    requires Enabled(r, e) && e.Finish? && day >= Cutoff(e.today) && '\n' !in r.inFlight.value.entry.text
    requires e.fault.CutShort? ==> e.fault.bytes == 0 || e.fault.bytes == |r.inFlight.value.entry.text| + 1
    requires Tail(Content(r.files, day)) == ""
    ensures Tail(Content(Step(r, e).files, day)) == ""
    ensures Lines(Content(Step(r, e).files, day))
            == Lines(Content(r.files, day)) + if Completes(r, e, day) then [r.inFlight.value.entry.text] else []
  {
    FinishExtendsDay(r, e, day);
    var content, text := Content(r.files, day), r.inFlight.value.entry.text;
    if Completes(r, e, day) {
      LineJoinsTail(content, text);
      assert "" + text == text;
    } else {
      assert content + "" == content;
    }
  }

  lemma AppendedGrows(states: seq<Recorder>, events: seq<Event>, n: nat, day: Day)
    requires IsRun(states, events) && n < |events|
    ensures Appended(states, events, n + 1, day)
            == Appended(states, events, n, day)
             + if Completes(states[n], events[n], day) then [states[n].inFlight.value.entry.text] else []
  {
  }

  lemma Joined<T>(a: seq<T>, b: seq<T>, c: seq<T>)
    ensures (a + b) + c == a + (b + c)
  {
  }

  lemma NoFinishKeepsFiles(r: Recorder, e: Event)
    requires Enabled(r, e) && !e.Finish?
    ensures Step(r, e).files == r.files
  {
  }

  lemma DayNext(states: seq<Recorder>, events: seq<Event>, n: nat, day: Day)
    requires IsRun(states, events) && n < |events| && NeverTorn(states, events) && Retained(events, n + 1, day)
    requires Tail(Content(states[n].files, day)) == ""
    ensures Tail(Content(states[n + 1].files, day)) == ""
    ensures Lines(Content(states[n + 1].files, day))
            == Lines(Content(states[n].files, day))
             + if Completes(states[n], events[n], day) then [states[n].inFlight.value.entry.text] else []
  {
    TextsHaveNoNewline(states, events, n);
    if events[n].Finish? {
      FinishExtendsLines(states[n], events[n], day);
    } else {
      NoFinishKeepsFiles(states[n], events[n]);
    }
  }

  /** While a day is retained and no append fails inside its line, the lines of its file are
      exactly the old ones and then those of the completed appends, in order. */
  lemma {:induction false} DayFileIsTheLog(states: seq<Recorder>, events: seq<Event>, n: nat, day: Day)
    requires IsRun(states, events) && n <= |events| && NeverTorn(states, events) && Retained(events, n, day)
    requires Tail(Content(states[0].files, day)) == ""
    ensures Tail(Content(states[n].files, day)) == ""
    ensures Lines(Content(states[n].files, day))
            == Lines(Content(states[0].files, day)) + Appended(states, events, n, day)
  {
    if n > 0 {
      DayFileIsTheLog(states, events, n - 1, day);
      DayNext(states, events, n - 1, day);
      AppendedGrows(states, events, n - 1, day);
      Joined(Lines(Content(states[0].files, day)), Appended(states, events, n - 1, day),
             if Completes(states[n - 1], events[n - 1], day) then [states[n - 1].inFlight.value.entry.text] else []);
    } else {
      assert Appended(states, events, 0, day) == [];
    }
  }

  // ---- When a sample is written ------------------------------------------------------

  /** A sample is passed over if and only if it is not forced, no warning was counted, nothing
      changed since the last recorded one, and that was less than an hour ago. */
  lemma SampleIsPassedOverIff(r: Recorder, e: Event)
    requires Enabled(r, e) && e.Begin?
    ensures var s := Step(r, e);
            && (s.inFlight.None? <==>
                  !e.force && r.counts == multiset{} && r.previous == Some(e.context) && e.now - r.lastWrite < 3600.0)
            && (s.inFlight.None? ==> s == r)
            && (s.inFlight.Some? ==>
                  s.counts == multiset{} && s.inFlight.value.now == e.now && s.inFlight.value.entry.patterns == r.counts
                  && s.inFlight.value.entry.context == e.context && s.inFlight.value.entry.text == e.text)
  {
  }

  /** The last sample of the first n events whose entry was recorded. */
  ghost function LastRecorded(states: seq<Recorder>, events: seq<Event>, n: nat): Option<Sample>
    requires IsRun(states, events) && n <= |events|
  {
    if n == 0 then None
    else if Answer(states[n - 1], events[n - 1]) == Some(Written) then states[n - 1].inFlight
    else LastRecorded(states, events, n - 1)
  }

  ghost predicate Remembers(r: Recorder, last: Option<Sample>) {
    match last
    case None => r.previous == None && r.lastWrite == 0.0
    case Some(sample) => r.previous == Some(sample.entry.context) && r.lastWrite == sample.now
  }

  lemma RemembersStep(r: Recorder, e: Event, last: Option<Sample>)
    requires Enabled(r, e) && Remembers(r, last)
    ensures Remembers(Step(r, e), if Answer(r, e) == Some(Written) then r.inFlight else last)
  {
  }

  /** What the recorder compares a sample with is the last recorded one and its time. */
  lemma {:induction false} LastRecordedIsRemembered(states: seq<Recorder>, events: seq<Event>, n: nat)
    requires IsRun(states, events) && n <= |events|
    ensures Remembers(states[n], LastRecorded(states, events, n))
  {
    if n > 0 {
      LastRecordedIsRemembered(states, events, n - 1);
      RemembersStep(states[n - 1], events[n - 1], LastRecorded(states, events, n - 1));
    }
  }

  /** What storage answers: it fails as it was made to; without a fault a line is written if and
      only if today's file keeps within its cap, and otherwise refused. */
  lemma AppendAnswers(files: map<Day, string>, today: Day, line: string, fault: Fault)
    requires fault.CutShort? ==> fault.bytes <= |line|
    ensures var (kept, stored), size := Append(files, today, line, fault), |Content(files, today)|;
            && (fault.Unopened? ==> stored.Failed?)
            && (!fault.Unopened? && size + |line| > 2_097_152 ==> stored.Refused? && Content(kept, today) == Content(files, today))
            && (fault.CutShort? && size + |line| <= 2_097_152 ==> stored.Failed?)
            && (fault.Sound? && size + |line| <= 2_097_152 ==> stored.Written? && Content(kept, today) == Content(files, today) + line)
  {
  }

  /** A storage error is on record exactly from a failed append until the next recorded one. */
  lemma FailureIsOnRecord(r: Recorder, e: Event)
    requires Enabled(r, e)
    ensures Step(r, e).failing <==> Answer(r, e) == Some(Failed) || (r.failing && Answer(r, e) != Some(Written))
  {
  }
}
