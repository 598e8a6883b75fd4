/**
 The incident recorder: warnings counted by category, samples that move the counts into an
 entry, and one file of lines per day. Emits may arrive between any two steps; a sample holds
 the storage lock from its start until its append has finished.
 */
module IncidentModel {
  import opened Common

  const RETENTION_DAYS := 30
  const DAILY_BYTES := 2 * 1024 * 1024
  const QUIET_SECONDS := 3600.0

  datatype Category =
    | ReconnectExhausted | ConnectionBusy | LinkUnreachable | SinkMissing | PlaybackFailure | BackendWarning

  type Context = string
  type Day = nat                          // counted from the first day of the calendar

  /** What a sample writes. The text is its line without the final newline. */
  datatype Entry = Entry(started: bool, patterns: multiset<Category>, context: Context, droppedBefore: nat, text: string)

  datatype Sample = Sample(entry: Entry, now: real)

  datatype Recorder = Recorder(
    counts: multiset<Category>,
    previous: Option<Context>,
    lastWrite: real,
    dropped: nat,
    failing: bool,                        // a storage error is on record
    inFlight: Option<Sample>,             // the sample that holds the storage lock
    files: map<Day, string>)

  /** How storage treats one append: it fails before the file is opened, with some of the old
      files removed; it fails later, with some of the line's bytes in the file; or not at all. */
  datatype Fault = Sound | Unopened(removed: set<Day>) | CutShort(bytes: nat)

  datatype Event =
    | Emit(own: bool, category: Category) // own: logged by the recorder itself
    | Begin(context: Context, now: real, force: bool, text: string)
    | Finish(today: Day, fault: Fault)

  function Fresh(files: map<Day, string>): Recorder {
    Recorder(multiset{}, None, 0.0, 0, false, None, files)
  }

  // ---- Storage -------------------------------------------------------------------

  function Cutoff(today: Day): int {
    today - (RETENTION_DAYS - 1)
  }

  function OldDays(files: map<Day, string>, today: Day): set<Day> {
    set day | day in files && day < Cutoff(today)
  }

  function Content(files: map<Day, string>, day: Day): string {
    if day in files then files[day] else ""
  }

  predicate HasRoom(files: map<Day, string>, today: Day, line: string) {
    |Content(files, today)| + |line| <= DAILY_BYTES
  }

  datatype Stored = Written | Refused | Failed

  /** One append: old files go, then the line joins today's file if it fits. */
  function Append(files: map<Day, string>, today: Day, line: string, fault: Fault): (map<Day, string>, Stored) {
    if fault.Unopened? then (files - (fault.removed * OldDays(files, today)), Failed)
    else
      var kept := files - OldDays(files, today);
      if !HasRoom(kept, today, line) then (kept, Refused)
      else if fault.CutShort? && fault.bytes <= |line| then
        (kept[today := Content(kept, today) + line[..fault.bytes]], Failed)
      else (kept[today := Content(kept, today) + line], Written)
  }

  // ---- Steps ---------------------------------------------------------------------

  function OnEmit(r: Recorder, own: bool, category: Category): Recorder {
    if own then r else r.(counts := r.counts + multiset{category})
  }

  predicate IsQuiet(r: Recorder, context: Context, now: real, force: bool) {
    !force && r.counts == multiset{} && r.previous == Some(context) && now - r.lastWrite < QUIET_SECONDS
  }

  function OnBegin(r: Recorder, context: Context, now: real, force: bool, text: string): Recorder {
    if IsQuiet(r, context, now, force) then r
    else
      var entry := Entry(r.previous.None?, r.counts, context, r.dropped, text);
      r.(counts := multiset{}, inFlight := Some(Sample(entry, now)))
  }

  function OnFinish(r: Recorder, today: Day, fault: Fault): Recorder
    requires r.inFlight.Some?
  {
    var sample := r.inFlight.value;
    var (files, stored) := Append(r.files, today, sample.entry.text + "\n", fault);
    var done := r.(inFlight := None, files := files);
    match stored
    case Written => done.(failing := false, previous := Some(sample.entry.context), lastWrite := sample.now)
    case Refused => done.(dropped := r.dropped + 1)
    case Failed => done.(dropped := r.dropped + 1, failing := true)
  }

  predicate Enabled(r: Recorder, e: Event) {
    match e
    case Emit(_, _) => true
    case Begin(_, _, _, text) => r.inFlight.None? && '\n' !in text
    case Finish(_, fault) => r.inFlight.Some? && (fault.CutShort? ==> fault.bytes <= |r.inFlight.value.entry.text| + 1)
  }

  function Step(r: Recorder, e: Event): Recorder
    requires Enabled(r, e)
  {
    match e
    case Emit(own, category) => OnEmit(r, own, category)
    case Begin(context, now, force, text) => OnBegin(r, context, now, force, text)
    case Finish(today, fault) => OnFinish(r, today, fault)
  }

  /** How storage answered the append that an event finished. */
  function Answer(r: Recorder, e: Event): Option<Stored>
    requires Enabled(r, e)
  {
    if e.Finish? then Some(Append(r.files, e.today, r.inFlight.value.entry.text + "\n", e.fault).1) else None
  }

  ghost predicate IsRun(states: seq<Recorder>, events: seq<Event>) {
    && |states| == |events| + 1
    && states[0] == Fresh(states[0].files)
    && forall i :: 0 <= i < |events| ==> Enabled(states[i], events[i]) && states[i + 1] == Step(states[i], events[i])
  }
}
