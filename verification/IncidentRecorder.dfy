/** The recorder object, proved to take the model's steps. */
module IncidentRecorder {
  import opened Common
  import Model = IncidentModel

  class IncidentRecorder {
    var counts: multiset<Model.Category>
    var previous: Option<Model.Context>
    var lastWrite: real
    var dropped: nat
    var failing: bool
    var inFlight: Option<Model.Sample>
    var files: map<Model.Day, string>

    ghost function View(): Model.Recorder
      reads this
    {
      Model.Recorder(counts, previous, lastWrite, dropped, failing, inFlight, files)
    }

    constructor (files: map<Model.Day, string>)
      ensures View() == Model.Fresh(files)
    {
      counts, previous, lastWrite, dropped, failing, inFlight := multiset{}, None, 0.0, 0, false, None;
      this.files := files;
    }

    method Emit(own: bool, category: Model.Category)
      modifies this`counts
      ensures View() == Model.Step(old(View()), Model.Emit(own, category))
    {
      if own {
        return;
      }
      counts := counts[category := counts[category] + 1];
    }

    /** A sample from taking the storage lock to handing its entry to the writing thread. */
    method BeginSample(context: Model.Context, now: real, force: bool, text: string)
      requires Model.Enabled(View(), Model.Begin(context, now, force, text))
      modifies this`counts, this`inFlight
      ensures View() == Model.Step(old(View()), Model.Begin(context, now, force, text))
    {
      var taken := counts;
      counts := multiset{};
      if !force && taken == multiset{} && previous == Some(context) && now - lastWrite < Model.QUIET_SECONDS {
        return;
      }
      inFlight := Some(Model.Sample(Model.Entry(previous.None?, taken, context, dropped, text), now));
    }

    /** Remove the files that are too old, stopping at the first one that cannot be removed. */
    method Prune(today: Model.Day, stuck: set<Model.Day>) returns (ok: bool, ghost removed: set<Model.Day>)
      modifies this`files
      ensures removed <= Model.OldDays(old(files), today) && files == old(files) - removed
      ensures ok ==> removed == Model.OldDays(old(files), today)
    {
      var cutoff := today - (Model.RETENTION_DAYS - 1);
      var rest := files.Keys;
      removed := {};
      while rest != {}
        invariant rest <= old(files).Keys
        invariant removed == Model.OldDays(old(files), today) - rest
        invariant files == old(files) - removed
      {
        var day :| day in rest;
        if day < cutoff {
          if day in stuck {
            return false, removed;
          }
          files := files - {day};
          removed := removed + {day};
        }
        rest := rest - {day};
      }
      ok := true;
    }

    /** Append a line to today's file. `reachable` says whether the file can be opened, and
        `room` how many bytes storage takes before it fails, if it does. */
    method Append(today: Model.Day, line: string, stuck: set<Model.Day>, reachable: bool, room: Option<nat>)
      returns (stored: Model.Stored, ghost fault: Model.Fault)
      modifies this`files
      ensures (files, stored) == Model.Append(old(files), today, line, fault)
      ensures fault.CutShort? ==> fault.bytes <= |line|
    {
      var pruned, gone := Prune(today, stuck);
      assert gone * Model.OldDays(old(files), today) == gone;
      if !pruned {
        return Model.Failed, Model.Unopened(gone);
      }
      var content := if today in files then files[today] else "";
      if |content| + |line| > Model.DAILY_BYTES {
        return Model.Refused, Model.Sound;
      }
      if !reachable {
        return Model.Failed, Model.Unopened(gone);
      }
      if room.Some? && room.value <= |line| {
        files := files[today := content + line[..room.value]];
        return Model.Failed, Model.CutShort(room.value);
      }
      files := files[today := content + line];
      return Model.Written, Model.Sound;
    }

    /** The append of the sample in flight and what the sample does with its answer. */
    method FinishSample(today: Model.Day, stuck: set<Model.Day>, reachable: bool, room: Option<nat>)
      returns (ghost fault: Model.Fault)
      requires inFlight.Some?
      modifies this
      ensures Model.Enabled(old(View()), Model.Finish(today, fault))
      ensures View() == Model.Step(old(View()), Model.Finish(today, fault))
    {
      var sample := inFlight.value;
      var stored, blame := Append(today, sample.entry.text + "\n", stuck, reachable, room);
      fault := blame;
      inFlight := None;
      match stored
      case Failed =>
        failing := true;
        dropped := dropped + 1;
      case Refused =>
        dropped := dropped + 1;
      case Written =>
        failing := false;
        previous := Some(sample.entry.context);
        lastWrite := sample.now;
    }
  }
}
