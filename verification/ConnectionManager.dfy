/**
 The manager object. Each method is a signal handler, or one stretch of a coroutine between
 two suspension points, and is proved to take the model's step.
 */
module ConnectionManager {
  import opened Common
  import Model = ConnectionModel

  class BluetoothManager {
    var devices: map<Model.Path, nat>
    var records: seq<Model.Device>
    var locks: map<string, nat>
    var tasks: map<nat, Model.Task>
    var nextTask: nat

    ghost function View(): Model.Manager
      reads this
    {
      Model.Manager(devices, records, locks, tasks, nextTask)
    }

    ghost predicate Valid()
      reads this
    {
      Model.Sound(View())
    }

    constructor ()
      ensures View() == Model.INITIAL
    {
      devices, records, locks, tasks, nextTask := map[], [], map[], map[], 0;
    }

    predicate IsCurrent(r: nat)
      reads this
      ensures IsCurrent(r) <==> Model.Usable(View(), r)
    {
      r < |records| && !records[r].detached && records[r].path in devices && devices[records[r].path] == r
    }

    // ---- Records -----------------------------------------------------------------

    /** Some mapped record of the address, or none if no mapped record has it. */
    method GetDeviceByAddress(address: Model.Address) returns (found: Option<nat>)
      requires Valid()
      ensures found.Some? ==> found.value < |records|
      ensures forall adapters, goal :: Model.Enabled(View(), Model.Start(address, found, adapters, goal))
    {
      found := None;
      var rest := devices.Keys;
      while rest != {}
        invariant rest <= devices.Keys
        invariant forall path :: path in devices && path !in rest ==> records[devices[path]].address != address
      {
        var path :| path in rest;
        if records[devices[path]].address == address {
          return Some(devices[path]);
        }
        rest := rest - {path};
      }
    }

    /** Exactly the offline records of the device's address at other paths are forgotten. */
    method DropDetachedDuplicates(device: Model.Device)
      requires Valid()
      modifies this`devices
      ensures devices == Model.WithoutDuplicates(old(View()), device)
    {
      var items := devices;
      var rest := items.Keys;
      while rest != {}
        invariant rest <= items.Keys
        invariant devices == map path | path in items && (path in rest || !Model.IsDuplicate(old(View()), path, device)) :: items[path]
      {
        var path :| path in rest;
        var other := records[items[path]];
        if path != device.path && other.detached && other.address == device.address {
          devices := devices - {path};
        }
        rest := rest - {path};
      }
    }

    method Insert(device: Model.Device) returns (r: nat)
      requires Valid()
      modifies this`devices, this`records
      ensures View() == Model.Insert(old(View()), device) && r == |old(records)|
    {
      r := |records|;
      DropDetachedDuplicates(device);
      records := records + [device];
      devices := devices[device.path := r];
    }

    method MarkDetached(r: nat)
      requires r < |records|
      modifies this`records
      ensures View() == Model.Detach(old(View()), r)
    {
      records := records[r := records[r].(detached := true, connected := false)];
    }

    method OnInterfacesAdded(path: Model.Path, properties: Model.Properties)
      requires Valid()
      modifies this`devices, this`records
      ensures View() == Model.Step(old(View()), Model.Added(path, properties)).0
    {
      var _ := Insert(Model.NewDevice(path, properties));
    }

    method OnInterfacesRemoved(path: Model.Path)
      requires Valid()
      modifies this`devices, this`records
      ensures View() == Model.Step(old(View()), Model.Removed(path)).0
    {
      if path in devices {
        if records[devices[path]].known {
          MarkDetached(devices[path]);
          return;
        }
        devices := devices - {path};
      }
    }

    method OnPropertiesChanged(path: Model.Path, properties: Model.Properties)
      requires Valid()
      modifies this`devices, this`records
      ensures View() == Model.Step(old(View()), Model.Changed(path, properties)).0
    {
      if path in devices {
        var r := devices[path];
        records := records[r := records[r].(connected := properties.connected, known := properties.known)];
      } else {
        var _ := Insert(Model.NewDevice(path, properties));
      }
    }

    /** The transport is gone, and every record with it. */
    method MarkDbusDisconnected()
      requires Valid()
      modifies this`devices
      ensures View() == Model.Step(old(View()), Model.Lost).0
    {
      devices := map[];
    }

    // ---- Tasks -------------------------------------------------------------------

    method Leave(t: nat)
      modifies this`tasks, this`locks
      ensures View() == Model.Exit(old(View()), t)
    {
      if t in tasks && !tasks[t].Resolving? {
        locks := locks - {tasks[t].adapter};
      }
      tasks := tasks - {t};
    }

    method Conclude(t: nat, found: Option<nat>, goal: Model.Goal) returns (outcome: Model.Outcome)
      requires found.Some? ==> found.value < |records|
      modifies this`tasks, this`locks
      ensures (View(), outcome) == Model.Conclude(old(View()), t, found, goal)
    {
      match goal
      case JustResolve =>
        Leave(t);
        outcome := Model.Resolved(found);
      case Connect(reset) =>
        if found.None? {
          Leave(t);
          outcome := Model.Raised;
        } else {
          outcome := TakeAdapter(t, found.value, reset);
        }
    }

    /** connect_device from the resolved device up to stopping the scan. */
    method TakeAdapter(t: nat, r: nat, reset: bool) returns (outcome: Model.Outcome)
      requires r < |records|
      modifies this`tasks, this`locks
      ensures (View(), outcome) == Model.Own(old(View()), t, r, reset)
    {
      var adapter := records[r].adapterName;
      if !Model.IsAdapterName(adapter) || adapter in locks || !IsCurrent(r) {
        Leave(t);
        return Model.Raised;
      }
      if records[r].connected && !reset {
        Leave(t);
        return Model.ConnectedTo(r);
      }
      locks := locks[adapter := t];
      tasks := tasks[t := Model.Scanning(r, adapter, reset)];
      outcome := Model.Pending;
    }

    /** ensure_device, and connect_device around it, up to the first wait. */
    method EnsureDevice(address: Model.Address, adapters: seq<Model.Path>, goal: Model.Goal)
      returns (outcome: Model.Outcome, ghost found: Option<nat>)
      requires Valid()
      modifies this
      ensures Model.Enabled(old(View()), Model.Start(address, found, adapters, goal))
      ensures (View(), outcome) == Model.Step(old(View()), Model.Start(address, found, adapters, goal))
    {
      var device := GetDeviceByAddress(address);
      found := device;
      var t := nextTask;
      nextTask := nextTask + 1;
      if device.Some? && !records[device.value].detached {
        tasks := tasks[t := Model.Resolving(address, [], goal)];
        outcome := Conclude(t, device, goal);
      } else if adapters == [] {
        tasks := tasks[t := Model.Resolving(address, [], goal)];
        outcome := Conclude(t, None, goal);
      } else {
        tasks := tasks[t := Model.Resolving(address, adapters, goal)];
        outcome := Model.Pending;
      }
    }

    /** BlueZ answers for the object under the adapter being asked, or fails. */
    method ObjectAnswered(t: nat, answer: Option<Model.Properties>) returns (outcome: Model.Outcome)
      requires Valid() && Model.Enabled(View(), Model.Reply(t, answer))
      modifies this
      ensures (View(), outcome) == Model.Step(old(View()), Model.Reply(t, answer))
    {
      var task := tasks[t];
      if answer.None? {
        if |task.adapters| > 1 {
          tasks := tasks[t := task.(adapters := task.adapters[1..])];
          return Model.Pending;
        }
        outcome := Conclude(t, None, task.goal);
        return;
      }
      var path := Model.ObjectPath(task.adapters[0], task.address);
      if path in devices && !records[devices[path]].detached {
        outcome := Conclude(t, Some(devices[path]), task.goal);
        return;
      }
      var r := Insert(Model.NewDevice(path, answer.value));
      outcome := Conclude(t, Some(r), task.goal);
    }

    method ScanStopped(t: nat) returns (outcome: Model.Outcome)
      requires Valid() && Model.Enabled(View(), Model.ScanStopped(t))
      modifies this`tasks, this`locks
      ensures (View(), outcome) == Model.Step(old(View()), Model.ScanStopped(t))
    {
      var task := tasks[t];
      if !IsCurrent(task.device) {
        Leave(t);
        return Model.Raised;
      }
      if records[task.device].connected && task.reset {
        tasks := tasks[t := Model.Dropping(task.device, task.adapter)];
      } else {
        tasks := tasks[t := Model.Linking(task.device, task.adapter)];
      }
      outcome := Model.Pending;
    }

    method LinkDropped(t: nat)
      requires Valid() && Model.Enabled(View(), Model.LinkDropped(t))
      modifies this`tasks, this`records
      ensures View() == Model.Step(old(View()), Model.LinkDropped(t)).0
    {
      var task := tasks[t];
      records := records[task.device := records[task.device].(connected := false)];
      tasks := tasks[t := Model.Settling(task.device, task.adapter)];
    }

    method Settled(t: nat) returns (outcome: Model.Outcome)
      requires Valid() && Model.Enabled(View(), Model.Settled(t))
      modifies this`tasks, this`locks
      ensures (View(), outcome) == Model.Step(old(View()), Model.Settled(t))
    {
      var task := tasks[t];
      if !IsCurrent(task.device) {
        Leave(t);
        return Model.Raised;
      }
      tasks := tasks[t := Model.Linking(task.device, task.adapter)];
      outcome := Model.Pending;
    }

    method LinkDone(t: nat, result: Model.LinkResult) returns (outcome: Model.Outcome)
      requires Valid() && Model.Enabled(View(), Model.LinkDone(t, result))
      modifies this`tasks, this`locks, this`records
      ensures (View(), outcome) == Model.Step(old(View()), Model.LinkDone(t, result))
    {
      var task := tasks[t];
      if result.Linked? {
        records := records[task.device := records[task.device].(connected := true)];
        tasks := tasks[t := Model.Trusting(task.device, task.adapter)];
        return Model.Pending;
      }
      if result.StaleObject? {
        MarkDetached(task.device);
      }
      Leave(t);
      outcome := Model.Raised;
    }

    method TrustDone(t: nat) returns (outcome: Model.Outcome)
      requires Valid() && Model.Enabled(View(), Model.TrustDone(t))
      modifies this`tasks, this`locks, this`records
      ensures (View(), outcome) == Model.Step(old(View()), Model.TrustDone(t))
    {
      var r := tasks[t].device;
      records := records[r := records[r].(known := true)];
      var current := IsCurrent(r);
      Leave(t);
      outcome := if current then Model.ConnectedTo(r) else Model.Raised;
    }
  }
}
