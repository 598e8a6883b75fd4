/** Adapter ownership and canonical records, whatever signals arrive during the waits. */
module ConnectionTheorems {
  import opened Common
  import opened ConnectionModel

  /** A lock names the task that works under it, and such a task holds its lock. */
  ghost predicate LocksMatch(m: Manager) {
    && (forall a :: a in m.locks ==>
          m.locks[a] in m.tasks && Holds(m.tasks[m.locks[a]]) && m.tasks[m.locks[a]].adapter == a)
    && (forall t :: t in m.tasks && Holds(m.tasks[t]) ==>
          m.tasks[t].adapter in m.locks && m.locks[m.tasks[t].adapter] == t)
  }

  ghost predicate Inv(m: Manager) {
    Sound(m) && LocksMatch(m)
  }

  lemma InitialInv()
    ensures Inv(INITIAL)
  {
  }

  lemma ExitKeeps(m: Manager, t: nat)
    requires Inv(m)
    ensures Inv(Exit(m, t))
  {
  }

  /** A task goes on under the adapter it holds, or goes on resolving. */
  lemma ContinueKeeps(m: Manager, t: nat, task: Task)
    requires Inv(m) && t in m.tasks && Holds(m.tasks[t]) == Holds(task)
    requires Holds(task) ==> task.adapter == m.tasks[t].adapter && task.device < |m.records|
    ensures Inv(Continue(m, t, task))
  {
  }

  lemma BeginKeeps(m: Manager, task: Task)
    requires Inv(m) && task.Resolving?
    ensures Inv(Begin(m, task))
  {
  }

  /** Changing the properties of records, but not their paths. */
  lemma EditKeeps(m: Manager, r: nat, device: Device)
    requires Inv(m) && r < |m.records| && device.path == m.records[r].path
    ensures Inv(m.(records := m.records[r := device]))
  {
  }

  lemma InsertKeeps(m: Manager, device: Device)
    requires Inv(m)
    ensures Inv(Insert(m, device))
  {
  }

  lemma OwnKeeps(m: Manager, t: nat, r: nat, reset: bool)
    requires Inv(m) && t in m.tasks && m.tasks[t].Resolving? && r < |m.records|
    ensures Inv(Own(m, t, r, reset).0)
  {
    ExitKeeps(m, t);
  }

  lemma ConcludeKeeps(m: Manager, t: nat, found: Option<nat>, goal: Goal)
    requires Inv(m) && t in m.tasks && m.tasks[t].Resolving? && (found.Some? ==> found.value < |m.records|)
    ensures Inv(Conclude(m, t, found, goal).0)
  {
    ExitKeeps(m, t);
    if goal.Connect? && found.Some? {
      OwnKeeps(m, t, found.value, goal.reset);
    }
  }

  lemma StartKeeps(m: Manager, address: Address, found: Option<nat>, adapters: seq<Path>, goal: Goal)
    requires Inv(m) && (found.Some? ==> found.value < |m.records|)
    ensures Inv(OnStart(m, address, found, adapters, goal).0)
  {
    var m1 := Begin(m, Resolving(address, [], goal));
    if found.Some? && !m.records[found.value].detached {
      BeginKeeps(m, Resolving(address, [], goal));
      ConcludeKeeps(m1, m.nextTask, found, goal);
    } else if adapters == [] {
      BeginKeeps(m, Resolving(address, [], goal));
      ConcludeKeeps(m1, m.nextTask, None, goal);
    } else {
      BeginKeeps(m, Resolving(address, adapters, goal));
    }
  }

  lemma ReplyKeeps(m: Manager, t: nat, reply: Option<Properties>)
    requires Inv(m) && Enabled(m, Reply(t, reply))
    ensures Inv(OnReply(m, t, reply).0)
  {
    var task := m.tasks[t];
    var path := ObjectPath(task.adapters[0], task.address);
    if reply.Some? {
      if path in m.devices && !m.records[m.devices[path]].detached {
        ConcludeKeeps(m, t, Some(m.devices[path]), task.goal);
      } else {
        InsertKeeps(m, NewDevice(path, reply.value));
        ConcludeKeeps(Insert(m, NewDevice(path, reply.value)), t, Some(|m.records|), task.goal);
      }
    } else if |task.adapters| > 1 {
      ContinueKeeps(m, t, task.(adapters := task.adapters[1..]));
    } else {
      ConcludeKeeps(m, t, None, task.goal);
    }
  }

  lemma SignalKeeps(m: Manager, e: Event)
    requires Inv(m) && (e.Added? || e.Removed? || e.Changed? || e.Lost?)
    ensures Inv(Step(m, e).0)
  {
    match e
    case Lost =>
    case Added(path, p) => InsertKeeps(m, NewDevice(path, p));
    case Removed(path) =>
      if path in m.devices {
        var r := m.devices[path];
        EditKeeps(m, r, m.records[r].(detached := true, connected := false));
      }
    case Changed(path, p) =>
      if path in m.devices {
        var r := m.devices[path];
        EditKeeps(m, r, m.records[r].(connected := p.connected, known := p.known));
      } else {
        InsertKeeps(m, NewDevice(path, p));
      }
  }

  lemma WorkKeeps(m: Manager, e: Event)
    requires Inv(m) && Enabled(m, e) && (e.ScanStopped? || e.LinkDropped? || e.Settled?)
    ensures Inv(Step(m, e).0)
  {
    var t := e.task;
    var r, adapter := m.tasks[t].device, m.tasks[t].adapter;
    ExitKeeps(m, t);
    ContinueKeeps(m, t, Linking(r, adapter));
    ContinueKeeps(m, t, Dropping(r, adapter));
    ContinueKeeps(m, t, Settling(r, adapter));
    EditKeeps(Continue(m, t, Settling(r, adapter)), r, m.records[r].(connected := false));
  }

  lemma LinkKeeps(m: Manager, e: Event)
    requires Inv(m) && Enabled(m, e) && (e.LinkDone? || e.TrustDone?)
    ensures Inv(Step(m, e).0)
  {
    var t := e.task;
    var r := m.tasks[t].device;
    ExitKeeps(m, t);
    if e.TrustDone? {
      EditKeeps(m, r, m.records[r].(known := true));
      ExitKeeps(m.(records := m.records[r := m.records[r].(known := true)]), t);
    } else if e.result.Linked? {
      ContinueKeeps(m, t, Trusting(r, m.tasks[t].adapter));
      EditKeeps(Continue(m, t, Trusting(r, m.tasks[t].adapter)), r, m.records[r].(connected := true));
    } else {
      EditKeeps(m, r, m.records[r].(detached := true, connected := false));
      ExitKeeps(Detach(m, r), t);
    }
  }

  lemma StepKeeps(m: Manager, e: Event)
    requires Inv(m) && Enabled(m, e)
    ensures Inv(Step(m, e).0)
  {
    match e
    case Start(address, found, adapters, goal) => StartKeeps(m, address, found, adapters, goal);
    case Reply(t, reply) => ReplyKeeps(m, t, reply);
    case Abandon(t) => ExitKeeps(m, t);
    case LinkDone(_, _) => LinkKeeps(m, e);
    case TrustDone(_) => LinkKeeps(m, e);
    case Added(_, _) => SignalKeeps(m, e);
    case Removed(_) => SignalKeeps(m, e);
    case Changed(_, _) => SignalKeeps(m, e);
    case Lost => SignalKeeps(m, e);
    case _ => WorkKeeps(m, e);
  }

  ghost predicate IsRun(states: seq<Manager>, events: seq<Event>) {
    && |states| == |events| + 1
    && states[0] == INITIAL
    && forall i :: 0 <= i < |events| ==>
         Sound(states[i]) && Enabled(states[i], events[i]) && states[i + 1] == Step(states[i], events[i]).0
  }

  lemma {:induction false} RunKeeps(states: seq<Manager>, events: seq<Event>, n: nat)
    requires IsRun(states, events) && n <= |events|
    ensures Inv(states[n])
  {
    if n > 0 {
      RunKeeps(states, events, n - 1);
      StepKeeps(states[n - 1], events[n - 1]);
    }
  }

  // ---- Ownership -----------------------------------------------------------------

  /** In every run two tasks never work under the same adapter. */
  lemma OneOwnerPerAdapter(states: seq<Manager>, events: seq<Event>, n: nat, s: nat, t: nat)
    requires IsRun(states, events) && n <= |events|
    requires s in states[n].tasks && t in states[n].tasks && Holds(states[n].tasks[s]) && Holds(states[n].tasks[t])
    requires states[n].tasks[s].adapter == states[n].tasks[t].adapter
    ensures s == t
  {
    RunKeeps(states, events, n);
  }

  /** The record that an event resolves a call to, whatever the call is for. */
  ghost function FoundBy(m: Manager, e: Event): (found: Option<nat>)
    requires Sound(m) && Enabled(m, e)
    ensures found.Some? ==> found.value < |Step(m, e).0.records|
  {
    match e
    case Start(_, found, _, _) => if found.Some? && !m.records[found.value].detached then found else None
    case Reply(t, answer) =>
      if answer.None? then None
      else
        var path := ObjectPath(m.tasks[t].adapters[0], m.tasks[t].address);
        if path in m.devices && !m.records[m.devices[path]].detached then Some(m.devices[path]) else Some(|m.records|)
    case _ => None
  }

  /** What the call that an event resolves is for. */
  ghost function GoalOf(m: Manager, e: Event): Goal
    requires Enabled(m, e) && (e.Start? || e.Reply?)
  {
    if e.Start? then e.goal else m.tasks[e.task].goal
  }

  /** A connect that resolves to a record on a held adapter raises in that very step. */
  lemma ContenderIsRefused(m: Manager, e: Event)
    requires Inv(m) && Enabled(m, e) && (e.Start? || e.Reply?) && FoundBy(m, e).Some? && GoalOf(m, e).Connect?
    requires Step(m, e).0.records[FoundBy(m, e).value].adapterName in m.locks
    ensures Step(m, e).1 == Raised && TaskOf(m, e).value !in Step(m, e).0.tasks && Step(m, e).0.locks == m.locks
  {
  }

  /** If task t came to work under an adapter, nobody held that. */
  ghost predicate TookIfFree(m: Manager, r: Manager, t: nat) {
    t in r.tasks && Holds(r.tasks[t]) && !(t in m.tasks && Holds(m.tasks[t])) ==> r.tasks[t].adapter !in m.locks
  }

  ghost predicate OthersSame(m: Manager, r: Manager, t: nat) {
    forall s :: s != t ==> (s in r.tasks <==> s in m.tasks) && (s in m.tasks ==> r.tasks[s] == m.tasks[s])
  }

  lemma ConcludeTakesIfFree(m: Manager, t: nat, found: Option<nat>, goal: Goal)
    requires found.Some? ==> found.value < |m.records|
    ensures var r := Conclude(m, t, found, goal).0; TookIfFree(m, r, t) && OthersSame(m, r, t)
  {
  }

  lemma StartTakesIfFree(m: Manager, e: Event)
    requires Inv(m) && Enabled(m, e) && e.Start?
    ensures var r := Step(m, e).0; TookIfFree(m, r, m.nextTask) && OthersSame(m, r, m.nextTask)
  {
    var begun := Begin(m, Resolving(e.address, [], e.goal));
    ConcludeTakesIfFree(begun, m.nextTask, e.found, e.goal);
    ConcludeTakesIfFree(begun, m.nextTask, None, e.goal);
  }

  lemma ReplyTakesIfFree(m: Manager, e: Event)
    requires Inv(m) && Enabled(m, e) && e.Reply?
    ensures var r := Step(m, e).0; TookIfFree(m, r, e.task) && OthersSame(m, r, e.task)
  {
    var task := m.tasks[e.task];
    var path := ObjectPath(task.adapters[0], task.address);
    if e.answer.None? {
      ConcludeTakesIfFree(m, e.task, None, task.goal);
    } else if path in m.devices && !m.records[m.devices[path]].detached {
      ConcludeTakesIfFree(m, e.task, Some(m.devices[path]), task.goal);
    } else {
      ConcludeTakesIfFree(Insert(m, NewDevice(path, e.answer.value)), e.task, Some(|m.records|), task.goal);
    }
  }

  lemma WorkTakesNothing(m: Manager, e: Event)
    requires Inv(m) && Enabled(m, e) && !e.Start? && !e.Reply? && TaskOf(m, e).Some?
    ensures var r, t := Step(m, e).0, TaskOf(m, e).value; TookIfFree(m, r, t) && OthersSame(m, r, t)
  {
  }

  lemma TaskTakesIfFree(m: Manager, e: Event)
    requires Inv(m) && Enabled(m, e) && TaskOf(m, e).Some?
    ensures var r, t := Step(m, e).0, TaskOf(m, e).value; TookIfFree(m, r, t) && OthersSame(m, r, t)
  {
    if e.Start? {
      StartTakesIfFree(m, e);
    } else if e.Reply? {
      ReplyTakesIfFree(m, e);
    } else {
      WorkTakesNothing(m, e);
    }
  }

  lemma SignalsTouchNoTask(m: Manager, e: Event)
    requires Inv(m) && Enabled(m, e) && TaskOf(m, e).None?
    ensures Step(m, e).0.tasks == m.tasks && Step(m, e).0.locks == m.locks
  {
  }

  /** Nobody is ever queued for an adapter. A task that works under one after a step and did
      not before took it in that step, which is its own, and nobody held it. */
  lemma AdapterIsTakenOnlyWhenFree(m: Manager, e: Event, t: nat)
    requires Inv(m) && Enabled(m, e)
    requires t in Step(m, e).0.tasks && Holds(Step(m, e).0.tasks[t])
    requires !(t in m.tasks && Holds(m.tasks[t]))
    ensures TaskOf(m, e) == Some(t) && Step(m, e).0.tasks[t].adapter !in m.locks
  {
    if TaskOf(m, e).Some? {
      TaskTakesIfFree(m, e);
    } else {
      SignalsTouchNoTask(m, e);
    }
  }

  /** And no event, a release least of all, moves the task of another. */
  lemma OthersStandStill(m: Manager, e: Event, t: nat)
    requires Inv(m) && Enabled(m, e) && t in m.tasks && TaskOf(m, e) != Some(t)
    ensures t in Step(m, e).0.tasks && Step(m, e).0.tasks[t] == m.tasks[t]
  {
    if TaskOf(m, e).Some? {
      TaskTakesIfFree(m, e);
    } else {
      SignalsTouchNoTask(m, e);
    }
  }

  /** The task of an answered call is gone and holds nothing. */
  ghost predicate Releases(m: Manager, e: Event)
    requires Sound(m) && Enabled(m, e)
  {
    var (r, outcome) := Step(m, e);
    !outcome.Pending? ==> TaskOf(m, e).Some? && TaskOf(m, e).value !in r.tasks
                          && forall a :: a in r.locks ==> r.locks[a] != TaskOf(m, e).value
  }

  lemma ResolvingReleases(m: Manager, e: Event)
    requires Inv(m) && Enabled(m, e) && (e.Start? || e.Reply?)
    ensures Releases(m, e)
  {
  }

  lemma WorkReleases(m: Manager, e: Event)
    requires Inv(m) && Enabled(m, e) && !e.Start? && !e.Reply?
    ensures Releases(m, e)
  {
  }

  /** Whenever a task ends, it is gone and holds no adapter; and it ends in the same step in
      which it returns or raises. */
  lemma EveryExitReleases(m: Manager, e: Event)
    requires Inv(m) && Enabled(m, e)
    ensures var (r, outcome) := Step(m, e);
            !outcome.Pending? ==> TaskOf(m, e).Some? && TaskOf(m, e).value !in r.tasks
                                  && forall a :: a in r.locks ==> r.locks[a] != TaskOf(m, e).value
  {
    if e.Start? || e.Reply? {
      ResolvingReleases(m, e);
    } else {
      WorkReleases(m, e);
    }
  }

  /** A task is never revived, and one that works under an adapter goes on under the same. */
  ghost predicate Carried(m: Manager, n: Manager, t: nat) {
    && t < m.nextTask <= n.nextTask
    && (t in n.tasks ==>
          && t in m.tasks
          && (Holds(m.tasks[t]) ==> Holds(n.tasks[t]) && n.tasks[t].adapter == m.tasks[t].adapter))
  }

  lemma StepCarries(m: Manager, e: Event, t: nat)
    requires Inv(m) && Enabled(m, e) && t < m.nextTask
    ensures Carried(m, Step(m, e).0, t)
  {
    if e.Start? || e.Reply? {
      TaskTakesIfFree(m, e);
      NumbersGrow(m, e);
    }
  }

  lemma NumbersGrow(m: Manager, e: Event)
    requires Inv(m) && Enabled(m, e) && (e.Start? || e.Reply?)
    ensures m.nextTask <= Step(m, e).0.nextTask
  {
  }

  lemma {:induction false} RunCarries(states: seq<Manager>, events: seq<Event>, i: nat, j: nat, t: nat)
    requires IsRun(states, events) && i <= j <= |events| && t < states[i].nextTask
    ensures Carried(states[i], states[j], t)
    decreases j
  {
    if i < j {
      RunCarries(states, events, i, j - 1, t);
      RunKeeps(states, events, j - 1);
      StepCarries(states[j - 1], events[j - 1], t);
    }
  }

  /** A connect that took its adapter holds it without a gap until it ends: whoever else is
      alive at any time in between works under another adapter or still resolves. */
  lemma AdapterIsHeldThroughout(states: seq<Manager>, events: seq<Event>, i: nat, j: nat, t: nat)
    requires IsRun(states, events) && i <= j <= |events|
    requires t in states[i].tasks && Holds(states[i].tasks[t]) && t in states[j].tasks
    ensures var adapter := states[i].tasks[t].adapter;
            && adapter in states[j].locks && states[j].locks[adapter] == t
            && forall s :: s in states[j].tasks && Holds(states[j].tasks[s]) && states[j].tasks[s].adapter == adapter ==> s == t
  {
    RunKeeps(states, events, i);
    RunCarries(states, events, i, j, t);
    RunKeeps(states, events, j);
  }

  /** The call that an event ends, if it ends one. */
  ghost function Ended(m: Manager, e: Event): Option<nat>
    requires Sound(m) && Enabled(m, e)
  {
    if Step(m, e).1.Pending? then None else TaskOf(m, e)
  }

  lemma OnlyLiveTasksEnd(m: Manager, e: Event)
    requires Inv(m) && Enabled(m, e) && Ended(m, e).Some?
    ensures Ended(m, e).value in m.tasks || Ended(m, e).value == m.nextTask
    ensures Ended(m, e).value < Step(m, e).0.nextTask && Ended(m, e).value !in Step(m, e).0.tasks
  {
    EveryExitReleases(m, e);
  }

  /** In every run each call returns or raises at most once. */
  lemma CallsEndOnce(states: seq<Manager>, events: seq<Event>, i: nat, j: nat)
    requires IsRun(states, events) && i < j < |events|
    requires Ended(states[i], events[i]).Some?
    ensures Ended(states[j], events[j]) != Ended(states[i], events[i])
  {
    RunKeeps(states, events, i);
    RunKeeps(states, events, j);
    OnlyLiveTasksEnd(states[i], events[i]);
    RunCarries(states, events, i + 1, j, Ended(states[i], events[i]).value);
    if Ended(states[j], events[j]).Some? {
      OnlyLiveTasksEnd(states[j], events[j]);
    }
  }

  /** True is returned only for a record that is mapped and attached at that instant. */
  lemma TrueMeansUsable(m: Manager, e: Event)
    requires Inv(m) && Enabled(m, e) && Step(m, e).1.ConnectedTo?
    ensures Usable(Step(m, e).0, Step(m, e).1.device)
  {
  }

  /** ensure_device returns only a record that is mapped and attached at that instant. */
  lemma ResolvedMeansUsable(m: Manager, e: Event)
    requires Inv(m) && Enabled(m, e) && Step(m, e).1.Resolved? && Step(m, e).1.found.Some?
    ensures Usable(Step(m, e).0, Step(m, e).1.found.value)
  {
  }

  // ---- Records -------------------------------------------------------------------

  /** b keeps what a knows: the same records, and no attached one is replaced or forgotten. */
  ghost predicate KeepsAttached(a: Manager, b: Manager) {
    && |b.records| >= |a.records| && b.records[..|a.records|] == a.records
    && forall path :: path in a.devices && a.devices[path] < |a.records| && !a.records[a.devices[path]].detached ==>
         path in b.devices && b.devices[path] == a.devices[path]
  }

  lemma ConcludeTouchesNoRecord(m: Manager, t: nat, found: Option<nat>, goal: Goal)
    requires found.Some? ==> found.value < |m.records|
    ensures Conclude(m, t, found, goal).0.records == m.records && Conclude(m, t, found, goal).0.devices == m.devices
  {
  }

  lemma InsertKeepsAttached(m: Manager, device: Device)
    requires Sound(m) && (device.path in m.devices ==> m.records[m.devices[device.path]].detached)
    ensures KeepsAttached(m, Insert(m, device))
  {
  }

  /** Resolving a device never replaces or forgets an attached record, and never changes an
      existing record at all, whatever happened while it waited. */
  lemma ResolvingKeepsAttached(m: Manager, e: Event)
    requires Inv(m) && Enabled(m, e) && (e.Start? || e.Reply?)
    ensures KeepsAttached(m, Step(m, e).0)
  {
    match e
    case Start(address, found, adapters, goal) =>
      var m1 := Begin(m, Resolving(address, [], goal));
      ConcludeTouchesNoRecord(m1, m.nextTask, found, goal);
      ConcludeTouchesNoRecord(m1, m.nextTask, None, goal);
    case Reply(t, reply) =>
      var task := m.tasks[t];
      var path := ObjectPath(task.adapters[0], task.address);
      if reply.Some? && !(path in m.devices && !m.records[m.devices[path]].detached) {
        var m1 := Insert(m, NewDevice(path, reply.value));
        InsertKeepsAttached(m, NewDevice(path, reply.value));
        ConcludeTouchesNoRecord(m1, t, Some(|m.records|), task.goal);
      } else {
        ConcludeTouchesNoRecord(m, t, if reply.Some? then Some(m.devices[path]) else None, task.goal);
      }
  }

  /** A device that appears at a path leaves no offline record of its address anywhere. */
  lemma InsertLeavesNoDuplicate(m: Manager, device: Device, path: Path)
    requires Inv(m) && !device.detached && path in Insert(m, device).devices
    ensures var r := Insert(m, device);
            r.records[r.devices[path]].address == device.address ==> !r.records[r.devices[path]].detached
  {
  }

  /** Where the record at a path is after a step: still mapped there, replaced there by a new
      record, or, if it was offline, superseded by a new record of its address. */
  ghost predicate KeptOrSuperseded(m: Manager, r: Manager, path: Path)
    requires path in m.devices && m.devices[path] < |m.records|
  {
    var n := |m.records|;
    || (path in r.devices && r.devices[path] == m.devices[path])
    || (path in r.devices && r.devices[path] == n && n < |r.records|)
    || (m.records[m.devices[path]].detached && n < |r.records| && Usable(r, n)
        && r.records[n].address == m.records[m.devices[path]].address)
  }

  lemma InsertKeepsOrSupersedes(m: Manager, device: Device, path: Path)
    requires Inv(m) && path in m.devices && !device.detached
    ensures KeptOrSuperseded(m, Insert(m, device), path)
  {
  }

  /** A withdrawn object's record stays mapped, detached and disconnected, if and only if the
      speaker is trusted or paired; no other record is touched. */
  lemma WithdrawalKeepsKnown(m: Manager, gone: Path, path: Path)
    requires Inv(m) && path in m.devices
    ensures var r, known := Step(m, Removed(gone)).0, m.records[m.devices[path]].known;
            && (path in r.devices <==> known || gone != path)
            && (known || gone != path ==> r.devices[path] == m.devices[path])
            && (gone == path && known ==> r.records[r.devices[path]].detached && !r.records[r.devices[path]].connected)
            && |r.records| == |m.records|
            && (forall n :: 0 <= n < |m.records| && !(gone in m.devices && n == m.devices[gone]) ==> r.records[n] == m.records[n])
  {
  }

  lemma ResolvingKeepsOrSupersedes(m: Manager, e: Event, path: Path)
    requires Inv(m) && Enabled(m, e) && (e.Start? || e.Reply?) && path in m.devices
    ensures KeptOrSuperseded(m, Step(m, e).0, path)
  {
    match e
    case Start(address, found, adapters, goal) =>
      var m1 := Begin(m, Resolving(address, [], goal));
      ConcludeTouchesNoRecord(m1, m.nextTask, found, goal);
      ConcludeTouchesNoRecord(m1, m.nextTask, None, goal);
    case Reply(t, reply) =>
      var task := m.tasks[t];
      var at := ObjectPath(task.adapters[0], task.address);
      if reply.Some? && !(at in m.devices && !m.records[m.devices[at]].detached) {
        InsertKeepsOrSupersedes(m, NewDevice(at, reply.value), path);
        ConcludeTouchesNoRecord(Insert(m, NewDevice(at, reply.value)), t, Some(|m.records|), task.goal);
      } else {
        ConcludeTouchesNoRecord(m, t, if reply.Some? then Some(m.devices[at]) else None, task.goal);
      }
  }

  lemma WorkTouchesNoPath(m: Manager, e: Event)
    requires Inv(m) && Enabled(m, e) && TaskOf(m, e).Some? && !e.Start? && !e.Reply?
    ensures Step(m, e).0.devices == m.devices
  {
  }

  /** A trusted or paired speaker is never lost while the transport lives: whatever happens, its
      record stays where it is mapped, a new object takes over that very path, or the record was
      offline and a live one of the same address supersedes it. */
  lemma KnownSpeakersAreKept(m: Manager, e: Event, path: Path)
    requires Inv(m) && Enabled(m, e) && !e.Lost?
    requires path in m.devices && m.records[m.devices[path]].known
    ensures KeptOrSuperseded(m, Step(m, e).0, path)
  {
    match e
    case Added(at, p) => InsertKeepsOrSupersedes(m, NewDevice(at, p), path);
    case Removed(gone) => WithdrawalKeepsKnown(m, gone, path);
    case Changed(at, p) =>
      if at !in m.devices {
        InsertKeepsOrSupersedes(m, NewDevice(at, p), path);
      }
    case Start(_, _, _, _) => ResolvingKeepsOrSupersedes(m, e, path);
    case Reply(_, _) => ResolvingKeepsOrSupersedes(m, e, path);
    case _ => WorkTouchesNoPath(m, e);
  }
}
