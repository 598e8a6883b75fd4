/**
 Device records and adapter ownership. Every event is a BlueZ signal or one stretch of a
 coroutine between two suspension points, so signals may arrive during every wait. A record
 is known by its number, as the manager compares records with `is`.
 */
module ConnectionModel {
  import opened Common

  type Path = string
  type Address = string

  datatype Device = Device(
    path: Path,
    address: Address,
    adapterName: string,
    detached: bool,
    connected: bool,
    known: bool)                          // trusted or paired

  /** What a reply or a signal says about an object. */
  datatype Properties = Properties(address: Address, adapterName: string, connected: bool, known: bool)

  datatype Goal = JustResolve | Connect(reset: bool)

  datatype Task =
    | Resolving(address: Address, adapters: seq<Path>, goal: Goal)
    | Scanning(device: nat, adapter: string, reset: bool)   // stops the scan and waits a moment
    | Dropping(device: nat, adapter: string)                // disconnects an existing link
    | Settling(device: nat, adapter: string)                // waits a second after that
    | Linking(device: nat, adapter: string)
    | Trusting(device: nat, adapter: string)

  datatype Manager = Manager(
    devices: map<Path, nat>,
    records: seq<Device>,
    locks: map<string, nat>,              // which task holds an adapter
    tasks: map<nat, Task>,
    nextTask: nat)

  datatype LinkResult = Linked | BusyLink | StaleObject | OtherError

  datatype Outcome = Pending | Resolved(found: Option<nat>) | ConnectedTo(device: nat) | Raised

  datatype Event =
    | Added(path: Path, properties: Properties)
    | Removed(path: Path)
    | Changed(path: Path, properties: Properties)
    | Lost                                // the D-Bus transport is gone
    | Start(address: Address, found: Option<nat>, adapters: seq<Path>, goal: Goal)
    | Reply(task: nat, answer: Option<Properties>)
    | ScanStopped(task: nat)
    | LinkDropped(task: nat)
    | Settled(task: nat)
    | LinkDone(task: nat, result: LinkResult)
    | TrustDone(task: nat)
    | Abandon(task: nat)                  // a timeout, a cancellation or any other exception

  const INITIAL: Manager := Manager(map[], [], map[], map[], 0)

  // ---- Records -------------------------------------------------------------------

  /** The record is attached and is the one its path maps to. */
  predicate Usable(m: Manager, r: nat) {
    && r < |m.records| && !m.records[r].detached
    && m.records[r].path in m.devices && m.devices[m.records[r].path] == r
  }

  /** Is the record at this path an offline duplicate of a device at another path? */
  predicate IsDuplicate(m: Manager, path: Path, device: Device)
    requires path in m.devices
  {
    && path != device.path && m.devices[path] < |m.records|
    && m.records[m.devices[path]].detached && m.records[m.devices[path]].address == device.address
  }

  function WithoutDuplicates(m: Manager, device: Device): map<Path, nat> {
    map path | path in m.devices && !IsDuplicate(m, path, device) :: m.devices[path]
  }

  /** A new record takes its path, and offline duplicates of it are forgotten. */
  function Insert(m: Manager, device: Device): Manager {
    m.(records := m.records + [device], devices := WithoutDuplicates(m, device)[device.path := |m.records|])
  }

  function NewDevice(path: Path, p: Properties): Device {
    Device(path, p.address, p.adapterName, false, p.connected, p.known)
  }

  function Detach(m: Manager, r: nat): Manager
    requires r < |m.records|
  {
    m.(records := m.records[r := m.records[r].(detached := true, connected := false)])
  }

  function OnRemoved(m: Manager, path: Path): Manager {
    if path !in m.devices || m.devices[path] >= |m.records| then m
    else if m.records[m.devices[path]].known then Detach(m, m.devices[path])
    else m.(devices := m.devices - {path})
  }

  function OnChanged(m: Manager, path: Path, p: Properties): Manager {
    if path !in m.devices || m.devices[path] >= |m.records| then Insert(m, NewDevice(path, p))
    else
      var r := m.devices[path];
      m.(records := m.records[r := m.records[r].(connected := p.connected, known := p.known)])
  }

  function Spelled(address: Address): string {
    seq(|address|, i requires 0 <= i < |address| =>
      if address[i] == ':' then '_'
      else if 'a' <= address[i] <= 'z' then ('A' as int + (address[i] as int - 'a' as int)) as char
      else address[i])
  }

  function ObjectPath(adapter: Path, address: Address): Path {
    adapter + "/dev_" + Spelled(address)
  }

  /** The adapter names that validation accepts: hci and one or two digits. */
  predicate IsAdapterName(name: string) {
    && 4 <= |name| <= 5 && name[..3] == "hci"
    && forall i :: 3 <= i < |name| ==> '0' <= name[i] <= '9'
  }

  // ---- Tasks ---------------------------------------------------------------------

  predicate Holds(task: Task) {
    !task.Resolving?
  }

  /** A task ends and frees the adapter it holds, if any. */
  function Exit(m: Manager, t: nat): Manager {
    var locks := if t in m.tasks && Holds(m.tasks[t]) then m.locks - {m.tasks[t].adapter} else m.locks;
    m.(tasks := m.tasks - {t}, locks := locks)
  }

  function Begin(m: Manager, task: Task): Manager {
    m.(tasks := m.tasks[m.nextTask := task], nextTask := m.nextTask + 1)
  }

  function Continue(m: Manager, t: nat, task: Task): Manager {
    m.(tasks := m.tasks[t := task])
  }

  /** connect_device has its device: it is refused at a held adapter, and otherwise takes it. */
  function Own(m: Manager, t: nat, r: nat, reset: bool): (Manager, Outcome)
    requires r < |m.records|
  {
    var adapter := m.records[r].adapterName;
    if !IsAdapterName(adapter) || adapter in m.locks then (Exit(m, t), Raised)
    else if !Usable(m, r) then (Exit(m, t), Raised)
    else if m.records[r].connected && !reset then (Exit(m, t), ConnectedTo(r))
    else (Continue(m, t, Scanning(r, adapter, reset)).(locks := m.locks[adapter := t]), Pending)
  }

  function Conclude(m: Manager, t: nat, found: Option<nat>, goal: Goal): (Manager, Outcome)
    requires found.Some? ==> found.value < |m.records|
  {
    match goal
    case JustResolve => (Exit(m, t), Resolved(found))
    case Connect(reset) => if found.None? then (Exit(m, t), Raised) else Own(m, t, found.value, reset)
  }

  /** ensure_device up to its first wait. `found` is a mapped record of the address, if there
      is one; a detached one is passed over. */
  function OnStart(m: Manager, address: Address, found: Option<nat>, adapters: seq<Path>, goal: Goal): (Manager, Outcome)
    requires found.Some? ==> found.value < |m.records|
  {
    if found.Some? && !m.records[found.value].detached then Conclude(Begin(m, Resolving(address, [], goal)), m.nextTask, found, goal)
    else if adapters == [] then Conclude(Begin(m, Resolving(address, [], goal)), m.nextTask, None, goal)
    else (Begin(m, Resolving(address, adapters, goal)), Pending)
  }

  /** BlueZ answered for the object under the first adapter of the list, or did not. */
  function OnReply(m: Manager, t: nat, reply: Option<Properties>): (Manager, Outcome)
    requires t in m.tasks && m.tasks[t].Resolving? && m.tasks[t].adapters != []
    requires forall path :: path in m.devices ==> m.devices[path] < |m.records|
  {
    var task := m.tasks[t];
    if reply.Some? then
      var path := ObjectPath(task.adapters[0], task.address);
      if path in m.devices && !m.records[m.devices[path]].detached then Conclude(m, t, Some(m.devices[path]), task.goal)
      else
        var m1 := Insert(m, NewDevice(path, reply.value));
        Conclude(m1, t, Some(|m.records|), task.goal)
    else if |task.adapters| > 1 then (Continue(m, t, task.(adapters := task.adapters[1..])), Pending)
    else Conclude(m, t, None, task.goal)
  }

  function OnScanStopped(m: Manager, t: nat): (Manager, Outcome)
    requires t in m.tasks && m.tasks[t].Scanning? && m.tasks[t].device < |m.records|
  {
    var task := m.tasks[t];
    if !Usable(m, task.device) then (Exit(m, t), Raised)
    else if m.records[task.device].connected && task.reset then (Continue(m, t, Dropping(task.device, task.adapter)), Pending)
    else (Continue(m, t, Linking(task.device, task.adapter)), Pending)
  }

  function OnLinkDropped(m: Manager, t: nat): Manager
    requires t in m.tasks && m.tasks[t].Dropping? && m.tasks[t].device < |m.records|
  {
    var r := m.tasks[t].device;
    Continue(m, t, Settling(r, m.tasks[t].adapter)).(records := m.records[r := m.records[r].(connected := false)])
  }

  function OnSettled(m: Manager, t: nat): (Manager, Outcome)
    requires t in m.tasks && m.tasks[t].Settling?
  {
    if !Usable(m, m.tasks[t].device) then (Exit(m, t), Raised)
    else (Continue(m, t, Linking(m.tasks[t].device, m.tasks[t].adapter)), Pending)
  }

  function OnLinkDone(m: Manager, t: nat, result: LinkResult): (Manager, Outcome)
    requires t in m.tasks && m.tasks[t].Linking? && m.tasks[t].device < |m.records|
  {
    var r := m.tasks[t].device;
    match result
    case Linked =>
      (Continue(m, t, Trusting(r, m.tasks[t].adapter)).(records := m.records[r := m.records[r].(connected := true)]), Pending)
    case StaleObject => (Exit(Detach(m, r), t), Raised)
    case _ => (Exit(m, t), Raised)
  }

  function OnTrustDone(m: Manager, t: nat): (Manager, Outcome)
    requires t in m.tasks && m.tasks[t].Trusting? && m.tasks[t].device < |m.records|
  {
    var r := m.tasks[t].device;
    var trusted := Exit(m.(records := m.records[r := m.records[r].(known := true)]), t);
    (trusted, if Usable(m, r) then ConnectedTo(r) else Raised)
  }

  // ---- Steps ---------------------------------------------------------------------

  /** References are in range and every mapped record knows its path. */
  ghost predicate Sound(m: Manager) {
    && (forall path :: path in m.devices ==> m.devices[path] < |m.records| && m.records[m.devices[path]].path == path)
    && (forall t :: t in m.tasks ==> t < m.nextTask && (Holds(m.tasks[t]) ==> m.tasks[t].device < |m.records|))
  }

  ghost predicate Enabled(m: Manager, e: Event) {
    match e
    case Start(address, found, _, _) =>
      match found {
        case Some(r) => r < |m.records| && m.records[r].address == address && m.records[r].path in m.devices && m.devices[m.records[r].path] == r
        case None => forall path :: path in m.devices && m.devices[path] < |m.records| ==> m.records[m.devices[path]].address != address
      }
    case Reply(t, _) => t in m.tasks && m.tasks[t].Resolving? && m.tasks[t].adapters != []
    case ScanStopped(t) => t in m.tasks && m.tasks[t].Scanning?
    case LinkDropped(t) => t in m.tasks && m.tasks[t].Dropping?
    case Settled(t) => t in m.tasks && m.tasks[t].Settling?
    case LinkDone(t, _) => t in m.tasks && m.tasks[t].Linking?
    case TrustDone(t) => t in m.tasks && m.tasks[t].Trusting?
    case Abandon(t) => t in m.tasks
    case _ => true
  }

  ghost function Step(m: Manager, e: Event): (Manager, Outcome)
    requires Sound(m) && Enabled(m, e)
  {
    match e
    case Added(path, p) => (Insert(m, NewDevice(path, p)), Pending)
    case Removed(path) => (OnRemoved(m, path), Pending)
    case Changed(path, p) => (OnChanged(m, path, p), Pending)
    case Lost => (m.(devices := map[]), Pending)
    case Start(address, found, adapters, goal) => OnStart(m, address, found, adapters, goal)
    case Reply(t, reply) => OnReply(m, t, reply)
    case ScanStopped(t) => OnScanStopped(m, t)
    case LinkDropped(t) => (OnLinkDropped(m, t), Pending)
    case Settled(t) => OnSettled(m, t)
    case LinkDone(t, result) => OnLinkDone(m, t, result)
    case TrustDone(t) => OnTrustDone(m, t)
    case Abandon(t) => (Exit(m, t), Raised)
  }

  /** The task that an event runs. */
  function TaskOf(m: Manager, e: Event): Option<nat> {
    match e
    case Start(_, _, _, _) => Some(m.nextTask)
    case Reply(t, _) => Some(t)
    case ScanStopped(t) => Some(t)
    case LinkDropped(t) => Some(t)
    case Settled(t) => Some(t)
    case LinkDone(t, _) => Some(t)
    case TrustDone(t) => Some(t)
    case Abandon(t) => Some(t)
    case _ => None
  }
}
