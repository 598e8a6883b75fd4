/**
 Playback supervision of one speaker as a state machine. Every event is one stretch of the
 bridge's code between two places where a coroutine can be suspended, so a run of events is
 an interleaving of commands, process exits and watchers. Every map of the bridge is keyed
 by speaker address, so one address is enough.

 Any waiting command may be the next to get the lock, which covers the order that
 asyncio.Lock uses and every other one.
 */
module PlayerModel {
  import opened Common
  import opened PlaybackQueue

  datatype Process = Process(exit: Option<int>, signalled: bool)

  /** A decoder/player pair and the generation its watcher was started with. */
  datatype Pair = Pair(decoder: nat, player: nat, generation: nat)

  datatype Watch = Watching | Queued(session: nat) | Done

  datatype Session = Session(id: nat, generation: nat, queue: Queue, processes: Option<nat>)

  /** A command that waits for the lock, with what it decided beforehand. */
  datatype Command =
    | StartQueue(ticket: nat, items: seq<Item>)
    | PlayUrl(ticket: nat)
    | Control(session: nat, op: Operation, plan: Plan, claim: Option<nat>)

  /** One call of _play_url_locked: its generation, and its session when it plays a queue. */
  datatype Job = Job(generation: nat, session: Option<nat>)

  /** Who holds the lock and where it is suspended. */
  datatype Holder =
    | Free
    | Halting(command: Command)           // waits for the old pair to exit, then navigates
    | Warming(job: Job)                   // waits for a sink warm-up to be cancelled
    | Preparing(job: Job)                 // waits for exits, the sink and the decoder spawn
    | Pairing(job: Job, decoder: nat)     // waits for the player spawn
    | Cleaning(job: Job)                  // waits for a partly spawned pair to exit
    | Notifying                           // waits for the state callback, then releases

  datatype State = State(
    generation: nat,
    nextSession: nat,
    current: Option<Session>,
    active: Option<nat>,
    pairs: seq<Pair>,
    watches: seq<Watch>,
    processes: seq<Process>,
    holder: Holder,
    waiting: map<nat, Command>,
    nextTask: nat,
    handled: seq<nat>)                    // the pairs whose exit was acted on, oldest first

  datatype Event =
    | BeginStart(items: seq<Item>)
    | BeginUrl
    | BeginControl(op: Operation, late: bool)
    | StopCommand
    | Disconnect
    | Grant(task: nat, tail: seq<Item>)
    | Halted
    | Warmed
    | Prepared(ok: bool)
    | Paired(ok: bool)
    | Cleaned
    | Released
    | ProcessExit(pid: nat, code: int)
    | WatchWake(pair: nat)
    | GrantWatch(pair: nat)

  const INITIAL: State := State(0, 0, None, None, [], [], [], Free, map[], 0, [])

  // ---- Shared pieces -------------------------------------------------------------

  /** A new ticket; whatever session there was is dropped. */
  function Invalidate(s: State): State {
    s.(generation := s.generation + 1, current := None)
  }

  /** SIGTERM reaches a child only while it has not exited. */
  function Terminate(processes: seq<Process>, pid: nat): (r: seq<Process>)
    ensures |r| == |processes|
    ensures forall i :: 0 <= i < |r| && i != pid ==> r[i] == processes[i]
    ensures pid < |r| ==> r[pid].exit == processes[pid].exit
    ensures pid < |r| ==> r[pid].exit.Some? || r[pid].signalled
  {
    if pid < |processes| && processes[pid].exit.None?
    then processes[pid := processes[pid].(signalled := true)]
    else processes
  }

  /** The part of _stop_processes that runs at once: forget the pair and signal it. */
  function StopProcesses(s: State): (r: State)
    ensures |r.processes| == |s.processes|
    ensures r == s.(active := None, processes := r.processes)
  {
    if s.active.Some? && s.active.value < |s.pairs| then
      var pair := s.pairs[s.active.value];
      s.(active := None, processes := Terminate(Terminate(s.processes, pair.decoder), pair.player))
    else s.(active := None)
  }

  function Enqueue(s: State, command: Command): State {
    s.(waiting := s.waiting[s.nextTask := command], nextTask := s.nextTask + 1)
  }

  predicate HasExited(s: State, pid: nat) {
    pid < |s.processes| && s.processes[pid].exit.Some?
  }

  predicate HasSucceeded(s: State, pid: nat) {
    pid < |s.processes| && s.processes[pid].exit == Some(0)
  }

  predicate IsCurrent(s: State, session: nat) {
    s.current.Some? && s.current.value.id == session && s.current.value.queue.index < |s.current.value.queue.items|
  }

  function WithQueue(s: State, queue: Queue): State
    requires s.current.Some?
  {
    s.(current := Some(s.current.value.(queue := queue)))
  }

  function WithStatus(s: State, status: Status): State
    requires s.current.Some?
  {
    WithQueue(s, s.current.value.queue.(status := status))
  }

  /** _play_url_locked raised: a queue job marks its session, a plain one only unlocks. */
  function Fail(s: State, job: Job): State {
    match job.session
    case None => s.(holder := Free)
    case Some(id) =>
      if s.current.Some? && s.current.value.id == id
      then WithStatus(s, Failed).(holder := Notifying)
      else s.(holder := Notifying)
  }

  /** Both children exist: they become the active pair, and a watcher starts. */
  function Install(s: State, job: Job, decoder: nat): State {
    var pair := |s.pairs|;
    s.(processes := s.processes + [Process(None, false)],
       pairs := s.pairs + [Pair(decoder, |s.processes|, job.generation)],
       watches := s.watches + [Watching],
       active := Some(pair),
       current := if s.current.Some? && s.current.value.generation == job.generation
                  then Some(s.current.value.(processes := Some(pair))) else s.current,
       holder := Notifying)
  }

  // ---- Commands ------------------------------------------------------------------

  /** Does this control call replace the running pair, and so take a ticket? */
  predicate Claims(q: Queue, op: Operation) {
    op.Next? || op.Previous? || (op.Play? && q.status.Failed?)
  }

  function PrepareControl(s: State, op: Operation, late: bool): State {
    if s.current.None? || s.current.value.queue.index >= |s.current.value.queue.items| then s
    else
      var session := s.current.value;
      match PlanMove(session.queue, op, late)
      case None => s
      case Some(plan) =>
        if Claims(session.queue, op) then
          var claimed := s.(generation := s.generation + 1);
          Enqueue(claimed, Control(session.id, op, plan, Some(s.generation + 1)))
        else Enqueue(s, Control(session.id, op, plan, None))
  }

  /** Navigate once nothing plays, then play the item under the cursor. A session that was
      dropped meanwhile has no items left, so the call raises and only unlocks. */
  function Resume(s: State, command: Command): State
    requires command.Control?
  {
    if IsCurrent(s, command.session) then
      var session := s.current.value;
      WithQueue(s, Navigate(session.queue, command.op, command.plan))
        .(holder := Warming(Job(session.generation, Some(session.id))))
    else s.(holder := Free)
  }

  /** The branches that replace the pair: next, previous and retry. Waiting for the old
      pair suspends only when there is one. */
  function Replace(s: State, command: Command): State
    requires command.Control? && s.current.Some?
  {
    var session := s.current.value;
    var s1 := if command.claim.Some?
              then s.(current := Some(session.(generation := command.claim.value, processes := None)))
              else s;
    if s1.active.None? then Resume(s1, command)
    else StopProcesses(s1).(holder := Halting(command))
  }

  /** A control call that got the lock and whose session and ticket are still good. */
  function Perform(s: State, command: Command, tail: seq<Item>): State
    requires command.Control? && IsCurrent(s, command.session)
  {
    var session := s.current.value;
    match command.op
    case SetShuffle(on) => WithQueue(s, Toggle(session.queue, on, tail)).(holder := Notifying)
    case SetRepeat(mode) => WithQueue(s, session.queue.(repeat := mode)).(holder := Notifying)
    case Pause =>
      if session.queue.status.Playing? && session.processes.Some?
      then WithStatus(s, Paused).(holder := Notifying) else s
    case Play =>
      if session.queue.status.Paused? then
        if session.processes.Some? && s.active == session.processes
        then WithStatus(s, Playing).(holder := Notifying) else s
      else if session.queue.status.Failed? then Replace(s, command)
      else s
    case _ => Replace(s, command)
  }

  function TakeTurn(s: State, task: nat, tail: seq<Item>): State
    requires task in s.waiting
  {
    var command := s.waiting[task];
    var s1 := s.(waiting := s.waiting - {task});
    match command
    case StartQueue(ticket, items) =>
      if s.generation != ticket then s1
      else s1.(current := Some(Session(s.nextSession, ticket, NewQueue(items), None)),
               nextSession := s.nextSession + 1,
               holder := Warming(Job(ticket, Some(s.nextSession))))
    case PlayUrl(ticket) =>
      if s.generation != ticket then s1 else s1.(holder := Warming(Job(ticket, None)))
    case Control(id, op, plan, claim) =>
      if !IsCurrent(s, id) then s1
      else if claim.Some? && claim.value != s.generation then s1
      else Perform(s1, command, tail)
  }

  // ---- Watchers ------------------------------------------------------------------

  /** Both children exited: decide whether this exit still matters. */
  function Wake(s: State, pair: nat): State
    requires pair < |s.pairs| && pair < |s.watches|
  {
    var gone := s.(watches := s.watches[pair := Done]);
    if s.active != Some(pair) || s.pairs[pair].generation != s.generation then gone
    else match s.current
      case None => gone.(active := None, handled := s.handled + [pair])
      case Some(session) =>
        if session.generation != s.pairs[pair].generation || session.processes != Some(pair) then gone
        else s.(watches := s.watches[pair := Queued(session.id)])
  }

  predicate StillMine(s: State, pair: nat)
    requires pair < |s.pairs| && pair < |s.watches| && s.watches[pair].Queued?
  {
    && s.pairs[pair].generation == s.generation
    && IsCurrent(s, s.watches[pair].session)
    && s.current.value.generation == s.pairs[pair].generation
    && s.current.value.processes == Some(pair)
    && s.active == Some(pair)
  }

  predicate PairSucceeded(s: State, pair: nat)
    requires pair < |s.pairs|
  {
    HasSucceeded(s, s.pairs[pair].decoder) && HasSucceeded(s, s.pairs[pair].player)
  }

  /** Take the pair out, move the queue, and start its next item if it still plays. */
  function FinishPair(s: State, pair: nat): State
    requires pair < |s.pairs| && pair < |s.watches|
    requires s.current.Some? && s.current.value.queue.index < |s.current.value.queue.items|
  {
    var session := s.current.value;
    var queue := AfterExit(session.queue, PairSucceeded(s, pair));
    s.(watches := s.watches[pair := Done], active := None, handled := s.handled + [pair],
       current := Some(session.(queue := queue, processes := None)),
       holder := if queue.status.Playing? then Warming(Job(session.generation, Some(session.id))) else Notifying)
  }

  /** The watcher holds the lock: fail, advance, repeat or complete the queue. */
  function ActOnExit(s: State, pair: nat): State
    requires pair < |s.pairs| && pair < |s.watches| && s.watches[pair].Queued?
  {
    if StillMine(s, pair) then FinishPair(s, pair) else s.(watches := s.watches[pair := Done])
  }

  // ---- Steps ---------------------------------------------------------------------

  ghost predicate Enabled(s: State, e: Event) {
    match e
    case BeginStart(items) => items != [] && NoDuplicates(items)
    case Grant(task, tail) =>
      && s.holder.Free?
      && task in s.waiting
      && (s.waiting[task].Control? && s.waiting[task].op.SetShuffle? && IsCurrent(s, s.waiting[task].session) ==>
            var queue := s.current.value.queue;
            multiset(tail) == multiset(queue.items[queue.index + 1..]))
    case Halted => s.holder.Halting? && s.holder.command.Control?
    case Warmed => s.holder.Warming?
    case Prepared(_) => s.holder.Preparing?
    case Paired(_) => s.holder.Pairing?
    case Cleaned => s.holder.Cleaning?
    case Released => s.holder.Notifying?
    case ProcessExit(pid, _) => pid < |s.processes| && s.processes[pid].exit.None?
    case WatchWake(pair) =>
      && pair < |s.pairs| && pair < |s.watches| && s.watches[pair].Watching?
      && HasExited(s, s.pairs[pair].decoder) && HasExited(s, s.pairs[pair].player)
    case GrantWatch(pair) =>
      s.holder.Free? && pair < |s.pairs| && pair < |s.watches| && s.watches[pair].Queued?
    case _ => true
  }

  ghost function Step(s: State, e: Event): State
    requires Enabled(s, e)
  {
    match e
    case BeginStart(items) => Enqueue(Invalidate(s), StartQueue(s.generation + 1, items))
    case BeginUrl => Enqueue(Invalidate(s), PlayUrl(s.generation + 1))
    case BeginControl(op, late) => PrepareControl(s, op, late)
    case StopCommand => StopProcesses(Invalidate(s))
    case Disconnect => Invalidate(s)
    case Grant(task, tail) => TakeTurn(s, task, tail)
    case Halted => Resume(s, s.holder.command)
    case Warmed => StopProcesses(s).(holder := Preparing(s.holder.job))
    case Prepared(ok) =>
      if ok then s.(processes := s.processes + [Process(None, false)],
                    holder := Pairing(s.holder.job, |s.processes|))
      else Fail(s, s.holder.job)
    case Paired(ok) =>
      if ok then Install(s, s.holder.job, s.holder.decoder)
      else s.(processes := Terminate(s.processes, s.holder.decoder), holder := Cleaning(s.holder.job))
    case Cleaned => Fail(s, s.holder.job)
    case Released => s.(holder := Free)
    case ProcessExit(pid, code) => s.(processes := s.processes[pid := s.processes[pid].(exit := Some(code))])
    case WatchWake(pair) => Wake(s, pair)
    case GrantWatch(pair) => ActOnExit(s, pair)
  }

  /** The states a run passes through, the first and the last included. */
  ghost predicate IsRun(states: seq<State>, events: seq<Event>) {
    && |states| == |events| + 1
    && states[0] == INITIAL
    && forall i :: 0 <= i < |events| ==> Enabled(states[i], events[i]) && states[i + 1] == Step(states[i], events[i])
  }
}
