/** What every interleaving of the player keeps. */
module PlayerInvariants {
  import opened Common
  import opened PlaybackQueue
  import opened PlayerModel
  import QueueLaws

  // ---- The invariant, one concern at a time --------------------------------------

  /** Processes are spawned one pair after the other, and references are in range. */
  ghost predicate Shape(s: State) {
    && |s.watches| == |s.pairs|
    && (forall i :: 0 <= i < |s.pairs| ==> s.pairs[i].decoder < s.pairs[i].player < |s.processes|)
    && (s.active.Some? ==> s.active.value < |s.pairs|)
    && (forall k :: k in s.waiting ==> k < s.nextTask)
    && (s.holder.Halting? ==> s.holder.command.Control?)
    && (s.holder.Pairing? ==> s.holder.decoder < |s.processes|)
  }

  predicate InActivePair(s: State, pid: nat) {
    && s.active.Some? && s.active.value < |s.pairs|
    && (pid == s.pairs[s.active.value].decoder || pid == s.pairs[s.active.value].player)
  }

  /** Every child ever spawned is gone, told to go, playing, or half of a pair that is
      being spawned right now. */
  ghost predicate NoOrphans(s: State) {
    forall pid :: 0 <= pid < |s.processes| ==>
      || s.processes[pid].exit.Some?
      || s.processes[pid].signalled
      || InActivePair(s, pid)
      || (s.holder.Pairing? && s.holder.decoder == pid)
  }

  function TicketOf(command: Command): Option<nat> {
    match command
    case StartQueue(ticket, _) => Some(ticket)
    case PlayUrl(ticket) => Some(ticket)
    case Control(_, _, _, claim) => claim
  }

  function JobOf(holder: Holder): Option<Job> {
    match holder
    case Warming(job) => Some(job)
    case Preparing(job) => Some(job)
    case Pairing(job, _) => Some(job)
    case Cleaning(job) => Some(job)
    case _ => None
  }

  /** Next and previous always draw a ticket, play sometimes does, nothing else ever. */
  predicate ClaimFits(op: Operation, claim: Option<nat>) {
    && (op.Next? || op.Previous? ==> claim.Some?)
    && (claim.Some? ==> op.Next? || op.Previous? || op.Play?)
  }

  /** No identity and no generation lies in the future. */
  ghost predicate Dated(s: State) {
    && (forall k :: k in s.waiting && TicketOf(s.waiting[k]).Some? ==> TicketOf(s.waiting[k]).value <= s.generation)
    && (forall k :: k in s.waiting && s.waiting[k].Control? ==> s.waiting[k].session < s.nextSession)
    && (forall k :: k in s.waiting && s.waiting[k].Control? ==> ClaimFits(s.waiting[k].op, s.waiting[k].claim))
    && (s.current.Some? ==> s.current.value.generation <= s.generation && s.current.value.id < s.nextSession)
    && (forall i :: 0 <= i < |s.pairs| ==> s.pairs[i].generation <= s.generation)
    && (JobOf(s.holder).Some? ==> JobOf(s.holder).value.generation <= s.generation)
    && (JobOf(s.holder).Some? && JobOf(s.holder).value.session.Some? ==> JobOf(s.holder).value.session.value < s.nextSession)
    && (s.holder.Halting? && s.holder.command.Control? ==> s.holder.command.session < s.nextSession)
    && (forall i :: 0 <= i < |s.watches| && s.watches[i].Queued? ==> s.watches[i].session < s.nextSession)
  }

  /** While a command waits with the newest ticket, everything else is older. */
  ghost predicate NewestIsAlone(s: State) {
    && (forall j, k :: (j in s.waiting && k in s.waiting &&
          TicketOf(s.waiting[j]) == Some(s.generation) == TicketOf(s.waiting[k])) ==> j == k)
    && (forall k :: k in s.waiting && TicketOf(s.waiting[k]) == Some(s.generation) ==>
          && OthersAreOlder(s)
          && (s.waiting[k].Control? ==> s.current.Some? && s.current.value.id == s.waiting[k].session)
          && (!s.waiting[k].Control? ==> s.current.None?))
  }

  ghost predicate OthersAreOlder(s: State) {
    && (s.current.Some? ==> s.current.value.generation < s.generation)
    && (JobOf(s.holder).Some? ==> JobOf(s.holder).value.generation < s.generation)
    && (forall i :: 0 <= i < |s.pairs| ==> s.pairs[i].generation < s.generation)
  }

  /** The lock holder works for the live session or for none, on a silenced speaker. */
  ghost predicate Focused(s: State) {
    && (s.holder.Preparing? || s.holder.Pairing? || s.holder.Cleaning? || s.holder.Halting? ==> s.active.None?)
    && (s.holder.Warming? && s.active.Some? && s.active.value < |s.pairs| ==>
          s.pairs[s.active.value].generation < s.holder.job.generation)
    && (JobOf(s.holder).Some? && s.current.Some? ==>
          var job := JobOf(s.holder).value;
          && job.session == Some(s.current.value.id)
          && job.generation == s.current.value.generation
          && s.current.value.queue.status.Playing?
          && s.current.value.processes.None?)
    && (s.holder.Halting? && s.holder.command.Control? && s.current.Some? ==>
          && s.current.value.id == s.holder.command.session
          && s.current.value.processes.None?
          && !s.current.value.queue.status.Failed?
          && !s.current.value.queue.status.Completed?)
  }

  /** A failed or completed queue has no pair; a playing or paused one has its own,
      whenever the lock holder is not in the middle of replacing it. */
  ghost predicate Linked(s: State) {
    s.current.Some? ==>
      var session := s.current.value;
      && (session.queue.status.Failed? || session.queue.status.Completed? ==>
            s.active.None? && session.processes.None?)
      && (s.holder.Free? || s.holder.Notifying? ==>
            (session.queue.status.Playing? || session.queue.status.Paused? ==>
              && s.active.Some? && s.active.value < |s.pairs|
              && session.processes == s.active
              && s.pairs[s.active.value].generation == session.generation))
  }

  /** The active pair of the newest generation has a watcher, and no exit counts twice. */
  ghost predicate Watched(s: State) {
    && |s.watches| == |s.pairs|
    && (forall p :: 0 <= p < |s.watches| && !s.watches[p].Watching? ==>
          HasExited(s, s.pairs[p].decoder) && HasExited(s, s.pairs[p].player))
    && (s.active.Some? && s.active.value < |s.pairs| && s.pairs[s.active.value].generation == s.generation ==>
          var watch := s.watches[s.active.value];
          && !watch.Done?
          && (watch.Queued? ==> s.current.Some? && s.current.value.id == watch.session))
    && (forall p :: p in s.handled ==> p < |s.watches| && s.watches[p].Done? && s.active != Some(p))
    && NoDuplicates(s.handled)
  }

  /** The live queue is sound, and pending plans point into it. */
  ghost predicate QueueSound(s: State) {
    && (s.current.Some? ==> Valid(s.current.value.queue))
    && (forall k :: k in s.waiting && s.waiting[k].StartQueue? ==>
          s.waiting[k].items != [] && NoDuplicates(s.waiting[k].items))
    && (forall k :: k in s.waiting && s.waiting[k].Control? && IsCurrent(s, s.waiting[k].session) ==>
          s.waiting[k].plan.target < |s.current.value.queue.items|)
    && (s.holder.Halting? && s.holder.command.Control? && IsCurrent(s, s.holder.command.session) ==>
          s.holder.command.plan.target < |s.current.value.queue.items|)
  }

  ghost predicate ProcessesSound(s: State) {
    Shape(s) && NoOrphans(s) && Watched(s)
  }

  ghost predicate TicketsSound(s: State) {
    Dated(s) && NewestIsAlone(s)
  }

  ghost predicate SessionSound(s: State) {
    Focused(s) && Linked(s) && QueueSound(s)
  }

  ghost predicate Inv(s: State) {
    ProcessesSound(s) && TicketsSound(s) && SessionSound(s)
  }

  // ---- Preservation --------------------------------------------------------------

  lemma InitialInv()
    ensures Inv(INITIAL)
  {
  }

  /** A ticket was just drawn and nobody waits with it yet. */
  ghost predicate FreshTicket(s: State) {
    OthersAreOlder(s) && forall k :: k in s.waiting ==> TicketOf(s.waiting[k]) != Some(s.generation)
  }

  // ---- Steps of the lock holder, the watchers and the processes -------------------

  lemma InvalidateProcesses(s: State)
    requires ProcessesSound(s) && Dated(s)
    ensures ProcessesSound(Invalidate(s))
  {
  }

  lemma InvalidateTickets(s: State)
    requires TicketsSound(s)
    ensures TicketsSound(Invalidate(s))
    ensures FreshTicket(Invalidate(s))
  {
  }

  lemma InvalidateSession(s: State)
    requires SessionSound(s)
    ensures SessionSound(Invalidate(s))
  {
  }

  lemma SilenceProcesses(s: State)
    requires ProcessesSound(s) && s.current.None?
    ensures ProcessesSound(StopProcesses(s))
  {
  }

  lemma SilenceTickets(s: State)
    requires TicketsSound(s) && s.current.None?
    ensures TicketsSound(StopProcesses(s))
  {
  }

  lemma SilenceSession(s: State)
    requires SessionSound(s) && s.current.None?
    ensures SessionSound(StopProcesses(s))
  {
  }

  lemma HaltedProcesses(s: State)
    requires ProcessesSound(s) && s.holder.Halting?
    ensures ProcessesSound(Resume(s, s.holder.command))
  {
  }

  lemma HaltedTickets(s: State)
    requires Shape(s) && TicketsSound(s) && SessionSound(s) && s.holder.Halting?
    ensures TicketsSound(Resume(s, s.holder.command))
  {
  }

  lemma HaltedSession(s: State)
    requires Shape(s) && TicketsSound(s) && SessionSound(s) && s.holder.Halting?
    ensures SessionSound(Resume(s, s.holder.command))
  {
    if IsCurrent(s, s.holder.command.session) {
      QueueLaws.NavigateKeepsValid(s.current.value.queue, s.holder.command.op, s.holder.command.plan);
    }
  }

  lemma WarmedProcesses(s: State)
    requires ProcessesSound(s) && s.holder.Warming?
    ensures ProcessesSound(Step(s, Warmed))
  {
  }

  lemma WarmedTickets(s: State)
    requires TicketsSound(s) && s.holder.Warming?
    ensures TicketsSound(Step(s, Warmed))
  {
  }

  lemma WarmedSession(s: State)
    requires SessionSound(s) && s.holder.Warming?
    ensures SessionSound(Step(s, Warmed))
  {
  }

  lemma FailProcesses(s: State)
    requires ProcessesSound(s) && (s.holder.Preparing? || s.holder.Cleaning?)
    ensures ProcessesSound(Fail(s, s.holder.job))
  {
  }

  lemma FailTickets(s: State)
    requires TicketsSound(s) && (s.holder.Preparing? || s.holder.Cleaning?)
    ensures TicketsSound(Fail(s, s.holder.job))
  {
  }

  lemma FailSession(s: State)
    requires SessionSound(s) && (s.holder.Preparing? || s.holder.Cleaning?)
    ensures SessionSound(Fail(s, s.holder.job))
  {
  }

  lemma PreparedProcesses(s: State)
    requires ProcessesSound(s) && s.holder.Preparing?
    ensures ProcessesSound(Step(s, Prepared(true)))
  {
  }

  lemma PreparedTickets(s: State)
    requires TicketsSound(s) && s.holder.Preparing?
    ensures TicketsSound(Step(s, Prepared(true)))
  {
  }

  lemma PreparedSession(s: State)
    requires SessionSound(s) && s.holder.Preparing?
    ensures SessionSound(Step(s, Prepared(true)))
  {
  }

  lemma PairedProcesses(s: State)
    requires ProcessesSound(s) && TicketsSound(s) && SessionSound(s) && s.holder.Pairing?
    ensures ProcessesSound(Install(s, s.holder.job, s.holder.decoder))
  {
  }

  lemma PairedTickets(s: State)
    requires Shape(s) && TicketsSound(s) && s.holder.Pairing?
    ensures TicketsSound(Install(s, s.holder.job, s.holder.decoder))
  {
  }

  lemma PairedSession(s: State)
    requires Shape(s) && TicketsSound(s) && SessionSound(s) && s.holder.Pairing?
    ensures SessionSound(Install(s, s.holder.job, s.holder.decoder))
  {
  }

  lemma UnpairedProcesses(s: State)
    requires ProcessesSound(s) && s.holder.Pairing?
    ensures ProcessesSound(Step(s, Paired(false)))
  {
  }

  lemma UnpairedTickets(s: State)
    requires TicketsSound(s) && s.holder.Pairing?
    ensures TicketsSound(Step(s, Paired(false)))
  {
  }

  lemma UnpairedSession(s: State)
    requires SessionSound(s) && s.holder.Pairing?
    ensures SessionSound(Step(s, Paired(false)))
  {
  }

  lemma ReleasedProcesses(s: State)
    requires ProcessesSound(s) && s.holder.Notifying?
    ensures ProcessesSound(Step(s, Released))
  {
  }

  lemma ReleasedTickets(s: State)
    requires TicketsSound(s) && s.holder.Notifying?
    ensures TicketsSound(Step(s, Released))
  {
  }

  lemma ReleasedSession(s: State)
    requires SessionSound(s) && s.holder.Notifying?
    ensures SessionSound(Step(s, Released))
  {
  }

  lemma ProcessExitProcesses(s: State, pid: nat, code: int)
    requires ProcessesSound(s) && Enabled(s, ProcessExit(pid, code))
    ensures ProcessesSound(Step(s, ProcessExit(pid, code)))
  {
  }

  lemma ProcessExitTickets(s: State, pid: nat, code: int)
    requires TicketsSound(s) && Enabled(s, ProcessExit(pid, code))
    ensures TicketsSound(Step(s, ProcessExit(pid, code)))
  {
  }

  lemma ProcessExitSession(s: State, pid: nat, code: int)
    requires SessionSound(s) && Enabled(s, ProcessExit(pid, code))
    ensures SessionSound(Step(s, ProcessExit(pid, code)))
  {
  }

  /** A watcher that finds its pair superseded only ends. Its pair is not the active one
      of the newest generation. */
  ghost predicate Superseded(s: State, pair: nat) {
    && pair < |s.pairs| && pair < |s.watches|
    && HasExited(s, s.pairs[pair].decoder) && HasExited(s, s.pairs[pair].player)
    && (s.active == Some(pair) ==> s.pairs[pair].generation != s.generation)
  }

  lemma GoneKeeps(s: State, pair: nat)
    requires Superseded(s, pair)
    ensures var gone := s.(watches := s.watches[pair := Done]);
            && (ProcessesSound(s) ==> ProcessesSound(gone))
            && (TicketsSound(s) ==> TicketsSound(gone))
            && (SessionSound(s) ==> SessionSound(gone))
  {
  }

  /** The active pair of the newest generation belongs to the live session, if any. */
  lemma ActivePairIsLinked(s: State)
    requires Dated(s) && Focused(s) && Linked(s)
    requires s.active.Some? && s.active.value < |s.pairs| && s.pairs[s.active.value].generation == s.generation
    ensures s.current.Some? ==>
              && s.current.value.processes == s.active
              && s.current.value.generation == s.generation
              && (s.holder.Free? || s.holder.Notifying?)
  {
  }

  lemma WakeProcesses(s: State, pair: nat)
    requires ProcessesSound(s) && TicketsSound(s) && SessionSound(s) && Enabled(s, WatchWake(pair))
    ensures ProcessesSound(Wake(s, pair))
  {
    if s.active == Some(pair) && s.pairs[pair].generation == s.generation {
      ActivePairIsLinked(s);
    } else {
      GoneKeeps(s, pair);
    }
  }

  lemma WakeTickets(s: State, pair: nat)
    requires Shape(s) && TicketsSound(s) && SessionSound(s) && Enabled(s, WatchWake(pair))
    ensures TicketsSound(Wake(s, pair))
  {
    if s.active == Some(pair) && s.pairs[pair].generation == s.generation {
      ActivePairIsLinked(s);
    } else {
      GoneKeeps(s, pair);
    }
  }

  lemma WakeSession(s: State, pair: nat)
    requires Shape(s) && TicketsSound(s) && SessionSound(s) && Enabled(s, WatchWake(pair))
    ensures SessionSound(Wake(s, pair))
  {
    if s.active == Some(pair) && s.pairs[pair].generation == s.generation {
      ActivePairIsLinked(s);
    } else {
      GoneKeeps(s, pair);
    }
  }

  lemma ActProcesses(s: State, pair: nat)
    requires ProcessesSound(s) && Enabled(s, GrantWatch(pair)) && StillMine(s, pair)
    ensures ProcessesSound(ActOnExit(s, pair))
  {
  }

  lemma ActTickets(s: State, pair: nat)
    requires Shape(s) && TicketsSound(s) && Enabled(s, GrantWatch(pair)) && StillMine(s, pair)
    ensures TicketsSound(ActOnExit(s, pair))
  {
  }

  lemma ActSession(s: State, pair: nat)
    requires Shape(s) && TicketsSound(s) && SessionSound(s) && Enabled(s, GrantWatch(pair)) && StillMine(s, pair)
    ensures SessionSound(ActOnExit(s, pair))
  {
    var success := HasSucceeded(s, s.pairs[pair].decoder) && HasSucceeded(s, s.pairs[pair].player);
    QueueLaws.ExitKeepsValid(s.current.value.queue, success);
    assert AfterExit(s.current.value.queue, success).items == s.current.value.queue.items;
  }

  /** A queued watcher that finds its pair no longer its own was superseded. */
  lemma NotMineIsSuperseded(s: State, pair: nat)
    requires Inv(s) && Enabled(s, GrantWatch(pair)) && !StillMine(s, pair)
    ensures Superseded(s, pair)
  {
    if s.active == Some(pair) && s.pairs[pair].generation == s.generation {
      ActivePairIsLinked(s);
    }
  }

  // ---- Commands that begin -------------------------------------------------------

  /** What a command decided before it starts to wait. */
  ghost predicate Prepares(s: State, command: Command) {
    match command
    case StartQueue(ticket, items) =>
      s.current.None? && FreshTicket(s) && ticket == s.generation && items != [] && NoDuplicates(items)
    case PlayUrl(ticket) => s.current.None? && FreshTicket(s) && ticket == s.generation
    case Control(session, op, plan, claim) =>
      && IsCurrent(s, session) && plan.target < |s.current.value.queue.items|
      && ClaimFits(op, claim)
      && (claim.Some? ==> FreshTicket(s) && claim.value == s.generation)
  }

  lemma DrawTicketProcesses(s: State)
    requires ProcessesSound(s) && Dated(s)
    ensures ProcessesSound(s.(generation := s.generation + 1))
  {
  }

  lemma DrawTicketTickets(s: State)
    requires TicketsSound(s)
    ensures TicketsSound(s.(generation := s.generation + 1))
    ensures FreshTicket(s.(generation := s.generation + 1))
  {
  }

  lemma DrawTicketSession(s: State)
    requires SessionSound(s)
    ensures SessionSound(s.(generation := s.generation + 1))
  {
  }

  lemma EnqueueProcesses(s: State, command: Command)
    requires ProcessesSound(s) && Prepares(s, command)
    ensures ProcessesSound(Enqueue(s, command))
  {
  }

  lemma EnqueueTickets(s: State, command: Command)
    requires Shape(s) && TicketsSound(s) && Prepares(s, command)
    ensures TicketsSound(Enqueue(s, command))
  {
    assert s.nextTask !in s.waiting;
  }

  lemma EnqueueSession(s: State, command: Command)
    requires Shape(s) && SessionSound(s) && Prepares(s, command)
    ensures SessionSound(Enqueue(s, command))
  {
    assert s.nextTask !in s.waiting;
  }

  lemma BeginFreshProcesses(s: State, command: Command)
    requires ProcessesSound(s) && Dated(s) && Prepares(Invalidate(s), command)
    ensures ProcessesSound(Enqueue(Invalidate(s), command))
  {
    InvalidateProcesses(s);
    EnqueueProcesses(Invalidate(s), command);
  }

  lemma BeginFreshTickets(s: State, command: Command)
    requires Shape(s) && TicketsSound(s) && Prepares(Invalidate(s), command)
    ensures TicketsSound(Enqueue(Invalidate(s), command))
  {
    InvalidateTickets(s);
    EnqueueTickets(Invalidate(s), command);
  }

  lemma BeginFreshSession(s: State, command: Command)
    requires Shape(s) && SessionSound(s) && Prepares(Invalidate(s), command)
    ensures SessionSound(Enqueue(Invalidate(s), command))
  {
    InvalidateSession(s);
    EnqueueSession(Invalidate(s), command);
  }

  ghost predicate Plans(s: State, op: Operation, late: bool) {
    s.current.Some? && Valid(s.current.value.queue) && PlanMove(s.current.value.queue, op, late).Some?
  }

  /** What a control call enqueues: with a ticket it has just drawn, or without one. */
  function ControlCommand(s: State, op: Operation, late: bool, claim: Option<nat>): Command
    requires s.current.Some? && s.current.value.queue.index < |s.current.value.queue.items|
    requires PlanMove(s.current.value.queue, op, late).Some?
  {
    Control(s.current.value.id, op, PlanMove(s.current.value.queue, op, late).value, claim)
  }

  lemma PrepareCases(s: State, op: Operation, late: bool)
    requires Plans(s, op, late)
    ensures PrepareControl(s, op, late) ==
            if Claims(s.current.value.queue, op) then
              var claimed := s.(generation := s.generation + 1);
              Enqueue(claimed, ControlCommand(claimed, op, late, Some(claimed.generation)))
            else Enqueue(s, ControlCommand(s, op, late, None))
  {
  }

  lemma ControlPrepares(s: State, op: Operation, late: bool, claim: Option<nat>)
    requires Plans(s, op, late)
    requires ClaimFits(op, claim)
    requires claim.Some? ==> FreshTicket(s) && claim.value == s.generation
    ensures Prepares(s, ControlCommand(s, op, late, claim))
  {
    QueueLaws.PlanStaysInBounds(s.current.value.queue, op, late);
  }

  lemma BeginClaimProcesses(s: State, op: Operation, late: bool)
    requires ProcessesSound(s) && TicketsSound(s) && Plans(s, op, late) && Claims(s.current.value.queue, op)
    ensures ProcessesSound(PrepareControl(s, op, late))
  {
    var claimed := s.(generation := s.generation + 1);
    PrepareCases(s, op, late);
    DrawTicketTickets(s);
    DrawTicketProcesses(s);
    ControlPrepares(claimed, op, late, Some(claimed.generation));
    EnqueueProcesses(claimed, ControlCommand(claimed, op, late, Some(claimed.generation)));
  }

  lemma BeginPlainProcesses(s: State, op: Operation, late: bool)
    requires ProcessesSound(s) && Plans(s, op, late) && !Claims(s.current.value.queue, op)
    ensures ProcessesSound(PrepareControl(s, op, late))
  {
    PrepareCases(s, op, late);
    ControlPrepares(s, op, late, None);
    EnqueueProcesses(s, ControlCommand(s, op, late, None));
  }

  lemma BeginClaimTickets(s: State, op: Operation, late: bool)
    requires Shape(s) && TicketsSound(s) && Plans(s, op, late) && Claims(s.current.value.queue, op)
    ensures TicketsSound(PrepareControl(s, op, late))
  {
    var claimed := s.(generation := s.generation + 1);
    PrepareCases(s, op, late);
    DrawTicketTickets(s);
    ControlPrepares(claimed, op, late, Some(claimed.generation));
    EnqueueTickets(claimed, ControlCommand(claimed, op, late, Some(claimed.generation)));
  }

  lemma BeginPlainTickets(s: State, op: Operation, late: bool)
    requires Shape(s) && TicketsSound(s) && Plans(s, op, late) && !Claims(s.current.value.queue, op)
    ensures TicketsSound(PrepareControl(s, op, late))
  {
    PrepareCases(s, op, late);
    ControlPrepares(s, op, late, None);
    EnqueueTickets(s, ControlCommand(s, op, late, None));
  }

  lemma BeginClaimSession(s: State, op: Operation, late: bool)
    requires Shape(s) && TicketsSound(s) && SessionSound(s) && Plans(s, op, late) && Claims(s.current.value.queue, op)
    ensures SessionSound(PrepareControl(s, op, late))
  {
    var claimed := s.(generation := s.generation + 1);
    PrepareCases(s, op, late);
    DrawTicketTickets(s);
    DrawTicketSession(s);
    ControlPrepares(claimed, op, late, Some(claimed.generation));
    EnqueueSession(claimed, ControlCommand(claimed, op, late, Some(claimed.generation)));
  }

  lemma BeginPlainSession(s: State, op: Operation, late: bool)
    requires Shape(s) && SessionSound(s) && Plans(s, op, late) && !Claims(s.current.value.queue, op)
    ensures SessionSound(PrepareControl(s, op, late))
  {
    PrepareCases(s, op, late);
    ControlPrepares(s, op, late, None);
    EnqueueSession(s, ControlCommand(s, op, late, None));
  }

  // ---- Commands that get the lock ------------------------------------------------

  lemma RemoveProcesses(s: State, k: nat)
    requires ProcessesSound(s)
    ensures ProcessesSound(s.(waiting := s.waiting - {k}))
  {
  }

  lemma RemoveTickets(s: State, k: nat)
    requires TicketsSound(s)
    ensures TicketsSound(s.(waiting := s.waiting - {k}))
  {
  }

  lemma RemoveSession(s: State, k: nat)
    requires SessionSound(s)
    ensures SessionSound(s.(waiting := s.waiting - {k}))
  {
  }

  lemma GrantStartProcesses(s: State, k: nat, tail: seq<Item>)
    requires ProcessesSound(s) && TicketsSound(s) && s.holder.Free? && k in s.waiting && s.waiting[k].StartQueue?
    ensures ProcessesSound(TakeTurn(s, k, tail))
  {
    RemoveProcesses(s, k);
  }

  lemma GrantStartTickets(s: State, k: nat, tail: seq<Item>)
    requires Shape(s) && TicketsSound(s) && s.holder.Free? && k in s.waiting && s.waiting[k].StartQueue?
    ensures TicketsSound(TakeTurn(s, k, tail))
  {
    RemoveTickets(s, k);
  }

  lemma GrantStartSession(s: State, k: nat, tail: seq<Item>)
    requires Shape(s) && TicketsSound(s) && SessionSound(s) && s.holder.Free? && k in s.waiting && s.waiting[k].StartQueue?
    ensures SessionSound(TakeTurn(s, k, tail))
  {
    RemoveSession(s, k);
  }

  lemma GrantUrlProcesses(s: State, k: nat, tail: seq<Item>)
    requires ProcessesSound(s) && s.holder.Free? && k in s.waiting && s.waiting[k].PlayUrl?
    ensures ProcessesSound(TakeTurn(s, k, tail))
  {
    RemoveProcesses(s, k);
  }

  lemma GrantUrlTickets(s: State, k: nat, tail: seq<Item>)
    requires Shape(s) && TicketsSound(s) && s.holder.Free? && k in s.waiting && s.waiting[k].PlayUrl?
    ensures TicketsSound(TakeTurn(s, k, tail))
  {
    RemoveTickets(s, k);
  }

  lemma GrantUrlSession(s: State, k: nat, tail: seq<Item>)
    requires Shape(s) && TicketsSound(s) && SessionSound(s) && s.holder.Free? && k in s.waiting && s.waiting[k].PlayUrl?
    ensures SessionSound(TakeTurn(s, k, tail))
  {
    RemoveSession(s, k);
  }

  /** What a control command that passed its checks finds when it gets the lock. */
  ghost predicate Admitted(s: State, command: Command) {
    && s.holder.Free? && command.Control? && IsCurrent(s, command.session)
    && ClaimFits(command.op, command.claim)
    && command.plan.target < |s.current.value.queue.items|
    && (command.claim.Some? ==> command.claim.value == s.generation && FreshTicket(s))
  }

  ghost predicate Replaces(s: State, command: Command) {
    Admitted(s, command)
    && (command.op.Next? || command.op.Previous? || s.current.value.queue.status.Failed?)
  }

  /** The session once it carries the command's ticket. */
  function Claimed(s: State, command: Command): State
    requires command.Control? && s.current.Some?
  {
    if command.claim.Some?
    then s.(current := Some(s.current.value.(generation := command.claim.value, processes := None)))
    else s
  }

  lemma ReplaceCases(s: State, command: Command)
    requires Replaces(s, command)
    ensures Replace(s, command) ==
            if s.active.None? then Resume(Claimed(s, command), command)
            else StopProcesses(Claimed(s, command)).(holder := Halting(command))
  {
  }

  lemma ClaimedProcesses(s: State, command: Command)
    requires ProcessesSound(s) && Replaces(s, command)
    ensures ProcessesSound(Claimed(s, command)) && Claimed(s, command).current.Some?
  {
  }

  lemma HaltingProcesses(s: State, command: Command)
    requires ProcessesSound(s) && s.holder.Free? && s.active.Some? && command.Control?
    ensures ProcessesSound(StopProcesses(s).(holder := Halting(command)))
  {
  }

  lemma MovingProcesses(s: State, command: Command)
    requires ProcessesSound(s) && s.holder.Free? && s.active.None? && command.Control?
    ensures ProcessesSound(Resume(s, command))
  {
  }

  lemma ReplaceProcesses(s: State, command: Command)
    requires ProcessesSound(s) && Replaces(s, command)
    ensures ProcessesSound(Replace(s, command))
  {
    ReplaceCases(s, command);
    ClaimedProcesses(s, command);
    if s.active.None? {
      MovingProcesses(Claimed(s, command), command);
    } else {
      HaltingProcesses(Claimed(s, command), command);
    }
  }

  lemma ReplaceTickets(s: State, command: Command)
    requires Shape(s) && TicketsSound(s) && SessionSound(s) && Replaces(s, command)
    ensures TicketsSound(Replace(s, command))
  {
    ReplaceCases(s, command);
  }

  lemma ReplaceSession(s: State, command: Command)
    requires Shape(s) && TicketsSound(s) && SessionSound(s) && Replaces(s, command)
    ensures SessionSound(Replace(s, command))
  {
    ReplaceCases(s, command);
    QueueLaws.NavigateKeepsValid(s.current.value.queue, command.op, command.plan);
  }

  /** Changing the live queue without moving the cursor, or between playing and paused. */
  ghost predicate Adjusts(s: State, queue: Queue) {
    && s.holder.Free? && s.current.Some? && Valid(queue)
    && |queue.items| == |s.current.value.queue.items|
    && (queue.status == s.current.value.queue.status
        || (s.active.Some? && (queue.status.Playing? || queue.status.Paused?)
            && (s.current.value.queue.status.Playing? || s.current.value.queue.status.Paused?)))
  }

  lemma AdjustProcesses(s: State, queue: Queue)
    requires ProcessesSound(s) && Adjusts(s, queue)
    ensures ProcessesSound(WithQueue(s, queue).(holder := Notifying))
  {
  }

  lemma AdjustTickets(s: State, queue: Queue)
    requires TicketsSound(s) && Adjusts(s, queue)
    ensures TicketsSound(WithQueue(s, queue).(holder := Notifying))
  {
  }

  lemma AdjustSession(s: State, queue: Queue)
    requires SessionSound(s) && Adjusts(s, queue)
    ensures SessionSound(WithQueue(s, queue).(holder := Notifying))
  {
  }

  /** The queue a control call that only adjusts it leaves behind. */
  function Adjusted(q: Queue, op: Operation, tail: seq<Item>): Queue
    requires q.index < |q.items|
  {
    match op
    case SetShuffle(on) => Toggle(q, on, tail)
    case SetRepeat(mode) => q.(repeat := mode)
    case Pause => q.(status := Paused)
    case Play => q.(status := Playing)
    case _ => q
  }

  lemma AdjustedIsValid(q: Queue, op: Operation, tail: seq<Item>)
    requires Valid(q) && (op.SetShuffle? ==> QueueLaws.Arranges(q, tail))
    ensures Valid(Adjusted(q, op, tail)) && |Adjusted(q, op, tail).items| == |q.items|
    ensures op.SetShuffle? || op.SetRepeat? ==> Adjusted(q, op, tail).status == q.status
  {
    if op.SetShuffle? {
      QueueLaws.ToggleKeepsValid(q, op.on, tail);
      QueueLaws.ToggleLaw(q, op.on, tail);
    }
  }

  /** A control call either does nothing, adjusts the queue or replaces the pair. */
  lemma PerformCases(s: State, command: Command, tail: seq<Item>)
    requires Shape(s) && SessionSound(s) && Admitted(s, command)
    requires command.op.SetShuffle? ==> QueueLaws.Arranges(s.current.value.queue, tail)
    ensures var queue := Adjusted(s.current.value.queue, command.op, tail);
            var r := Perform(s, command, tail);
            || r == s
            || (Adjusts(s, queue) && r == WithQueue(s, queue).(holder := Notifying))
            || (Replaces(s, command) && r == Replace(s, command))
  {
    AdjustedIsValid(s.current.value.queue, command.op, tail);
  }

  /** A control command that passes its checks does its work on the state without it. */
  lemma AdmittedTurn(s: State, k: nat, tail: seq<Item>)
    requires Inv(s) && Enabled(s, Grant(k, tail)) && s.waiting[k].Control?
    requires IsCurrent(s, s.waiting[k].session)
    requires s.waiting[k].claim.Some? ==> s.waiting[k].claim.value == s.generation
    ensures var s1 := s.(waiting := s.waiting - {k});
            && TakeTurn(s, k, tail) == Perform(s1, s.waiting[k], tail)
            && Inv(s1) && Admitted(s1, s.waiting[k])
  {
    RemoveProcesses(s, k);
    RemoveTickets(s, k);
    RemoveSession(s, k);
  }

  lemma PerformProcesses(s: State, command: Command, tail: seq<Item>)
    requires Inv(s) && Admitted(s, command)
    requires command.op.SetShuffle? ==> QueueLaws.Arranges(s.current.value.queue, tail)
    ensures ProcessesSound(Perform(s, command, tail))
  {
    PerformCases(s, command, tail);
    var queue := Adjusted(s.current.value.queue, command.op, tail);
    if Adjusts(s, queue) { AdjustProcesses(s, queue); }
    if Replaces(s, command) { ReplaceProcesses(s, command); }
  }

  lemma GrantControlProcesses(s: State, k: nat, tail: seq<Item>)
    requires Inv(s) && Enabled(s, Grant(k, tail)) && s.waiting[k].Control?
    ensures ProcessesSound(TakeTurn(s, k, tail))
  {
    var command := s.waiting[k];
    if IsCurrent(s, command.session) && (command.claim.Some? ==> command.claim.value == s.generation) {
      AdmittedTurn(s, k, tail);
      PerformProcesses(s.(waiting := s.waiting - {k}), command, tail);
    } else {
      RemoveProcesses(s, k);
    }
  }

  lemma PerformTickets(s: State, command: Command, tail: seq<Item>)
    requires Inv(s) && Admitted(s, command)
    requires command.op.SetShuffle? ==> QueueLaws.Arranges(s.current.value.queue, tail)
    ensures TicketsSound(Perform(s, command, tail))
  {
    PerformCases(s, command, tail);
    var queue := Adjusted(s.current.value.queue, command.op, tail);
    if Adjusts(s, queue) { AdjustTickets(s, queue); }
    if Replaces(s, command) { ReplaceTickets(s, command); }
  }

  lemma GrantControlTickets(s: State, k: nat, tail: seq<Item>)
    requires Inv(s) && Enabled(s, Grant(k, tail)) && s.waiting[k].Control?
    ensures TicketsSound(TakeTurn(s, k, tail))
  {
    var command := s.waiting[k];
    if IsCurrent(s, command.session) && (command.claim.Some? ==> command.claim.value == s.generation) {
      AdmittedTurn(s, k, tail);
      PerformTickets(s.(waiting := s.waiting - {k}), command, tail);
    } else {
      RemoveTickets(s, k);
    }
  }

  lemma PerformSession(s: State, command: Command, tail: seq<Item>)
    requires Inv(s) && Admitted(s, command)
    requires command.op.SetShuffle? ==> QueueLaws.Arranges(s.current.value.queue, tail)
    ensures SessionSound(Perform(s, command, tail))
  {
    PerformCases(s, command, tail);
    var queue := Adjusted(s.current.value.queue, command.op, tail);
    if Adjusts(s, queue) { AdjustSession(s, queue); }
    if Replaces(s, command) { ReplaceSession(s, command); }
  }

  lemma GrantControlSession(s: State, k: nat, tail: seq<Item>)
    requires Inv(s) && Enabled(s, Grant(k, tail)) && s.waiting[k].Control?
    ensures SessionSound(TakeTurn(s, k, tail))
  {
    var command := s.waiting[k];
    if IsCurrent(s, command.session) && (command.claim.Some? ==> command.claim.value == s.generation) {
      AdmittedTurn(s, k, tail);
      PerformSession(s.(waiting := s.waiting - {k}), command, tail);
    } else {
      RemoveSession(s, k);
    }
  }

  // ---- Every step ----------------------------------------------------------------

  lemma BeginProcesses(s: State, e: Event)
    requires Inv(s) && Enabled(s, e) && (e.BeginStart? || e.BeginUrl? || e.BeginControl?)
    ensures ProcessesSound(Step(s, e))
  {
    match e
    case BeginStart(items) =>
      InvalidateTickets(s);
      BeginFreshProcesses(s, StartQueue(s.generation + 1, items));
    case BeginUrl =>
      InvalidateTickets(s);
      BeginFreshProcesses(s, PlayUrl(s.generation + 1));
    case BeginControl(op, late) =>
      if Plans(s, op, late) {
        if Claims(s.current.value.queue, op) { BeginClaimProcesses(s, op, late); } else { BeginPlainProcesses(s, op, late); }
      }
  }

  lemma GrantProcesses(s: State, k: nat, tail: seq<Item>)
    requires Inv(s) && Enabled(s, Grant(k, tail))
    ensures ProcessesSound(TakeTurn(s, k, tail))
  {
    match s.waiting[k]
    case StartQueue(_, _) => GrantStartProcesses(s, k, tail);
    case PlayUrl(_) => GrantUrlProcesses(s, k, tail);
    case Control(_, _, _, _) => GrantControlProcesses(s, k, tail);
  }

  lemma WatchProcesses(s: State, pair: nat)
    requires Inv(s) && Enabled(s, GrantWatch(pair))
    ensures ProcessesSound(ActOnExit(s, pair))
  {
    if StillMine(s, pair) {
      ActProcesses(s, pair);
    } else {
      NotMineIsSuperseded(s, pair);
      GoneKeeps(s, pair);
    }
  }

  lemma StepProcesses(s: State, e: Event)
    requires Inv(s) && Enabled(s, e)
    ensures ProcessesSound(Step(s, e))
  {
    match e
    case StopCommand =>
      InvalidateProcesses(s);
      SilenceProcesses(Invalidate(s));
    case Disconnect => InvalidateProcesses(s);
    case Grant(k, tail) => GrantProcesses(s, k, tail);
    case Halted => HaltedProcesses(s);
    case Warmed => WarmedProcesses(s);
    case Prepared(ok) => if ok { PreparedProcesses(s); } else { FailProcesses(s); }
    case Paired(ok) => if ok { PairedProcesses(s); } else { UnpairedProcesses(s); }
    case Cleaned => FailProcesses(s);
    case Released => ReleasedProcesses(s);
    case ProcessExit(pid, code) => ProcessExitProcesses(s, pid, code);
    case WatchWake(pair) => WakeProcesses(s, pair);
    case GrantWatch(pair) => WatchProcesses(s, pair);
    case _ => BeginProcesses(s, e);
  }

  lemma BeginTickets(s: State, e: Event)
    requires Inv(s) && Enabled(s, e) && (e.BeginStart? || e.BeginUrl? || e.BeginControl?)
    ensures TicketsSound(Step(s, e))
  {
    match e
    case BeginStart(items) =>
      InvalidateTickets(s);
      BeginFreshTickets(s, StartQueue(s.generation + 1, items));
    case BeginUrl =>
      InvalidateTickets(s);
      BeginFreshTickets(s, PlayUrl(s.generation + 1));
    case BeginControl(op, late) =>
      if Plans(s, op, late) {
        if Claims(s.current.value.queue, op) { BeginClaimTickets(s, op, late); } else { BeginPlainTickets(s, op, late); }
      }
  }

  lemma GrantTickets(s: State, k: nat, tail: seq<Item>)
    requires Inv(s) && Enabled(s, Grant(k, tail))
    ensures TicketsSound(TakeTurn(s, k, tail))
  {
    match s.waiting[k]
    case StartQueue(_, _) => GrantStartTickets(s, k, tail);
    case PlayUrl(_) => GrantUrlTickets(s, k, tail);
    case Control(_, _, _, _) => GrantControlTickets(s, k, tail);
  }

  lemma WatchTickets(s: State, pair: nat)
    requires Inv(s) && Enabled(s, GrantWatch(pair))
    ensures TicketsSound(ActOnExit(s, pair))
  {
    if StillMine(s, pair) {
      ActTickets(s, pair);
    } else {
      NotMineIsSuperseded(s, pair);
      GoneKeeps(s, pair);
    }
  }

  lemma StepTickets(s: State, e: Event)
    requires Inv(s) && Enabled(s, e)
    ensures TicketsSound(Step(s, e))
  {
    match e
    case StopCommand =>
      InvalidateTickets(s);
      SilenceTickets(Invalidate(s));
    case Disconnect => InvalidateTickets(s);
    case Grant(k, tail) => GrantTickets(s, k, tail);
    case Halted => HaltedTickets(s);
    case Warmed => WarmedTickets(s);
    case Prepared(ok) => if ok { PreparedTickets(s); } else { FailTickets(s); }
    case Paired(ok) => if ok { PairedTickets(s); } else { UnpairedTickets(s); }
    case Cleaned => FailTickets(s);
    case Released => ReleasedTickets(s);
    case ProcessExit(pid, code) => ProcessExitTickets(s, pid, code);
    case WatchWake(pair) => WakeTickets(s, pair);
    case GrantWatch(pair) => WatchTickets(s, pair);
    case _ => BeginTickets(s, e);
  }

  lemma BeginSession(s: State, e: Event)
    requires Inv(s) && Enabled(s, e) && (e.BeginStart? || e.BeginUrl? || e.BeginControl?)
    ensures SessionSound(Step(s, e))
  {
    match e
    case BeginStart(items) =>
      InvalidateTickets(s);
      BeginFreshSession(s, StartQueue(s.generation + 1, items));
    case BeginUrl =>
      InvalidateTickets(s);
      BeginFreshSession(s, PlayUrl(s.generation + 1));
    case BeginControl(op, late) =>
      if Plans(s, op, late) {
        if Claims(s.current.value.queue, op) { BeginClaimSession(s, op, late); } else { BeginPlainSession(s, op, late); }
      }
  }

  lemma GrantSession(s: State, k: nat, tail: seq<Item>)
    requires Inv(s) && Enabled(s, Grant(k, tail))
    ensures SessionSound(TakeTurn(s, k, tail))
  {
    match s.waiting[k]
    case StartQueue(_, _) => GrantStartSession(s, k, tail);
    case PlayUrl(_) => GrantUrlSession(s, k, tail);
    case Control(_, _, _, _) => GrantControlSession(s, k, tail);
  }

  lemma WatchSession(s: State, pair: nat)
    requires Inv(s) && Enabled(s, GrantWatch(pair))
    ensures SessionSound(ActOnExit(s, pair))
  {
    if StillMine(s, pair) {
      ActSession(s, pair);
    } else {
      NotMineIsSuperseded(s, pair);
      GoneKeeps(s, pair);
    }
  }

  lemma StepSession(s: State, e: Event)
    requires Inv(s) && Enabled(s, e)
    ensures SessionSound(Step(s, e))
  {
    match e
    case StopCommand =>
      InvalidateSession(s);
      SilenceSession(Invalidate(s));
    case Disconnect => InvalidateSession(s);
    case Grant(k, tail) => GrantSession(s, k, tail);
    case Halted => HaltedSession(s);
    case Warmed => WarmedSession(s);
    case Prepared(ok) => if ok { PreparedSession(s); } else { FailSession(s); }
    case Paired(ok) => if ok { PairedSession(s); } else { UnpairedSession(s); }
    case Cleaned => FailSession(s);
    case Released => ReleasedSession(s);
    case ProcessExit(pid, code) => ProcessExitSession(s, pid, code);
    case WatchWake(pair) => WakeSession(s, pair);
    case GrantWatch(pair) => WatchSession(s, pair);
    case _ => BeginSession(s, e);
  }

  lemma StepKeeps(s: State, e: Event)
    requires Inv(s) && Enabled(s, e)
    ensures Inv(Step(s, e))
  {
    StepProcesses(s, e);
    StepTickets(s, e);
    StepSession(s, e);
  }

  lemma {:induction false} RunKeeps(states: seq<State>, events: seq<Event>, n: nat)
    requires IsRun(states, events) && n <= |events|
    ensures Inv(states[n])
  {
    if n > 0 {
      RunKeeps(states, events, n - 1);
      StepKeeps(states[n - 1], events[n - 1]);
    }
  }
}
