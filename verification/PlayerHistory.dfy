/** Queue history under supervision: what next and previous find when commands do not
    overlap, and what still holds when they do. */
module PlayerHistory {
  import opened Common
  import opened PlaybackQueue
  import opened PlayerModel
  import opened PlayerInvariants
  import opened PlayerTheorems
  import QueueLaws

  /** A command begins only when no other waits for the lock and none is halfway through
      its move. Exits, failures, stops and disconnects may come at any time. */
  ghost predicate InTurn(s: State, e: Event) {
    e.BeginStart? || e.BeginUrl? || e.BeginControl? ==> s.waiting == map[] && !s.holder.Halting?
  }

  ghost predicate Orderly(s: State) {
    && (s.current.Some? ==> Suffix(s.current.value.queue))
    && (forall j, k :: j in s.waiting && k in s.waiting ==> j == k)
    && (forall k :: k in s.waiting && s.waiting[k].Control? && IsCurrent(s, s.waiting[k].session) ==>
          && QueueLaws.PlanFits(s.current.value.queue, s.waiting[k].op, s.waiting[k].plan)
          && (s.waiting[k].claim.Some? ==> s.waiting[k].claim.value == s.generation))
    && (s.holder.Halting? ==> s.waiting == map[])
    && (s.holder.Halting? && s.holder.command.Control? && IsCurrent(s, s.holder.command.session) ==>
          QueueLaws.PlanFits(s.current.value.queue, s.holder.command.op, s.holder.command.plan))
  }

  /** No command moves, and a queue that is still there is as it was, or failed. */
  ghost predicate KeepsQueue(s: State, r: State) {
    && r.waiting == s.waiting
    && (r.holder.Halting? ==> r.holder == s.holder)
    && (r.current.Some? ==>
          && s.current.Some? && r.generation == s.generation
          && r.current.value.id == s.current.value.id
          && (r.current.value.queue == s.current.value.queue
              || r.current.value.queue == s.current.value.queue.(status := Failed)))
  }

  predicate SpawnsOrFails(e: Event) {
    e.Prepared? || e.Paired? || e.Cleaned?
  }

  lemma JobKeepsQueue(s: State, e: Event)
    requires Inv(s) && Enabled(s, e) && SpawnsOrFails(e)
    ensures KeepsQueue(s, Step(s, e))
  {
  }

  lemma OtherKeepsQueue(s: State, e: Event)
    requires Inv(s) && Enabled(s, e) && LeavesTickets(e) && !e.Halted? && !e.GrantWatch? && !SpawnsOrFails(e)
    ensures KeepsQueue(s, Step(s, e))
  {
  }

  /** The lock holder's own steps move the cursor only when a halted command resumes. */
  lemma HolderKeepsQueue(s: State, e: Event)
    requires Inv(s) && Enabled(s, e) && LeavesTickets(e) && !e.Halted? && !e.GrantWatch?
    ensures KeepsQueue(s, Step(s, e))
  {
    if SpawnsOrFails(e) {
      JobKeepsQueue(s, e);
    } else {
      OtherKeepsQueue(s, e);
    }
  }

  lemma HolderKeepsOrder(s: State, e: Event)
    requires Inv(s) && Enabled(s, e) && LeavesTickets(e) && !e.Halted? && !e.GrantWatch? && Orderly(s)
    ensures Orderly(Step(s, e))
  {
    HolderKeepsQueue(s, e);
  }

  lemma HaltedKeepsOrder(s: State)
    requires Inv(s) && s.holder.Halting? && Orderly(s)
    ensures Orderly(Resume(s, s.holder.command))
  {
    if IsCurrent(s, s.holder.command.session) {
      QueueLaws.NavigateKeepsSuffix(s.current.value.queue, s.holder.command.op, s.holder.command.plan);
    }
  }

  /** While the watcher may act, no waiting command is about to move the cursor. */
  lemma WatcherMeetsNoMove(s: State, pair: nat, k: nat)
    requires Inv(s) && Enabled(s, GrantWatch(pair)) && StillMine(s, pair) && Orderly(s)
    requires k in s.waiting && s.waiting[k].Control? && IsCurrent(s, s.waiting[k].session)
    ensures s.waiting[k].claim.None? && !s.waiting[k].op.Next? && !s.waiting[k].op.Previous?
  {
    assert s.current.value.generation == s.generation;
  }

  lemma WatcherKeepsSuffix(s: State, pair: nat)
    requires Inv(s) && Enabled(s, GrantWatch(pair)) && Orderly(s)
    ensures var r := ActOnExit(s, pair);
            && r.waiting == s.waiting && r.generation == s.generation && !r.holder.Halting?
            && (r.current.Some? ==>
                  && s.current.Some? && r.current.value.id == s.current.value.id
                  && Suffix(r.current.value.queue)
                  && (!StillMine(s, pair) ==> r.current == s.current))
  {
    if StillMine(s, pair) {
      var success := HasSucceeded(s, s.pairs[pair].decoder) && HasSucceeded(s, s.pairs[pair].player);
      QueueLaws.ExitKeepsSuffix(s.current.value.queue, success);
    }
  }

  lemma WatcherKeepsOrder(s: State, pair: nat)
    requires Inv(s) && Enabled(s, GrantWatch(pair)) && Orderly(s)
    ensures Orderly(ActOnExit(s, pair))
  {
    var r := ActOnExit(s, pair);
    WatcherKeepsSuffix(s, pair);
    forall k | k in r.waiting && r.waiting[k].Control? && IsCurrent(r, r.waiting[k].session)
      ensures QueueLaws.PlanFits(r.current.value.queue, r.waiting[k].op, r.waiting[k].plan)
      ensures r.waiting[k].claim.Some? ==> r.waiting[k].claim.value == r.generation
    {
      assert IsCurrent(s, s.waiting[k].session);
      if StillMine(s, pair) {
        WatcherMeetsNoMove(s, pair, k);
      }
    }
  }

  lemma BeginKeepsOrder(s: State, e: Event)
    requires Inv(s) && Enabled(s, e) && InTurn(s, e) && Orderly(s)
    requires e.BeginStart? || e.BeginUrl? || e.BeginControl?
    ensures Orderly(Step(s, e))
  {
    if e.BeginControl? && Plans(s, e.op, e.late) {
      PrepareCases(s, e.op, e.late);
      QueueLaws.PlanFitsItsQueue(s.current.value.queue, e.op, e.late);
    }
  }

  lemma GrantKeepsOrder(s: State, k: nat, tail: seq<Item>)
    requires Inv(s) && Enabled(s, Grant(k, tail)) && Orderly(s)
    ensures Orderly(TakeTurn(s, k, tail))
  {
    var r := TakeTurn(s, k, tail);
    assert r.waiting == map[] by {
      assert forall j :: j in s.waiting ==> j == k;
      assert r.waiting == s.waiting - {k};
    }
    if s.waiting[k].Control? && IsCurrent(s, s.waiting[k].session) {
      GrantControlKeepsOrder(s, k, tail);
    }
  }

  lemma ReplaceKeepsOrder(s: State, command: Command)
    requires Inv(s) && Replaces(s, command) && Suffix(s.current.value.queue)
    requires QueueLaws.PlanFits(s.current.value.queue, command.op, command.plan)
    ensures var r := Replace(s, command);
            && r.current.Some? && Suffix(r.current.value.queue)
            && (r.holder.Halting? ==>
                  && r.holder.command == command
                  && QueueLaws.PlanFits(r.current.value.queue, command.op, command.plan))
  {
    ReplaceCases(s, command);
    QueueLaws.NavigateKeepsSuffix(s.current.value.queue, command.op, command.plan);
  }

  lemma AdjustedKeepsSuffix(q: Queue, op: Operation, tail: seq<Item>)
    requires Valid(q) && Suffix(q) && (op.SetShuffle? ==> QueueLaws.Arranges(q, tail))
    ensures Suffix(Adjusted(q, op, tail))
  {
    if op.SetShuffle? {
      QueueLaws.ToggleKeepsValid(q, op.on, tail);
    }
  }

  lemma PerformKeepsOrder(s: State, command: Command, tail: seq<Item>)
    requires Inv(s) && Admitted(s, command) && Suffix(s.current.value.queue)
    requires command.op.SetShuffle? ==> QueueLaws.Arranges(s.current.value.queue, tail)
    requires QueueLaws.PlanFits(s.current.value.queue, command.op, command.plan)
    ensures var r := Perform(s, command, tail);
            && r.current.Some? && Suffix(r.current.value.queue)
            && (r.holder.Halting? ==>
                  && r.holder.command == command
                  && QueueLaws.PlanFits(r.current.value.queue, command.op, command.plan))
  {
    PerformCases(s, command, tail);
    AdjustedKeepsSuffix(s.current.value.queue, command.op, tail);
    if Replaces(s, command) {
      ReplaceKeepsOrder(s, command);
    }
  }

  lemma GrantControlKeepsOrder(s: State, k: nat, tail: seq<Item>)
    requires Inv(s) && Enabled(s, Grant(k, tail)) && Orderly(s)
    requires s.waiting[k].Control? && IsCurrent(s, s.waiting[k].session)
    ensures var r := TakeTurn(s, k, tail);
            && r.current.Some? && Suffix(r.current.value.queue)
            && (r.holder.Halting? ==>
                  && r.holder.command == s.waiting[k]
                  && QueueLaws.PlanFits(r.current.value.queue, s.waiting[k].op, s.waiting[k].plan))
  {
    AdmittedTurn(s, k, tail);
    PerformKeepsOrder(s.(waiting := s.waiting - {k}), s.waiting[k], tail);
  }

  lemma HaltedStep(s: State)
    requires Inv(s) && Enabled(s, Halted) && Orderly(s)
    ensures Orderly(Step(s, Halted))
  {
    HaltedKeepsOrder(s);
  }

  lemma WatcherStep(s: State, pair: nat)
    requires Inv(s) && Enabled(s, GrantWatch(pair)) && Orderly(s)
    ensures Orderly(Step(s, GrantWatch(pair)))
  {
    WatcherKeepsOrder(s, pair);
  }

  lemma GrantStep(s: State, k: nat, tail: seq<Item>)
    requires Inv(s) && Enabled(s, Grant(k, tail)) && Orderly(s)
    ensures Orderly(Step(s, Grant(k, tail)))
  {
    GrantKeepsOrder(s, k, tail);
  }

  lemma OrderStep(s: State, e: Event)
    requires Inv(s) && Enabled(s, e) && InTurn(s, e) && Orderly(s)
    ensures Orderly(Step(s, e))
  {
    if e.Halted? {
      HaltedStep(s);
    } else if e.GrantWatch? {
      WatcherStep(s, e.pair);
    } else if e.Grant? {
      GrantStep(s, e.task, e.tail);
    } else if LeavesTickets(e) {
      HolderKeepsOrder(s, e);
    } else {
      BeginKeepsOrder(s, e);
    }
  }

  /** When commands take turns, the history ends with exactly the items before the cursor,
      in order, through shuffles, wraps, failures and restarts. */
  lemma {:induction false} HistoryEndsWithThePast(states: seq<State>, events: seq<Event>, n: nat)
    requires IsRun(states, events) && n <= |events|
    requires forall i :: 0 <= i < |events| ==> InTurn(states[i], events[i])
    ensures Orderly(states[n])
    ensures states[n].current.Some? ==> Suffix(states[n].current.value.queue)
  {
    if n > 0 {
      HistoryEndsWithThePast(states, events, n - 1);
      RunKeeps(states, events, n - 1);
      OrderStep(states[n - 1], events[n - 1]);
    }
  }

  /** When commands take turns, a previous that does not restart its item always plans to
      step back by one: the identity search never fails and the fallback is never used. */
  lemma PreviousPlansOneBack(states: seq<State>, events: seq<Event>, n: nat)
    requires IsRun(states, events) && n <= |events|
    requires forall i :: 0 <= i < |events| ==> InTurn(states[i], events[i])
    requires states[n].current.Some? && states[n].current.value.queue.index > 0
    ensures var q := states[n].current.value.queue;
            && q.history != []
            && q.index < |q.items|
            && PlanMove(q, Previous, false) == Some(Plan(q.index - 1, false))
  {
    HistoryEndsWithThePast(states, events, n);
    RunKeeps(states, events, n);
    QueueLaws.PreviousStepsBack(states[n].current.value.queue);
  }

  /** Whatever overlaps, a live queue is a permutation of the list it was given, its cursor
      is inside it and its history holds only its own items. */
  lemma LiveQueueIsSound(states: seq<State>, events: seq<Event>, n: nat)
    requires IsRun(states, events) && n <= |events| && states[n].current.Some?
    ensures var q := states[n].current.value.queue;
            && q.index < |q.items|
            && multiset(q.items) == multiset(q.original)
            && forall x :: x in q.history ==> x in q.items
  {
    RunKeeps(states, events, n);
  }

  /** The session was dropped, or its queue is still q. */
  predicate DroppedOr(s: State, q: Queue) {
    s.current.None? || s.current.value.queue == q
  }

  lemma FrozenStep(s: State, e: Event, q: Queue)
    requires Inv(s) && Enabled(s, e) && LeavesTickets(e) && DroppedOr(s, q) && q.status.Failed?
    ensures DroppedOr(Step(s, e), q)
  {
    if s.current.None? {
      HolderKeepsGeneration(s, e);
    } else {
      FailedStaysFailed(s, e);
    }
  }

  /** A failure freezes the cursor and the history: until a command begins or is granted, the
      failed queue stays exactly as it is, or its session is dropped. */
  lemma {:induction false} FailureFreezesQueue(states: seq<State>, events: seq<Event>, m: nat, n: nat, q: Queue)
    requires IsRun(states, events) && m <= n <= |events|
    requires states[m].current.Some? && states[m].current.value.queue == q && q.status.Failed?
    requires forall i :: m <= i < n ==> LeavesTickets(events[i])
    ensures DroppedOr(states[n], q)
    decreases n
  {
    if m < n {
      FailureFreezesQueue(states, events, m, n - 1, q);
      RunKeeps(states, events, n - 1);
      FrozenStep(states[n - 1], events[n - 1], q);
    }
  }
}
