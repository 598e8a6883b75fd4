/** Supervision theorems about every interleaving of one speaker's player. */
module PlayerTheorems {
  import opened Common
  import opened PlaybackQueue
  import opened PlayerModel
  import opened PlayerInvariants

  // ---- The newest generation -----------------------------------------------------

  /** Some control command still waits with the newest ticket. */
  ghost predicate ControlPending(s: State) {
    exists k :: k in s.waiting && s.waiting[k].Control? && s.waiting[k].claim == Some(s.generation)
  }

  /** The live session carries the newest generation, or a waiting command will give it
      that. A watcher acts only for the newest generation, so a session without it would
      never be advanced again. */
  ghost predicate Fenced(s: State) {
    s.current.Some? ==> s.current.value.generation == s.generation || ControlPending(s)
  }

  /** A retry that drew a ticket gets the lock and finds its item no longer failed: it
      returns (or raises) and leaves its ticket unused. */
  predicate WastesTicket(s: State, e: Event) {
    && e.Grant? && e.task in s.waiting
    && var command := s.waiting[e.task];
       && command.Control? && command.op.Play? && command.claim == Some(s.generation)
       && IsCurrent(s, command.session)
       && !s.current.value.queue.status.Failed?
  }

  /** Only a granted command or a new ticket can change who carries the newest one. */
  predicate LeavesTickets(e: Event) {
    !e.BeginStart? && !e.BeginUrl? && !e.BeginControl? && !e.Grant?
  }

  predicate StopsPlayback(e: Event) {
    e.StopCommand? || e.Disconnect?
  }

  /** No command moves, and a session that is still there keeps its generation. */
  ghost predicate KeepsTickets(s: State, e: Event, r: State) {
    && r.waiting == s.waiting
    && (!StopsPlayback(e) ==> r.generation == s.generation)
    && (r.current.Some? ==>
          && s.current.Some?
          && r.generation == s.generation
          && r.current.value.generation == s.current.value.generation
          && r.current.value.id == s.current.value.id)
  }

  predicate RunsWatcher(e: Event) {
    e.WatchWake? || e.GrantWatch?
  }

  lemma WatcherKeepsTickets(s: State, e: Event)
    requires Inv(s) && Enabled(s, e) && RunsWatcher(e)
    ensures KeepsTickets(s, e, Step(s, e))
  {
  }

  lemma JobKeepsTickets(s: State, e: Event)
    requires Inv(s) && Enabled(s, e) && LeavesTickets(e) && !RunsWatcher(e)
    ensures KeepsTickets(s, e, Step(s, e))
  {
  }

  lemma HolderKeepsGeneration(s: State, e: Event)
    requires Inv(s) && Enabled(s, e) && LeavesTickets(e)
    ensures KeepsTickets(s, e, Step(s, e))
  {
    if RunsWatcher(e) {
      WatcherKeepsTickets(s, e);
    } else {
      JobKeepsTickets(s, e);
    }
  }

  lemma HolderKeepsFence(s: State, e: Event)
    requires Inv(s) && Enabled(s, e) && LeavesTickets(e) && Fenced(s)
    ensures Fenced(Step(s, e))
  {
    HolderKeepsGeneration(s, e);
  }

  lemma BeginKeepsFence(s: State, e: Event)
    requires Inv(s) && Enabled(s, e) && (e.BeginStart? || e.BeginUrl? || e.BeginControl?) && Fenced(s)
    ensures Fenced(Step(s, e))
  {
    if e.BeginControl? && Plans(s, e.op, e.late) {
      var r := Step(s, e);
      if Claims(s.current.value.queue, e.op) {
        assert r.waiting[s.nextTask].claim == Some(r.generation);
      } else if ControlPending(s) {
        var k :| k in s.waiting && s.waiting[k].Control? && s.waiting[k].claim == Some(s.generation);
        assert r.waiting[k] == s.waiting[k];
      }
    }
  }

  lemma GrantOnlyRemoves(s: State, k: nat, tail: seq<Item>)
    requires Enabled(s, Grant(k, tail))
    ensures var r := Step(s, Grant(k, tail));
            r.waiting == s.waiting - {k} && r.generation == s.generation && r.nextTask == s.nextTask
  {
  }

  lemma GrantOtherKeepsGeneration(s: State, k: nat, tail: seq<Item>)
    requires Inv(s) && Enabled(s, Grant(k, tail)) && TicketOf(s.waiting[k]) != Some(s.generation)
    ensures var r := Step(s, Grant(k, tail));
            r.current.Some? ==> s.current.Some? && r.current.value.generation == s.current.value.generation
  {
  }

  /** Granting a command that does not hold the newest ticket. */
  lemma GrantOtherKeepsFence(s: State, k: nat, tail: seq<Item>)
    requires Inv(s) && Enabled(s, Grant(k, tail)) && Fenced(s)
    requires TicketOf(s.waiting[k]) != Some(s.generation)
    ensures Fenced(Step(s, Grant(k, tail)))
  {
    GrantOnlyRemoves(s, k, tail);
    GrantOtherKeepsGeneration(s, k, tail);
    if ControlPending(s) {
      var j :| j in s.waiting && s.waiting[j].Control? && s.waiting[j].claim == Some(s.generation);
      assert Step(s, Grant(k, tail)).waiting[j] == s.waiting[j];
    }
  }

  /** Granting the command that holds the newest ticket. */
  lemma GrantNewestKeepsFence(s: State, k: nat, tail: seq<Item>)
    requires Inv(s) && Enabled(s, Grant(k, tail))
    requires TicketOf(s.waiting[k]) == Some(s.generation)
    ensures Fenced(Step(s, Grant(k, tail))) <==> !WastesTicket(s, Grant(k, tail))
  {
    GrantOnlyRemoves(s, k, tail);
    var r := Step(s, Grant(k, tail));
    assert !ControlPending(r);
    if s.waiting[k].Control? {
      assert IsCurrent(s, s.waiting[k].session);
      if WastesTicket(s, Grant(k, tail)) {
        assert r.current.Some? && r.current.value.generation == s.current.value.generation < s.generation;
      }
    }
  }

  /** The exact condition: a step breaks the fence if and only if it wastes a ticket. */
  lemma FenceStep(s: State, e: Event)
    requires Inv(s) && Enabled(s, e) && Fenced(s)
    ensures Fenced(Step(s, e)) <==> !WastesTicket(s, e)
  {
    if LeavesTickets(e) {
      HolderKeepsFence(s, e);
    } else if !e.Grant? {
      BeginKeepsFence(s, e);
    } else if TicketOf(s.waiting[e.task]) == Some(s.generation) {
      GrantNewestKeepsFence(s, e.task, e.tail);
    } else {
      GrantOtherKeepsFence(s, e.task, e.tail);
    }
  }

  /** Over a whole run: the fence stands throughout if and only if no ticket is wasted. */
  lemma {:induction false} FencedRun(states: seq<State>, events: seq<Event>)
    requires IsRun(states, events)
    ensures (forall i :: 0 <= i < |states| ==> Fenced(states[i]))
       <==> (forall i :: 0 <= i < |events| ==> !WastesTicket(states[i], events[i]))
  {
    if forall i :: 0 <= i < |events| ==> !WastesTicket(states[i], events[i]) {
      FenceStands(states, events, |events|);
    } else if forall i :: 0 <= i < |states| ==> Fenced(states[i]) {
      forall i | 0 <= i < |events| ensures !WastesTicket(states[i], events[i]) {
        RunKeeps(states, events, i);
        assert Fenced(states[i]) && Fenced(states[i + 1]);
        FenceStep(states[i], events[i]);
      }
    }
  }

  lemma {:induction false} FenceStands(states: seq<State>, events: seq<Event>, n: nat)
    requires IsRun(states, events) && n <= |events|
    requires forall i :: 0 <= i < |events| ==> !WastesTicket(states[i], events[i])
    ensures forall i :: 0 <= i <= n ==> Fenced(states[i])
  {
    if n > 0 {
      FenceStands(states, events, n - 1);
      RunKeeps(states, events, n - 1);
      FenceStep(states[n - 1], events[n - 1]);
    }
  }

  // ---- A condition that callers can meet -----------------------------------------

  ghost predicate UnticketedPlayWaits(s: State, session: nat) {
    exists k :: k in s.waiting && s.waiting[k].Control? && s.waiting[k].op.Play?
      && s.waiting[k].claim.None? && s.waiting[k].session == session
  }

  /** A retry is issued while an earlier play, sent before the failure, still waits. */
  ghost predicate OverlappingRetry(s: State, e: Event) {
    && e.BeginControl? && e.op.Play?
    && s.current.Some? && s.current.value.queue.status.Failed?
    && UnticketedPlayWaits(s, s.current.value.id)
  }

  /** A retry that waits with the newest ticket still has a failed item to retry, and no
      play without a ticket can get in first. */
  ghost predicate RetryStands(s: State) {
    forall k :: (k in s.waiting && s.waiting[k].Control? && s.waiting[k].op.Play?
                 && s.waiting[k].claim == Some(s.generation) && s.current.Some?) ==>
      && s.current.value.queue.status.Failed?
      && forall j :: j in s.waiting && s.waiting[j].Control? && s.waiting[j].op.Play? && s.waiting[j].claim.None? ==>
           s.waiting[j].session != s.current.value.id
  }

  lemma HolderKeepsRetry(s: State, e: Event)
    requires Inv(s) && Enabled(s, e) && LeavesTickets(e) && RetryStands(s)
    ensures RetryStands(Step(s, e))
  {
    HolderKeepsGeneration(s, e);
    if s.current.Some? && s.current.value.queue.status.Failed? && Step(s, e).current.Some? {
      FailedStaysFailed(s, e);
    }
  }

  /** Nothing but a command changes a failed queue. */
  lemma FailedStaysFailed(s: State, e: Event)
    requires Inv(s) && Enabled(s, e) && LeavesTickets(e)
    requires s.current.Some? && s.current.value.queue.status.Failed?
    ensures Step(s, e).current.None? || Step(s, e).current.value.queue == s.current.value.queue
  {
  }

  lemma BeginKeepsRetry(s: State, e: Event)
    requires Inv(s) && Enabled(s, e) && (e.BeginStart? || e.BeginUrl? || e.BeginControl?)
    requires RetryStands(s) && !OverlappingRetry(s, e)
    ensures RetryStands(Step(s, e))
  {
    if e.BeginControl? && Plans(s, e.op, e.late) {
      PrepareCases(s, e.op, e.late);
    }
  }

  lemma GrantKeepsRetry(s: State, k: nat, tail: seq<Item>)
    requires Inv(s) && Enabled(s, Grant(k, tail)) && RetryStands(s)
    ensures RetryStands(Step(s, Grant(k, tail)))
  {
    GrantOnlyRemoves(s, k, tail);
    var r := Step(s, Grant(k, tail));
    if j :| j in r.waiting && r.waiting[j].Control? && r.waiting[j].op.Play? && r.waiting[j].claim == Some(r.generation) {
      assert s.waiting[j] == r.waiting[j];
      GrantBesideRetry(s, k, tail, j);
    }
  }

  /** While a retry waits with the newest ticket, no other command changes a status. */
  lemma GrantBesideRetry(s: State, k: nat, tail: seq<Item>, j: nat)
    requires Inv(s) && Enabled(s, Grant(k, tail)) && RetryStands(s)
    requires j != k && j in s.waiting && s.waiting[j].Control? && s.waiting[j].op.Play? && s.waiting[j].claim == Some(s.generation)
    ensures var r := Step(s, Grant(k, tail));
            r.current.Some? && r.current.value.id == s.current.value.id && r.current.value.queue.status.Failed?
  {
  }

  lemma RetryStep(s: State, e: Event)
    requires Inv(s) && Enabled(s, e) && RetryStands(s) && !OverlappingRetry(s, e)
    ensures RetryStands(Step(s, e)) && !WastesTicket(s, e)
  {
    if LeavesTickets(e) {
      HolderKeepsRetry(s, e);
    } else if e.Grant? {
      GrantKeepsRetry(s, e.task, e.tail);
    } else {
      BeginKeepsRetry(s, e);
    }
  }

  /** If no retry is issued while an earlier play still waits, no ticket is wasted. */
  lemma {:induction false} CarefulRunWastesNothing(states: seq<State>, events: seq<Event>, n: nat)
    requires IsRun(states, events) && n <= |events|
    requires forall i :: 0 <= i < |events| ==> !OverlappingRetry(states[i], events[i])
    ensures RetryStands(states[n])
    ensures forall i :: 0 <= i < n ==> !WastesTicket(states[i], events[i])
  {
    if n > 0 {
      CarefulRunWastesNothing(states, events, n - 1);
      RunKeeps(states, events, n - 1);
      RetryStep(states[n - 1], events[n - 1]);
    }
  }
}
