/**
 The history suffix over every interleaving: which moves keep it, whatever overlaps. A move is
 carried out when a command gets the lock and nothing plays, or when the old pair it waited for
 has exited.
 */
module PlayerMoves {
  import opened Common
  import opened PlaybackQueue
  import opened PlayerModel
  import opened PlayerInvariants
  import opened PlayerTheorems
  import PlayerHistory
  import QueueLaws

  ghost predicate HistoryHolds(s: State) {
    s.current.Some? ==> Suffix(s.current.value.queue)
  }

  /** Next, previous, and a play of a failed item replace the pair. */
  predicate IsMove(q: Queue, op: Operation) {
    op.Next? || op.Previous? || (op.Play? && q.status.Failed?)
  }

  /** A waiting control command that will not give up when its turn comes. */
  predicate StillGood(s: State, k: nat) {
    && k in s.waiting && s.waiting[k].Control? && IsCurrent(s, s.waiting[k].session)
    && (s.waiting[k].claim.Some? ==> s.waiting[k].claim.value == s.generation)
  }

  /** The command whose move an event carries out, if it carries one out. */
  function CarriedOut(s: State, e: Event): Option<Command> {
    if e.Halted? && s.holder.Halting? && s.holder.command.Control? && IsCurrent(s, s.holder.command.session)
    then Some(s.holder.command)
    else if e.Grant? && StillGood(s, e.task) && IsMove(s.current.value.queue, s.waiting[e.task].op) && s.active.None?
    then Some(s.waiting[e.task])
    else None
  }

  /** If the event carries a move out, its plan fits the queue as it now is. */
  ghost predicate FitsNow(s: State, e: Event) {
    CarriedOut(s, e).Some? ==>
      s.current.Some? && QueueLaws.MoveFits(s.current.value.queue, CarriedOut(s, e).value.op, CarriedOut(s, e).value.plan)
  }

  // ---- One step ------------------------------------------------------------------

  /** r has the queue of s with the move of a command carried out. */
  ghost predicate Moved(s: State, r: State, command: Command) {
    && command.Control? && s.current.Some? && r.current.Some?
    && Valid(s.current.value.queue) && command.plan.target < |s.current.value.queue.items|
    && r.current.value.queue == Navigate(s.current.value.queue, command.op, command.plan)
  }

  lemma HaltedMoves(s: State)
    requires Inv(s) && Enabled(s, Halted) && CarriedOut(s, Halted).Some?
    ensures Moved(s, Step(s, Halted), s.holder.command)
  {
  }

  lemma GrantMoves(s: State, k: nat, tail: seq<Item>)
    requires Inv(s) && Enabled(s, Grant(k, tail)) && CarriedOut(s, Grant(k, tail)).Some?
    ensures Moved(s, Step(s, Grant(k, tail)), s.waiting[k])
  {
    AdmittedTurn(s, k, tail);
    ReplaceCases(s.(waiting := s.waiting - {k}), s.waiting[k]);
  }

  lemma MoveHappens(s: State, e: Event)
    requires Inv(s) && Enabled(s, e) && CarriedOut(s, e).Some?
    ensures Moved(s, Step(s, e), CarriedOut(s, e).value)
  {
    if e.Halted? {
      HaltedMoves(s);
    } else {
      GrantMoves(s, e.task, e.tail);
    }
  }

  lemma AbortKeepsHistory(s: State)
    requires Inv(s) && Enabled(s, Halted) && CarriedOut(s, Halted).None? && HistoryHolds(s)
    ensures HistoryHolds(Step(s, Halted))
  {
  }

  lemma WatcherKeepsHistory(s: State, pair: nat)
    requires Inv(s) && Enabled(s, GrantWatch(pair)) && HistoryHolds(s)
    ensures HistoryHolds(Step(s, GrantWatch(pair)))
  {
    if StillMine(s, pair) {
      QueueLaws.ExitKeepsSuffix(s.current.value.queue, PairSucceeded(s, pair));
    }
  }

  lemma AdjustingPerform(s: State, command: Command, tail: seq<Item>)
    requires Inv(s) && Admitted(s, command) && !IsMove(s.current.value.queue, command.op)
    ensures var q, r := s.current.value.queue, Perform(s, command, tail);
            && r.current.Some? && (r.holder == s.holder || r.holder.Notifying?)
            && (r.current.value.queue == q
                || (r.current.value.queue == Adjusted(q, command.op, tail)
                    && (command.op.Pause? ==> q.status.Playing?) && (command.op.Play? ==> q.status.Paused?)))
  {
  }

  lemma HaltingPerform(s: State, command: Command, tail: seq<Item>)
    requires Inv(s) && Admitted(s, command) && IsMove(s.current.value.queue, command.op) && s.active.Some?
    ensures var r := Perform(s, command, tail); r.current.Some? && r.current.value.queue == s.current.value.queue
  {
    ReplaceCases(s, command);
  }

  lemma AdmittedKeepsHistory(s: State, command: Command, tail: seq<Item>)
    requires Inv(s) && Admitted(s, command) && Suffix(s.current.value.queue)
    requires command.op.SetShuffle? ==> QueueLaws.Arranges(s.current.value.queue, tail)
    requires IsMove(s.current.value.queue, command.op) ==> s.active.Some?
    ensures HistoryHolds(Perform(s, command, tail))
  {
    if IsMove(s.current.value.queue, command.op) {
      HaltingPerform(s, command, tail);
    } else {
      AdjustingPerform(s, command, tail);
      PlayerHistory.AdjustedKeepsSuffix(s.current.value.queue, command.op, tail);
    }
  }

  lemma GrantKeepsHistory(s: State, k: nat, tail: seq<Item>)
    requires Inv(s) && Enabled(s, Grant(k, tail)) && CarriedOut(s, Grant(k, tail)).None? && HistoryHolds(s)
    ensures HistoryHolds(Step(s, Grant(k, tail)))
  {
    if StillGood(s, k) {
      AdmittedTurn(s, k, tail);
      AdmittedKeepsHistory(s.(waiting := s.waiting - {k}), s.waiting[k], tail);
    }
  }

  lemma BeginKeepsHistory(s: State, e: Event)
    requires Inv(s) && Enabled(s, e) && (e.BeginStart? || e.BeginUrl? || e.BeginControl?) && HistoryHolds(s)
    ensures HistoryHolds(Step(s, e))
  {
    if e.BeginControl? && Plans(s, e.op, e.late) {
      PrepareCases(s, e.op, e.late);
    }
  }

  /** Nothing but a move can break the suffix. */
  lemma OthersKeepHistory(s: State, e: Event)
    requires Inv(s) && Enabled(s, e) && CarriedOut(s, e).None? && HistoryHolds(s)
    ensures HistoryHolds(Step(s, e))
  {
    if e.Halted? {
      AbortKeepsHistory(s);
    } else if e.GrantWatch? {
      WatcherKeepsHistory(s, e.pair);
    } else if e.Grant? {
      GrantKeepsHistory(s, e.task, e.tail);
    } else if LeavesTickets(e) {
      PlayerHistory.HolderKeepsQueue(s, e);
    } else {
      BeginKeepsHistory(s, e);
    }
  }

  /** A step keeps the suffix if the move it carries out, if any, fits; and where the history
      tells, only if it fits. */
  lemma HistoryStep(s: State, e: Event)
    requires Inv(s) && Enabled(s, e) && HistoryHolds(s)
    ensures FitsNow(s, e) ==> HistoryHolds(Step(s, e))
    ensures HistoryHolds(Step(s, e)) && Tells(s, e) ==> FitsNow(s, e)
  {
    if CarriedOut(s, e).None? {
      OthersKeepHistory(s, e);
    } else {
      MoveHappens(s, e);
      var q, command := s.current.value.queue, CarriedOut(s, e).value;
      if FitsNow(s, e) {
        QueueLaws.FittingMoveKeepsSuffix(q, command.op, command.plan);
      } else if Tells(s, e) {
        QueueLaws.MoveKeepsSuffixIff(q, command.op, command.plan);
      }
    }
  }

  /** The event carries no move out that older history could cover for. */
  ghost predicate Tells(s: State, e: Event) {
    CarriedOut(s, e).Some? && s.current.Some? && !CarriedOut(s, e).value.op.Play? ==>
      QueueLaws.HistoryTells(s.current.value.queue, CarriedOut(s, e).value.op, CarriedOut(s, e).value.plan)
  }

  // ---- Runs ----------------------------------------------------------------------

  lemma HistoryNext(states: seq<State>, events: seq<Event>, n: nat)
    requires IsRun(states, events) && n < |events| && HistoryHolds(states[n])
    ensures FitsNow(states[n], events[n]) ==> HistoryHolds(states[n + 1])
    ensures HistoryHolds(states[n + 1]) && Tells(states[n], events[n]) ==> FitsNow(states[n], events[n])
  {
    RunKeeps(states, events, n);
    HistoryStep(states[n], events[n]);
  }

  /** Whatever overlaps, the history of every run ends with the items before the cursor as long
      as each move fits when it is carried out. */
  lemma {:induction false} FittingMovesKeepHistory(states: seq<State>, events: seq<Event>, n: nat)
    requires IsRun(states, events) && n <= |events|
    requires forall i :: 0 <= i < n ==> FitsNow(states[i], events[i])
    ensures forall i :: 0 <= i <= n ==> HistoryHolds(states[i])
  {
    if n > 0 {
      FittingMovesKeepHistory(states, events, n - 1);
      HistoryNext(states, events, n - 1);
    }
  }

  /** And where it does so throughout, each move that the history tells of fits. */
  lemma KeptHistoryTellsFit(states: seq<State>, events: seq<Event>, n: nat)
    requires IsRun(states, events) && n < |events|
    requires HistoryHolds(states[n]) && HistoryHolds(states[n + 1]) && Tells(states[n], events[n])
    ensures FitsNow(states[n], events[n])
  {
    HistoryNext(states, events, n);
  }

  /** So in a run in which the history tells of every move, it holds throughout if and only if
      every move fits. */
  lemma HistoryRunIff(states: seq<State>, events: seq<Event>)
    requires IsRun(states, events) && forall i :: 0 <= i < |events| ==> Tells(states[i], events[i])
    ensures (forall i :: 0 <= i < |states| ==> HistoryHolds(states[i]))
       <==> (forall i :: 0 <= i < |events| ==> FitsNow(states[i], events[i]))
  {
    if forall i :: 0 <= i < |events| ==> FitsNow(states[i], events[i]) {
      FittingMovesKeepHistory(states, events, |events|);
    } else if forall i :: 0 <= i < |states| ==> HistoryHolds(states[i]) {
      forall i | 0 <= i < |events| ensures FitsNow(states[i], events[i]) {
        assert HistoryHolds(states[i]) && HistoryHolds(states[i + 1]);
        KeptHistoryTellsFit(states, events, i);
      }
    }
  }
}
