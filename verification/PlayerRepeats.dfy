/** The repeat laws over runs of the machine: what a queue does between moves. */
module PlayerRepeats {
  import opened Common
  import opened PlaybackQueue
  import opened PlayerModel
  import opened PlayerInvariants
  import opened PlayerTheorems
  import opened PlayerSupervision
  import PlayerHistory
  import PlayerMoves
  import QueueLaws

  /** An operation that moves the cursor or changes the order or the repeat mode. Pause, and
      play of anything but a failed item, do not; nor does a mode that is already set. */
  predicate Changes(q: Queue, op: Operation) {
    || PlayerMoves.IsMove(q, op)
    || (op.SetShuffle? && op.on != q.shuffle)
    || (op.SetRepeat? && op.mode != q.repeat)
  }

  /** The event is not the turn of such an operation. */
  predicate LeavesQueue(s: State, e: Event) {
    e.Grant? && PlayerMoves.StillGood(s, e.task) ==> !Changes(s.current.value.queue, s.waiting[e.task].op)
  }

  /** From m to n no operation that changes the queue gets its turn or is halfway through, and
      the session lives. Commands may begin, wait, be superseded, pause and resume; jobs, exits
      and watchers step as they like. */
  ghost predicate BetweenMoves(states: seq<State>, events: seq<Event>, m: nat, n: nat) {
    && IsRun(states, events) && m <= n <= |events|
    && (forall i :: m <= i < n ==> LeavesQueue(states[i], events[i]))
    && (forall i :: m <= i <= n ==> states[i].current.Some?)
    && !states[m].holder.Halting?
  }

  function QueueOf(s: State): Queue
    requires s.current.Some?
  {
    s.current.value.queue
  }

  /** How many exits were acted on from m to n. */
  function Exits(states: seq<State>, m: nat, n: nat): int
    requires m < |states| && n < |states|
  {
    |states[n].handled| - |states[m].handled|
  }

  /** The items whose exits were acted on from m to n, in order. */
  ghost function Ended(states: seq<State>, m: nat, n: nat): seq<Item>
    requires m <= n < |states|
    decreases n
  {
    if n == m then []
    else
      var s, before := states[n - 1], Ended(states, m, n - 1);
      if states[n].handled != s.handled && s.current.Some? && QueueOf(s).index < |QueueOf(s).items|
      then before + [QueueOf(s).items[QueueOf(s).index]] else before
  }

  // ---- One step ------------------------------------------------------------------

  /** Pausing, resuming and failing are all that happens to a status by itself. */
  predicate StatusStays(before: Status, after: Status) {
    || before == after || after.Failed?
    || ((before.Playing? || before.Paused?) && (after.Playing? || after.Paused?))
  }

  /** Either nothing happens to the queue but to its status, or the exit of the active pair is
      acted on and moves it once. */
  ghost predicate Moves(s: State, r: State) {
    && s.current.Some? && r.current.Some? && QueueOf(s).index < |QueueOf(s).items|
    && if r.handled == s.handled then
         QueueOf(r) == QueueOf(s).(status := QueueOf(r).status) && StatusStays(QueueOf(s).status, QueueOf(r).status)
       else
         && |r.handled| == |s.handled| + 1
         && !QueueOf(s).status.Failed? && !QueueOf(s).status.Completed?
         && (QueueOf(r) == AfterExit(QueueOf(s), true) || QueueOf(r) == AfterExit(QueueOf(s), false))
  }

  lemma HolderMoves(s: State, e: Event)
    requires Inv(s) && Enabled(s, e) && LeavesTickets(e) && !s.holder.Halting?
    requires s.current.Some? && Step(s, e).current.Some?
    ensures !Step(s, e).holder.Halting? && Moves(s, Step(s, e))
  {
    OnlyCurrentExitsAreHandled(s, e);
    if e.GrantWatch? {
      WatcherHaltsNothing(s, e.pair);
    } else {
      PlayerHistory.HolderKeepsQueue(s, e);
    }
  }

  lemma WatcherHaltsNothing(s: State, pair: nat)
    requires Inv(s) && Enabled(s, GrantWatch(pair))
    ensures !Step(s, GrantWatch(pair)).holder.Halting?
  {
  }

  lemma BeginMoves(s: State, e: Event)
    requires Inv(s) && Enabled(s, e) && (e.BeginStart? || e.BeginUrl? || e.BeginControl?)
    requires s.current.Some? && Step(s, e).current.Some?
    ensures Step(s, e).holder == s.holder && Moves(s, Step(s, e))
  {
    CommandHandlesNothing(s, e);
    if e.BeginControl? && Plans(s, e.op, e.late) {
      PrepareCases(s, e.op, e.late);
    }
  }

  lemma GoodGrantMoves(s: State, k: nat, tail: seq<Item>)
    requires Inv(s) && Enabled(s, Grant(k, tail)) && PlayerMoves.StillGood(s, k)
    requires !Changes(s.current.value.queue, s.waiting[k].op)
    ensures !Step(s, Grant(k, tail)).holder.Halting? && Moves(s, Step(s, Grant(k, tail)))
  {
    CommandHandlesNothing(s, Grant(k, tail));
    AdmittedTurn(s, k, tail);
    PlayerMoves.AdjustingPerform(s.(waiting := s.waiting - {k}), s.waiting[k], tail);
  }

  lemma IdleGrantMoves(s: State, k: nat, tail: seq<Item>)
    requires Inv(s) && Enabled(s, Grant(k, tail)) && s.current.Some? && !PlayerMoves.StillGood(s, k)
    ensures Step(s, Grant(k, tail)).holder.Free? && Moves(s, Step(s, Grant(k, tail)))
  {
    assert Step(s, Grant(k, tail)) == s.(waiting := s.waiting - {k});
  }

  lemma StepMoves(s: State, e: Event)
    requires Inv(s) && Enabled(s, e) && LeavesQueue(s, e) && !s.holder.Halting?
    requires s.current.Some? && Step(s, e).current.Some?
    ensures !Step(s, e).holder.Halting? && Moves(s, Step(s, e))
  {
    if LeavesTickets(e) {
      HolderMoves(s, e);
    } else if !e.Grant? {
      BeginMoves(s, e);
    } else if PlayerMoves.StillGood(s, e.task) {
      GoodGrantMoves(s, e.task, e.tail);
    } else {
      IdleGrantMoves(s, e.task, e.tail);
    }
  }

  /** The same status, up to pause and resume. */
  predicate Agree(a: Status, b: Status) {
    a == b || ((a.Playing? || a.Paused?) && (b.Playing? || b.Paused?))
  }

  /** The queue after h exits: h successes, or a failure after them or as the last of them. */
  ghost predicate Follows(q: Queue, r: Queue, h: int)
    requires q.index < |q.items|
  {
    && h >= 0
    && (!r.status.Failed? ==>
          && r == QueueLaws.Successes(q, h).(status := r.status)
          && Agree(QueueLaws.Successes(q, h).status, r.status))
    && (r.status.Failed? ==>
          || r == QueueLaws.Successes(q, h).(status := Failed)
          || (h > 0 && r == QueueLaws.Successes(q, h - 1).(status := Failed)))
  }

  lemma ExitFollows(q: Queue, s: Queue, r: Queue, h: nat)
    requires q.index < |q.items| && Follows(q, s, h) && !s.status.Failed?
    requires s.index < |s.items| && (r == AfterExit(s, true) || r == AfterExit(s, false))
    ensures Follows(q, r, h + 1)
  {
    assert QueueLaws.Successes(q, h + 1) == AfterExit(QueueLaws.Successes(q, h), true);
  }

  lemma MoveFollows(q: Queue, s: State, r: State, h: int, next: int)
    requires q.index < |q.items| && Moves(s, r) && Follows(q, QueueOf(s), h) && next == h + |r.handled| - |s.handled|
    ensures Follows(q, QueueOf(r), next)
  {
    if r.handled != s.handled {
      ExitFollows(q, QueueOf(s), QueueOf(r), h);
    }
  }

  // ---- Runs ----------------------------------------------------------------------

  ghost predicate MovesAt(states: seq<State>, k: nat) {
    k + 1 < |states| && Moves(states[k], states[k + 1])
  }

  /** The same window, step by step. */
  ghost predicate Unbroken(states: seq<State>, m: nat, n: nat) {
    && m <= n < |states|
    && states[m].current.Some? && QueueOf(states[m]).index < |QueueOf(states[m]).items|
    && states[n].current.Some?
    && forall k :: m <= k < n ==> MovesAt(states, k)
  }

  lemma UnbrokenShrinks(states: seq<State>, m: nat, n: nat)
    requires Unbroken(states, m, n) && n > m
    ensures Unbroken(states, m, n - 1) && Moves(states[n - 1], states[n])
  {
    assert MovesAt(states, n - 1);
  }

  lemma LastMove(states: seq<State>, events: seq<Event>, n: nat)
    requires IsRun(states, events) && n < |events| && LeavesQueue(states[n], events[n])
    requires !states[n].holder.Halting? && states[n].current.Some? && states[n + 1].current.Some?
    ensures !states[n + 1].holder.Halting? && MovesAt(states, n)
  {
    RunKeeps(states, events, n);
    StepMoves(states[n], events[n]);
  }

  lemma {:induction false} NothingHalts(states: seq<State>, events: seq<Event>, m: nat, n: nat)
    requires BetweenMoves(states, events, m, n)
    ensures !states[n].holder.Halting?
    decreases n
  {
    if n > m {
      NothingHalts(states, events, m, n - 1);
      LastMove(states, events, n - 1);
    }
  }

  lemma WindowMoves(states: seq<State>, events: seq<Event>, m: nat, n: nat, k: nat)
    requires BetweenMoves(states, events, m, n) && m <= k < n
    ensures MovesAt(states, k)
  {
    NothingHalts(states, events, m, k);
    LastMove(states, events, k);
  }

  lemma WindowIsUnbroken(states: seq<State>, events: seq<Event>, m: nat, n: nat)
    requires BetweenMoves(states, events, m, n)
    ensures Unbroken(states, m, n)
  {
    PlayerHistory.LiveQueueIsSound(states, events, m);
    forall k | m <= k < n ensures MovesAt(states, k) {
      WindowMoves(states, events, m, n, k);
    }
  }

  lemma {:induction false} MovesAddUp(states: seq<State>, m: nat, n: nat)
    requires Unbroken(states, m, n)
    ensures Follows(QueueOf(states[m]), QueueOf(states[n]), Exits(states, m, n))
    decreases n
  {
    if n > m {
      UnbrokenShrinks(states, m, n);
      MovesAddUp(states, m, n - 1);
      MoveFollows(QueueOf(states[m]), states[n - 1], states[n], Exits(states, m, n - 1), Exits(states, m, n));
    } else {
      assert Exits(states, m, m) == 0;
    }
  }

  lemma MoveEnds(q: Queue, s: State, r: State, h: int)
    requires q.index < |q.items| && Moves(s, r) && Follows(q, QueueOf(s), h) && r.handled != s.handled
    ensures |r.handled| == |s.handled| + 1
    ensures QueueLaws.Played(q, h + 1) == QueueLaws.Played(q, h) + [QueueOf(s).items[QueueOf(s).index]]
  {
  }

  lemma EndedGrows(states: seq<State>, m: nat, n: nat)
    requires m <= n && n + 1 < |states| && Moves(states[n], states[n + 1])
    ensures Ended(states, m, n + 1) == Ended(states, m, n)
              + if states[n + 1].handled == states[n].handled then [] else [QueueOf(states[n]).items[QueueOf(states[n]).index]]
  {
  }

  lemma {:induction false} EndedArePlayed(states: seq<State>, m: nat, n: nat)
    requires Unbroken(states, m, n)
    ensures Exits(states, m, n) >= 0
    ensures Ended(states, m, n) == QueueLaws.Played(QueueOf(states[m]), Exits(states, m, n))
    decreases n
  {
    if n > m {
      UnbrokenShrinks(states, m, n);
      EndedArePlayed(states, m, n - 1);
      MovesAddUp(states, m, n - 1);
      EndedGrows(states, m, n - 1);
      if states[n].handled != states[n - 1].handled {
        MoveEnds(QueueOf(states[m]), states[n - 1], states[n], Exits(states, m, n - 1));
      }
    }
  }

  /** Between moves the queue is where as many successes as exits were acted on take it, or
      it has failed there; and the items that ended are the ones those successes play. */
  lemma ExitsMoveTheQueue(states: seq<State>, events: seq<Event>, m: nat, n: nat)
    requires BetweenMoves(states, events, m, n)
    ensures QueueOf(states[m]).index < |QueueOf(states[m]).items|
    ensures Follows(QueueOf(states[m]), QueueOf(states[n]), Exits(states, m, n))
    ensures Ended(states, m, n) == QueueLaws.Played(QueueOf(states[m]), Exits(states, m, n))
  {
    WindowIsUnbroken(states, events, m, n);
    MovesAddUp(states, m, n);
    EndedArePlayed(states, m, n);
  }

  /** Repeat all, over a run: when as many exits as there are items were acted on and none
      failed, each item ended exactly once and the cursor is where it was. */
  lemma RepeatAllRun(states: seq<State>, events: seq<Event>, m: nat, n: nat)
    requires BetweenMoves(states, events, m, n)
    requires QueueOf(states[m]).repeat.All? && !QueueOf(states[n]).status.Failed?
    requires Exits(states, m, n) == |QueueOf(states[m]).items|
    ensures QueueOf(states[n]).index == QueueOf(states[m]).index
    ensures multiset(Ended(states, m, n)) == multiset(QueueOf(states[m]).items)
  {
    ExitsMoveTheQueue(states, events, m, n);
    QueueLaws.RepeatAllCycle(QueueOf(states[m]));
  }

  /** A queue that does not repeat never sees more exits than items from the cursor on. */
  lemma {:induction false} ExitsAreFew(states: seq<State>, m: nat, n: nat)
    requires Unbroken(states, m, n)
    requires QueueOf(states[m]).repeat.Off? && Agree(QueueOf(states[m]).status, Playing)
    ensures 0 <= Exits(states, m, n) <= |QueueOf(states[m]).items| - QueueOf(states[m]).index
    decreases n
  {
    if n > m {
      UnbrokenShrinks(states, m, n);
      ExitsAreFew(states, m, n - 1);
      MovesAddUp(states, m, n - 1);
      QueueLaws.RepeatOffCompletes(QueueOf(states[m]), Exits(states, m, n - 1));
    }
  }

  /** Repeat off, over a run from index i of n items: never more than n - i exits are acted on;
      unless one failed, the queue is completed exactly when all of them were, and the items
      from the cursor on ended once each, in order. */
  lemma RepeatOffRun(states: seq<State>, events: seq<Event>, m: nat, n: nat)
    requires BetweenMoves(states, events, m, n)
    requires QueueOf(states[m]).repeat.Off? && Agree(QueueOf(states[m]).status, Playing)
    ensures var q, h := QueueOf(states[m]), Exits(states, m, n);
            && q.index < |q.items| && 0 <= h <= |q.items| - q.index
            && Ended(states, m, n) == q.items[q.index..q.index + h]
            && (!QueueOf(states[n]).status.Failed? ==>
                  (QueueOf(states[n]).status.Completed? <==> h == |q.items| - q.index))
  {
    ExitsMoveTheQueue(states, events, m, n);
    WindowIsUnbroken(states, events, m, n);
    ExitsAreFew(states, m, n);
    QueueLaws.RepeatOffCompletes(QueueOf(states[m]), Exits(states, m, n));
    QueueLaws.RepeatOffPlays(QueueOf(states[m]), Exits(states, m, n));
  }

  /** Repeat one, over a run: neither the cursor nor the history moves, failed or not, and
      every item that ended is the one under the cursor. */
  lemma RepeatOneRun(states: seq<State>, events: seq<Event>, m: nat, n: nat)
    requires BetweenMoves(states, events, m, n) && QueueOf(states[m]).repeat.One?
    ensures var q, r := QueueOf(states[m]), QueueOf(states[n]);
            && r.index == q.index < |q.items| && r.history == q.history
            && forall k :: 0 <= k < |Ended(states, m, n)| ==> Ended(states, m, n)[k] == q.items[q.index]
  {
    ExitsMoveTheQueue(states, events, m, n);
    var h := Exits(states, m, n);
    QueueLaws.RepeatOneStays(QueueOf(states[m]), h);
    if h > 0 {
      QueueLaws.RepeatOneStays(QueueOf(states[m]), h - 1);
    }
  }
}
