/** Exits, processes and the last command, over every interleaving of one speaker's player. */
module PlayerSupervision {
  import opened Common
  import opened PlaybackQueue
  import opened PlayerModel
  import opened PlayerInvariants
  import opened PlayerTheorems

  // ---- Exactly-once completion ---------------------------------------------------

  /** Nobody holds the lock and no command waits for it. */
  ghost predicate Quiet(s: State) {
    s.holder.Free? && s.waiting == map[]
  }

  /** The session's pair is the active one and its watcher will act on its exit. */
  ghost predicate Supervised(s: State, pair: nat) {
    && pair < |s.pairs| && pair < |s.watches|
    && s.current.Some?
    && s.current.value.processes == Some(pair) == s.active
    && s.current.value.generation == s.pairs[pair].generation == s.generation
    && (s.watches[pair].Watching? || s.watches[pair] == Queued(s.current.value.id))
    && s.current.value.queue.index < |s.current.value.queue.items|
  }

  /** At a quiet lock, a playing or paused queue is supervised if and only if the fence
      stands, that is, if no ticket was wasted. */
  lemma QuietSessionIsSupervised(s: State)
    requires Inv(s) && Quiet(s) && s.current.Some?
    requires s.current.value.queue.status.Playing? || s.current.value.queue.status.Paused?
    ensures s.active.Some? && s.current.value.processes == s.active
    ensures Supervised(s, s.active.value) <==> Fenced(s)
  {
  }

  /** What acting on an exit does: the queue moves as AfterExit says, once, the pair is no
      longer active, and the next item starts exactly if the queue still plays. */
  ghost predicate ExitConsumed(s: State, r: State, pair: nat)
    requires pair < |s.pairs| && s.current.Some? && s.current.value.queue.index < |s.current.value.queue.items|
  {
    && r.handled == s.handled + [pair]
    && r.active.None? && pair < |r.watches| && r.watches[pair].Done?
    && r.current.Some? && r.current.value.id == s.current.value.id
    && r.current.value.queue == AfterExit(s.current.value.queue, PairSucceeded(s, pair))
    && (r.holder.Warming? <==> r.current.value.queue.status.Playing?)
  }

  lemma QueuedExitIsActedOn(s: State, pair: nat)
    requires Inv(s) && s.holder.Free? && Supervised(s, pair) && s.watches[pair].Queued?
    ensures Enabled(s, GrantWatch(pair)) && ExitConsumed(s, Step(s, GrantWatch(pair)), pair)
  {
    assert StillMine(s, pair);
  }

  lemma WakingQueues(s: State, pair: nat)
    requires Inv(s) && s.holder.Free? && Supervised(s, pair) && s.watches[pair].Watching?
    requires HasExited(s, s.pairs[pair].decoder) && HasExited(s, s.pairs[pair].player)
    ensures Enabled(s, WatchWake(pair))
    ensures var woken := Step(s, WatchWake(pair));
            && Inv(woken) && woken.holder.Free? && Supervised(woken, pair)
            && woken == s.(watches := s.watches[pair := Queued(s.current.value.id)])
  {
    StepKeeps(s, WatchWake(pair));
  }

  /** From a supervised state whose pair has exited the watcher's steps, two or the one that is
      left, consume the exit. */
  lemma SupervisedExitIsActedOn(s: State, pair: nat)
    requires Inv(s) && s.holder.Free? && Supervised(s, pair)
    requires HasExited(s, s.pairs[pair].decoder) && HasExited(s, s.pairs[pair].player)
    ensures s.watches[pair].Watching? ==> Enabled(s, WatchWake(pair))
    ensures var woken := if s.watches[pair].Watching? then Step(s, WatchWake(pair)) else s;
            Enabled(woken, GrantWatch(pair)) && ExitConsumed(s, Step(woken, GrantWatch(pair)), pair)
  {
    if s.watches[pair].Watching? {
      WakingQueues(s, pair);
      QueuedExitIsActedOn(Step(s, WatchWake(pair)), pair);
    } else {
      QueuedExitIsActedOn(s, pair);
    }
  }

  /** A plain stream is supervised if and only if its pair is of the newest generation: then,
      and only then, its watcher's one step frees the speaker, without the lock. */
  lemma StreamExitIsActedOn(s: State, pair: nat)
    requires Inv(s) && s.current.None? && s.active == Some(pair)
    requires HasExited(s, s.pairs[pair].decoder) && HasExited(s, s.pairs[pair].player)
    ensures s.pairs[pair].generation == s.generation ==> Enabled(s, WatchWake(pair))
    ensures Enabled(s, WatchWake(pair)) ==>
              var r, newest := Step(s, WatchWake(pair)), s.pairs[pair].generation == s.generation;
              && (r.active.None? <==> newest)
              && r.handled == if newest then s.handled + [pair] else s.handled
  {
  }

  /** The exit of a pair is acted on: it is the active pair of the newest generation, both
      children have gone, nobody acted on it before, and the queue, if there is one, makes
      exactly the one move that the outcome calls for. */
  ghost predicate ActsOn(s: State, r: State, pair: nat) {
    && r.handled == s.handled + [pair]
    && pair < |s.pairs| && pair !in s.handled
    && s.active == Some(pair) && r.active.None?
    && s.pairs[pair].generation == s.generation
    && HasExited(s, s.pairs[pair].decoder) && HasExited(s, s.pairs[pair].player)
    && r.current.Some? == s.current.Some?
    && (s.current.Some? ==>
          && IsCurrent(s, s.current.value.id)
          && r.current.value.id == s.current.value.id
          && r.current.value.queue == AfterExit(s.current.value.queue, PairSucceeded(s, pair)))
  }

  lemma WakingHandles(s: State, pair: nat)
    requires Inv(s) && Enabled(s, WatchWake(pair))
    ensures var r := Step(s, WatchWake(pair));
            if r.handled == s.handled then r.current == s.current else ActsOn(s, r, pair)
  {
  }

  lemma ActingHandles(s: State, pair: nat)
    requires Inv(s) && Enabled(s, GrantWatch(pair))
    ensures var r := Step(s, GrantWatch(pair));
            if r.handled == s.handled then r.current == s.current else ActsOn(s, r, pair)
  {
  }

  lemma JobHandlesNothing(s: State, e: Event)
    requires Inv(s) && Enabled(s, e) && LeavesTickets(e) && !RunsWatcher(e)
    ensures Step(s, e).handled == s.handled
  {
  }

  lemma CommandHandlesNothing(s: State, e: Event)
    requires Inv(s) && Enabled(s, e) && !LeavesTickets(e)
    ensures Step(s, e).handled == s.handled
  {
  }

  /** An exit is acted on only by its own watcher, for the active pair of the newest
      generation, after both children have gone. A watcher that does not act leaves the
      session as it is. */
  lemma OnlyCurrentExitsAreHandled(s: State, e: Event)
    requires Inv(s) && Enabled(s, e)
    ensures var r := Step(s, e);
            if r.handled == s.handled then RunsWatcher(e) ==> r.current == s.current
            else RunsWatcher(e) && ActsOn(s, r, e.pair)
  {
    if e.WatchWake? {
      WakingHandles(s, e.pair);
    } else if e.GrantWatch? {
      ActingHandles(s, e.pair);
    } else if LeavesTickets(e) {
      JobHandlesNothing(s, e);
    } else {
      CommandHandlesNothing(s, e);
    }
  }

  /** Over a run no pair's exit is ever acted on twice. */
  lemma ExitsAreHandledOnce(states: seq<State>, events: seq<Event>, n: nat)
    requires IsRun(states, events) && n <= |events|
    ensures NoDuplicates(states[n].handled)
  {
    RunKeeps(states, events, n);
  }

  // ---- No orphaned processes -----------------------------------------------------

  /** A pair with a child that still runs and was not told to stop. */
  predicate Loose(s: State, pair: nat)
    requires pair < |s.pairs|
  {
    || (s.pairs[pair].decoder < |s.processes|
        && s.processes[s.pairs[pair].decoder].exit.None? && !s.processes[s.pairs[pair].decoder].signalled)
    || (s.pairs[pair].player < |s.processes|
        && s.processes[s.pairs[pair].player].exit.None? && !s.processes[s.pairs[pair].player].signalled)
  }

  /** Pairs are made of children spawned in order, so no child is in two pairs. */
  ghost predicate Ordered(s: State) {
    && (forall i :: 0 <= i < |s.pairs| ==> s.pairs[i].decoder < s.pairs[i].player < |s.processes|)
    && (forall i, j :: 0 <= i < j < |s.pairs| ==> s.pairs[i].player < s.pairs[j].decoder)
    && (s.holder.Pairing? ==>
          && s.holder.decoder < |s.processes|
          && forall i :: 0 <= i < |s.pairs| ==> s.pairs[i].player < s.holder.decoder)
  }

  lemma OrderedStep(s: State, e: Event)
    requires Inv(s) && Ordered(s) && Enabled(s, e)
    ensures Ordered(Step(s, e))
  {
    if !LeavesTickets(e) {
      CommandSpawnsNothing(s, e);
    } else if !e.Prepared? && !e.Paired? {
      HolderSpawnsNothing(s, e);
    }
  }

  ghost predicate SpawnedNothing(s: State, r: State) {
    && r.pairs == s.pairs && |r.processes| == |s.processes|
    && (r.holder.Pairing? ==> r.holder == s.holder)
  }

  lemma HolderSpawnsNothing(s: State, e: Event)
    requires Inv(s) && Enabled(s, e) && LeavesTickets(e) && !e.Prepared? && !e.Paired?
    ensures SpawnedNothing(s, Step(s, e))
  {
  }

  lemma BeginSpawnsNothing(s: State, e: Event)
    requires Inv(s) && Enabled(s, e) && (e.BeginStart? || e.BeginUrl? || e.BeginControl?)
    ensures SpawnedNothing(s, Step(s, e))
  {
  }

  lemma GrantSpawnsNothing(s: State, k: nat, tail: seq<Item>)
    requires Inv(s) && Enabled(s, Grant(k, tail))
    ensures SpawnedNothing(s, Step(s, Grant(k, tail)))
  {
  }

  lemma CommandSpawnsNothing(s: State, e: Event)
    requires Inv(s) && Enabled(s, e) && !LeavesTickets(e)
    ensures SpawnedNothing(s, Step(s, e))
  {
    if e.Grant? {
      GrantSpawnsNothing(s, e.task, e.tail);
    } else {
      BeginSpawnsNothing(s, e);
    }
  }

  lemma {:induction false} RunIsOrdered(states: seq<State>, events: seq<Event>, n: nat)
    requires IsRun(states, events) && n <= |events|
    ensures Ordered(states[n])
  {
    if n > 0 {
      RunIsOrdered(states, events, n - 1);
      RunKeeps(states, events, n - 1);
      OrderedStep(states[n - 1], events[n - 1]);
    }
  }

  /** At every point of every run, each child ever spawned is gone, signalled, playing or
      being paired, and the only pair that can still be loose is the active one. */
  lemma NoOrphansInAnyRun(states: seq<State>, events: seq<Event>, n: nat)
    requires IsRun(states, events) && n <= |events|
    ensures NoOrphans(states[n])
    ensures forall pair :: 0 <= pair < |states[n].pairs| && Loose(states[n], pair) ==> states[n].active == Some(pair)
  {
    RunKeeps(states, events, n);
    RunIsOrdered(states, events, n);
    forall pair | 0 <= pair < |states[n].pairs| && states[n].active != Some(pair) ensures !Loose(states[n], pair) {
      InactivePairIsNotLoose(states[n], pair);
    }
  }

  lemma InactivePairIsNotLoose(s: State, pair: nat)
    requires Inv(s) && Ordered(s) && pair < |s.pairs| && s.active != Some(pair)
    ensures !Loose(s, pair)
  {
    var p := s.pairs[pair];
    if s.active.Some? {
      var a := s.active.value;
      assert a < pair ==> s.pairs[a].player < p.decoder;
      assert pair < a ==> p.player < s.pairs[a].decoder;
    }
  }

  /** A new pair is only ever installed where there is none. */
  lemma InstallOverwritesNothing(s: State)
    requires Inv(s) && Enabled(s, Paired(true))
    ensures s.active.None?
    ensures Step(s, Paired(true)).active == Some(|s.pairs|)
  {
  }

  // ---- Last command wins ---------------------------------------------------------

  /** A command of any kind still waits with the newest ticket. */
  ghost predicate NewestWaits(s: State) {
    exists k :: k in s.waiting && TicketOf(s.waiting[k]) == Some(s.generation)
  }

  /** What plays, or is being started, is of the newest generation, unless the command
      with the newest ticket is still to come. A warming job has yet to stop what plays. */
  ghost predicate Latest(s: State) {
    || NewestWaits(s)
    || (&& (s.active.Some? && s.active.value < |s.pairs| && !s.holder.Warming? ==>
              s.pairs[s.active.value].generation == s.generation)
        && (JobOf(s.holder).Some? ==> JobOf(s.holder).value.generation == s.generation)
        && (s.current.Some? ==> s.current.value.generation == s.generation)
        && (s.holder.Halting? ==> s.current.Some?))
  }

  lemma HolderKeepsLatest(s: State, e: Event)
    requires Inv(s) && Enabled(s, e) && LeavesTickets(e) && !StopsPlayback(e) && Latest(s)
    ensures Latest(Step(s, e))
  {
    HolderKeepsGeneration(s, e);
  }

  lemma BeginKeepsLatest(s: State, e: Event)
    requires Inv(s) && Enabled(s, e) && (e.BeginStart? || e.BeginUrl? || e.BeginControl?) && Latest(s)
    ensures Latest(Step(s, e))
  {
    var r := Step(s, e);
    if e.BeginControl? {
      if Plans(s, e.op, e.late) {
        PrepareCases(s, e.op, e.late);
        if Claims(s.current.value.queue, e.op) {
          assert TicketOf(r.waiting[s.nextTask]) == Some(r.generation);
        } else if NewestWaits(s) {
          var k :| k in s.waiting && TicketOf(s.waiting[k]) == Some(s.generation);
          assert r.waiting[k] == s.waiting[k];
        }
      }
    } else {
      assert TicketOf(r.waiting[s.nextTask]) == Some(r.generation);
    }
  }

  lemma NewestStillWaits(s: State, k: nat, tail: seq<Item>)
    requires Inv(s) && Enabled(s, Grant(k, tail)) && NewestWaits(s)
    requires TicketOf(s.waiting[k]) != Some(s.generation)
    ensures NewestWaits(Step(s, Grant(k, tail)))
  {
    var r := Step(s, Grant(k, tail));
    assert r.waiting == s.waiting - {k} && r.generation == s.generation;
    var j :| j in s.waiting && TicketOf(s.waiting[j]) == Some(s.generation);
    assert r.waiting[j] == s.waiting[j];
  }

  lemma GrantOtherKeepsLatest(s: State, k: nat, tail: seq<Item>)
    requires Inv(s) && Enabled(s, Grant(k, tail)) && Latest(s)
    requires TicketOf(s.waiting[k]) != Some(s.generation)
    ensures Latest(Step(s, Grant(k, tail)))
  {
    if NewestWaits(s) {
      NewestStillWaits(s, k, tail);
    } else {
      GrantOtherIsLatest(s, k, tail);
    }
  }

  lemma GrantOtherIsLatest(s: State, k: nat, tail: seq<Item>)
    requires Inv(s) && Enabled(s, Grant(k, tail)) && Latest(s) && !NewestWaits(s)
    requires TicketOf(s.waiting[k]) != Some(s.generation)
    ensures Latest(Step(s, Grant(k, tail)))
  {
  }

  lemma GrantNewestIsLatest(s: State, k: nat, tail: seq<Item>)
    requires Inv(s) && Enabled(s, Grant(k, tail)) && !WastesTicket(s, Grant(k, tail))
    requires TicketOf(s.waiting[k]) == Some(s.generation)
    ensures Latest(Step(s, Grant(k, tail)))
  {
    if s.waiting[k].Control? {
      assert IsCurrent(s, s.waiting[k].session);
    }
  }

  /** A wasted ticket leaves nobody waiting with the newest one, and a session that is older. */
  lemma WastedTicketIsNotLatest(s: State, k: nat, tail: seq<Item>)
    requires Inv(s) && Enabled(s, Grant(k, tail)) && WastesTicket(s, Grant(k, tail))
    ensures !Latest(Step(s, Grant(k, tail)))
  {
    var r := Step(s, Grant(k, tail));
    assert r.waiting == s.waiting - {k} && r.generation == s.generation;
    assert r.current.Some? && r.current.value.generation == s.current.value.generation < s.generation;
  }

  /** The exact condition: with no stop and no disconnect, a step loses the last command if and
      only if it wastes a ticket. */
  lemma LatestStep(s: State, e: Event)
    requires Inv(s) && Enabled(s, e) && Latest(s) && !StopsPlayback(e)
    ensures Latest(Step(s, e)) <==> !WastesTicket(s, e)
  {
    if LeavesTickets(e) {
      HolderKeepsLatest(s, e);
    } else if !e.Grant? {
      BeginKeepsLatest(s, e);
    } else if WastesTicket(s, e) {
      WastedTicketIsNotLatest(s, e.task, e.tail);
    } else if TicketOf(s.waiting[e.task]) == Some(s.generation) {
      GrantNewestIsLatest(s, e.task, e.tail);
    } else {
      GrantOtherKeepsLatest(s, e.task, e.tail);
    }
  }

  lemma {:induction false} LatestStands(states: seq<State>, events: seq<Event>, n: nat)
    requires IsRun(states, events) && n <= |events|
    requires forall i :: 0 <= i < n ==> !StopsPlayback(events[i]) && !WastesTicket(states[i], events[i])
    ensures forall i :: 0 <= i <= n ==> Latest(states[i])
  {
    if n > 0 {
      LatestStands(states, events, n - 1);
      RunKeeps(states, events, n - 1);
      LatestStep(states[n - 1], events[n - 1]);
    }
  }

  /** Over whole runs with no stop and no disconnect: what plays or is being started is for the
      newest command throughout, or that command is still to come, if and only if no ticket is
      wasted. */
  lemma LatestRun(states: seq<State>, events: seq<Event>)
    requires IsRun(states, events) && forall i :: 0 <= i < |events| ==> !StopsPlayback(events[i])
    ensures (forall i :: 0 <= i < |states| ==> Latest(states[i]))
       <==> (forall i :: 0 <= i < |events| ==> !WastesTicket(states[i], events[i]))
  {
    if forall i :: 0 <= i < |events| ==> !WastesTicket(states[i], events[i]) {
      LatestStands(states, events, |events|);
    } else if forall i :: 0 <= i < |states| ==> Latest(states[i]) {
      forall i | 0 <= i < |events| ensures !WastesTicket(states[i], events[i]) {
        RunKeeps(states, events, i);
        assert Latest(states[i]) && Latest(states[i + 1]);
        LatestStep(states[i], events[i]);
      }
    }
  }

  ghost predicate PlaysNewest(s: State) {
    s.active.Some? ==> s.active.value < |s.pairs| && s.pairs[s.active.value].generation == s.generation
  }

  /** At a quiet lock, what a stream or a live queue plays was spawned for the newest command if and only
      if Latest holds. */
  lemma QuietPlaysNewestIff(s: State)
    requires Inv(s) && Quiet(s)
    requires s.current.Some? ==> s.current.value.queue.status.Playing? || s.current.value.queue.status.Paused?
    ensures PlaysNewest(s) <==> Latest(s)
  {
  }

  /** A command superseded before it gets the lock leaves no trace: it only stops waiting. */
  lemma SupersededCommandDoesNothing(s: State, k: nat, tail: seq<Item>)
    requires Inv(s) && Enabled(s, Grant(k, tail))
    requires TicketOf(s.waiting[k]).Some? && TicketOf(s.waiting[k]).value != s.generation
    ensures Step(s, Grant(k, tail)) == s.(waiting := s.waiting - {k})
  {
  }

  /** A waiting command is never altered, its number is never given out again, and the newest
      generation never goes back. */
  ghost predicate WaitsUnaltered(s: State, r: State) {
    && s.generation <= r.generation && s.nextTask <= r.nextTask
    && forall k :: k < s.nextTask && k in r.waiting ==> k in s.waiting && r.waiting[k] == s.waiting[k]
  }

  lemma BeginLeavesWaiting(s: State, e: Event)
    requires Inv(s) && Enabled(s, e) && (e.BeginStart? || e.BeginUrl? || e.BeginControl?)
    ensures WaitsUnaltered(s, Step(s, e))
  {
    if e.BeginControl? && Plans(s, e.op, e.late) {
      PrepareCases(s, e.op, e.late);
    }
  }

  lemma GrantLeavesWaiting(s: State, k: nat, tail: seq<Item>)
    requires Inv(s) && Enabled(s, Grant(k, tail))
    ensures WaitsUnaltered(s, Step(s, Grant(k, tail)))
  {
    GrantOnlyRemoves(s, k, tail);
  }

  lemma HolderLeavesWaiting(s: State, e: Event)
    requires Inv(s) && Enabled(s, e) && LeavesTickets(e)
    ensures WaitsUnaltered(s, Step(s, e))
  {
    HolderKeepsGeneration(s, e);
  }

  lemma StepLeavesWaiting(s: State, e: Event)
    requires Inv(s) && Enabled(s, e)
    ensures WaitsUnaltered(s, Step(s, e))
  {
    if LeavesTickets(e) {
      HolderLeavesWaiting(s, e);
    } else if e.Grant? {
      GrantLeavesWaiting(s, e.task, e.tail);
    } else {
      BeginLeavesWaiting(s, e);
    }
  }

  lemma NextLeavesWaiting(states: seq<State>, events: seq<Event>, n: nat)
    requires IsRun(states, events) && n < |events|
    ensures WaitsUnaltered(states[n], states[n + 1])
  {
    RunKeeps(states, events, n);
    StepLeavesWaiting(states[n], events[n]);
  }

  lemma WaitsThrough(a: State, b: State, c: State)
    requires WaitsUnaltered(a, b) && WaitsUnaltered(b, c)
    ensures WaitsUnaltered(a, c)
  {
  }

  ghost predicate WaitsAt(states: seq<State>, k: nat) {
    k + 1 < |states| && WaitsUnaltered(states[k], states[k + 1])
  }

  lemma {:induction false} WaitsAddUp(states: seq<State>, m: nat, n: nat)
    requires m <= n < |states| && forall k :: m <= k < n ==> WaitsAt(states, k)
    ensures WaitsUnaltered(states[m], states[n])
    decreases n
  {
    if m < n {
      WaitsAddUp(states, m, n - 1);
      assert WaitsAt(states, n - 1);
      WaitsThrough(states[m], states[n - 1], states[n]);
    }
  }

  lemma WaitingIsUnaltered(states: seq<State>, events: seq<Event>, m: nat, n: nat)
    requires IsRun(states, events) && m <= n <= |events|
    ensures WaitsUnaltered(states[m], states[n])
  {
    forall k | m <= k < n ensures WaitsAt(states, k) {
      NextLeavesWaiting(states, events, k);
    }
    WaitsAddUp(states, m, n);
  }

  /** A command that is superseded at any point of a run while it waits does nothing when its
      turn comes, however much later. */
  lemma SupersededForGood(states: seq<State>, events: seq<Event>, m: nat, n: nat, k: nat)
    requires IsRun(states, events) && m <= n < |events| && events[n].Grant? && events[n].task == k
    requires k in states[m].waiting && TicketOf(states[m].waiting[k]).Some?
    requires TicketOf(states[m].waiting[k]).value < states[m].generation
    ensures states[n + 1] == states[n].(waiting := states[n].waiting - {k})
  {
    RunKeeps(states, events, m);
    RunKeeps(states, events, n);
    WaitingIsUnaltered(states, events, m, n);
    SupersededCommandDoesNothing(states[n], k, events[n].tail);
  }
}
