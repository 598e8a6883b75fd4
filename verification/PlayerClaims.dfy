/**
 Who the newest generation belongs to, over every interleaving, stops and disconnects included,
 and what follows for the pair that plays at a quiet lock.
 */
module PlayerClaims {
  import opened Common
  import opened PlaybackQueue
  import opened PlayerModel
  import opened PlayerInvariants
  import opened PlayerTheorems
  import opened PlayerSupervision

  /** A stop, a disconnect or a wasted ticket: a generation is left to nobody. */
  predicate GivesUpTicket(s: State, e: Event) {
    WastesTicket(s, e) || StopsPlayback(e)
  }

  /** The newest generation of state n was given up before. */
  ghost predicate Unclaimed(states: seq<State>, events: seq<Event>, n: nat)
    requires |states| == |events| + 1 && n <= |events|
  {
    exists i, j :: 0 <= i < j <= n && j == i + 1
                   && states[j].generation == states[n].generation && GivesUpTicket(states[i], events[i])
  }

  /** The event draws a ticket for a command that will wait with it. */
  predicate Draws(s: State, e: Event) {
    || e.BeginStart? || e.BeginUrl?
    || (e.BeginControl? && s.current.Some? && s.current.value.queue.index < |s.current.value.queue.items|
        && PlanMove(s.current.value.queue, e.op, e.late).Some? && Claims(s.current.value.queue, e.op))
  }

  // ---- One step ------------------------------------------------------------------

  lemma StopDraws(s: State, e: Event)
    requires Inv(s) && Enabled(s, e) && StopsPlayback(e)
    ensures FreshTicket(Step(s, e)) && Step(s, e).generation == s.generation + 1
  {
  }

  lemma CommandDraws(s: State, e: Event)
    requires Inv(s) && Enabled(s, e) && Draws(s, e)
    ensures Latest(Step(s, e)) && Step(s, e).generation == s.generation + 1
  {
    var r := Step(s, e);
    if e.BeginControl? {
      PrepareCases(s, e.op, e.late);
    }
    assert TicketOf(r.waiting[s.nextTask]) == Some(r.generation);
  }

  lemma BeginDrawsNothing(s: State, e: Event)
    requires Inv(s) && Enabled(s, e) && e.BeginControl? && !Draws(s, e)
    ensures Step(s, e).generation == s.generation
    ensures FreshTicket(s) ==> FreshTicket(Step(s, e))
  {
    if Plans(s, e.op, e.late) {
      PrepareCases(s, e.op, e.late);
    }
  }

  lemma GrantLeavesOlder(s: State, k: nat, tail: seq<Item>)
    requires Inv(s) && Enabled(s, Grant(k, tail)) && FreshTicket(s)
    ensures OthersAreOlder(Step(s, Grant(k, tail)))
  {
  }

  lemma GrantDrawsNothing(s: State, k: nat, tail: seq<Item>)
    requires Inv(s) && Enabled(s, Grant(k, tail)) && FreshTicket(s)
    ensures FreshTicket(Step(s, Grant(k, tail)))
  {
    GrantOnlyRemoves(s, k, tail);
    GrantLeavesOlder(s, k, tail);
  }

  lemma HolderDrawsNothing(s: State, e: Event)
    requires Inv(s) && Enabled(s, e) && LeavesTickets(e) && !StopsPlayback(e) && FreshTicket(s)
    ensures FreshTicket(Step(s, e))
  {
    HolderKeepsGeneration(s, e);
  }

  lemma WasteGivesUp(s: State, e: Event)
    requires Inv(s) && Enabled(s, e) && WastesTicket(s, e)
    ensures FreshTicket(Step(s, e))
  {
    GrantOnlyRemoves(s, e.task, e.tail);
  }

  lemma GenerationStep(s: State, e: Event)
    requires Inv(s) && Enabled(s, e)
    ensures Step(s, e).generation == if Draws(s, e) || StopsPlayback(e) then s.generation + 1 else s.generation
  {
    if StopsPlayback(e) {
      StopDraws(s, e);
    } else if LeavesTickets(e) {
      HolderKeepsGeneration(s, e);
    } else if e.Grant? {
      GrantOnlyRemoves(s, e.task, e.tail);
    } else if Draws(s, e) {
      CommandDraws(s, e);
    } else {
      BeginDrawsNothing(s, e);
    }
  }

  /** A generation that belongs to nobody stays so until the next one is drawn. */
  lemma FreshStays(s: State, e: Event)
    requires Inv(s) && Enabled(s, e) && FreshTicket(s) && !Draws(s, e)
    ensures FreshTicket(Step(s, e))
  {
    if StopsPlayback(e) {
      StopDraws(s, e);
    } else if LeavesTickets(e) {
      HolderDrawsNothing(s, e);
    } else if e.Grant? {
      GrantDrawsNothing(s, e.task, e.tail);
    } else {
      BeginDrawsNothing(s, e);
    }
  }

  // ---- Runs ----------------------------------------------------------------------

  lemma GenerationAfter(states: seq<State>, events: seq<Event>, n: nat)
    requires IsRun(states, events) && n < |events|
    ensures states[n + 1].generation == if Draws(states[n], events[n]) || StopsPlayback(events[n])
                                        then states[n].generation + 1 else states[n].generation
  {
    RunKeeps(states, events, n);
    GenerationStep(states[n], events[n]);
  }

  /** How being unclaimed goes on: a draw ends it, a stop begins it, a wasted ticket too. */
  lemma UnclaimedNext(states: seq<State>, events: seq<Event>, n: nat)
    requires IsRun(states, events) && n < |events|
    ensures Unclaimed(states, events, n + 1) <==>
              GivesUpTicket(states[n], events[n]) || (!Draws(states[n], events[n]) && Unclaimed(states, events, n))
  {
    GenerationAfter(states, events, n);
    if Unclaimed(states, events, n + 1) && !GivesUpTicket(states[n], events[n]) {
      var i, j :| 0 <= i < j <= n + 1 && j == i + 1
                  && states[j].generation == states[n + 1].generation && GivesUpTicket(states[i], events[i]);
      assert j <= n;
      WaitingIsUnaltered(states, events, j, n);
    }
    if GivesUpTicket(states[n], events[n]) {
      var i, j := n, n + 1;
      assert states[j].generation == states[n + 1].generation && GivesUpTicket(states[i], events[i]);
    }
  }

  /** A generation that was given up belongs to nobody; any other to what plays, to what is
      being started or to a waiting command. */
  ghost predicate Belongs(s: State, unclaimed: bool) {
    if unclaimed then FreshTicket(s) else Latest(s)
  }

  lemma OwnerNext(s: State, e: Event, unclaimed: bool)
    requires Inv(s) && Enabled(s, e) && Belongs(s, unclaimed)
    ensures Belongs(Step(s, e), GivesUpTicket(s, e) || (!Draws(s, e) && unclaimed))
  {
    if StopsPlayback(e) {
      StopDraws(s, e);
    } else if WastesTicket(s, e) {
      WasteGivesUp(s, e);
    } else if Draws(s, e) {
      CommandDraws(s, e);
    } else if unclaimed {
      FreshStays(s, e);
    } else {
      LatestStep(s, e);
    }
  }

  lemma InitialBelongs()
    ensures Belongs(INITIAL, false)
  {
  }

  lemma BelongsNext(states: seq<State>, events: seq<Event>, n: nat)
    requires IsRun(states, events) && n < |events| && Belongs(states[n], Unclaimed(states, events, n))
    ensures Belongs(states[n + 1], Unclaimed(states, events, n + 1))
  {
    RunKeeps(states, events, n);
    UnclaimedNext(states, events, n);
    OwnerNext(states[n], events[n], Unclaimed(states, events, n));
  }

  /** In every run, whatever it contains, that is decided by whether it was given up. */
  lemma {:induction false} NewestBelongs(states: seq<State>, events: seq<Event>, n: nat)
    requires IsRun(states, events) && n <= |events|
    ensures Belongs(states[n], Unclaimed(states, events, n))
  {
    if n == 0 {
      InitialBelongs();
    } else {
      NewestBelongs(states, events, n - 1);
      BelongsNext(states, events, n - 1);
    }
  }

  // ---- A quiet lock --------------------------------------------------------------

  lemma QuietOwner(s: State)
    requires Inv(s) && Quiet(s) && s.active.Some?
    ensures Latest(s) ==> PlaysNewest(s)
    ensures FreshTicket(s) ==> !PlaysNewest(s)
  {
  }

  /** Last command wins, exactly: at a quiet lock of any run, what plays was spawned for the
      newest generation if and only if that was not given up by a stop, a disconnect or a
      wasted ticket. */
  lemma LastCommandWinsIff(states: seq<State>, events: seq<Event>, n: nat)
    requires IsRun(states, events) && n <= |events| && Quiet(states[n]) && states[n].active.Some?
    ensures PlaysNewest(states[n]) <==> !Unclaimed(states, events, n)
  {
    RunKeeps(states, events, n);
    NewestBelongs(states, events, n);
    QuietOwner(states[n]);
  }

  lemma QuietFence(s: State)
    requires Inv(s) && Quiet(s) && s.current.Some?
    ensures Latest(s) ==> Fenced(s)
    ensures FreshTicket(s) ==> !Fenced(s)
  {
  }

  /** Exactly-once completion, exactly: at a quiet lock of any run, a playing or paused
      session's pair is the active one, and its watcher will act on its exit if and only if the
      newest generation was not given up. */
  lemma QuietRunIsSupervisedIff(states: seq<State>, events: seq<Event>, n: nat)
    requires IsRun(states, events) && n <= |events| && Quiet(states[n]) && states[n].current.Some?
    requires var status := states[n].current.value.queue.status; status.Playing? || status.Paused?
    ensures states[n].active.Some? && states[n].current.value.processes == states[n].active
    ensures Supervised(states[n], states[n].active.value) <==> !Unclaimed(states, events, n)
  {
    RunKeeps(states, events, n);
    NewestBelongs(states, events, n);
    QuietFence(states[n]);
    QuietSessionIsSupervised(states[n]);
  }
}
