/** A stop silences the speaker, at once and for as long as nothing new is started. */
module PlayerSilence {
  import opened Common
  import opened PlaybackQueue
  import opened PlayerModel
  import opened PlayerInvariants
  import opened PlayerTheorems
  import opened PlayerClaims

  /** The child has exited, or was told to. */
  predicate IsGone(s: State, pid: nat) {
    pid < |s.processes| && (s.processes[pid].exit.Some? || s.processes[pid].signalled)
  }

  /** No child runs that was not told to stop. */
  ghost predicate AllGone(s: State) {
    forall pid :: 0 <= pid < |s.processes| ==> IsGone(s, pid)
  }

  /** After a stop no pair is active and no session is left; both children of the pair that
      was active are gone, and every other child but one still being paired is too. */
  lemma StopSilences(s: State, r: State)
    requires Inv(s) && Enabled(s, StopCommand) && r == Step(s, StopCommand)
    ensures r.active.None? && r.current.None?
    ensures s.active.Some? ==>
              && s.active.value < |s.pairs|
              && IsGone(r, s.pairs[s.active.value].decoder) && IsGone(r, s.pairs[s.active.value].player)
    ensures forall pid :: 0 <= pid < |r.processes| && !(r.holder.Pairing? && r.holder.decoder == pid) ==> IsGone(r, pid)
  {
    StepKeeps(s, StopCommand);
    PairIsSignalled(s);
  }

  lemma PairIsSignalled(s: State)
    requires Inv(s)
    ensures var r := StopProcesses(s);
            && r.active.None?
            && (s.active.Some? ==> IsGone(r, s.pairs[s.active.value].decoder) && IsGone(r, s.pairs[s.active.value].player))
  {
  }

  /** Only a player that was spawned makes a pair active. */
  lemma OnlyPairingActivates(s: State, e: Event)
    requires Inv(s) && Enabled(s, e) && s.active.None? && !(e.Paired? && e.ok)
    ensures Step(s, e).active.None?
  {
    if e.Grant? {
      GrantActivatesNothing(s, e.task, e.tail);
    }
  }

  lemma GrantActivatesNothing(s: State, k: nat, tail: seq<Item>)
    requires Inv(s) && Enabled(s, Grant(k, tail)) && s.active.None?
    ensures Step(s, Grant(k, tail)).active.None?
  {
  }

  lemma SilenceNext(states: seq<State>, events: seq<Event>, n: nat)
    requires IsRun(states, events) && n < |events| && states[n].active.None? && !(events[n].Paired? && events[n].ok)
    ensures states[n + 1].active.None?
  {
    RunKeeps(states, events, n);
    OnlyPairingActivates(states[n], events[n]);
  }

  lemma StopNext(states: seq<State>, events: seq<Event>, m: nat)
    requires IsRun(states, events) && m < |events| && events[m].StopCommand?
    ensures states[m + 1].active.None?
  {
    RunKeeps(states, events, m);
    StopSilences(states[m], states[m + 1]);
  }

  lemma {:induction false} NothingIsActive(states: seq<State>, events: seq<Event>, m: nat, n: nat)
    requires IsRun(states, events) && m < n <= |events| && events[m].StopCommand?
    requires forall i :: m < i < n ==> !(events[i].Paired? && events[i].ok)
    ensures states[n].active.None?
    decreases n
  {
    if n == m + 1 {
      StopNext(states, events, m);
    } else {
      NothingIsActive(states, events, m, n - 1);
      SilenceNext(states, events, n - 1);
    }
  }

  lemma InactiveMeansGone(s: State)
    requires Inv(s) && s.active.None?
    ensures forall pid :: 0 <= pid < |s.processes| && !(s.holder.Pairing? && s.holder.decoder == pid) ==> IsGone(s, pid)
  {
  }

  /** Over runs: from a stop until the next pair is complete nothing is active, and every child
      ever spawned is gone, apart from a decoder whose player is being spawned. */
  lemma StopSilencesUntilNextPair(states: seq<State>, events: seq<Event>, m: nat, n: nat)
    requires IsRun(states, events) && m < n <= |events| && events[m].StopCommand?
    requires forall i :: m < i < n ==> !(events[i].Paired? && events[i].ok)
    ensures states[n].active.None?
    ensures forall pid :: 0 <= pid < |states[n].processes| && !(states[n].holder.Pairing? && states[n].holder.decoder == pid) ==>
              IsGone(states[n], pid)
  {
    NothingIsActive(states, events, m, n);
    RunKeeps(states, events, n);
    InactiveMeansGone(states[n]);
  }

  // ---- Nothing comes back by itself -----------------------------------------------

  /** Nothing plays, nothing is being started, and nobody waits who could start something. */
  ghost predicate Silent(s: State) {
    s.active.None? && s.current.None? && JobOf(s.holder).None? && FreshTicket(s)
  }

  lemma StopIsSilent(s: State)
    requires Inv(s) && JobOf(s.holder).None?
    ensures Silent(Step(s, StopCommand))
  {
    StopDraws(s, StopCommand);
    StopSilences(s, Step(s, StopCommand));
  }

  lemma HolderStaysSilent(s: State, e: Event)
    requires Inv(s) && Enabled(s, e) && Silent(s) && LeavesTickets(e) && !StopsPlayback(e)
    ensures Silent(Step(s, e))
  {
    FreshStays(s, e);
  }

  lemma GrantStaysSilent(s: State, k: nat, tail: seq<Item>)
    requires Inv(s) && Enabled(s, Grant(k, tail)) && Silent(s)
    ensures Silent(Step(s, Grant(k, tail)))
  {
    assert Step(s, Grant(k, tail)) == s.(waiting := s.waiting - {k});
  }

  lemma SilentStep(s: State, e: Event)
    requires Inv(s) && Enabled(s, e) && Silent(s) && !Draws(s, e)
    ensures Silent(Step(s, e))
  {
    if e.StopCommand? {
      StopIsSilent(s);
    } else if e.Disconnect? {
      StopDraws(s, e);
    } else if LeavesTickets(e) {
      HolderStaysSilent(s, e);
    } else if e.Grant? {
      GrantStaysSilent(s, e.task, e.tail);
    }
  }

  lemma SilentNext(states: seq<State>, events: seq<Event>, n: nat)
    requires IsRun(states, events) && n < |events| && Silent(states[n]) && !Draws(states[n], events[n])
    ensures Silent(states[n + 1])
  {
    RunKeeps(states, events, n);
    SilentStep(states[n], events[n]);
  }

  lemma StopNextIsSilent(states: seq<State>, events: seq<Event>, m: nat)
    requires IsRun(states, events) && m < |events| && events[m].StopCommand? && JobOf(states[m].holder).None?
    ensures Silent(states[m + 1])
  {
    RunKeeps(states, events, m);
    StopIsSilent(states[m]);
  }

  lemma {:induction false} SilenceLasts(states: seq<State>, events: seq<Event>, m: nat, n: nat)
    requires IsRun(states, events) && m < n <= |events| && events[m].StopCommand? && JobOf(states[m].holder).None?
    requires forall i :: m < i < n ==> !Draws(states[i], events[i])
    ensures Silent(states[n])
    decreases n
  {
    if n == m + 1 {
      StopNextIsSilent(states, events, m);
    } else {
      SilenceLasts(states, events, m, n - 1);
      SilentNext(states, events, n - 1);
    }
  }

  /** Over runs: after a stop that meets no job, and until a command draws a ticket, nothing is
      active and every child ever spawned is gone, whoever waited for the lock. */
  lemma StopSilencesUntilNextTicket(states: seq<State>, events: seq<Event>, m: nat, n: nat)
    requires IsRun(states, events) && m < n <= |events| && events[m].StopCommand? && JobOf(states[m].holder).None?
    requires forall i :: m < i < n ==> !Draws(states[i], events[i])
    ensures states[n].active.None? && states[n].current.None? && AllGone(states[n])
  {
    SilenceLasts(states, events, m, n);
    RunKeeps(states, events, n);
    InactiveMeansGone(states[n]);
  }
}
