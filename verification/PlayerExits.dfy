/** What the exit codes of a pair do to the queue. */
module PlayerExits {
  import opened Common
  import opened PlaybackQueue
  import opened PlayerModel
  import opened PlayerInvariants
  import opened PlayerTheorems
  import opened PlayerSupervision
  import opened PlayerRepeats
  import QueueLaws

  /** The exit codes of a pair: the decoder's and the player's. */
  function CodesOf(s: State, pair: nat): (Option<int>, Option<int>)
    requires pair < |s.pairs| && s.pairs[pair].decoder < |s.processes| && s.pairs[pair].player < |s.processes|
  {
    (s.processes[s.pairs[pair].decoder].exit, s.processes[s.pairs[pair].player].exit)
  }

  /** The item, its place and the history are the same, and the order and the modes. */
  predicate SamePlace(q: Queue, r: Queue) {
    && r.items == q.items && r.original == q.original && r.index == q.index && r.history == q.history
    && r.shuffle == q.shuffle && r.repeat == q.repeat
  }

  /** What the codes call for: a code other than 0 fails the queue where it is and starts
      nothing. With two codes of 0 the queue has not failed; it starts the item at its new
      place, or is completed and starts nothing. */
  ghost predicate CodesDecide(s: State, r: State, decoder: int, player: int)
    requires s.current.Some? && r.current.Some?
  {
    var q, t := s.current.value.queue, r.current.value.queue;
    if decoder != 0 || player != 0 then SamePlace(q, t) && t.status.Failed? && JobOf(r.holder).None?
    else
      && (t.status.Playing? || t.status.Completed?)
      && (t.status.Completed? ==> SamePlace(q, t) && JobOf(r.holder).None?)
      && (t.status.Playing? ==> JobOf(r.holder) == Some(Job(r.current.value.generation, Some(r.current.value.id))))
  }

  /** The exit of the session's pair is acted on in the step from s to r. */
  ghost predicate ExitActedOn(s: State, r: State) {
    s.current.Some? && r.handled != s.handled
  }

  lemma ActingMatchesCodes(s: State, pair: nat)
    requires Inv(s) && Enabled(s, GrantWatch(pair)) && ExitActedOn(s, Step(s, GrantWatch(pair)))
    ensures var r, codes := Step(s, GrantWatch(pair)), CodesOf(s, pair);
            && s.active == Some(pair) && r.current.Some? && codes.0.Some? && codes.1.Some?
            && CodesDecide(s, r, codes.0.value, codes.1.value)
  {
    ActingHandles(s, pair);
  }

  lemma WakingActsOnNoSession(s: State, pair: nat)
    requires Inv(s) && Enabled(s, WatchWake(pair)) && s.current.Some?
    ensures Step(s, WatchWake(pair)).handled == s.handled
  {
  }

  /** Every step that acts on the exit of a session's pair does what the two codes call for. */
  lemma ExitCodesDecide(s: State, e: Event)
    requires Inv(s) && Enabled(s, e) && ExitActedOn(s, Step(s, e))
    ensures s.active.Some? && s.active.value < |s.pairs|
    ensures var r, codes := Step(s, e), CodesOf(s, s.active.value);
            && r.current.Some? && codes.0.Some? && codes.1.Some?
            && CodesDecide(s, r, codes.0.value, codes.1.value)
  {
    OnlyCurrentExitsAreHandled(s, e);
    if e.WatchWake? {
      WakingActsOnNoSession(s, e.pair);
    } else {
      ActingMatchesCodes(s, e.pair);
    }
  }

  // ---- Codes are those that were reported ------------------------------------------

  /** Children keep their numbers, and only their exit event gives one a code. */
  ghost predicate CodesGrow(s: State, e: Event, r: State) {
    && |s.processes| <= |r.processes|
    && (forall pid :: 0 <= pid < |s.processes| ==>
          r.processes[pid].exit == if e.ProcessExit? && e.pid == pid then Some(e.code) else s.processes[pid].exit)
    && (forall pid :: |s.processes| <= pid < |r.processes| ==> r.processes[pid].exit == None)
  }

  lemma CodesStep(s: State, e: Event)
    requires Inv(s) && Enabled(s, e)
    ensures CodesGrow(s, e, Step(s, e))
  {
    if e.Grant? {
      GrantKeepsCodes(s, e.task, e.tail);
    }
  }

  lemma GrantKeepsCodes(s: State, k: nat, tail: seq<Item>)
    requires Inv(s) && Enabled(s, Grant(k, tail))
    ensures CodesGrow(s, Grant(k, tail), Step(s, Grant(k, tail)))
  {
  }

  ghost predicate Exited(events: seq<Event>, n: nat, pid: nat, code: int)
    requires n <= |events|
  {
    exists i :: 0 <= i < n && events[i] == ProcessExit(pid, code)
  }

  predicate HasCode(s: State, pid: nat, code: int) {
    pid < |s.processes| && s.processes[pid].exit == Some(code)
  }

  lemma CodeStep(s: State, e: Event, pid: nat, code: int)
    requires Inv(s) && Enabled(s, e)
    ensures HasCode(Step(s, e), pid, code) <==> HasCode(s, pid, code) || e == ProcessExit(pid, code)
  {
    CodesStep(s, e);
  }

  lemma CodeNext(states: seq<State>, events: seq<Event>, n: nat, pid: nat, code: int)
    requires IsRun(states, events) && n < |events|
    ensures HasCode(states[n + 1], pid, code) <==> HasCode(states[n], pid, code) || events[n] == ProcessExit(pid, code)
  {
    RunKeeps(states, events, n);
    CodeStep(states[n], events[n], pid, code);
  }

  lemma ExitedNext(events: seq<Event>, n: nat, pid: nat, code: int)
    requires n < |events|
    ensures Exited(events, n + 1, pid, code) <==> Exited(events, n, pid, code) || events[n] == ProcessExit(pid, code)
  {
  }

  lemma NoCodeAtFirst(states: seq<State>, events: seq<Event>, pid: nat, code: int)
    requires IsRun(states, events)
    ensures !HasCode(states[0], pid, code) && !Exited(events, 0, pid, code)
  {
  }

  /** A child has an exit code exactly if it exited with that code, in every run. */
  lemma {:induction false} CodesAreReported(states: seq<State>, events: seq<Event>, n: nat, pid: nat, code: int)
    requires IsRun(states, events) && n <= |events|
    ensures HasCode(states[n], pid, code) <==> Exited(events, n, pid, code)
  {
    if n == 0 {
      NoCodeAtFirst(states, events, pid, code);
    } else {
      CodesAreReported(states, events, n - 1, pid, code);
      CodeNext(states, events, n - 1, pid, code);
      ExitedNext(events, n - 1, pid, code);
    }
  }

  // ---- Runs ----------------------------------------------------------------------

  lemma CodesDecideNext(states: seq<State>, events: seq<Event>, n: nat)
    requires IsRun(states, events) && n < |events| && ExitActedOn(states[n], states[n + 1])
    ensures var s, r := states[n], states[n + 1];
            && s.active.Some? && s.active.value < |s.pairs| && r.current.Some?
            && s.pairs[s.active.value].decoder < |s.processes| && s.pairs[s.active.value].player < |s.processes|
            && var codes := CodesOf(s, s.active.value);
               codes.0.Some? && codes.1.Some? && CodesDecide(s, r, codes.0.value, codes.1.value)
  {
    RunKeeps(states, events, n);
    ExitCodesDecide(states[n], events[n]);
  }

  lemma {:induction false} FailedStaysThere(states: seq<State>, m: nat, n: nat)
    requires Unbroken(states, m, n) && QueueOf(states[m]).status.Failed?
    ensures QueueOf(states[n]) == QueueOf(states[m]) && Exits(states, m, n) == 0
    decreases n
  {
    if n > m {
      UnbrokenShrinks(states, m, n);
      FailedStaysThere(states, m, n - 1);
    }
  }

  /** Did the exit that event i acted on report a code other than 0? */
  ghost predicate FailedExitAt(states: seq<State>, i: nat) {
    && i + 1 < |states| && ExitActedOn(states[i], states[i + 1])
    && var s := states[i];
       && s.active.Some? && s.active.value < |s.pairs|
       && s.pairs[s.active.value].decoder < |s.processes| && s.pairs[s.active.value].player < |s.processes|
       && CodesOf(s, s.active.value) != (Some(0), Some(0))
  }

  lemma WindowTail(states: seq<State>, events: seq<Event>, m: nat, n: nat, i: nat)
    requires BetweenMoves(states, events, m, n) && m <= i <= n
    ensures Unbroken(states, i, n)
  {
    NothingHalts(states, events, m, i);
    WindowIsUnbroken(states, events, i, n);
  }

  /** Between moves a code other than 0 ends the counting: no exit is acted on after it, and the
      queue stands failed where the item was. */
  lemma FailedExitEndsCounting(states: seq<State>, events: seq<Event>, m: nat, n: nat, i: nat)
    requires BetweenMoves(states, events, m, n) && m <= i < n && FailedExitAt(states, i)
    ensures Exits(states, i + 1, n) == 0
    ensures QueueOf(states[n]).status.Failed? && SamePlace(QueueOf(states[i]), QueueOf(states[n]))
  {
    CodesDecideNext(states, events, i);
    WindowTail(states, events, m, n, i + 1);
    FailedStaysThere(states, i + 1, n);
  }

  /** So between moves every exit that was acted on and followed by another had two codes of 0. */
  lemma CountedExitsSucceeded(states: seq<State>, events: seq<Event>, m: nat, n: nat, i: nat)
    requires BetweenMoves(states, events, m, n) && m <= i < n && ExitActedOn(states[i], states[i + 1])
    requires Exits(states, i + 1, n) > 0 || !QueueOf(states[n]).status.Failed?
    ensures !FailedExitAt(states, i)
  {
    if FailedExitAt(states, i) {
      FailedExitEndsCounting(states, events, m, n, i);
    }
  }
}
