/**
 A run, with the lock granted in arrival order, in which a queue is left playing with
 nobody to advance it. A play is sent while the first item is still starting, so it draws
 no ticket and waits. The start fails, and a second play, which does draw a ticket, queues
 behind the first. The first play restarts the item under the old generation; the second
 then finds it playing and returns. The watcher of the new pair sees a newer generation
 than its own and ends when the item does.
 */
module PlayerStranded {
  import opened Common
  import opened PlaybackQueue
  import opened PlayerModel
  import opened PlayerTheorems
  import opened PlayerSupervision
  import opened PlayerReach

  const FRESH: Queue := NewQueue([7, 8])
  const FIRST: Command := Control(0, Play, Plan(0, false), None)
  const SECOND: Command := Control(0, Play, Plan(0, false), Some(2))

  const BROKEN: Queue := FRESH.(status := Failed)
  const RUNNING: Process := Process(None, false)
  const GONE: Process := Process(Some(0), false)

  const S1 := State(1, 0, None, None, [], [], [], Free, map[0 := StartQueue(1, [7, 8])], 1, [])
  const S2 := State(1, 1, Some(Session(0, 1, FRESH, None)), None, [], [], [], Warming(Job(1, Some(0))), map[], 1, [])
  const S3 := S2.(waiting := map[1 := FIRST], nextTask := 2)
  const S4 := S3.(holder := Preparing(Job(1, Some(0))))
  const S5 := S4.(holder := Notifying, current := Some(Session(0, 1, BROKEN, None)))
  const S6 := S5.(generation := 2, waiting := map[1 := FIRST, 2 := SECOND], nextTask := 3)
  const S7 := S6.(holder := Free)
  const S8 := S7.(waiting := map[2 := SECOND], current := Some(Session(0, 1, FRESH, None)), holder := Warming(Job(1, Some(0))))
  const S9 := S8.(holder := Preparing(Job(1, Some(0))))
  const S10 := S9.(processes := [RUNNING], holder := Pairing(Job(1, Some(0)), 0))
  const S11 := S10.(processes := [RUNNING, RUNNING], pairs := [Pair(0, 1, 1)], watches := [Watching], active := Some(0),
                    current := Some(Session(0, 1, FRESH, Some(0))), holder := Notifying)
  const S12 := S11.(holder := Free)
  const S13 := S12.(waiting := map[])
  const S14 := S13.(processes := [GONE, RUNNING])
  const S15 := S13.(processes := [GONE, GONE])
  const S16 := S15.(watches := [Done])

  const EVENTS: seq<Event> := [
    BeginStart([7, 8]), Grant(0, []),
    BeginControl(Play, false),            // draws no ticket: the item is still starting
    Warmed, Prepared(false),              // the start fails
    BeginControl(Play, false),            // draws ticket 2
    Released, Grant(1, []),               // the first play restarts the item under generation 1
    Warmed, Prepared(true), Paired(true), Released,
    Grant(2, []),                         // the second play finds it playing and returns
    ProcessExit(0, 0), ProcessExit(1, 0), WatchWake(0)]

  /** The first n of the events above lead from the initial state to s, with the lock granted
      in arrival order. */
  ghost predicate Reached(n: nat, s: State) {
    n <= |EVENTS| && ReachedBy(EVENTS[..n], s)
  }

  lemma NothingIsReached()
    ensures Reached(0, INITIAL)
  {
    StartIsReached();
    assert EVENTS[..0] == [];
  }

  lemma Reach(n: nat, s: State, e: Event)
    requires Reached(n, s) && n < |EVENTS| && e == EVENTS[n] && Enabled(s, e) && InArrivalOrder(s, e)
    ensures Reached(n + 1, Step(s, e))
  {
    ReachedByOneMore(EVENTS[..n], s, e);
    assert EVENTS[..n + 1] == EVENTS[..n] + [e];
  }

  lemma QueueBegins()
    ensures Reached(1, S1)
  {
    NothingIsReached();
    Reach(0, INITIAL, BeginStart([7, 8]));
  }

  lemma QueueStarts()
    ensures Reached(2, S2)
  {
    QueueBegins();
    assert S1.waiting - {0} == S2.waiting;
    Reach(1, S1, Grant(0, []));
  }

  lemma PlayWaits()
    ensures Reached(3, S3)
  {
    QueueStarts();
    Reach(2, S2, BeginControl(Play, false));
  }

  lemma OldPairStops()
    ensures Reached(4, S4)
  {
    PlayWaits();
    Reach(3, S3, Warmed);
  }

  lemma StartFails()
    ensures Reached(5, S5)
  {
    OldPairStops();
    Reach(4, S4, Prepared(false));
  }

  lemma RetryQueues()
    ensures Reached(6, S6)
  {
    StartFails();
    assert S5.waiting[2 := SECOND] == S6.waiting;
    Reach(5, S5, BeginControl(Play, false));
  }

  lemma LockFrees()
    ensures Reached(7, S7)
  {
    RetryQueues();
    Reach(6, S6, Released);
  }

  lemma FirstPlayNavigates()
    ensures Enabled(S7, Grant(1, [])) && Step(S7, Grant(1, [])) == S8
  {
    assert S7.waiting - {1} == S8.waiting;
  }

  lemma PlayRestarts()
    ensures Reached(8, S8)
  {
    LockFrees();
    FirstPlayNavigates();
    Reach(7, S7, Grant(1, []));
  }

  lemma SpeakerIsSilent()
    ensures Reached(9, S9)
  {
    PlayRestarts();
    Reach(8, S8, Warmed);
  }

  lemma DecoderStarts()
    ensures Reached(10, S10)
  {
    SpeakerIsSilent();
    Reach(9, S9, Prepared(true));
  }

  lemma PlayerStarts()
    ensures Reached(11, S11)
  {
    DecoderStarts();
    Reach(10, S10, Paired(true));
  }

  lemma LockFreesAgain()
    ensures Reached(12, S12)
  {
    PlayerStarts();
    Reach(11, S11, Released);
  }

  lemma RetryReturns()
    ensures Reached(13, S13)
  {
    LockFreesAgain();
    assert S12.waiting - {2} == S13.waiting;
    Reach(12, S12, Grant(2, []));
  }

  lemma DecoderEnds()
    ensures Reached(14, S14)
  {
    RetryReturns();
    Reach(13, S13, ProcessExit(0, 0));
  }

  lemma PlayerEnds()
    ensures Reached(15, S15)
  {
    DecoderEnds();
    Reach(14, S14, ProcessExit(1, 0));
  }

  lemma WatcherEnds()
    ensures Reached(16, S16)
  {
    PlayerEnds();
    Reach(15, S15, WatchWake(0));
  }

  /** The run wastes a ticket at its thirteenth event and ends in a state in which both
      children have exited with success and the lock is quiet, but the queue stays where it is:
      it says that it plays, no watcher is left and the exit was never acted on. What is active
      is not of the newest generation, so the last command did not win. */
  lemma QueueIsStranded()
    ensures Reached(12, S12) && Enabled(S12, EVENTS[12]) && WastesTicket(S12, EVENTS[12])
    ensures Reached(|EVENTS|, S16) && Quiet(S16)
    ensures forall i :: 0 <= i < |EVENTS| ==> !StopsPlayback(EVENTS[i])
    ensures S16.current == Some(Session(0, 1, NewQueue([7, 8]), Some(0)))
    ensures S16.active == Some(0) && S16.watches == [Done] && S16.handled == []
    ensures HasSucceeded(S16, 0) && HasSucceeded(S16, 1)
    ensures S16.pairs[0].generation == 1 && S16.generation == 2 && !PlaysNewest(S16)
  {
    LockFreesAgain();
    WatcherEnds();
  }
}
