/**
 A run, with the lock granted in arrival order, in which two next commands overlap. The second
 is sent while the first waits for the old pair to exit, so both plan to go from the first
 item to the second. The first moves there, and its start fails. The second then appends the
 second item to the history and moves to where the cursor already is.
 */
module PlayerOverlap {
  import opened Common
  import opened PlaybackQueue
  import opened PlayerModel
  import opened PlayerReach

  const FRESH: Queue := NewQueue([7, 8, 9])
  const MOVED: Queue := FRESH.(index := 1, history := [7])
  const STALE: Queue := FRESH.(index := 1, history := [7, 8])

  const FIRST: Command := Control(0, Next, Plan(1, false), Some(2))
  const SECOND: Command := Control(0, Next, Plan(1, false), Some(3))

  const RUNNING: Process := Process(None, false)
  const SIGNALLED: Process := Process(None, true)

  const T1 := State(1, 0, None, None, [], [], [], Free, map[0 := StartQueue(1, [7, 8, 9])], 1, [])
  const T2 := State(1, 1, Some(Session(0, 1, FRESH, None)), None, [], [], [], Warming(Job(1, Some(0))), map[], 1, [])
  const T3 := T2.(holder := Preparing(Job(1, Some(0))))
  const T4 := T3.(processes := [RUNNING], holder := Pairing(Job(1, Some(0)), 0))
  const T5 := T4.(processes := [RUNNING, RUNNING], pairs := [Pair(0, 1, 1)], watches := [Watching], active := Some(0),
                  current := Some(Session(0, 1, FRESH, Some(0))), holder := Notifying)
  const T6 := T5.(holder := Free)
  const T7 := T6.(generation := 2, waiting := map[1 := FIRST], nextTask := 2)
  const T8 := T7.(waiting := map[], current := Some(Session(0, 2, FRESH, None)), active := None,
                  processes := [SIGNALLED, SIGNALLED], holder := Halting(FIRST))
  const T9 := T8.(generation := 3, waiting := map[2 := SECOND], nextTask := 3)
  const T10 := T9.(current := Some(Session(0, 2, MOVED, None)), holder := Warming(Job(2, Some(0))))
  const T11 := T10.(holder := Preparing(Job(2, Some(0))))
  const T12 := T11.(current := Some(Session(0, 2, MOVED.(status := Failed), None)), holder := Notifying)
  const T13 := T12.(holder := Free)
  const T14 := T13.(waiting := map[], current := Some(Session(0, 3, STALE, None)), holder := Warming(Job(3, Some(0))))

  const EVENTS: seq<Event> := [
    BeginStart([7, 8, 9]), Grant(0, []), Warmed, Prepared(true), Paired(true), Released,
    BeginControl(Next, false), Grant(1, []),
    BeginControl(Next, false),            // the first is waiting for the pair to exit
    Halted, Warmed, Prepared(false), Released,
    Grant(2, [])]

  ghost predicate Reached(n: nat, s: State) {
    n <= |EVENTS| && ReachedBy(EVENTS[..n], s)
  }

  lemma NothingIsReached()
    ensures Reached(0, INITIAL)
  {
    StartIsReached();
    assert EVENTS[..0] == [];
  }

  lemma Reach(n: nat, s: State, e: Event)
    requires Reached(n, s) && n < |EVENTS| && e == EVENTS[n] && Enabled(s, e) && InArrivalOrder(s, e)
    ensures Reached(n + 1, Step(s, e))
  {
    ReachedByOneMore(EVENTS[..n], s, e);
    assert EVENTS[..n + 1] == EVENTS[..n] + [e];
  }

  lemma FirstNextStopsPair()
    ensures Enabled(T7, Grant(1, [])) && Step(T7, Grant(1, [])) == T8
  {
    assert T7.waiting - {1} == T8.waiting;
    assert Terminate(Terminate(T7.processes, 0), 1) == T8.processes;
  }

  lemma NextsNavigate()
    ensures Navigate(FRESH, Next, Plan(1, false)) == MOVED
    ensures Navigate(MOVED.(status := Failed), Next, Plan(1, false)) == STALE
  {
    assert FRESH.history + [7] == MOVED.history;
    assert MOVED.history + [8] == STALE.history;
  }

  lemma SecondNextNavigates()
    ensures Enabled(T13, Grant(2, [])) && Step(T13, Grant(2, [])) == T14
  {
    assert T13.waiting - {2} == T14.waiting;
    NextsNavigate();
  }

  lemma QueueBegins()
    ensures Reached(1, T1)
  {
    NothingIsReached();
    Reach(0, INITIAL, BeginStart([7, 8, 9]));
  }

  lemma QueueStarts()
    ensures Reached(2, T2)
  {
    QueueBegins();
    assert T1.waiting - {0} == T2.waiting;
    Reach(1, T1, Grant(0, []));
  }

  lemma SpeakerIsSilent()
    ensures Reached(3, T3)
  {
    QueueStarts();
    Reach(2, T2, Warmed);
  }

  lemma DecoderStarts()
    ensures Reached(4, T4)
  {
    SpeakerIsSilent();
    Reach(3, T3, Prepared(true));
  }

  lemma PlayerStarts()
    ensures Reached(5, T5)
  {
    DecoderStarts();
    Reach(4, T4, Paired(true));
  }

  lemma LockFrees()
    ensures Reached(6, T6)
  {
    PlayerStarts();
    Reach(5, T5, Released);
  }

  lemma FirstNextWaits()
    ensures Reached(7, T7)
  {
    LockFrees();
    Reach(6, T6, BeginControl(Next, false));
  }

  lemma FirstNextHalts()
    ensures Reached(8, T8)
  {
    FirstNextWaits();
    FirstNextStopsPair();
    Reach(7, T7, Grant(1, []));
  }

  lemma SecondNextWaits()
    ensures Reached(9, T9)
  {
    FirstNextHalts();
    Reach(8, T8, BeginControl(Next, false));
  }

  lemma FirstNextMoves()
    ensures Reached(10, T10)
  {
    SecondNextWaits();
    NextsNavigate();
    Reach(9, T9, Halted);
  }

  lemma SpeakerIsSilentAgain()
    ensures Reached(11, T11)
  {
    FirstNextMoves();
    Reach(10, T10, Warmed);
  }

  lemma StartFails()
    ensures Reached(12, T12)
  {
    SpeakerIsSilentAgain();
    Reach(11, T11, Prepared(false));
  }

  lemma LockFreesAgain()
    ensures Reached(13, T13)
  {
    StartFails();
    Reach(12, T12, Released);
  }

  lemma SecondNextMoves()
    ensures Reached(14, T14)
  {
    LockFreesAgain();
    SecondNextNavigates();
    Reach(13, T13, Grant(2, []));
  }

  /** After that run the history no longer ends with the items before the cursor, and a
      previous that does not restart plans to stay where it is. */
  lemma OverlapBreaksHistory()
    ensures Reached(|EVENTS|, T14)
    ensures T14.current == Some(Session(0, 3, STALE, None)) && !Suffix(STALE)
    ensures PlanMove(STALE, Previous, false) == Some(Plan(1, false))
  {
    SecondNextMoves();
    assert STALE.history[|STALE.history| - 1..] == [8] && STALE.items[..1] == [7];
    assert STALE.items[1] == 8 && 8 !in STALE.items[..1];
    IndexIsFirst(STALE.items, 8, 1);
  }
}
