/** Runs of the player in which the lock is granted in arrival order. */
module PlayerReach {
  import opened Common
  import opened PlaybackQueue
  import opened PlayerModel

  /** A grant of the lock goes to the command that has waited longest. */
  ghost predicate InArrivalOrder(s: State, e: Event) {
    e.Grant? ==> forall k :: k in s.waiting ==> e.task <= k
  }

  ghost predicate IsFairRun(states: seq<State>, events: seq<Event>) {
    IsRun(states, events) && forall i :: 0 <= i < |events| ==> InArrivalOrder(states[i], events[i])
  }

  ghost predicate ReachedBy(events: seq<Event>, s: State) {
    exists states :: IsFairRun(states, events) && states[|events|] == s
  }

  lemma StartIsReached()
    ensures ReachedBy([], INITIAL)
  {
    assert IsFairRun([INITIAL], []);
  }

  lemma ReachedByOneMore(events: seq<Event>, s: State, e: Event)
    requires ReachedBy(events, s) && Enabled(s, e) && InArrivalOrder(s, e)
    ensures ReachedBy(events + [e], Step(s, e))
  {
    var states :| IsFairRun(states, events) && states[|events|] == s;
    assert IsFairRun(states + [Step(s, e)], events + [e]);
  }
}
