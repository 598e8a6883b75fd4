/** The incremental record agrees with the history it was built from. */
module HealthLaws {
  import opened Common
  import opened HealthModel

  function Current(history: seq<Report>): Speaker {
    OrBlank(Record(history))
  }

  /** Speakers do not touch each other: a record depends only on the reports about its own
      speaker, so all that follows about one history holds of every record of a registry. */
  lemma {:induction false} RecordsAreIndependent(log: seq<(Address, Report)>, address: Address)
    ensures Lookup(Registry(log), address) == Record(Of(log, address))
  {
    if log != [] {
      var init, last := log[..|log| - 1], log[|log| - 1];
      RecordsAreIndependent(init, address);
      if last.0 == address {
        RecordGrows(Of(init, address), last.1);
      } else {
        assert Of(log, address) == Of(init, address);
      }
    }
  }

  lemma CountOne(before: set<nat>, after: set<nat>, n: nat, added: bool)
    requires n !in before && after == (if added then before + {n} else before)
    ensures |after| == |before| + if added then 1 else 0
  {
  }

  lemma EdgesGrow(states: seq<LinkState>, state: LinkState, edge: Edge)
    ensures |Edges(states + [state], edge)| == |Edges(states, edge)| + (if IsEdge(states + [state], |states|, edge) then 1 else 0)
  {
    var longer, n := states + [state], |states|;
    forall i: nat | i < n ensures IsEdge(longer, i, edge) == IsEdge(states, i, edge) {
    }
    CountOne(Edges(states, edge), Edges(longer, edge), n, IsEdge(longer, n, edge));
  }

  /** Is there a record at all, and does its state come from the last observation? */
  lemma {:induction false} StateIsTheLastObserved(history: seq<Report>)
    ensures Record(history).Some? <==> exists i :: 0 <= i < |history| && (Observes(history[i]) || history[i].Flap? || NamesCodec(history[i]))
    ensures States(history) != [] ==> Record(history).Some?
    ensures Current(history).state == if States(history) == [] then Unknown else States(history)[|States(history)| - 1]
  {
    if history != [] {
      StateIsTheLastObserved(history[..|history| - 1]);
    }
  }

  /** The counters are exactly the numbers of edges in the observed states. */
  lemma {:induction false} CountersAreTheEdges(history: seq<Report>)
    ensures Current(history).connects == |Edges(States(history), Up)|
    ensures Current(history).disconnects == |Edges(States(history), Down)|
  {
    if history != [] {
      var init, last := history[..|history| - 1], history[|history| - 1];
      CountersAreTheEdges(init);
      StateIsTheLastObserved(init);
      if Observes(last) {
        EdgesGrow(States(init), last.state, Up);
        EdgesGrow(States(init), last.state, Down);
      } else {
        assert States(history) == States(init);
      }
    }
  }

  /** Every time the link came up it is still up, was counted as disconnected, or lapsed into
      another state. */
  lemma {:induction false} EdgesBalance(states: seq<LinkState>)
    ensures |Edges(states, Up)| == |Edges(states, Down)| + |Edges(states, Lapse)|
                             + if states != [] && states[|states| - 1].Connected? then 1 else 0
  {
    if states != [] {
      var init := states[..|states| - 1];
      EdgesBalance(init);
      EdgesGrow(init, states[|states| - 1], Up);
      EdgesGrow(init, states[|states| - 1], Down);
      EdgesGrow(init, states[|states| - 1], Lapse);
      assert init + [states[|states| - 1]] == states;
    }
  }

  /** Disconnects, and one if connected, never exceed connects; the gap is exactly the number
      of links that were lost without a disconnect being observed. */
  lemma ChurnIsBounded(history: seq<Report>)
    ensures var s := Current(history);
            && s.disconnects + (if s.state.Connected? then 1 else 0) <= s.connects
            && s.connects - s.disconnects - (if s.state.Connected? then 1 else 0) == |Edges(States(history), Lapse)|
  {
    CountersAreTheEdges(history);
    StateIsTheLastObserved(history);
    EdgesBalance(States(history));
  }

  lemma {:induction false} FlapsAreCounted(history: seq<Report>)
    ensures Current(history).suppressedFlaps == |Flaps(history)|
  {
    if history != [] {
      var init, last := history[..|history| - 1], history[|history| - 1];
      FlapsAreCounted(init);
      CountOne(Flaps(init), Flaps(history), |init|, last.Flap?);
    }
  }

  /** The stored failure is the latest one that no clean connection followed. */
  lemma {:induction false} FailureIsTheOneThatStands(history: seq<Report>)
    ensures Current(history).failure.Some? <==> exists i :: 0 <= i < |history| && FailureStands(history, i)
    ensures forall i :: 0 <= i < |history| && FailureStands(history, i) ==> Current(history).failure == history[i].failure
  {
    if history != [] {
      var init, last := history[..|history| - 1], history[|history| - 1];
      FailureIsTheOneThatStands(init);
      forall i | 0 <= i < |init|
        ensures FailureStands(history, i) <==> FailureStands(init, i) && !IsFailing(last) && !IsCleanUp(last)
      {
        assert forall j :: i < j < |init| ==> init[j] == history[j];
      }
      assert FailureStands(history, |init|) <==> IsFailing(last);
    }
  }

  /** The codec is the latest one named, unless an observation carried an unusable one since.
      An unusable codec wipes the known one when observed, and changes nothing when recorded. */
  lemma {:induction false} CodecIsTheOneThatStands(history: seq<Report>)
    ensures Current(history).codec.Some? <==> exists i :: 0 <= i < |history| && CodecStands(history, i)
    ensures forall i :: 0 <= i < |history| && CodecStands(history, i) ==> Current(history).codec == Some(history[i].codec.name)
  {
    if history != [] {
      var init, last := history[..|history| - 1], history[|history| - 1];
      CodecIsTheOneThatStands(init);
      forall i | 0 <= i < |init|
        ensures CodecStands(history, i) <==> CodecStands(init, i) && !NamesCodec(last) && !WipesCodec(last)
      {
        assert forall j :: i < j < |init| ==> init[j] == history[j];
      }
      assert CodecStands(history, |init|) <==> NamesCodec(last);
    }
  }

  /** The reason of the link is the one of the latest failure or flap that gave one. A failure
      without a detail wipes it; a flap without a reason does not. */
  lemma {:induction false} ReasonIsTheLatestGiven(history: seq<Report>)
    ensures Current(history).linkReason.Some? ==> exists i :: 0 <= i < |history| && ReasonStands(history, i)
    ensures forall i :: 0 <= i < |history| && ReasonStands(history, i) ==> Current(history).linkReason == ReasonOf(history[i])
  {
    if history != [] {
      var init, last := history[..|history| - 1], history[|history| - 1];
      ReasonIsTheLatestGiven(init);
      forall i | 0 <= i < |init| ensures ReasonStands(history, i) <==> ReasonStands(init, i) && !GivesReason(last) {
        assert forall j :: i < j < |init| ==> init[j] == history[j];
      }
      assert ReasonStands(history, |init|) <==> GivesReason(last);
    }
  }

  /** A report that makes a record without observing anything. */
  predicate MakesBlank(report: Report) {
    report.Flap? || (report.Negotiated? && report.codec.Named?)
  }

  /** Report i made the record, before anything was observed. */
  predicate BlankAt(history: seq<Report>, i: nat)
    requires i < |history|
  {
    MakesBlank(history[i]) && forall j :: 0 <= j <= i ==> !Observes(history[j])
  }

  predicate StartsBlank(history: seq<Report>) {
    exists i :: 0 <= i < |history| && BlankAt(history, i)
  }

  lemma BlankStays(history: seq<Report>, report: Report)
    requires StartsBlank(history)
    ensures StartsBlank(history + [report])
  {
    var longer := history + [report];
    var i :| 0 <= i < |history| && BlankAt(history, i);
    assert forall j :: 0 <= j <= i ==> longer[j] == history[j];
    assert BlankAt(longer, i);
  }

  lemma BlankBegins(history: seq<Report>, report: Report)
    requires Record(history).None? && MakesBlank(report)
    ensures StartsBlank(history + [report])
  {
    var longer := history + [report];
    StateIsTheLastObserved(history);
    assert forall j :: 0 <= j < |history| ==> longer[j] == history[j];
    assert BlankAt(longer, |history|);
  }

  lemma BlankWasOrBegins(history: seq<Report>, report: Report)
    requires StartsBlank(history + [report])
    ensures StartsBlank(history) || (MakesBlank(report) && forall j :: 0 <= j < |history| ==> !Observes(history[j]))
  {
    var longer := history + [report];
    var i :| 0 <= i < |longer| && BlankAt(longer, i);
    assert forall j :: 0 <= j < |history| ==> longer[j] == history[j];
    if i < |history| {
      assert BlankAt(history, i);
    }
  }

  /** Before anything is observed there is a record exactly if a flap or a codec made one. */
  lemma {:induction false} BlankMeansRecord(history: seq<Report>)
    ensures States(history) == [] <==> forall j :: 0 <= j < |history| ==> !Observes(history[j])
    ensures States(history) == [] ==> (Record(history).Some? <==> StartsBlank(history))
  {
    if history != [] {
      var init, last := history[..|history| - 1], history[|history| - 1];
      assert history == init + [last];
      BlankMeansRecord(init);
      BlankFollows(init, last);
    }
  }

  lemma BlankFollows(history: seq<Report>, report: Report)
    ensures StartsBlank(history) ==> StartsBlank(history + [report])
    ensures Record(history).None? && MakesBlank(report) ==> StartsBlank(history + [report])
    ensures StartsBlank(history + [report]) ==>
              StartsBlank(history) || (MakesBlank(report) && forall j :: 0 <= j < |history| ==> !Observes(history[j]))
  {
    if StartsBlank(history) {
      BlankStays(history, report);
    }
    if Record(history).None? && MakesBlank(report) {
      BlankBegins(history, report);
    }
    if StartsBlank(history + [report]) {
      BlankWasOrBegins(history, report);
    }
  }

  /** The transition of a record comes from the state observed before the last one; from
      unknown, if a flap or a codec made the record; and from nothing, if the last observation
      made it. The attempt is the one of the last observation. */
  lemma {:induction false} TransitionIsFromTheOneBefore(history: seq<Report>)
    ensures var states := States(history);
            Current(history).cameFrom ==
              if |states| >= 2 then Some(states[|states| - 2])
              else if |states| == 1 && StartsBlank(history) then Some(Unknown)
              else None
  {
    if history != [] {
      var init, last := history[..|history| - 1], history[|history| - 1];
      assert history == init + [last];
      TransitionIsFromTheOneBefore(init);
      StateIsTheLastObserved(init);
      BlankFollows(init, last);
      BlankMeansRecord(init);
    }
  }

  /** Observation i was the last. */
  predicate LastObservation(history: seq<Report>, i: nat)
    requires i < |history|
  {
    Observes(history[i]) && forall j :: i < j < |history| ==> !Observes(history[j])
  }

  lemma {:induction false} AttemptIsTheLastObserved(history: seq<Report>)
    ensures forall i :: 0 <= i < |history| && LastObservation(history, i) ==> Current(history).attempt == history[i].attempt
    ensures States(history) == [] ==> Current(history).attempt == 0
  {
    if history != [] {
      var init, last := history[..|history| - 1], history[|history| - 1];
      AttemptIsTheLastObserved(init);
      forall i | 0 <= i < |init| ensures LastObservation(history, i) <==> LastObservation(init, i) && !Observes(last) {
        assert forall j :: i < j < |init| ==> init[j] == history[j];
      }
    }
  }
}
