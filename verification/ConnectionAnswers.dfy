/** What a call answers: exactly when it returns, with what, and when it raises. */
module ConnectionAnswers {
  import opened Common
  import opened ConnectionModel
  import opened ConnectionTheorems

  // ---- Resolving -----------------------------------------------------------------

  /** The adapters that are still to be asked after this event. */
  ghost function LeftToAsk(m: Manager, e: Event): seq<Path>
    requires Enabled(m, e) && (e.Start? || e.Reply?)
  {
    if e.Start? then e.adapters else m.tasks[e.task].adapters[1..]
  }

  /** A record that was found is usable: it was found attached, or it is new. */
  lemma FoundIsUsable(m: Manager, e: Event)
    requires Inv(m) && Enabled(m, e) && FoundBy(m, e).Some?
    ensures Usable(Step(m, e).0, FoundBy(m, e).value)
  {
  }

  /** A new record says what BlueZ answered for the address under the adapter asked. */
  lemma NewRecordIsTheAnswer(m: Manager, e: Event)
    requires Inv(m) && Enabled(m, e) && FoundBy(m, e).Some? && FoundBy(m, e).value >= |m.records|
    ensures e.Reply? && e.answer.Some?
    ensures var task, r, p := m.tasks[e.task], Step(m, e).0, e.answer.value;
            && |r.records| == |m.records| + 1 && r.records[..|m.records|] == m.records
            && r.records[|m.records|] ==
               Device(ObjectPath(task.adapters[0], task.address), p.address, p.adapterName, false, p.connected, p.known)
  {
  }

  /** A call that only resolves returns the record found, and returns none only after every
      adapter was asked in vain. */
  lemma ResolveAnswers(m: Manager, e: Event)
    requires Inv(m) && Enabled(m, e) && (e.Start? || e.Reply?) && GoalOf(m, e).JustResolve?
    ensures var found, answer := FoundBy(m, e), Step(m, e).1;
            if found.Some? then answer == Resolved(found)
            else if LeftToAsk(m, e) == [] then answer == Resolved(None)
            else answer == Pending
  {
  }

  /** What a connect answers when it has found its record: it raises if the adapter's name is
      not one or is held, it returns at once if the link is up and no reset was asked, and else
      it takes the adapter. */
  ghost predicate ConnectAnswers(m: Manager, r: Manager, answer: Outcome, t: nat, found: nat, reset: bool)
    requires found < |r.records|
  {
    var adapter := r.records[found].adapterName;
    if !IsAdapterName(adapter) || adapter in m.locks then answer == Raised
    else if r.records[found].connected && !reset then answer == ConnectedTo(found)
    else
      && answer == Pending && t in r.tasks && r.tasks[t] == Scanning(found, adapter, reset)
      && adapter in r.locks && r.locks[adapter] == t
  }

  lemma ReplyConnectAnswers(m: Manager, e: Event)
    requires Inv(m) && Enabled(m, e) && e.Reply? && GoalOf(m, e).Connect? && FoundBy(m, e).Some?
    ensures ConnectAnswers(m, Step(m, e).0, Step(m, e).1, e.task, FoundBy(m, e).value, GoalOf(m, e).reset)
  {
    FoundIsUsable(m, e);
  }

  lemma StartConnectAnswers(m: Manager, e: Event)
    requires Inv(m) && Enabled(m, e) && e.Start? && GoalOf(m, e).Connect? && FoundBy(m, e).Some?
    ensures ConnectAnswers(m, Step(m, e).0, Step(m, e).1, m.nextTask, FoundBy(m, e).value, GoalOf(m, e).reset)
  {
    FoundIsUsable(m, e);
  }

  /** A connect answers so in the step in which it finds its record. If it finds none it raises
      after every adapter was asked, and waits before. */
  lemma ConnectAnswersWhenFound(m: Manager, e: Event)
    requires Inv(m) && Enabled(m, e) && (e.Start? || e.Reply?) && GoalOf(m, e).Connect?
    ensures var found, answer := FoundBy(m, e), Step(m, e).1;
            if found.Some? then ConnectAnswers(m, Step(m, e).0, answer, TaskOf(m, e).value, found.value, GoalOf(m, e).reset)
            else answer == if LeftToAsk(m, e) == [] then Raised else Pending
  {
    if FoundBy(m, e).Some? {
      if e.Start? {
        StartConnectAnswers(m, e);
      } else {
        ReplyConnectAnswers(m, e);
      }
    }
  }

  /** A resolving call that waits on asks the adapters that are left, in order. */
  lemma AsksInOrder(m: Manager, e: Event)
    requires Inv(m) && Enabled(m, e) && (e.Start? || e.Reply?) && FoundBy(m, e).None? && LeftToAsk(m, e) != []
    ensures var r, t := Step(m, e).0, TaskOf(m, e).value;
            && t in r.tasks && r.tasks[t].Resolving? && r.tasks[t].adapters == LeftToAsk(m, e) && r.tasks[t].goal == GoalOf(m, e)
            && r.tasks[t].address == if e.Start? then e.address else m.tasks[t].address
  {
  }

  // ---- Working under the adapter ----------------------------------------------------

  /** The record a working task is about, and whether it is usable in the manager. */
  ghost predicate Good(m: Manager, t: nat) {
    t in m.tasks && Holds(m.tasks[t]) && Usable(m, m.tasks[t].device)
  }

  /** Once the scan has stopped, a link that is up is dropped first if a reset was asked. */
  lemma ScanAnswers(m: Manager, t: nat)
    requires Inv(m) && Enabled(m, ScanStopped(t))
    ensures var task, (r, answer) := m.tasks[t], Step(m, ScanStopped(t));
            if !Good(m, t) then answer == Raised
            else
              && answer == Pending && t in r.tasks
              && r.tasks[t] == if m.records[task.device].connected && task.reset then Dropping(task.device, task.adapter)
                               else Linking(task.device, task.adapter)
  {
  }

  /** A dropped link is down, and after a moment the task links if its record is still usable. */
  lemma DropAnswers(m: Manager, t: nat)
    requires Inv(m)
    ensures Enabled(m, LinkDropped(t)) ==>
              var task, (r, answer) := m.tasks[t], Step(m, LinkDropped(t));
              && answer == Pending && t in r.tasks && r.tasks[t] == Settling(task.device, task.adapter)
              && !r.records[task.device].connected
    ensures Enabled(m, Settled(t)) ==>
              var task, (r, answer) := m.tasks[t], Step(m, Settled(t));
              if !Good(m, t) then answer == Raised
              else answer == Pending && t in r.tasks && r.tasks[t] == Linking(task.device, task.adapter)
  {
  }

  /** A link that came up is on record and goes on to trusting; any other end of linking raises,
      and an object that was stale is marked offline. */
  lemma LinkAnswers(m: Manager, t: nat, result: LinkResult)
    requires Inv(m) && Enabled(m, LinkDone(t, result))
    ensures var task, (r, answer) := m.tasks[t], Step(m, LinkDone(t, result));
            && (result.Linked? ==> answer == Pending && t in r.tasks && r.tasks[t] == Trusting(task.device, task.adapter)
                                   && r.records[task.device].connected)
            && (!result.Linked? ==> answer == Raised)
            && (result.StaleObject? ==> r.records[task.device].detached && !r.records[task.device].connected)
            && (!result.Linked? && !result.StaleObject? ==> r.records == m.records)
  {
  }

  /** A connect whose link came up returns True, for its own record, if and only if that record
      is mapped and attached at that instant; otherwise it raises. */
  lemma TrustAnswersIff(m: Manager, t: nat)
    requires Inv(m) && Enabled(m, TrustDone(t))
    ensures var device, (r, answer) := m.tasks[t].device, Step(m, TrustDone(t));
            && (answer == ConnectedTo(device) <==> Usable(r, device))
            && (answer == Raised <==> !Usable(r, device))
            && (Usable(r, device) <==> Good(m, t)) && device < |m.records|
            && r.devices == m.devices && r.records == m.records[device := m.records[device].(known := true)]
  {
  }

  // ---- Runs ----------------------------------------------------------------------

  /** A task that works goes on about the same record under the same adapter. */
  ghost predicate SameWork(m: Manager, n: Manager, t: nat) {
    && t < m.nextTask <= n.nextTask
    && (t in n.tasks ==> t in m.tasks && (Holds(m.tasks[t]) ==>
          Holds(n.tasks[t]) && n.tasks[t].device == m.tasks[t].device && n.tasks[t].adapter == m.tasks[t].adapter))
  }

  lemma WorkKeepsRecord(m: Manager, e: Event, t: nat)
    requires Inv(m) && Enabled(m, e) && TaskOf(m, e) == Some(t) && t in m.tasks && Holds(m.tasks[t])
    requires t in Step(m, e).0.tasks
    ensures Holds(Step(m, e).0.tasks[t]) && Step(m, e).0.tasks[t].device == m.tasks[t].device
    ensures Step(m, e).0.tasks[t].adapter == m.tasks[t].adapter
  {
  }

  lemma SameWorkStep(m: Manager, e: Event, t: nat)
    requires Inv(m) && Enabled(m, e) && t < m.nextTask
    ensures SameWork(m, Step(m, e).0, t)
  {
    StepCarries(m, e, t);
    if t in m.tasks && Holds(m.tasks[t]) && t in Step(m, e).0.tasks {
      if TaskOf(m, e) == Some(t) {
        WorkKeepsRecord(m, e, t);
      } else {
        OthersStandStill(m, e, t);
      }
    }
  }

  lemma SameWorkNext(states: seq<Manager>, events: seq<Event>, n: nat, t: nat)
    requires IsRun(states, events) && n < |events| && t < states[n].nextTask
    ensures SameWork(states[n], states[n + 1], t)
  {
    RunKeeps(states, events, n);
    SameWorkStep(states[n], events[n], t);
  }

  lemma SameWorkThrough(a: Manager, b: Manager, c: Manager, t: nat)
    requires SameWork(a, b, t) && SameWork(b, c, t)
    ensures SameWork(a, c, t)
  {
  }

  lemma {:induction false} WorkStaysTheSame(states: seq<Manager>, events: seq<Event>, i: nat, j: nat, t: nat)
    requires IsRun(states, events) && i <= j <= |events| && t < states[i].nextTask
    ensures SameWork(states[i], states[j], t)
    decreases j
  {
    if i < j {
      WorkStaysTheSame(states, events, i, j - 1, t);
      SameWorkNext(states, events, j - 1, t);
      SameWorkThrough(states[i], states[j - 1], states[j], t);
    }
  }

  /** Over runs: a connect that took its adapter for a record, and whose link came up, ends by
      returning True for that very record exactly if it is mapped and attached then, and by
      raising otherwise; unless it is abandoned meanwhile. */
  lemma LinkedConnectReturnsItsRecord(states: seq<Manager>, events: seq<Event>, i: nat, n: nat, t: nat)
    requires IsRun(states, events) && i <= n < |events| && t in states[i].tasks && Holds(states[i].tasks[t])
    requires events[n] == TrustDone(t)
    ensures Sound(states[n]) && Enabled(states[n], events[n])
    ensures var device, answer := states[i].tasks[t].device, Step(states[n], events[n]).1;
            answer == if Usable(states[n + 1], device) then ConnectedTo(device) else Raised
  {
    RunKeeps(states, events, i);
    WorkStaysTheSame(states, events, i, n, t);
    RunKeeps(states, events, n);
    TrustAnswersIff(states[n], t);
  }

  /** A task trusts only if its own link came up before. */
  ghost predicate LinkedBefore(events: seq<Event>, n: nat, t: nat)
    requires n <= |events|
  {
    exists k :: 0 <= k < n && events[k] == LinkDone(t, Linked)
  }

  lemma TrustingStep(m: Manager, e: Event, t: nat)
    requires Inv(m) && Enabled(m, e) && t in Step(m, e).0.tasks && Step(m, e).0.tasks[t].Trusting?
    ensures e == LinkDone(t, Linked) || (t in m.tasks && m.tasks[t].Trusting?)
  {
    if TaskOf(m, e) != Some(t) {
      if TaskOf(m, e).Some? {
        TaskTakesIfFree(m, e);
      } else {
        SignalsTouchNoTask(m, e);
      }
    }
  }

  lemma {:induction false} TrustingMeansLinked(states: seq<Manager>, events: seq<Event>, n: nat, t: nat)
    requires IsRun(states, events) && n <= |events| && t in states[n].tasks && states[n].tasks[t].Trusting?
    ensures LinkedBefore(events, n, t)
  {
    if n > 0 {
      RunKeeps(states, events, n - 1);
      TrustingStep(states[n - 1], events[n - 1], t);
      if events[n - 1] != LinkDone(t, Linked) {
        TrustingMeansLinked(states, events, n - 1, t);
      }
    }
  }

  // ---- Signals ---------------------------------------------------------------------

  /** An object that appears is mapped at its path with exactly what was reported of it, and no
      attached record at another path is touched. */
  lemma AddedTakesEffect(m: Manager, path: Path, p: Properties)
    requires Inv(m)
    ensures var r, n := Step(m, Added(path, p)).0, |m.records|;
            && Usable(r, n) && path in r.devices && r.devices[path] == n
            && r.records[n] == Device(path, p.address, p.adapterName, false, p.connected, p.known)
            && r.records[..n] == m.records
            && (forall other :: other in m.devices && other != path && !m.records[m.devices[other]].detached ==>
                  other in r.devices && r.devices[other] == m.devices[other])
  {
  }

  /** Changed properties reach the record at the path and no other; at an unknown path they
      make one. */
  lemma ChangedTakesEffect(m: Manager, path: Path, p: Properties)
    requires Inv(m)
    ensures var r := Step(m, Changed(path, p)).0;
            && path in r.devices && r.devices[path] < |r.records|
            && r.records[r.devices[path]].connected == p.connected && r.records[r.devices[path]].known == p.known
            && (path in m.devices ==>
                  && r.devices == m.devices && |r.records| == |m.records|
                  && r.records[r.devices[path]].detached == m.records[m.devices[path]].detached
                  && forall n :: 0 <= n < |m.records| && n != m.devices[path] ==> r.records[n] == m.records[n])
  {
  }

  /** When the transport is lost no record is usable any more, so no call can return True for one
      that it already holds; the calls themselves go on. */
  lemma LostTakesEffect(m: Manager)
    requires Inv(m)
    ensures var r := Step(m, Lost).0;
            && (forall n: nat :: !Usable(r, n)) && (forall t: nat :: !Good(r, t))
            && r.tasks == m.tasks && r.locks == m.locks && r.records == m.records
  {
  }

  /** The adapter names are those that name a controller: hci and one digit or two. */
  lemma AdapterNamesAre(name: string)
    ensures IsAdapterName(name) <==>
              exists digits :: 1 <= |digits| <= 2 && name == "hci" + digits && forall c :: c in digits ==> '0' <= c <= '9'
  {
    if IsAdapterName(name) {
      var digits := name[3..];
      assert name == name[..3] + digits;
      assert forall c :: c in digits ==> '0' <= c <= '9';
    }
    if digits :| 1 <= |digits| <= 2 && name == "hci" + digits && forall c :: c in digits ==> '0' <= c <= '9' {
      assert name[..3] == "hci";
      assert forall i :: 3 <= i < |name| ==> name[i] == digits[i - 3] && digits[i - 3] in digits;
    }
  }

  // ---- Object paths ----------------------------------------------------------------

  function Respelled(text: string): string {
    seq(|text|, i requires 0 <= i < |text| => if text[i] == '_' then ':' else text[i])
  }

  function UpperCase(c: char): char {
    if 'a' <= c <= 'z' then ('A' as int + (c as int - 'a' as int)) as char else c
  }

  /** The object path spells the address out: read back with colons for underscores it is the
      address in upper case. So two addresses have one path only if they are the same. */
  lemma SpellingReadsBack(address: Address)
    requires '_' !in address
    ensures |Respelled(Spelled(address))| == |address|
    ensures forall i :: 0 <= i < |address| ==> Respelled(Spelled(address))[i] == UpperCase(address[i])
  {
  }

  lemma PathsAreDistinct(adapter: Path, a: Address, b: Address)
    requires '_' !in a && '_' !in b && ObjectPath(adapter, a) == ObjectPath(adapter, b)
    ensures |a| == |b| && forall i :: 0 <= i < |a| ==> UpperCase(a[i]) == UpperCase(b[i])
  {
    var prefix := adapter + "/dev_";
    assert Spelled(a) == ObjectPath(adapter, a)[|prefix|..] && Spelled(b) == ObjectPath(adapter, b)[|prefix|..];
    SpellingReadsBack(a);
    SpellingReadsBack(b);
  }
}
