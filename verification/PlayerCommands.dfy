/**
 What each command does when it gets its turn at once. The laws speak of the queue before and
 after, of the job that starts and of the children that still run.
 */
module PlayerCommands {
  import opened Common
  import opened PlaybackQueue
  import opened PlayerModel
  import opened PlayerInvariants
  import opened PlayerTheorems
  import opened PlayerSupervision
  import opened PlayerMoves
  import QueueLaws

  // ---- Starting ------------------------------------------------------------------

  /** A queue that gets its turn at once plays its own items from the first one on. */
  lemma StartTakesEffect(s: State, items: seq<Item>)
    requires Inv(s) && s.holder.Free? && Enabled(s, BeginStart(items))
    ensures var begun := Step(s, BeginStart(items));
            && Enabled(begun, Grant(s.nextTask, []))
            && var r := Step(begun, Grant(s.nextTask, []));
               && r.generation == s.generation + 1 && r.current.Some?
               && r.current.value.generation == r.generation
               && r.current.value.queue == Queue(items, items, 0, false, Off, Playing, [])
               && JobOf(r.holder) == Some(Job(r.generation, Some(r.current.value.id)))
  {
  }

  /** A stream that gets its turn at once replaces any queue. */
  lemma UrlTakesEffect(s: State)
    requires Inv(s) && s.holder.Free?
    ensures var begun := Step(s, BeginUrl);
            && Enabled(begun, Grant(s.nextTask, []))
            && var r := Step(begun, Grant(s.nextTask, []));
               r.generation == s.generation + 1 && r.current.None? && JobOf(r.holder) == Some(Job(r.generation, None))
  {
  }

  // ---- Beginning a control call ----------------------------------------------------

  lemma PlansUnless(q: Queue, op: Operation, late: bool)
    requires Valid(q)
    ensures PlanMove(q, op, late).None? <==> op.Next? && q.index + 1 == |q.items| && !q.repeat.All?
  {
    if q.history != [] {
      assert q.history[|q.history| - 1] in q.items;
    }
  }

  /** A control call raises, and leaves no trace, if and only if there is no session or it asks
      for the next item at the end of a queue that does not repeat all. */
  lemma ControlRaisesIff(s: State, op: Operation, late: bool)
    requires Inv(s)
    ensures Step(s, BeginControl(op, late)) == s <==>
              s.current.None? ||
              (op.Next? && s.current.value.queue.index + 1 == |s.current.value.queue.items| && !s.current.value.queue.repeat.All?)
  {
    if s.current.Some? {
      PlansUnless(s.current.value.queue, op, late);
      if Plans(s, op, late) {
        PrepareCases(s, op, late);
        assert Step(s, BeginControl(op, late)).nextTask == s.nextTask + 1;
      }
    }
  }

  /** A call that does not raise waits for the lock. It draws a ticket if and only if it is a
      next, a previous or the retry of a failed item. */
  lemma ControlDrawsIff(s: State, op: Operation, late: bool)
    requires Inv(s) && s.current.Some? && Step(s, BeginControl(op, late)) != s
    ensures var r, retries := Step(s, BeginControl(op, late)), op.Play? && s.current.value.queue.status.Failed?;
            && r.generation == (if op.Next? || op.Previous? || retries then s.generation + 1 else s.generation)
            && s.nextTask !in s.waiting && s.nextTask in r.waiting
            && r.waiting[s.nextTask].Control? && r.waiting[s.nextTask].op == op
            && r.current == s.current && r.active == s.active && r.holder == s.holder && r.processes == s.processes
  {
    PlansUnless(s.current.value.queue, op, late);
    PrepareCases(s, op, late);
  }

  // ---- Taking the turn -------------------------------------------------------------

  /** The command that a call enqueues. */
  function CommandOf(s: State, op: Operation, late: bool): Command
    requires s.current.Some? && s.current.value.queue.index < |s.current.value.queue.items|
    requires PlanMove(s.current.value.queue, op, late).Some?
  {
    Control(s.current.value.id, op, PlanMove(s.current.value.queue, op, late).value,
            if Claims(s.current.value.queue, op) then Some(s.generation + 1) else None)
  }

  function Begun(s: State, op: Operation, late: bool): State
    requires s.current.Some? && s.current.value.queue.index < |s.current.value.queue.items|
  {
    s.(generation := if Claims(s.current.value.queue, op) then s.generation + 1 else s.generation, nextTask := s.nextTask + 1)
  }

  lemma BegunWaits(s: State, op: Operation, late: bool)
    requires Inv(s) && Plans(s, op, late)
    ensures s.nextTask !in s.waiting
    ensures Step(s, BeginControl(op, late)) == Begun(s, op, late).(waiting := s.waiting[s.nextTask := CommandOf(s, op, late)])
  {
    PrepareCases(s, op, late);
  }

  lemma TurnPerforms(s: State, k: nat, command: Command, tail: seq<Item>)
    requires s.holder.Free? && k !in s.waiting && command.Control? && IsCurrent(s, command.session)
    requires command.claim.Some? ==> command.claim.value == s.generation
    ensures TakeTurn(s.(waiting := s.waiting[k := command]), k, tail) == Perform(s, command, tail)
  {
    assert s.waiting[k := command] - {k} == s.waiting;
  }

  lemma TurnAtOnce(s: State, op: Operation, late: bool, tail: seq<Item>)
    requires Inv(s) && s.holder.Free? && Plans(s, op, late)
    requires op.SetShuffle? ==> QueueLaws.Arranges(s.current.value.queue, tail)
    ensures var begun := Step(s, BeginControl(op, late));
            && Enabled(begun, Grant(s.nextTask, tail))
            && Step(begun, Grant(s.nextTask, tail)) == Perform(Begun(s, op, late), CommandOf(s, op, late), tail)
  {
    BegunWaits(s, op, late);
    TurnPerforms(Begun(s, op, late), s.nextTask, CommandOf(s, op, late), tail);
  }

  /** Where a next, a previous or a retry takes a queue whose history ends with its past. */
  function Landed(q: Queue, op: Operation, late: bool): Queue
    requires q.index < |q.items| && q.index <= |q.history|
  {
    var playing := q.(status := Playing);
    if op.Next? then
      playing.(index := if q.index + 1 == |q.items| then 0 else q.index + 1, history := q.history + [q.items[q.index]])
    else if op.Previous? && q.index > 0 && !late then
      playing.(index := q.index - 1, history := q.history[..|q.history| - 1])
    else playing
  }

  lemma PlansToLand(q: Queue, op: Operation, late: bool)
    requires Valid(q) && Suffix(q) && IsMove(q, op) && PlanMove(q, op, late).Some?
    ensures Navigate(q, op, PlanMove(q, op, late).value) == Landed(q, op, late)
  {
    if op.Previous? && q.index > 0 {
      QueueLaws.PreviousStepsBack(q);
    }
  }

  /** The state once the command has moved: at once if nothing plays, and else when the old pair
      it waited for is gone. */
  ghost function AfterTurn(s: State): State {
    if s.holder.Halting? && s.holder.command.Control? then Step(s, Halted) else s
  }

  /** r plays the queue of s with the command's move carried out, and nothing else. */
  ghost predicate Lands(s: State, command: Command, r: State)
    requires command.Control? && s.current.Some? && s.current.value.queue.index < |s.current.value.queue.items|
  {
    && r.active.None? && r.current.Some?
    && r.current.value.id == s.current.value.id
    && r.current.value.generation == (if command.claim.Some? then command.claim.value else s.current.value.generation)
    && r.current.value.queue == Navigate(s.current.value.queue, command.op, command.plan)
    && JobOf(r.holder) == Some(Job(r.current.value.generation, Some(r.current.value.id)))
    && r.generation == s.generation
  }

  lemma ReplaceLandsAtOnce(s: State, command: Command)
    requires s.holder.Free? && command.Control? && IsCurrent(s, command.session) && s.active.None?
    ensures Lands(s, command, AfterTurn(Replace(s, command)))
  {
  }

  lemma ReplaceLandsLater(s: State, command: Command)
    requires s.holder.Free? && command.Control? && IsCurrent(s, command.session) && s.active.Some?
    ensures Lands(s, command, AfterTurn(Replace(s, command)))
  {
    assert Replace(s, command).holder == Halting(command);
  }

  lemma ReplaceLands(s: State, command: Command)
    requires s.holder.Free? && command.Control? && IsCurrent(s, command.session)
    ensures Lands(s, command, AfterTurn(Replace(s, command)))
  {
    if s.active.None? {
      ReplaceLandsAtOnce(s, command);
    } else {
      ReplaceLandsLater(s, command);
    }
  }

  lemma PerformReplaces(s: State, command: Command, tail: seq<Item>)
    requires command.Control? && IsCurrent(s, command.session) && IsMove(s.current.value.queue, command.op)
    ensures Perform(s, command, tail) == Replace(s, command)
  {
  }

  /** A next goes one item on or, at the end, back to the first; a previous goes one back, or
      starts the item again if it is the first or has played for a while; a retry starts the
      failed item again. The new item's job starts, and nothing else plays. */
  lemma MoveTakesEffect(s: State, op: Operation, late: bool)
    requires Inv(s) && s.holder.Free? && s.current.Some? && Suffix(s.current.value.queue)
    requires IsMove(s.current.value.queue, op) && Step(s, BeginControl(op, late)) != s
    ensures var begun, k := Step(s, BeginControl(op, late)), s.nextTask;
            && Enabled(begun, Grant(k, []))
            && var r := AfterTurn(Step(begun, Grant(k, [])));
               && r.current.Some? && r.current.value.id == s.current.value.id
               && r.current.value.queue == Landed(s.current.value.queue, op, late)
               && r.generation == s.generation + 1 == r.current.value.generation
               && JobOf(r.holder) == Some(Job(r.generation, Some(r.current.value.id)))
               && r.active.None?
  {
    PlansUnless(s.current.value.queue, op, late);
    TurnAtOnce(s, op, late, []);
    PlansToLand(s.current.value.queue, op, late);
    BegunIsSound(s, op, late);
    PerformReplaces(Begun(s, op, late), CommandOf(s, op, late), []);
    ReplaceLands(Begun(s, op, late), CommandOf(s, op, late));
  }

  lemma BegunIsSound(s: State, op: Operation, late: bool)
    requires Inv(s) && s.holder.Free? && Plans(s, op, late)
    ensures Inv(Begun(s, op, late)) && IsCurrent(Begun(s, op, late), s.current.value.id)
  {
  }

  // ---- Modes, pause and resume -----------------------------------------------------

  /** What the other operations make of a queue. */
  function Operated(q: Queue, op: Operation, tail: seq<Item>): Queue
    requires q.index < |q.items|
  {
    match op
    case SetRepeat(mode) => q.(repeat := mode)
    case SetShuffle(on) =>
      if on == q.shuffle then q
      else if on then q.(shuffle := true, items := q.items[..q.index + 1] + tail)
      else q.(shuffle := false, items := q.items[..q.index + 1] + Keep(q.original, Elements(q.items[q.index + 1..])))
    case Pause => if q.status.Playing? then q.(status := Paused) else q
    case Play => if q.status.Paused? then q.(status := Playing) else q
    case _ => q
  }

  ghost predicate Operates(s: State, op: Operation, tail: seq<Item>, r: State)
    requires s.current.Some? && s.current.value.queue.index < |s.current.value.queue.items|
  {
    && r.current == Some(s.current.value.(queue := Operated(s.current.value.queue, op, tail)))
    && r.active == s.active && r.processes == s.processes && r.generation == s.generation && JobOf(r.holder).None?
  }

  lemma PerformSets(s: State, command: Command, tail: seq<Item>)
    requires s.holder.Free? && command.Control? && IsCurrent(s, command.session)
    requires command.op.SetRepeat? || command.op.SetShuffle?
    ensures Operates(s, command.op, tail, Perform(s, command, tail))
  {
  }

  lemma PerformPauses(s: State, command: Command, tail: seq<Item>)
    requires Inv(s) && s.holder.Free? && command.Control? && IsCurrent(s, command.session)
    requires command.op.Pause? || (command.op.Play? && !s.current.value.queue.status.Failed?)
    ensures Operates(s, command.op, tail, Perform(s, command, tail))
  {
  }

  lemma PerformOperates(s: State, command: Command, tail: seq<Item>)
    requires Inv(s) && s.holder.Free? && command.Control? && IsCurrent(s, command.session)
    requires !IsMove(s.current.value.queue, command.op)
    ensures Operates(s, command.op, tail, Perform(s, command, tail))
  {
    if command.op.SetRepeat? || command.op.SetShuffle? {
      PerformSets(s, command, tail);
    } else {
      PerformPauses(s, command, tail);
    }
  }

  /** A mode is set as asked; a playing queue pauses and a paused one plays on; anything else
      changes nothing. No pair is touched and no job starts. */
  lemma ModeTakesEffect(s: State, op: Operation, late: bool, tail: seq<Item>)
    requires Inv(s) && s.holder.Free? && s.current.Some? && !IsMove(s.current.value.queue, op)
    requires op.SetShuffle? ==> QueueLaws.Arranges(s.current.value.queue, tail)
    ensures var begun, k := Step(s, BeginControl(op, late)), s.nextTask;
            && Enabled(begun, Grant(k, tail))
            && var r := Step(begun, Grant(k, tail));
               && r.current == Some(s.current.value.(queue := Operated(s.current.value.queue, op, tail)))
               && r.active == s.active && r.processes == s.processes && r.generation == s.generation && JobOf(r.holder).None?
  {
    PlansUnless(s.current.value.queue, op, late);
    TurnAtOnce(s, op, late, tail);
    BegunIsSound(s, op, late);
    PerformOperates(Begun(s, op, late), CommandOf(s, op, late), tail);
  }
}
