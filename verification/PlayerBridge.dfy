/**
 The bridge object for one speaker. Each method is one stretch of a coroutine between two
 suspension points, as the code runs it, and is proved to take the model's step.
 */
module PlayerBridge {
  import opened Common
  import opened PlaybackQueue
  import Model = PlayerModel
  import Invariants = PlayerInvariants

  class MediaPlayerBridge {
    var generation: nat
    var nextSession: nat
    var session: PlaybackSession?
    var active: Option<nat>
    var pairs: seq<Model.Pair>
    var watches: seq<Model.Watch>
    var processes: seq<Model.Process>
    var holder: Model.Holder
    var waiting: map<nat, Model.Command>
    var nextTask: nat
    ghost var handled: seq<nat>

    ghost function Current(): Option<Model.Session>
      reads this, session
    {
      if session == null then None
      else Some(Model.Session(session.id, session.generation, session.View(), session.processes))
    }

    ghost function View(): Model.State
      reads this, session
    {
      Model.State(generation, nextSession, Current(), active, pairs, watches, processes, holder, waiting, nextTask, handled)
    }

    /** The part of the invariant that the code needs to stay inside its lists. Since every
        method takes the model's step, PlayerInvariants.StepKeeps keeps it, and the rest. */
    ghost predicate Ready()
      reads this, session
    {
      && |watches| == |pairs|
      && (forall i :: 0 <= i < |pairs| ==> pairs[i].decoder < |processes| && pairs[i].player < |processes|)
      && (active.Some? ==> active.value < |pairs|)
      && (holder.Pairing? ==> holder.decoder < |processes|)
      && (session != null ==> Valid(session.View()))
    }

    constructor ()
      ensures View() == Model.INITIAL
    {
      generation, nextSession, nextTask := 0, 0, 0;
      session := null;
      active := None;
      pairs, watches, processes, handled := [], [], [], [];
      holder := Model.Free;
      waiting := map[];
    }

    /** Draw a ticket and drop the session, clearing what waiting commands may still see. */
    method InvalidatePlaybackSession() returns (ticket: nat)
      modifies this`generation, this`session, session
      ensures View() == Model.Invalidate(old(View())) && ticket == generation
    {
      generation := generation + 1;
      if session != null {
        session.items := [];
        session.history := [];
        session.processes := None;
        session := null;
      }
      return generation;
    }

    /** Forget the active pair and ask each of its children that still runs to stop. */
    method StopProcesses()
      requires Ready()
      modifies this`active, this`processes
      ensures View() == Model.StopProcesses(old(View()))
    {
      if active == None {
        return;
      }
      var pair := pairs[active.value];
      var children := [pair.decoder, pair.player];
      active := None;
      var i := 0;
      while i < |children|
        invariant 0 <= i <= |children|
        invariant active == None && |processes| == |old(processes)|
        invariant processes == if i == 0 then old(processes)
                               else if i == 1 then Model.Terminate(old(processes), pair.decoder)
                               else Model.Terminate(Model.Terminate(old(processes), pair.decoder), pair.player)
      {
        var child := children[i];
        if processes[child].exit == None {
          processes := processes[child := processes[child].(signalled := true)];
        }
        i := i + 1;
      }
    }

    method Enqueue(command: Model.Command)
      modifies this`waiting, this`nextTask
      ensures View() == Model.Enqueue(old(View()), command)
    {
      waiting := waiting[nextTask := command];
      nextTask := nextTask + 1;
    }

    /** start_queue up to the lock; the items have passed validation. */
    method StartQueue(items: seq<Item>)
      requires Ready() && items != [] && NoDuplicates(items)
      modifies this, session
      ensures View() == Model.Step(old(View()), Model.BeginStart(items))
    {
      var ticket := InvalidatePlaybackSession();
      Enqueue(Model.StartQueue(ticket, items));
    }

    /** play_url up to the lock. */
    method PlayUrl()
      requires Ready()
      modifies this, session
      ensures View() == Model.Step(old(View()), Model.BeginUrl)
    {
      var ticket := InvalidatePlaybackSession();
      Enqueue(Model.PlayUrl(ticket));
    }

    /** execute(stop): outside the lock. */
    method Stop()
      requires Ready()
      modifies this, session
      ensures View() == Model.Step(old(View()), Model.StopCommand)
    {
      var _ := InvalidatePlaybackSession();
      StopProcesses();
    }

    /** control_queue up to the lock. It raises, and changes nothing, without a session and
        where there is no next item. */
    method ControlQueue(op: Operation, late: bool)
      requires Ready()
      modifies this
      ensures View() == Model.Step(old(View()), Model.BeginControl(op, late))
    {
      if session == null {
        return;
      }
      var plan := session.Prepare(op, late);
      if plan == None {
        return;
      }
      var claims := op.Next? || op.Previous? || (op.Play? && session.status == Failed);
      var claim: Option<nat> := None;
      if claims {
        generation := generation + 1;
        claim := Some(generation);
      }
      Enqueue(Model.Control(session.id, op, plan.value, claim));
    }

    /** start_queue and play_url once they hold the lock. */
    method AdmitPlayback(task: nat)
      requires Ready() && holder.Free? && task in waiting && !waiting[task].Control?
      requires waiting[task].StartQueue? ==> waiting[task].items != [] && NoDuplicates(waiting[task].items)
      modifies this
      ensures View() == Model.TakeTurn(old(View()), task, [])
    {
      var command := waiting[task];
      waiting := waiting - {task};
      match command
      case StartQueue(ticket, items) =>
        if generation == ticket {
          session := new PlaybackSession(nextSession, ticket, items);
          holder := Model.Warming(Model.Job(ticket, Some(nextSession)));
          nextSession := nextSession + 1;
        }
      case PlayUrl(ticket) =>
        if generation == ticket {
          holder := Model.Warming(Model.Job(ticket, None));
        }
    }

    /** control_queue once it holds the lock: give up, or carry the operation out. */
    method AdmitControl(task: nat, arrangement: seq<Item>)
      requires Ready() && Model.Enabled(View(), Model.Grant(task, arrangement)) && waiting[task].Control?
      modifies this, session
      ensures View() == Model.TakeTurn(old(View()), task, arrangement)
    {
      var command := waiting[task];
      waiting := waiting - {task};
      if session == null || session.id != command.session || session.items == [] {
        return;
      }
      if command.claim != None && command.claim.value != generation {
        return;
      }
      PerformControl(command, arrangement);
    }

    method PerformControl(command: Model.Command, arrangement: seq<Item>)
      requires Ready() && command.Control? && session != null && session.id == command.session
      modifies this, session
      ensures View() == Model.Perform(old(View()), command, arrangement)
    {
      match command.op
      case SetShuffle(on) =>
        session.ChangeShuffle(on, arrangement);
        holder := Model.Notifying;
      case SetRepeat(mode) =>
        session.repeat := mode;
        holder := Model.Notifying;
      case Pause =>
        if session.status == Playing && session.processes != None {
          session.status := Paused;
          holder := Model.Notifying;
        }
      case Play =>
        if session.status == Paused {
          if session.processes != None && active == session.processes {
            session.status := Playing;
            holder := Model.Notifying;
          }
        } else if session.status == Failed {
          ReplacePair(command);
        }
      case _ =>
        ReplacePair(command);
    }

    /** Take over the session and stop what plays. With nothing to wait for, go straight on. */
    method ReplacePair(command: Model.Command)
      requires Ready()
      requires command.Control? && session != null && session.id == command.session
      modifies this, session
      ensures View() == Model.Replace(old(View()), command)
    {
      if command.claim != None {
        session.generation := command.claim.value;
        session.processes := None;
      }
      if active == None {
        PlayPlannedItem(command);
      } else {
        StopProcesses();
        holder := Model.Halting(command);
      }
    }

    /** Navigate, then start the item under the cursor; raise if the session was dropped. */
    method PlayPlannedItem(command: Model.Command)
      requires command.Control? && (session != null ==> Valid(session.View()))
      modifies this`holder, session
      ensures View() == Model.Resume(old(View()), command)
    {
      if session == null || session.id != command.session || session.items == [] {
        holder := Model.Free;
        return;
      }
      session.Move(command.op, command.plan);
      holder := Model.Warming(Model.Job(session.generation, Some(session.id)));
    }

    /** _play_url_locked once a sink warm-up gave way: silence the speaker first. */
    method SilenceFirst()
      requires Ready() && holder.Warming?
      modifies this
      ensures View() == Model.Step(old(View()), Model.Warmed)
    {
      StopProcesses();
      holder := Model.Preparing(holder.job);
    }

    /** The decoder was spawned, or the sink or the decoder was not to be had. */
    method DecoderDone(ok: bool)
      requires Ready() && holder.Preparing?
      modifies this, session
      ensures View() == Model.Step(old(View()), Model.Prepared(ok))
    {
      if ok {
        processes := processes + [Model.Process(None, false)];
        holder := Model.Pairing(holder.job, |processes| - 1);
      } else {
        FailJob(holder.job);
      }
    }

    /** The player was spawned and the pair is installed, or the decoder is cleaned up. */
    method PlayerDone(ok: bool)
      requires Ready() && holder.Pairing?
      modifies this, session
      ensures View() == Model.Step(old(View()), Model.Paired(ok))
    {
      var job, decoder := holder.job, holder.decoder;
      if ok {
        processes := processes + [Model.Process(None, false)];
        pairs := pairs + [Model.Pair(decoder, |processes| - 1, job.generation)];
        watches := watches + [Model.Watching];
        active := Some(|pairs| - 1);
        if session != null && job.generation == session.generation {
          session.processes := active;
        }
        holder := Model.Notifying;
      } else {
        if processes[decoder].exit == None {
          processes := processes[decoder := processes[decoder].(signalled := true)];
        }
        holder := Model.Cleaning(job);
      }
    }

    method FailJob(job: Model.Job)
      modifies this`holder, session
      ensures View() == Model.Fail(old(View()), job)
    {
      if job.session == None {
        holder := Model.Free;
        return;
      }
      if session != null && session.id == job.session.value {
        session.status := Failed;
      }
      holder := Model.Notifying;
    }

    /** A watcher whose two children have exited. */
    method WatcherWakes(pair: nat)
      requires Ready() && Model.Enabled(View(), Model.WatchWake(pair))
      modifies this
      ensures View() == Model.Step(old(View()), Model.WatchWake(pair))
    {
      if active != Some(pair) {
        watches := watches[pair := Model.Done];
        return;
      }
      if pairs[pair].generation != generation {
        watches := watches[pair := Model.Done];
        return;
      }
      if session != null {
        if session.generation != pairs[pair].generation || session.processes != Some(pair) {
          watches := watches[pair := Model.Done];
        } else {
          watches := watches[pair := Model.Queued(session.id)];
        }
        return;
      }
      active := None;
      watches := watches[pair := Model.Done];
      handled := handled + [pair];
    }

    /** The watcher once it holds the lock: check again, then act. */
    method WatcherActs(pair: nat)
      requires Ready() && Model.Enabled(View(), Model.GrantWatch(pair))
      modifies this, session
      ensures View() == Model.ActOnExit(old(View()), pair)
    {
      if session == null || generation != pairs[pair].generation || session.id != watches[pair].session
         || session.generation != pairs[pair].generation || session.processes != Some(pair) || active != Some(pair)
      {
        watches := watches[pair := Model.Done];
        return;
      }
      FinishPair(pair);
    }

    method FinishPair(pair: nat)
      requires Ready() && pair < |pairs| && session != null
      modifies this, session
      ensures View() == Model.FinishPair(old(View()), pair)
    {
      var decoder, player := processes[pairs[pair].decoder].exit, processes[pairs[pair].player].exit;
      active := None;
      watches := watches[pair := Model.Done];
      handled := handled + [pair];
      session.ReleaseItem(decoder == Some(0) && player == Some(0));
      holder := if session.status == Playing then Model.Warming(Model.Job(session.generation, Some(session.id)))
                else Model.Notifying;
    }
  }

  /** Every state that the model reaches is one the methods above accept. */
  lemma InvariantIsReady(bridge: MediaPlayerBridge)
    requires Invariants.Inv(bridge.View())
    ensures bridge.Ready()
  {
    assert bridge.session != null ==> bridge.View().current.Some?;
  }
}
