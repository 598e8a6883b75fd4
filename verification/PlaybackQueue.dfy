/**
 One speaker's playback queue: the items, the cursor, the shuffle and repeat modes and the
 list of items left behind. An item is known by its identity, as the bridge compares items
 with `is` and never by value.

 The functions are the specification; PlaybackSession is the mutable object that the
 bridge keeps, and each of its methods is proved to compute the matching function.
 */
module PlaybackQueue {
  import opened Common

  type Item = nat

  datatype Repeat = Off | One | All

  datatype Status = Playing | Paused | Failed | Completed

  datatype Operation =
    | Play
    | Pause
    | Next
    | Previous
    | SetShuffle(on: bool)
    | SetRepeat(mode: Repeat)

  /** What a control call decides before it waits for the speaker's lock. */
  datatype Plan = Plan(target: nat, restart: bool)

  datatype Queue = Queue(
    items: seq<Item>,
    original: seq<Item>,
    index: nat,
    shuffle: bool,
    repeat: Repeat,
    status: Status,
    history: seq<Item>)

  /** What every live queue satisfies, however its commands interleave. */
  ghost predicate Valid(q: Queue) {
    && q.index < |q.items|
    && NoDuplicates(q.original)
    && multiset(q.items) == multiset(q.original)
    && (forall x :: x in q.history ==> x in q.items)
  }

  /** The last index entries of the history are the items before the cursor, in order. */
  ghost predicate Suffix(q: Queue) {
    && q.index <= |q.items|
    && q.index <= |q.history|
    && q.history[|q.history| - q.index..] == q.items[..q.index]
  }

  function NewQueue(items: seq<Item>): Queue {
    Queue(items, items, 0, false, Off, Playing, [])
  }

  /** The move a control call plans, or None where the call raises instead. `late` says
      that the current item has played for more than three seconds. */
  function PlanMove(q: Queue, op: Operation, late: bool): (r: Option<Plan>)
    requires q.index < |q.items|
  {
    var restart := op.Previous? && (q.index == 0 || late);
    if op.Next? then
      if q.index + 1 < |q.items| then Some(Plan(q.index + 1, restart))
      else if q.repeat.All? then Some(Plan(0, restart))
      else None
    else if op.Previous? && !restart then
      if q.history != [] then
        match IndexOf(q.items, q.history[|q.history| - 1])
        case Some(i) => Some(Plan(i, restart))
        case None => None
      else Some(Plan(q.index - 1, restart))
    else Some(Plan(q.index, restart))
  }

  /** Carry a planned move out on the queue as it now is. */
  function Navigate(q: Queue, op: Operation, plan: Plan): Queue
    requires q.index < |q.items|
  {
    var history :=
      if op.Next? then q.history + [q.items[q.index]]
      else if op.Previous? && !plan.restart && q.history != [] then q.history[..|q.history| - 1]
      else q.history;
    var index := if op.Next? || op.Previous? then plan.target else q.index;
    q.(history := history, index := index, status := Playing)
  }

  /** Switch shuffle. `tail` is the random arrangement drawn when it is switched on. */
  function Toggle(q: Queue, on: bool, tail: seq<Item>): Queue
    requires q.index < |q.items|
  {
    if on == q.shuffle then q
    else
      var rest := if on then tail else Keep(q.original, Elements(q.items[q.index + 1..]));
      q.(shuffle := on, items := q.items[..q.index + 1] + rest)
  }

  /** The queue after both children of the current item have exited. */
  function AfterExit(q: Queue, success: bool): Queue
    requires q.index < |q.items|
  {
    if !success then q.(status := Failed)
    else if q.repeat.One? then q.(status := Playing)
    else if q.index + 1 < |q.items| then
      q.(history := q.history + [q.items[q.index]], index := q.index + 1, status := Playing)
    else if q.repeat.All? then
      q.(history := q.history + [q.items[q.index]], index := 0, status := Playing)
    else q.(status := Completed)
  }

  /** The bridge's session object. `id` stands for the object's identity, which commands
      that wait for the lock compare; `processes` names the pair that plays for it. */
  class PlaybackSession {
    const id: nat
    var generation: nat
    var processes: Option<nat>
    var items: seq<Item>
    var originalItems: seq<Item>
    var index: nat
    var shuffle: bool
    var repeat: Repeat
    var status: Status
    var history: seq<Item>

    ghost function View(): Queue
      reads this
    {
      Queue(items, originalItems, index, shuffle, repeat, status, history)
    }

    constructor (id: nat, generation: nat, validated: seq<Item>)
      requires validated != [] && NoDuplicates(validated)
      ensures View() == NewQueue(validated)
      ensures Valid(View()) && Suffix(View())
      ensures this.id == id && this.generation == generation && processes == None
    {
      this.id := id;
      this.generation := generation;
      processes := None;
      items := validated;
      originalItems := validated;
      index := 0;
      shuffle := false;
      repeat := Off;
      status := Playing;
      history := [];
    }

    /** Search the queue for one item by identity. */
    method Locate(item: Item) returns (position: Option<nat>)
      ensures position == IndexOf(items, item)
    {
      var i := 0;
      while i < |items|
        invariant i <= |items|
        invariant item !in items[..i]
      {
        if items[i] == item {
          IndexIsFirst(items, item, i);
          return Some(i);
        }
        assert items[..i + 1] == items[..i] + [items[i]];
        i := i + 1;
      }
      assert items[..i] == items;
      return None;
    }

    /** The part of a control call that runs before it waits for the lock. */
    method Prepare(op: Operation, late: bool) returns (plan: Option<Plan>)
      requires Valid(View())
      ensures plan == PlanMove(View(), op, late)
    {
      var restart := op.Previous? && (index == 0 || late);
      var target := index;
      if op.Next? {
        if index + 1 < |items| {
          target := target + 1;
        } else if repeat.All? {
          target := 0;
        } else {
          return None;
        }
      } else if op.Previous? && !restart {
        if history != [] {
          var found := Locate(history[|history| - 1]);
          if found.None? {
            return None;
          }
          target := found.value;
        } else {
          target := if index >= 1 then index - 1 else 0;
        }
      }
      return Some(Plan(target, restart));
    }

    /** The part of next, previous and retry that runs after the old pair was stopped. */
    method Move(op: Operation, plan: Plan)
      requires Valid(View())
      modifies this`items, this`index, this`shuffle, this`status, this`history
      ensures View() == Navigate(old(View()), op, plan)
    {
      if op.Next? {
        history := history + [items[index]];
      } else if op.Previous? && !plan.restart && history != [] {
        history := history[..|history| - 1];
      }
      if op.Next? || op.Previous? {
        index := plan.target;
      }
      status := Playing;
    }

    method ChangeShuffle(on: bool, arrangement: seq<Item>)
      requires Valid(View())
      modifies this`items, this`index, this`shuffle, this`status, this`history
      ensures View() == Toggle(old(View()), on, arrangement)
    {
      if on != shuffle {
        shuffle := on;
        var tail := items[index + 1..];
        if shuffle {
          tail := arrangement;
        } else {
          tail := Keep(originalItems, Elements(tail));
        }
        items := items[..index + 1] + tail;
      }
    }

    method FinishItem(success: bool)
      requires Valid(View())
      modifies this`items, this`index, this`shuffle, this`status, this`history
      ensures View() == AfterExit(old(View()), success)
    {
      if !success {
        status := Failed;
        return;
      }
      if repeat == One {
      } else if index + 1 < |items| {
        history := history + [items[index]];
        index := index + 1;
      } else if repeat == All {
        history := history + [items[index]];
        index := 0;
      } else {
        status := Completed;
        return;
      }
      status := Playing;
    }

    /** The item's pair is gone: the session lets go of it and moves on. */
    method ReleaseItem(success: bool)
      requires Valid(View())
      modifies this`processes, this`items, this`index, this`shuffle, this`status, this`history
      ensures View() == AfterExit(old(View()), success) && processes == None
    {
      processes := None;
      FinishItem(success);
    }
  }
}
