/** Laws of the playback queue: history, shuffle and repeat. */
module QueueLaws {
  import opened Common
  import opened PlaybackQueue

  lemma ValidItemsAreDistinct(q: Queue)
    requires Valid(q)
    ensures NoDuplicates(q.items) && |q.items| == |q.original|
    ensures forall x :: x in q.items <==> x in q.original
  {
    PermutationKeepsDistinct(q.original, q.items);
    PermutationKeepsElements(q.original, q.items);
  }

  // ---- History -------------------------------------------------------------------

  /** A previous that does not restart the item lands on the item before it: the search
      by identity succeeds and the fallback for an empty history is never taken. */
  lemma PreviousStepsBack(q: Queue)
    requires Valid(q) && Suffix(q) && q.index > 0
    ensures q.history != []
    ensures IndexOf(q.items, q.history[|q.history| - 1]) == Some(q.index - 1)
    ensures PlanMove(q, Previous, false) == Some(Plan(q.index - 1, false))
  {
    ValidItemsAreDistinct(q);
    var past := q.history[|q.history| - q.index..];
    assert past[q.index - 1] == q.history[|q.history| - 1] == q.items[q.index - 1];
    assert q.items[q.index - 1] !in q.items[..q.index - 1];
    IndexIsFirst(q.items, q.items[q.index - 1], q.index - 1);
  }

  /** What a plan must say about the queue it is carried out on. */
  ghost predicate PlanFits(q: Queue, op: Operation, plan: Plan) {
    match op
    case Next => plan.target == (if q.index + 1 < |q.items| then q.index + 1 else 0)
    case Previous => if plan.restart then plan.target == q.index
                     else q.index > 0 && plan.target == q.index - 1
    case _ => true
  }

  lemma PlanFitsItsQueue(q: Queue, op: Operation, late: bool)
    requires Valid(q) && Suffix(q) && PlanMove(q, op, late).Some?
    ensures PlanFits(q, op, PlanMove(q, op, late).value)
  {
    if op.Previous? && q.index > 0 {
      PreviousStepsBack(q);
    }
  }

  lemma PlanStaysInBounds(q: Queue, op: Operation, late: bool)
    requires Valid(q) && PlanMove(q, op, late).Some?
    ensures PlanMove(q, op, late).value.target < |q.items|
  {
  }

  lemma SuffixGrows(q: Queue)
    requires Valid(q) && Suffix(q)
    ensures var history := q.history + [q.items[q.index]];
            history[|history| - (q.index + 1)..] == q.items[..q.index + 1]
  {
    var history := q.history + [q.items[q.index]];
    assert history[|history| - (q.index + 1)..] == q.history[|q.history| - q.index..] + [q.items[q.index]];
  }

  lemma NavigateKeepsSuffix(q: Queue, op: Operation, plan: Plan)
    requires Valid(q) && Suffix(q) && PlanFits(q, op, plan)
    ensures Suffix(Navigate(q, op, plan))
  {
    if op.Next? {
      SuffixGrows(q);
    } else if op.Previous? && !plan.restart {
      var shorter := q.history[..|q.history| - 1];
      var past := q.history[|q.history| - q.index..];
      assert shorter[|shorter| - (q.index - 1)..] == past[..q.index - 1];
    }
  }

  /** The plan still means, on the queue it is carried out on, what it meant when it was made:
      one item on, one back, the same item again, or back to the first. */
  predicate MoveFits(q: Queue, op: Operation, plan: Plan) {
    match op
    case Next => plan.target == 0 || plan.target == q.index + 1
    case Previous => plan.target == 0 || plan.target == (if plan.restart then q.index else q.index - 1)
    case _ => true
  }

  lemma FittingMoveKeepsSuffix(q: Queue, op: Operation, plan: Plan)
    requires Valid(q) && Suffix(q) && plan.target < |q.items| && MoveFits(q, op, plan)
    ensures Suffix(Navigate(q, op, plan))
  {
    if (op.Next? || op.Previous?) && plan.target != 0 {
      NavigateKeepsSuffix(q, op, plan);
    }
  }

  /** Where the history of the items before the cursor pins the move down: always for a next,
      from index 2 on for a previous and from index 1 on for a restart. Below that the history
      may have older entries, of earlier rounds, that happen to be right. */
  predicate HistoryTells(q: Queue, op: Operation, plan: Plan) {
    op.Next? || (op.Previous? && q.index >= if plan.restart then 1 else 2)
  }

  lemma LastOfSuffix(q: Queue, history: seq<Item>, target: nat, last: nat)
    requires NoDuplicates(q.items) && 0 < target <= |q.items| && target <= |history| && last < |q.items|
    requires history[|history| - 1] == q.items[last] && history[|history| - target..] == q.items[..target]
    ensures target == last + 1
  {
    assert history[|history| - target..][target - 1] == q.items[last];
    assert q.items[..target][target - 1] == q.items[target - 1];
  }

  /** There a move keeps the suffix if and only if its plan still fits. */
  lemma MoveKeepsSuffixIff(q: Queue, op: Operation, plan: Plan)
    requires Valid(q) && Suffix(q) && plan.target < |q.items| && HistoryTells(q, op, plan)
    ensures Suffix(Navigate(q, op, plan)) <==> MoveFits(q, op, plan)
  {
    if Suffix(Navigate(q, op, plan)) && plan.target > 0 {
      PinnedMoveFits(q, op, plan);
    }
    if MoveFits(q, op, plan) {
      FittingMoveKeepsSuffix(q, op, plan);
    }
  }

  lemma PinnedMoveFits(q: Queue, op: Operation, plan: Plan)
    requires Valid(q) && Suffix(q) && 0 < plan.target < |q.items| && HistoryTells(q, op, plan)
    requires Suffix(Navigate(q, op, plan))
    ensures MoveFits(q, op, plan)
  {
    ValidItemsAreDistinct(q);
    var r, past := Navigate(q, op, plan), q.history[|q.history| - q.index..];
    if op.Next? {
      LastOfSuffix(q, r.history, plan.target, q.index);
    } else {
      var last := q.index - if plan.restart then 1 else 2;
      assert past[last] == q.items[..q.index][last];
      LastOfSuffix(q, r.history, plan.target, last);
    }
  }

  /** Two overlapping previous commands that both planned the same step back break the suffix,
      from index 3 on in any case and at index 2 when nothing was played before. The second
      finds the cursor where it planned to go and removes one entry too many. */
  lemma PreviousTwiceBreaksHistory(q: Queue)
    requires Valid(q) && Suffix(q) && (q.index >= 3 || (q.index == 2 && |q.history| == 2))
    ensures PlanMove(q, Previous, false) == Some(Plan(q.index - 1, false))
    ensures var plan := Plan(q.index - 1, false);
            var r := Navigate(Navigate(q, Previous, plan), Previous, plan);
            && r.index == q.index - 1 && !Suffix(r)
            && (q.index == 2 ==> r.history == [] && PlanMove(r, Previous, false) == Some(Plan(0, false)))
  {
    PreviousStepsBack(q);
    var plan := Plan(q.index - 1, false);
    var once := Navigate(q, Previous, plan);
    FittingMoveKeepsSuffix(q, Previous, plan);
    NavigateKeepsValid(q, Previous, plan);
    if q.index >= 3 {
      MoveKeepsSuffixIff(once, Previous, plan);
    }
  }

  lemma NavigateKeepsValid(q: Queue, op: Operation, plan: Plan)
    requires Valid(q) && plan.target < |q.items|
    ensures Valid(Navigate(q, op, plan))
  {
  }

  lemma ExitKeepsValid(q: Queue, success: bool)
    requires Valid(q)
    ensures Valid(AfterExit(q, success))
  {
    var r := AfterExit(q, success);
    assert r.items == q.items && r.original == q.original;
    assert r.history == q.history || r.history == q.history + [q.items[q.index]];
  }

  lemma ExitKeepsSuffix(q: Queue, success: bool)
    requires Valid(q) && Suffix(q)
    ensures Suffix(AfterExit(q, success))
  {
    SuffixGrows(q);
  }

  // ---- Shuffle -------------------------------------------------------------------

  ghost predicate Arranges(q: Queue, tail: seq<Item>) {
    q.index < |q.items| && multiset(tail) == multiset(q.items[q.index + 1..])
  }

  lemma TailIsTheRest(q: Queue)
    requires Valid(q)
    ensures var rest := q.items[q.index + 1..];
            forall x :: x in rest <==> x in q.original && x !in q.items[..q.index + 1]
  {
    ValidItemsAreDistinct(q);
    var rest := q.items[q.index + 1..];
    var done := q.items[..q.index + 1];
    assert q.items == done + rest;
    forall i, j | 0 <= i < |done| && 0 <= j < |rest| ensures done[i] != rest[j] {
      assert done[i] == q.items[i] && rest[j] == q.items[q.index + 1 + j];
    }
  }

  /** The tail that switching shuffle off leaves: a rearrangement of the old tail. */
  lemma SortedTailIsArrangement(q: Queue)
    requires Valid(q)
    ensures Arranges(q, Keep(q.original, Elements(q.items[q.index + 1..])))
  {
    ValidItemsAreDistinct(q);
    TailIsTheRest(q);
    var rest := q.items[q.index + 1..];
    KeepHasNoDuplicates(q.original, Elements(rest));
    SameElementsSameMultiset(Keep(q.original, Elements(rest)), rest);
  }

  lemma NewTailPermutes(xs: seq<Item>, k: nat, rest: seq<Item>)
    requires 0 < k <= |xs| && multiset(rest) == multiset(xs[k..])
    ensures var ys := xs[..k] + rest;
            && multiset(ys) == multiset(xs)
            && ys[..k] == xs[..k]
            && ys[..k - 1] == xs[..k - 1]
  {
    var ys := xs[..k] + rest;
    assert xs == xs[..k] + xs[k..];
    assert ys[..k] == xs[..k];
    assert ys[..k - 1] == xs[..k][..k - 1] == xs[..k - 1];
  }

  lemma NewTailLaw(q: Queue, rest: seq<Item>)
    requires Valid(q) && Arranges(q, rest)
    ensures var items := q.items[..q.index + 1] + rest;
            && multiset(items) == multiset(q.original) && |items| == |q.items|
            && items[..q.index + 1] == q.items[..q.index + 1] && items[..q.index] == q.items[..q.index]
  {
    NewTailPermutes(q.items, q.index + 1, rest);
    PermutationKeepsElements(q.items, q.items[..q.index + 1] + rest);
  }

  /** A toggle in either direction permutes the items and leaves everything up to and
      including the cursor where it was. */
  lemma ToggleLaw(q: Queue, on: bool, tail: seq<Item>)
    requires Valid(q) && Arranges(q, tail)
    ensures var r := Toggle(q, on, tail);
            && multiset(r.items) == multiset(q.original)
            && |r.items| == |q.items|
            && r.items[..q.index + 1] == q.items[..q.index + 1]
            && r.items[..q.index] == q.items[..q.index]
            && r == q.(items := r.items, shuffle := on)
  {
    if on != q.shuffle {
      SortedTailIsArrangement(q);
      NewTailLaw(q, if on then tail else Keep(q.original, Elements(q.items[q.index + 1..])));
    }
  }

  lemma ToggleKeepsValid(q: Queue, on: bool, tail: seq<Item>)
    requires Valid(q) && Arranges(q, tail)
    ensures Valid(Toggle(q, on, tail))
    ensures Suffix(q) ==> Suffix(Toggle(q, on, tail))
  {
    ToggleLaw(q, on, tail);
    PermutationKeepsElements(q.items, Toggle(q, on, tail).items);
  }

  /** Switching shuffle off lists what remains in the order the queue was given in: the
      original list with everything up to the cursor taken out. */
  lemma ShuffleOffRestoresOrder(q: Queue, tail: seq<Item>)
    requires Valid(q) && q.shuffle
    ensures Toggle(q, false, tail).items[q.index + 1..]
         == Keep(q.original, Elements(q.original) - Elements(q.items[..q.index + 1]))
  {
    TailIsTheRest(q);
    assert Elements(q.items[q.index + 1..]) == Elements(q.original) - Elements(q.items[..q.index + 1]);
    var rest := Keep(q.original, Elements(q.items[q.index + 1..]));
    assert (q.items[..q.index + 1] + rest)[q.index + 1..] == rest;
  }

  ghost predicate TailInOriginalOrder(q: Queue)
    requires q.index < |q.items|
  {
    q.items[q.index + 1..] == Keep(q.original, Elements(q.items[q.index + 1..]))
  }

  /** On and then off at one cursor position gives the list back exactly when its tail
      was in original order to begin with. */
  lemma ShuffleOnThenOff(q: Queue, tail: seq<Item>, ignored: seq<Item>)
    requires Valid(q) && !q.shuffle && Arranges(q, tail)
    ensures var shuffled := Toggle(q, true, tail);
            Toggle(shuffled, false, ignored).items == q.items <==> TailInOriginalOrder(q)
  {
    var shuffled := Toggle(q, true, tail);
    ToggleLaw(q, true, tail);
    assert shuffled.items[q.index + 1..] == tail;
    PermutationKeepsElements(tail, q.items[q.index + 1..]);
    assert Elements(tail) == Elements(q.items[q.index + 1..]);
    var back := Toggle(shuffled, false, ignored);
    var rest := Keep(q.original, Elements(q.items[q.index + 1..]));
    assert back.items == q.items[..q.index + 1] + rest;
    assert back.items[q.index + 1..] == rest;
    assert q.items == q.items[..q.index + 1] + q.items[q.index + 1..];
  }

  // ---- Repeat --------------------------------------------------------------------

  /** The queue after n successful exits in a row. */
  function Successes(q: Queue, n: nat): (r: Queue)
    requires q.index < |q.items|
    ensures r.items == q.items && r.index < |r.items| && r.repeat == q.repeat
  {
    if n == 0 then q else AfterExit(Successes(q, n - 1), true)
  }

  /** The items whose playback those n exits completed, in order. */
  function Played(q: Queue, n: nat): (r: seq<Item>)
    requires q.index < |q.items|
    ensures |r| == n
  {
    if n == 0 then []
    else
      var before := Successes(q, n - 1);
      Played(q, n - 1) + [before.items[before.index]]
  }

  lemma {:induction false} RepeatAllPosition(q: Queue, n: nat)
    requires q.index < |q.items| && q.repeat.All? && n <= |q.items|
    ensures Successes(q, n).index == (if q.index + n < |q.items| then q.index + n else q.index + n - |q.items|)
    ensures n > 0 ==> Successes(q, n).status.Playing?
  {
    if n > 0 {
      RepeatAllPosition(q, n - 1);
    }
  }

  lemma {:induction false} RepeatAllPlays(q: Queue, n: nat)
    requires q.index < |q.items| && q.repeat.All? && n <= |q.items|
    ensures Played(q, n) == (q.items[q.index..] + q.items[..q.index])[..n]
  {
    if n > 0 {
      RepeatAllPlays(q, n - 1);
      RepeatAllPosition(q, n - 1);
      RotationAt(q.items, q.index, n - 1);
    }
  }

  lemma RotationPermutes(xs: seq<Item>, k: nat)
    requires k <= |xs|
    ensures multiset(xs[k..] + xs[..k]) == multiset(xs)
  {
    assert xs == xs[..k] + xs[k..];
  }

  lemma WholeRotation(xs: seq<Item>, k: nat)
    requires k <= |xs|
    ensures (xs[k..] + xs[..k])[..|xs|] == xs[k..] + xs[..k]
  {
  }

  lemma RotationAt(xs: seq<Item>, k: nat, n: nat)
    requires k < |xs| && n < |xs|
    ensures var cycle := xs[k..] + xs[..k];
            && cycle[n] == xs[if k + n < |xs| then k + n else k + n - |xs|]
            && cycle[..n + 1] == cycle[..n] + [cycle[n]]
  {
  }

  /** With repeat "all", as many completions as there are items play each item exactly
      once, from the cursor round to the cursor. */
  lemma RepeatAllCycle(q: Queue)
    requires q.index < |q.items| && q.repeat.All?
    ensures Successes(q, |q.items|).index == q.index
    ensures Played(q, |q.items|) == q.items[q.index..] + q.items[..q.index]
    ensures multiset(Played(q, |q.items|)) == multiset(q.items)
  {
    RepeatAllPosition(q, |q.items|);
    RepeatAllPlays(q, |q.items|);
    WholeRotation(q.items, q.index);
    RotationPermutes(q.items, q.index);
  }

  /** With repeat "off" from index i of n, the queue completes at the success number
      n - i and at no earlier one. */
  lemma {:induction false} RepeatOffCompletes(q: Queue, n: nat)
    requires q.index < |q.items| && q.repeat.Off? && (q.status.Playing? || q.status.Paused?)
    requires n <= |q.items| - q.index
    ensures Successes(q, n).status == (if n == |q.items| - q.index then Completed else if n == 0 then q.status else Playing)
    ensures Successes(q, n).index == (if n == |q.items| - q.index then |q.items| - 1 else q.index + n)
  {
    if n > 0 {
      RepeatOffCompletes(q, n - 1);
    }
  }

  lemma SliceGrows(xs: seq<Item>, i: nat, j: nat)
    requires i <= j < |xs|
    ensures xs[i..j + 1] == xs[i..j] + [xs[j]]
  {
  }

  /** Until then every item from the cursor on is played once, in order. */
  lemma {:induction false} RepeatOffPlays(q: Queue, n: nat)
    requires q.index < |q.items| && q.repeat.Off? && (q.status.Playing? || q.status.Paused?)
    requires n <= |q.items| - q.index
    ensures Played(q, n) == q.items[q.index..q.index + n]
  {
    if n > 0 {
      RepeatOffPlays(q, n - 1);
      RepeatOffCompletes(q, n - 1);
      SliceGrows(q.items, q.index, q.index + n - 1);
    }
  }

  lemma {:induction false} RepeatOneStays(q: Queue, n: nat)
    requires q.index < |q.items| && q.repeat.One?
    ensures Successes(q, n).index == q.index
    ensures Successes(q, n).history == q.history
    ensures forall k :: 0 <= k < n ==> Played(q, n)[k] == q.items[q.index]
  {
    if n > 0 {
      RepeatOneStays(q, n - 1);
    }
  }
}
