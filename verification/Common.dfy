/** Sequence and option vocabulary shared by the models. */
module Common {

  datatype Option<+T> = None | Some(value: T)

  predicate NoDuplicates<T(==)>(xs: seq<T>) {
    forall i, j :: 0 <= i < j < |xs| ==> xs[i] != xs[j]
  }

  /** The position of the first occurrence of x, if there is one. */
  function IndexOf<T(==)>(xs: seq<T>, x: T): (r: Option<nat>)
    ensures r.None? <==> x !in xs
    ensures r.Some? ==> r.value < |xs| && xs[r.value] == x && x !in xs[..r.value]
  {
    if xs == [] then None
    else if xs[0] == x then Some(0)
    else
      assert xs == [xs[0]] + xs[1..];
      match IndexOf(xs[1..], x)
      case None => None
      case Some(i) =>
        assert xs[..i + 1] == [xs[0]] + xs[1..][..i];
        Some(i + 1)
  }

  lemma {:induction false} IndexIsFirst<T(!new)>(xs: seq<T>, x: T, i: nat)
    requires i < |xs| && xs[i] == x && x !in xs[..i]
    ensures IndexOf(xs, x) == Some(i)
  {
    var found := IndexOf(xs, x).value;
    if found < i {
      PrefixHas(xs, i, found);
    } else if i < found {
      PrefixHas(xs, found, i);
    }
  }

  /** The elements of xs that belong to keep, in the order xs lists them. */
  function Keep<T(==,!new)>(xs: seq<T>, keep: set<T>): (r: seq<T>)
    ensures forall x :: x in r <==> x in xs && x in keep
  {
    if xs == [] then []
    else
      assert xs == [xs[0]] + xs[1..];
      if xs[0] in keep then [xs[0]] + Keep(xs[1..], keep) else Keep(xs[1..], keep)
  }

  function Elements<T(==,!new)>(xs: seq<T>): (r: set<T>)
    ensures forall x :: x in r <==> x in xs
  {
    set x | x in xs
  }

  lemma PrefixHas<T(!new)>(xs: seq<T>, k: nat, i: nat)
    requires i < k <= |xs|
    ensures xs[i] in xs[..k]
  {
    assert xs[..k][i] == xs[i];
  }

  lemma {:induction false} KeepHasNoDuplicates<T(!new)>(xs: seq<T>, keep: set<T>)
    requires NoDuplicates(xs)
    ensures NoDuplicates(Keep(xs, keep))
  {
    if xs != [] {
      KeepHasNoDuplicates(xs[1..], keep);
      assert xs[0] !in xs[1..];
    }
  }

  lemma {:induction false} CountsOfDistinct<T(!new)>(xs: seq<T>)
    requires NoDuplicates(xs)
    ensures forall x :: multiset(xs)[x] == if x in xs then 1 else 0
  {
    if xs != [] {
      assert xs == [xs[0]] + xs[1..];
      CountsOfDistinct(xs[1..]);
      assert xs[0] !in xs[1..];
    }
  }

  lemma SameElementsSameMultiset<T(!new)>(xs: seq<T>, ys: seq<T>)
    requires NoDuplicates(xs) && NoDuplicates(ys)
    requires forall x :: x in xs <==> x in ys
    ensures multiset(xs) == multiset(ys)
  {
    CountsOfDistinct(xs);
    CountsOfDistinct(ys);
  }

  lemma RepeatsCount<T(!new)>(xs: seq<T>, i: nat, j: nat)
    requires i < j < |xs|
    ensures xs[i] == xs[j] ==> multiset(xs)[xs[j]] >= 2
  {
    PrefixHas(xs, j, i);
    assert xs == xs[..j] + [xs[j]] + xs[j + 1..];
    assert multiset(xs) == multiset(xs[..j]) + multiset{xs[j]} + multiset(xs[j + 1..]);
    assert xs[i] in multiset(xs[..j]);
  }

  lemma PermutationKeepsDistinct<T(!new)>(xs: seq<T>, ys: seq<T>)
    requires NoDuplicates(xs) && multiset(xs) == multiset(ys)
    ensures NoDuplicates(ys)
  {
    CountsOfDistinct(xs);
    forall i, j | 0 <= i < j < |ys| ensures ys[i] != ys[j] {
      RepeatsCount(ys, i, j);
    }
  }

  lemma PermutationKeepsElements<T(!new)>(xs: seq<T>, ys: seq<T>)
    requires multiset(xs) == multiset(ys)
    ensures |xs| == |ys|
    ensures forall x :: x in xs <==> x in ys
  {
    assert |multiset(xs)| == |xs| && |multiset(ys)| == |ys|;
    forall x ensures x in xs <==> x in ys {
      assert x in xs <==> x in multiset(xs);
      assert x in ys <==> x in multiset(ys);
    }
  }
}
