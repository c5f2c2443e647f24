// Vocabulary shared by the modules of this project.
module Prelude {
  datatype Option<+T> = None | Some(value: T)

  /** True when the text begins with the given prefix. */
  predicate StartsWith(text: string, prefix: string) {
    |prefix| <= |text| && text[..|prefix|] == prefix
  }

  /** The elements that satisfy a predicate, in their original order. */
  function Filter<T(!new)>(p: T -> bool, xs: seq<T>): (kept: seq<T>)
    ensures forall x :: x in kept <==> x in xs && p(x)
    ensures |kept| <= |xs|
  {
    if xs == [] then []
    else if p(xs[0]) then [xs[0]] + Filter(p, xs[1..])
    else Filter(p, xs[1..])
  }

  lemma {:induction false} FilterAppend<T(!new)>(p: T -> bool, xs: seq<T>, x: T)
    ensures Filter(p, xs + [x]) == Filter(p, xs) + (if p(x) then [x] else [])
  {
    if xs == [] {
      assert [x][1..] == [];
    } else {
      FilterAppend(p, xs[1..], x);
      assert (xs + [x])[1..] == xs[1..] + [x];
    }
  }

  lemma {:induction false} FilterNone<T(!new)>(p: T -> bool, xs: seq<T>)
    requires forall x <- xs :: !p(x)
    ensures Filter(p, xs) == []
  {
    if xs != [] { FilterNone(p, xs[1..]); }
  }

  /** A filter keeps each of its elements as often as it occurs. */
  lemma {:induction false} FilterCount<T(!new)>(p: T -> bool, xs: seq<T>, x: T)
    ensures multiset(Filter(p, xs))[x] == if p(x) then multiset(xs)[x] else 0
  {
    if xs != [] {
      FilterCount(p, xs[1..], x);
      assert multiset(xs) == multiset{xs[0]} + multiset(xs[1..]) by { assert xs == [xs[0]] + xs[1..]; }
    }
  }

  /** Taking out one element: the filter loses it when it was the first to satisfy the predicate,
      and nothing when it does not satisfy it. */
  lemma {:induction false} FilterWithout<T(!new)>(p: T -> bool, xs: seq<T>, i: nat)
    requires i < |xs| && (p(xs[i]) ==> forall j :: 0 <= j < i ==> !p(xs[j]))
    ensures Filter(p, xs) == (if p(xs[i]) then [xs[i]] else []) + Filter(p, xs[..i] + xs[i + 1..])
  {
    if i == 0 {
      assert xs[..0] + xs[1..] == xs[1..];
    } else {
      var rest := xs[1..];
      FilterWithout(p, rest, i - 1);
      var shorter := rest[..i - 1] + rest[i..];
      assert xs[..i] + xs[i + 1..] == [xs[0]] + shorter;
      assert ([xs[0]] + shorter)[1..] == shorter;
    }
  }
}
