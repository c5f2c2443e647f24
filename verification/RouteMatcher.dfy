// The comparison that decides whether a local navigation ended on the expected page.
module RouteMatcher {
  type Pair = (string, string)

  datatype Url = Url(origin: string, path: string, params: seq<Pair>)

  /** Same page, and at least the expected query pairs, each as often as expected. */
  predicate Matches(actual: Url, expected: Url) {
    && actual.origin == expected.origin
    && actual.path == expected.path
    && multiset(expected.params) <= multiset(actual.params)
  }

  // ---- An index of pairs: for each key, its values in order ----

  function ValuesOf<K, V>(index: map<K, seq<V>>, key: K): seq<V> {
    if key in index then index[key] else []
  }

  // The index holds exactly the pairs of a multiset, grouped by key.
  ghost predicate Holds<K(!new), V(!new)>(index: map<K, seq<V>>, pairs: multiset<(K, V)>) {
    forall key, value :: multiset(ValuesOf(index, key))[value] == pairs[(key, value)]
  }

  lemma PushedCount<V(!new)>(values: seq<V>, value: V, v: V)
    ensures multiset(values + [value])[v] == multiset(values)[v] + multiset{value}[v]
  {
  }

  lemma PushAdds<K(!new), V(!new)>(index: map<K, seq<V>>, pairs: multiset<(K, V)>, key: K, value: V)
    requires Holds(index, pairs)
    ensures Holds(index[key := ValuesOf(index, key) + [value]], pairs + multiset{(key, value)})
  {
    var values := ValuesOf(index, key);
    var after := index[key := values + [value]];
    forall k, v
      ensures multiset(ValuesOf(after, k))[v] == (pairs + multiset{(key, value)})[(k, v)]
    {
      assert multiset(ValuesOf(index, k))[v] == pairs[(k, v)];
      if k == key {
        PushedCount(values, value, v);
      }
    }
  }

  function Spliced<V>(values: seq<V>, at: nat): seq<V>
    requires at < |values|
  {
    values[..at] + values[at + 1..]
  }

  lemma SpliceRemoves<K(!new), V(!new)>(index: map<K, seq<V>>, pairs: multiset<(K, V)>, key: K, at: nat)
    requires Holds(index, pairs) && key in index && at < |index[key]|
    ensures (key, index[key][at]) in pairs
    ensures Holds(index[key := Spliced(index[key], at)], pairs - multiset{(key, index[key][at])})
  {
    var values, value := index[key], index[key][at];
    var after := index[key := Spliced(values, at)];
    assert multiset(ValuesOf(index, key))[value] == pairs[(key, value)];
    assert value in multiset(values) by { assert value in values; }
    forall k, v
      ensures multiset(ValuesOf(after, k))[v] == (pairs - multiset{(key, value)})[(k, v)]
    {
      assert multiset(ValuesOf(index, k))[v] == pairs[(k, v)];
      if k == key {
        assert values == values[..at] + [value] + values[at + 1..];
        assert multiset(values) == multiset(Spliced(values, at)) + multiset{value};
      }
    }
  }

  lemma NothingIndexed<K(!new), V(!new)>()
    ensures Holds<K, V>(map[], multiset{})
  {
  }

  lemma HeldPair<K(!new), V(!new)>(index: map<K, seq<V>>, pairs: multiset<(K, V)>, key: K, value: V)
    requires Holds(index, pairs)
    ensures value in ValuesOf(index, key) <==> (key, value) in pairs
  {
    assert multiset(ValuesOf(index, key))[value] == pairs[(key, value)];
  }

  // ---- The matcher ----

  /** The first position of a value, or -1. */
  method IndexOf(values: seq<string>, value: string) returns (index: int)
    ensures -1 <= index < |values|
    ensures index == -1 <==> value !in values
    ensures index >= 0 ==> values[index] == value && value !in values[..index]
  {
    index := 0;
    while index < |values|
      invariant 0 <= index <= |values| && value !in values[..index]
    {
      if values[index] == value { return; }
      index := index + 1;
    }
    index := -1;
  }

  method MatchesExpectedRoute(actual: Url, expected: Url) returns (matches: bool)
    ensures matches <==> Matches(actual, expected)
  {
    if actual.origin != expected.origin || actual.path != expected.path { return false; }
    hide Holds, Spliced;
    var remaining: map<string, seq<string>> := map[];
    NothingIndexed<string, string>();
    for i := 0 to |actual.params|
      invariant Holds(remaining, multiset(actual.params[..i]))
    {
      var (key, value) := actual.params[i];
      PushAdds(remaining, multiset(actual.params[..i]), key, value);
      assert actual.params[..i + 1] == actual.params[..i] + [actual.params[i]];
      var values := if key in remaining then remaining[key] else [];
      remaining := remaining[key := values + [value]];
    }
    assert actual.params[..|actual.params|] == actual.params;
    matches := TakeAll(remaining, actual.params, expected.params);
  }

  // Takes each expected pair out of the index, until one is missing.
  method TakeAll(index: map<string, seq<string>>, ghost actual: seq<Pair>, expected: seq<Pair>) returns (all: bool)
    requires Holds(index, multiset(actual))
    ensures all <==> multiset(expected) <= multiset(actual)
  {
    hide Holds;
    var remaining := index;
    assert multiset(actual) - multiset(expected[..0]) == multiset(actual);
    for i := 0 to |expected|
      invariant multiset(expected[..i]) <= multiset(actual)
      invariant Holds(remaining, multiset(actual) - multiset(expected[..i]))
    {
      var (key, value) := expected[i];
      ghost var left := multiset(actual) - multiset(expected[..i]);
      HeldPair(remaining, left, key, value);
      var values := if key in remaining then remaining[key] else [];
      var index := IndexOf(values, value);
      if index < 0 {
        MissingPair(actual, expected, i);
        return false;
      }
      SpliceRemoves(remaining, left, key, index);
      TakenPair(actual, expected, i);
      remaining := remaining[key := values[..index] + values[index + 1..]];
    }
    assert expected[..|expected|] == expected;
    return true;
  }

  lemma TakenPair<P>(actual: seq<P>, expected: seq<P>, i: nat)
    requires i < |expected| && multiset(expected[..i]) <= multiset(actual)
    requires expected[i] in multiset(actual) - multiset(expected[..i])
    ensures multiset(expected[..i + 1]) <= multiset(actual)
    ensures multiset(actual) - multiset(expected[..i]) - multiset{expected[i]} == multiset(actual) - multiset(expected[..i + 1])
  {
    assert expected[..i + 1] == expected[..i] + [expected[i]];
  }

  lemma MissingPair<P>(actual: seq<P>, expected: seq<P>, i: nat)
    requires i < |expected|
    requires expected[i] !in multiset(actual) - multiset(expected[..i])
    ensures !(multiset(expected) <= multiset(actual))
  {
    var pair := expected[i];
    assert expected == expected[..i] + [pair] + expected[i + 1..];
    assert multiset(expected)[pair] >= multiset(expected[..i])[pair] + 1;
  }

  /** The verdict does not depend on the order of either query. */
  lemma OrderIsIgnored(actual: Url, shuffled: seq<Pair>, expected: Url, shuffledExpected: seq<Pair>)
    requires multiset(shuffled) == multiset(actual.params) && multiset(shuffledExpected) == multiset(expected.params)
    ensures Matches(actual.(params := shuffled), expected.(params := shuffledExpected)) == Matches(actual, expected)
  {
  }

  /** Matching is a preorder, and urls that match both ways differ only in the order of their pairs. */
  lemma MatchingIsAPreorder(a: Url, b: Url, c: Url)
    ensures Matches(a, a)
    ensures Matches(a, b) && Matches(b, c) ==> Matches(a, c)
    ensures Matches(a, b) && Matches(b, a) ==> multiset(a.params) == multiset(b.params)
  {
  }

  /** A pair expected once more than it occurs is not matched; extra pairs never hurt. */
  lemma RepeatsAreRespected(url: Url, pair: Pair, extra: seq<Pair>)
    ensures Matches(url.(params := url.params + extra), url)
    ensures !Matches(url, url.(params := url.params + [pair]))
  {
    assert multiset(url.params + [pair])[pair] == multiset(url.params)[pair] + 1;
  }
}
