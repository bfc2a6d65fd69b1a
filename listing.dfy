/**
 * What the listing loops share (bridge.go, lines 165-169 and 89-96; group_list.go, lines 36-41):
 * each visits the keys of a decoded map in no fixed order and appends one element per key. The
 * keys of the listed elements, taken as a multiset, are what relates the list to the map.
 */
module Listing {
  /** The key of every element of a list, in list order. */
  function Project<T>(xs: seq<T>, key: T -> string): (ks: seq<string>)
    ensures |ks| == |xs|
    ensures forall i :: 0 <= i < |xs| ==> ks[i] == key(xs[i])
  {
    if xs == [] then [] else Project(xs[..|xs| - 1], key) + [key(xs[|xs| - 1])]
  }

  /** Listing one more element moves its key from the keys still to visit to the listed keys. */
  lemma MoveKey<T>(xs: seq<T>, x: T, key: T -> string, rest: set<string>)
    requires key(x) in rest
    ensures multiset(Project(xs + [x], key)) + multiset(rest - {key(x)}) == multiset(Project(xs, key)) + multiset(rest)
  {
    assert Project(xs + [x], key) == Project(xs, key) + [key(x)];
    assert rest == (rest - {key(x)}) + {key(x)};
  }

  /**
   * When the listed keys are, as a multiset, the keys of the map, there are as many elements as
   * keys and every key is listed exactly once.
   */
  lemma ListedOnce<T>(xs: seq<T>, key: T -> string, keys: set<string>)
    requires multiset(Project(xs, key)) == multiset(keys)
    ensures |xs| == |keys|
    ensures forall k :: k in keys ==> multiset(Project(xs, key))[k] == 1
    ensures forall k :: k in keys ==> exists i :: 0 <= i < |xs| && key(xs[i]) == k
  {
    assert |multiset(Project(xs, key))| == |Project(xs, key)|;
    assert |multiset(keys)| == |keys|;
    forall k | k in keys
      ensures exists i :: 0 <= i < |xs| && key(xs[i]) == k
    {
      assert k in multiset(Project(xs, key));
      var i :| 0 <= i < |xs| && Project(xs, key)[i] == k;
    }
  }
}
