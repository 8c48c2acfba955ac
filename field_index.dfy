/**
 * Guava's `Maps.uniqueIndex(values, keyFunction)`: a map from each value's key to the
 * value, built in iteration order; building fails (IllegalArgumentException) as soon
 * as two values share a key.
 */
module FieldIndex {
  import opened Wrappers

  /** No two positions of `xs` carry the same key. */
  ghost predicate DistinctKeys<T>(xs: seq<T>, key: T -> string) {
    forall i, j :: 0 <= i < j < |xs| ==> key(xs[i]) != key(xs[j])
  }

  /** `None` is the IllegalArgumentException thrown on a duplicate key. */
  function UniqueIndex<T>(xs: seq<T>, key: T -> string): Option<map<string, T>> {
    if xs == [] then Some(map[])
    else
      var m := UniqueIndex(xs[..|xs| - 1], key);
      if m.None? || key(xs[|xs| - 1]) in m.value then None
      else Some(m.value[key(xs[|xs| - 1]) := xs[|xs| - 1]])
  }

  /** The index holds exactly the keys of the values. */
  lemma {:induction false} UniqueIndexKeys<T>(xs: seq<T>, key: T -> string)
    requires UniqueIndex(xs, key).Some?
    ensures forall s :: s in UniqueIndex(xs, key).value <==> exists i :: 0 <= i < |xs| && key(xs[i]) == s
  {
    if xs != [] {
      var init := xs[..|xs| - 1];
      UniqueIndexKeys(init, key);
      var r := UniqueIndex(xs, key).value;
      forall s ensures s in r <==> exists i :: 0 <= i < |xs| && key(xs[i]) == s {
        if s in r && s != key(xs[|xs| - 1]) {
          var i :| 0 <= i < |init| && key(init[i]) == s;
          assert xs[i] == init[i];
        }
        if exists i :: 0 <= i < |xs| && key(xs[i]) == s {
          var i :| 0 <= i < |xs| && key(xs[i]) == s;
          if i < |init| {
            assert init[i] == xs[i];
          }
        }
      }
    }
  }

  /** A built index has one entry per value, each under its own key. */
  lemma {:induction false} UniqueIndexValues<T>(xs: seq<T>, key: T -> string)
    requires UniqueIndex(xs, key).Some?
    ensures |UniqueIndex(xs, key).value| == |xs|
    ensures forall i :: 0 <= i < |xs| ==>
      key(xs[i]) in UniqueIndex(xs, key).value && UniqueIndex(xs, key).value[key(xs[i])] == xs[i]
  {
    if xs != [] {
      var init, last := xs[..|xs| - 1], xs[|xs| - 1];
      UniqueIndexValues(init, key);
      UniqueIndexKeys(init, key);
      var m := UniqueIndex(init, key).value;
      forall i | 0 <= i < |xs|
        ensures key(xs[i]) in UniqueIndex(xs, key).value && UniqueIndex(xs, key).value[key(xs[i])] == xs[i]
      {
        if i < |init| {
          assert xs[i] == init[i];
          assert key(init[i]) in m;
        }
      }
    }
  }

  /** The index is built exactly when the keys are pairwise distinct. */
  lemma {:induction false} UniqueIndexDefined<T>(xs: seq<T>, key: T -> string)
    ensures UniqueIndex(xs, key).Some? <==> DistinctKeys(xs, key)
  {
    if xs != [] {
      var init, last := xs[..|xs| - 1], xs[|xs| - 1];
      UniqueIndexDefined(init, key);
      var m := UniqueIndex(init, key);
      if m.None? {
        var i, j :| 0 <= i < j < |init| && key(init[i]) == key(init[j]);
        assert xs[i] == init[i] && xs[j] == init[j];
      } else {
        UniqueIndexKeys(init, key);
        if key(last) in m.value {
          var i :| 0 <= i < |init| && key(init[i]) == key(last);
          assert key(xs[i]) == key(xs[|xs| - 1]);
        } else {
          forall i, j | 0 <= i < j < |xs| ensures key(xs[i]) != key(xs[j]) {
            assert xs[i] == init[i];
            if j == |xs| - 1 {
              assert key(init[i]) in m.value;
            } else {
              assert xs[j] == init[j];
            }
          }
        }
      }
    }
  }

  /** The index is built exactly when the keys are pairwise distinct, and then it maps
      every value's key to that value and holds nothing else. */
  lemma UniqueIndexSpec<T>(xs: seq<T>, key: T -> string)
    ensures UniqueIndex(xs, key).Some? <==> DistinctKeys(xs, key)
    ensures UniqueIndex(xs, key).Some? ==>
      var m := UniqueIndex(xs, key).value;
      && |m| == |xs|
      && (forall s :: s in m <==> exists i :: 0 <= i < |xs| && key(xs[i]) == s)
      && (forall i :: 0 <= i < |xs| ==> m[key(xs[i])] == xs[i])
  {
    UniqueIndexDefined(xs, key);
    if UniqueIndex(xs, key).Some? {
      UniqueIndexKeys(xs, key);
      UniqueIndexValues(xs, key);
    }
  }
}
