/**
 * Lookup along a chain of containers, nearest first. A chain is given here as
 * the sequence of one kind of map (or of container names), position 0 being the
 * current container and the last position the root.
 */
module Lookup {
  import opened Wrappers

  /** The entry for `k` in the first map of `ms` that holds `k`. */
  function Nearest<K, V>(ms: seq<map<K, V>>, k: K): (r: Option<V>)
    ensures r.None? <==> forall i :: 0 <= i < |ms| ==> k !in ms[i]
    ensures r.Some? ==>
      exists i :: 0 <= i < |ms| && k in ms[i] && ms[i][k] == r.value &&
        forall j :: 0 <= j < i ==> k !in ms[j]
  {
    if ms == [] then None
    else if k in ms[0] then Some(ms[0][k])
    else
      var r := Nearest(ms[1..], k);
      assert forall i :: 1 <= i < |ms| ==> ms[1..][i - 1] == ms[i];
      r
  }

  /** The position of the first name in `names` equal to `n`. */
  function NearestName(names: seq<string>, n: string): (r: Option<nat>)
    ensures r.None? <==> forall i :: 0 <= i < |names| ==> names[i] != n
    ensures r.Some? ==>
      r.value < |names| && names[r.value] == n &&
      forall j :: 0 <= j < r.value ==> names[j] != n
  {
    if names == [] then None
    else if names[0] == n then Some(0)
    else
      var r := NearestName(names[1..], n);
      if r.Some? then Some(r.value + 1) else None
  }

  /** The first map holding `k` decides the lookup: the entry of the nearest container wins. */
  lemma NearestAt<K, V>(ms: seq<map<K, V>>, k: K, i: nat)
    requires i < |ms| && k in ms[i]
    requires forall j :: 0 <= j < i ==> k !in ms[j]
    ensures Nearest(ms, k) == Some(ms[i][k])
  {
    var r := Nearest(ms, k);
    var w :| 0 <= w < |ms| && k in ms[w] && ms[w][k] == r.value &&
      forall j :: 0 <= j < w ==> k !in ms[j];
    assert !(w < i) && !(i < w);
  }

  /**
   * Shadowing: a key held by the current container hides every ancestor's entry;
   * a key it does not hold is looked up in the ancestors.
   */
  lemma {:induction false} NearestShadows<K, V>(m: map<K, V>, ancestors: seq<map<K, V>>, k: K)
    ensures k in m ==> Nearest([m] + ancestors, k) == Some(m[k])
    ensures k !in m ==> Nearest([m] + ancestors, k) == Nearest(ancestors, k)
  {
    if k !in m {
      assert ([m] + ancestors)[1..] == ancestors;
    }
  }

  /** Only the first name equal to `n` is found, whichever later containers share it. */
  lemma NearestNameAt(names: seq<string>, n: string, i: nat)
    requires i < |names| && names[i] == n
    requires forall j :: 0 <= j < i ==> names[j] != n
    ensures NearestName(names, n) == Some(i)
  {
    var r := NearestName(names, n);
    assert r.Some?;
    assert !(r.value < i) && !(i < r.value);
  }
}
