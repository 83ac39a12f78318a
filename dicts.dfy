/**
 * Python dictionaries as the modelled code uses them: the entries are kept in
 * iteration (insertion) order and no key appears twice.
 */
module Dicts {
  import opened Wrappers

  predicate DistinctKeys<K(==), V>(d: seq<(K, V)>) {
    forall i, j :: 0 <= i < j < |d| ==> d[i].0 != d[j].0
  }

  /** A dict as its entries in iteration order. */
  type Dict<V> = d: seq<(string, V)> | DistinctKeys(d) witness []

  /** `list(d.keys())`. */
  function Keys<V>(d: seq<(string, V)>): (r: seq<string>)
    ensures |r| == |d| && forall i :: 0 <= i < |d| ==> r[i] == d[i].0
  {
    if d == [] then [] else [d[0].0] + Keys(d[1..])
  }

  /** `key in d`. */
  predicate HasKey<K(==), V>(d: seq<(K, V)>, key: K) {
    exists i :: 0 <= i < |d| && d[i].0 == key
  }

  /** `d[key]`, or `None` where Python raises `KeyError`. */
  function Get<V>(d: seq<(string, V)>, key: string): (r: Option<V>)
    ensures r.Some? <==> HasKey(d, key)
    ensures r.Some? ==> exists i :: 0 <= i < |d| && d[i] == (key, r.value)
  {
    if d == [] then None
    else if d[0].0 == key then Some(d[0].1)
    else
      var r := Get(d[1..], key);
      assert HasKey(d[1..], key) ==> HasKey(d, key) by {
        if HasKey(d[1..], key) {
          var i :| 0 <= i < |d[1..]| && d[1..][i].0 == key;
          assert d[i + 1].0 == key;
        }
      }
      assert HasKey(d, key) ==> HasKey(d[1..], key) by {
        if HasKey(d, key) {
          var i :| 0 <= i < |d| && d[i].0 == key;
          assert i > 0 && d[1..][i - 1].0 == key;
        }
      }
      assert r.Some? ==> exists i :: 0 <= i < |d| && d[i] == (key, r.value) by {
        if r.Some? {
          var i :| 0 <= i < |d[1..]| && d[1..][i] == (key, r.value);
          assert d[i + 1] == (key, r.value);
        }
      }
      r
  }

  /** In a dict, the value found for a key is the one stored under it. */
  lemma GetEntry<V>(d: Dict<V>, i: nat)
    requires i < |d|
    ensures Get(d, d[i].0) == Some(d[i].1)
  {
    assert HasKey(d, d[i].0);
  }

  /**
   * `d[k] = v`: a key already present keeps its place and takes the new value,
   * a new key is added last.
   */
  function Assign<K(==), V>(d: seq<(K, V)>, k: K, v: V): (r: seq<(K, V)>)
    requires DistinctKeys(d)
    ensures DistinctKeys(r)
    ensures HasKey(d, k) ==> |r| == |d|
    ensures !HasKey(d, k) ==> r == d + [(k, v)]
    ensures forall i :: 0 <= i < |d| ==> r[i] == (if d[i].0 == k then (k, v) else d[i])
  {
    if HasKey(d, k) then
      var r := seq(|d|, i requires 0 <= i < |d| => if d[i].0 == k then (k, v) else d[i]);
      assert forall i :: 0 <= i < |d| ==> r[i].0 == d[i].0;
      r
    else
      d + [(k, v)]
  }

  /**
   * The dict display `{k0: v0, k1: v1, ...}`: its entries assigned left to right.
   * A display whose keys are all different builds exactly its entries, in order.
   */
  function DictDisplay<K(==), V>(entries: seq<(K, V)>): (r: seq<(K, V)>)
    ensures DistinctKeys(r)
    ensures DistinctKeys(entries) ==> r == entries
    decreases |entries|
  {
    if entries == [] then []
    else
      var n := |entries| - 1;
      var init, last := entries[..n], entries[n];
      assert forall i :: 0 <= i < n ==> init[i] == entries[i];
      assert init + [(last.0, last.1)] == entries;
      Assign(DictDisplay(init), last.0, last.1)
  }

  /** Displaying one more entry assigns it to the display of the others. */
  lemma DictDisplaySnoc<K, V>(entries: seq<(K, V)>, k: K, v: V)
    ensures DictDisplay(entries + [(k, v)]) == Assign(DictDisplay(entries), k, v)
  {
    assert (entries + [(k, v)])[..|entries|] == entries;
  }

  /** Writing a present key of a one-entry table replaces its value. */
  lemma AssignOverwriteSingle<K, V>(k: K, v0: V, v1: V)
    ensures Assign([(k, v0)], k, v1) == [(k, v1)]
  {
    var r := Assign([(k, v0)], k, v1);
    assert r[0] == (k, v1);
  }

  /** A display whose first two entries share a key holds one entry for it, with the later value. */
  lemma DictDisplayRepeatedPair<K, V>(k: K, v0: V, v1: V)
    ensures DictDisplay([(k, v0), (k, v1)]) == [(k, v1)]
  {
    DictDisplaySnoc([(k, v0)], k, v1);
    assert [(k, v0)] + [(k, v1)] == [(k, v0), (k, v1)];
    assert DictDisplay([(k, v0)]) == [(k, v0)];
    AssignOverwriteSingle(k, v0, v1);
  }

  /** A display entry with a key the earlier entries do not hold is appended. */
  lemma DictDisplaySnocFresh<K, V>(entries: seq<(K, V)>, k: K, v: V)
    requires !HasKey(DictDisplay(entries), k)
    ensures DictDisplay(entries + [(k, v)]) == DictDisplay(entries) + [(k, v)]
  {
    DictDisplaySnoc(entries, k, v);
  }

  /** A key written twice, then another key: one entry for the first key with its later value, then the other. */
  lemma DictDisplayRepeatedKey<K, V>(k0: K, k2: K, v0: V, v1: V, v2: V)
    requires k0 != k2
    ensures DictDisplay([(k0, v0), (k0, v1), (k2, v2)]) == [(k0, v1), (k2, v2)]
  {
    var e := [(k0, v0), (k0, v1)];
    DictDisplayRepeatedPair(k0, v0, v1);
    assert !HasKey(DictDisplay(e), k2);
    DictDisplaySnocFresh(e, k2, v2);
    assert e + [(k2, v2)] == [(k0, v0), (k0, v1), (k2, v2)];
  }
}
