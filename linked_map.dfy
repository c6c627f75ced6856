/**
 * Kotlin's `mutableMapOf()` is a `LinkedHashMap`: iteration visits the keys in
 * the order they were first inserted, and putting a key that is already there
 * replaces its value without moving it. The compass views keep their tables in
 * such maps, and the order is visible (it is the drawing order, and the order
 * in which the nearest-angle search breaks ties).
 */
module LinkedMaps {

  datatype LinkedMap<K(==,!new), V> = LinkedMap(keys: seq<K>, entries: map<K, V>)

  ghost predicate Distinct<K>(s: seq<K>)
  {
    forall i, j :: 0 <= i < j < |s| ==> s[i] != s[j]
  }

  /** The key sequence lists every key of the map exactly once. */
  ghost predicate Valid<K(!new), V>(m: LinkedMap<K, V>)
  {
    Distinct(m.keys) && forall k :: k in m.entries <==> k in m.keys
  }

  /** `clear()`, or a fresh `mutableMapOf()`. */
  function Empty<K(==,!new), V>(): (m: LinkedMap<K, V>)
    ensures Valid(m) && m.keys == [] && m.entries == map[]
  {
    LinkedMap([], map[])
  }

  /** `m[k] = v`: a new key goes to the end of the iteration order, an old one keeps its place. */
  function Put<K(==,!new), V>(m: LinkedMap<K, V>, k: K, v: V): (r: LinkedMap<K, V>)
    requires Valid(m)
    ensures Valid(r)
    ensures r.entries == m.entries[k := v]
    ensures k in m.entries ==> r.keys == m.keys
    ensures k !in m.entries ==> r.keys == m.keys + [k]
  {
    if k in m.entries then LinkedMap(m.keys, m.entries[k := v])
    else
      LinkedMap(m.keys + [k], m.entries[k := v])
  }

  /** `m.values`, in iteration order. */
  function Values<K(==,!new), V>(m: LinkedMap<K, V>): (vs: seq<V>)
    requires Valid(m)
    ensures |vs| == |m.keys|
    ensures forall i :: 0 <= i < |m.keys| ==> vs[i] == m.entries[m.keys[i]]
  {
    seq(|m.keys|, i requires 0 <= i < |m.keys| => m.entries[m.keys[i]])
  }

  /**
   * The map a loop builds from an empty map by putting `k -> f(k)` for each key
   * of `keys` in turn; with distinct keys it iterates in exactly that order.
   */
  function FromKeys<K(==,!new), V>(keys: seq<K>, f: K -> V): (m: LinkedMap<K, V>)
    ensures Valid(m)
    ensures Distinct(keys) ==> m.keys == keys
  {
    if keys == [] then Empty()
    else
      var init := keys[..|keys| - 1];
      var prev := FromKeys(init, f);
      var a := keys[|keys| - 1];
      assert Distinct(keys) ==> a !in init;
      assert keys == init + [a];
      Put(prev, a, f(a))
  }

  /** Each key of such a map holds f of itself. */
  lemma {:induction false} FromKeysValues<K(!new), V>(keys: seq<K>, f: K -> V)
    requires Distinct(keys)
    ensures forall k :: 0 <= k < |keys| ==> Values(FromKeys(keys, f))[k] == f(keys[k])
  {
    if keys != [] {
      var init := keys[..|keys| - 1];
      var a := keys[|keys| - 1];
      FromKeysValues(init, f);
      var prev := FromKeys(init, f);
      var m := FromKeys(keys, f);
      assert m.entries == prev.entries[a := f(a)];
      forall k | 0 <= k < |keys|
        ensures Values(m)[k] == f(keys[k])
      {
        if k < |keys| - 1 {
          assert keys[k] != a;
          assert Values(m)[k] == prev.entries[prev.keys[k]] == Values(prev)[k];
        }
      }
    }
  }

  /** The keys of such a map are exactly the keys put, each holding f of itself. */
  lemma {:induction false} FromKeysEntries<K(!new), V>(keys: seq<K>, f: K -> V)
    ensures forall k :: k in FromKeys(keys, f).entries <==> k in keys
    ensures forall k :: k in FromKeys(keys, f).entries ==> FromKeys(keys, f).entries[k] == f(k)
  {
    if keys != [] {
      var init := keys[..|keys| - 1];
      var a := keys[|keys| - 1];
      FromKeysEntries(init, f);
      assert keys == init + [a];
      assert FromKeys(keys, f).entries == FromKeys(init, f).entries[a := f(a)];
    }
  }

  /** Building over one more key is one more `Put`. */
  lemma FromKeysSnoc<K(!new), V>(keys: seq<K>, k: int, f: K -> V)
    requires 0 <= k < |keys|
    ensures FromKeys(keys[..k + 1], f) == Put(FromKeys(keys[..k], f), keys[k], f(keys[k]))
  {
    assert keys[..k + 1][..k] == keys[..k];
  }
}
