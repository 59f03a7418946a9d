/**
 * The few `java.util.Map` operations the updater settings rely on, on Dafny's
 * immutable maps. Each one returns the map as it is after the Java call.
 */
module JavaMaps {

  /** `r` is `m` after every entry of `given` was written over it: keys of
      `given` take the value from `given`, every other key of `m` keeps its own. */
  ghost predicate Overwrites<K, V>(m: map<K, V>, given: map<K, V>, r: map<K, V>) {
    && r.Keys == m.Keys + given.Keys
    && (forall k :: k in given ==> r[k] == given[k])
    && (forall k :: k in m && k !in given ==> r[k] == m[k])
  }

  /** `m.put(k, v)`: replaces the entry for `k`, whatever it was. */
  function Put<K, V>(m: map<K, V>, k: K, v: V): (r: map<K, V>)
    ensures Overwrites(m, map[k := v], r)
    ensures k in r && r[k] == v
  {
    m[k := v]
  }

  /** `m.putAll(given)`: replaces, for every key of `given`, the entry of `m`. */
  function PutAll<K, V>(m: map<K, V>, given: map<K, V>): (r: map<K, V>)
    ensures Overwrites(m, given, r)
  {
    m + given
  }

  /** `m.getOrDefault(k, d)`. */
  function GetOrDefault<K, V>(m: map<K, V>, k: K, d: V): V {
    if k in m then m[k] else d
  }

  /** `m.computeIfAbsent(k, f)`: adds `k -> f(k)` only when `k` has no entry yet;
      an existing entry is never replaced. */
  function ComputeIfAbsent<K, V>(m: map<K, V>, k: K, f: K -> V): (r: map<K, V>)
    ensures r.Keys == m.Keys + {k}
    ensures k in m ==> r == m
    ensures k !in m ==> r[k] == f(k) && forall j :: j in m ==> r[j] == m[j]
  {
    if k in m then m else m[k := f(k)]
  }
}
