/**
 * Python's `collections.defaultdict`: reading a missing key stores the
 * factory's value under that key, so a lookup returns the value read and the
 * table after the read.
 */
module DefaultDicts {

  /** `table[key]` on a defaultdict whose factory yields `default`. */
  function Lookup<K, V>(table: map<K, V>, key: K, default: V): (r: (V, map<K, V>))
    ensures r.1.Keys == table.Keys + {key}
    ensures key in r.1 && r.1[key] == r.0
    ensures forall k :: k in table ==> r.1[k] == table[k]
    ensures key in table ==> r.0 == table[key]
    ensures key !in table ==> r.0 == default
  {
    if key in table then (table[key], table) else (default, table[key := default])
  }

  /** A second read of the same key finds what the first one stored and changes nothing. */
  lemma LookupTwice<K, V>(table: map<K, V>, key: K, default: V)
    ensures var first := Lookup(table, key, default);
      Lookup(first.1, key, default) == first
  {
  }
}
