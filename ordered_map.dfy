/** A JavaScript `Map` as the modelled caches use it: entries in insertion
    order, `set` on a present key overwrites the value where it stands, and
    `keys().next()` yields the oldest entry. */
module OrderedMap {
  import opened Wrappers

  /** `m.get(k)`, or None when `m.has(k)` is false. */
  function Lookup<V>(m: seq<(string, V)>, k: string): Option<V> {
    if m == [] then None
    else if m[0].0 == k then Some(m[0].1)
    else Lookup(m[1..], k)
  }

  predicate Has<V>(m: seq<(string, V)>, k: string) {
    Lookup(m, k).Some?
  }

  /** No key occurs twice, which every `Map` guarantees. */
  predicate NoDuplicateKeys<V>(m: seq<(string, V)>) {
    m == [] || (!Has(m[1..], m[0].0) && NoDuplicateKeys(m[1..]))
  }

  /** `m.set(k, v)`: a present key keeps its place, a new key goes last. */
  function Set<V>(m: seq<(string, V)>, k: string, v: V): (r: seq<(string, V)>)
    ensures Lookup(r, k) == Some(v)
    ensures forall k' | k' != k :: Lookup(r, k') == Lookup(m, k')
    ensures |r| == if Has(m, k) then |m| else |m| + 1
    ensures NoDuplicateKeys(m) ==> NoDuplicateKeys(r)
    ensures !Has(m, k) ==> r == m + [(k, v)]
  {
    if m == [] then [(k, v)]
    else if m[0].0 == k then [(k, v)] + m[1..]
    else [m[0]] + Set(m[1..], k, v)
  }

  /** `m.delete(k)`. */
  function Delete<V>(m: seq<(string, V)>, k: string): (r: seq<(string, V)>)
    ensures Lookup(r, k) == None
    ensures forall k' | k' != k :: Lookup(r, k') == Lookup(m, k')
    ensures |r| <= |m|
    ensures NoDuplicateKeys(m) ==> NoDuplicateKeys(r)
    ensures !Has(m, k) ==> r == m
  {
    if m == [] then []
    else if m[0].0 == k then Delete(m[1..], k)
    else [m[0]] + Delete(m[1..], k)
  }

  /** Deletes every entry whose key is in `ks`, keeping the others in order. */
  function DeleteAll<V>(m: seq<(string, V)>, ks: set<string>): (r: seq<(string, V)>)
    ensures forall k | k in ks :: Lookup(r, k) == None
    ensures forall k | k !in ks :: Lookup(r, k) == Lookup(m, k)
  {
    if m == [] then []
    else if m[0].0 in ks then DeleteAll(m[1..], ks)
    else [m[0]] + DeleteAll(m[1..], ks)
  }

  /** Deleting no keys leaves the map as it is. */
  lemma {:induction false} DeleteAllNothing<V>(m: seq<(string, V)>)
    ensures DeleteAll(m, {}) == m
  {
    if m != [] {
      DeleteAllNothing(m[1..]);
    }
  }

  /** Deleting one more key after a batch is the batch with that key added. */
  lemma {:induction false} DeleteAfterDeleteAll<V>(m: seq<(string, V)>, ks: set<string>, k: string)
    ensures Delete(DeleteAll(m, ks), k) == DeleteAll(m, ks + {k})
  {
    if m != [] {
      DeleteAfterDeleteAll(m[1..], ks, k);
    }
  }

  /** The eviction step shared by both caches: when `m.size >= limit`,
      delete the first key that `m.keys()` yields, if any. */
  function EvictOldest<V>(m: seq<(string, V)>, limit: int): seq<(string, V)> {
    if |m| >= limit && m != [] then m[1..] else m
  }

  /** Evicting the oldest entry keeps the remaining entries and their values. */
  lemma {:induction false} EvictOldestLookup<V>(m: seq<(string, V)>, limit: int, k: string)
    requires NoDuplicateKeys(m)
    ensures NoDuplicateKeys(EvictOldest(m, limit))
    ensures Has(EvictOldest(m, limit), k) ==> Lookup(EvictOldest(m, limit), k) == Lookup(m, k)
  {
    if |m| >= limit && m != [] && Has(m[1..], k) {
      assert m[0].0 != k;
    }
  }

  /** Evict-then-insert never grows a map past a positive limit it was within. */
  lemma EvictThenSetBounded<V>(m: seq<(string, V)>, limit: int, k: string, v: V)
    requires 1 <= limit && |m| <= limit
    ensures |Set(EvictOldest(m, limit), k, v)| <= limit
  {
  }
}
