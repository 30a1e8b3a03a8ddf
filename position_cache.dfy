/**
 * The position cache kept by both component managers (component_template.rs
 * and src/ecm.rs): a map from (x, y) to the ids standing there, in the order
 * they arrived.
 */
module PositionCache {
  import opened Base

  type Cache = map<(int, int), seq<int>>

  /** `position_cache.find_or_insert(k, ~[]).push(id)`. */
  function Attach(cache: Cache, k: (int, int), id: int): (c: Cache)
    ensures k in c && c[k] == (if k in cache then cache[k] else []) + [id]
  {
    cache[k := (if k in cache then cache[k] else []) + [id]]
  }

  /** The cache after `id` was taken out of the bucket of its old position `pos`, when it is listed there. */
  function Detached(cache: Cache, pos: Option<(int, int)>, id: int): Cache
  {
    match pos
    case None => cache
    case Some(k) =>
      if k in cache && IndexOf(cache[k], id).Some? then cache[k := RemoveAt(cache[k], IndexOf(cache[k], id).value)]
      else cache
  }

  ghost predicate Listed(cache: Cache, k: (int, int), id: int)
  {
    k in cache && id in cache[k]
  }

  ghost predicate BucketsDistinct(cache: Cache)
  {
    forall k :: k in cache ==> NoDup(cache[k])
  }

  /** Detaching removes exactly the one listing of `id` under `k`. */
  lemma DetachListing(cache: Cache, k: (int, int), id: int)
    requires BucketsDistinct(cache) && Listed(cache, k, id)
    ensures var c := Detached(cache, Some(k), id);
      BucketsDistinct(c) && forall k', id' :: Listed(c, k', id') <==> Listed(cache, k', id') && (k', id') != (k, id)
  {
    var i := IndexOf(cache[k], id).value;
    RemoveAtNoDup(cache[k], i);
  }

  /** Attaching adds exactly the one listing of `id` under `k`. */
  lemma AttachListing(cache: Cache, k: (int, int), id: int)
    requires BucketsDistinct(cache) && !Listed(cache, k, id)
    ensures var c := Attach(cache, k, id);
      BucketsDistinct(c) && forall k', id' :: Listed(c, k', id') <==> Listed(cache, k', id') || (k', id') == (k, id)
  {
    AppendNoDup(if k in cache then cache[k] else [], id);
  }
}
