/** The earlier typed cache: the same two-level layout as the current one,
    with the type passed beside the key, and with neither resolvers nor
    `remove`. A collision is simply thrown. */
module TypedCache {
  import opened Values
  import opened CacheKeys
  import opened KeyToObjectCaching
  import opened TypedStore

  class Cache {
    var defaultCache: KeyToObjectCache
    var typeToCacheMap: map<string, KeyToObjectCache>
    /** The objects this cache is made of: itself and its buckets. */
    ghost var Repr: set<object>
    /** What the buckets hold. */
    ghost var Contents: TypedState

    /** The buckets are valid leaf stores, belong to this cache, are pairwise
        distinct objects, and hold what `Contents` says. */
    ghost predicate Valid()
      reads this, Repr
    {
      && this in Repr
      && defaultCache in Repr
      && defaultCache.Valid()
      && Contents.untyped == defaultCache.keyToObjectMap
      && Contents.typed.Keys == typeToCacheMap.Keys
      && (forall t :: t in typeToCacheMap ==>
            && typeToCacheMap[t] in Repr
            && typeToCacheMap[t] != defaultCache
            && typeToCacheMap[t].Valid()
            && Contents.typed[t] == typeToCacheMap[t].keyToObjectMap)
      && (forall t, u :: t in typeToCacheMap && u in typeToCacheMap && t != u ==>
            typeToCacheMap[t] != typeToCacheMap[u])
    }

    constructor ()
      ensures Valid() && fresh(Repr)
      ensures Contents == Empty
    {
      defaultCache := new KeyToObjectCache();
      typeToCacheMap := map[];
      Repr := {this, defaultCache};
      Contents := Empty;
    }

    /** Adds `obj` under `key` in the default bucket, or, when a type is
        given, in that type's bucket, which is created and registered first
        when missing; a key already present in its bucket is a collision. */
    method Add(key: string, obj: Value, keyType: Option<string> := None) returns (outcome: Outcome)
      requires Valid()
      modifies Repr
      ensures Valid() && fresh(Repr - old(Repr))
      ensures match Insert(old(Contents), CacheKey(key, keyType), obj)
        case Success(inserted) => outcome == Pass && Contents == inserted
        case Failure(e) => outcome == Fail(e) && Contents == old(Contents)
    {
      if keyType.None? {
        outcome := defaultCache.Add(key, obj);
        if outcome.Pass? {
          Contents := Contents.(untyped := defaultCache.keyToObjectMap);
        }
        return;
      }
      var t := keyType.value;
      var cache: KeyToObjectCache;
      if t in typeToCacheMap {
        cache := typeToCacheMap[t];
        typeToCacheMap := typeToCacheMap[t := cache];
        assert typeToCacheMap == old(typeToCacheMap);
      } else {
        cache := NewBucket(t);
      }
      outcome := AddToBucket(t, cache, key, obj);
    }

    /** A new empty bucket, registered under the unregistered type `t`. */
    method NewBucket(t: string) returns (cache: KeyToObjectCache)
      requires Valid() && t !in typeToCacheMap
      modifies this
      ensures Valid() && fresh(cache) && Repr == old(Repr) + {cache}
      ensures typeToCacheMap == old(typeToCacheMap)[t := cache]
      ensures Contents == old(Contents).(typed := old(Contents.typed)[t := map[]])
    {
      cache := new KeyToObjectCache();
      Repr := Repr + {cache};
      Contents := Contents.(typed := Contents.typed[t := map[]]);
      typeToCacheMap := typeToCacheMap[t := cache];
    }

    /** Adds `obj` under `k` to `cache`, the bucket of type `t`. */
    method AddToBucket(t: string, cache: KeyToObjectCache, k: string, obj: Value) returns (outcome: Outcome)
      requires Valid() && t in typeToCacheMap && cache == typeToCacheMap[t]
      modifies this, cache
      ensures Valid() && Repr == old(Repr)
      ensures outcome.Fail? <==> k in old(Contents.typed[t])
      ensures outcome.Fail? ==> outcome.error == CacheCollisionError && Contents == old(Contents)
      ensures outcome.Pass? ==>
        Contents == old(Contents).(typed := old(Contents.typed)[t := old(Contents.typed[t])[k := obj]])
    {
      outcome := cache.Add(k, obj);
      if outcome.Pass? {
        Contents := Contents.(typed := Contents.typed[t := cache.keyToObjectMap]);
      }
    }

    /** Hands back the object stored under `key` in the default bucket, or in
        the bucket of the given type; rejects when that bucket does not exist
        or does not hold the key. Never creates a bucket. */
    method Fetch(key: string, keyType: Option<string> := None) returns (r: Result<Value>)
      requires Valid()
      ensures r == TypedStore.Fetch(Contents, CacheKey(key, keyType))
    {
      if keyType.None? {
        r := defaultCache.Fetch(key);
        return;
      }
      var t := keyType.value;
      if t in typeToCacheMap {
        r := typeToCacheMap[t].Fetch(key);
      } else {
        r := Failure(NotFound);
      }
    }
  }
}
