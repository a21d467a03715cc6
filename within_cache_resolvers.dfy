/** The string-keyed copies of the collision-resolution strategies. They are
    handed a cache and a plain string key; here that cache is the leaf store,
    whose `add` and `remove` take string keys. */
module WithinCacheResolvers {
  import opened Values
  import opened KeyToObjectCaching

  /** The three strategies. */
  datatype WithinCacheResolver = KeepNewResolver | KeepOldResolver | ThrowErrorResolver

  /** One invocation of the cache's `add` or `remove`, as a spy records it. */
  datatype CacheCall = AddCall(key: string, obj: Value) | RemoveCall(key: string)

  /** Keeps the object already stored and answers `false`, whatever the
      cache, key and object. */
  function KeepOldResolve(key: string, obj: Value): Result<bool> {
    Success(false)
  }

  /** Refuses with a `CacheCollisionError`, whatever the cache, key and
      object. */
  function ThrowErrorResolve(key: string, obj: Value): Result<bool> {
    Failure(CacheCollisionError)
  }

  /** KeepNew: removes `key`, then adds `obj` under it, and answers `true`.
      Removing first frees the key, so the add cannot collide, whether or not
      `key` was stored before; the key moves to the end of the insertion
      order. */
  method KeepNewResolve(cache: KeyToObjectCache, key: string, obj: Value)
    returns (r: Result<bool>, ghost calls: seq<CacheCall>)
    requires cache.Valid()
    modifies cache
    ensures cache.Valid()
    ensures r == Success(true)
    ensures calls == [RemoveCall(key), AddCall(key, obj)]
    ensures cache.keyToObjectMap == old(cache.keyToObjectMap)[key := obj]
    ensures cache.insertionOrder == Without(old(cache.insertionOrder), key) + [key]
  {
    ghost var before := cache.keyToObjectMap;
    cache.Remove(key);
    assert cache.keyToObjectMap[key := obj] == before[key := obj];
    var added := cache.Add(key, obj);
    calls := [RemoveCall(key), AddCall(key, obj)];
    match added
    case Pass =>
      r := Success(true);
    case Fail(e) =>
      r := Failure(e);
  }

  /** `resolver.resolve(cache, key, obj)`, dispatched on the strategy: only
      KeepNew touches the cache or calls into it; KeepOld answers `false`
      and ThrowError fails with a collision. */
  method Resolve(resolver: WithinCacheResolver, cache: KeyToObjectCache, key: string, obj: Value)
    returns (r: Result<bool>, ghost calls: seq<CacheCall>)
    requires cache.Valid()
    modifies cache
    ensures cache.Valid()
    ensures resolver == KeepNewResolver ==>
      && r == Success(true)
      && calls == [RemoveCall(key), AddCall(key, obj)]
      && cache.keyToObjectMap == old(cache.keyToObjectMap)[key := obj]
      && cache.insertionOrder == Without(old(cache.insertionOrder), key) + [key]
    ensures resolver == KeepOldResolver ==> r == Success(false)
    ensures resolver == ThrowErrorResolver ==> r == Failure(CacheCollisionError)
    ensures resolver != KeepNewResolver ==>
      && calls == []
      && cache.keyToObjectMap == old(cache.keyToObjectMap)
      && cache.insertionOrder == old(cache.insertionOrder)
  {
    match resolver
    case KeepNewResolver =>
      r, calls := KeepNewResolve(cache, key, obj);
    case KeepOldResolver =>
      r, calls := KeepOldResolve(key, obj), [];
    case ThrowErrorResolver =>
      r, calls := ThrowErrorResolve(key, obj), [];
  }

  /** ThrowError refuses with a collision for every key and object, so what
      it answers never depends on what it is handed. */
  lemma ThrowErrorRefuses(key: string, obj: Value, key': string, obj': Value)
    ensures ThrowErrorResolve(key, obj) == ThrowErrorResolve(key', obj')
    ensures ThrowErrorResolve(key, obj).Failure? && ThrowErrorResolve(key, obj).error == CacheCollisionError
  {
  }

  /** KeepNew on an empty store answers `true` and leaves exactly `key`,
      holding `obj`. */
  method KeepNewOnEmptyScenario()
  {
    var cache := new KeyToObjectCache();
    var r, calls := KeepNewResolve(cache, "k", Obj(7));
    assert r == Success(true) && cache.Keys() == ["k"];
    var fetched := cache.Fetch("k");
    assert fetched == Success(Obj(7));
  }
}
