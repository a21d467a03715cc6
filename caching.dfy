/** The typed cache: a default bucket for keys without a type and one leaf
    store per type, created on first add; `add` hands a collision to a
    resolver strategy and answers what the strategy answers. */
module Caching {
  import opened Values
  import opened CacheKeys
  import opened KeyToObjectCaching
  import opened Resolvers
  import opened TypedStore

  /** One invocation that a spy on the cache's `add` or `remove`, or on a
      resolver's `resolve`, records; `resolve` always receives the cache it
      was called from. */
  datatype Call =
    | AddCall(key: CacheKey, obj: Value, resolver: Option<Resolver>)
    | RemoveCall(key: CacheKey)
    | ResolveCall(strategy: Resolver, key: CacheKey, obj: Value)

  /** What an operation does: what it settles to, the store's state after it,
      and the calls it makes, in order. */
  datatype Step = Step(result: Result<bool>, state: TypedState, calls: seq<Call>)

  /** Only KeepNew calls back into `add`, and it passes no resolver, so the
      inner `add` gets the default one, which never calls back. */
  function Rank(resolver: Option<Resolver>): nat {
    if resolver == Some(KeepNewResolver) then 1 else 0
  }

  /** `add`: try the bucket of the key's type; on an error, let the error
      handler decide. */
  function AddSpec(s: TypedState, key: CacheKey, obj: Value, resolver: Option<Resolver>): Step
    decreases Rank(resolver), 3
  {
    var call := AddCall(key, obj, resolver);
    match Insert(s, key, obj)
    case Success(inserted) => Step(Success(true), inserted, [call])
    case Failure(e) =>
      var handled := HandleErrorSpec(s, e, key, obj, resolver);
      Step(handled.result, handled.state, [call] + handled.calls)
  }

  /** A collision with a resolver goes to that resolver; anything else is
      thrown again unchanged. */
  function HandleErrorSpec(s: TypedState, error: Error, key: CacheKey, obj: Value, resolver: Option<Resolver>): Step
    decreases Rank(resolver), 2
  {
    if error == CacheCollisionError && resolver.Some? then
      var resolved := ResolveSpec(s, resolver.value, key, obj);
      Step(resolved.result, resolved.state, [ResolveCall(resolver.value, key, obj)] + resolved.calls)
    else
      Step(Failure(error), s, [])
  }

  /** What each strategy does once it has been called. */
  function ResolveSpec(s: TypedState, resolver: Resolver, key: CacheKey, obj: Value): Step
    decreases Rank(Some(resolver)), 1
  {
    match resolver
    case KeepNewResolver => KeepNewSpec(s, key, obj)
    case KeepOldResolver => Step(KeepOldResolve(key, obj), s, [])
    case ThrowErrorResolver => Step(ThrowErrorResolve(key, obj), s, [])
    case CallerSupplied(answer) => Step(answer, s, [])
  }

  /** KeepNew: remove the key, add it again with the default resolver, and
      answer `true` unless that add failed. */
  function KeepNewSpec(s: TypedState, key: CacheKey, obj: Value): Step
    decreases 1, 0
  {
    var added := AddSpec(Remove(s, key), key, obj, Some(DefaultResolver));
    Step(if added.result.Failure? then added.result else Success(true), added.state, [RemoveCall(key)] + added.calls)
  }

  /** How many times `resolve` is invoked in `calls`. */
  function ResolveCount(calls: seq<Call>): (n: nat)
    ensures n == 0 <==> forall i :: 0 <= i < |calls| ==> !calls[i].ResolveCall?
  {
    if calls == [] then 0
    else (if calls[0].ResolveCall? then 1 else 0) + ResolveCount(calls[1..])
  }

  /** Adding under a free key stores the object and answers `true`, whatever
      the resolver; the resolver is not invoked, and a later fetch of the key
      hands the object back (a null/undefined object is refused). */
  lemma AddFreeKey(s: TypedState, key: CacheKey, obj: Value, resolver: Option<Resolver>)
    requires !Occupied(s, key)
    ensures AddSpec(s, key, obj, resolver) == Step(Success(true), Insert(s, key, obj).value, [AddCall(key, obj, resolver)])
    ensures Fetch(AddSpec(s, key, obj, resolver).state, key) == if obj == Null then Failure(NotFound) else Success(obj)
  {
    InsertCollidesIffOccupied(s, key, obj);
    FetchAfterInsert(s, key, obj);
  }

  /** On a collision, `add` invokes the given resolver once, right after
      itself, with the colliding key and the new object, and answers what the
      resolver answers, leaving the store as the resolver leaves it. */
  lemma AddCollisionResolves(s: TypedState, key: CacheKey, obj: Value, resolver: Resolver)
    requires Occupied(s, key)
    ensures var step := AddSpec(s, key, obj, Some(resolver));
      var resolved := ResolveSpec(s, resolver, key, obj);
      && step.result == resolved.result
      && step.state == resolved.state
      && step.calls == [AddCall(key, obj, Some(resolver)), ResolveCall(resolver, key, obj)] + resolved.calls
      && ResolveCount(step.calls) == 1
  {
    InsertCollidesIffOccupied(s, key, obj);
    var resolved := ResolveSpec(s, resolver, key, obj);
    assert ResolveCount(resolved.calls) == 0 by {
      if resolver == KeepNewResolver {
        KeepNewReplaces(s, key, obj);
      }
    }
    var calls := [AddCall(key, obj, Some(resolver)), ResolveCall(resolver, key, obj)] + resolved.calls;
    assert calls[1..][1..] == resolved.calls;
  }

  /** Without a resolver a collision is thrown again unchanged: `add` fails
      with the collision, the store is untouched, and nothing else is
      invoked. */
  lemma AddCollisionWithoutResolver(s: TypedState, key: CacheKey, obj: Value)
    requires Occupied(s, key)
    ensures AddSpec(s, key, obj, None) == Step(Failure(CacheCollisionError), s, [AddCall(key, obj, None)])
  {
    InsertCollidesIffOccupied(s, key, obj);
  }

  /** With the default resolver (ThrowError), a colliding `add` fails with a
      collision and leaves the store as it was. */
  lemma AddCollisionDefault(s: TypedState, key: CacheKey, obj: Value)
    requires Occupied(s, key)
    ensures AddSpec(s, key, obj, Some(DefaultResolver)) ==
      Step(Failure(CacheCollisionError), s, [AddCall(key, obj, Some(DefaultResolver)), ResolveCall(ThrowErrorResolver, key, obj)])
  {
    InsertCollidesIffOccupied(s, key, obj);
  }

  /** KeepOld, invoked on any store: answers `false`, never fails, changes
      nothing, and invokes neither `add` nor `remove`. */
  lemma KeepOldLeavesStore(s: TypedState, key: CacheKey, obj: Value)
    ensures ResolveSpec(s, KeepOldResolver, key, obj) == Step(Success(false), s, [])
  {
  }

  /** ThrowError, invoked on any store: fails with a collision whatever the
      store, key and object, changes nothing, and invokes neither `add` nor
      `remove`. */
  lemma ThrowErrorRefuses(s: TypedState, key: CacheKey, obj: Value, s': TypedState, key': CacheKey, obj': Value)
    ensures ResolveSpec(s, ThrowErrorResolver, key, obj) == Step(Failure(CacheCollisionError), s, [])
    ensures ResolveSpec(s, ThrowErrorResolver, key, obj).result == ResolveSpec(s', ThrowErrorResolver, key', obj').result
  {
  }

  /** KeepNew, invoked on any store (even one where `key` is free): invokes
      `remove(key)` and then `add(key, obj)` with the default resolver, each
      once, answers `true`, and leaves `key` holding `obj` and every other key
      as it was. */
  lemma KeepNewReplaces(s: TypedState, key: CacheKey, obj: Value)
    ensures var step := KeepNewSpec(s, key, obj);
      && step.result == Success(true)
      && step.state == Insert(Remove(s, key), key, obj).value
      && step.calls == [RemoveCall(key), AddCall(key, obj, Some(DefaultResolver))]
      && Fetch(step.state, key) == (if obj == Null then Failure(NotFound) else Success(obj))
    ensures forall other :: other != key ==> Fetch(KeepNewSpec(s, key, obj).state, other) == Fetch(s, other)
  {
    var removed := Remove(s, key);
    RemoveFreesOnlyItsKey(s, key, key);
    AddFreeKey(removed, key, obj, Some(DefaultResolver));
    forall other | other != key
      ensures Fetch(KeepNewSpec(s, key, obj).state, other) == Fetch(s, other)
    {
      RemoveFreesOnlyItsKey(s, key, other);
      InsertLeavesOthers(removed, key, obj, other);
    }
  }

  /** A rejected `add` leaves the store as it was, whatever the resolver. */
  lemma AddFailureLeavesStore(s: TypedState, key: CacheKey, obj: Value, resolver: Option<Resolver>)
    ensures AddSpec(s, key, obj, resolver).result.Failure? ==> AddSpec(s, key, obj, resolver).state == s
  {
    if Occupied(s, key) {
      match resolver
      case None => AddCollisionWithoutResolver(s, key, obj);
      case Some(r) =>
        AddCollisionResolves(s, key, obj, r);
        if r == KeepNewResolver {
          KeepNewReplaces(s, key, obj);
        }
    } else {
      AddFreeKey(s, key, obj, resolver);
    }
  }

  class Cache {
    var defaultCache: KeyToObjectCache
    var typeToCacheMap: map<string, KeyToObjectCache>
    /** The objects this cache is made of: itself and its buckets. */
    ghost var Repr: set<object>
    /** What the buckets hold. */
    ghost var Contents: TypedState

    /** The buckets are valid leaf stores, belong to this cache, are pairwise
        distinct objects (so changing one changes no other), and hold what
        `Contents` says. */
    ghost predicate Valid()
      reads this, Repr
    {
      && this in Repr
      && defaultCache in Repr
      && defaultCache.Valid()
      && Contents.untyped == defaultCache.keyToObjectMap
      && Contents.typed.Keys == typeToCacheMap.Keys
      && (forall t :: t in typeToCacheMap ==>
            && typeToCacheMap[t] in Repr
            && typeToCacheMap[t] != defaultCache
            && typeToCacheMap[t].Valid()
            && Contents.typed[t] == typeToCacheMap[t].keyToObjectMap)
      && (forall t, u :: t in typeToCacheMap && u in typeToCacheMap && t != u ==>
            typeToCacheMap[t] != typeToCacheMap[u])
    }

    constructor ()
      ensures Valid() && fresh(Repr)
      ensures Contents == Empty
    {
      defaultCache := new KeyToObjectCache();
      typeToCacheMap := map[];
      Repr := {this, defaultCache};
      Contents := Empty;
    }

    /** Adds `obj` under `key`; on a collision the resolver (by default
        ThrowError) decides, and its answer is the answer of `add`. `calls`
        is what a spy on `add`, `remove` and `resolve` records meanwhile. */
    method Add(key: CacheKey, obj: Value, resolver: Option<Resolver> := Some(DefaultResolver))
      returns (r: Result<bool>, ghost calls: seq<Call>)
      requires Valid()
      modifies Repr
      decreases Rank(resolver), 3
      ensures Valid() && fresh(Repr - old(Repr))
      ensures Step(r, Contents, calls) == AddSpec(old(Contents), key, obj, resolver)
    {
      ghost var s := Contents;
      var outcome := AddToTypeSpecificCache(key, obj);
      match outcome
      case Pass =>
        r := Success(true);
        calls := [AddCall(key, obj, resolver)];
        assert Insert(s, key, obj).Success?;
      case Fail(e) =>
        assert Insert(s, key, obj) == Failure(e);
        ghost var handled;
        r, handled := HandleErrorOnAddingToCache(e, key, obj, resolver);
        calls := [AddCall(key, obj, resolver)] + handled;
    }

    /** Hands back the object stored under `key` in the bucket of its type;
        rejects when that bucket does not exist or does not hold the key. */
    method Fetch(key: CacheKey) returns (r: Result<Value>)
      requires Valid()
      ensures r == TypedStore.Fetch(Contents, key)
    {
      if key.keyType.None? {
        r := defaultCache.Fetch(key.key);
        return;
      }
      var t := key.keyType.value;
      if t in typeToCacheMap {
        r := typeToCacheMap[t].Fetch(key.key);
      } else {
        r := Failure(NotFound);
      }
    }

    /** Deletes `key` from the bucket of its type, if both exist; never
        creates a bucket. */
    method Remove(key: CacheKey)
      requires Valid()
      modifies Repr
      ensures Valid() && Repr == old(Repr)
      ensures Contents == TypedStore.Remove(old(Contents), key)
    {
      if key.keyType.None? {
        defaultCache.Remove(key.key);
        Contents := Contents.(untyped := defaultCache.keyToObjectMap);
        return;
      }
      var t := key.keyType.value;
      if t in typeToCacheMap {
        RemoveFromBucket(t, typeToCacheMap[t], key.key);
      }
    }

    /** Deletes `k` from `cache`, the bucket of type `t`. */
    method RemoveFromBucket(t: string, cache: KeyToObjectCache, k: string)
      requires Valid() && t in typeToCacheMap && cache == typeToCacheMap[t]
      modifies this, cache
      ensures Valid() && Repr == old(Repr)
      ensures Contents == old(Contents).(typed := old(Contents.typed)[t := old(Contents.typed[t]) - {k}])
    {
      cache.Remove(k);
      Contents := Contents.(typed := Contents.typed[t := cache.keyToObjectMap]);
    }

    /** Adds to the default bucket, or to the bucket of the key's type, which
        is created and registered first when missing. */
    method AddToTypeSpecificCache(key: CacheKey, obj: Value) returns (outcome: Outcome)
      requires Valid()
      modifies Repr
      ensures Valid() && fresh(Repr - old(Repr))
      ensures match Insert(old(Contents), key, obj)
        case Success(inserted) => outcome == Pass && Contents == inserted
        case Failure(e) => outcome == Fail(e) && Contents == old(Contents)
    {
      if key.keyType.None? {
        outcome := defaultCache.Add(key.key, obj);
        if outcome.Pass? {
          Contents := Contents.(untyped := defaultCache.keyToObjectMap);
        }
        return;
      }
      var t := key.keyType.value;
      var cache := TypeCache(t);
      outcome := AddToBucket(t, cache, key.key, obj);
    }

    /** The bucket of type `t`: the registered one, or a new empty one, which
        is registered under `t`. */
    method TypeCache(t: string) returns (cache: KeyToObjectCache)
      requires Valid()
      modifies this
      ensures Valid() && fresh(Repr - old(Repr))
      ensures t in typeToCacheMap && cache == typeToCacheMap[t]
      ensures Contents == WithBucket(old(Contents), t)
    {
      if t in typeToCacheMap {
        cache := typeToCacheMap[t];
        typeToCacheMap := typeToCacheMap[t := cache];
        assert typeToCacheMap == old(typeToCacheMap);
      } else {
        cache := NewBucket(t);
      }
    }

    /** A new empty bucket, registered under the unregistered type `t`. */
    method NewBucket(t: string) returns (cache: KeyToObjectCache)
      requires Valid() && t !in typeToCacheMap
      modifies this
      ensures Valid() && fresh(cache) && Repr == old(Repr) + {cache}
      ensures typeToCacheMap == old(typeToCacheMap)[t := cache]
      ensures Contents == old(Contents).(typed := old(Contents.typed)[t := map[]])
    {
      cache := new KeyToObjectCache();
      Repr := Repr + {cache};
      Contents := Contents.(typed := Contents.typed[t := map[]]);
      typeToCacheMap := typeToCacheMap[t := cache];
    }

    /** Adds `obj` under `k` to `cache`, the bucket of type `t`. */
    method AddToBucket(t: string, cache: KeyToObjectCache, k: string, obj: Value) returns (outcome: Outcome)
      requires Valid() && t in typeToCacheMap && cache == typeToCacheMap[t]
      modifies this, cache
      ensures Valid() && Repr == old(Repr)
      ensures outcome.Fail? <==> k in old(Contents.typed[t])
      ensures outcome.Fail? ==> outcome.error == CacheCollisionError && Contents == old(Contents)
      ensures outcome.Pass? ==>
        Contents == old(Contents).(typed := old(Contents.typed)[t := old(Contents.typed[t])[k := obj]])
    {
      outcome := cache.Add(k, obj);
      if outcome.Pass? {
        Contents := Contents.(typed := Contents.typed[t := cache.keyToObjectMap]);
      }
    }

    /** A collision goes to the resolver when there is one; any other error,
        or a collision with no resolver, is thrown again. */
    method HandleErrorOnAddingToCache(error: Error, key: CacheKey, obj: Value, resolver: Option<Resolver>)
      returns (r: Result<bool>, ghost calls: seq<Call>)
      requires Valid()
      modifies Repr
      decreases Rank(resolver), 2
      ensures Valid() && fresh(Repr - old(Repr))
      ensures Step(r, Contents, calls) == HandleErrorSpec(old(Contents), error, key, obj, resolver)
    {
      if error == CacheCollisionError && resolver.Some? {
        ghost var resolved;
        r, resolved := Resolve(resolver.value, this, key, obj);
        calls := [ResolveCall(resolver.value, key, obj)] + resolved;
      } else {
        r := Failure(error);
        calls := [];
      }
    }
  }

  /** `resolver.resolve(cache, key, obj)`, dispatched on the strategy. */
  method Resolve(resolver: Resolver, cache: Cache, key: CacheKey, obj: Value)
    returns (r: Result<bool>, ghost calls: seq<Call>)
    requires cache.Valid()
    modifies cache.Repr
    decreases Rank(Some(resolver)), 1
    ensures cache.Valid() && fresh(cache.Repr - old(cache.Repr))
    ensures Step(r, cache.Contents, calls) == ResolveSpec(old(cache.Contents), resolver, key, obj)
  {
    calls := [];
    match resolver
    case KeepNewResolver =>
      r, calls := KeepNewResolve(cache, key, obj);
    case KeepOldResolver =>
      r := KeepOldResolve(key, obj);
    case ThrowErrorResolver =>
      r := ThrowErrorResolve(key, obj);
    case CallerSupplied(answer) =>
      r := answer;
  }

  /** KeepNew: removes the stored object, then adds the new one with the
      default resolver, and answers `true`. */
  method KeepNewResolve(cache: Cache, key: CacheKey, obj: Value) returns (r: Result<bool>, ghost calls: seq<Call>)
    requires cache.Valid()
    modifies cache.Repr
    decreases 1, 0
    ensures cache.Valid() && fresh(cache.Repr - old(cache.Repr))
    ensures Step(r, cache.Contents, calls) == KeepNewSpec(old(cache.Contents), key, obj)
  {
    cache.Remove(key);
    var added, addCalls := cache.Add(key, obj);
    calls := [RemoveCall(key)] + addCalls;
    match added
    case Success(_) =>
      r := Success(true);
    case Failure(e) =>
      r := Failure(e);
  }

  /** The same key string, untyped and under a type, does not collide, and
      each fetches its own object; a second untyped add collides under the
      default resolver. */
  method TypedKeysScenario()
  {
    var untyped, typed := CacheKey("k", None), CacheKey("k", Some("t"));
    var cache := new Cache();
    AddFreeKey(cache.Contents, untyped, Obj(1), Some(DefaultResolver));
    var first, c1 := cache.Add(untyped, Obj(1));
    AddFreeKey(cache.Contents, typed, Obj(2), Some(DefaultResolver));
    var second, c2 := cache.Add(typed, Obj(2));
    assert first == Success(true) && second == Success(true);
    AddCollisionDefault(cache.Contents, untyped, Obj(3));
    var refused, c3 := cache.Add(untyped, Obj(3));
    assert refused == Failure(CacheCollisionError);
    var fetchedUntyped := cache.Fetch(untyped);
    var fetchedTyped := cache.Fetch(typed);
    assert fetchedUntyped == Success(Obj(1)) && fetchedTyped == Success(Obj(2));
  }

  /** On a collision KeepOld answers `false` and keeps the stored object. */
  method KeepOldScenario()
  {
    var key := CacheKey("k", Some("t"));
    var cache := new Cache();
    AddFreeKey(cache.Contents, key, Obj(1), Some(DefaultResolver));
    var first, c1 := cache.Add(key, Obj(1));
    AddCollisionResolves(cache.Contents, key, Obj(2), KeepOldResolver);
    var kept, c2 := cache.Add(key, Obj(2), Some(KeepOldResolver));
    var fetched := cache.Fetch(key);
    assert kept == Success(false) && fetched == Success(Obj(1));
  }

  /** On a collision KeepNew answers `true` and replaces the stored object. */
  method KeepNewScenario()
  {
    var key := CacheKey("k", Some("t"));
    var cache := new Cache();
    AddFreeKey(cache.Contents, key, Obj(1), Some(DefaultResolver));
    var first, c1 := cache.Add(key, Obj(1));
    AddCollisionResolves(cache.Contents, key, Obj(3), KeepNewResolver);
    KeepNewReplaces(cache.Contents, key, Obj(3));
    var replaced, c2 := cache.Add(key, Obj(3), Some(KeepNewResolver));
    var fetched := cache.Fetch(key);
    assert replaced == Success(true) && fetched == Success(Obj(3));
  }
}
