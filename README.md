# divisa key→object stores, modelled in Dafny

This project models the store family of the divisa object cache.

- **The leaf store** (`KeyToObjectCache`) is one JavaScript `Map` from string keys to objects. `add` refuses a key that is already present. `fetch` rejects absent keys and keys that hold null/undefined. `remove` is a no-op on absent keys. `keys` lists the keys in insertion order, and `size` counts them.
- **The typed cache** (`src/caching/cache.ts`) routes a `CacheKey { key, type? }` to one of two places:
  - a default leaf store, for keys without a type;
  - one leaf store per type, created the first time something is added under that type.

  Its `add` hands a collision to a resolver strategy and answers what the strategy answers. `fetch` and `remove` never create a bucket.
- **The resolver strategies** come in two versions: for `CacheKey`s and for plain strings ("within cache").
  - KeepNew calls `remove` and then `add`, and answers `true`.
  - KeepOld answers `false`.
  - ThrowError fails with a collision error. It is the default resolver.
- **The two earlier stores**: the earlier typed cache (`src/cache/cache.ts`: `add`/`fetch` with the type passed beside the key) and the original single-table cache (`src/cache.ts`).

Layout:

- `values.dfy` holds objects (`Null` stands for null/undefined, `Obj(handle)` for any other object), error kinds, `Result` and `Outcome`.
- `cache_key.dfy` holds `CacheKey`.
- `key_to_object_cache.dfy` holds the leaf store. It is a class whose fields are the map and its insertion order.
- `typed_store.dfy` holds the abstract two-level state and what `add`, `fetch` and `remove` do to it. Both typed caches are proved against it.
- `resolvers.dfy` and `caching.dfy` hold the current typed cache and its strategies.
  - The cache's `add` and KeepNew's `resolve` call each other, so they share a module.
  - Their combined behaviour is given by the mutually recursive functions `AddSpec`, `HandleErrorSpec`, `ResolveSpec` and `KeepNewSpec`.
  - These functions also give the sequence of `add`/`remove`/`resolve` invocations that the repository's tests observe with spies. The methods return that sequence as a ghost output.
- `within_cache_resolvers.dfy`, `typed_cache.dfy` and `original_cache.dfy` hold the string-keyed strategies and the two earlier stores.

Rejections are modelled as `Failure(NotFound)` or `Failure(CacheCollisionError)`. A thrown exception is `Fail(e)` of an `Outcome` for methods that return nothing, and `Failure(e)` of a `Result` otherwise. A promise that settles is a `Result`. Method contracts describe the state once the returned promise has settled.

## Model

| member | source | states |
|---|---|---|
| KeyToObjectCaching.KeyToObjectCache.constructor | src/caching/keyToObjectCache.ts:7-9 | a new store holds no entries and lists no keys |
| KeyToObjectCaching.KeyToObjectCache.Add | src/caching/keyToObjectCache.ts:11-16 | fails with a collision exactly when the key is already present, even if it holds null/undefined, and then changes nothing; otherwise stores the object, appends the key to the insertion order and grows the size by one; keys stay listed once each |
| KeyToObjectCaching.KeyToObjectCache.Fetch | src/caching/keyToObjectCache.ts:18-26 | succeeds exactly when the key is present and does not hold null/undefined, with the stored object; otherwise rejects |
| KeyToObjectCaching.KeyToObjectCache.Remove | src/caching/keyToObjectCache.ts:28-30 | deletes exactly that key (an absent key changes nothing), drops it from the insertion order with the other keys kept in place, and shrinks the size by one exactly when it was present |
| KeyToObjectCaching.KeyToObjectCache.Keys | src/caching/keyToObjectCache.ts:32-34 | lists every stored key and nothing else, each exactly once |
| KeyToObjectCaching.KeyToObjectCache.Size | src/caching/keyToObjectCache.ts:36-38 | the number of entries equals the length of the key list |
| KeyToObjectCaching.Lookup | src/caching/keyToObjectCache.ts:18-26 | reference definition of what `fetch` settles to over a table: the stored object, or a rejection for an absent key or null/undefined; its properties are `LookupAfterStore` and `LookupAfterDelete` |
| KeyToObjectCaching.Without | src/caching/keyToObjectCache.ts:29 | deleting a key from a `Map`'s iteration order removes that key and only it, keeps the order duplicate-free, shortens it by one when the key was there, and leaves it untouched otherwise |
| KeyToObjectCaching.DistinctAppend | src/caching/keyToObjectCache.ts:15 | setting a key that is not present appends it to the iteration order without creating a duplicate |
| KeyToObjectCaching.LookupAfterStore | src/caching/keyToObjectCache.ts:18-26 | after storing under a key, fetching that key yields the object (null/undefined is rejected) and every other key fetches as before |
| KeyToObjectCaching.LookupAfterDelete | src/caching/keyToObjectCache.ts:28-30 | after deleting a key, fetching it is rejected and every other key fetches as before |
| TypedStore.WithBucket | src/caching/cache.ts:58-60 | looking up or creating the bucket of a type always leaves that type registered |
| TypedStore.Insert | src/caching/cache.ts:52-63 | reference definition of adding to the routed bucket (creating a type's bucket when missing), shared by both typed caches; its properties are the `Insert…` and `FetchAfterInsert` lemmas |
| TypedStore.Fetch | src/caching/cache.ts:27-38 | reference definition of fetching from the routed bucket, rejecting for an unregistered type; its properties are `FetchSucceedsIffStored` and the round-trip lemmas |
| TypedStore.Remove | src/caching/cache.ts:40-50 | reference definition of removing from the routed bucket without creating one; its properties are `RemoveFreesOnlyItsKey` and `RemoveAbsentIsNoOp` |
| TypedStore.InsertCollidesIffOccupied | src/caching/cache.ts:52-63 | adding to the routed bucket fails exactly when the key is already occupied there, and then with a collision |
| TypedStore.FetchAfterInsert | src/caching/cache.ts:27-38 | after adding under a free key, that key is occupied and fetching it yields the object (null/undefined is rejected) |
| TypedStore.InsertLeavesOthers | src/caching/cache.ts:52-63 | adding under one key changes neither the fetch result nor the occupancy of any other key, including the same string with another type or without one |
| TypedStore.InsertCreatesOnlyItsBucket | src/caching/cache.ts:58-62 | an add creates the bucket of its own type when missing and no other, and leaves every other bucket's entries unchanged |
| TypedStore.RemoveFreesOnlyItsKey | src/caching/cache.ts:40-50 | after a remove the key is free and fetching it is rejected, every other key is unaffected, and no bucket is created |
| TypedStore.RemoveAbsentIsNoOp | src/caching/cache.ts:46-49 | removing a key that is not stored, or whose type has no bucket, leaves the store unchanged |
| TypedStore.FetchSucceedsIffStored | src/caching/cache.ts:27-38 | a fetch succeeds exactly when the key is occupied by something other than null/undefined, yields that object, and otherwise rejects with not-found |
| Caching.Cache.constructor | src/caching/cache.ts:13-16 | a new cache has an empty default bucket and no type buckets |
| Caching.Cache.Add | src/caching/cache.ts:18-25 | the answer, the new contents and the invocations made all equal those of the add specification, with ThrowError as the default resolver |
| Caching.Cache.Fetch | src/caching/cache.ts:27-38 | the answer is the typed-store fetch of the current contents: default bucket for untyped keys, rejection for an unregistered type |
| Caching.Cache.Remove | src/caching/cache.ts:40-50 | the new contents are the typed-store remove of the old ones; no bucket is created |
| Caching.Cache.RemoveFromBucket | src/caching/cache.ts:46-49 | deletes the key from its type's bucket only |
| Caching.Cache.AddToTypeSpecificCache | src/caching/cache.ts:52-63 | succeeds with exactly the typed-store insert's new contents, or fails with its collision leaving the contents as they were |
| Caching.Cache.TypeCache | src/caching/cache.ts:58-60 | hands back the bucket registered for the type, creating and registering an empty one only when missing |
| Caching.Cache.NewBucket | src/caching/cache.ts:59-60 | registers a fresh empty bucket under an unregistered type, changing no other bucket |
| Caching.Cache.AddToBucket | src/caching/cache.ts:62 | adds to the type's bucket, colliding exactly when the key is already there, and changes no other bucket |
| Caching.Cache.HandleErrorOnAddingToCache | src/caching/cache.ts:65-75 | a collision with a resolver is handed to that resolver once and its answer returned; any other case is thrown again with the store untouched |
| Caching.Resolve | src/caching/cache.ts:71 | dispatching `resolve` has exactly the effect, answer and invocations of the chosen strategy's specification |
| Caching.KeepNewResolve | src/resolvers/keepNewResolver.ts:6-11 | its answer, new contents and invocations (remove, then add with the default resolver) are those of the KeepNew specification |
| Caching.AddSpec | src/caching/cache.ts:18-25 | reference definition of `add`: answer, resulting state and invocations; its properties are `AddFreeKey`, the `AddCollision…` lemmas and `AddFailureLeavesStore` |
| Caching.HandleErrorSpec | src/caching/cache.ts:65-75 | reference definition of the error handler: a collision with a resolver goes to `resolve`, anything else is thrown again |
| Caching.ResolveSpec | src/caching/cache.ts:71 | reference definition of what each strategy does once invoked; its properties are `KeepOldLeavesStore`, `ThrowErrorRefuses` and `KeepNewReplaces` |
| Caching.KeepNewSpec | src/resolvers/keepNewResolver.ts:6-11 | reference definition of KeepNew: `remove`, then `add` with the default resolver, answering `true` unless that add fails; its properties are `KeepNewReplaces` |
| Resolvers.KeepOldResolve | src/resolvers/keepOldResolver.ts:6-8 | KeepOld's answer, `false`, for any key and object; stated with the store by `KeepOldLeavesStore` |
| Resolvers.ThrowErrorResolve | src/resolvers/throwErrorResolver.ts:7-9 | ThrowError's answer, a collision failure, for any key and object; stated with the store by `Caching.ThrowErrorRefuses` |
| Caching.ResolveCount | src/caching/cache.test.ts:134-222 | counts the `resolve` invocations in a call sequence; zero exactly when none occurs |
| Caching.AddFreeKey | src/caching/cache.ts:18-21 | adding under a free key answers `true`, stores the object, invokes no resolver, and a later fetch yields the object |
| Caching.AddCollisionResolves | src/caching/cache.ts:22-24 | on a collision, `resolve` is invoked exactly once, right after `add`, with the same key and object, and `add` answers and leaves the store as the resolver does |
| Caching.AddCollisionWithoutResolver | src/caching/cache.ts:70-74 | without a resolver a collision is thrown again, the store is untouched and nothing else is invoked |
| Caching.AddCollisionDefault | src/caching/cache.ts:18 | with the default resolver a colliding add invokes ThrowError and fails with a collision, leaving the store as it was |
| Caching.KeepOldLeavesStore | src/resolvers/keepOldResolver.ts:6-8 | KeepOld answers `false`, changes nothing and invokes neither `add` nor `remove` |
| Caching.ThrowErrorRefuses | src/resolvers/throwErrorResolver.ts:7-9 | ThrowError fails with a collision whatever it is handed, changes nothing and invokes neither `add` nor `remove` |
| Caching.KeepNewReplaces | src/resolvers/keepNewResolver.ts:6-11 | KeepNew invokes `remove(key)` then `add(key, obj)` once each, answers `true`, leaves the key holding the new object and every other key as it was, even when the key was free |
| Caching.AddFailureLeavesStore | src/caching/cache.ts:18-25 | a rejected add leaves the store as it was, whatever the resolver |
| WithinCacheResolvers.KeepNewResolve | src/resolvers/withinCache/keepNewResolver.ts:5-10 | invokes `remove(key)` then `add(key, obj)`, answers `true`, leaves the key holding the new object with every other entry unchanged, and moves the key to the end of the insertion order |
| WithinCacheResolvers.Resolve | src/resolvers/withinCache/keepOldResolver.ts:5-7 | KeepOld answers `false` and ThrowError fails with a collision, both without touching the store or invoking it; KeepNew invokes `remove(key)` then `add(key, obj)`, answers `true`, leaves the key holding the new object and moves it to the end of the insertion order |
| WithinCacheResolvers.KeepOldResolve | src/resolvers/withinCache/keepOldResolver.ts:5-7 | the string-keyed KeepOld's answer, `false`, for any key and object; stated with the store by `WithinCacheResolvers.Resolve` |
| WithinCacheResolvers.ThrowErrorResolve | src/resolvers/withinCache/throwErrorResolver.ts:6-8 | the string-keyed ThrowError's answer, a collision failure; its independence from its inputs is `WithinCacheResolvers.ThrowErrorRefuses` |
| WithinCacheResolvers.ThrowErrorRefuses | src/resolvers/withinCache/throwErrorResolver.ts:6-8 | the string-keyed ThrowError fails with a collision whatever key and object it is handed |
| TypedCache.Cache.constructor | src/cache/cache.ts:8-11 | a new cache has an empty default bucket and no type buckets |
| TypedCache.Cache.Add | src/cache/cache.ts:13-24 | succeeds with exactly the typed-store insert's new contents (a type's bucket created on first use), or throws its collision leaving the contents as they were |
| TypedCache.Cache.NewBucket | src/cache/cache.ts:19-21 | registers a fresh empty bucket under an unregistered type |
| TypedCache.Cache.AddToBucket | src/cache/cache.ts:23 | adds to the type's bucket, colliding exactly when the key is already there |
| TypedCache.Cache.Fetch | src/cache/cache.ts:26-37 | the answer is the typed-store fetch for the key and optional type |
| OriginalCache.Cache.constructor | src/cache.ts:7-9 | a new cache holds no entries |
| OriginalCache.Cache.Add | src/cache.ts:11-16 | fails with a collision exactly when the key is present, changing nothing; otherwise stores the object |
| OriginalCache.Cache.Fetch | src/cache.ts:18-26 | succeeds exactly when the key holds something other than null/undefined, with that object; otherwise rejects |

## Left out

- Error messages. Errors are modelled by kind only: collision and not-found.
- Promises and `async`. An `async` resolver that throws is a rejected promise; it is modelled as a `Failure` result.
  - `fetch` rejects with a plain string, not with an error object. That rejection is modelled as `NotFound`.
  - `Cache.add` in `src/caching/cache.ts` returns the resolver's answer. KeepNew's inner `await`s on synchronous calls are sequential steps.
  - Interleaving is not modelled. KeepNew's `add` (src/resolvers/keepNewResolver.ts:8) runs only after its first `await` yields, and by then `Cache.add` has already returned a pending promise. A caller that does not wait for it sees the key removed but not yet re-added, so a `fetch` then rejects. The contracts describe only the settled state.
  - `src/errors/keyNotFoundError.ts` declares a `KeyNotFoundError`, but no code modelled here throws it. `fetch` rejects with a plain string (src/caching/keyToObjectCache.ts:22, src/caching/cache.ts:36), and the model follows the code.
- Caller-supplied resolvers are modelled as `CallerSupplied(answer)`. This is a strategy with a fixed answer that does not touch the cache. Arbitrary caller code is not modelled.
- `Caching.Cache.HandleErrorOnAddingToCache`: the non-collision branch (src/caching/cache.ts:73) is modelled but cannot be reached in the model, because type names that clash with `Map`/`Object` prototype members are not modelled (see the `typeToCacheMap` entry below). In the source such a type makes `add` throw a `TypeError`, which this branch throws again.
- Null/undefined keys and types. `isNullOrUndefined(key.type)` is modelled as the type being absent. A present but empty type string is a type like any other.
- `typeToCacheMap` is indexed like a plain JavaScript object (`map[type]`) while being declared as a `Map`. It is modelled as a map from type strings to buckets. Re-assigning an existing bucket to its own type is a no-op.
  - Not modelled: a type named after a prototype member of `Map` or `Object`, such as `get`, `set`, `constructor` or `size`. For such a type, `this.typeToCacheMap[key.type]` (src/caching/cache.ts:59) finds that member instead of a bucket, so no bucket is created and `cache.add` at line 62 throws a `TypeError`. For `size`, in strict-mode code, the assignment at line 60 already throws, because it targets a getter-only property. The same holds for `src/cache/cache.ts:20-23`. The model treats every type string as an ordinary bucket name.
- `WithinCacheResolvers.KeepNewResolve`: the source hands the string-keyed strategies a `CacheKey`-typed cache and a plain string. The model runs them against the string-keyed leaf store, which is what their `add(key, obj)`/`remove(key)` calls are written for.
- The sequence of spied calls is a ghost output of the methods. It follows the specification functions and is not a heap object.
- `src/cache/keyToObjectCache.ts` is not part of this model. The earlier typed cache is modelled over the leaf store of `src/caching/keyToObjectCache.ts`.
- These are not modelled:
  - the partition federation (partitions, key→partition index, change feeds and origin ids);
  - size accounting and per-object metadata;
  - the unique-id generation in `cacheKey.ts`;
  - the between-caches resolver hook;
  - interface-only files;
  - static strategy registries other than the default resolver.

  None of these appears in the store and resolver code modelled here.
- `getKeysByTypes` is declared by the partition interface and exercised by the typed cache's tests, but `src/caching/cache.ts` has no implementation of it, so it is not modelled.
