/** The abstract state of a two-level, typed store and what each of its
    operations does to it. Both typed caches (the current one with resolvers
    and remove, and the earlier one with add and fetch only) are proved
    against these functions. */
module TypedStore {
  import opened Values
  import opened CacheKeys
  import opened KeyToObjectCaching

  /** The default bucket, for keys without a type, and one bucket per type
      that has been added to. */
  datatype TypedState = TypedState(untyped: map<string, Value>, typed: map<string, map<string, Value>>)

  /** A freshly constructed store: an empty default bucket and no type buckets. */
  const Empty := TypedState(map[], map[])

  /** The bucket a key of type `keyType` is routed to, if it exists. */
  function BucketOf(s: TypedState, keyType: Option<string>): Option<map<string, Value>> {
    match keyType
    case None => Some(s.untyped)
    case Some(t) => if t in s.typed then Some(s.typed[t]) else None
  }

  /** Some entry, possibly null/undefined, is stored under `key`. */
  predicate Occupied(s: TypedState, key: CacheKey) {
    match BucketOf(s, key.keyType)
    case None => false
    case Some(bucket) => key.key in bucket
  }

  /** The state with a bucket for type `t`: the existing one, or a new empty
      one registered under `t`. */
  function WithBucket(s: TypedState, t: string): (r: TypedState)
    ensures t in r.typed
  {
    if t in s.typed then s else s.(typed := s.typed[t := map[]])
  }

  /** Adding to the bucket of the key's type: the type's bucket is created
      and registered when missing and then added to; a key already present
      collides. */
  function Insert(s: TypedState, key: CacheKey, obj: Value): Result<TypedState> {
    match key.keyType
    case None =>
      if key.key in s.untyped then Failure(CacheCollisionError)
      else Success(s.(untyped := s.untyped[key.key := obj]))
    case Some(t) =>
      var registered := WithBucket(s, t);
      var bucket := registered.typed[t];
      if key.key in bucket then Failure(CacheCollisionError)
      else Success(registered.(typed := registered.typed[t := bucket[key.key := obj]]))
  }

  /** Fetching: a missing type bucket rejects, otherwise the bucket decides. */
  function Fetch(s: TypedState, key: CacheKey): Result<Value> {
    match BucketOf(s, key.keyType)
    case None => Failure(NotFound)
    case Some(bucket) => Lookup(bucket, key.key)
  }

  /** Removing: deletes from the routed bucket; a missing type bucket, or a
      key absent from its bucket, leaves everything as it was. */
  function Remove(s: TypedState, key: CacheKey): TypedState {
    match key.keyType
    case None => s.(untyped := s.untyped - {key.key})
    case Some(t) =>
      if t in s.typed then s.(typed := s.typed[t := s.typed[t] - {key.key}]) else s
  }

  /** An insert fails exactly when the key is occupied, and then with a
      collision. */
  lemma InsertCollidesIffOccupied(s: TypedState, key: CacheKey, obj: Value)
    ensures Insert(s, key, obj).Failure? <==> Occupied(s, key)
    ensures Insert(s, key, obj).Failure? ==> Insert(s, key, obj).error == CacheCollisionError
  {
  }

  /** Round trip: after inserting `obj` under a free key, fetching that key
      hands back `obj` (a null/undefined object is refused), and the key is
      now occupied. */
  lemma FetchAfterInsert(s: TypedState, key: CacheKey, obj: Value)
    requires !Occupied(s, key)
    ensures Insert(s, key, obj).Success?
    ensures Occupied(Insert(s, key, obj).value, key)
    ensures Fetch(Insert(s, key, obj).value, key) == if obj == Null then Failure(NotFound) else Success(obj)
  {
  }

  /** Isolation: inserting under one key changes neither what any other key
      fetches nor whether it is occupied, whether the other key differs in its
      string, in its type, or in having a type at all. */
  lemma InsertLeavesOthers(s: TypedState, key: CacheKey, obj: Value, other: CacheKey)
    requires !Occupied(s, key) && other != key
    ensures Fetch(Insert(s, key, obj).value, other) == Fetch(s, other)
    ensures Occupied(Insert(s, key, obj).value, other) == Occupied(s, other)
  {
  }

  /** Buckets: an insert adds the bucket of the key's type if it was missing,
      keeps every existing bucket's entries, and adds none other. */
  lemma InsertCreatesOnlyItsBucket(s: TypedState, key: CacheKey, obj: Value)
    requires !Occupied(s, key)
    ensures Insert(s, key, obj).value.typed.Keys ==
      s.typed.Keys + (if key.keyType.Some? then {key.keyType.value} else {})
    ensures forall t :: t in s.typed && Some(t) != key.keyType ==>
      Insert(s, key, obj).value.typed[t] == s.typed[t]
    ensures forall t :: t in s.typed && Some(t) == key.keyType ==>
      Insert(s, key, obj).value.typed[t] == s.typed[t][key.key := obj]
  {
  }

  /** After a remove, the key is free and fetching it is rejected; every other
      key fetches as before; no bucket is created. */
  lemma RemoveFreesOnlyItsKey(s: TypedState, key: CacheKey, other: CacheKey)
    ensures !Occupied(Remove(s, key), key)
    ensures Fetch(Remove(s, key), key) == Failure(NotFound)
    ensures other != key ==> Fetch(Remove(s, key), other) == Fetch(s, other)
    ensures other != key ==> Occupied(Remove(s, key), other) == Occupied(s, other)
    ensures Remove(s, key).typed.Keys == s.typed.Keys
  {
  }

  /** Removing a key that is not stored, including one whose type has no
      bucket, changes nothing. */
  lemma RemoveAbsentIsNoOp(s: TypedState, key: CacheKey)
    requires !Occupied(s, key)
    ensures Remove(s, key) == s
  {
    match key.keyType
    case None =>
      assert s.untyped - {key.key} == s.untyped;
    case Some(t) =>
      if t in s.typed {
        assert s.typed[t] - {key.key} == s.typed[t];
        assert s.typed[t := s.typed[t]] == s.typed;
      }
  }

  /** Whatever the state, fetching is rejected unless the key is occupied by
      an object that is not null/undefined, and otherwise yields that object. */
  lemma FetchSucceedsIffStored(s: TypedState, key: CacheKey)
    ensures Fetch(s, key).Success? <==>
      Occupied(s, key) && BucketOf(s, key.keyType).value[key.key] != Null
    ensures Fetch(s, key).Success? ==> Fetch(s, key).value == BucketOf(s, key.keyType).value[key.key]
    ensures Fetch(s, key).Failure? ==> Fetch(s, key).error == NotFound
  {
  }
}
