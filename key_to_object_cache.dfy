/** The leaf store: one table from string keys to objects, which remembers the
    order in which its keys were inserted, as a JavaScript `Map` does. */
module KeyToObjectCaching {
  import opened Values

  /** No key occurs twice in `s`. */
  predicate Distinct(s: seq<string>) {
    s == [] || (s[0] !in s[1..] && Distinct(s[1..]))
  }

  /** Appending a key that is not yet listed keeps the keys distinct. */
  lemma {:induction false} DistinctAppend(s: seq<string>, k: string)
    requires Distinct(s) && k !in s
    ensures Distinct(s + [k])
  {
    if s != [] {
      assert (s + [k])[1..] == s[1..] + [k];
      DistinctAppend(s[1..], k);
    }
  }

  /** `s` with `k` taken out and every other key left in its place: what
      deleting `k` does to the iteration order of a `Map`. */
  function Without(s: seq<string>, k: string): (r: seq<string>)
    ensures forall x :: x in r <==> x in s && x != k
    ensures Distinct(s) ==> Distinct(r)
    ensures Distinct(s) && k in s ==> |r| == |s| - 1
    ensures k !in s ==> r == s
  {
    if s == [] then []
    else if s[0] == k then Without(s[1..], k)
    else
      var rest := Without(s[1..], k);
      assert Distinct(s) ==> s[0] !in s[1..];
      [s[0]] + rest
  }

  /** What `fetch` settles to for key `k` over the table `m`: the stored
      object, or a rejection when `k` is absent or holds null/undefined. */
  function Lookup(m: map<string, Value>, k: string): Result<Value> {
    if k in m && m[k] != Null then Success(m[k]) else Failure(NotFound)
  }

  /** After storing `v` under `k`, a lookup of `k` yields `v` (or a rejection
      when `v` is null/undefined), and every other key looks up as before. */
  lemma LookupAfterStore(m: map<string, Value>, k: string, v: Value, other: string)
    ensures Lookup(m[k := v], k) == if v == Null then Failure(NotFound) else Success(v)
    ensures other != k ==> Lookup(m[k := v], other) == Lookup(m, other)
  {
  }

  /** After deleting `k`, a lookup of `k` is rejected and every other key
      looks up as before. */
  lemma LookupAfterDelete(m: map<string, Value>, k: string, other: string)
    ensures Lookup(m - {k}, k) == Failure(NotFound)
    ensures other != k ==> Lookup(m - {k}, other) == Lookup(m, other)
  {
  }

  class KeyToObjectCache {
    var keyToObjectMap: map<string, Value>
    /** The stored keys in the order the `Map` iterates them. */
    var insertionOrder: seq<string>

    /** Every stored key occurs exactly once in the insertion order. */
    ghost predicate Valid()
      reads this
    {
      && Distinct(insertionOrder)
      && (forall k :: k in keyToObjectMap <==> k in insertionOrder)
      && |keyToObjectMap| == |insertionOrder|
    }

    constructor ()
      ensures Valid()
      ensures keyToObjectMap == map[] && insertionOrder == []
    {
      keyToObjectMap := map[];
      insertionOrder := [];
    }

    /** Stores `obj` under a fresh `key`; a key already present, even one that
        holds null/undefined, is a collision and nothing changes. */
    method Add(key: string, obj: Value) returns (outcome: Outcome)
      requires Valid()
      modifies this
      ensures Valid()
      ensures outcome.Fail? <==> key in old(keyToObjectMap)
      ensures outcome.Fail? ==> outcome.error == CacheCollisionError
      ensures outcome.Fail? ==>
        keyToObjectMap == old(keyToObjectMap) && insertionOrder == old(insertionOrder)
      ensures outcome.Pass? ==>
        keyToObjectMap == old(keyToObjectMap)[key := obj] && insertionOrder == old(insertionOrder) + [key]
      ensures outcome.Pass? ==> Size() == old(Size()) + 1
    {
      if key in keyToObjectMap {
        return Fail(CacheCollisionError);
      }
      DistinctAppend(insertionOrder, key);
      keyToObjectMap := keyToObjectMap[key := obj];
      insertionOrder := insertionOrder + [key];
      outcome := Pass;
    }

    /** Hands back the object stored under `key`; rejects when the key is
        absent or holds null/undefined. */
    method Fetch(key: string) returns (r: Result<Value>)
      ensures r.Success? <==> key in keyToObjectMap && keyToObjectMap[key] != Null
      ensures r.Success? ==> r.value == keyToObjectMap[key]
      ensures r.Failure? ==> r.error == NotFound
    {
      var obj := if key in keyToObjectMap then keyToObjectMap[key] else Null;
      if obj == Null {
        return Failure(NotFound);
      }
      r := Success(obj);
    }

    /** Deletes `key` and nothing else; an absent key is a no-op. */
    method Remove(key: string)
      requires Valid()
      modifies this
      ensures Valid()
      ensures keyToObjectMap == old(keyToObjectMap) - {key}
      ensures insertionOrder == Without(old(insertionOrder), key)
      ensures Size() == if key in old(keyToObjectMap) then old(Size()) - 1 else old(Size())
    {
      keyToObjectMap := keyToObjectMap - {key};
      insertionOrder := Without(insertionOrder, key);
    }

    /** The stored keys, each once, in insertion order. */
    function Keys(): (ks: seq<string>)
      reads this
      requires Valid()
      ensures Distinct(ks)
      ensures forall k :: k in ks <==> k in keyToObjectMap
    {
      insertionOrder
    }

    /** The number of stored entries, which is the length of `Keys()`. */
    function Size(): (n: nat)
      reads this
      requires Valid()
      ensures n == |Keys()|
    {
      |keyToObjectMap|
    }
  }

  /** Two keys come back in the order they were added; adding a present key
      collides and leaves its object in place. */
  method AddScenario()
  {
    var cache := new KeyToObjectCache();
    var a := cache.Add("a", Obj(1));
    var b := cache.Add("b", Obj(2));
    assert cache.Keys() == ["a", "b"] && cache.Size() == 2;
    var again := cache.Add("a", Obj(3));
    var fa := cache.Fetch("a");
    assert again == Fail(CacheCollisionError) && fa == Success(Obj(1));
  }

  /** Removing one of two keys leaves the other; removing it again, or
      removing a key never added, is a no-op. */
  method RemoveScenario()
  {
    var cache := new KeyToObjectCache();
    var a := cache.Add("a", Obj(1));
    var b := cache.Add("b", Obj(2));
    cache.Remove("a");
    cache.Remove("a");
    cache.Remove("c");
    assert cache.Keys() == ["b"];
    var fa := cache.Fetch("a");
    var fb := cache.Fetch("b");
    assert fa == Failure(NotFound) && fb == Success(Obj(2));
  }
}
