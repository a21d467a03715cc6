/** The original cache: a single table from string keys to objects, with
    `add` and `fetch` only. */
module OriginalCache {
  import opened Values

  class Cache {
    var keyToObjectMap: map<string, Value>

    constructor ()
      ensures keyToObjectMap == map[]
    {
      keyToObjectMap := map[];
    }

    /** Stores `obj` under a fresh `key`; a key already present, even one that
        holds null/undefined, is a collision and nothing changes. */
    method Add(key: string, obj: Value) returns (outcome: Outcome)
      modifies this
      ensures outcome.Fail? <==> key in old(keyToObjectMap)
      ensures outcome.Fail? ==> outcome.error == CacheCollisionError && keyToObjectMap == old(keyToObjectMap)
      ensures outcome.Pass? ==> keyToObjectMap == old(keyToObjectMap)[key := obj]
    {
      if key in keyToObjectMap {
        return Fail(CacheCollisionError);
      }
      keyToObjectMap := keyToObjectMap[key := obj];
      outcome := Pass;
    }

    /** Hands back the object stored under `key`; rejects when the key is
        absent or holds null/undefined. */
    method Fetch(key: string) returns (r: Result<Value>)
      ensures r.Success? <==> key in keyToObjectMap && keyToObjectMap[key] != Null
      ensures r.Success? ==> r.value == keyToObjectMap[key]
      ensures r.Failure? ==> r.error == NotFound
    {
      var obj := if key in keyToObjectMap then keyToObjectMap[key] else Null;
      if obj == Null {
        return Failure(NotFound);
      }
      r := Success(obj);
    }
  }

  /** A fresh key fetches back what was stored under it; a second add of the
      key collides and leaves the first object in place; a key never added,
      or one that holds null/undefined, is rejected yet still collides. */
  method AddFetchScenario()
  {
    var cache := new Cache();
    var first := cache.Add("k", Obj(1));
    var again := cache.Add("k", Obj(2));
    var fetched := cache.Fetch("k");
    assert first == Pass && again == Fail(CacheCollisionError) && fetched == Success(Obj(1));
    var missing := cache.Fetch("other");
    assert missing == Failure(NotFound);
    var empty := cache.Add("null", Null);
    var fetchedNull := cache.Fetch("null");
    var blocked := cache.Add("null", Obj(3));
    assert empty == Pass && fetchedNull == Failure(NotFound) && blocked.Fail?;
  }
}
