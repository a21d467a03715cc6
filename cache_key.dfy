/** The key under which the typed stores file an object. */
module CacheKeys {
  import opened Values

  /** A key string and an optional type. A key without a type lives in the
      store's default bucket; a typed key lives in the bucket of its type.
      The empty string is a type like any other. */
  datatype CacheKey = CacheKey(key: string, keyType: Option<string>)
}
