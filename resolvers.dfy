/** Collision-resolution strategies for the typed cache, whose keys are
    `CacheKey`s. The strategy that replaces the stored object calls back into
    the cache, so its body lives beside the cache (`Caching.KeepNewResolve`);
    the two that leave the cache alone are plain functions here. */
module Resolvers {
  import opened Values
  import opened CacheKeys

  /** The strategies `add` can be given. A caller-supplied resolver stands for
      one written by the caller that leaves the cache alone and settles with a
      fixed answer. */
  datatype Resolver =
    | KeepNewResolver
    | KeepOldResolver
    | ThrowErrorResolver
    | CallerSupplied(answer: Result<bool>)

  /** The resolver `add` falls back to when it is given none. */
  const DefaultResolver := ThrowErrorResolver

  /** Keeps the object already stored and answers `false`, whatever the
      cache, key and object. */
  function KeepOldResolve(key: CacheKey, obj: Value): Result<bool> {
    Success(false)
  }

  /** Refuses the collision with a `CacheCollisionError`, whatever the cache,
      key and object. */
  function ThrowErrorResolve(key: CacheKey, obj: Value): Result<bool> {
    Failure(CacheCollisionError)
  }
}
