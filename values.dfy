/** Values shared by every store: what a store holds, how an operation fails,
    and the success/failure wrappers that stand for promises and exceptions. */
module Values {

  /** A stored object. `Null` stands for JavaScript's `null` and `undefined`,
      which a store accepts on `add` but refuses to hand back on `fetch`;
      every other object is identified by an opaque handle. */
  datatype Value = Null | Obj(handle: nat)

  /** The ways an operation fails: a key collision (`CacheCollisionError`),
      or the rejection that `fetch` produces when nothing usable is stored. */
  datatype Error = CacheCollisionError | NotFound

  datatype Option<+T> = None | Some(value: T)

  /** A settled promise, or a call that returns a value or throws. */
  datatype Result<+T> = Success(value: T) | Failure(error: Error)

  /** A call that returns nothing or throws. */
  datatype Outcome = Pass | Fail(error: Error)
}
