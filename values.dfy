/**
 * The JavaScript values the promise core inspects.
 *
 * Instead of reflecting on a dynamic value (`typeof`, `instanceof`,
 * `"then" in x`, a property read that may throw) the model names each case
 * the core distinguishes. A foreign object is described only by what reading
 * its `then` property yields; a callable `then` is a finite script of calls
 * on the two callbacks it is handed. `R` is the type of references to the
 * core's own promise instances.
 */
module Values {
  import opened Settlement

  datatype Value<R> =
    | Undefined
    | Null
    | Prim(n: int)                 // numbers, strings, booleans: anything that is not an object
    | Own(p: R)                    // an instance of the promise class itself
    | Obj(slot: ThenSlot<R>)       // any other object or function
    | Arr(elems: seq<Value<R>>)    // an array (the argument and the result of `all`)
    | TypeErr(msg: string)         // a TypeError raised by the core

  /** What reading `x.then` on a foreign object gives. */
  datatype ThenSlot<R> =
    | Absent                                    // no `then` property
    | ReadThrows(error: Value<R>)               // the read itself throws
    | NotCallable                               // present, but not a function
    | Callable(script: seq<Action<Value<R>>>)   // a function, run as this script

  const CycleMessage: string := "Chaining cycle detected for promise"
  const NotIterableMessage: string := "Argument is not iterable"
  const NotFunctionMessage: string := "then is not a function"

  /** The reason `resolvePromise` throws when a promise is resolved with itself. */
  function CycleError<R>(): (e: Value<R>)
    ensures e.TypeErr?
  {
    TypeErr(CycleMessage)
  }

  /**
   * `x instanceof myPromise || (x instanceof Object && "then" in x)`: the
   * test `static resolve` and `all` use to treat a value as a promise.
   */
  predicate LooksThenable<R>(x: Value<R>): (b: bool)
    ensures b ==> x.Own? || x.Obj?
    ensures x.Obj? && x.slot.Absent? ==> !b
  {
    x.Own? || (x.Obj? && !x.slot.Absent?)
  }
}
