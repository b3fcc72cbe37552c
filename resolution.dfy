/**
 * The promise resolution procedure (`resolvePromise`, section 2.3 of the
 * Promises/A+ specification) as a pure function: given the target promise
 * and the value `x` a handler produced, it lists what the procedure does to
 * the target. The runtime method `Runtime.ResolvePromise` is proved to have
 * exactly these effects.
 */
module Resolution {
  import opened Settlement
  import opened Values

  /** One thing the procedure does on behalf of its target promise. */
  datatype Effect<R> =
    | Cycle                      // throws the "chaining cycle" TypeError out of the procedure
    | Fulfil(value: Value<R>)    // calls the target's `resolve`
    | Reject(reason: Value<R>)   // calls the target's `reject`
    | Adopt(source: R)           // calls `source.then(y => resolvePromise(target, y), reject)`

  /**
   * The effects of `resolvePromise(target, x)`, in the order they happen.
   * The self-check comes first; an own promise is followed through its
   * `then`; a foreign object's `then` is read and, when callable, run under
   * the `called` guard; everything else fulfils the target with `x` itself.
   * The procedure does at most one thing to its target; it throws exactly
   * when `x` is the target, and then does nothing else; an own promise it
   * follows is never the target.
   */
  function ResolutionEffects<R(==)>(target: R, x: Value<R>): (effects: seq<Effect<R>>)
    ensures |effects| <= 1
    ensures effects == [Cycle] <==> x.Own? && x.p == target
    ensures forall q :: Adopt(q) in effects ==> q != target
    decreases x, 1
  {
    if x.Own? && x.p == target then [Cycle]
    else match x
      case Own(q) => [Adopt(q)]
      case Obj(ReadThrows(e)) => [Reject(e)]
      case Obj(Callable(_)) => ScriptEffects(target, x, 0, false)
      case _ => [Fulfil(x)]
  }

  /**
   * The effects of a thenable's `then` script from its `k`-th step on, with
   * the shared guard `called` as it stands before that step. The first
   * callback to fire sets the guard; later callbacks return at once. A throw
   * ends the script; the catch around `then.call` rejects only when the guard
   * is still clear. A cycle error thrown by the nested procedure leaves the
   * callback, ends the script, and meets a guard that is already set.
   *
   * Once the guard is set, no later callback or throw has any effect; a
   * script has at most one effect and never lets the cycle error out.
   */
  function ScriptEffects<R(==)>(target: R, thenable: Value<R>, k: nat, called: bool): (effects: seq<Effect<R>>)
    requires thenable.Obj? && thenable.slot.Callable? && k <= |thenable.slot.script|
    ensures called ==> effects == []
    ensures |effects| <= 1
    ensures Cycle !in effects
    ensures forall q :: Adopt(q) in effects ==> q != target
    decreases thenable, 0, |thenable.slot.script| - k
  {
    var script := thenable.slot.script;
    if k == |script| then []
    else match script[k]
      case CallResolve(y) =>
        if called then ScriptEffects(target, thenable, k + 1, true)
        else
          var inner := ResolutionEffects(target, y);
          if inner == [Cycle] then []
          else inner + ScriptEffects(target, thenable, k + 1, true)
      case CallReject(r) =>
        if called then ScriptEffects(target, thenable, k + 1, true)
        else [Reject(r)] + ScriptEffects(target, thenable, k + 1, true)
      case Throw(e) =>
        if called then [] else [Reject(e)]
  }

  /**
   * The `called` guard: among the first callback, the second callback and an
   * exception from `then.call`, only the first to happen has any effect.
   * Whatever the script does after its first step, the procedure does the
   * same as for that first step alone.
   */
  lemma {:induction false} OnlyFirstCallCounts<R>(target: R, first: Action<Value<R>>, rest: seq<Action<Value<R>>>)
    ensures ResolutionEffects(target, Obj(Callable([first] + rest))) == ResolutionEffects(target, Obj(Callable([first])))
  {
    var long: Value<R> := Obj(Callable([first] + rest));
    var short: Value<R> := Obj(Callable([first]));
    assert long.slot.script[0] == first == short.slot.script[0];
  }

  /**
   * A script that never calls back and never throws leaves the target
   * pending; one that throws before any callback rejects it with the thrown
   * value; one whose first step is `rejectPromise(r)` rejects it with `r`.
   */
  lemma {:induction false} ThenableFirstStep<R>(target: R, script: seq<Action<Value<R>>>)
    ensures script == [] ==> ResolutionEffects(target, Obj(Callable(script))) == []
    ensures script != [] && script[0].Throw? ==> ResolutionEffects(target, Obj(Callable(script))) == [Reject(script[0].error)]
    ensures script != [] && script[0].CallReject? ==> ResolutionEffects(target, Obj(Callable(script))) == [Reject(script[0].reason)]
    ensures (script != [] && script[0].CallResolve? && ResolutionEffects(target, script[0].value) != [Cycle])
              ==> ResolutionEffects(target, Obj(Callable(script))) == ResolutionEffects(target, script[0].value)
  {
  }
}
