# A verified model of `myPromise`

`myPromise.js` is a hand-written Promise in the style of the Promises/A+
specification. An instance starts `pending` with payload `null` and two
empty callback queues. It runs its executor synchronously. `resolve` and
`reject` move it out of `pending` at most once; `then` returns a fresh
promise whose settlement is driven, through `setTimeout`, by the handler it
was given and by the promise resolution procedure `resolvePromise` (section
2.3 of the Promises/A+ specification). The class also offers `catch`,
`finally` and the static `resolve`, `reject` and `all`.

The model has five modules:

- `Settlement` (`settlement.dfy`): one instance's state, payload and queues
  as a value (`Cell`), and settling, registering and running an executor as
  functions on it.
- `Values` (`values.dfy`): the JavaScript values the core tells apart. An
  object other than an own promise is described by what reading its `then`
  property gives. A callable `then` is a finite script of calls on its two
  callbacks.
- `Resolution` (`resolution.dfy`): `resolvePromise` as a pure function that
  lists what it does to its target.
- `Combinators` (`combinators.dfy`): the executor `static resolve` builds,
  and the counter and result array of `all`, driven by item settlements in
  any order.
- `Runtime` (`runtime.dfy`): the heap objects. `Promise` has the four fields
  of an instance and methods that update them in place. `Scheduler` is the
  `setTimeout` queue, and `RunNext` is one turn of the event loop.
  `Collector` is the closure state of one `all` call. `ResolvePromise` is the
  resolution procedure as a recursive method. Each method's contract ties
  the new state to the functions of the pure modules.

Where the source departs from Promises/A+ or from the usual Promise
behaviour, the model follows the source:

- Resolving a promise with itself throws the TypeError out of
  `resolvePromise`. When this happens inside a reaction, the reaction's catch
  rejects the derived promise. When it happens inside a thenable's
  `resolvePromise` callback, the exception reaches the catch around
  `then.call`, which sees `called` set and ignores it, so the target stays
  pending. When it happens in the callback registered on an own promise, it
  rejects the promise that inner `then` returned, not the target.
- `static resolve` treats any object with a `then` property as a thenable,
  callable or not. A `then` that is not a function makes the executor throw,
  so the new promise is rejected with a TypeError.
- `all` hands only thenables to `static resolve`. Plain items are stored at
  once, so an array without thenables fulfils the aggregate synchronously.
  The result array starts empty and grows by index.

## Model

| member | source | states |
|---|---|---|
| Settlement.Initial | myPromise.js:10-13 | a new instance is pending with payload `null` and no callbacks |
| Settlement.Settle | myPromise.js:27-54 | only a pending instance changes: it moves to the state of the side called, with the given payload; the queues are left in place |
| Settlement.Released | myPromise.js:38-40 | a settlement runs the whole matching queue, in order, and only when the instance was pending |
| Settlement.Register | myPromise.js:58-119 | `then` on a pending instance appends one reaction to each queue; on a settled instance it schedules exactly the reaction for its state and changes nothing |
| Settlement.SettledIsFinal | myPromise.js:27-54 | once settled, no further `resolve`, `reject` or throw changes the instance |
| Settlement.FirstCallWins | myPromise.js:14-54 | whatever an executor does, the state and payload are those of its first call or throw |
| Settlement.SecondSettlementIsNoOp | myPromise.js:30-32 | a second settlement on either side changes nothing and releases no callback |
| Settlement.RegisterBeforeOrAfterSettle | myPromise.js:56-123 | a reaction registered before the settlement is released after the older ones; one registered after is scheduled on its own; either way it is scheduled exactly once |
| Settlement.Run | myPromise.js:14-24 | running an executor never touches the queues; it leaves the instance as it was only while it stays pending, and any executor that calls or throws at least once settles it |
| Values.CycleError | myPromise.js:208-210 | the cycle error is a TypeError |
| Values.LooksThenable | myPromise.js:166-170 | `x instanceof myPromise || (x instanceof Object && "then" in x)`: only an own promise or an object with a `then` property counts as a thenable; an object without `then` never does |
| Resolution.ResolutionEffects | myPromise.js:205-273 | the procedure has at most one effect on its target; it throws the cycle error exactly when `x` is the target; a promise it follows is never the target |
| Resolution.ScriptEffects | myPromise.js:234-264 | once `called` is set, later callback calls and a later throw have no effect; a thenable's script has at most one effect, never lets the cycle error out, and never follows the target |
| Resolution.OnlyFirstCallCounts | myPromise.js:236-263 | a thenable's `then` has the same effect as its first callback call or throw alone |
| Resolution.ThenableFirstStep | myPromise.js:234-264 | a callable `then` that never calls back leaves the target pending; a throw or `rejectPromise(r)` first rejects it; `resolvePromise(y)` first resolves it as `y` would, unless `y` is the target |
| Combinators.ResolveScript | myPromise.js:129-138 | a value that is not a thenable is resolved with at once; only a callable `then` can leave the executor without a first step |
| Combinators.ResolveScriptOutcome | myPromise.js:125-139 | `static resolve` of a non-promise: a plain value fulfils; a throwing or non-callable `then` rejects; a callable `then` settles as its first step says |
| Combinators.Store | myPromise.js:174-176 | storing an item adds one to the counter and writes exactly that index |
| Combinators.Dense | myPromise.js:158 | the result array has one entry per item; an unwritten index reads as `undefined` |
| Combinators.Feed | myPromise.js:172-183 | once the aggregate is settled, no later item settlement changes it; while it is pending it is the aggregate it started as |
| Combinators.StoreKeepsStarted | myPromise.js:174-176 | storing the value of an item not yet stored keeps one count per written slot, each slot holding its item's value |
| Combinators.FulfilmentsKeepStarted | myPromise.js:172-178 | fulfilments of items not yet stored, in any order, keep that invariant |
| Combinators.FullGatherInInputOrder | myPromise.js:174-177 | once the counter reaches the item count under that invariant, the result array is the items' values in input order |
| Combinators.FulfilmentsFill | myPromise.js:172-178 | fulfilments of distinct items, in any order, fill exactly their slots and leave the aggregate alone while some are missing |
| Combinators.AllFulfilsInInputOrder | myPromise.js:155-195 | from any closure state holding some items' values (none, or the plain items), when every other item fulfils, in any order, the aggregate is fulfilled at the last fulfilment, not before, with the values in input order |
| Combinators.FirstRejectionWins | myPromise.js:179-182 | from any such closure state, the first rejection before completion rejects the aggregate with its reason; nothing later changes it |
| Runtime.Scheduler.Schedule | myPromise.js:60-74 | `setTimeout` puts the job at the end of the queue |
| Runtime.Scheduler.RunNext | myPromise.js:58-120 | running the oldest job: a handler that is not a function passes the payload on; a throwing handler rejects the derived promise; a handler that returns the derived promise rejects it with the cycle error; any other return value resolves it through the resolution procedure; the core's closures act on their promise and fulfil the derived one with `undefined` unless they throw; earlier jobs stay ahead of the ones this turn adds |
| Runtime.Scheduler.RunUserReaction | myPromise.js:58-120 | the same, for a handler that is a user function or not a function |
| Runtime.Scheduler.RunCoreReaction | myPromise.js:58-120 | the same, for the callbacks the resolution procedure and `all` register |
| Runtime.Promise.constructor | myPromise.js:8-25 | the new instance ends as `Run` of its executor from the initial cell (hence `FirstCallWins`); nothing is scheduled |
| Runtime.Promise.Drain | myPromise.js:38-40 | each queued callback is handed to the scheduler, in queue order |
| Runtime.Promise.Resolve | myPromise.js:27-42 | the instance is `Settle`d on the fulfilment side and the released queue is scheduled in order after the jobs already queued |
| Runtime.Promise.Reject | myPromise.js:44-54 | the same on the rejection side |
| Runtime.Promise.Then | myPromise.js:56-123 | returns a fresh pending promise; the instance and the job queue change as `Register` says |
| Runtime.Promise.Catch | myPromise.js:147-149 | is `then` with no fulfilment handler |
| Runtime.Promise.Finally | myPromise.js:151-153 | is `then` with the callback on both sides, so its outcome replaces the payload |
| Runtime.Promise.StaticResolve | myPromise.js:125-139 | an own promise is returned unchanged; anything else gives a fresh promise that runs `ResolveScript` |
| Runtime.Promise.StaticReject | myPromise.js:141-145 | a fresh promise rejected with the reason |
| Runtime.Promise.All | myPromise.js:155-195 | a non-array gives a promise rejected with "Argument is not iterable"; an array without thenables gives one fulfilled with the items in order; otherwise the aggregate stays pending and the jobs already queued stay ahead; for a non-empty array the shared closure state targets the aggregate, expects one value per item, and holds exactly the plain items at their indices |
| Runtime.Collector.constructor | myPromise.js:158-159 | the counter starts at zero and the result array empty |
| Runtime.Collector.Store | myPromise.js:173-177 | the closure state changes as `Combinators.Store` says, and the aggregate is fulfilled with the result array exactly when the counter reaches the item count |
| Runtime.PlainCountBounds | myPromise.js:166-190 | the synchronous count reaches the item count exactly when no item is a thenable |
| Runtime.PlainSlotsCount | myPromise.js:184-189 | the synchronous count is the number of slots written synchronously |
| Runtime.MixedArrayFulfils | myPromise.js:155-195 | for an array mixing plain items and thenables, starting from the state `all` leaves synchronously, the aggregate is fulfilled at the last thenable's fulfilment, not before, with every item's value in input order |
| Runtime.MixedArrayRejects | myPromise.js:166-195 | for such an array, a thenable that rejects before every thenable has fulfilled rejects the aggregate with its reason; nothing later changes it |
| Runtime.ResolvePromise | myPromise.js:205-273 | throws the cycle error exactly when `x` is the target; otherwise does exactly what `ResolutionEffects` lists: fulfils or rejects the target, or registers on the own promise `x`; it changes no other promise |
| Runtime.Invoke | myPromise.js:58-217 | calling a handler (the user handler calls in `then`, `all`'s two closures, the callback of the own-promise branch): a user function returns or throws; the core's closures run the resolution procedure, reject their target, or store into `all`'s result array |
| Runtime.ThenReturningItself | myPromise.js:205-210 | `const q = p.then(() => q)` on a fulfilled `p`: running the job rejects `q` with the cycle TypeError |
| Runtime.ThenReturningThenableOfItself | myPromise.js:236-263 | a handler returning a thenable whose `then` resolves `q` with `q` itself: the cycle error is swallowed under the `called` guard and `q` stays pending with no callbacks |

## Left out

- Timers: `setTimeout` is a FIFO queue of jobs. Delays and wall-clock time are not modelled, nor are jobs that are not promise reactions.
- User code: an executor, a handler or a foreign `then` is given by what it does (a fixed return value, a throw, or a finite synchronous script of callback calls). Side effects on other objects, results that depend on the argument, and callbacks called after `then.call` has returned are not modelled.
- Values: numbers, strings and booleans are one case, `Prim`. Foreign objects are compared by shape, not identity, which matters nowhere the core compares values. Arrays have no holes; the source's `forEach` skips the holes of a sparse array, so its `all` then never fulfils.
- Error objects: a TypeError is represented by its message. The message for a `then` that is not a function comes from the JavaScript engine; the model uses "then is not a function".
- `result` array aliasing: the aggregate of `all` gets the array's contents as a value. Later changes to that array by user code are not modelled.
- Runtime.Scheduler.RunNext: for a user function's return value, the contract is stated when that value existed before the job ran (as any value the function's closure refers to, such as the promise `then` returned, does); a value built from promises created during the job is not covered. For the core's own closures (the callback of the own-promise branch, a bound `reject`, `all`'s store closure), the contract holds only when the job's derived promise is not the promise the closure acts on. That is always so when the derived promise was made by the `then` call that registered the closure, but the model has no global invariant that says so.
- Runtime.Scheduler.RunUserReaction: for a user function's return value, the contract is stated only when that value existed before the job ran, as for `Runtime.Scheduler.RunNext`.
- Runtime.Scheduler.RunCoreReaction: for the core's own closures, the contract holds only when the job's derived promise is not the promise the closure acts on, as for `Runtime.Scheduler.RunNext`.
- Runtime.Promise.All: the contract does not list the reactions registered on each thenable item. It states the closure state they share; what they do from that state on is stated by `Runtime.Invoke`, `Runtime.Collector.Store`, `Runtime.MixedArrayFulfils` and `Runtime.MixedArrayRejects`.
- The `deferred` factory (myPromise.js:276-283), `module.exports` and the demonstration code after it are not part of this model.
