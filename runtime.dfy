/**
 * The promise class and its scheduler as heap objects.
 *
 * `Promise` has the four fields of a `myPromise` instance and updates them
 * in place; `Scheduler` is the timer queue `setTimeout` appends to, and
 * `RunNext` is one turn of the event loop; `Collector` is the closure state
 * of one `all` call. Every method is proved against the pure functions of
 * `Settlement`, `Resolution` and `Combinators`.
 *
 * The functions a program hands to `then` are given as `Handler` values:
 * a user function is described by what its call does (returns a value or
 * throws one); the value it returns may be built from the promise the
 * registering `then` call returned, which a closure can refer to (as in
 * `const q = p.then(() => q)`), and the closures the core itself passes to `then` (in the
 * resolution procedure and in `all`) are named cases whose effect the model
 * carries out.
 */
module Runtime {
  import opened Settlement
  import opened Values
  import opened Resolution
  import opened Combinators

  datatype Option<T> = None | Some(value: T)

  /** A JavaScript value whose own promises are `Promise` objects. */
  type JsValue = Value<Promise>

  /** What is passed to `then` as `onFulfilled` or `onRejected`. */
  datatype Handler =
    | NotFunction                            // `typeof h !== "function"` (undefined, a number, ...)
    | Returns(result: Promise -> JsValue)    // a user function whose call returns `result(d)`, `d` the promise its `then` returned
    | Throws(error: JsValue)                 // a user function whose call throws `error`
    | FollowInto(target: Promise)            // `y => resolvePromise(target, y, ...)`, the own-promise branch
    | RejectInto(target: Promise)            // the bound `reject` of `target`
    | StoreAt(gather: Collector, index: nat) // the fulfilment closure `all` registers for one item

  /** One entry of `onFulfilledCallbacks`/`onRejectedCallbacks`: the promise `then` returned and the handler for that side. */
  datatype Reaction = Reaction(derived: Promise, handler: Handler)

  /** A job handed to `setTimeout`: run `reaction` with the payload `source` settled with on `side`. */
  datatype Task = Task(source: Promise, side: Side, reaction: Reaction)

  /** How a handler call ends. */
  datatype Completion = Returned(value: JsValue) | Threw(error: JsValue)

  /** The jobs a settlement schedules for the callbacks it releases, in queue order. */
  function AsTasks(source: Promise, side: Side, reactions: seq<Reaction>): seq<Task>
  {
    seq(|reactions|, i requires 0 <= i < |reactions| => Task(source, side, reactions[i]))
  }

  /** The timer queue: `setTimeout` appends, the event loop takes from the front. */
  class Scheduler {
    var tasks: seq<Task>

    constructor()
      ensures tasks == []
    {
      tasks := [];
    }

    /** `setTimeout(job)`. */
    method Schedule(t: Task)
      modifies this
      ensures tasks == old(tasks) + [t]
    {
      tasks := tasks + [t];
    }

    /**
     * One turn of the event loop: take the oldest job and run the wrapper
     * `then` built around the handler. A handler that is not a function
     * passes the payload on; otherwise its result goes through the
     * resolution procedure for the derived promise, and whatever it throws,
     * the resolution procedure's cycle error included, rejects that promise.
     */
    method RunNext() returns (ghost follower: Promise?)
      requires tasks != []
      modifies this, TaskFootprint(tasks[0])
      ensures Reacted(this, old(tasks[0]), old(tasks[0].source.result), follower, old(tasks[1..]))
    {
      var h := tasks[0].reaction.handler;
      if h.NotFunction? || h.Returns? || h.Throws? {
        follower := RunUserReaction();
      } else {
        follower := RunCoreReaction();
      }
    }

    /** `RunNext` for a job whose handler is a user function or not a function at all. */
    method RunUserReaction() returns (ghost follower: Promise?)
      requires tasks != []
      requires tasks[0].reaction.handler.NotFunction? || tasks[0].reaction.handler.Returns? || tasks[0].reaction.handler.Throws?
      modifies this, TaskFootprint(tasks[0])
      ensures Reacted(this, old(tasks[0]), old(tasks[0].source.result), follower, old(tasks[1..]))
    {
      var t := tasks[0];
      // whether the handler's return value was there before this turn
      ghost var existing := t.reaction.handler.Returns? && allocated(t.reaction.handler.result(t.reaction.derived));
      tasks := tasks[1..];
      var a := t.source.result;
      var d := t.reaction.derived;
      follower := null;
      match t.reaction.handler
      case NotFunction =>
        if t.side == Fulfilment {
          d.Resolve(this, a);
        } else {
          d.Reject(this, a);
        }
      case Throws(e) =>
        d.Reject(this, e);
      case Returns(f) =>
        var x := f(d);
        var thrown;
        thrown, follower := ResolvePromise(this, d, x);
        if existing {
          // what the resolution procedure did, restated against the state before this turn
          assert AppliedCells(d, ResolutionEffects(d, x), follower);
        }
        if thrown.Some? {
          d.Reject(this, thrown.value);
        }
    }

    /** `RunNext` for a job whose handler is one of the core's own closures; each returns `undefined` unless it throws. */
    method RunCoreReaction() returns (ghost follower: Promise?)
      requires tasks != []
      requires !(tasks[0].reaction.handler.NotFunction? || tasks[0].reaction.handler.Returns? || tasks[0].reaction.handler.Throws?)
      modifies this, TaskFootprint(tasks[0])
      ensures Reacted(this, old(tasks[0]), old(tasks[0].source.result), follower, old(tasks[1..]))
    {
      var t := tasks[0];
      tasks := tasks[1..];
      var a := t.source.result;
      var d := t.reaction.derived;
      var out;
      out, follower := Invoke(this, t.reaction.handler, a, d);
      if t.reaction.handler.FollowInto? {
        // what the closure did, restated against the state before this turn
        var target := t.reaction.handler.target;
        assert AppliedCells(target, ResolutionEffects(target, a), follower);
      }
      match out
      case Threw(e) =>
        d.Reject(this, e);
      case Returned(x) =>
        // the closures return `undefined`; the resolution procedure's only
        // effect for it is to fulfil `d` with it, which `resolve` does
        assert x == Undefined && ResolutionEffects(d, x) == [Fulfil(Undefined)];
        d.Resolve(this, x);
    }
  }

  /** One instance of the promise class. */
  class Promise {
    var state: State
    var result: JsValue
    var onFulfilled: seq<Reaction>
    var onRejected: seq<Reaction>

    /** The instance's fields as a settlement cell. */
    function Snapshot(): Cell<JsValue, Reaction>
      reads this
    {
      Cell(state, result, onFulfilled, onRejected)
    }

    /**
     * `new myPromise(executor)`: start pending with payload `null` and empty
     * queues, then run the executor with this instance's `resolve` and
     * `reject`; a throw out of the executor rejects the instance.
     */
    constructor (w: Scheduler, executor: seq<Action<JsValue>>)
      modifies w
      ensures Snapshot() == Run(Initial(Null), executor)
      ensures w.tasks == old(w.tasks)
    {
      state, result, onFulfilled, onRejected := Pending, Null, [], [];
      new;
      var i := 0;
      while i < |executor|
        invariant 0 <= i <= |executor|
        invariant onFulfilled == [] && onRejected == []
        invariant w.tasks == old(w.tasks)
        invariant Run(Snapshot(), executor[i..]) == Run(Initial(Null), executor)
      {
        assert executor[i..] == [executor[i]] + executor[i + 1..];
        match executor[i] {
          case CallResolve(v) =>
            Resolve(w, v);
          case CallReject(r) =>
            Reject(w, r);
          case Throw(e) =>
            Reject(w, e);
            assert Run(Snapshot(), executor[i + 1..]) == Snapshot() by {
              SettledIsFinal(Snapshot(), executor[i + 1..]);
            }
            return;
        }
        i := i + 1;
      }
    }

    /** `callbacks.forEach(cb => cb(payload))`: each queued callback only hands its job to `setTimeout`. */
    method Drain(w: Scheduler, side: Side, callbacks: seq<Reaction>)
      modifies w
      ensures w.tasks == old(w.tasks) + AsTasks(this, side, callbacks)
    {
      for i := 0 to |callbacks|
        invariant w.tasks == old(w.tasks) + AsTasks(this, side, callbacks[..i])
      {
        w.Schedule(Task(this, side, callbacks[i]));
        assert AsTasks(this, side, callbacks[..i + 1]) == AsTasks(this, side, callbacks[..i]) + [Task(this, side, callbacks[i])];
      }
      assert callbacks[..|callbacks|] == callbacks;
    }

    /** `resolve(v)`: only a pending instance moves, to fulfilled, and releases its fulfilment queue in order. */
    method Resolve(w: Scheduler, v: JsValue)
      modifies this, w
      ensures SettledBy(this, w, Fulfilment, v, old(w.tasks))
    {
      if state == Pending {
        state := Fulfilled;
        result := v;
        Drain(w, Fulfilment, onFulfilled);
      }
    }

    /** `reject(r)`: only a pending instance moves, to rejected, and releases its rejection queue in order. */
    method Reject(w: Scheduler, r: JsValue)
      modifies this, w
      ensures SettledBy(this, w, Rejection, r, old(w.tasks))
    {
      if state == Pending {
        state := Rejected;
        result := r;
        Drain(w, Rejection, onRejected);
      }
    }

    /**
     * `then(onFulfilled, onRejected)`: always a fresh pending promise; the
     * pair of reactions is queued while this instance is pending, and the
     * one matching its state is scheduled at once when it is settled.
     */
    method Then(w: Scheduler, onFulfilledHandler: Handler, onRejectedHandler: Handler) returns (d: Promise)
      modifies this, w
      ensures Registered(this, w, d, onFulfilledHandler, onRejectedHandler, old(w.tasks))
    {
      d := new Promise(w, []);
      if state == Fulfilled {
        w.Schedule(Task(this, Fulfilment, Reaction(d, onFulfilledHandler)));
      } else if state == Rejected {
        w.Schedule(Task(this, Rejection, Reaction(d, onRejectedHandler)));
      } else {
        onFulfilled := onFulfilled + [Reaction(d, onFulfilledHandler)];
        onRejected := onRejected + [Reaction(d, onRejectedHandler)];
      }
    }

    /** `catch(onRejected)` is `then(undefined, onRejected)`. */
    method Catch(w: Scheduler, onRejectedHandler: Handler) returns (d: Promise)
      modifies this, w
      ensures Registered(this, w, d, NotFunction, onRejectedHandler, old(w.tasks))
    {
      d := Then(w, NotFunction, onRejectedHandler);
    }

    /** `finally(callback)` is `then(callback, callback)`: the callback's own result replaces the payload. */
    method Finally(w: Scheduler, callback: Handler) returns (d: Promise)
      modifies this, w
      ensures Registered(this, w, d, callback, callback, old(w.tasks))
    {
      d := Then(w, callback, callback);
    }

    /**
     * `static resolve(value)`: an own promise is returned as it is; any other
     * value gets a fresh promise whose executor runs `ResolveScript(value)`.
     */
    static method StaticResolve(w: Scheduler, value: JsValue) returns (p: Promise)
      modifies w
      ensures value.Own? ==> p == value.p
      ensures !value.Own? ==> fresh(p) && p.Snapshot() == Run(Initial(Null), ResolveScript(value))
      ensures w.tasks == old(w.tasks)
    {
      if value.Own? {
        return value.p;
      }
      p := new Promise(w, ResolveScript(value));
    }

    /** `static reject(reason)`: a fresh promise rejected with `reason`. */
    static method StaticReject(w: Scheduler, reason: JsValue) returns (p: Promise)
      modifies w
      ensures fresh(p) && p.Snapshot() == Settle(Initial(Null), Rejection, reason)
      ensures w.tasks == old(w.tasks)
    {
      p := new Promise(w, [CallReject(reason)]);
    }

    /**
     * `static all(items)`: a fresh aggregate promise. A non-array rejects it
     * with a TypeError; an array without thenables fulfils it at once with
     * the items in order; otherwise each thenable item, through
     * `static resolve`, gets a reaction that stores its value at its index
     * and one that rejects the aggregate, plain items are stored at once, and
     * the aggregate stays pending. `c` is the closure state the item
     * reactions share (for a non-empty array), holding the plain items.
     */
    static method All(w: Scheduler, items: JsValue) returns (agg: Promise, ghost c: Collector?)
      modifies w, OwnItems(items)
      ensures fresh(agg)
      ensures (items.Arr? && items.elems != [])
                ==> && c != null && fresh(c) && c.target == agg && c.length == |items.elems|
                    && c.Gathered() == Gather(PlainCount(items.elems, |items.elems|), PlainSlots(items.elems, |items.elems|))
      ensures agg.onFulfilled == [] && agg.onRejected == []
      ensures !items.Arr? ==> agg.Snapshot() == Settle(Initial(Null), Rejection, TypeErr(NotIterableMessage))
                              && w.tasks == old(w.tasks)
      ensures (items.Arr? && forall k :: 0 <= k < |items.elems| ==> !LooksThenable(items.elems[k]))
                ==> agg.Snapshot() == Settle(Initial(Null), Fulfilment, items) && w.tasks == old(w.tasks)
      ensures (items.Arr? && exists k :: 0 <= k < |items.elems| && LooksThenable(items.elems[k]))
                ==> agg.Snapshot() == Initial(Null) && |old(w.tasks)| <= |w.tasks| && w.tasks[..|old(w.tasks)|] == old(w.tasks)
    {
      c := null;
      agg := new Promise(w, []);
      if !items.Arr? {
        agg.Reject(w, TypeErr(NotIterableMessage));
        return;
      }
      var ps := items.elems;
      if |ps| == 0 {
        agg.Resolve(w, items);
        return;
      }
      var gather := new Collector(agg, |ps|);
      c := gather;
      for i := 0 to |ps|
        invariant gather.target == agg && gather.length == |ps|
        invariant gather.count == PlainCount(ps, i) && gather.slots == PlainSlots(ps, i)
        invariant agg.onFulfilled == [] && agg.onRejected == []
        invariant agg.Snapshot() == if gather.count == |ps| then Settle(Initial(Null), Fulfilment, Arr(Dense(gather.slots, |ps|))) else Initial(Null)
        invariant |old(w.tasks)| <= |w.tasks| && w.tasks[..|old(w.tasks)|] == old(w.tasks)
        invariant PlainCount(ps, i) == i ==> w.tasks == old(w.tasks)
      {
        PlainCountBounds(ps, i);
        var item := ps[i];
        if LooksThenable(item) {
          var p := StaticResolve(w, item);
          var _ := p.Then(w, StoreAt(gather, i), RejectInto(agg));
        } else {
          gather.Store(w, i, item);
          assert gather.slots == PlainSlots(ps, i + 1);
        }
      }
      PlainCountBounds(ps, |ps|);
      if PlainCount(ps, |ps|) == |ps| {
        assert Dense(gather.slots, |ps|) == ps;
      }
    }
  }

  /** The closure state one `all` call shares among its item reactions. */
  class Collector {
    const target: Promise
    const length: nat
    var count: nat
    var slots: map<nat, JsValue>

    /** The closure state as a value. */
    function Gathered(): Gather<JsValue>
      reads this
    {
      Gather(count, slots)
    }

    constructor (target: Promise, length: nat)
      ensures this.target == target && this.length == length
      ensures count == 0 && slots == map[]
    {
      this.target := target;
      this.length := length;
      count := 0;
      slots := map[];
    }

    /** `count++; result[index] = value; count === promises.length && resolve(result)`. */
    method Store(w: Scheduler, index: nat, v: JsValue)
      modifies this, target, w
      ensures Stored(this, w, index, v, old(w.tasks))
    {
      count := count + 1;
      slots := slots[index := v];
      if count == length {
        target.Resolve(w, Arr(Dense(slots, length)));
      }
    }
  }

  /** The own promises among the items of an array. */
  function OwnItems(items: JsValue): set<Promise>
  {
    if items.Arr? then set k | 0 <= k < |items.elems| && items.elems[k].Own? :: items.elems[k].p else {}
  }

  /** How many of the first `i` items are not thenables. */
  function PlainCount(ps: seq<JsValue>, i: nat): nat
    requires i <= |ps|
  {
    if i == 0 then 0 else PlainCount(ps, i - 1) + (if LooksThenable(ps[i - 1]) then 0 else 1)
  }

  /** The slots `all` has filled synchronously after looking at the first `i` items. */
  function PlainSlots(ps: seq<JsValue>, i: nat): map<nat, JsValue>
    requires i <= |ps|
  {
    map k: nat | k < i && !LooksThenable(ps[k]) :: ps[k]
  }

  /** The synchronous count never passes the items seen, and reaches them exactly when none was a thenable. */
  lemma {:induction false} PlainCountBounds(ps: seq<JsValue>, i: nat)
    requires i <= |ps|
    ensures PlainCount(ps, i) <= i
    ensures PlainCount(ps, i) == i <==> forall k :: 0 <= k < i ==> !LooksThenable(ps[k])
  {
    if i > 0 {
      PlainCountBounds(ps, i - 1);
    }
  }

  /** The synchronous slots are one per plain item seen. */
  lemma {:induction false} PlainSlotsCount(ps: seq<JsValue>, i: nat)
    requires i <= |ps|
    ensures |PlainSlots(ps, i)| == PlainCount(ps, i)
  {
    if i == 0 {
      assert PlainSlots(ps, 0) == map[];
    } else {
      PlainSlotsCount(ps, i - 1);
      if LooksThenable(ps[i - 1]) {
        assert PlainSlots(ps, i) == PlainSlots(ps, i - 1);
      } else {
        assert PlainSlots(ps, i) == PlainSlots(ps, i - 1)[i - 1 := ps[i - 1]];
      }
    }
  }

  /**
   * `all` of an array mixing plain items and thenables, from the closure
   * state it leaves synchronously: when every thenable item fulfils, in any
   * order, the aggregate is fulfilled at the last fulfilment and not before,
   * with the plain items and the thenables' values at their positions.
   */
  lemma MixedArrayFulfils(ps: seq<JsValue>, values: seq<JsValue>, agg: Cell<JsValue, Reaction>, events: seq<ItemEvent<Promise>>)
    requires agg.state == Pending && events != []
    requires |values| == |ps|
    requires forall k :: 0 <= k < |ps| && !LooksThenable(ps[k]) ==> values[k] == ps[k]
    requires DistinctFulfilments(events, |ps|)
    requires forall k :: 0 <= k < |events| ==> LooksThenable(ps[events[k].index]) && events[k].value == values[events[k].index]
    requires PlainCount(ps, |ps|) + |events| == |ps|
    ensures Feed(Gather(PlainCount(ps, |ps|), PlainSlots(ps, |ps|)), agg, |ps|, events).1 == Settle(agg, Fulfilment, Arr(values))
    ensures Feed(Gather(PlainCount(ps, |ps|), PlainSlots(ps, |ps|)), agg, |ps|, events[..|events| - 1]).1 == agg
  {
    PlainSlotsCount(ps, |ps|);
    AllFulfilsInInputOrder(values, Gather(PlainCount(ps, |ps|), PlainSlots(ps, |ps|)), agg, events);
  }

  /**
   * `all` of an array mixing plain items and thenables: a thenable item that
   * rejects before every thenable has fulfilled rejects the aggregate with
   * its reason, and nothing later changes it.
   */
  lemma MixedArrayRejects(ps: seq<JsValue>, agg: Cell<JsValue, Reaction>, before: seq<ItemEvent<Promise>>, r: JsValue, after: seq<ItemEvent<Promise>>)
    requires agg.state == Pending
    requires DistinctFulfilments(before, |ps|)
    requires forall k :: 0 <= k < |before| ==> LooksThenable(ps[before[k].index])
    requires PlainCount(ps, |ps|) + |before| < |ps|
    ensures Feed(Gather(PlainCount(ps, |ps|), PlainSlots(ps, |ps|)), agg, |ps|, before + [ItemRejected(r)] + after).1 == Settle(agg, Rejection, r)
  {
    FirstRejectionWins(Gather(PlainCount(ps, |ps|), PlainSlots(ps, |ps|)), agg, |ps|, before, r, after);
  }

  /** The effect of `resolve` (side Fulfilment) or `reject` on `p`, with the released jobs queued after `before`. */
  twostate predicate SettledBy(p: Promise, w: Scheduler, side: Side, v: JsValue, before: seq<Task>)
    reads p, w
  {
    && p.Snapshot() == Settle(old(p.Snapshot()), side, v)
    && w.tasks == before + AsTasks(p, side, Released(old(p.Snapshot()), side))
  }

  /** The effect of `src.then(onF, onR)` returning `d`, with any job it schedules queued after `before`. */
  twostate predicate Registered(src: Promise, w: Scheduler, new d: Promise, onF: Handler, onR: Handler, before: seq<Task>)
    reads src, w, d
  {
    var reg := Register(old(src.Snapshot()), Reaction(d, onF), Reaction(d, onR));
    && fresh(d)
    && d.Snapshot() == Initial(Null)
    && src.Snapshot() == reg.0
    && w.tasks == before + AsTasks(src, SettledSide(old(src.state)), reg.1)
  }

  /** The effect of one call of `all`'s fulfilment closure. */
  twostate predicate Stored(c: Collector, w: Scheduler, index: nat, v: JsValue, before: seq<Task>)
    reads c, c.target, w
  {
    && c.Gathered() == Combinators.Store(old(c.Gathered()), index, v)
    && if c.count == c.length then SettledBy(c.target, w, Fulfilment, Arr(Dense(c.slots, c.length)), before)
       else w.tasks == before && unchanged(c.target)
  }

  /** The own promise the (at most one) effect of the resolution procedure follows, if any. */
  function AdoptSources(effects: seq<Effect<Promise>>): set<Promise>
  {
    if effects != [] && effects[0].Adopt? then {effects[0].source} else {}
  }

  /**
   * What the effects of the resolution procedure do to the promises: the
   * target is settled, or the followed promise has the pair of reactions
   * registered on it with `follower` as their derived promise; every other
   * promise the procedure may touch is left alone.
   */
  twostate predicate AppliedCells(target: Promise, effects: seq<Effect<Promise>>, new follower: Promise?)
    reads target, AdoptSources(effects), follower
  {
    if effects == [] || effects[0].Cycle? then unchanged(target)
    else match effects[0]
      case Fulfil(v) => target.Snapshot() == Settle(old(target.Snapshot()), Fulfilment, v)
      case Reject(e) => target.Snapshot() == Settle(old(target.Snapshot()), Rejection, e)
      case Adopt(q) =>
        && follower != null && fresh(follower) && follower.Snapshot() == Initial(Null)
        && q.Snapshot() == Register(old(q.Snapshot()), Reaction(follower, FollowInto(target)), Reaction(follower, RejectInto(target))).0
        && unchanged(target)
  }

  /** The jobs the effects of the resolution procedure schedule, in order. */
  twostate function EffectTasks(target: Promise, effects: seq<Effect<Promise>>, new follower: Promise?): seq<Task>
    reads target, AdoptSources(effects)
  {
    if effects == [] then []
    else match effects[0]
      case Cycle => []
      case Fulfil(_) => AsTasks(target, Fulfilment, Released(old(target.Snapshot()), Fulfilment))
      case Reject(_) => AsTasks(target, Rejection, Released(old(target.Snapshot()), Rejection))
      case Adopt(q) =>
        if follower == null then []
        else AsTasks(q, SettledSide(old(q.state)),
                     Register(old(q.Snapshot()), Reaction(follower, FollowInto(target)), Reaction(follower, RejectInto(target))).1)
  }

  /** The effects of the resolution procedure carried out, with their jobs queued after `before`. */
  twostate predicate Applied(target: Promise, w: Scheduler, effects: seq<Effect<Promise>>, new follower: Promise?, before: seq<Task>)
    reads target, w, AdoptSources(effects), follower
  {
    && AppliedCells(target, effects, follower)
    && w.tasks == before + EffectTasks(target, effects, follower)
  }

  /**
   * `resolvePromise(target, x, resolve, reject)`, with `resolve`/`reject`
   * those of `target`. Throws the cycle TypeError exactly when `x` is the
   * target, and otherwise has exactly the effects `ResolutionEffects` lists.
   */
  method ResolvePromise(w: Scheduler, target: Promise, x: JsValue) returns (thrown: Option<JsValue>, ghost follower: Promise?)
    modifies w, target, AdoptSources(ResolutionEffects(target, x))
    ensures thrown == if x.Own? && x.p == target then Some(CycleError()) else None
    ensures Applied(target, w, ResolutionEffects(target, x), follower, old(w.tasks))
    decreases x
  {
    follower := null;
    if x.Own? && x.p == target {
      return Some(CycleError()), null;
    }
    thrown := None;
    match x
    case Own(q) =>
      follower := q.Then(w, FollowInto(target), RejectInto(target));
    case Obj(ReadThrows(e)) =>
      target.Reject(w, e);
    case Obj(Callable(script)) =>
      // `then.call(x, resolvePromise, rejectPromise)`: the first callback call
      // or throw sets the shared guard `called`; every later callback call
      // returns at once and a later throw is caught and ignored
      // (`OnlyFirstCallCounts`), so only the first step acts
      if script != [] {
        OnlyFirstCallCounts(target, script[0], script[1..]);
        assert script == [script[0]] + script[1..];
        match script[0] {
          case CallResolve(y) =>
            // a cycle error thrown here leaves the callback and `then.call`;
            // the catch finds the guard set and returns
            var _, f := ResolvePromise(w, target, y);
            follower := f;
          case CallReject(r) =>
            target.Reject(w, r);
          case Throw(e) =>
            target.Reject(w, e);
        }
      }
    case _ =>
      target.Resolve(w, x);
  }

  /** The objects calling a handler may change. */
  function HandlerFootprint(h: Handler, a: JsValue): set<object>
  {
    match h
    case FollowInto(t) => {t} + AdoptSources(ResolutionEffects(t, a))
    case RejectInto(t) => {t}
    case StoreAt(c, _) => {c, c.target}
    case _ => {}
  }

  /** The objects running reaction `h` for the derived promise `d` with payload `a` may change. */
  function ReactionFootprint(h: Handler, d: Promise, a: JsValue): set<object>
  {
    {d}
    + HandlerFootprint(h, a)
    + (if h.Returns? then AdoptSources(ResolutionEffects(d, h.result(d))) else {})
  }

  /** The objects running a job may change. */
  function TaskFootprint(t: Task): set<object>
    reads t.source
  {
    ReactionFootprint(t.reaction.handler, t.reaction.derived, t.source.result)
  }

  /**
   * Calling a handler that is a function with the payload `a`, for the
   * derived promise `d`: a user function returns or throws; the core's own closures run the resolution
   * procedure for their target (which may throw the cycle error), reject
   * their target, or store into `all`'s result array, and return `undefined`.
   */
  method Invoke(w: Scheduler, h: Handler, a: JsValue, d: Promise) returns (out: Completion, ghost follower: Promise?)
    requires !h.NotFunction?
    modifies w, HandlerFootprint(h, a)
    ensures h.Returns? ==> out == Returned(h.result(d)) && w.tasks == old(w.tasks)
    ensures h.Throws? ==> out == Threw(h.error) && w.tasks == old(w.tasks)
    ensures h.FollowInto? ==> out == (if a.Own? && a.p == h.target then Threw(CycleError()) else Returned(Undefined))
                              && Applied(h.target, w, ResolutionEffects(h.target, a), follower, old(w.tasks))
    ensures h.RejectInto? ==> out == Returned(Undefined) && SettledBy(h.target, w, Rejection, a, old(w.tasks))
    ensures h.StoreAt? ==> out == Returned(Undefined) && Stored(h.gather, w, h.index, a, old(w.tasks))
  {
    follower := null;
    match h
    case Returns(f) =>
      out := Returned(f(d));
    case Throws(e) =>
      out := Threw(e);
    case FollowInto(t) =>
      var thrown;
      thrown, follower := ResolvePromise(w, t, a);
      out := if thrown.Some? then Threw(thrown.value) else Returned(Undefined);
    case RejectInto(t) =>
      t.Reject(w, a);
      out := Returned(Undefined);
    case StoreAt(c, i) =>
      c.Store(w, i, a);
      out := Returned(Undefined);
  }

  /**
   * What running job `t` did, when its source was settled with payload
   * `a`, with the jobs it scheduled queued after `before`. For a user handler or a handler that is not a function this is
   * exact. For the core's own closures it is stated when the derived promise
   * of the job is not itself one of the promises the closure acts on.
   */
  twostate predicate Reacted(w: Scheduler, t: Task, a: JsValue, new follower: Promise?, before: seq<Task>)
    reads w, follower, ReactionFootprint(t.reaction.handler, t.reaction.derived, a)
  {
    var h := t.reaction.handler;
    var d := t.reaction.derived;
    match h
    case NotFunction =>
      SettledBy(d, w, t.side, a, before)
    case Throws(e) =>
      SettledBy(d, w, Rejection, e, before)
    case Returns(f) =>
      var x := f(d);
      old(allocated(x)) ==>
        if x.Own? && x.p == d then SettledBy(d, w, Rejection, CycleError(), before)
        else Applied(d, w, ResolutionEffects(d, x), follower, before)
    case FollowInto(target) =>
      var effects := ResolutionEffects(target, a);
      var cycle := a.Own? && a.p == target;
      var side := if cycle then Rejection else Fulfilment;
      (target != d && d !in AdoptSources(effects)) ==>
        && AppliedCells(target, effects, follower)
        && d.Snapshot() == Settle(old(d.Snapshot()), side, if cycle then CycleError() else Undefined)
        && w.tasks == before + EffectTasks(target, effects, follower) + AsTasks(d, side, Released(old(d.Snapshot()), side))
    case RejectInto(target) =>
      target != d ==>
        && target.Snapshot() == Settle(old(target.Snapshot()), Rejection, a)
        && d.Snapshot() == Settle(old(d.Snapshot()), Fulfilment, Undefined)
        && w.tasks == before + AsTasks(target, Rejection, Released(old(target.Snapshot()), Rejection))
                             + AsTasks(d, Fulfilment, Released(old(d.Snapshot()), Fulfilment))
    case StoreAt(c, index) =>
      var done := c.count == c.length;
      c.target != d ==>
        && c.Gathered() == Combinators.Store(old(c.Gathered()), index, a)
        && (if done then c.target.Snapshot() == Settle(old(c.target.Snapshot()), Fulfilment, Arr(Dense(c.slots, c.length)))
            else unchanged(c.target))
        && d.Snapshot() == Settle(old(d.Snapshot()), Fulfilment, Undefined)
        && w.tasks == before + (if done then AsTasks(c.target, Fulfilment, Released(old(c.target.Snapshot()), Fulfilment)) else [])
                             + AsTasks(d, Fulfilment, Released(old(d.Snapshot()), Fulfilment))
  }

  /**
   * `const q = p.then(() => q)` on a fulfilled `p`: when the job runs, the
   * handler returns `q` itself, the resolution procedure throws the cycle
   * TypeError, and the wrapper's catch rejects `q` with it.
   */
  method ThenReturningItself(v: JsValue) returns (q: Promise)
    ensures q.state == Rejected && q.result == CycleError()
  {
    var w := new Scheduler();
    var p := new Promise(w, [CallResolve(v)]);
    var h := Returns(d => Own(d));
    q := p.Then(w, h, NotFunction);
    assert w.tasks == [Task(p, Fulfilment, Reaction(q, h))];
    ghost var _ := w.RunNext();
    assert q.Snapshot() == Settle(Initial(Null), Rejection, CycleError());
  }

  /**
   * `const q = p.then(() => ({ then: (onF) => onF(q) }))` on a fulfilled
   * `p`: the thenable's callback resolves `q` with itself; the cycle
   * TypeError leaves the callback and `then.call`, and the catch around
   * them finds `called` set and returns, so `q` stays pending for good.
   */
  method ThenReturningThenableOfItself(v: JsValue) returns (q: Promise)
    ensures q.Snapshot() == Initial(Null)
  {
    var w := new Scheduler();
    var p := new Promise(w, [CallResolve(v)]);
    var h := Returns(d => Obj(Callable([CallResolve(Own(d))])));
    q := p.Then(w, h, NotFunction);
    assert w.tasks == [Task(p, Fulfilment, Reaction(q, h))];
    assert ResolutionEffects(q, h.result(q)) == [] by {
      assert ResolutionEffects(q, Own(q)) == [Cycle];
    }
    ghost var _ := w.RunNext();
  }
}
