/**
 * The static combinators as pure values: the executor `static resolve`
 * builds for a value that is not an own promise, and the bookkeeping of
 * `all` (a result array written by index and a completion counter) driven by
 * the settlements of its items in whatever order they happen.
 */
module Combinators {
  import opened Settlement
  import opened Values

  /**
   * What `new myPromise((resolve, reject) => value.then(resolve, reject))`
   * or `new myPromise(resolve => resolve(value))` does, as an executor
   * script. Reading a throwing `then` throws inside the executor; calling a
   * `then` that is not a function throws a TypeError; a callable `then` is
   * handed the new promise's own `resolve` and `reject`. Only a callable
   * `then` can leave the new promise without a first step.
   */
  function ResolveScript<R>(v: Value<R>): (script: seq<Action<Value<R>>>)
    ensures !LooksThenable(v) ==> script == [CallResolve(v)]
    ensures script == [] ==> v.Obj? && v.slot.Callable?
  {
    match v
    case Obj(ReadThrows(e)) => [Throw(e)]
    case Obj(NotCallable) => [Throw(TypeErr(NotFunctionMessage))]
    case Obj(Callable(s)) => s
    case _ => [CallResolve(v)]
  }

  /**
   * The promise `static resolve` builds for a value other than an own
   * promise: a plain value fulfils it at once; a thenable whose `then` cannot
   * be read, or is not a function, rejects it; a callable `then` settles it
   * as its first call or throw says, with the value handed over as is.
   */
  lemma {:induction false} ResolveScriptOutcome<R, Q>(v: Value<R>, c: Cell<Value<R>, Q>)
    requires c.state == Pending && !v.Own?
    ensures !LooksThenable(v) ==> Run(c, ResolveScript(v)) == Settle(c, Fulfilment, v)
    ensures v.Obj? && v.slot.ReadThrows? ==> Run(c, ResolveScript(v)) == Settle(c, Rejection, v.slot.error)
    ensures v.Obj? && v.slot.NotCallable? ==> Run(c, ResolveScript(v)) == Settle(c, Rejection, TypeErr(NotFunctionMessage))
    ensures v.Obj? && v.slot.Callable? && v.slot.script == [] ==> Run(c, ResolveScript(v)) == c
    ensures (v.Obj? && v.slot.Callable? && v.slot.script != [])
              ==> Run(c, ResolveScript(v)).state == StateOf(ActionSide(v.slot.script[0]))
                  && Run(c, ResolveScript(v)).result == ActionPayload(v.slot.script[0])
  {
    if ResolveScript(v) != [] {
      FirstCallWins(c, ResolveScript(v));
    }
  }

  /** The closure state of one `all` call: the completion counter and the result array. */
  datatype Gather<V> = Gather(count: nat, slots: map<nat, V>)

  /** `count++; result[index] = value`. */
  function Store<V>(g: Gather<V>, index: nat, v: V): (r: Gather<V>)
    ensures r.count == g.count + 1
    ensures r.slots.Keys == g.slots.Keys + {index}
    ensures r.slots[index] == v
    ensures forall i :: i in g.slots && i != index ==> r.slots[i] == g.slots[i]
  {
    Gather(g.count + 1, g.slots[index := v])
  }

  /** The result array as the aggregate sees it: `n` slots, unwritten ones read as `undefined`. */
  function Dense<R>(slots: map<nat, Value<R>>, n: nat): (s: seq<Value<R>>)
    ensures |s| == n
    ensures forall i :: 0 <= i < n && i in slots ==> s[i] == slots[i]
    ensures forall i :: 0 <= i < n && i !in slots ==> s[i] == Undefined
  {
    seq(n, i requires 0 <= i < n => if i in slots then slots[i] else Undefined)
  }

  /** How one item of `all` settles, as its reaction sees it. */
  datatype ItemEvent<R> = ItemFulfilled(index: nat, value: Value<R>) | ItemRejected(reason: Value<R>)

  /**
   * The reactions `all` registers, run for a sequence of item settlements:
   * a fulfilment stores its value at its index, bumps the counter and, when
   * the counter reaches the number of items, fulfils the aggregate with the
   * result array; a rejection rejects the aggregate. Once the aggregate is
   * settled no later event changes it, and while it is pending it is the
   * aggregate it started as.
   */
  function Feed<R, Q>(g: Gather<Value<R>>, agg: Cell<Value<R>, Q>, n: nat, events: seq<ItemEvent<R>>)
    : (r: (Gather<Value<R>>, Cell<Value<R>, Q>))
    ensures agg.state != Pending ==> r.1 == agg
    ensures r.1.state == Pending ==> r.1 == agg
    decreases |events|
  {
    if events == [] then (g, agg)
    else match events[0]
      case ItemFulfilled(i, v) =>
        var g' := Store(g, i, v);
        Feed(g', if g'.count == n then Settle(agg, Fulfilment, Arr(Dense(g'.slots, n))) else agg, n, events[1..])
      case ItemRejected(r) =>
        Feed(g, Settle(agg, Rejection, r), n, events[1..])
  }

  /** Every event is a fulfilment of a distinct index below `n`. */
  ghost predicate DistinctFulfilments<R>(events: seq<ItemEvent<R>>, n: nat)
  {
    && (forall k :: 0 <= k < |events| ==> events[k].ItemFulfilled? && events[k].index < n)
    && (forall j, k :: 0 <= j < k < |events| ==> events[j].index != events[k].index)
  }

  /** The indices of a run of fulfilments, as a set. */
  ghost function Indices<R>(events: seq<ItemEvent<R>>): set<nat>
    requires forall k :: 0 <= k < |events| ==> events[k].ItemFulfilled?
  {
    set k | 0 <= k < |events| :: events[k].index
  }

  /**
   * Fulfilments of distinct indices, in any order, fill exactly those slots
   * with their values and count one each; while fewer than `n` have arrived
   * the aggregate is untouched.
   */
  lemma {:induction false} FulfilmentsFill<R, Q>(g: Gather<Value<R>>, agg: Cell<Value<R>, Q>, n: nat, events: seq<ItemEvent<R>>)
    requires DistinctFulfilments(events, n)
    requires forall k :: 0 <= k < |events| ==> events[k].index !in g.slots
    requires g.count + |events| < n
    ensures Feed(g, agg, n, events).1 == agg
    ensures Feed(g, agg, n, events).0.count == g.count + |events|
    ensures Feed(g, agg, n, events).0.slots.Keys == g.slots.Keys + Indices(events)
    ensures forall k :: 0 <= k < |events| ==> Feed(g, agg, n, events).0.slots[events[k].index] == events[k].value
    ensures forall i :: i in g.slots ==> Feed(g, agg, n, events).0.slots[i] == g.slots[i]
    decreases |events|
  {
    if events != [] {
      var e := events[0];
      var g' := Store(g, e.index, e.value);
      var rest := events[1..];
      assert forall k :: 0 <= k < |rest| ==> rest[k] == events[k + 1];
      FulfilmentsFill(g', agg, n, rest);
      assert Indices(events) == {e.index} + Indices(rest) by {
        forall i | i in Indices(events) ensures i in {e.index} + Indices(rest) {
          var k :| 0 <= k < |events| && events[k].index == i;
          if k > 0 { assert rest[k - 1] == events[k]; }
        }
      }
    }
  }

  /** `n` distinct indices below `n` are all the indices below `n`. */
  lemma {:induction false} FullSubset(s: set<nat>, n: nat)
    requires forall i :: i in s ==> i < n
    requires |s| == n
    ensures forall i :: 0 <= i < n ==> i in s
  {
    var below := Below(n);
    BelowSize(n);
    if exists j :: 0 <= j < n && j !in s {
      var j :| 0 <= j < n && j !in s;
      assert s <= below - {j};
      assert |below - {j}| == n - 1;
      SubsetSize(s, below - {j});
      assert false;
    }
  }

  /** The indices below `n`. */
  ghost function Below(n: nat): (s: set<nat>)
    ensures forall i: nat :: i in s <==> i < n
  {
    if n == 0 then {} else Below(n - 1) + {n - 1}
  }

  /** The indices below `n` are `n` many. */
  lemma {:induction false} BelowSize(n: nat)
    ensures |Below(n)| == n
  {
    if n > 0 {
      BelowSize(n - 1);
    }
  }

  /** A subset is no larger than its superset. */
  lemma {:induction false} SubsetSize(a: set<nat>, b: set<nat>)
    requires a <= b
    ensures |a| <= |b|
    decreases |b|
  {
    if a != {} {
      var x :| x in a;
      SubsetSize(a - {x}, b - {x});
    }
  }

  /**
   * The closure state of `all` after some items have stored their values:
   * one count per stored slot, each slot below the item count and holding
   * the value `values` gives its item.
   */
  ghost predicate StartedWith<R>(g: Gather<Value<R>>, values: seq<Value<R>>)
  {
    && g.count == |g.slots|
    && forall i :: i in g.slots ==> i < |values| && g.slots[i] == values[i]
  }

  /** Storing the value of an item not yet stored keeps `StartedWith`. */
  lemma StoreKeepsStarted<R>(values: seq<Value<R>>, g: Gather<Value<R>>, i: nat, v: Value<R>)
    requires StartedWith(g, values)
    requires i < |values| && i !in g.slots && v == values[i]
    ensures StartedWith(Store(g, i, v), values)
  {
  }

  /** Fulfilments of items not yet stored, each with its item's value, keep `StartedWith`. */
  lemma {:induction false} FulfilmentsKeepStarted<R, Q>(values: seq<Value<R>>, g: Gather<Value<R>>, agg: Cell<Value<R>, Q>, events: seq<ItemEvent<R>>)
    requires StartedWith(g, values)
    requires DistinctFulfilments(events, |values|)
    requires forall k :: 0 <= k < |events| ==> events[k].index !in g.slots && events[k].value == values[events[k].index]
    ensures StartedWith(Feed(g, agg, |values|, events).0, values)
    decreases |events|
  {
    if events != [] {
      var e := events[0];
      StoreKeepsStarted(values, g, e.index, e.value);
      var g' := Store(g, e.index, e.value);
      var rest := events[1..];
      assert forall k :: 0 <= k < |rest| ==> rest[k] == events[k + 1];
      FulfilmentsKeepStarted(values, g', if g'.count == |values| then Settle(agg, Fulfilment, Arr(Dense(g'.slots, |values|))) else agg, rest);
    }
  }

  /** Once one value per item is stored, the result array is the items' values in input order. */
  lemma {:induction false} FullGatherInInputOrder<R>(values: seq<Value<R>>, g: Gather<Value<R>>)
    requires StartedWith(g, values) && g.count == |values|
    ensures Dense(g.slots, |values|) == values
  {
    FullSubset(g.slots.Keys, |values|);
  }

  /**
   * Output order equals input order: when every item not yet stored
   * fulfils, in any completion order, the aggregate is fulfilled, at the
   * last fulfilment and not before, with the values at the positions of
   * their items. `g` is what was stored before the first event (nothing, or
   * the plain items `all` stores at once).
   */
  lemma {:induction false} AllFulfilsInInputOrder<R, Q>(values: seq<Value<R>>, g: Gather<Value<R>>, agg: Cell<Value<R>, Q>, events: seq<ItemEvent<R>>)
    requires agg.state == Pending && events != []
    requires StartedWith(g, values)
    requires DistinctFulfilments(events, |values|)
    requires forall k :: 0 <= k < |events| ==> events[k].index !in g.slots && events[k].value == values[events[k].index]
    requires g.count + |events| == |values|
    ensures Feed(g, agg, |values|, events).1 == Settle(agg, Fulfilment, Arr(values))
    ensures Feed(g, agg, |values|, events[..|events| - 1]).1 == agg
  {
    var n := |values|;
    var front := events[..|events| - 1];
    var last := events[|events| - 1];
    assert events == front + [last];
    assert forall k :: 0 <= k < |front| ==> front[k] == events[k];
    FulfilmentsFill(g, agg, n, front);
    FulfilmentsKeepStarted(values, g, agg, front);
    var gf := Feed(g, agg, n, front).0;
    assert last.index !in gf.slots by {
      forall k | 0 <= k < |front| ensures front[k].index != last.index {
        assert front[k] == events[k];
      }
    }
    StoreKeepsStarted(values, gf, last.index, last.value);
    FullGatherInInputOrder(values, Store(gf, last.index, last.value));
    FeedAppend(g, agg, n, front, [last]);
  }

  /**
   * Short-circuit: a rejection that arrives before every item not yet
   * stored has fulfilled rejects the aggregate with its reason, and nothing
   * that arrives later, fulfilment or rejection, changes it.
   */
  lemma {:induction false} FirstRejectionWins<R, Q>(g: Gather<Value<R>>, agg: Cell<Value<R>, Q>, n: nat, before: seq<ItemEvent<R>>, r: Value<R>, after: seq<ItemEvent<R>>)
    requires agg.state == Pending
    requires DistinctFulfilments(before, n)
    requires forall k :: 0 <= k < |before| ==> before[k].index !in g.slots
    requires g.count + |before| < n
    ensures Feed(g, agg, n, before + [ItemRejected(r)] + after).1 == Settle(agg, Rejection, r)
  {
    FulfilmentsFill(g, agg, n, before);
    FeedAppend(g, agg, n, before, [ItemRejected(r)]);
    FeedAppend(g, agg, n, before + [ItemRejected(r)], after);
  }

  /** Feeding two runs one after the other is feeding their concatenation. */
  lemma {:induction false} FeedAppend<R, Q>(g: Gather<Value<R>>, agg: Cell<Value<R>, Q>, n: nat, front: seq<ItemEvent<R>>, back: seq<ItemEvent<R>>)
    ensures var mid := Feed(g, agg, n, front);
            Feed(g, agg, n, front + back) == Feed(mid.0, mid.1, n, back)
    decreases |front|
  {
    if front == [] {
      assert front + back == back;
    } else {
      assert (front + back)[1..] == front[1..] + back;
      match front[0]
      case ItemFulfilled(i, v) =>
        var g' := Store(g, i, v);
        FeedAppend(g', if g'.count == n then Settle(agg, Fulfilment, Arr(Dense(g'.slots, n))) else agg, n, front[1..], back);
      case ItemRejected(r) =>
        FeedAppend(g, Settle(agg, Rejection, r), n, front[1..], back);
    }
  }
}
