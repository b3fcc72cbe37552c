/**
 * The settlement state machine of one promise instance, as pure values.
 *
 * A promise carries a three-valued `PromiseState`, a payload `PromiseResult`
 * and two callback queues. `resolve` and `reject` move it out of `Pending`
 * at most once; `then` either queues a reaction (while pending) or hands it
 * to the scheduler (once settled). The runtime classes are proved against
 * the functions of this module; the lemmas here state what the source
 * promises about them.
 *
 * The module is generic: `V` is the payload type and `Q` the type of a
 * queued reaction.
 */
module Settlement {

  /** The three values of `PromiseState`. */
  datatype State = Pending | Fulfilled | Rejected

  /** Which settlement function is called: `resolve` or `reject`. */
  datatype Side = Fulfilment | Rejection

  /** The state a settlement on `side` leads to. */
  function StateOf(side: Side): (s: State)
    ensures s != Pending
    ensures (s == Fulfilled) == (side == Fulfilment)
  {
    if side == Fulfilment then Fulfilled else Rejected
  }

  /** The side a settled state was reached on. */
  function SettledSide(s: State): (side: Side)
    ensures s != Pending ==> StateOf(side) == s
  {
    if s == Fulfilled then Fulfilment else Rejection
  }

  /**
   * What user code that is handed the two settlement functions can do with
   * them: call `resolve`, call `reject`, or throw. An executor passed to the
   * constructor and the `then` method of a foreign thenable are both given as
   * a finite script of such steps.
   */
  datatype Action<V> = CallResolve(value: V) | CallReject(reason: V) | Throw(error: V)

  /** The side an action settles on, were it the first to take effect. */
  function ActionSide<V>(a: Action<V>): Side
  {
    if a.CallResolve? then Fulfilment else Rejection
  }

  /** The payload an action carries. */
  function ActionPayload<V>(a: Action<V>): V
  {
    match a
    case CallResolve(v) => v
    case CallReject(r) => r
    case Throw(e) => e
  }

  /**
   * One instance's settlement triple: state, payload and the two callback
   * queues (`onFulfilledCallbacks`, `onRejectedCallbacks`).
   */
  datatype Cell<V, Q> = Cell(state: State, result: V, fulfilled: seq<Q>, rejected: seq<Q>)

  /** A freshly constructed instance: pending, payload `nothing`, no callbacks. */
  function Initial<V, Q>(nothing: V): (c: Cell<V, Q>)
    ensures c.state == Pending && c.result == nothing && c.fulfilled == [] && c.rejected == []
  {
    Cell(Pending, nothing, [], [])
  }

  /**
   * `resolve(v)` (side Fulfilment) or `reject(v)` (side Rejection): only a
   * pending instance changes; the queues are left as they are (the source
   * does not clear them, it only stops pushing onto them).
   */
  function Settle<V, Q>(c: Cell<V, Q>, side: Side, v: V): (r: Cell<V, Q>)
    ensures r.state != Pending
    ensures c.state == Pending ==> r.state == StateOf(side) && r.result == v
    ensures c.state != Pending ==> r == c
    ensures r.fulfilled == c.fulfilled && r.rejected == c.rejected
  {
    if c.state == Pending then c.(state := StateOf(side), result := v) else c
  }

  /**
   * The callbacks a settlement on `side` runs, in the order of the queue:
   * the whole matching queue when the instance is pending, nothing otherwise.
   */
  function Released<V, Q>(c: Cell<V, Q>, side: Side): (qs: seq<Q>)
    ensures c.state != Pending ==> qs == []
    ensures c.state == Pending && side == Fulfilment ==> qs == c.fulfilled
    ensures c.state == Pending && side == Rejection ==> qs == c.rejected
  {
    if c.state != Pending then []
    else if side == Fulfilment then c.fulfilled
    else c.rejected
  }

  /** The reaction of a pair that belongs to `side`. */
  function Pick<Q>(side: Side, onFulfilled: Q, onRejected: Q): Q
  {
    if side == Fulfilment then onFulfilled else onRejected
  }

  /**
   * Registration by `then`: while pending, push the two reactions; once
   * settled, leave the cell alone and hand the reaction that matches the
   * state to the scheduler.
   */
  function Register<V, Q>(c: Cell<V, Q>, onFulfilled: Q, onRejected: Q): (r: (Cell<V, Q>, seq<Q>))
    ensures r.0.state == c.state && r.0.result == c.result
    ensures c.state == Pending ==> r.1 == [] && r.0.fulfilled == c.fulfilled + [onFulfilled]
                                            && r.0.rejected == c.rejected + [onRejected]
    ensures c.state == Fulfilled ==> r.0 == c && r.1 == [onFulfilled]
    ensures c.state == Rejected ==> r.0 == c && r.1 == [onRejected]
  {
    match c.state
    case Pending => (c.(fulfilled := c.fulfilled + [onFulfilled], rejected := c.rejected + [onRejected]), [])
    case Fulfilled => (c, [onFulfilled])
    case Rejected => (c, [onRejected])
  }

  /**
   * The constructor running its executor script: each call of `resolve` or
   * `reject` is applied in turn; a throw leaves the executor and the
   * surrounding catch calls `reject` with the thrown value. An executor
   * never touches the queues; an instance stays pending only when nothing
   * settled it, and any step settles it.
   */
  function Run<V, Q>(c: Cell<V, Q>, script: seq<Action<V>>): (r: Cell<V, Q>)
    ensures r.fulfilled == c.fulfilled && r.rejected == c.rejected
    ensures r.state == Pending ==> r == c
    ensures script != [] ==> r.state != Pending
    decreases |script|
  {
    if script == [] then c
    else match script[0]
      case CallResolve(v) => Run(Settle(c, Fulfilment, v), script[1..])
      case CallReject(r) => Run(Settle(c, Rejection, r), script[1..])
      case Throw(e) => Settle(c, Rejection, e)
  }

  /** Once settled, no further call of `resolve` or `reject`, nor a throw, changes anything. */
  lemma {:induction false} SettledIsFinal<V, Q>(c: Cell<V, Q>, script: seq<Action<V>>)
    requires c.state != Pending
    ensures Run(c, script) == c
    decreases |script|
  {
    if script != [] && !script[0].Throw? {
      SettledIsFinal(c, script[1..]);
    }
  }

  /**
   * Settle at most once: whatever sequence of `resolve`/`reject` calls and
   * throws the executor performs, the state and payload are those of its
   * first step; a throw after a settlement is ignored.
   */
  lemma {:induction false} FirstCallWins<V, Q>(c: Cell<V, Q>, script: seq<Action<V>>)
    requires c.state == Pending && script != []
    ensures Run(c, script) == Settle(c, ActionSide(script[0]), ActionPayload(script[0]))
    ensures Run(c, script).state == StateOf(ActionSide(script[0]))
    ensures Run(c, script).result == ActionPayload(script[0])
  {
    var first := Settle(c, ActionSide(script[0]), ActionPayload(script[0]));
    if !script[0].Throw? {
      SettledIsFinal(first, script[1..]);
    }
  }

  /**
   * A settled instance keeps its payload: a second settlement, on either
   * side, changes neither state nor payload and releases no callback.
   */
  lemma SecondSettlementIsNoOp<V, Q>(c: Cell<V, Q>, a: Side, v: V, b: Side, u: V)
    ensures Settle(Settle(c, a, v), b, u) == Settle(c, a, v)
    ensures Released(Settle(c, a, v), b) == []
  {
  }

  /**
   * Every reaction handed to `then` is scheduled exactly once, in the same
   * position, whether `then` runs before or after the settlement: registering
   * on a pending cell and then settling releases the old queue followed by the
   * new reaction; settling first and then registering schedules that reaction
   * alone, after the old queue was released.
   */
  lemma RegisterBeforeOrAfterSettle<V, Q>(c: Cell<V, Q>, side: Side, v: V, onFulfilled: Q, onRejected: Q)
    requires c.state == Pending
    ensures var before := Register(c, onFulfilled, onRejected).0;
            Released(before, side) == Released(c, side) + [Pick(side, onFulfilled, onRejected)]
    ensures Register(Settle(c, side, v), onFulfilled, onRejected).1 == [Pick(side, onFulfilled, onRejected)]
    ensures Settle(Register(c, onFulfilled, onRejected).0, side, v).state == Register(Settle(c, side, v), onFulfilled, onRejected).0.state
    ensures Settle(Register(c, onFulfilled, onRejected).0, side, v).result == v
  {
  }
}
