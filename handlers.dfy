/**
 * The type-erased handler: a typed user callback wrapped as a closure over
 * `Box<dyn Any + Send>`. The body of a user callback is arbitrary code, so
 * it is represented by an identifier, and running it is recorded as a `Call`
 * of that identifier with the payload it received.
 */
module Handlers {
  import opened Events

  /** Identifies one user callback passed to `register`. */
  type CallbackId = nat

  /** One stored wrapper: the callback it runs and the `E::Data` it downcasts to. */
  datatype Handler = Handler(callback: CallbackId, expects: Shape)

  /** One run of a user callback with the payload it was given. */
  datatype Call = Call(callback: CallbackId, arg: Value)

  /** The wrapper `register::<E>` builds around `callback`: it downcasts to `E::Data`. */
  function Wrap(k: Kind, callback: CallbackId): Handler
  {
    Handler(callback, k.data)
  }

  /**
   * Drives one wrapper's future to completion on a boxed payload: the user
   * callback runs once with the unboxed value when the downcast succeeds, and
   * nothing happens otherwise.
   */
  function Invoke(h: Handler, b: AnyBox): (calls: seq<Call>)
    ensures |calls| <= 1
    ensures calls != [] <==> Downcast(b, h.expects).Some?
    ensures forall c :: c in calls ==> c.callback == h.callback && c.arg == b.contents
  {
    match Downcast(b, h.expects)
    case Some(v) => [Call(h.callback, v)]
    case None => []
  }

  /** The calls made by invoking the handlers of `hs` one after another. */
  function Dispatch(hs: seq<Handler>, b: AnyBox): seq<Call>
  {
    if hs == [] then [] else Dispatch(hs[..|hs| - 1], b) + Invoke(hs[|hs| - 1], b)
  }

  /** Dispatching over a concatenation is dispatching over each part in turn. */
  lemma {:induction false} DispatchAppend(xs: seq<Handler>, ys: seq<Handler>, b: AnyBox)
    ensures Dispatch(xs + ys, b) == Dispatch(xs, b) + Dispatch(ys, b)
    decreases |ys|
  {
    if ys == [] {
      assert xs + ys == xs;
    } else {
      var ys' := ys[..|ys| - 1];
      assert (xs + ys)[..|xs + ys| - 1] == xs + ys';
      assert (xs + ys)[|xs + ys| - 1] == ys[|ys| - 1];
      DispatchAppend(xs, ys', b);
    }
  }

  /**
   * When every handler expects the payload's own type, each handler's callback
   * runs exactly once, in list order, with a value equal to the payload: the
   * quiet no-op branch of the wrapper is never taken.
   */
  lemma {:induction false} DispatchAll(hs: seq<Handler>, v: Value)
    requires forall i :: 0 <= i < |hs| ==> hs[i].expects == TypeOf(v)
    ensures |Dispatch(hs, Box(v))| == |hs|
    ensures forall i :: 0 <= i < |hs| ==> Dispatch(hs, Box(v))[i] == Call(hs[i].callback, v)
    decreases |hs|
  {
    if hs != [] {
      var init := hs[..|hs| - 1];
      DispatchAll(init, v);
      BoxDowncast(v, hs[|hs| - 1].expects);
      assert Invoke(hs[|hs| - 1], Box(v)) == [Call(hs[|hs| - 1].callback, v)];
    }
  }

  /** When no handler expects the boxed payload's type, dispatch calls nothing. */
  lemma {:induction false} DispatchMismatch(hs: seq<Handler>, b: AnyBox)
    requires forall i :: 0 <= i < |hs| ==> hs[i].expects != b.typeId
    ensures Dispatch(hs, b) == []
    decreases |hs|
  {
    if hs != [] {
      DispatchMismatch(hs[..|hs| - 1], b);
    }
  }
}
