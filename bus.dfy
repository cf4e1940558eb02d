/**
 * The handler registry `AsyncEventBus`: a table from event kind to the
 * wrappers registered for it, in registration order. The reader/writer lock
 * around the table is not modelled: `register`, `emit` and `has_handlers`
 * each run as one atomic step.
 */
module EventBus {
  import opened Events
  import opened Handlers

  type Table = map<Kind, seq<Handler>>

  /** The list stored for `k`, or the empty list when `k` has no entry. */
  function Lookup(t: Table, k: Kind): seq<Handler>
  {
    if k in t then t[k] else []
  }

  /**
   * The table invariant: every entry holds at least one wrapper, and every
   * wrapper stored under a kind downcasts to that kind's payload shape.
   */
  ghost predicate WellKeyed(t: Table)
  {
    forall k :: k in t ==> t[k] != [] && forall h :: h in t[k] ==> h.expects == k.data
  }

  /** `entry(k).or_default().push(h)`: the table after appending `h` under `k`. */
  function Registered(t: Table, k: Kind, h: Handler): (r: Table)
    ensures r.Keys == t.Keys + {k}
    ensures Lookup(r, k) == Lookup(t, k) + [h]
    ensures forall k' :: k' != k ==> Lookup(r, k') == Lookup(t, k')
  {
    t[k := Lookup(t, k) + [h]]
  }

  /** `Box::new(d.clone())` handed to each wrapper stored under `k`, in order. */
  function EmitCalls(t: Table, k: Kind, d: Value): seq<Call>
  {
    Dispatch(Lookup(t, k), Box(d))
  }

  /** Registering a wrapper built for `k` keeps the table invariant. */
  lemma RegisteredKeepsWellKeyed(t: Table, k: Kind, callback: CallbackId)
    requires WellKeyed(t)
    ensures WellKeyed(Registered(t, k, Wrap(k, callback)))
  {
  }

  /**
   * On a well-keyed table, emitting a payload of the kind's type calls exactly
   * the callbacks registered for the kind, each once, in registration order,
   * each with a value equal to the payload.
   */
  lemma EmitCallsExactly(t: Table, k: Kind, d: Value)
    requires WellKeyed(t)
    requires TypeOf(d) == k.data
    ensures |EmitCalls(t, k, d)| == |Lookup(t, k)|
    ensures forall i :: 0 <= i < |Lookup(t, k)| ==> EmitCalls(t, k, d)[i] == Call(Lookup(t, k)[i].callback, d)
  {
    var hs := Lookup(t, k);
    forall i | 0 <= i < |hs| ensures hs[i].expects == TypeOf(d) {
      assert hs[i] in t[k];
    }
    DispatchAll(hs, d);
  }

  /** Emitting a kind that has no entry calls nothing. */
  lemma EmitUnknownKind(t: Table, k: Kind, d: Value)
    requires k !in t
    ensures EmitCalls(t, k, d) == []
  {
  }

  /**
   * On a well-keyed table, emitting a payload whose type is not the kind's
   * calls nothing: every stored wrapper's downcast fails quietly.
   */
  lemma EmitIllTyped(t: Table, k: Kind, d: Value)
    requires WellKeyed(t)
    requires TypeOf(d) != k.data
    ensures EmitCalls(t, k, d) == []
  {
    var hs := Lookup(t, k);
    forall i | 0 <= i < |hs| ensures hs[i].expects != Box(d).typeId {
      assert hs[i] in t[k];
    }
    DispatchMismatch(hs, Box(d));
  }

  /**
   * After registering `callback` for `k`, emitting `k` makes the calls it made
   * before, followed by one call of `callback` when the payload has the kind's
   * type.
   */
  lemma EmitAfterRegister(t: Table, k: Kind, callback: CallbackId, d: Value)
    ensures EmitCalls(Registered(t, k, Wrap(k, callback)), k, d)
         == EmitCalls(t, k, d) + (if TypeOf(d) == k.data then [Call(callback, d)] else [])
  {
  }

  /** Registering for kind `a` never changes what emitting another kind `b` calls. */
  lemma EmitIsolated(t: Table, a: Kind, b: Kind, h: Handler, d: Value)
    requires a != b
    ensures EmitCalls(Registered(t, a, h), b, d) == EmitCalls(t, b, d)
  {
  }

  /**
   * Registrations are not deduplicated: registering the same callback twice
   * for `k` makes every later emission of `k` call it twice more.
   */
  lemma DuplicateRegistration(t: Table, k: Kind, callback: CallbackId, d: Value)
    requires TypeOf(d) == k.data
    ensures EmitCalls(Registered(Registered(t, k, Wrap(k, callback)), k, Wrap(k, callback)), k, d)
         == EmitCalls(t, k, d) + [Call(callback, d), Call(callback, d)]
  {
    var t1 := Registered(t, k, Wrap(k, callback));
    EmitAfterRegister(t, k, callback, d);
    EmitAfterRegister(t1, k, callback, d);
  }

  /**
   * `AsyncEventBus`; the `Arc<Self>` that `new` returns, whose clones all refer
   * to one bus, is the object reference.
   */
  class AsyncEventBus {
    var table: Table

    ghost predicate Valid()
      reads this
    {
      WellKeyed(table)
    }

    /** The wrappers registered for `k`, in registration order. */
    function HandlersFor(k: Kind): seq<Handler>
      reads this
    {
      Lookup(table, k)
    }

    /** `AsyncEventBus::new` (and `Default`): an empty table. */
    constructor ()
      ensures Valid() && table == map[]
      ensures forall k :: !HasHandlers(k)
    {
      table := map[];
    }

    /**
     * `register::<E>(handler)`: appends the wrapper for `callback` to the list
     * of `k`, creating the entry when absent; every other list is unchanged.
     */
    method Register(k: Kind, callback: CallbackId)
      requires Valid()
      modifies this
      ensures Valid()
      ensures table == Registered(old(table), k, Wrap(k, callback))
      ensures HandlersFor(k) == old(HandlersFor(k)) + [Handler(callback, k.data)]
      ensures forall k' :: k' != k ==> HandlersFor(k') == old(HandlersFor(k'))
    {
      RegisteredKeepsWellKeyed(table, k, callback);
      table := table[k := Lookup(table, k) + [Wrap(k, callback)]];
    }

    /**
     * `emit::<E>(data)`: invokes the wrappers registered for `k` one after
     * another, each on its own boxed clone of `d`, and returns the user
     * callback runs this makes. It only reads the table.
     */
    method Emit(k: Kind, d: Value) returns (calls: seq<Call>)
      requires Valid()
      ensures calls == EmitCalls(table, k, d)
      ensures TypeOf(d) == k.data ==> |calls| == |HandlersFor(k)|
      ensures TypeOf(d) == k.data ==>
        forall i :: 0 <= i < |HandlersFor(k)| ==> calls[i] == Call(HandlersFor(k)[i].callback, d)
      ensures TypeOf(d) != k.data ==> calls == []
      ensures k !in table ==> calls == []
    {
      calls := [];
      if k in table {
        var hs := table[k];
        for i := 0 to |hs|
          invariant calls == Dispatch(hs[..i], Box(d))
        {
          assert hs[..i + 1][..i] == hs[..i];
          calls := calls + Invoke(hs[i], Box(d));
        }
        assert hs[..|hs|] == hs;
      }
      if TypeOf(d) == k.data {
        EmitCallsExactly(table, k, d);
      } else {
        EmitIllTyped(table, k, d);
      }
    }

    /**
     * `has_handlers::<E>()`: whether `k` has an entry, which under the table
     * invariant is the same as having at least one registered handler.
     */
    function HasHandlers(k: Kind): (r: bool)
      reads this
      requires Valid()
      ensures r <==> HandlersFor(k) != []
    {
      k in table
    }
  }
}
