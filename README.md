# rust_event: the asynchronous event bus, modelled in Dafny

`rust_event` is an in-process publish/subscribe broker. An event kind is a marker type `E` whose
`Event::Data` is the payload shape. `AsyncEventBus` keeps a table from `TypeId::of::<E>()` to an
ordered list of type-erased handlers. `register::<E>` wraps a typed async callback in a closure over
`Box<dyn Any + Send>` and appends it to the list for `E`. `emit::<E>(data)` gives each handler of
`E` a boxed clone of `data`, in order, and awaits each one before starting the next.
`has_handlers::<E>` reports whether `E` has an entry.

The model has four modules:

- `Events` (events.dfy): payload field types and values, payload shapes, and event kinds. A kind
  carries its own payload shape, so no kind can be bound to two shapes. `AnyBox` stands for
  `Box<dyn Any + Send>`: a value and its runtime type tag. `Downcast` compares that tag with the
  requested type.
- `Handlers` (handlers.dfy): a stored handler is a callback identifier plus the shape the wrapper
  downcasts to. `Invoke` is the wrapper closure driven to completion. It yields the user callback's
  run as a `Call` of that callback with the payload it received, or nothing when the downcast fails.
  `Dispatch` is the calls made by invoking a list of handlers one after another.
- `EventBus` (bus.dfy): the table as a value (`Lookup`, `Registered`, `EmitCalls`, the invariant
  `WellKeyed`) and lemmas about it. The class `AsyncEventBus` has a `table` field. `Register` changes
  that field. `Emit` only reads it and returns the trace of callback runs. `HasHandlers` is a function.
- `Scenarios` (scenarios.dfy): the repository's two tests, written as clients of the class. `NonGlobal`
  adds two `has_handlers` queries, before and after registering, that the test itself does not make.

Handler bodies are user code that only prints in this repository. So each handler is an identifier,
and what it would do is read off the returned trace. Calling `Emit` or `HasHandlers` with a kind
corresponds to the type argument `E`. Passing a payload corresponds to the value argument, whose
static type the Rust compiler checks against `E::Data`. `Emit` does not require that check to have
passed. Its exact-call guarantee is conditional on it, and on an ill-typed payload every wrapper's downcast
fails quietly, so no callback runs (`EventBus.EmitIllTyped`).

`emit` awaits each handler before starting the next (src/lib.rs:61-64), so the calls happen strictly
in list order.

## Model

| member | source | states |
|---|---|---|
| `Events.BoxDowncast` | src/lib.rs:45 | downcasting a boxed value succeeds exactly when the requested type is the value's own type, and then gives the value back |
| `Handlers.Invoke` | src/lib.rs:42-48 | the wrapper runs the user callback at most once, when the downcast to the expected shape succeeds, and passes it the boxed contents; otherwise it does nothing |
| `Handlers.DispatchAppend` | src/lib.rs:61-64 | invoking the handlers of a concatenated list makes the first part's calls, then the second part's |
| `Handlers.DispatchAll` | src/lib.rs:60-64 | when every handler expects the payload's type, each handler's callback runs exactly once, in list order, with a value equal to the payload |
| `Handlers.DispatchMismatch` | src/lib.rs:45-47 | when no handler expects the boxed payload's type, no callback runs at all |
| `EventBus.Registered` | src/lib.rs:52-55 | `entry(k).or_default().push(h)` adds `k` to the keys, appends `h` to the end of `k`'s list, and leaves every other kind's list unchanged |
| `EventBus.RegisteredKeepsWellKeyed` | src/lib.rs:39-55 | appending a wrapper built for `k` under the key of `k` keeps the invariant: every entry is non-empty, and every stored wrapper expects its key's payload shape |
| `EventBus.EmitCallsExactly` | src/lib.rs:58-66 | on a table that keeps the invariant, emitting a well-typed payload calls exactly the registered callbacks, in registration order, each once, each with a value equal to the payload |
| `EventBus.EmitUnknownKind` | src/lib.rs:60 | emitting a kind with no entry calls nothing |
| `EventBus.EmitIllTyped` | src/lib.rs:42-48 | on a table that keeps the invariant, emitting a payload whose type is not the kind's payload shape calls nothing: each stored wrapper takes its no-op branch |
| `EventBus.EmitAfterRegister` | src/lib.rs:52-55 | after one more registration for `k`, emitting `k` makes the earlier calls followed by one call of the new callback (none when the payload is ill-typed) |
| `EventBus.EmitIsolated` | src/lib.rs:39 | registering for kind `a` never changes what emitting a different kind `b` calls, even when the two share a payload shape |
| `EventBus.DuplicateRegistration` | src/lib.rs:52-55 | registrations are not deduplicated: registering the same callback twice for `k` adds two calls of it to every later emission of `k` |
| `EventBus.AsyncEventBus.constructor` | src/lib.rs:29-33 | a new bus has an empty table, so `HasHandlers` is false for every kind |
| `EventBus.AsyncEventBus.Register` | src/lib.rs:35-56 | the table becomes `Registered(old table, k, wrapper)`: `k`'s list gains the wrapper at its end, every other list is unchanged, and the invariant is kept |
| `EventBus.AsyncEventBus.Emit` | src/lib.rs:58-66 | the returned calls are those of the wrappers of `k` invoked in order on boxed copies of the payload; for a well-typed payload, one call per registered handler in registration order, each with the payload; no calls for an ill-typed payload or when `k` has no entry; the table is not modified (no `modifies` clause) |
| `EventBus.AsyncEventBus.HasHandlers` | src/lib.rs:67-70 | under the invariant, `contains_key` is true exactly when the kind has at least one registered handler |
| `Scenarios.NonGlobal` | tests/non_global.rs:16-24 | on a new bus, `has_handlers` is false before registering and true after; one handler registered twice runs twice on one emission, each time with `("Alice", "Hello Event!")` |
| `Scenarios.RegisterGlobalHandlers` | tests/global.rs:42-44 | three registrations for three kinds leave exactly one handler under each kind |
| `Scenarios.EmitCounters` | tests/global.rs:63-66 | emitting the counter values 1 to 20 in turn makes the counter handler receive exactly 1, 2, ..., 20, in that order |
| `Scenarios.Global` | tests/global.rs:38-79 | two messages, twenty counter values and one alert each reach only their own kind's handler, in emission order |

## Left out

- The `tokio::sync::RwLock` around the table and the `BoxFuture` and `async` machinery (src/lib.rs:4-20, 51, 59): each operation is one atomic, sequential step, and awaiting a handler is running it to completion. One consequence is not captured: `emit` holds the read guard while it awaits every handler (src/lib.rs:59-64), so a handler that calls `register` on the same bus never gets the write lock (src/lib.rs:51) and that emission never finishes; model handlers are identifiers and cannot call back into the bus.
- Handler bodies: they are arbitrary user code; each is an identifier, and its run is recorded in the returned trace. Every handler is taken to run to completion: a handler that panics ends the loop of `emit` (src/lib.rs:61-64) before the later handlers run, and the trace does not show that.
- The `Arc<Self>` that `new` returns (src/lib.rs:29-30), whose clones (src/lib.rs:85, 119, 131) all refer to one bus; the inner `Arc` around the table (src/lib.rs:25) is never cloned. Dafny object references give the same sharing.
- `GLOBAL_EVENT_BUS` (src/lib.rs:108-112): its lazy, at-most-once construction belongs to `once_cell`. Used, it is an `AsyncEventBus` like any other.
- `event_register_global_async!` and `event_emit_global!` (src/lib.rs:114-136) run `register` and `emit` on detached tasks. The model has no tasks, so the race in which an emission finds no handler because a detached registration has not finished is not modelled.
- Scenarios.Global: assumes each detached task of the test finishes before the next one starts, which the test's sleeps make likely but do not guarantee; the order of the two message emissions and of the first counter emission, all spawned with no sleep between them (tests/global.rs:52-64), is in fact not guaranteed.
- `event!`, `event_emit!` and `event_register_async!` (src/lib.rs:76-107) only expand to a marker type, `emit` and `register`. The model uses the operations directly and writes kinds as `Kind` values.
- `event_global_async!`, `event_summon_global_bus!` and `event_async!`, used by the examples, are not defined in src/lib.rs; they are not part of this model.
- Payload fields are limited to the types the repository's tests and examples use (`String`, `u32`, `Vec<u8>`), and payloads are flat tuples of them.
