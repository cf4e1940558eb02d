/**
 * Clients of the bus that follow the repository's tests, written against the
 * contracts of `AsyncEventBus` alone. The test handlers only print, so each
 * is a callback identifier and what it receives is read off the call trace.
 */
module Scenarios {
  import opened Events
  import opened Handlers
  import opened EventBus

  const PluginMessageEvent := Kind("PluginMessageEvent", [StringType, StringType])
  const GlobalMessageEvent := Kind("GlobalMessageEvent", [StringType, StringType])
  const GlobalCounterEvent := Kind("GlobalCounterEvent", [U32Type])
  const SystemAlertEvent := Kind("SystemAlertEvent", [StringType])

  const HandlePluginMessage: CallbackId := 1
  const HandleGlobalMessage: CallbackId := 2
  const HandleGlobalCounter: CallbackId := 3
  const HandleSystemAlert: CallbackId := 4

  /**
   * The test on a bus of its own: the same handler registered twice for one
   * kind runs twice on one emission, both times with the emitted pair. The two
   * `has_handlers` queries, before and after registering, are added to the test.
   */
  method NonGlobal() returns (before: bool, after: bool, calls: seq<Call>)
    ensures !before && after
    ensures calls == [Call(HandlePluginMessage, [Str("Alice"), Str("Hello Event!")]),
                      Call(HandlePluginMessage, [Str("Alice"), Str("Hello Event!")])]
  {
    var bus := new AsyncEventBus();
    before := bus.HasHandlers(PluginMessageEvent);
    bus.Register(PluginMessageEvent, HandlePluginMessage);
    bus.Register(PluginMessageEvent, HandlePluginMessage);
    after := bus.HasHandlers(PluginMessageEvent);
    var data := [Str("Alice"), Str("Hello Event!")];
    assert TypeOf(data) == PluginMessageEvent.data;
    calls := bus.Emit(PluginMessageEvent, data);
  }

  /** What the counter handler receives for the emissions 1 to `n`. */
  function CounterRun(n: nat): seq<Call>
    requires n <= 20
  {
    seq(n, j requires 0 <= j < n => Call(HandleGlobalCounter, [U32((j + 1) as u32)]))
  }

  /** The registrations the process-wide test makes, one handler per kind. */
  method RegisterGlobalHandlers() returns (bus: AsyncEventBus)
    ensures fresh(bus) && bus.Valid()
    ensures bus.HandlersFor(GlobalMessageEvent) == [Handler(HandleGlobalMessage, GlobalMessageEvent.data)]
    ensures bus.HandlersFor(GlobalCounterEvent) == [Handler(HandleGlobalCounter, GlobalCounterEvent.data)]
    ensures bus.HandlersFor(SystemAlertEvent) == [Handler(HandleSystemAlert, SystemAlertEvent.data)]
  {
    bus := new AsyncEventBus();
    bus.Register(GlobalMessageEvent, HandleGlobalMessage);
    bus.Register(GlobalCounterEvent, HandleGlobalCounter);
    bus.Register(SystemAlertEvent, HandleSystemAlert);
  }

  /** The counter emissions 1 to 20, one after another. */
  method EmitCounters(bus: AsyncEventBus) returns (trace: seq<Call>)
    requires bus.Valid()
    requires bus.HandlersFor(GlobalCounterEvent) == [Handler(HandleGlobalCounter, GlobalCounterEvent.data)]
    ensures trace == CounterRun(20)
  {
    trace := [];
    for i := 1 to 21
      invariant trace == CounterRun(i - 1)
    {
      var count := [U32(i as u32)];
      assert TypeOf(count) == GlobalCounterEvent.data;
      var calls := bus.Emit(GlobalCounterEvent, count);
      assert CounterRun(i) == CounterRun(i - 1) + calls;
      trace := trace + calls;
    }
  }

  /**
   * The test on the process-wide bus, with every registration completed before
   * the first emission and every emission completed before the next: two
   * messages, the counter values 1 to 20, then one alert, each reaching only
   * the handler of its own kind.
   */
  method Global() returns (trace: seq<Call>)
    ensures trace == [Call(HandleGlobalMessage, [Str("Global Alice"), Str("Hello from global!")]),
                      Call(HandleGlobalMessage, [Str("Global Bob"), Str("This is a global message")])]
                   + CounterRun(20)
                   + [Call(HandleSystemAlert, [Str("Critical system update required!")])]
  {
    var bus := RegisterGlobalHandlers();
    var alice := [Str("Global Alice"), Str("Hello from global!")];
    var bob := [Str("Global Bob"), Str("This is a global message")];
    assert TypeOf(alice) == GlobalMessageEvent.data && TypeOf(bob) == GlobalMessageEvent.data;
    var first := bus.Emit(GlobalMessageEvent, alice);
    var second := bus.Emit(GlobalMessageEvent, bob);
    var counters := EmitCounters(bus);
    var alert := [Str("Critical system update required!")];
    assert TypeOf(alert) == SystemAlertEvent.data;
    var last := bus.Emit(SystemAlertEvent, alert);
    trace := first + second + counters + last;
  }
}
