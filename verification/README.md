# LocalBroker — a Dafny model of the in-process service broker

This project models `LocalBroker`, the in-process service broker of Rocket.Chat's `core-services`
package. The broker keeps four pieces of state:

- a method table from `namespace.method` to a handler bound to its service;
- an event bus (a Node.js `EventEmitter`) holding an ordered listener list per event name;
- the set of registered services;
- a `started` flag.

Services are registered with `createService` and deregistered with `destroyService`. Methods are
invoked with `call`. Events are published with `broadcast`, `broadcastLocal` and `broadcastToServices`.
`start` triggers the services' `started` hooks and then sets the flag. `onBroadcast` attaches a
transport to the reserved `'broadcast'` channel.

Each operation is a pure function of the broker state. `createService`, `destroyService`, `start` and
`onBroadcast` return a `Transition`: the next state, a trace of effects and a status. `call` returns a
`CallOutcome` (the reply and a trace), and the three broadcasts return just their trace, a `seq<Effect>`;
`Step` wraps each of these into a `Transition` that leaves the state unchanged and keeps only the trace.
The trace records effects on code outside the broker: lifecycle hooks triggered, listeners invoked with their payload, and handlers invoked with their arguments and
call context. The status says whether the operation resolved or failed.

Modules:

- `Base` (`base.dfy`): `Option` and a distinctness predicate.
- `Emitter` (`emitter.dfy`): the listener-list semantics of Node's `EventEmitter`, which the broker relies on.
- `LocalBroker` (`local_broker.dfy`): the data model, the operations, and `Step`/`Run` over a sequence of operations.
- `BrokerProperties` (`broker_properties.dfy`): lemmas relating several operations.
- `BrokerScenarios` (`broker_scenarios.dfy`): concrete runs on small services.

Modelling decisions:

- A service is a value, and the whole value is its identity: two values that differ in any field are two objects. The `id` field tells apart objects whose other fields coincide. `name` is `getName()`. `events` is `getEvents()`.
  `methodNames` stands for the own property names the broker enumerates through reflection. The same value
  is used at registration and at destruction, so both passes see the same names and subscriptions.
- A service's `Hooks` record says whether its `created()` throws and whether its `started()` and `stopped()` reject.
- The services set is a sequence without duplicates. A JavaScript `Set` iterates in insertion order, and
  `start` triggers the hooks in that order.
- The `EventEmitter` is not part of the modelled source, so its behaviour is an assumption. `on` appends to
  the end of a list. `removeListener` scans from the end and removes at most one occurrence, the most recent
  one. An emptied list loses its entry. `emit` invokes the listeners in list order.
- Four facts about the code that the model keeps:
  - `call` on an unknown key returns `undefined` and invokes nothing; no error is raised.
  - `destroyService` never removes the service from the services set.
  - `destroyService` calls `getEvents()` again rather than remembering what was attached.
  - `broadcastToServices` ignores its list of service names and emits to every local listener.

## Model

| member | source | states |
|---|---|---|
| Emitter.On | packages/core-services/src/LocalBroker.ts:66 | `on(e, l)` appends `l` at the end of `e`'s list; every other event's list is unchanged; a table with no empty lists keeps none |
| Emitter.LastIndexOf | packages/core-services/src/LocalBroker.ts:42 | the index found is an occurrence of the listener with none after it; no index is found exactly when the listener is absent |
| Emitter.RemoveLast | packages/core-services/src/LocalBroker.ts:42 | an absent listener leaves the list as it is; for a present one exactly its last occurrence is cut out and the remaining listeners keep their order |
| Emitter.RemoveListener | packages/core-services/src/LocalBroker.ts:42 | `removeListener(e, l)` drops at most the last occurrence of `l` from `e`'s list, leaves other events alone, and is a no-op for an absent listener |
| Emitter.OnEach | packages/core-services/src/LocalBroker.ts:66 | attaching a service's subscriptions extends each event's list by exactly that event's new listeners, in subscription order |
| Emitter.RemoveEach | packages/core-services/src/LocalBroker.ts:42 | detaching a service's subscriptions removes, per event, that event's listeners one at a time, each as its last occurrence |
| Emitter.RemoveLastInSuffix | packages/core-services/src/LocalBroker.ts:42 | removing a listener that occurs in an appended block leaves the earlier listeners untouched |
| Emitter.RemoveEachOfCancels | packages/core-services/src/LocalBroker.ts:42 | removing, one by one, the listeners of an appended block, in any order, takes away exactly that block |
| Emitter.RemoveEachUndoesOnEach | packages/core-services/src/LocalBroker.ts:42-66 | attaching a service's listeners and then detaching the same pairs restores the whole listener table, whatever else was attached |
| LocalBroker.MethodKeyParts | packages/core-services/src/LocalBroker.ts:78 | the key is the namespace, a `.`, then the method name, each recoverable from its position |
| LocalBroker.InitialState | packages/core-services/src/LocalBroker.ts:12-18 | a fresh broker has no methods, no listeners and no services, is not started, and satisfies the state invariant |
| LocalBroker.Pairs | packages/core-services/src/LocalBroker.ts:66 | the nested `forEach` over `getEvents()` visits, for every event, exactly the listeners of every entry for that event, in order |
| LocalBroker.MethodKeyInjective | packages/core-services/src/LocalBroker.ts:78 | within one namespace, two method names with the same key are the same name |
| LocalBroker.ConstructorKeyNotOwned | packages/core-services/src/LocalBroker.ts:48-51 | the key `<name>.constructor` is never among a service's keys |
| LocalBroker.InstallMethods | packages/core-services/src/LocalBroker.ts:68-79 | every method name except `constructor` maps to the service's bound handler under `<name>.<method>`; the table gains exactly those keys, overwriting colliding entries; no other entry changes |
| LocalBroker.RemoveMethods | packages/core-services/src/LocalBroker.ts:44-54 | exactly the service's keys leave the table; absent keys are no-ops; every other entry is untouched |
| LocalBroker.AddService | packages/core-services/src/LocalBroker.ts:62 | the set gains exactly the service, keeps its earlier order, and stays duplicate-free |
| LocalBroker.CreateService | packages/core-services/src/LocalBroker.ts:59-83 | appends the service to the ordered set unless already there; the trace is `created` alone, or `created` then `started`; triggers `created` first; triggers `started` exactly when the broker is started and `created` did not throw; installs its methods and appends its listeners, leaving every other method entry and listener list unchanged; a throwing `created` leaves the tables as they were |
| LocalBroker.DestroyService | packages/core-services/src/LocalBroker.ts:39-57 | removes exactly the service's keys and detaches its listeners; the set and the flag are unchanged; the service clears its own listeners, then `stopped` runs; a rejecting `stopped` fails the call with `StoppedHookRejected`, otherwise it resolves |
| LocalBroker.Call | packages/core-services/src/LocalBroker.ts:20-37 | returns `undefined` and invokes nothing exactly when no handler is stored under the key; otherwise invokes only the handler under exactly that key, in the constant call context, and returns its result |
| LocalBroker.Deliver | packages/core-services/src/LocalBroker.ts:96 | an emission invokes every listener of the list once, in list order, with the same payload |
| LocalBroker.OnBroadcast | packages/core-services/src/LocalBroker.ts:85-87 | only appends the callback to the `'broadcast'` list; no method, service, flag or other list changes, and nothing is triggered |
| LocalBroker.BroadcastLocal | packages/core-services/src/LocalBroker.ts:95-97 | invokes only the listeners of the event, in order, each with the spread arguments |
| LocalBroker.Broadcast | packages/core-services/src/LocalBroker.ts:89-93 | first the local emission of the event, then every `'broadcast'` listener with the single payload `(event, args)` |
| LocalBroker.BroadcastToServices | packages/core-services/src/LocalBroker.ts:99-105 | produces the same trace as `broadcastLocal` whatever service names are given |
| LocalBroker.StartHooks | packages/core-services/src/LocalBroker.ts:115 | one `started` trigger per registered service, in insertion order |
| LocalBroker.Start | packages/core-services/src/LocalBroker.ts:114-117 | triggers `started` on every service registered at that moment; sets the flag exactly when no hook rejects; otherwise fails with a startup failure and keeps the flag; the tables are unchanged |
| LocalBroker.Step | packages/core-services/src/LocalBroker.ts:12-18 | every operation keeps the state invariant, never removes a service, never clears the flag, and only a successful `start` changes it |
| BrokerProperties.ConstructorKeyUntouched | packages/core-services/src/LocalBroker.ts:72-75 | registration and deregistration both leave the entry under `<name>.constructor` as it was |
| BrokerProperties.CallAfterCreate | packages/core-services/src/LocalBroker.ts:78 | after registration, calling `<name>.<m>` invokes `m` bound to the service |
| BrokerProperties.CallAfterDestroy | packages/core-services/src/LocalBroker.ts:53 | after deregistration, calling `<name>.<m>` returns `undefined` and invokes nothing |
| BrokerProperties.CreateThenDestroyMethods | packages/core-services/src/LocalBroker.ts:44-79 | register-then-deregister leaves the table without the service's keys and otherwise intact; it equals the original table exactly when none of those keys was present before |
| BrokerProperties.CreateThenDestroyListeners | packages/core-services/src/LocalBroker.ts:42-66 | register-then-deregister restores every event's listener list exactly |
| BrokerProperties.BroadcastLocalAfterCreate | packages/core-services/src/LocalBroker.ts:66 | after registration, an emission reaches the earlier listeners first, then each new subscription once |
| BrokerProperties.BroadcastLocalAfterCreateDestroy | packages/core-services/src/LocalBroker.ts:95-97 | after register-then-deregister, every emission reaches exactly the listeners it reached before |
| BrokerProperties.OnBroadcastHearsNextBroadcast | packages/core-services/src/LocalBroker.ts:85-93 | a callback attached with `onBroadcast` is the last one told of a `broadcast` issued right after it, with `(event, args)`; local emissions of other events are unaffected |
| BrokerProperties.LocalEmissionCarriesNoNotice | packages/core-services/src/LocalBroker.ts:89-97 | `broadcastLocal(e, args)` gives `e`'s listeners only the spread arguments; `broadcast` delivers the `(event, args)` notice to a listener exactly when it is on the `'broadcast'` list |
| BrokerProperties.CreateAfterStartTriggersStarted | packages/core-services/src/LocalBroker.ts:80-82 | after a successful `start`, registration triggers `created` and then `started` |
| BrokerProperties.CreateBeforeStartSkipsStarted | packages/core-services/src/LocalBroker.ts:64 | before any successful `start`, registration triggers `created` only |
| BrokerProperties.ServicesOnlyGrow | packages/core-services/src/LocalBroker.ts:18 | no sequence of operations removes a service from the set |
| BrokerProperties.RegisteredServiceStays | packages/core-services/src/LocalBroker.ts:62 | a registered service stays in the set through any later operations, its own deregistration included |
| BrokerProperties.RunPreservesValid | packages/core-services/src/LocalBroker.ts:14-18 | every state reached from a valid one (the fresh broker included) has no empty listener list and no duplicate service |
| BrokerProperties.StartedStaysStarted | packages/core-services/src/LocalBroker.ts:116 | once set, the flag stays set through any operations |
| BrokerProperties.NotStartedWithoutStart | packages/core-services/src/LocalBroker.ts:12 | a broker that is not started stays so through any operations that include no `start` |
| BrokerScenarios.GreeterScenario | packages/core-services/src/LocalBroker.ts:20-79 | `greeter.hello` resolves to `hello` bound to `greeter` after registration, `greeter.constructor` is never registered, and the call returns `undefined` after destruction |
| BrokerScenarios.PingScenario | packages/core-services/src/LocalBroker.ts:95-97 | on a broker where nothing listens to `ping` or `'broadcast'`, two services each subscribing one listener to `ping` are each invoked once, in registration order, by a local emission; no `'broadcast'` listener appears |
| BrokerScenarios.NamespaceCollision | packages/core-services/src/LocalBroker.ts:53-78 | service `a` with method `b.c` and service `a.b` with method `c` share key `a.b.c`; the later registration overwrites it; destroying `a.b` removes it while `a` stays registered |

## Left out

- `nodeList` is not modelled. It reads broker node records from an external database, which is I/O.
- Tracing is not modelled. This covers the span that `call` opens and the injected trace context.
- Async-context propagation is not modelled. `call` is recorded as running its handler inside one constant context record. The context's `broker` back-reference is omitted.
- Promise scheduling is not modelled. Hooks appear as ordered trace entries. A `started` hook triggered by `createService` is not awaited, so its rejection does not fail `createService`. Concurrent interleavings of operations are not modelled.
- Handler, listener and hook bodies are opaque. A handler or listener that throws, or that calls back into the broker, is not modelled. A service's own `removeAllListeners()` is recorded, not executed.
- JavaScript reflection and `bind` are replaced by each service's declared `methodNames` and a `Bound(service, name)` handler value. A non-function property among the enumerated names would make `bind` throw; this is not modelled.
- `EventEmitter` behaviours the broker does not rely on are not modelled: `once` wrappers, the `newListener`/`removeListener` meta-events, the max-listeners warning, and the throw on emitting `'error'` with no listener.
- `Start`: the rejection reason is abstracted to `StartupFailure`. `Promise.all` reports whichever rejection settles first, which depends on timing.
- `CallAfterCreate`, `CreateThenDestroyListeners`, `BroadcastLocalAfterCreate` and `BroadcastLocalAfterCreateDestroy` assume that `created()` does not throw. If it throws, nothing is attached, yet `destroyService` still detaches the service's listeners.
- `LocalEmissionCarriesNoNotice`: in JavaScript, `broadcastLocal('broadcast', ev, a)` calls each `'broadcast'` listener as `(ev, a)`, the same call `broadcast(ev, ...a)` makes. The model keeps the two payload shapes apart (`Spread` and `Notice`), so it does not show a transport relaying such a local emission.
