/**
 * The in-process service broker `LocalBroker`: a method table keyed by `namespace.method`, an event bus of
 * listener lists, an insertion-ordered set of registered services and a `started` flag.
 *
 * Every operation is a pure transition from one broker state to the next, together with the trace of the
 * effects it causes in code outside the broker: lifecycle hooks triggered, listeners and handlers invoked.
 * Hook, handler and listener bodies are opaque; only the fact that, and the order in which, they are
 * triggered is recorded.
 */
module LocalBroker {
  import opened Base
  import opened Emitter

  /** An opaque call or event argument. */
  datatype Value = Value(repr: string)

  /** An opaque listener callback; its identity is what `removeListener` compares. */
  datatype Listener = Listener(id: nat)

  /** One entry of a service's `getEvents()`: an event name and the listeners it subscribes to it. */
  datatype Subscription = Subscription(eventName: string, listeners: seq<Listener>)

  /** How the service's lifecycle hooks end: `created()` may throw, `started()` and `stopped()` may reject. */
  datatype Hooks = Hooks(createdThrows: bool, startedRejects: bool, stoppedRejects: bool)

  /**
   * A service instance. The whole value is its identity: `id` only tells apart objects whose other fields
   * coincide. `name` is what `getName()` returns, `methodNames` the own property names the broker
   * enumerates on it (the same list at registration and at destruction), `events` what `getEvents()` returns.
   */
  datatype Service = Service(id: nat, name: string, methodNames: seq<string>, events: seq<Subscription>, hooks: Hooks)

  /** A method of `service` bound to it, as `i[method].bind(i)` produces. */
  datatype Handler = Bound(service: Service, name: string)

  /** What a listener receives: the spread event arguments, or the `(eventName, args)` pair on the `'broadcast'` channel. */
  datatype Payload = Spread(args: seq<Value>) | Notice(eventName: string, args: seq<Value>)

  /** The context record every call runs in; its `broker` back-reference is not modelled. */
  datatype CallContext = CallContext(id: string, nodeID: string, requestID: string)

  const CallCtx := CallContext("ctx.id", "ctx.nodeID", "ctx.requestID")

  /** The reserved event an external transport listens on to relay broadcasts. */
  const BroadcastChannel := "broadcast"

  /** An effect on code outside the broker, in the order it happens. */
  datatype Effect =
    | CreatedHook(service: Service)
    | StartedHook(service: Service)
    | StoppedHook(service: Service)
    | ListenersCleared(service: Service)
    | ListenerInvoked(listener: Listener, payload: Payload)
    | HandlerInvoked(handler: Handler, args: seq<Value>, ctx: CallContext)

  datatype BrokerError = CreatedHookThrew | StoppedHookRejected | StartupFailure

  /** How the operation ends for its caller. */
  datatype Status = Resolved | Failed(error: BrokerError)

  datatype Broker = Broker(methods: map<string, Handler>, events: Table<Listener>, services: seq<Service>, started: bool)

  datatype Transition = Transition(next: Broker, trace: seq<Effect>, status: Status)

  /** The result of `call`: `undefined` when nothing is registered, else whatever the handler returns for `args`. */
  datatype Reply = Undefined | Returned(handler: Handler, args: seq<Value>)

  datatype CallOutcome = CallOutcome(reply: Reply, trace: seq<Effect>)

  /** A fresh broker: no methods, no listeners, no services, not started. */
  const Init := Broker(map[], map[], [], false)

  /** The field initialisers: nothing is registered, no event has a listener, and the broker is not started. */
  lemma InitialState()
    ensures Valid(Init) && !Init.started
    ensures Init.methods == map[] && Init.services == []
    ensures forall e :: Listeners(Init.events, e) == []
  {
  }

  /** What every reachable broker state satisfies. */
  ghost predicate Valid(b: Broker) {
    WellFormed(b.events) && Distinct(b.services)
  }

  /** The method-table key of method `m` in `namespace`. */
  function MethodKey(namespace: string, m: string): string {
    namespace + "." + m
  }

  /** A key is the namespace, a `.`, then the method name, each recoverable from its position. */
  lemma MethodKeyParts(namespace: string, m: string)
    ensures |MethodKey(namespace, m)| == |namespace| + 1 + |m|
    ensures MethodKey(namespace, m)[..|namespace|] == namespace
    ensures MethodKey(namespace, m)[|namespace|] == '.'
    ensures MethodKey(namespace, m)[|namespace| + 1..] == m
  {
  }

  /** Within one namespace, different method names give different keys. */
  lemma MethodKeyInjective(namespace: string, m1: string, m2: string)
    requires MethodKey(namespace, m1) == MethodKey(namespace, m2)
    ensures m1 == m2
  {
    MethodKeyParts(namespace, m1);
    MethodKeyParts(namespace, m2);
  }

  /** The keys a service with this name and these method names owns; `constructor` is skipped. */
  ghost function KeysOf(namespace: string, names: seq<string>): set<string> {
    set m | m in names && m != "constructor" :: MethodKey(namespace, m)
  }

  ghost function ServiceKeys(s: Service): set<string> {
    KeysOf(s.name, s.methodNames)
  }

  /** `constructor` never has a key among a service's keys, whatever its other method names are. */
  lemma ConstructorKeyNotOwned(namespace: string, names: seq<string>)
    ensures MethodKey(namespace, "constructor") !in KeysOf(namespace, names)
  {
    if MethodKey(namespace, "constructor") in KeysOf(namespace, names) {
      var m :| m in names && m != "constructor" && MethodKey(namespace, m) == MethodKey(namespace, "constructor");
      MethodKeyInjective(namespace, m, "constructor");
    }
  }

  /**
   * The registration loop of `createService`: every name but `constructor` is stored, bound to `s`,
   * under its key, overwriting whatever was there; no other key changes.
   */
  function InstallMethods(methods: map<string, Handler>, s: Service, names: seq<string>): (r: map<string, Handler>)
    ensures r.Keys == methods.Keys + KeysOf(s.name, names)
    ensures forall m :: m in names && m != "constructor" ==> r[MethodKey(s.name, m)] == Bound(s, m)
    ensures forall k :: k in methods && k !in KeysOf(s.name, names) ==> r[k] == methods[k]
    decreases |names|
  {
    if names == [] then methods
    else
      var m := names[0];
      var methods' := if m == "constructor" then methods else methods[MethodKey(s.name, m) := Bound(s, m)];
      var r := InstallMethods(methods', s, names[1..]);
      assert KeysOf(s.name, names) == KeysOf(s.name, names[1..]) + (if m == "constructor" then {} else {MethodKey(s.name, m)}) by {
        assert names == [m] + names[1..];
      }
      forall m' | m' in names && m' != "constructor" ensures r[MethodKey(s.name, m')] == Bound(s, m') {
        if m' !in names[1..] {
          assert m' == m;
          if MethodKey(s.name, m) in KeysOf(s.name, names[1..]) {
            var m2 :| m2 in names[1..] && m2 != "constructor" && MethodKey(s.name, m2) == MethodKey(s.name, m);
            MethodKeyInjective(s.name, m2, m);
          }
        }
      }
      r
  }

  /** The deregistration loop of `destroyService`: exactly the service's keys leave the table, present or not. */
  function RemoveMethods(methods: map<string, Handler>, namespace: string, names: seq<string>): (r: map<string, Handler>)
    ensures r == methods - KeysOf(namespace, names)
    decreases |names|
  {
    if names == [] then methods
    else
      var m := names[0];
      var methods' := if m == "constructor" then methods else methods - {MethodKey(namespace, m)};
      assert KeysOf(namespace, names) == KeysOf(namespace, names[1..]) + (if m == "constructor" then {} else {MethodKey(namespace, m)}) by {
        assert names == [m] + names[1..];
      }
      RemoveMethods(methods', namespace, names[1..])
  }

  /** The `(event, listener)` pairs of a subscription, in order. */
  function Tag(e: string, ls: seq<Listener>): (r: seq<(string, Listener)>)
    ensures |r| == |ls|
    ensures forall i :: 0 <= i < |ls| ==> r[i] == (e, ls[i])
  {
    seq(|ls|, i requires 0 <= i < |ls| => (e, ls[i]))
  }

  /** All `(event, listener)` pairs of `getEvents()`, in the order the broker visits them. */
  function Pairs(subs: seq<Subscription>): (r: seq<(string, Listener)>)
    ensures forall e :: Select(r, e) == SubscribedTo(subs, e)
    decreases |subs|
  {
    if subs == [] then []
    else
      var r := Tag(subs[0].eventName, subs[0].listeners) + Pairs(subs[1..]);
      forall e ensures Select(r, e) == SubscribedTo(subs, e) {
        SelectConcat(Tag(subs[0].eventName, subs[0].listeners), Pairs(subs[1..]), e);
        SelectTag(subs[0].eventName, subs[0].listeners, e);
      }
      r
  }

  /** The listeners the subscriptions give to event `e`: the lists of every entry for `e`, in order. */
  function SubscribedTo(subs: seq<Subscription>, e: string): seq<Listener>
    decreases |subs|
  {
    if subs == [] then []
    else (if subs[0].eventName == e then subs[0].listeners else []) + SubscribedTo(subs[1..], e)
  }

  /** The pairs of one subscription give its listeners to its own event and none to any other. */
  lemma {:induction false} SelectTag(e': string, ls: seq<Listener>, e: string)
    ensures Select(Tag(e', ls), e) == if e' == e then ls else []
    decreases |ls|
  {
    if ls != [] {
      assert Tag(e', ls) == [(e', ls[0])] + Tag(e', ls[1..]);
      SelectConcat([(e', ls[0])], Tag(e', ls[1..]), e);
      SelectTag(e', ls[1..], e);
      assert ls == [ls[0]] + ls[1..];
    }
  }

  /** `services.add(s)`: a JavaScript `Set` keeps insertion order and ignores a second insertion. */
  function AddService(services: seq<Service>, s: Service): (r: seq<Service>)
    ensures forall x :: x in r <==> x in services || x == s
    ensures |services| <= |r| && r[..|services|] == services
    ensures Distinct(services) ==> Distinct(r)
  {
    if s in services then services else services + [s]
  }

  /**
   * `createService(s)`: adds `s` to the services, triggers `created()`, attaches its listeners, installs its
   * methods and, on a started broker, triggers `started()` without waiting. A throwing `created()` ends the
   * registration with `s` in the set but nothing installed.
   */
  function CreateService(b: Broker, s: Service): (r: Transition)
    ensures r.next.started == b.started
    ensures Valid(b) ==> Valid(r.next)
    ensures r.next.services == AddService(b.services, s)
    ensures r.trace == [CreatedHook(s)] + (if b.started && !s.hooks.createdThrows then [StartedHook(s)] else [])
    ensures r.status == Failed(CreatedHookThrew) <==> s.hooks.createdThrows
    ensures r.status.Resolved? <==> !s.hooks.createdThrows
    ensures s.hooks.createdThrows ==> r.next.methods == b.methods && r.next.events == b.events
    ensures !s.hooks.createdThrows ==>
      && r.next.methods.Keys == b.methods.Keys + ServiceKeys(s)
      && (forall m :: m in s.methodNames && m != "constructor" ==> r.next.methods[MethodKey(s.name, m)] == Bound(s, m))
      && (forall k :: k in b.methods && k !in ServiceKeys(s) ==> r.next.methods[k] == b.methods[k])
      && (forall e :: Listeners(r.next.events, e) == Listeners(b.events, e) + SubscribedTo(s.events, e))
  {
    var services := AddService(b.services, s);
    if s.hooks.createdThrows then
      Transition(b.(services := services), [CreatedHook(s)], Failed(CreatedHookThrew))
    else
      var events := OnEach(b.events, Pairs(s.events));
      var methods := InstallMethods(b.methods, s, s.methodNames);
      var trace := [CreatedHook(s)] + (if b.started then [StartedHook(s)] else []);
      Transition(Broker(methods, events, services, b.started), trace, Resolved)
  }

  /**
   * `destroyService(s)`: detaches the listeners `s` lists, deletes the keys of its method names, lets `s`
   * clear its own listeners and awaits `stopped()`. The services set is left as it is, and a rejecting
   * `stopped()` fails the call after the tables have already changed.
   */
  function DestroyService(b: Broker, s: Service): (r: Transition)
    ensures r.next.services == b.services && r.next.started == b.started
    ensures r.next.methods == b.methods - ServiceKeys(s)
    ensures forall e :: Listeners(r.next.events, e) == RemoveEachOf(Listeners(b.events, e), SubscribedTo(s.events, e))
    ensures Valid(b) ==> Valid(r.next)
    ensures r.trace == [ListenersCleared(s), StoppedHook(s)]
    ensures r.status == (if s.hooks.stoppedRejects then Failed(StoppedHookRejected) else Resolved)
  {
    var events := RemoveEach(b.events, Pairs(s.events));
    var methods := RemoveMethods(b.methods, s.name, s.methodNames);
    var status := if s.hooks.stoppedRejects then Failed(StoppedHookRejected) else Resolved;
    Transition(b.(methods := methods, events := events), [ListenersCleared(s), StoppedHook(s)], status)
  }

  /**
   * `call(k, args)`: invokes the handler stored under exactly `k`, inside the call context, and returns what
   * it returns; with nothing stored under `k` it invokes nothing and returns `undefined`.
   */
  function Call(b: Broker, k: string, args: seq<Value>): (r: CallOutcome)
    ensures r.reply.Undefined? <==> k !in b.methods
    ensures r.reply.Undefined? ==> r.trace == []
    ensures r.reply.Returned? ==> r.reply.handler == b.methods[k] && r.reply.args == args
    ensures r.reply.Returned? ==> r.trace == [HandlerInvoked(b.methods[k], args, CallCtx)]
  {
    if k in b.methods then
      CallOutcome(Returned(b.methods[k], args), [HandlerInvoked(b.methods[k], args, CallCtx)])
    else
      CallOutcome(Undefined, [])
  }

  /** One emission: each listener of the list is invoked, in list order, with the payload. */
  function Deliver(ls: seq<Listener>, p: Payload): (r: seq<Effect>)
    ensures |r| == |ls|
    ensures forall i :: 0 <= i < |ls| ==> r[i] == ListenerInvoked(ls[i], p)
  {
    seq(|ls|, i requires 0 <= i < |ls| => ListenerInvoked(ls[i], p))
  }

  /** `onBroadcast(cb)`: `cb` joins the end of the `'broadcast'` listeners; nothing else changes. */
  function OnBroadcast(b: Broker, cb: Listener): (r: Transition)
    ensures Listeners(r.next.events, BroadcastChannel) == Listeners(b.events, BroadcastChannel) + [cb]
    ensures forall e :: e != BroadcastChannel ==> Listeners(r.next.events, e) == Listeners(b.events, e)
    ensures r.next.methods == b.methods && r.next.services == b.services && r.next.started == b.started
    ensures Valid(b) ==> Valid(r.next)
    ensures r.trace == [] && r.status == Resolved
  {
    Transition(b.(events := On(b.events, BroadcastChannel, cb)), [], Resolved)
  }

  /** `broadcastLocal(e, args)`: only the listeners of `e` are invoked, each with the spread arguments. */
  function BroadcastLocal(b: Broker, e: string, args: seq<Value>): (r: seq<Effect>)
    ensures |r| == |Listeners(b.events, e)|
    ensures forall i :: 0 <= i < |r| ==> r[i] == ListenerInvoked(Listeners(b.events, e)[i], Spread(args))
  {
    Deliver(Listeners(b.events, e), Spread(args))
  }

  /**
   * `broadcast(e, args)`: first the local emission, then the `'broadcast'` listeners, each receiving the single
   * payload `(e, args)`.
   */
  function Broadcast(b: Broker, e: string, args: seq<Value>): (r: seq<Effect>)
    ensures |r| == |Listeners(b.events, e)| + |Listeners(b.events, BroadcastChannel)|
    ensures r[..|Listeners(b.events, e)|] == BroadcastLocal(b, e, args)
    ensures r[|Listeners(b.events, e)|..] == Deliver(Listeners(b.events, BroadcastChannel), Notice(e, args))
  {
    BroadcastLocal(b, e, args) + Deliver(Listeners(b.events, BroadcastChannel), Notice(e, args))
  }

  /** `broadcastToServices(names, e, args)`: emits `e` to every local listener; `names` is not consulted. */
  function BroadcastToServices(b: Broker, names: seq<string>, e: string, args: seq<Value>): (r: seq<Effect>)
    ensures r == BroadcastLocal(b, e, args)
  {
    Deliver(Listeners(b.events, e), Spread(args))
  }

  /** The `started()` hooks `start` triggers, one per service in insertion order. */
  function StartHooks(services: seq<Service>): (r: seq<Effect>)
    ensures |r| == |services|
    ensures forall i :: 0 <= i < |services| ==> r[i] == StartedHook(services[i])
  {
    seq(|services|, i requires 0 <= i < |services| => StartedHook(services[i]))
  }

  /** True iff some registered service's `started()` rejects, which rejects `Promise.all`. */
  predicate AnyStartRejects(services: seq<Service>) {
    exists i :: 0 <= i < |services| && services[i].hooks.startedRejects
  }

  /**
   * `start()`: triggers `started()` on every service registered at this moment, in insertion order, and sets
   * the flag once all resolve; if one rejects, `start` fails and the flag keeps its value.
   */
  function Start(b: Broker): (r: Transition)
    ensures r.trace == StartHooks(b.services)
    ensures r.next.methods == b.methods && r.next.events == b.events && r.next.services == b.services
    ensures r.status.Resolved? <==> forall s :: s in b.services ==> !s.hooks.startedRejects
    ensures r.status.Resolved? ==> r.next.started
    ensures r.status.Failed? ==> r.status.error == StartupFailure && r.next.started == b.started
  {
    if AnyStartRejects(b.services) then
      Transition(b, StartHooks(b.services), Failed(StartupFailure))
    else
      Transition(b.(started := true), StartHooks(b.services), Resolved)
  }

  /** The broker's public operations, as a caller issues them. */
  datatype Op =
    | CreateOp(service: Service)
    | DestroyOp(service: Service)
    | CallOp(key: string, args: seq<Value>)
    | OnBroadcastOp(callback: Listener)
    | BroadcastOp(event: string, args: seq<Value>)
    | BroadcastLocalOp(event: string, args: seq<Value>)
    | BroadcastToServicesOp(names: seq<string>, event: string, args: seq<Value>)
    | StartOp

  /** One operation; `call` and the three broadcasts leave the broker as it is. */
  function Step(b: Broker, op: Op): (r: Transition)
    ensures Valid(b) ==> Valid(r.next)
    ensures forall x :: x in b.services ==> x in r.next.services
    ensures b.started ==> r.next.started
    ensures r.next.started != b.started ==> op.StartOp? && r.status.Resolved?
  {
    match op
    case CreateOp(s) => CreateService(b, s)
    case DestroyOp(s) => DestroyService(b, s)
    case CallOp(k, args) => Transition(b, Call(b, k, args).trace, Resolved)
    case OnBroadcastOp(cb) => OnBroadcast(b, cb)
    case BroadcastOp(e, args) => Transition(b, Broadcast(b, e, args), Resolved)
    case BroadcastLocalOp(e, args) => Transition(b, BroadcastLocal(b, e, args), Resolved)
    case BroadcastToServicesOp(names, e, args) => Transition(b, BroadcastToServices(b, names, e, args), Resolved)
    case StartOp => Start(b)
  }

  /** The broker after the operations `ops`, in order. */
  function Run(b: Broker, ops: seq<Op>): Broker
    decreases |ops|
  {
    if ops == [] then b else Run(Step(b, ops[0]).next, ops[1..])
  }
}
