/**
 * Properties relating several `LocalBroker` operations: what registration and deregistration do to the
 * method table and the event bus together, who receives an emission, and how the lifecycle flag evolves.
 */
module BrokerProperties {
  import opened Base
  import opened Emitter
  import opened LocalBroker

  /** The handler stored under `k`, if any. */
  function Lookup(methods: map<string, Handler>, k: string): Option<Handler> {
    if k in methods then Some(methods[k]) else None
  }

  /** Neither registration nor deregistration touches the key `<name>.constructor`. */
  lemma ConstructorKeyUntouched(b: Broker, s: Service)
    ensures Lookup(CreateService(b, s).next.methods, MethodKey(s.name, "constructor")) == Lookup(b.methods, MethodKey(s.name, "constructor"))
    ensures Lookup(DestroyService(b, s).next.methods, MethodKey(s.name, "constructor")) == Lookup(b.methods, MethodKey(s.name, "constructor"))
  {
    ConstructorKeyNotOwned(s.name, s.methodNames);
  }

  /** After registration, calling `<name>.<m>` for an exposed method `m` invokes `m` bound to the service. */
  lemma CallAfterCreate(b: Broker, s: Service, m: string, args: seq<Value>)
    requires !s.hooks.createdThrows
    requires m in s.methodNames && m != "constructor"
    ensures Call(CreateService(b, s).next, MethodKey(s.name, m), args).reply == Returned(Bound(s, m), args)
    ensures Call(CreateService(b, s).next, MethodKey(s.name, m), args).trace == [HandlerInvoked(Bound(s, m), args, CallCtx)]
  {
  }

  /** After deregistration, calling `<name>.<m>` for an exposed method `m` returns `undefined` and invokes nothing. */
  lemma CallAfterDestroy(b: Broker, s: Service, m: string, args: seq<Value>)
    requires m in s.methodNames && m != "constructor"
    ensures Call(DestroyService(b, s).next, MethodKey(s.name, m), args) == CallOutcome(Undefined, [])
  {
  }

  /**
   * Registering and then deregistering a service leaves the method table without the service's keys and
   * otherwise as it was: entries it had overwritten are lost, all other entries survive.
   */
  lemma CreateThenDestroyMethods(b: Broker, s: Service)
    ensures DestroyService(CreateService(b, s).next, s).next.methods == b.methods - ServiceKeys(s)
    ensures DestroyService(CreateService(b, s).next, s).next.methods == b.methods <==> b.methods.Keys !! ServiceKeys(s)
  {
    var created := CreateService(b, s).next;
    var after := DestroyService(created, s).next.methods;
    assert after == created.methods - ServiceKeys(s);
    if !s.hooks.createdThrows {
      SameOutside(created.methods, b.methods, ServiceKeys(s));
    }
    RemovingIsIdentity(b.methods, ServiceKeys(s));
  }

  /** Two tables that agree outside `ks` agree once `ks` is removed from both. */
  lemma SameOutside(m1: map<string, Handler>, m2: map<string, Handler>, ks: set<string>)
    requires m1.Keys - ks == m2.Keys - ks
    requires forall k :: k in m2 && k !in ks ==> k in m1 && m1[k] == m2[k]
    ensures m1 - ks == m2 - ks
  {
  }

  /** Removing keys changes a table exactly when one of them is present. */
  lemma RemovingIsIdentity(m: map<string, Handler>, ks: set<string>)
    ensures m - ks == m <==> m.Keys !! ks
  {
    if !(m.Keys !! ks) {
      var k :| k in m.Keys && k in ks;
      assert k !in m - ks;
    }
  }

  /**
   * Registering a service and then deregistering it with no operation in between restores every event's
   * listener list exactly, including lists shared with other services.
   */
  lemma CreateThenDestroyListeners(b: Broker, s: Service)
    requires Valid(b) && !s.hooks.createdThrows
    ensures DestroyService(CreateService(b, s).next, s).next.events == b.events
  {
    RemoveEachUndoesOnEach(b.events, Pairs(s.events));
  }

  /** An emission after registration reaches the previous listeners first, then each new subscription once. */
  lemma BroadcastLocalAfterCreate(b: Broker, s: Service, e: string, args: seq<Value>)
    requires !s.hooks.createdThrows
    ensures BroadcastLocal(CreateService(b, s).next, e, args)
         == BroadcastLocal(b, e, args) + Deliver(SubscribedTo(s.events, e), Spread(args))
  {
    var after := CreateService(b, s).next;
    var before := Listeners(b.events, e);
    var added := SubscribedTo(s.events, e);
    assert Listeners(after.events, e) == before + added;
    DeliverSplits(before, added, Spread(args));
  }

  /** Delivering to two lists in turn is delivering to their concatenation. */
  lemma DeliverSplits(xs: seq<Listener>, ys: seq<Listener>, p: Payload)
    ensures Deliver(xs + ys, p) == Deliver(xs, p) + Deliver(ys, p)
  {
  }

  /** After registering and deregistering a service, every emission reaches exactly the listeners it reached before. */
  lemma BroadcastLocalAfterCreateDestroy(b: Broker, s: Service, e: string, args: seq<Value>)
    requires !s.hooks.createdThrows
    ensures BroadcastLocal(DestroyService(CreateService(b, s).next, s).next, e, args) == BroadcastLocal(b, e, args)
  {
    RemoveEachOfCancels(Listeners(b.events, e), SubscribedTo(s.events, e), SubscribedTo(s.events, e));
  }

  /** A callback attached with `onBroadcast` is the last one told of a `broadcast` issued right after it, with `(e, args)`. */
  lemma OnBroadcastHearsNextBroadcast(b: Broker, cb: Listener, e: string, args: seq<Value>)
    ensures var t := Broadcast(OnBroadcast(b, cb).next, e, args); |t| > 0 && t[|t| - 1] == ListenerInvoked(cb, Notice(e, args))
    ensures e != BroadcastChannel ==> BroadcastLocal(OnBroadcast(b, cb).next, e, args) == BroadcastLocal(b, e, args)
  {
  }

  /**
   * A `broadcastLocal` never hands the `(event, args)` notice to anyone; a `broadcast` hands it to each
   * `'broadcast'` listener. This rests on `Spread` and `Notice` being different payloads: in JavaScript,
   * `broadcastLocal('broadcast', ev, a)` makes the same listener call as the notice (see README, "## Left out").
   */
  lemma LocalEmissionCarriesNoNotice(b: Broker, e: string, args: seq<Value>, l: Listener)
    ensures ListenerInvoked(l, Notice(e, args)) !in BroadcastLocal(b, e, args)
    ensures ListenerInvoked(l, Notice(e, args)) in Broadcast(b, e, args) <==> l in Listeners(b.events, BroadcastChannel)
  {
  }

  /** Once `start` has succeeded, every later registration triggers `created()` and then `started()`. */
  lemma CreateAfterStartTriggersStarted(b: Broker, s: Service)
    requires forall x :: x in b.services ==> !x.hooks.startedRejects
    requires !s.hooks.createdThrows
    ensures Start(b).status.Resolved?
    ensures CreateService(Start(b).next, s).trace == [CreatedHook(s), StartedHook(s)]
  {
  }

  /** Before any successful `start`, registration triggers `created()` only. */
  lemma CreateBeforeStartSkipsStarted(b: Broker, s: Service)
    requires !b.started
    ensures CreateService(b, s).trace == [CreatedHook(s)]
  {
  }

  /** The services set only grows, whatever operations run. */
  lemma {:induction false} ServicesOnlyGrow(b: Broker, ops: seq<Op>)
    ensures forall x :: x in b.services ==> x in Run(b, ops).services
    decreases |ops|
  {
    if ops != [] {
      ServicesOnlyGrow(Step(b, ops[0]).next, ops[1..]);
    }
  }

  /** A registered service stays in the services set through any operations, its own deregistration included. */
  lemma RegisteredServiceStays(b: Broker, s: Service, ops: seq<Op>)
    ensures s in Run(b, [CreateOp(s)] + ops).services
  {
    assert ([CreateOp(s)] + ops)[1..] == ops;
    ServicesOnlyGrow(CreateService(b, s).next, ops);
  }

  /** Every reachable state keeps its invariant. */
  lemma {:induction false} RunPreservesValid(b: Broker, ops: seq<Op>)
    requires Valid(b)
    ensures Valid(Run(b, ops))
    decreases |ops|
  {
    if ops != [] {
      RunPreservesValid(Step(b, ops[0]).next, ops[1..]);
    }
  }

  /** The flag never goes back to false, and a fresh broker is not started until a `start` succeeds. */
  lemma {:induction false} StartedStaysStarted(b: Broker, ops: seq<Op>)
    requires b.started
    ensures Run(b, ops).started
    decreases |ops|
  {
    if ops != [] {
      StartedStaysStarted(Step(b, ops[0]).next, ops[1..]);
    }
  }

  /** Without a `start` among the operations, a broker that was not started is still not started. */
  lemma {:induction false} NotStartedWithoutStart(b: Broker, ops: seq<Op>)
    requires !b.started
    requires forall i :: 0 <= i < |ops| ==> !ops[i].StartOp?
    ensures !Run(b, ops).started
    decreases |ops|
  {
    if ops != [] {
      NotStartedWithoutStart(Step(b, ops[0]).next, ops[1..]);
    }
  }
}
