/** Concrete runs of the broker on small services. */
module BrokerScenarios {
  import opened Emitter
  import opened LocalBroker
  import opened BrokerProperties

  const NoFailures := Hooks(false, false, false)

  /**
   * A service `greeter` exposing `hello` (its class also lists `constructor`), registered on a broker with no
   * `greeter.constructor` entry: `greeter.hello` is served by `hello`, `greeter.constructor` stays absent, and
   * once `greeter` is destroyed the same call finds nothing.
   */
  lemma GreeterScenario(b: Broker, greeter: Service)
    requires greeter.name == "greeter" && greeter.methodNames == ["constructor", "hello"]
    requires !greeter.hooks.createdThrows
    requires "greeter.constructor" !in b.methods
    ensures var b1 := CreateService(b, greeter).next;
      && Call(b1, "greeter.hello", [Value("Ada")]).reply == Returned(Bound(greeter, "hello"), [Value("Ada")])
      && "greeter.constructor" !in b1.methods
      && Call(DestroyService(b1, greeter).next, "greeter.hello", [Value("Ada")]).reply == Undefined
  {
    var args := [Value("Ada")];
    var b1 := CreateService(b, greeter).next;
    GreeterKeys();
    CallAfterCreate(b, greeter, "hello", args);
    ConstructorKeyUntouched(b, greeter);
    CallAfterDestroy(b1, greeter, "hello", args);
  }

  /** The keys of `greeter`'s two method names, spelled out. */
  lemma GreeterKeys()
    ensures MethodKey("greeter", "hello") == "greeter.hello"
    ensures MethodKey("greeter", "constructor") == "greeter.constructor"
  {
  }

  /**
   * Two services each subscribing one listener to `ping`, registered on a broker where nothing listens to
   * `ping` or `'broadcast'`: a local emission reaches each listener once, in registration order, and no
   * `'broadcast'` listener exists.
   */
  lemma PingScenario(b: Broker, first: Service, second: Service)
    requires Listeners(b.events, "ping") == [] && Listeners(b.events, BroadcastChannel) == []
    requires first.events == [Subscription("ping", [Listener(1)])] && !first.hooks.createdThrows
    requires second.events == [Subscription("ping", [Listener(2)])] && !second.hooks.createdThrows
    ensures var b2 := CreateService(CreateService(b, first).next, second).next;
      && BroadcastLocal(b2, "ping", []) == [ListenerInvoked(Listener(1), Spread([])), ListenerInvoked(Listener(2), Spread([]))]
      && Listeners(b2.events, BroadcastChannel) == []
  {
    SubscribesToPing(b, first, Listener(1));
    SecondPing(CreateService(b, first).next, second, Listener(1), Listener(2));
  }

  /** Registering a second `ping` subscriber behind an existing one: the emission reaches both, in that order. */
  lemma SecondPing(b: Broker, s: Service, first: Listener, second: Listener)
    requires Listeners(b.events, "ping") == [first] && Listeners(b.events, BroadcastChannel) == []
    requires s.events == [Subscription("ping", [second])] && !s.hooks.createdThrows
    ensures var b2 := CreateService(b, s).next;
      && BroadcastLocal(b2, "ping", []) == [ListenerInvoked(first, Spread([])), ListenerInvoked(second, Spread([]))]
      && Listeners(b2.events, BroadcastChannel) == []
  {
    SubscribesToPing(b, s, second);
    EmitsToBoth(CreateService(b, s).next, "ping", [], first, second);
  }

  /** A local emission on a channel with exactly two listeners reaches the first, then the second. */
  lemma EmitsToBoth(b: Broker, e: string, args: seq<Value>, first: Listener, second: Listener)
    requires Listeners(b.events, e) == [first, second]
    ensures BroadcastLocal(b, e, args) == [ListenerInvoked(first, Spread(args)), ListenerInvoked(second, Spread(args))]
  {
  }

  /** Registering a service whose only subscription is one `ping` listener appends it to `ping` and to nothing else. */
  lemma SubscribesToPing(b: Broker, s: Service, l: Listener)
    requires s.events == [Subscription("ping", [l])] && !s.hooks.createdThrows
    ensures Listeners(CreateService(b, s).next.events, "ping") == Listeners(b.events, "ping") + [l]
    ensures Listeners(CreateService(b, s).next.events, BroadcastChannel) == Listeners(b.events, BroadcastChannel)
  {
    assert SubscribedTo(s.events, "ping") == [l];
    assert SubscribedTo(s.events, BroadcastChannel) == [];
  }

  /** Service `a` exposing `b.c` and service `a.b` exposing `c` share the key `a.b.c`. */
  const Outer := Service(4, "a", ["b.c"], [], NoFailures)
  const Inner := Service(5, "a.b", ["c"], [], NoFailures)

  /**
   * Keys of different services can collide: registering `a.b` silently takes over `a`'s entry, and
   * destroying `a.b` leaves `a` registered but with its method gone.
   */
  lemma NamespaceCollision()
    ensures var b := CreateService(CreateService(Init, Outer).next, Inner).next;
      && "a.b.c" in b.methods && b.methods["a.b.c"] == Bound(Inner, "c")
      && Outer in DestroyService(b, Inner).next.services
      && "a.b.c" !in DestroyService(b, Inner).next.methods
  {
    assert MethodKey("a", "b.c") == "a.b.c";
    assert MethodKey("a.b", "c") == "a.b.c";
    assert "a.b.c" in ServiceKeys(Inner);
  }
}
