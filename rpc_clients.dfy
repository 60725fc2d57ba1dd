/**
 * The client proxies of the RPC packages. Reading an attribute that is not a
 * real attribute of the proxy synthesises a callable for the remote method of
 * that name, caches it, and returns the cached one on later reads. Calling it
 * builds an `RpcCall` for the proxy's service and route and hands it to the
 * owning `AmqpRpc`.
 */
module RpcClients {
  import opened Values
  import opened RpcData

  /**
   * Which entry point of the owning `AmqpRpc` a synthesised callable hands the
   * call to: `call` (gevent proxy), awaited `call` (asyncio proxy) or
   * `rpc_call` (the `ge_amqp_rpc` proxy).
   */
  datatype Dispatch = SyncCall | AwaitedCall | RpcCallEntry

  /** The synthesised callable for one remote method. */
  datatype Forwarder = Forwarder(methodName: string)

  /** What an attribute read yields. */
  datatype Attribute = Real(name: string) | Synthesised(forwarder: Forwarder)

  /**
   * The names `object.__getattribute__` resolves on a proxy: the four
   * attributes the constructor sets and the methods the class defines.
   * Names every Python object inherits (`__class__`, `__dict__`, ...) are
   * not listed.
   */
  const RealAttributes := {"amqp_rpc", "service", "route", "methods_cache", "__init__",
                           "__getattribute__"}

  class RpcClient {
    const service: string
    const route: string
    const dispatch: Dispatch
    var methodsCache: map<string, Forwarder>

    /** The cache holds, under each name, the callable for that name, and never shadows a real attribute. */
    ghost predicate Valid()
      reads this
    {
      forall n | n in methodsCache :: methodsCache[n] == Forwarder(n) && n !in RealAttributes
    }

    constructor (service: string, route: string, dispatch: Dispatch)
      ensures Valid()
      ensures this.service == service && this.route == route && this.dispatch == dispatch
      ensures methodsCache == map[]
    {
      this.service := service;
      this.route := route;
      this.dispatch := dispatch;
      methodsCache := map[];
    }

    /**
     * `__getattribute__`: a real attribute first, then a cached callable, and
     * otherwise a new callable that is cached before it is returned.
     */
    method GetAttribute(name: string) returns (a: Attribute)
      requires Valid()
      modifies this
      ensures Valid()
      ensures name in RealAttributes ==> a == Real(name) && methodsCache == old(methodsCache)
      ensures name !in RealAttributes && name in old(methodsCache) ==>
                a == Synthesised(old(methodsCache)[name]) && methodsCache == old(methodsCache)
      ensures name !in RealAttributes && name !in old(methodsCache) ==>
                a == Synthesised(Forwarder(name))
                && methodsCache == old(methodsCache)[name := Forwarder(name)]
      ensures a.Synthesised? ==> a.forwarder.methodName == name
    {
      if name in RealAttributes {
        return Real(name);
      }
      if name in methodsCache {
        return Synthesised(methodsCache[name]);
      }
      var f := Forwarder(name);
      methodsCache := methodsCache[name := f];
      a := Synthesised(f);
    }

    /** Calling a synthesised callable: the call it hands to the owning `AmqpRpc`. */
    function CallFor(f: Forwarder, args: seq<Value>): (c: RpcCall)
      ensures c.route == route && c.service == service
      ensures c.methodName == f.methodName && c.args == args
    {
      RpcCall(route, service, f.methodName, args)
    }
  }

  /**
   * Two reads of the same unknown name give the same callable, and the call it
   * builds names that method on the proxy's own service and route.
   */
  method ReadTwice(client: RpcClient, name: string, args: seq<Value>)
    returns (a1: Attribute, a2: Attribute, call: RpcCall)
    requires client.Valid() && name !in RealAttributes
    modifies client
    ensures a1 == a2 && a1.Synthesised?
    ensures call == RpcCall(client.route, client.service, name, args)
    ensures name in client.methodsCache
  {
    a1 := client.GetAttribute(name);
    a2 := client.GetAttribute(name);
    call := client.CallFor(a2.forwarder, args);
  }
}
