/**
 * Dispatch of an incoming RPC call through the service → method table, the
 * registry that fills that table, and the `AmqpRpc` objects of the
 * `simple_amqp_rpc` and `ge_amqp_rpc` packages, whose tables and dispatch
 * are the same.
 */
module RpcDispatch {
  import opened Wrappers
  import opened Values
  import opened RpcData
  import RpcClients

  /** How invoking a method with the call's arguments ends. */
  datatype Invocation =
    | Returned(value: Value)
    | RaisedTypeError
    | RaisedOther(error: string)

  /** A registered method: its behaviour on each argument list. */
  type Method = seq<Value> -> Invocation

  type MethodTable = map<string, Method>

  type Services = map<string, MethodTable>

  /** `_get_method`: the method found, or the response that reports the miss. */
  datatype Lookup = Found(handler: Method) | NotFound(resp: RpcResp)

  function ServiceNotFoundBody(service: string): string {
    "Service [" + service + "] not found"
  }

  function MethodNotFoundBody(service: string, name: string): string {
    "Method [" + service + "->" + name + "] not found"
  }

  const InvalidArgumentsBody := "Invalid call arguments"

  /**
   * `_get_method`: found exactly when both the service and its method are
   * registered; an unknown service is reported before an unknown method.
   */
  function GetMethod(services: Services, service: string, name: string): (r: Lookup)
    ensures r.Found? <==> service in services && name in services[service]
    ensures r.Found? ==> r.handler == services[service][name]
    ensures service !in services ==>
              r.NotFound? && r.resp == RpcResp(StatusServiceNotFound, Str(ServiceNotFoundBody(service)))
    ensures service in services && name !in services[service] ==>
              r.NotFound? && r.resp == RpcResp(StatusMethodNotFound,
                                               Str(MethodNotFoundBody(service, name)))
  {
    if service !in services then
      NotFound(RpcResp(StatusServiceNotFound, Str(ServiceNotFoundBody(service))))
    else if name !in services[service] then
      NotFound(RpcResp(StatusMethodNotFound, Str(MethodNotFoundBody(service, name))))
    else
      Found(services[service][name])
  }

  /** Whether a call reaches a registered method. */
  predicate Resolves(services: Services, call: RpcCall) {
    call.service in services && call.methodName in services[call.service]
  }

  /**
   * `rpc_callback`: a failed lookup is answered with the lookup's response and
   * nothing is invoked; otherwise the method's outcome is mapped to a status.
   */
  function RpcCallback(services: Services, call: RpcCall): (r: RpcResp)
    ensures r.status in Statuses
    ensures !Resolves(services, call) ==> r == GetMethod(services, call.service, call.methodName).resp
    ensures r.IsOk() <==>
              Resolves(services, call)
              && services[call.service][call.methodName](call.args).Returned?
    ensures r.IsOk() ==> r.body == services[call.service][call.methodName](call.args).value
    ensures r == RpcResp(StatusCallArgsMismatch, Str(InvalidArgumentsBody)) <==>
              Resolves(services, call)
              && services[call.service][call.methodName](call.args).RaisedTypeError?
    ensures r == Resp(StatusCallError) <==>
              Resolves(services, call)
              && services[call.service][call.methodName](call.args).RaisedOther?
  {
    match GetMethod(services, call.service, call.methodName)
    case NotFound(resp) => resp
    case Found(handler) =>
      match handler(call.args)
      case RaisedTypeError => RpcResp(StatusCallArgsMismatch, Str(InvalidArgumentsBody))
      case RaisedOther(_) => Resp(StatusCallError)
      case Returned(v) => RpcResp(StatusOk, v)
  }

  /** A call to an unregistered service or method is never answered with `ok`, whatever the methods do. */
  lemma UnresolvedNeverOk(services: Services, other: Services, call: RpcCall)
    requires !Resolves(services, call)
    requires other.Keys == services.Keys
    requires forall s | s in services :: services[s].Keys == other[s].Keys
    ensures !RpcCallback(services, call).IsOk()
    ensures RpcCallback(services, call) == RpcCallback(other, call)
  {
  }

  /** What `method(service, name)` hands back: the decorator that registers a function. */
  datatype Decorator = Decorator(service: string, name: Option<string>)

  /** The name the decorator registers a function under. */
  function RegisteredName(d: Decorator, funcName: string): string {
    if d.name.Some? then d.name.value else funcName
  }

  function WithMethod(table: MethodTable, name: string, func: Method): MethodTable {
    table[name := func]
  }

  /** `BaseRpc`: the service → method registry behind the `method` decorator. */
  class BaseRpc {
    var services: Services
    var recvErrorHandlers: set<string>

    constructor ()
      ensures services == map[] && recvErrorHandlers == {}
    {
      services := map[];
      recvErrorHandlers := {};
    }

    /** `method(service, name)`: makes sure the service has a table, leaving an existing one untouched. */
    method MethodDecorator(service: string, name: Option<string>) returns (d: Decorator)
      modifies this
      ensures d == Decorator(service, name)
      ensures service in old(services) ==> services == old(services)
      ensures service !in old(services) ==> services == old(services)[service := map[]]
      ensures recvErrorHandlers == old(recvErrorHandlers)
    {
      if service !in services {
        services := services[service := map[]];
      }
      d := Decorator(service, name);
    }

    /**
     * Applying the decorator to a function: registers it under the explicit
     * name, or else under its own name, replacing a same-named entry. The
     * decorator returns `None`, so the decorated name is rebound to `None`.
     * A service table that is missing raises `KeyError`.
     */
    method Decorate(d: Decorator, funcName: string, func: Method) returns (r: Result<Option<Method>, PyError>)
      modifies this
      ensures d.service in old(services) ==>
                r == Ok(None)
                && services == old(services)[d.service :=
                                 WithMethod(old(services)[d.service], RegisteredName(d, funcName), func)]
      ensures d.service !in old(services) ==>
                r == Err(KeyError(d.service)) && services == old(services)
      ensures recvErrorHandlers == old(recvErrorHandlers)
    {
      if d.service !in services {
        return Err(KeyError(d.service));
      }
      var name := RegisteredName(d, funcName);
      services := services[d.service := WithMethod(services[d.service], name, func)];
      r := Ok(None);
    }

    /** `add_svc`: the service's method table replaces any earlier table under its name. */
    method AddSvc(name: string, table: MethodTable)
      modifies this
      ensures services == old(services)[name := table]
      ensures recvErrorHandlers == old(recvErrorHandlers)
    {
      services := services[name := table];
    }

    /**
     * `add_recv_call_error_handler` writes to an attribute the constructor
     * never creates, so it always raises `AttributeError` and registers nothing.
     */
    method AddRecvCallErrorHandler(handler: string) returns (r: Result<(), PyError>)
      ensures r == Err(AttributeError("_recv_error_handler"))
    {
      r := Err(AttributeError("_recv_error_handler"));
    }
  }

  /** Decorating a function makes calls to it resolve, under its own name when none is given. */
  method RegisterThenDispatch(service: string, funcName: string, func: Method, args: seq<Value>)
    returns (resp: RpcResp)
    ensures func(args).Returned? ==> resp == RpcResp(StatusOk, func(args).value)
    ensures !func(args).Returned? ==> !resp.IsOk()
  {
    var rpc := new BaseRpc();
    var d := rpc.MethodDecorator(service, None);
    var r := rpc.Decorate(d, funcName, func);
    resp := RpcCallback(rpc.services, RpcCall("", service, funcName, args));
  }

  /**
   * `AmqpRpc` of both RPC packages: the service tables it dispatches on and
   * the publish routes its connection declares exchanges for.
   */
  class AmqpRpc {
    const route: string
    var services: Services
    var publishRoutes: set<string>

    constructor (route: string)
      ensures this.route == route && services == map[] && publishRoutes == {}
    {
      this.route := route;
      services := map[];
      publishRoutes := {};
    }

    /** `add_svc`: the service's method table replaces any earlier table under its name. */
    method AddSvc(name: string, table: MethodTable)
      modifies this
      ensures services == old(services)[name := table]
      ensures publishRoutes == old(publishRoutes)
    {
      services := services[name := table];
    }

    /** `client(service, route)`: registers the route for publishing and returns a proxy bound to both. */
    method Client(service: string, clientRoute: string, dispatch: RpcClients.Dispatch)
      returns (c: RpcClients.RpcClient)
      modifies this
      ensures fresh(c) && c.Valid() && c.methodsCache == map[]
      ensures c.service == service && c.route == clientRoute && c.dispatch == dispatch
      ensures publishRoutes == old(publishRoutes) + {clientRoute}
      ensures services == old(services)
    {
      publishRoutes := publishRoutes + {clientRoute};
      c := new RpcClients.RpcClient(service, clientRoute, dispatch);
    }
  }

  /** A later `add_svc` under the same name wins: the earlier table is no longer reachable. */
  method AddSvcTwice(name: string, first: MethodTable, second: MethodTable, call: RpcCall)
    returns (resp: RpcResp)
    requires call.service == name
    ensures resp == RpcCallback(map[name := second], call)
  {
    var rpc := new AmqpRpc("service.name");
    rpc.AddSvc(name, first);
    rpc.AddSvc(name, second);
    resp := RpcCallback(rpc.services, call);
  }
}
