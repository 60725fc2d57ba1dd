/**
 * The callback-driven RPC connection of `utils/amqp_rpc`, in its two
 * variants: `AmqpRpcConn` (conn.py), which also carries calls and replies,
 * and `AmqpRpc` (amqp.py), whose message handlers are empty. The broker
 * client drives the object through callbacks (connection open or closed,
 * channel open or closed, declare-ok, cancel-ok, deliveries); each callback
 * updates the channel slots, consumer tags, closing flag, response queue and
 * pending futures, and issues requests to the broker client, recorded here
 * in order.
 */
module RpcLifecycle {
  import opened Wrappers
  import opened PlainRpcData
  import RpcDispatch
  import GeventRpcConn
  import Ids

  /** Which of the two classes the object is. */
  datatype Flavour = RpcConnClass | AmqpRpcClass

  /** The routing key the listen queue is bound with. */
  function BindKey(f: Flavour): string {
    match f
    case RpcConnClass => GeventRpcConn.RpcTopic
    case AmqpRpcClass => "rpc.call"
  }

  /** The fixed wait of `rpc_call`, and the delay before a reconnect. */
  const CallTimeout := 5
  const ReconnectDelay := 5

  datatype Purpose = PublishPurpose | ListenPurpose | RespPurpose

  /**
   * A request to the broker client. Exchanges are always durable topic
   * exchanges; channels are named by the number the broker client gave them.
   */
  datatype Request =
    | Connect
    | OpenChannel(purpose: Purpose)
    | ExchangeDeclare(channel: int, exchange: string)
    | QueueDeclare(channel: int, queue: string, durable: bool, autoDelete: bool, exclusive: bool)
    | QueueBind(channel: int, queue: string, exchange: string, routingKey: string)
    | BasicConsume(channel: int, queue: string, tag: string, autoAck: bool, exclusive: bool)
    | BasicCancel(channel: int, tag: string)
    | BasicPublish(channel: int, exchange: string, routingKey: string, body: string,
                   contentType: string, correlationId: string, replyTo: string)
    | CloseChannel(channel: int)
    | CloseConnection
    | StopLoop
    | ScheduleReconnect(delay: int)

  /**
   * A pending call's gevent `AsyncResult`. Its `cancel()` always answers
   * false and changes nothing, so a future is only ever waiting or resolved.
   */
  datatype FutureState = Waiting | Resolved(resp: RawRpcResp)

  /** The properties of a delivered message that the handlers read. */
  datatype Props = Props(contentType: string, correlationId: string, replyTo: string)

  /** What the listen callback answers: a body and its content type. */
  datatype Reply = Reply(body: string, contentType: string)

  /** What `rpc_call` has set up before it blocks. */
  datatype PendingCall = PendingCall(key: string, correlationId: string, future: nat)

  /** The mutable state the callbacks share. */
  datatype LifeState = LifeState(
    publishChannel: Option<int>,
    listenChannel: Option<int>,
    respChannel: Option<int>,
    listenTag: string,
    respTag: string,
    respQueue: string,
    closing: bool,
    responseFutures: map<string, nat>,
    futures: seq<FutureState>)

  /** The `ExchangeDeclare` requests for the publish routes, in iteration order. */
  function PublishRequests(channel: int, routes: seq<string>): (r: seq<Request>)
    ensures |r| == |routes|
    ensures forall i | 0 <= i < |r| :: r[i] == ExchangeDeclare(channel, GeventRpcConn.RpcExchange(routes[i]))
  {
    if routes == [] then []
    else PublishRequests(channel, routes[..|routes| - 1])
         + [ExchangeDeclare(channel, GeventRpcConn.RpcExchange(routes[|routes| - 1]))]
  }

  class RpcLifecycleConn {
    const flavour: Flavour
    const route: string
    const rpcCallback: Option<(string, string) -> Reply>
    const ids: Ids.IdSource
    var publishChannel: Option<int>
    var listenChannel: Option<int>
    var respChannel: Option<int>
    var listenTag: string
    var respTag: string
    var respQueue: string
    var closing: bool
    /** `_response_futures`: reply key → future. */
    var responseFutures: map<string, nat>
    var futures: seq<FutureState>
    var publishRoutes: set<string>
    /** `listen_services` of the `AmqpRpc` variant. */
    var listenServices: map<string, RpcDispatch.MethodTable>
    /** The requests issued to the broker client, in order. */
    var requests: seq<Request>

    function State(): LifeState
      reads this
    {
      LifeState(publishChannel, listenChannel, respChannel, listenTag, respTag, respQueue, closing,
                responseFutures, futures)
    }

    /** Every pending key is the reply key of an id already drawn, and names an existing future. */
    ghost predicate Valid()
      reads this, ids
    {
      ids.Valid() && PendingValid(responseFutures, |futures|, ids.issued)
    }

    constructor (flavour: Flavour, route: string, rpcCallback: Option<(string, string) -> Reply>,
                 ids: Ids.IdSource)
      requires ids.Valid()
      ensures Valid()
      ensures this.flavour == flavour && this.route == route && this.rpcCallback == rpcCallback
      ensures this.ids == ids
      ensures State() == LifeState(None, None, None, "", "", "", false, map[], [])
      ensures publishRoutes == {} && listenServices == map[] && requests == []
    {
      this.flavour := flavour;
      this.route := route;
      this.rpcCallback := rpcCallback;
      this.ids := ids;
      publishChannel := None;
      listenChannel := None;
      respChannel := None;
      listenTag := "";
      respTag := "";
      respQueue := "";
      closing := false;
      responseFutures := map[];
      futures := [];
      publishRoutes := {};
      listenServices := map[];
      requests := [];
    }

    /**
     * `add_publish_route` (and `add_client`) add to an attribute that is
     * never created, so they raise `AttributeError` and register nothing.
     */
    method AddPublishRoute(newRoute: string) returns (r: Result<(), PyError>)
      ensures r == Err(AttributeError("publish_services"))
    {
      r := Err(AttributeError("publish_services"));
    }

    /** `add_service`: the service's method table replaces any earlier one under its name. */
    method AddService(name: string, table: RpcDispatch.MethodTable)
      modifies this
      ensures listenServices == old(listenServices)[name := table]
      ensures State() == old(State()) && requests == old(requests)
      ensures publishRoutes == old(publishRoutes)
    {
      listenServices := listenServices[name := table];
    }

    /** `connect`: clears the closing flag and opens a new connection. */
    method Connect()
      modifies this
      ensures State() == old(State()).(closing := false)
      ensures requests == old(requests) + [Request.Connect]
      ensures publishRoutes == old(publishRoutes) && listenServices == old(listenServices)
    {
      closing := false;
      requests := requests + [Request.Connect];
    }

    /** `reconnect`: connects again unless the object is closing. */
    method Reconnect()
      modifies this
      ensures old(closing) ==> State() == old(State()) && requests == old(requests)
      ensures !old(closing) ==>
                State() == old(State()) && requests == old(requests) + [Request.Connect]
      ensures publishRoutes == old(publishRoutes) && listenServices == old(listenServices)
    {
      if closing {
        return;
      }
      Connect();
    }

    /** `on_connection_open`: asks for the publish, listen and response channels, in that order. */
    method OnConnectionOpen()
      modifies this
      ensures State() == old(State())
      ensures requests == old(requests)
                + [OpenChannel(PublishPurpose), OpenChannel(ListenPurpose), OpenChannel(RespPurpose)]
      ensures publishRoutes == old(publishRoutes) && listenServices == old(listenServices)
    {
      requests := requests
        + [OpenChannel(PublishPurpose), OpenChannel(ListenPurpose), OpenChannel(RespPurpose)];
    }

    /** `on_publish_channel_open`: fills the slot and declares `rpc.<route>` for every publish route. */
    method OnPublishChannelOpen(channel: int) returns (order: seq<string>)
      modifies this
      ensures State() == old(State()).(publishChannel := Some(channel))
      ensures forall r :: r in order <==> r in publishRoutes
      ensures forall i, j | 0 <= i < j < |order| :: order[i] != order[j]
      ensures requests == old(requests) + PublishRequests(channel, order)
      ensures publishRoutes == old(publishRoutes) && listenServices == old(listenServices)
    {
      publishChannel := Some(channel);
      order := GeventRpcConn.Enumerate(publishRoutes);
      var i := 0;
      while i < |order|
        invariant 0 <= i <= |order|
        invariant requests == old(requests) + PublishRequests(channel, order[..i])
        invariant State() == old(State()).(publishChannel := Some(channel))
        invariant publishRoutes == old(publishRoutes) && listenServices == old(listenServices)
      {
        assert order[..i + 1][..i] == order[..i];
        requests := requests + [ExchangeDeclare(channel, GeventRpcConn.RpcExchange(order[i]))];
        i := i + 1;
      }
      assert order[..i] == order;
    }

    /** `on_listen_channel_open`: fills the slot and declares the listen exchange. */
    method OnListenChannelOpen(channel: int)
      modifies this
      ensures State() == old(State()).(listenChannel := Some(channel))
      ensures requests == old(requests) + [ExchangeDeclare(channel, GeventRpcConn.RpcExchange(route))]
      ensures publishRoutes == old(publishRoutes) && listenServices == old(listenServices)
    {
      listenChannel := Some(channel);
      requests := requests + [ExchangeDeclare(channel, GeventRpcConn.RpcExchange(route))];
    }

    /** `on_resp_channel_open`: fills the slot and declares an anonymous auto-delete exclusive queue. */
    method OnRespChannelOpen(channel: int)
      modifies this
      ensures State() == old(State()).(respChannel := Some(channel))
      ensures requests == old(requests) + [QueueDeclare(channel, "", false, true, true)]
      ensures publishRoutes == old(publishRoutes) && listenServices == old(listenServices)
    {
      respChannel := Some(channel);
      requests := requests + [QueueDeclare(channel, "", false, true, true)];
    }

    /** `on_listen_exchange_declare_ok`: declares the durable listen queue. */
    method OnListenExchangeDeclareOk() returns (r: Result<(), PyError>)
      modifies this
      ensures State() == old(State())
      ensures listenChannel.None? ==> r == Err(AttributeError("queue_declare")) && requests == old(requests)
      ensures listenChannel.Some? ==>
                r == Ok(())
                && requests == old(requests)
                   + [QueueDeclare(listenChannel.value, GeventRpcConn.RpcQueue(route), true, false, false)]
      ensures publishRoutes == old(publishRoutes) && listenServices == old(listenServices)
    {
      if listenChannel.None? {
        return Err(AttributeError("queue_declare"));
      }
      requests := requests
        + [QueueDeclare(listenChannel.value, GeventRpcConn.RpcQueue(route), true, false, false)];
      r := Ok(());
    }

    /**
     * `on_listen_queue_declare_ok` as written: `bind_listen_queue` names a
     * callback the class does not define, so it raises `AttributeError`
     * before the bind is requested.
     */
    method OnListenQueueDeclareOkAsWritten() returns (r: Result<(), PyError>)
      ensures r.Err? && r.error.AttributeError?
    {
      if listenChannel.None? {
        return Err(AttributeError("queue_bind"));
      }
      r := Err(AttributeError("on_listen_bind_ok"));
    }

    /** `on_listen_queue_declare_ok` with the bind-ok callback named correctly: binds the listen queue. */
    method OnListenQueueDeclareOk() returns (r: Result<(), PyError>)
      modifies this
      ensures State() == old(State())
      ensures listenChannel.None? ==> r == Err(AttributeError("queue_bind")) && requests == old(requests)
      ensures listenChannel.Some? ==>
                r == Ok(())
                && requests == old(requests)
                   + [QueueBind(listenChannel.value, GeventRpcConn.RpcQueue(route),
                                GeventRpcConn.RpcExchange(route), BindKey(flavour))]
      ensures publishRoutes == old(publishRoutes) && listenServices == old(listenServices)
    {
      if listenChannel.None? {
        return Err(AttributeError("queue_bind"));
      }
      requests := requests + [QueueBind(listenChannel.value, GeventRpcConn.RpcQueue(route),
                                        GeventRpcConn.RpcExchange(route), BindKey(flavour))];
      r := Ok(());
    }

    /** `on_listen_queue_bind_ok`: starts consuming the listen queue and keeps the new consumer tag. */
    method OnListenQueueBindOk() returns (r: Result<(), PyError>)
      requires Valid()
      modifies this, ids
      ensures Valid()
      ensures listenChannel.None? ==>
                r == Err(AttributeError("basic_consume")) && State() == old(State())
                && requests == old(requests) && ids.issued == old(ids.issued)
      ensures listenChannel.Some? ==>
                r == Ok(())
                && listenTag != "" && listenTag !in old(ids.issued)
                && ids.issued == old(ids.issued) + {listenTag}
                && State() == old(State()).(listenTag := listenTag)
                && requests == old(requests)
                   + [BasicConsume(listenChannel.value, GeventRpcConn.RpcQueue(route), listenTag, false,
                                   false)]
      ensures publishRoutes == old(publishRoutes) && listenServices == old(listenServices)
    {
      if listenChannel.None? {
        return Err(AttributeError("basic_consume"));
      }
      var tag := ids.Next();
      listenTag := tag;
      requests := requests
        + [BasicConsume(listenChannel.value, GeventRpcConn.RpcQueue(route), tag, false, false)];
      r := Ok(());
    }

    /**
     * `on_resp_queue_declare_ok`: records the broker-named queue, then
     * consumes it with automatic acknowledgement and keeps the consumer tag.
     */
    method OnRespQueueDeclareOk(queue: string) returns (r: Result<(), PyError>)
      requires Valid()
      modifies this, ids
      ensures Valid()
      ensures respChannel.None? ==>
                r == Err(AttributeError("basic_consume"))
                && State() == old(State()).(respQueue := queue)
                && requests == old(requests) && ids.issued == old(ids.issued)
      ensures respChannel.Some? ==>
                r == Ok(())
                && respTag != "" && respTag !in old(ids.issued)
                && ids.issued == old(ids.issued) + {respTag}
                && State() == old(State()).(respQueue := queue, respTag := respTag)
                && requests == old(requests) + [BasicConsume(respChannel.value, queue, respTag, true, true)]
      ensures publishRoutes == old(publishRoutes) && listenServices == old(listenServices)
    {
      respQueue := queue;
      if respChannel.None? {
        return Err(AttributeError("basic_consume"));
      }
      var tag := ids.Next();
      ConsumeResp(queue, tag);
      r := Ok(());
    }

    /** Keeps the response consumer's tag and asks the broker to start it. */
    method ConsumeResp(queue: string, tag: string)
      requires respChannel.Some?
      modifies this
      ensures State() == old(State()).(respTag := tag)
      ensures requests == old(requests) + [BasicConsume(respChannel.value, queue, tag, true, true)]
      ensures publishRoutes == old(publishRoutes) && listenServices == old(listenServices)
    {
      respTag := tag;
      requests := requests + [BasicConsume(respChannel.value, queue, tag, true, true)];
    }

    /** `on_publish_channel_closed`: clears the slot; the connection closes if the other two slots are empty. */
    method OnPublishChannelClosed()
      modifies this
      ensures State() == old(State()).(publishChannel := None)
      ensures requests == old(requests)
                + (if listenChannel.None? && respChannel.None? then [CloseConnection] else [])
      ensures publishRoutes == old(publishRoutes) && listenServices == old(listenServices)
    {
      publishChannel := None;
      if listenChannel.None? && respChannel.None? {
        requests := requests + [CloseConnection];
      }
    }

    /** `on_listen_channel_closed`: clears the slot; the connection closes if the other two slots are empty. */
    method OnListenChannelClosed()
      modifies this
      ensures State() == old(State()).(listenChannel := None)
      ensures requests == old(requests)
                + (if publishChannel.None? && respChannel.None? then [CloseConnection] else [])
      ensures publishRoutes == old(publishRoutes) && listenServices == old(listenServices)
    {
      listenChannel := None;
      if publishChannel.None? && respChannel.None? {
        requests := requests + [CloseConnection];
      }
    }

    /** `on_resp_channel_closed`: clears the slot; the connection closes if the other two slots are empty. */
    method OnRespChannelClosed()
      modifies this
      ensures State() == old(State()).(respChannel := None)
      ensures requests == old(requests)
                + (if publishChannel.None? && listenChannel.None? then [CloseConnection] else [])
      ensures publishRoutes == old(publishRoutes) && listenServices == old(listenServices)
    {
      respChannel := None;
      if publishChannel.None? && listenChannel.None? {
        requests := requests + [CloseConnection];
      }
    }

    /** `close_channels`: closes the publish and listen channels that are open, never the response channel. */
    method CloseChannels()
      modifies this
      ensures State() == old(State())
      ensures requests == old(requests) + CloseRequests(publishChannel, listenChannel)
      ensures publishRoutes == old(publishRoutes) && listenServices == old(listenServices)
    {
      if publishChannel.Some? {
        requests := requests + [CloseChannel(publishChannel.value)];
      }
      if listenChannel.Some? {
        requests := requests + [CloseChannel(listenChannel.value)];
      }
    }

    /** `on_listen_cancel_ok`: clears the listen tag; the channels close once the response tag is empty too. */
    method OnListenCancelOk()
      modifies this
      ensures State() == old(State()).(listenTag := "")
      ensures requests == old(requests)
                + (if respTag == "" then CloseRequests(publishChannel, listenChannel) else [])
      ensures publishRoutes == old(publishRoutes) && listenServices == old(listenServices)
    {
      listenTag := "";
      if respTag == "" {
        CloseChannels();
      }
    }

    /** `on_resp_cancel_ok`: clears the response tag; the channels close once the listen tag is empty too. */
    method OnRespCancelOk()
      modifies this
      ensures State() == old(State()).(respTag := "")
      ensures requests == old(requests)
                + (if listenTag == "" then CloseRequests(publishChannel, listenChannel) else [])
      ensures publishRoutes == old(publishRoutes) && listenServices == old(listenServices)
    {
      respTag := "";
      if listenTag == "" {
        CloseChannels();
      }
    }

    /** `stop_consuming`: cancels the listen consumer, then the response consumer. */
    method StopConsuming() returns (r: Result<(), PyError>)
      modifies this
      ensures State() == old(State())
      ensures listenChannel.None? ==> r == Err(AttributeError("basic_cancel")) && requests == old(requests)
      ensures listenChannel.Some? && respChannel.None? ==>
                r == Err(AttributeError("basic_cancel"))
                && requests == old(requests) + [BasicCancel(listenChannel.value, listenTag)]
      ensures listenChannel.Some? && respChannel.Some? ==>
                r == Ok(())
                && requests == old(requests)
                   + [BasicCancel(listenChannel.value, listenTag), BasicCancel(respChannel.value, respTag)]
      ensures publishRoutes == old(publishRoutes) && listenServices == old(listenServices)
    {
      if listenChannel.None? {
        return Err(AttributeError("basic_cancel"));
      }
      requests := requests + [BasicCancel(listenChannel.value, listenTag)];
      if respChannel.None? {
        return Err(AttributeError("basic_cancel"));
      }
      requests := requests + [BasicCancel(respChannel.value, respTag)];
      r := Ok(());
    }

    /** `disconnect`: sets the closing flag, then stops consuming. */
    method Disconnect() returns (r: Result<(), PyError>)
      modifies this
      ensures State() == old(State()).(closing := true)
      ensures listenChannel.Some? && respChannel.Some? ==>
                r == Ok(())
                && requests == old(requests)
                   + [BasicCancel(listenChannel.value, listenTag), BasicCancel(respChannel.value, respTag)]
      ensures !(listenChannel.Some? && respChannel.Some?) ==> r == Err(AttributeError("basic_cancel"))
      ensures publishRoutes == old(publishRoutes) && listenServices == old(listenServices)
    {
      closing := true;
      r := StopConsuming();
    }

    /**
     * `on_connection_closed` as written: clears the publish and listen
     * slots and drops every pending future (their `cancel()` is a no-op, so
     * each stays waiting and its caller times out), resets the response
     * queue and tag; when closing it stops the loop, and otherwise it reaches
     * for an attribute that does not exist and raises `AttributeError`, so
     * no reconnect is ever scheduled.
     */
    method OnConnectionClosedAsWritten() returns (r: Result<(), PyError>)
      modifies this
      ensures State() == old(State()).(publishChannel := None, listenChannel := None,
                                       responseFutures := map[], respQueue := "", respTag := "")
      ensures closing ==> r == Ok(()) && requests == old(requests) + [StopLoop]
      ensures !closing ==> r == Err(AttributeError("_connection")) && requests == old(requests)
      ensures publishRoutes == old(publishRoutes) && listenServices == old(listenServices)
    {
      publishChannel := None;
      listenChannel := None;
      responseFutures := map[];
      respQueue := "";
      respTag := "";
      if closing {
        requests := requests + [StopLoop];
        return Ok(());
      }
      r := Err(AttributeError("_connection"));
    }

    /**
     * `on_connection_closed` with the reconnect timer set on the connection
     * the object holds: the same reset, then a reconnect in five seconds
     * unless the object is closing.
     */
    method OnConnectionClosed()
      modifies this
      ensures State() == old(State()).(publishChannel := None, listenChannel := None,
                                       responseFutures := map[], respQueue := "", respTag := "")
      ensures closing ==> requests == old(requests) + [StopLoop]
      ensures !closing ==> requests == old(requests) + [ScheduleReconnect(ReconnectDelay)]
      ensures publishRoutes == old(publishRoutes) && listenServices == old(listenServices)
    {
      publishChannel := None;
      listenChannel := None;
      responseFutures := map[];
      respQueue := "";
      respTag := "";
      if closing {
        requests := requests + [StopLoop];
        return;
      }
      requests := requests + [ScheduleReconnect(ReconnectDelay)];
    }

    /**
     * `on_listen_message`: answers the call through the callback and
     * publishes the reply on the response channel, to the default exchange,
     * routed by the request's `reply_to`, correlated by its reply key. The
     * `AmqpRpc` variant's handler does nothing.
     */
    method OnListenMessage(props: Props, body: string) returns (r: Result<(), PyError>)
      modifies this
      ensures State() == old(State())
      ensures flavour.AmqpRpcClass? ==> r == Ok(()) && requests == old(requests)
      ensures flavour.RpcConnClass? && rpcCallback.None? ==>
                r == Err(TypeError("rpc_callback")) && requests == old(requests)
      ensures flavour.RpcConnClass? && rpcCallback.Some? && respChannel.None? ==>
                r == Err(AttributeError("basic_publish")) && requests == old(requests)
      ensures flavour.RpcConnClass? && rpcCallback.Some? && respChannel.Some? ==>
                r == Ok(())
                && requests == old(requests)
                   + [BasicPublish(respChannel.value, "", props.replyTo,
                                   rpcCallback.value(body, props.contentType).body,
                                   rpcCallback.value(body, props.contentType).contentType,
                                   GeventRpcConn.ReplyKey(props.correlationId), "")]
      ensures publishRoutes == old(publishRoutes) && listenServices == old(listenServices)
    {
      if flavour.AmqpRpcClass? {
        return Ok(());
      }
      if rpcCallback.None? {
        return Err(TypeError("rpc_callback"));
      }
      var reply := rpcCallback.value(body, props.contentType);
      if respChannel.None? {
        return Err(AttributeError("basic_publish"));
      }
      requests := requests + [BasicPublish(respChannel.value, "", props.replyTo, reply.body,
                                           reply.contentType,
                                           GeventRpcConn.ReplyKey(props.correlationId), "")];
      r := Ok(());
    }

    /**
     * `on_resp_message` as written: a pending entry is popped, but the
     * response record is then built with a field it does not have, which
     * raises `TypeError`; the future is never resolved. Unknown ids are
     * dropped. The `AmqpRpc` variant's handler does nothing.
     */
    method OnRespMessageAsWritten(props: Props, body: string) returns (r: Result<(), PyError>)
      modifies this
      ensures requests == old(requests) && futures == old(futures)
      ensures flavour.AmqpRpcClass? || props.correlationId !in old(responseFutures) ==>
                r == Ok(()) && State() == old(State())
      ensures flavour.RpcConnClass? && props.correlationId in old(responseFutures) ==>
                r == Err(TypeError("body"))
                && State() == old(State()).(responseFutures := old(responseFutures) - {props.correlationId})
      ensures publishRoutes == old(publishRoutes) && listenServices == old(listenServices)
    {
      if flavour.AmqpRpcClass? || props.correlationId !in responseFutures {
        return Ok(());
      }
      responseFutures := responseFutures - {props.correlationId};
      r := Err(TypeError("body"));
    }

    /**
     * `on_resp_message` with the response built from its `payload` field:
     * a pending entry is popped and its future resolved with the body and
     * content type; unknown ids are dropped.
     */
    method OnRespMessage(props: Props, body: string)
      requires Valid()
      modifies this
      ensures Valid()
      ensures requests == old(requests)
      ensures flavour.AmqpRpcClass? || props.correlationId !in old(responseFutures) ==>
                State() == old(State())
      ensures flavour.RpcConnClass? && props.correlationId in old(responseFutures) ==>
                State() == old(State()).(
                  responseFutures := old(responseFutures) - {props.correlationId},
                  futures := old(futures)[old(responseFutures)[props.correlationId] :=
                                            Resolved(RawRpcResp(body, props.contentType))])
      ensures publishRoutes == old(publishRoutes) && listenServices == old(listenServices)
    {
      if flavour.AmqpRpcClass? || props.correlationId !in responseFutures {
        return;
      }
      var future := responseFutures[props.correlationId];
      responseFutures := responseFutures - {props.correlationId};
      futures := futures[future := Resolved(RawRpcResp(body, props.contentType))];
    }

    /**
     * The part of `rpc_call` before it blocks: publishes the body to the
     * exchange named by `callRoute` with topic `rpc`, a fresh correlation
     * id and the response queue as reply-to, then registers one pending
     * future under the reply key.
     */
    method RpcCall(body: string, callRoute: string, contentType: string)
      returns (r: Result<PendingCall, PyError>)
      requires Valid()
      modifies this, ids
      ensures Valid()
      ensures r.Ok? <==> old(publishChannel).Some?
      ensures r.Err? ==> r.error == AttributeError("basic_publish")
                         && State() == old(State()) && requests == old(requests)
      ensures r.Ok? ==>
                r.value.key == GeventRpcConn.ReplyKey(r.value.correlationId)
                && r.value.correlationId !in old(ids.issued)
                && ids.issued == old(ids.issued) + {r.value.correlationId}
                && r.value.key !in old(responseFutures)
                && r.value.future == |old(futures)|
                && State() == old(State()).(
                     futures := old(futures) + [Waiting],
                     responseFutures := old(responseFutures)[r.value.key := r.value.future])
                && requests == old(requests)
                   + [BasicPublish(old(publishChannel).value, callRoute, GeventRpcConn.RpcTopic, body,
                                   contentType, r.value.correlationId, respQueue)]
      ensures publishRoutes == old(publishRoutes) && listenServices == old(listenServices)
    {
      var correlationId := ids.Next();
      if publishChannel.None? {
        return Err(AttributeError("basic_publish"));
      }
      var p := Register(body, callRoute, contentType, correlationId);
      r := Ok(p);
    }

    /** Publishes the call under a freshly drawn correlation id and registers its future. */
    method Register(body: string, callRoute: string, contentType: string, correlationId: string)
      returns (p: PendingCall)
      requires ids.Valid() && publishChannel.Some?
      requires correlationId in ids.issued
      requires PendingValid(responseFutures, |futures|, ids.issued - {correlationId})
      modifies this
      ensures Valid()
      ensures p.key == GeventRpcConn.ReplyKey(p.correlationId) && p.correlationId == correlationId
      ensures p.future == |old(futures)|
      ensures State() == old(State()).(futures := old(futures) + [Waiting],
                                       responseFutures := old(responseFutures)[p.key := p.future])
      ensures requests == old(requests)
                + [BasicPublish(publishChannel.value, callRoute, GeventRpcConn.RpcTopic, body,
                                contentType, correlationId, respQueue)]
      ensures publishRoutes == old(publishRoutes) && listenServices == old(listenServices)
    {
      requests := requests + [BasicPublish(publishChannel.value, callRoute, GeventRpcConn.RpcTopic, body,
                                           contentType, correlationId, respQueue)];
      var key := GeventRpcConn.ReplyKey(correlationId);
      var future := |futures|;
      PendingAdd(responseFutures, future, ids.issued, correlationId);
      futures := futures + [Waiting];
      responseFutures := responseFutures[key := future];
      p := PendingCall(key, correlationId, future);
    }

    /** `future.get(timeout=5)`: the resolved response, or a timeout for a future still waiting. */
    method AwaitReply(p: PendingCall) returns (r: Result<RawRpcResp, PyError>)
      requires p.future < |futures|
      ensures futures[p.future].Resolved? ==> r == Ok(futures[p.future].resp)
      ensures futures[p.future].Waiting? ==> r == Err(OtherError("Timeout"))
    {
      match futures[p.future]
      case Resolved(resp) => r := Ok(resp);
      case Waiting => r := Err(OtherError("Timeout"));
    }
  }

  /** Every pending key is the reply key of an issued id and names one of `count` futures. */
  ghost predicate PendingValid(pending: map<string, nat>, count: nat, issued: set<string>)
  {
    forall k | k in pending ::
      pending[k] < count
      && |GeventRpcConn.ReplyPrefix| <= |k|
      && k[..|GeventRpcConn.ReplyPrefix|] == GeventRpcConn.ReplyPrefix
      && k[|GeventRpcConn.ReplyPrefix|..] in issued
  }

  /** Registering the reply key of an issued id under a new future keeps the pending map valid. */
  lemma PendingAdd(pending: map<string, nat>, count: nat, issued: set<string>, id: string)
    requires PendingValid(pending, count, issued - {id})
    requires id in issued
    ensures PendingValid(pending[GeventRpcConn.ReplyKey(id) := count], count + 1, issued)
  {
    var key := GeventRpcConn.ReplyKey(id);
    assert key[..|GeventRpcConn.ReplyPrefix|] == GeventRpcConn.ReplyPrefix;
    assert key[|GeventRpcConn.ReplyPrefix|..] == id;
  }

  /** The requests `close_channels` issues for the given publish and listen slots. */
  function CloseRequests(publish: Option<int>, listen: Option<int>): (r: seq<Request>)
    ensures forall q | q in r :: q.CloseChannel?
    ensures |r| == (if publish.Some? then 1 else 0) + (if listen.Some? then 1 else 0)
  {
    (if publish.Some? then [CloseChannel(publish.value)] else [])
    + (if listen.Some? then [CloseChannel(listen.value)] else [])
  }

  /** A fresh `AmqpRpcConn` whose connection and three channels (1, 2, 3) are open. */
  method OpenConn(route: string, rpcCallback: Option<(string, string) -> Reply>)
    returns (c: RpcLifecycleConn)
    ensures fresh(c) && fresh(c.ids) && c.Valid()
    ensures c.flavour.RpcConnClass? && c.route == route && c.rpcCallback == rpcCallback
    ensures c.publishChannel == Some(1) && c.listenChannel == Some(2) && c.respChannel == Some(3)
    ensures !c.closing && c.responseFutures == map[] && c.futures == []
  {
    var ids := new Ids.IdSource();
    c := new RpcLifecycleConn(RpcConnClass, route, rpcCallback, ids);
    c.Connect();
    c.OnConnectionOpen();
    var order := c.OnPublishChannelOpen(1);
    c.OnListenChannelOpen(2);
    c.OnRespChannelOpen(3);
  }

  /**
   * As written, a connection lost while not closing is never re-established:
   * the handler fails and issues no request at all, so no reconnect is ever
   * scheduled.
   */
  method DroppedConnectionAsWritten(route: string) returns (r: Result<(), PyError>, added: seq<Request>)
    ensures r.Err? && added == []
  {
    var c := OpenConn(route, None);
    var before := |c.requests|;
    r := c.OnConnectionClosedAsWritten();
    added := c.requests[before..];
  }

  /** Corrected, a connection lost while not closing asks for exactly one reconnect, after five seconds. */
  method DroppedConnection(route: string) returns (added: seq<Request>)
    ensures added == [ScheduleReconnect(5)]
  {
    var c := OpenConn(route, None);
    var before := |c.requests|;
    c.OnConnectionClosed();
    added := c.requests[before..];
  }

  /**
   * As written, once the listen queue is declared the bind step fails, so
   * the queue is never bound and no consumer is started: the listener never
   * receives a call.
   */
  method ListenSetupAsWritten(route: string) returns (r: Result<(), PyError>, added: seq<Request>)
    ensures r.Err? && added == []
  {
    var c := OpenConn(route, None);
    var declared := c.OnListenExchangeDeclareOk();
    var before := |c.requests|;
    r := c.OnListenQueueDeclareOkAsWritten();
    added := c.requests[before..];
  }

  /**
   * Corrected, the listen queue `rpc.<route>` is bound to the exchange
   * `rpc.<route>` with key `rpc`, and once the bind is acknowledged a
   * manually acknowledged consumer is started on it.
   */
  method ListenSetup(route: string) returns (added: seq<Request>, tag: string)
    ensures tag != ""
    ensures added == [QueueBind(2, GeventRpcConn.RpcQueue(route), GeventRpcConn.RpcExchange(route), "rpc"),
                      BasicConsume(2, GeventRpcConn.RpcQueue(route), tag, false, false)]
  {
    var c := OpenConn(route, None);
    var declared := c.OnListenExchangeDeclareOk();
    var before := |c.requests|;
    var bound := c.OnListenQueueDeclareOk();
    var consuming := c.OnListenQueueBindOk();
    tag := c.listenTag;
    added := c.requests[before..];
  }

  /**
   * As written, a reply to a pending call is taken off the pending map but
   * the handler then fails, so the caller's future is never resolved and the
   * call times out.
   */
  method ReplyAsWritten(client: RpcLifecycleConn, body: string, contentType: string, replyBody: string)
    returns (r: Result<RawRpcResp, PyError>)
    requires client.Valid() && client.flavour.RpcConnClass? && client.publishChannel.Some?
    modifies client, client.ids
    ensures r == Err(OtherError("Timeout"))
  {
    var call := client.RpcCall(body, client.route, contentType);
    var handled := client.OnRespMessageAsWritten(Props(contentType, call.value.key, ""), replyBody);
    r := client.AwaitReply(call.value);
  }

  /**
   * A call published by one connection, answered by a connection whose
   * callback serves it, and replied to, resolves the caller's future with
   * exactly the body and content type the callback produced. `rpc_call`
   * publishes to whatever exchange name it is handed; handed `rpc.<route>`,
   * the request carries exactly the exchange and routing key the server's
   * listen queue is bound with, so the broker delivers it there.
   */
  method CallRoundTrip(client: RpcLifecycleConn, server: RpcLifecycleConn, body: string, contentType: string)
    returns (r: Result<RawRpcResp, PyError>, request: Request)
    requires client.Valid() && client != server
    requires client.flavour.RpcConnClass? && client.publishChannel.Some?
    requires server.flavour.RpcConnClass? && server.rpcCallback.Some? && server.respChannel.Some?
    modifies client, client.ids, server
    ensures request.BasicPublish?
    ensures request.exchange == GeventRpcConn.RpcExchange(server.route)
    ensures request.routingKey == BindKey(server.flavour)
    ensures r == Ok(RawRpcResp(server.rpcCallback.value(body, contentType).body,
                               server.rpcCallback.value(body, contentType).contentType))
  {
    var call := client.RpcCall(body, GeventRpcConn.RpcExchange(server.route), contentType);
    ghost var key, fut := call.value.key, call.value.future;
    assert key in client.responseFutures && client.responseFutures[key] == fut && fut < |client.futures|;
    request := client.requests[|client.requests| - 1];
    assert request.body == body && request.contentType == contentType;
    assert GeventRpcConn.ReplyKey(request.correlationId) == key;
    var handled := server.OnListenMessage(Props(request.contentType, request.correlationId, request.replyTo),
                                          request.body);
    var reply := server.requests[|server.requests| - 1];
    ghost var answer := server.rpcCallback.value(body, contentType);
    assert reply.correlationId == key && reply.body == answer.body && reply.contentType == answer.contentType;
    client.OnRespMessage(Props(reply.contentType, reply.correlationId, reply.replyTo), reply.body);
    assert client.futures[fut] == Resolved(RawRpcResp(answer.body, answer.contentType));
    r := client.AwaitReply(call.value);
  }

  /**
   * A call still pending when the connection drops is forgotten rather than
   * failed: its entry leaves the pending map, a reply arriving afterwards is
   * dropped as unknown, and the caller only learns of it by timing out.
   */
  method CallOrphanedByDrop(client: RpcLifecycleConn, body: string, contentType: string, replyBody: string)
    returns (r: Result<RawRpcResp, PyError>)
    requires client.Valid() && client.publishChannel.Some?
    modifies client, client.ids
    ensures r == Err(OtherError("Timeout"))
    ensures client.responseFutures == map[]
  {
    var call := client.RpcCall(body, client.route, contentType);
    client.OnConnectionClosed();
    client.OnRespMessage(Props(contentType, call.value.key, ""), replyBody);
    r := client.AwaitReply(call.value);
  }
}
