/**
 * The gevent RPC connection of `simple_amqp_rpc`: it declares its topology
 * on a `simple_amqp` builder, publishes calls with a fresh correlation id,
 * keeps one pending future per call keyed `rpc.reply.<correlation id>`,
 * answers incoming calls through the dispatcher, and resolves a pending
 * future when its reply arrives.
 */
module GeventRpcConn {
  import opened Wrappers
  import opened AmqpData
  import opened RpcData
  import opened SimpleActions
  import SimpleTopology
  import Ids

  const RpcPrefix := "rpc."
  const ReplyPrefix := "rpc.reply."
  const RpcTopic := "rpc"
  const ExchangeKind := "topic"
  const ListenCallback := "on_listen_message"
  const RespCallback := "on_resp_message"

  /** `RPC_EXCHANGE`: the exchange a route's calls are published to. */
  function RpcExchange(route: string): (name: string)
    ensures |name| == |RpcPrefix| + |route| && name[..|RpcPrefix|] == RpcPrefix && name[|RpcPrefix|..] == route
  {
    RpcPrefix + route
  }

  /** `RPC_QUEUE`: the queue a route's calls are consumed from. */
  function RpcQueue(route: string): (name: string)
    ensures |name| == |RpcPrefix| + |route| && name[..|RpcPrefix|] == RpcPrefix && name[|RpcPrefix|..] == route
  {
    RpcPrefix + route
  }

  /** `REPLY_KEY`: the key of a pending call, and the correlation id of its reply. */
  function ReplyKey(correlationId: string): (key: string)
    ensures |key| == |ReplyPrefix| + |correlationId| && key[..|ReplyPrefix|] == ReplyPrefix && key[|ReplyPrefix|..] == correlationId
  {
    ReplyPrefix + correlationId
  }

  /** Distinct suffixes give distinct names. */
  lemma PrefixInjective(p: string, a: string, b: string)
    requires p + a == p + b
    ensures a == b
  {
    assert a == (p + a)[|p|..];
    assert b == (p + b)[|p|..];
  }

  lemma NonEmptyHasRoute(s: set<string>)
    requires s != {}
    ensures exists r :: r in s
  {
    if forall r :: r !in s {
      assert false;
    }
  }

  /** An encoded call or response: the payload and its content type. */
  datatype Encoded = Encoded(payload: Bytes, contentType: string)

  /**
   * The call and response codec. Decoding a call takes the receiver's route,
   * since the route is not part of the encoded payload.
   */
  datatype Codec = Codec(
    encodeCall: RpcCall -> Encoded,
    decodeCall: (Encoded, string) -> RpcCall,
    encodeResp: RpcResp -> Encoded,
    decodeResp: Encoded -> RpcResp)

  /** The codec undoes itself: a call decoded with its own route, and any response. */
  ghost predicate RoundTrips(codec: Codec) {
    (forall c: RpcCall :: codec.decodeCall(codec.encodeCall(c), c.route) == c)
    && (forall r: RpcResp :: codec.decodeResp(codec.encodeResp(r)) == r)
  }

  function Payload(m: AmqpMsg): Encoded {
    Encoded(m.payload, m.contentType)
  }

  /** The outgoing call message: routed to `rpc.<route>` with topic `rpc`, replies going to `replyTo`. */
  function CallMsg(codec: Codec, call: RpcCall, replyTo: string, correlationId: string): (m: AmqpMsg)
    ensures Payload(m) == codec.encodeCall(call)
    ensures m.exchange == RpcExchange(call.route) && m.topic == RpcTopic
    ensures m.replyTo == replyTo && m.correlationId == correlationId
  {
    var e := codec.encodeCall(call);
    Envelope(e.payload, e.contentType).(exchange := RpcExchange(call.route), topic := RpcTopic,
                                        replyTo := replyTo, correlationId := correlationId)
  }

  /** The reply to an incoming call: addressed by the call's `reply_to`, correlated by its reply key. */
  function ReplyMsg(codec: Codec, resp: RpcResp, request: AmqpMsg): (m: AmqpMsg)
    ensures Payload(m) == codec.encodeResp(resp)
    ensures m.topic == request.replyTo && m.correlationId == ReplyKey(request.correlationId)
    ensures m.exchange == ""
  {
    var e := codec.encodeResp(resp);
    Envelope(e.payload, e.contentType).(topic := request.replyTo,
                                        correlationId := ReplyKey(request.correlationId))
  }

  /** The `DeclareExchange` actions of the publish channel, one per route, in declaration order. */
  function PublishDeclares(channel: int, routes: seq<string>): (r: seq<Action>)
    ensures |r| == |routes|
    ensures forall i | 0 <= i < |r| ::
              r[i] == DeclareExchange(channel, RpcExchange(routes[i]), ExchangeKind, true, false,
                                      false, map[])
  {
    if routes == [] then []
    else PublishDeclares(channel, routes[..|routes| - 1])
         + [DeclareExchange(channel, RpcExchange(routes[|routes| - 1]), ExchangeKind, true, false,
                            false, map[])]
  }

  lemma PublishDeclaresAppend(channel: int, routes: seq<string>, route: string)
    ensures PublishDeclares(channel, routes + [route])
            == PublishDeclares(channel, routes)
               + [DeclareExchange(channel, RpcExchange(route), ExchangeKind, true, false, false, map[])]
  {
    assert (routes + [route])[..|routes|] == routes;
  }

  /** The actions `_create_listen` appends on channel `n`. */
  function ListenActions(n: int, route: string, tag: string): seq<Action> {
    [CreateChannel(n),
     DeclareExchange(n, RpcExchange(route), ExchangeKind, true, false, false, map[]),
     DeclareQueue(n, RpcQueue(route), false, false, true, map[]),
     BindQueue(n, RpcQueue(route), RpcExchange(route), RpcTopic, map[]),
     BindConsumer(n, RpcQueue(route), tag, ListenCallback, false, false, map[], NackRequeueDefault)]
  }

  /** The actions `_create_resp` appends on channel `n`. */
  function RespActions(n: int, queue: string, tag: string): seq<Action> {
    [CreateChannel(n),
     DeclareQueue(n, queue, false, true, true, map[]),
     BindConsumer(n, queue, tag, RespCallback, true, true, map[], NackRequeueDefault)]
  }

  /** A future: waiting for its reply, or resolved with it. */
  datatype FutureState = Waiting | Resolved(resp: RpcResp)

  /** A message handed to the driver, with the channel number it was published on (`None` before `configure`). */
  datatype Published = Published(channel: Option<int>, msg: AmqpMsg)

  /** What `send_rpc_call` has set up before it blocks on the future. */
  datatype PendingCall = PendingCall(key: string, correlationId: string, future: nat, timeout: int)

  class GeventAmqpRpcConn {
    const conn: SimpleTopology.AmqpConnection
    const ids: Ids.IdSource
    const listenRoute: string
    const callTimeout: int
    const codec: Codec
    const rpcCallback: Option<RpcCall -> RpcResp>
    var callChannel: Option<int>
    var respChannel: Option<int>
    var publishRoutes: set<string>
    /** `_response_futures`: reply key → future. */
    var responseFutures: map<string, nat>
    /** Every future created so far, by number. */
    var futures: seq<FutureState>
    var respQueue: string
    /** Messages handed to the driver for publishing, in order. */
    var published: seq<Published>

    /** Every pending key is a reply key for a correlation id already drawn, and names an existing future. */
    ghost predicate Valid()
      reads this, conn, ids
    {
      conn.Valid() && ids.Valid()
      && forall k | k in responseFutures ::
           responseFutures[k] < |futures|
           && |ReplyPrefix| <= |k| && k[..|ReplyPrefix|] == ReplyPrefix
           && k[|ReplyPrefix|..] in ids.issued
    }

    constructor (params: AmqpParameters, ids: Ids.IdSource, route: string,
                 rpcCallback: Option<RpcCall -> RpcResp>, callTimeout: int, codec: Codec)
      requires ids.Valid()
      ensures Valid() && fresh(conn)
      ensures this.ids == ids && listenRoute == route && this.rpcCallback == rpcCallback
      ensures this.callTimeout == callTimeout && this.codec == codec
      ensures conn.channelNumber == 1
      ensures conn.actions == [CreateConnection(params.host, params.port, params.username,
                                                params.password, params.vhost)]
      ensures callChannel == None && respChannel == None && publishRoutes == {}
      ensures responseFutures == map[] && futures == [] && respQueue == "" && published == []
    {
      conn := new SimpleTopology.AmqpConnection(params);
      this.ids := ids;
      listenRoute := route;
      this.rpcCallback := rpcCallback;
      this.callTimeout := callTimeout;
      this.codec := codec;
      callChannel := None;
      respChannel := None;
      publishRoutes := {};
      responseFutures := map[];
      futures := [];
      respQueue := "";
      published := [];
    }

    /** `add_publish_route`. */
    method AddPublishRoute(route: string)
      modifies this
      ensures publishRoutes == old(publishRoutes) + {route}
      ensures callChannel == old(callChannel) && respChannel == old(respChannel)
      ensures responseFutures == old(responseFutures) && futures == old(futures)
      ensures respQueue == old(respQueue) && published == old(published)
    {
      publishRoutes := publishRoutes + {route};
    }

    /**
     * The part of `send_rpc_call` before it blocks: a timeout of -1 becomes
     * the configured one, the encoded call is published on the call channel
     * with a fresh correlation id, and exactly one new pending entry is
     * added under its reply key. Without a call channel the publish raises
     * `AttributeError` and nothing is registered.
     */
    method SendRpcCall(call: RpcCall, timeout: int) returns (r: Result<PendingCall, PyError>)
      requires Valid()
      modifies this, ids
      ensures Valid()
      ensures callChannel == old(callChannel) && respChannel == old(respChannel)
      ensures publishRoutes == old(publishRoutes) && respQueue == old(respQueue)
      ensures r.Ok? <==> old(callChannel).Some?
      ensures r.Err? ==> r.error == AttributeError("publish")
                         && responseFutures == old(responseFutures) && futures == old(futures)
                         && published == old(published)
      ensures r.Ok? ==>
                r.value.timeout == (if timeout == -1 then callTimeout else timeout)
                && r.value.key == ReplyKey(r.value.correlationId)
                && r.value.correlationId !in old(ids.issued)
                && ids.issued == old(ids.issued) + {r.value.correlationId}
                && r.value.key !in old(responseFutures)
                && r.value.future == |old(futures)|
                && futures == old(futures) + [Waiting]
                && responseFutures == old(responseFutures)[r.value.key := r.value.future]
                && published == old(published)
                   + [Published(old(callChannel),
                                CallMsg(codec, call, respQueue, r.value.correlationId))]
    {
      var effective := if timeout == -1 then callTimeout else timeout;
      var correlationId := ids.Next();
      var msg := CallMsg(codec, call, respQueue, correlationId);
      if callChannel.None? {
        return Err(AttributeError("publish"));
      }
      published := published + [Published(callChannel, msg)];
      var key := ReplyKey(correlationId);
      var future := |futures|;
      futures := futures + [Waiting];
      responseFutures := responseFutures[key := future];
      r := Ok(PendingCall(key, correlationId, future, effective));
    }

    /**
     * `future.get(timeout)`: the resolved response, or a timeout while the
     * future still waits. Timing out leaves the pending entry in place.
     */
    method AwaitReply(p: PendingCall) returns (r: Result<RpcResp, PyError>)
      requires p.future < |futures|
      ensures futures[p.future].Resolved? ==> r == Ok(futures[p.future].resp)
      ensures futures[p.future].Waiting? ==> r == Err(OtherError("Timeout"))
    {
      match futures[p.future]
      case Resolved(resp) => r := Ok(resp);
      case Waiting => r := Err(OtherError("Timeout"));
    }

    /**
     * `on_resp_message`: a reply whose correlation id is pending removes that
     * entry alone and resolves its future with the decoded response; any
     * other reply is dropped. The message is always acknowledged.
     */
    method OnRespMessage(msg: AmqpMsg) returns (ack: bool)
      requires Valid()
      modifies this
      ensures Valid() && ack
      ensures callChannel == old(callChannel) && respChannel == old(respChannel)
      ensures publishRoutes == old(publishRoutes) && respQueue == old(respQueue)
      ensures published == old(published)
      ensures msg.correlationId !in old(responseFutures) ==>
                responseFutures == old(responseFutures) && futures == old(futures)
      ensures msg.correlationId in old(responseFutures) ==>
                responseFutures == old(responseFutures) - {msg.correlationId}
                && futures == old(futures)[old(responseFutures)[msg.correlationId] :=
                                             Resolved(codec.decodeResp(Payload(msg)))]
    {
      if msg.correlationId !in responseFutures {
        return true;
      }
      var future := responseFutures[msg.correlationId];
      responseFutures := responseFutures - {msg.correlationId};
      var resp := codec.decodeResp(Payload(msg));
      futures := futures[future := Resolved(resp)];
      ack := true;
    }

    /**
     * `on_listen_message`: decodes the call for this connection's route,
     * answers it through the callback, and publishes the reply on the call
     * channel. With no callback the call raises `TypeError`.
     */
    method OnListenMessage(msg: AmqpMsg) returns (r: Result<bool, PyError>)
      modifies this
      ensures callChannel == old(callChannel) && respChannel == old(respChannel)
      ensures publishRoutes == old(publishRoutes) && respQueue == old(respQueue)
      ensures responseFutures == old(responseFutures) && futures == old(futures)
      ensures rpcCallback.None? ==> r == Err(TypeError("rpc_callback")) && published == old(published)
      ensures rpcCallback.Some? ==>
                r == Ok(true)
                && published == old(published)
                   + [Published(callChannel,
                                ReplyMsg(codec,
                                         rpcCallback.value(codec.decodeCall(Payload(msg), listenRoute)),
                                         msg))]
    {
      var call := codec.decodeCall(Payload(msg), listenRoute);
      if rpcCallback.None? {
        return Err(TypeError("rpc_callback"));
      }
      var resp := rpcCallback.value(call);
      published := published + [Published(callChannel, ReplyMsg(codec, resp, msg))];
      r := Ok(true);
    }

    /**
     * `_create_publish`: one new channel, on which every publish route gets
     * exactly one durable topic exchange `rpc.<route>`, in some order.
     */
    method CreatePublish() returns (ghost order: seq<string>)
      requires Valid()
      modifies this`callChannel, conn, ids
      ensures Valid()
      ensures callChannel == Some(old(conn.channelNumber))
      ensures conn.channelNumber == old(conn.channelNumber) + 1
      ensures forall r :: r in order <==> r in publishRoutes
      ensures forall i, j | 0 <= i < j < |order| :: order[i] != order[j]
      ensures conn.actions == old(conn.actions) + [CreateChannel(old(conn.channelNumber))]
                              + PublishDeclares(old(conn.channelNumber), order)
      ensures respChannel == old(respChannel) && publishRoutes == old(publishRoutes)
      ensures responseFutures == old(responseFutures) && futures == old(futures)
      ensures respQueue == old(respQueue) && published == old(published)
      ensures ids.issued == old(ids.issued)
    {
      var ch := conn.Channel();
      order := DeclarePublishExchanges(ch, publishRoutes, ids);
      callChannel := Some(ch.number);
    }

    /**
     * `_create_listen`: a new channel with the durable topic exchange
     * `rpc.<route>` and the auto-delete queue `rpc.<route>`, bound by key
     * `rpc` and consumed by `on_listen_message` with manual acknowledgement.
     */
    method CreateListen() returns (ghost tag: string)
      requires Valid()
      modifies this, conn, ids
      ensures Valid()
      ensures conn.channelNumber == old(conn.channelNumber) + 1
      ensures |tag| > |SimpleTopology.ConsumerPrefix|
      ensures tag[..|SimpleTopology.ConsumerPrefix|] == SimpleTopology.ConsumerPrefix
      ensures tag[|SimpleTopology.ConsumerPrefix|..] !in old(ids.issued)
      ensures ids.issued == old(ids.issued) + {tag[|SimpleTopology.ConsumerPrefix|..]}
      ensures conn.actions == old(conn.actions) + ListenActions(old(conn.channelNumber), listenRoute, tag)
      ensures callChannel == old(callChannel) && respChannel == old(respChannel)
      ensures publishRoutes == old(publishRoutes) && respQueue == old(respQueue)
      ensures responseFutures == old(responseFutures) && futures == old(futures)
      ensures published == old(published)
    {
      tag := BuildListen(conn, ids, listenRoute);
    }

    /**
     * `_create_resp`: a new channel with an anonymous auto-delete exclusive
     * queue consumed by `on_resp_message` with automatic acknowledgement;
     * the queue's name becomes the reply-to of every later call.
     */
    method CreateResp() returns (ghost tag: string)
      requires Valid()
      modifies this, conn, ids
      ensures Valid()
      ensures conn.channelNumber == old(conn.channelNumber) + 1
      ensures respChannel == Some(old(conn.channelNumber))
      ensures old(ids.issued) <= ids.issued
      ensures |respQueue| >= |SimpleTopology.PrivatePrefix|
      ensures respQueue[..|SimpleTopology.PrivatePrefix|] == SimpleTopology.PrivatePrefix
      ensures respQueue[|SimpleTopology.PrivatePrefix|..] !in old(ids.issued)
      ensures conn.actions == old(conn.actions) + RespActions(old(conn.channelNumber), respQueue, tag)
      ensures callChannel == old(callChannel) && publishRoutes == old(publishRoutes)
      ensures responseFutures == old(responseFutures) && futures == old(futures)
      ensures published == old(published)
    {
      var number, queue;
      number, queue, tag := BuildResp(conn, ids);
      respChannel := Some(number);
      respQueue := queue;
    }

    /**
     * `configure`: the publish, listen and response channels, created in
     * that order and so numbered consecutively.
     */
    method Configure() returns (ghost order: seq<string>, ghost listenTag: string, ghost respTag: string)
      requires Valid()
      modifies this, conn, ids
      ensures Valid()
      ensures callChannel == Some(old(conn.channelNumber))
      ensures respChannel == Some(old(conn.channelNumber) + 2)
      ensures conn.channelNumber == old(conn.channelNumber) + 3
      ensures forall r :: r in order <==> r in publishRoutes
      ensures forall i, j | 0 <= i < j < |order| :: order[i] != order[j]
      ensures conn.actions == old(conn.actions)
                + [CreateChannel(old(conn.channelNumber))]
                + PublishDeclares(old(conn.channelNumber), order)
                + ListenActions(old(conn.channelNumber) + 1, listenRoute, listenTag)
                + RespActions(old(conn.channelNumber) + 2, respQueue, respTag)
      ensures publishRoutes == old(publishRoutes)
      ensures responseFutures == old(responseFutures) && futures == old(futures)
      ensures published == old(published)
    {
      order := CreatePublish();
      listenTag := CreateListen();
      respTag := CreateResp();
    }
  }

  /** The order in which a set is iterated: each member exactly once. */
  method Enumerate(routes: set<string>) returns (order: seq<string>)
    ensures forall r :: r in order <==> r in routes
    ensures forall i, j | 0 <= i < j < |order| :: order[i] != order[j]
  {
    var remaining := routes;
    order := [];
    while remaining != {}
      invariant forall r :: r in order <==> r in routes && r !in remaining
      invariant remaining <= routes
      invariant forall i, j | 0 <= i < j < |order| :: order[i] != order[j]
      decreases remaining
    {
      NonEmptyHasRoute(remaining);
      var route :| route in remaining;
      order := order + [route];
      remaining := remaining - {route};
    }
  }

  /** The loop of `_create_publish`: one `DeclareExchange` per route on a fresh channel. */
  method DeclarePublishExchanges(ch: SimpleTopology.AmqpChannel, routes: set<string>,
                                 ids: Ids.IdSource) returns (order: seq<string>)
    requires ch.Valid() && ch.conn.Valid() && ids.Valid() && ch.exchangeCache == map[]
    modifies ch, ch.conn, ids
    ensures ch.conn.Valid() && ids.Valid()
    ensures ch.conn.channelNumber == old(ch.conn.channelNumber)
    ensures ids.issued == old(ids.issued)
    ensures forall r :: r in order <==> r in routes
    ensures forall i, j | 0 <= i < j < |order| :: order[i] != order[j]
    ensures ch.conn.actions == old(ch.conn.actions) + PublishDeclares(ch.number, order)
  {
    order := Enumerate(routes);
    var i := 0;
    while i < |order|
      invariant 0 <= i <= |order|
      invariant PublishLoop(ch, ids, order, i, old(ch.conn.actions), old(ch.conn.channelNumber),
                            old(ids.issued))
    {
      DeclareNext(ch, ids, order, i, old(ch.conn.actions), old(ch.conn.channelNumber),
                  old(ids.issued));
      i := i + 1;
    }
    assert order[..i] == order;
  }

  /** The exchange names `rpc.<route>` of a sequence of routes. */
  function ExchangeNames(routes: seq<string>): set<string> {
    if routes == [] then {}
    else ExchangeNames(routes[..|routes| - 1]) + {RpcExchange(routes[|routes| - 1])}
  }

  /** A route outside the sequence has an exchange name outside its names. */
  lemma {:induction false} ExchangeNamesExclude(routes: seq<string>, route: string)
    requires route !in routes
    ensures RpcExchange(route) !in ExchangeNames(routes)
  {
    if routes != [] {
      var last := routes[|routes| - 1];
      assert route != last;
      if RpcExchange(route) == RpcExchange(last) {
        PrefixInjective(RpcPrefix, route, last);
      }
      assert routes[..|routes| - 1] <= routes;
      ExchangeNamesExclude(routes[..|routes| - 1], route);
    }
  }

  /** The state of `_create_publish` after declaring the first `i` routes of `order`. */
  ghost predicate PublishLoop(ch: SimpleTopology.AmqpChannel, ids: Ids.IdSource, order: seq<string>,
                              i: nat, actions0: seq<Action>, number0: int, issued0: set<string>)
    reads ch, ch.conn, ids
  {
    i <= |order|
    && ch.Valid() && ch.conn.Valid() && ids.Valid()
    && ch.conn.channelNumber == number0 && ids.issued == issued0
    && ch.exchangeCache.Keys == ExchangeNames(order[..i])
    && ch.conn.actions == actions0 + PublishDeclares(ch.number, order[..i])
  }

  /** One pass of the `_create_publish` loop. */
  method DeclareNext(ch: SimpleTopology.AmqpChannel, ids: Ids.IdSource, order: seq<string>, i: nat,
                     ghost actions0: seq<Action>, ghost number0: int, ghost issued0: set<string>)
    requires i < |order| && forall a, b | 0 <= a < b < |order| :: order[a] != order[b]
    requires PublishLoop(ch, ids, order, i, actions0, number0, issued0)
    modifies ch, ch.conn, ids
    ensures PublishLoop(ch, ids, order, i + 1, actions0, number0, issued0)
  {
    assert order[..i + 1] == order[..i] + [order[i]];
    ExchangeNamesExclude(order[..i], order[i]);
    DeclareRoute(ch, order[i], ids);
    PublishDeclaresAppend(ch.number, order[..i], order[i]);
  }

  /** One iteration of `_create_publish`: declares `rpc.<route>`, which the channel has not cached yet. */
  method DeclareRoute(ch: SimpleTopology.AmqpChannel, route: string, ids: Ids.IdSource)
    requires ch.Valid() && ch.conn.Valid() && ids.Valid()
    requires RpcExchange(route) !in ch.exchangeCache
    modifies ch, ch.conn, ids
    ensures ch.Valid() && ch.conn.Valid() && ids.Valid()
    ensures ch.conn.channelNumber == old(ch.conn.channelNumber)
    ensures ids.issued == old(ids.issued)
    ensures ch.exchangeCache.Keys == old(ch.exchangeCache.Keys) + {RpcExchange(route)}
    ensures ch.conn.actions == old(ch.conn.actions)
              + [DeclareExchange(ch.number, RpcExchange(route), ExchangeKind, true, false, false, map[])]
  {
    var e := ch.Exchange(RpcExchange(route), ExchangeKind, true, false, false, map[], ids);
  }

  /** The builder calls of `_create_listen`. */
  method BuildListen(conn: SimpleTopology.AmqpConnection, ids: Ids.IdSource, route: string)
    returns (ghost tag: string)
    requires conn.Valid() && ids.Valid()
    modifies conn, ids
    ensures conn.Valid() && ids.Valid()
    ensures conn.channelNumber == old(conn.channelNumber) + 1
    ensures |tag| > |SimpleTopology.ConsumerPrefix|
    ensures tag[..|SimpleTopology.ConsumerPrefix|] == SimpleTopology.ConsumerPrefix
    ensures tag[|SimpleTopology.ConsumerPrefix|..] !in old(ids.issued)
    ensures ids.issued == old(ids.issued) + {tag[|SimpleTopology.ConsumerPrefix|..]}
    ensures conn.actions == old(conn.actions) + ListenActions(old(conn.channelNumber), route, tag)
  {
    ghost var before, n := conn.actions, conn.channelNumber;
    var ch := conn.Channel();
    var exchange, queue := DeclareListen(ch, route, ids);
    queue := queue.Bind(exchange, RpcTopic, map[]);
    var consumer := queue.Consume(ListenCallback, false, false, true, map[], ids);
    tag := consumer.tag;
    ListenSteps(before, n, route, tag);
  }

  /** The listen actions, in the four calls that append them. */
  lemma ListenSteps(before: seq<Action>, n: int, route: string, tag: string)
    ensures var steps := ListenActions(n, route, tag);
            before + [steps[0]] + [steps[1], steps[2]] + [steps[3]] + [steps[4]] == before + steps
  {
    var steps := ListenActions(n, route, tag);
    var tail := [steps[0]] + [steps[1], steps[2]] + [steps[3]] + [steps[4]];
    assert tail == steps;
    assert before + [steps[0]] + [steps[1], steps[2]] + [steps[3]] + [steps[4]] == before + tail;
  }

  /** The builder calls of `_create_resp`: the channel number, the drawn queue name, and the consumer tag. */
  method BuildResp(conn: SimpleTopology.AmqpConnection, ids: Ids.IdSource)
    returns (number: int, queue: string, ghost tag: string)
    requires conn.Valid() && ids.Valid()
    modifies conn, ids
    ensures conn.Valid() && ids.Valid()
    ensures number == old(conn.channelNumber)
    ensures conn.channelNumber == old(conn.channelNumber) + 1
    ensures old(ids.issued) <= ids.issued
    ensures |queue| >= |SimpleTopology.PrivatePrefix|
    ensures queue[..|SimpleTopology.PrivatePrefix|] == SimpleTopology.PrivatePrefix
    ensures queue[|SimpleTopology.PrivatePrefix|..] !in old(ids.issued)
    ensures conn.actions == old(conn.actions) + RespActions(number, queue, tag)
  {
    var ch := conn.Channel();
    var q := ch.Queue("", false, true, true, map[], ids);
    var consumer := q.Consume(RespCallback, true, true, true, map[], ids);
    number := ch.number;
    queue := q.name;
    tag := consumer.tag;
  }

  /** The declarations of `_create_listen` on its fresh channel. */
  method DeclareListen(ch: SimpleTopology.AmqpChannel, route: string, ids: Ids.IdSource)
    returns (exchange: SimpleTopology.AmqpExchange, queue: SimpleTopology.AmqpQueue)
    requires ch.Valid() && ch.conn.Valid() && ids.Valid()
    requires ch.queueCache == map[] && ch.exchangeCache == map[]
    modifies ch, ch.conn, ids
    ensures ch.conn.Valid() && ids.Valid()
    ensures ch.conn.channelNumber == old(ch.conn.channelNumber) && ids.issued == old(ids.issued)
    ensures exchange.name == RpcExchange(route)
    ensures queue.name == RpcQueue(route) && queue.conn == ch.conn && queue.channel == ch
    ensures ch.conn.actions == old(ch.conn.actions)
              + [DeclareExchange(ch.number, RpcExchange(route), ExchangeKind, true, false, false, map[]),
                 DeclareQueue(ch.number, RpcQueue(route), false, false, true, map[])]
  {
    exchange := ch.Exchange(RpcExchange(route), ExchangeKind, true, false, false, map[], ids);
    queue := ch.Queue(RpcQueue(route), false, false, true, map[], ids);
  }

  /** On a new connection, `configure` creates exactly the channels 1, 2 and 3: publish, listen, response. */
  method ConfigureNew(params: AmqpParameters, ids: Ids.IdSource, route: string, codec: Codec)
    returns (c: GeventAmqpRpcConn)
    requires ids.Valid()
    modifies ids
    ensures c.Valid() && c.ids == ids
    ensures c.callChannel == Some(1) && c.respChannel == Some(3)
    ensures SimpleTopology.ChannelsCreated(c.conn.actions) == [1, 2, 3]
  {
    FirstThreeChannels();
    c := new GeventAmqpRpcConn(params, ids, route, None, 5, codec);
    var order, listenTag, respTag := c.Configure();
  }

  lemma FirstThreeChannels()
    ensures SimpleTopology.Range(1, 4) == [1, 2, 3]
  {
    var r := SimpleTopology.Range(1, 4);
    assert r[0] == 1 && r[1] == 2 && r[2] == 3;
  }

  /**
   * A call published by one connection, answered by the connection that
   * listens on the call's route, and replied to, resolves the caller's
   * future with exactly the response the remote callback produced.
   */
  method CallRoundTrip(client: GeventAmqpRpcConn, server: GeventAmqpRpcConn, call: RpcCall)
    returns (r: Result<RpcResp, PyError>)
    requires client.Valid() && client != server
    requires client.codec == server.codec && RoundTrips(client.codec)
    requires server.listenRoute == call.route && server.rpcCallback.Some?
    requires client.callChannel.Some?
    modifies client, client.ids, server
    ensures r == Ok(server.rpcCallback.value(call))
  {
    var sent := client.SendRpcCall(call, -1);
    var request := client.published[|client.published| - 1].msg;
    var handled := server.OnListenMessage(request);
    var reply := server.published[|server.published| - 1].msg;
    var ack := client.OnRespMessage(reply);
    r := client.AwaitReply(sent.value);
  }

  /** A call that is never answered times out, and its pending entry stays behind. */
  method UnansweredCall(client: GeventAmqpRpcConn, call: RpcCall)
    returns (r: Result<RpcResp, PyError>, ghost key: string)
    requires client.Valid() && client.callChannel.Some?
    modifies client, client.ids
    ensures r == Err(OtherError("Timeout"))
    ensures key in client.responseFutures
  {
    var sent := client.SendRpcCall(call, -1);
    key := sent.value.key;
    r := client.AwaitReply(sent.value);
  }
}
