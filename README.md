# clean-arch-services, modelled in Dafny

This project models the messaging core and the users service of
clean-arch-services.

- **AMQP topology builders** (`simple_amqp`, `ge_amqp`). Declaring
  connections, channels, queues, exchanges, bindings and consumers only
  appends *actions* to the connection's log. Named queues and exchanges are
  cached per channel in `simple_amqp` and are not cached in `ge_amqp`.
  Anonymous ones get a fresh `private.<id>` name.
- **asyncio driver** (`simple_amqp/asyncio.py`). It replays the action log
  against a broker and reconnects after a failure. It also acknowledges or
  rejects each delivery according to what the callback returned, cancels
  consumers, publishes, and stops in three stages: consumers, then channels,
  then the connection. The broker is a scripted transport, and the model
  records what the driver sends to it.
- **RPC layer** (`simple_amqp_rpc`, `ge_amqp_rpc`, `utils/amqp_rpc`). It
  covers:
  - response records and status codes;
  - service and method registries, and dispatch of a call to its handler or
    to one of the two "not found" errors;
  - client proxies that turn attribute access into calls;
  - the gevent connection: the `rpc.<service>` exchanges and queues, the
    private reply queue, correlation ids and pending replies;
  - the pika callback chain of `utils/amqp_rpc`: channels, declarations,
    bindings, consumers, close and cancel callbacks, and pending futures.
- **Pub/sub layer** (`simple_amqp_pubsub`). It covers:
  - the event encoding;
  - the `pubsub.<service>` topic exchanges;
  - the listen queue bound once per listened event;
  - the client proxy that pushes events;
  - delivery of a received event to its handler.
- **Users service** (`usersvc`):
  - role and user entities and a user's permissions;
  - the in-memory repository stubs and their seeded data;
  - the user and auth use cases, in both the `use_cases` and `use_case`
    variants;
  - the MongoDB document adapters and the HTTP JSON adapters;
  - the framework-neutral HTTP request, response and API registry of
    `utils/http`.
- **Service pipeline sketch** (`gevent_service_test.py`). It covers the
  `compose` pipeline of steps and its create-user steps.

Python's dynamic failures (`KeyError`, `AttributeError`, `TypeError`,
`ValueError`, `UnboundLocalError`) appear as `Err` values of a `Result`.
The following are parameters or scripted inputs, never effects:

- id generation (`uuid4`, `ulid.new`), drawn from an oracle that never repeats
  an id;
- encoders and parsers (`json.dumps`/`loads`, `msgpack`, `str.encode`);
- the broker, the database and the network.

## Model

| member | source | states |
|---|---|---|
| Ids.IdSource.Next | simple_amqp/base.py:19 | the drawn id is non-empty and was never issued before; the issued set grows by exactly that id |
| SimpleTopology.Range | simple_amqp/base.py:35-53 | the channel numbers handed out are consecutive from the start value |
| SimpleTopology.ChannelsCreatedAppend | simple_amqp/base.py:55-56 | appending an action adds its channel number to the created channels only when it is a `CreateChannel` |
| SimpleTopology.FreshPrivateNamesDiffer | simple_amqp/base.py:17-21 | two names drawn one after the other for anonymous objects differ |
| SimpleTopology.CreateName | simple_amqp/base.py:17-21 | a non-empty name is kept and draws no id; an empty one becomes `private.` plus a fresh id |
| SimpleTopology.AmqpConnection.constructor | simple_amqp/base.py:25-35 | the log is exactly one `CreateConnection` with the parameters' fields, and the next channel is 1 |
| SimpleTopology.AmqpConnection.Channel | simple_amqp/base.py:46-53 | the new channel gets the current number, the counter goes up by one, one `CreateChannel` is logged, and the logged channels stay 1..n in order |
| SimpleTopology.AmqpConnection.AddAction | simple_amqp/base.py:55-56 | the log grows by exactly the action at its end; earlier entries are unchanged |
| SimpleTopology.AmqpChannel.constructor | simple_amqp/base.py:70-74 | a channel starts with empty queue and exchange caches |
| SimpleTopology.AmqpChannel.Queue | simple_amqp/base.py:76-102 | a cached named queue is returned whatever the flags, with nothing logged; an uncached named queue is declared once and cached; an anonymous queue gets a fresh private name and is never cached |
| SimpleTopology.AmqpChannel.Exchange | simple_amqp/base.py:104-132 | the same three cases for exchanges, with the exchange type recorded in the declaration |
| SimpleTopology.AmqpQueue.constructor | simple_amqp/base.py:142-166 | the queue name is the given one or a fresh private name, and exactly one `DeclareQueue` is logged on the channel |
| SimpleTopology.AmqpQueue.Bind | simple_amqp/base.py:168-184 | logs one `BindQueue` from this queue to the exchange and returns the same queue |
| SimpleTopology.AmqpQueue.Consume | simple_amqp/base.py:186-200 | a new consumer whose tag is `consumer.` plus a fresh id; its `BindConsumer` carries the flags but neither the given `nack_requeue` nor the props |
| SimpleTopology.AmqpExchange.constructor | simple_amqp/base.py:204-230 | the name is the given one or a fresh private one, and one `DeclareExchange` is logged |
| SimpleTopology.AmqpExchange.Bind | simple_amqp/base.py:232-248 | logs one `BindExchange` from the given source to this exchange and returns it |
| SimpleTopology.AmqpConsumer.constructor | simple_amqp/base.py:252-278 | draws a fresh `consumer.` tag and logs one `BindConsumer` with empty props |
| SimpleTopology.DeclareNamedTwice | simple_amqp/base.py:84-88 | declaring one named queue twice gives the same object and logs at most one declaration |
| SimpleTopology.DeclareAnonymousTwice | simple_amqp/base.py:98-99 | two anonymous queues are distinct objects with distinct names, and two declarations are logged |
| SimpleTopology.ThreeChannels | simple_amqp/base.py:46-53 | a fresh connection hands out channels 1, 2 and 3 and logs exactly those, after the connection |
| GeActions.ChannelOf | ge_amqp/actions.py:6-62 | every action except `CreateConnection` names a channel, and `CreateChannel` names its own number |
| GeActions.NamesOf | ge_amqp/actions.py:6-62 | only `CreateConnection` and `CreateChannel` carry no names |
| GeActions.FlagsOf | ge_amqp/actions.py:20-62 | lists the boolean flags each action record carries |
| GeActions.DefaultsAreNeutral | ge_amqp/actions.py:6-62 | the record defaults are localhost:5672, guest/guest and "/"; every channel is -1, every name empty, every flag false and there is no callback |
| GeTopology.CreateName | ge_amqp/interfaces.py:17-21 | a non-empty name is kept; an empty one becomes `private.` plus a lower-cased fresh id |
| GeTopology.IAmqpConnection.constructor | ge_amqp/interfaces.py:34-44 | the log is one `CreateConnection` with the parameters' fields, and the next channel is 1 |
| GeTopology.IAmqpConnection.Channel | ge_amqp/interfaces.py:46-53 | the channel gets the current number, the counter goes up by one, and one `CreateChannel` is logged |
| GeTopology.IAmqpConnection.AddAction | ge_amqp/interfaces.py:55-56 | the log grows by exactly the action |
| GeTopology.IAmqpChannel.constructor | ge_amqp/interfaces.py:70-72 | the channel keeps its connection and number |
| GeTopology.IAmqpChannel.Queue | ge_amqp/interfaces.py:74-87 | every call makes a new queue and logs a new `DeclareQueue`, named or not |
| GeTopology.IAmqpChannel.Exchange | ge_amqp/interfaces.py:89-104 | every call makes a new exchange; the logged declaration carries the record's empty type, not the given one |
| GeTopology.IAmqpQueue.constructor | ge_amqp/interfaces.py:108-127 | the name is the given one or a fresh private one, and one `DeclareQueue` is logged |
| GeTopology.IAmqpQueue.Bind | ge_amqp/interfaces.py:129-136 | logs one `BindQueue` and returns the queue |
| GeTopology.IAmqpQueue.Consume | ge_amqp/interfaces.py:138-149 | a new consumer with a fresh lower-cased `consumer.` tag, and one `BindConsumer` with the given flags |
| GeTopology.IAmqpExchange.constructor | ge_amqp/interfaces.py:153-173 | the name is the given one or a fresh private one, and one `DeclareExchange` without the type is logged |
| GeTopology.IAmqpExchange.Bind | ge_amqp/interfaces.py:175-182 | logs one `BindExchange` from the source to this exchange and returns it |
| GeTopology.IAmqpConsumer.constructor | ge_amqp/interfaces.py:186-206 | draws a fresh `consumer.` tag and logs one `BindConsumer` |
| GeTopology.DeclareNamedTwice | ge_amqp/interfaces.py:74-87 | with no cache, declaring one named queue twice gives two objects of that name and two declarations |
| SimpleDriver.SetChannel | simple_amqp/asyncio.py:166-168 | the channel is registered with an empty consumer-tag set; nothing else changes |
| SimpleDriver.RemoveChannel | simple_amqp/asyncio.py:170-172 | the removal succeeds exactly when the channel and its tag set are present; a missing channel raises with nothing removed |
| SimpleDriver.SetThenRemoveChannel | simple_amqp/asyncio.py:166-172 | setting then removing a channel that was not open gives back the original tables |
| SimpleDriver.WithQueueTable | simple_amqp/asyncio.py:226-227 | the per-channel table exists afterwards, empty when it was missing, and other channels are untouched |
| SimpleDriver.ExecAction | simple_amqp/asyncio.py:145-161 | one action succeeds only when its lookups succeed and the broker accepts its step; a failed lookup raises before the broker is asked; a created channel is registered |
| SimpleDriver.ReplayFrom | simple_amqp/asyncio.py:145-161 | a pass runs the actions in log order and stops at the first failure; it succeeds exactly when it reaches the end of the log |
| SimpleDriver.Replay | simple_amqp/asyncio.py:145-161 | a whole pass succeeds exactly when every action ran |
| SimpleDriver.Runs | simple_amqp/asyncio.py:146 | the operations of the first n actions, one per action in log order |
| SimpleDriver.ReplayKeepsHandles | simple_amqp/asyncio.py:217-256 | a successful pass never loses a channel, queue or exchange it started with |
| SimpleDriver.ReplayDeclaresAll | simple_amqp/asyncio.py:217-256 | after a successful pass every channel, queue and exchange the log declares is in the driver's tables |
| SimpleDriver.ConsumerSurvives | simple_amqp/asyncio.py:166-168 | a registered consumer tag survives a successful pass that never re-creates its channel |
| SimpleDriver.ReplayBindsAllConsumers | simple_amqp/asyncio.py:293-298 | after a successful pass every consumer the log binds is registered, provided no channel is re-created after a consumer was bound on it |
| SimpleDriver.NoChannelRecreated | simple_amqp/base.py:46-53 | when channels are numbered without repeats, as `channel()` numbers them, and every consumer sits on a channel created before it, no channel is created again after a consumer was bound on it |
| SimpleDriver.BuilderLogFullyReplayed | simple_amqp/asyncio.py:145-161 | for the log of a valid builder whose consumers sit on channels it created earlier, a successful pass leaves every channel, queue, exchange and consumer of the log in the tables |
| SimpleDriver.AckDecisionFor | simple_amqp/asyncio.py:343-366 | with `auto_ack` nothing is sent; otherwise a true result acks, and a false result or an exception nacks with the action's `nack_requeue` |
| SimpleDriver.NormalizeExpiration | simple_amqp/asyncio.py:102-104 | a negative expiration is dropped and any other is kept |
| SimpleDriver.PublishTarget | simple_amqp/asyncio.py:95-100 | an empty exchange name publishes on the default exchange and a named one on the declared exchange of that name; an unknown channel or exchange raises |
| SimpleDriver.CountSleepsAppend | simple_amqp/asyncio.py:142 | reconnect sleeps add up over concatenated traces |
| SimpleDriver.NoSleepInPass | simple_amqp/asyncio.py:145-161 | a pass over the log never sleeps |
| SimpleDriver.RoundSleeps | simple_amqp/asyncio.py:122-143 | a round holds one sleep when it sleeps and none otherwise, and every sleep lasts `reconnect_delay` |
| SimpleDriver.PairsRemove | simple_amqp/asyncio.py:197 | removing a tag from its channel's set removes exactly that (channel, tag) pair |
| SimpleDriver.AsyncioAmqpConnection.constructor | simple_amqp/asyncio.py:41-55 | the log holds the connection action, every table is empty, the driver is not closing, auto-reconnect is off, the delay is 1 and no handlers are set |
| SimpleDriver.AsyncioAmqpConnection.ClearChannels | simple_amqp/asyncio.py:174-176 | empties the channel and consumer tables and nothing else |
| SimpleDriver.AsyncioAmqpConnection.RunAction | simple_amqp/asyncio.py:148-161 | one dispatched action does what `ExecAction` says and leaves the settings alone |
| SimpleDriver.AsyncioAmqpConnection.RunActions | simple_amqp/asyncio.py:145-161 | the loop over the log ends in the state `Replay` computes, and the broker sees exactly the operations of that pass |
| SimpleDriver.AsyncioAmqpConnection.ActionProcessor | simple_amqp/asyncio.py:120-143 | without auto-reconnect there is exactly one pass, from the tables it started with; a processor that gives up has auto-reconnect off and reports the last pass's error; the tables at the end are those of the last pass over the whole log, which succeeded exactly when the processor is done; a finished processor ends with a full pass of the log; there are passes - 1 sleeps, each of `reconnect_delay`; the handler receives exactly the failed passes' errors, in order, when one is set |
| SimpleDriver.AsyncioAmqpConnection.Attempt | simple_amqp/asyncio.py:123-142 | one round: a pass, its failure handed to the handler when one is set, and one sleep exactly when it failed with auto-reconnect on and more rounds follow |
| SimpleDriver.AsyncioAmqpConnection.RunPass | simple_amqp/asyncio.py:123-132 | the guarded pass reports how far it got; a failure is passed to the connection-error handler exactly when one is set |
| SimpleDriver.AsyncioAmqpConnection.Start | simple_amqp/asyncio.py:65-70 | clears the closing flag, sets auto-reconnect as given and runs the processor: a single pass when auto-reconnect is off; the tables are those of the last pass; once done, every channel, queue and exchange the log declares is in the tables and the trace ends with a full pass; the handler receives exactly the failed passes' errors |
| SimpleDriver.AsyncioAmqpConnection.OnConnectionClose | simple_amqp/asyncio.py:208-215 | every table is emptied; a replay is scheduled after one sleep exactly when the driver is not closing and auto-reconnect is on |
| SimpleDriver.AsyncioAmqpConnection.CancelConsumerTag | simple_amqp/asyncio.py:194-197 | a closed channel raises before anything is sent; otherwise the cancel is sent and, on success, the tag leaves exactly its channel's set |
| SimpleDriver.AsyncioAmqpConnection.StopConsuming | simple_amqp/asyncio.py:189-192 | every cancel sent is for a registered consumer, and on success no consumer is left registered |
| SimpleDriver.AsyncioAmqpConnection.CloseChannels | simple_amqp/asyncio.py:199-201 | only open channels are closed, and on success every open channel was closed |
| SimpleDriver.AsyncioAmqpConnection.CloseConnectionStep | simple_amqp/asyncio.py:203-206 | sets the closing flag; with no connection object it raises and sends nothing; the connection is dropped exactly when the close succeeds |
| SimpleDriver.AsyncioAmqpConnection.Stop | simple_amqp/asyncio.py:74-79 | marks the driver closing; on success no consumer is registered and no connection is held |
| SimpleDriver.AsyncioAmqpConnection.CancelConsumerAsWritten | simple_amqp/asyncio.py:81-87 | as written, the call succeeds exactly when the channel is open, yet it cancels nothing |
| SimpleDriver.AsyncioAmqpConnection.CancelConsumer | simple_amqp/asyncio.py:81-87 | corrected: on success the consumer's (channel, tag) pair, and only that pair, is unregistered |
| SimpleDriver.AsyncioAmqpConnection.HandleMsg | simple_amqp/asyncio.py:326-366 | sends the ack or nack that `AckDecisionFor` chooses; a raised exception reaches the consumer-error handler exactly when one is set |
| SimpleDriver.AsyncioAmqpConnection.Publish | simple_amqp/asyncio.py:89-118 | publishes through the exchange `PublishTarget` picks, with the topic as routing key and a normalised expiration; a failed lookup raises with nothing sent |
| SimpleDriver.CancelAsWrittenKeepsConsumer | simple_amqp/asyncio.py:81-87 | the as-written cancel succeeds on an open channel and leaves the consumer registered |
| SimpleDriver.CancelRemovesConsumer | simple_amqp/asyncio.py:81-87 | the corrected cancel unregisters the consumer |
| SimpleDriver.AckPolicyExamples | simple_amqp/asyncio.py:343-366 | concrete cases: a falsy result or an exception nacks with requeue, a truthy result acks, and auto-ack sends nothing |
| RpcData.StatusesDistinct | ge_amqp_rpc/data.py:6-10 | the five status codes (200, 404, 405, 500, 400) are pairwise distinct |
| RpcData.Resp | simple_amqp_rpc/data.py:15-21 | a response built from a status alone has a `None` body, and it is `ok` exactly when the status is 200 |
| RpcDispatch.GetMethod | simple_amqp_rpc/rpc.py:72-100 | a method is found exactly when both the service and its method are registered; an unknown service gives 404 `Service [s] not found`, checked before an unknown method, which gives 405 `Method [s->m] not found` |
| RpcDispatch.RpcCallback | simple_amqp_rpc/rpc.py:48-70 | the status is always one of the five; an unresolved call is answered by the lookup's response; a resolved one is `ok` exactly when the method returned, with its value as body; a `TypeError` gives 400 `Invalid call arguments`; any other exception gives 500 with no body |
| RpcDispatch.UnresolvedNeverOk | ge_amqp_rpc/rpc.py:54-57 | a call that does not resolve is never `ok`, and its answer does not depend on what the registered methods do |
| RpcDispatch.BaseRpc.constructor | simple_amqp_rpc/base/conn.py:11-13 | the registry starts with no services and no error handlers |
| RpcDispatch.BaseRpc.MethodDecorator | simple_amqp_rpc/base/conn.py:15-17 | the service gets an empty table only when it has none; an existing table is untouched |
| RpcDispatch.BaseRpc.Decorate | simple_amqp_rpc/base/conn.py:19-25 | the function is registered under the explicit name, else its own name, replacing an entry of that name; the decorator returns `None`; a missing service table raises `KeyError` |
| RpcDispatch.BaseRpc.AddSvc | simple_amqp_rpc/base/conn.py:27-31 | the service's table replaces any earlier one under its name |
| RpcDispatch.BaseRpc.AddRecvCallErrorHandler | simple_amqp_rpc/base/conn.py:42-43 | always raises `AttributeError`, because it writes to an attribute the constructor never creates |
| RpcDispatch.RegisterThenDispatch | simple_amqp_rpc/base/conn.py:15-25 | a decorated function answers calls to its own name: a returned value is `ok` with that body, and anything else is not `ok` |
| RpcDispatch.AmqpRpc.constructor | simple_amqp_rpc/rpc.py:21-33 | a new RPC object has its route, no services and no publish routes |
| RpcDispatch.AmqpRpc.AddSvc | ge_amqp_rpc/rpc.py:41-45 | the service's table replaces any earlier one under its name |
| RpcDispatch.AmqpRpc.Client | simple_amqp_rpc/rpc.py:41-43 | the route is registered for publishing, and the returned proxy is bound to the service and that route with an empty cache |
| RpcDispatch.AddSvcTwice | simple_amqp_rpc/rpc.py:35-39 | after two `add_svc` calls under one name, calls are dispatched on the second table only |
| RpcClients.RpcClient.constructor | simple_amqp_rpc/gevent/client.py:5-10 | a proxy keeps its service and route and starts with an empty method cache |
| RpcClients.RpcClient.GetAttribute | simple_amqp_rpc/asyncio/client.py:12-33 | a real attribute wins; otherwise the cached callable is returned, or a new callable for that name is cached and returned |
| RpcClients.RpcClient.CallFor | ge_amqp_rpc/client.py:23-30 | calling the callable builds a call with the proxy's route and service, the attribute name and the given arguments |
| RpcClients.ReadTwice | simple_amqp_rpc/asyncio/client.py:18-33 | two reads of one unknown name give the same callable, and it calls that method on the proxy's own service and route |
| GeventRpcConn.RpcExchange | simple_amqp_rpc/gevent/conn.py:20 | a route's calls go to the exchange `rpc.<route>` |
| GeventRpcConn.RpcQueue | simple_amqp_rpc/gevent/conn.py:21 | a route's calls are consumed from the queue `rpc.<route>` |
| GeventRpcConn.ReplyKey | simple_amqp_rpc/gevent/conn.py:22 | a pending call is keyed `rpc.reply.<correlation id>` |
| GeventRpcConn.PrefixInjective | simple_amqp_rpc/gevent/conn.py:20-22 | names built from one prefix are equal only when their suffixes are, so distinct routes and correlation ids never collide |
| GeventRpcConn.CallMsg | simple_amqp_rpc/gevent/conn.py:65-73 | the outgoing call carries the encoded call, the exchange `rpc.<route>`, the topic `rpc`, the reply queue and the correlation id |
| GeventRpcConn.ReplyMsg | simple_amqp_rpc/gevent/conn.py:88-96 | the reply carries the encoded response, goes to the default exchange with the request's `reply_to` as topic, and is correlated by the request's reply key |
| GeventRpcConn.PublishDeclares | simple_amqp_rpc/gevent/conn.py:113-115 | one durable topic `DeclareExchange` of `rpc.<route>` per route, in iteration order |
| GeventRpcConn.PublishDeclaresAppend | simple_amqp_rpc/gevent/conn.py:113-115 | declaring one more route appends exactly its declaration |
| GeventRpcConn.GeventAmqpRpcConn.constructor | simple_amqp_rpc/gevent/conn.py:27-43 | a new connection holds only the `CreateConnection` action, no channels, no publish routes, no pending futures and an empty reply queue name |
| GeventRpcConn.GeventAmqpRpcConn.AddPublishRoute | simple_amqp_rpc/gevent/conn.py:57-59 | adds the route to the publish routes and changes nothing else |
| GeventRpcConn.GeventAmqpRpcConn.SendRpcCall | simple_amqp_rpc/gevent/conn.py:61-82 | a timeout of -1 becomes the configured one; with a call channel the call is published with a never-used correlation id and exactly one pending entry is added under its reply key; without one it raises `AttributeError` and registers nothing |
| GeventRpcConn.GeventAmqpRpcConn.AwaitReply | simple_amqp_rpc/gevent/conn.py:82 | a resolved future yields its response; a waiting one times out |
| GeventRpcConn.GeventAmqpRpcConn.OnRespMessage | simple_amqp_rpc/gevent/conn.py:101-109 | a reply whose correlation id is pending removes that entry alone and resolves its future with the decoded response; any other reply is dropped; the message is always acknowledged |
| GeventRpcConn.GeventAmqpRpcConn.OnListenMessage | simple_amqp_rpc/gevent/conn.py:84-99 | the decoded call, with this connection's route, is answered through the callback, and the reply is published on the call channel; with no callback it raises `TypeError` |
| GeventRpcConn.GeventAmqpRpcConn.CreatePublish | simple_amqp_rpc/gevent/conn.py:111-117 | one new channel becomes the call channel, and every publish route gets exactly one exchange declaration on it |
| GeventRpcConn.GeventAmqpRpcConn.CreateListen | simple_amqp_rpc/gevent/conn.py:119-129 | one new channel with the exchange and the auto-delete queue `rpc.<route>`, bound by `rpc` and consumed with a fresh tag |
| GeventRpcConn.GeventAmqpRpcConn.CreateResp | simple_amqp_rpc/gevent/conn.py:131-140 | one new channel with a freshly named exclusive auto-delete queue, consumed with auto-ack; its name becomes the reply-to of later calls |
| GeventRpcConn.GeventAmqpRpcConn.Configure | simple_amqp_rpc/gevent/conn.py:51-55 | the publish, listen and response channels are created in that order, so they are numbered consecutively |
| GeventRpcConn.Enumerate | simple_amqp_rpc/gevent/conn.py:113 | iterating a set visits each member exactly once |
| GeventRpcConn.DeclarePublishExchanges | simple_amqp_rpc/gevent/conn.py:113-115 | the loop logs exactly `PublishDeclares` for the iteration order and draws no ids |
| GeventRpcConn.ExchangeNamesExclude | simple_amqp_rpc/gevent/conn.py:114 | a route not yet visited has an exchange name not yet cached, so each iteration declares a new exchange |
| GeventRpcConn.DeclareRoute | simple_amqp_rpc/gevent/conn.py:114-115 | one iteration declares and caches `rpc.<route>` |
| GeventRpcConn.BuildListen | simple_amqp_rpc/gevent/conn.py:123-129 | the builder calls of the listen setup append exactly its five actions |
| GeventRpcConn.BuildResp | simple_amqp_rpc/gevent/conn.py:132-138 | the builder calls of the response setup append exactly its three actions, with a freshly drawn queue name |
| GeventRpcConn.DeclareListen | simple_amqp_rpc/gevent/conn.py:124-127 | the listen exchange and queue are both named `rpc.<route>` and declared on the listen channel |
| GeventRpcConn.ConfigureNew | simple_amqp_rpc/gevent/conn.py:51-55 | on a new connection `configure` creates exactly channels 1, 2 and 3: call channel 1 and response channel 3 |
| GeventRpcConn.CallRoundTrip | simple_amqp_rpc/gevent/conn.py:61-109 | a call published by one connection, answered by the connection listening on its route, resolves the caller's future with exactly the response the remote callback produced |
| GeventRpcConn.UnansweredCall | simple_amqp_rpc/gevent/conn.py:76-82 | a call that is never answered times out, and its pending entry stays behind |
| RpcLifecycle.PublishRequests | utils/amqp_rpc/conn.py:77-83 | one durable topic exchange declaration of `rpc.<route>` per publish route, in iteration order |
| RpcLifecycle.RpcLifecycleConn.constructor | utils/amqp_rpc/conn.py:15-31 | no connection and no channel slots, empty queue and consumer tags, not closing, no pending futures and no publish routes |
| RpcLifecycle.RpcLifecycleConn.AddPublishRoute | utils/amqp_rpc/conn.py:33-35 | always raises `AttributeError`, because it adds to an attribute that is never created |
| RpcLifecycle.RpcLifecycleConn.AddService | utils/amqp_rpc/amqp.py:25-27 | the service's method table replaces any earlier one under its name |
| RpcLifecycle.RpcLifecycleConn.Connect | utils/amqp_rpc/conn.py:41-48 | clears the closing flag and asks for a new connection |
| RpcLifecycle.RpcLifecycleConn.Reconnect | utils/amqp_rpc/conn.py:50-54 | connects again exactly when the object is not closing |
| RpcLifecycle.RpcLifecycleConn.OnConnectionOpen | utils/amqp_rpc/conn.py:133-135 | asks for the publish, listen and response channels, in that order |
| RpcLifecycle.RpcLifecycleConn.OnPublishChannelOpen | utils/amqp_rpc/conn.py:153-156 | fills the publish slot and declares `rpc.<route>` exactly once for every publish route |
| RpcLifecycle.RpcLifecycleConn.OnListenChannelOpen | utils/amqp_rpc/conn.py:158-161 | fills the listen slot and declares the listen exchange |
| RpcLifecycle.RpcLifecycleConn.OnRespChannelOpen | utils/amqp_rpc/conn.py:163-166 | fills the response slot and declares an anonymous auto-delete exclusive queue |
| RpcLifecycle.RpcLifecycleConn.OnListenExchangeDeclareOk | utils/amqp_rpc/conn.py:183-184 | declares the durable listen queue `rpc.<route>`; without a listen channel it raises |
| RpcLifecycle.RpcLifecycleConn.OnListenQueueDeclareOkAsWritten | utils/amqp_rpc/conn.py:100-108 | as written, the bind step raises `AttributeError` before anything is requested |
| RpcLifecycle.RpcLifecycleConn.OnListenQueueDeclareOk | utils/amqp_rpc/amqp.py:96-104 | corrected, binds the listen queue to the listen exchange with the variant's key (`rpc` or `rpc.call`) |
| RpcLifecycle.RpcLifecycleConn.OnListenQueueBindOk | utils/amqp_rpc/conn.py:110-115 | starts a manually acknowledged consumer on the listen queue and keeps its tag |
| RpcLifecycle.RpcLifecycleConn.OnRespQueueDeclareOk | utils/amqp_rpc/conn.py:192-194 | records the queue name the broker chose, then consumes it with auto-ack and keeps the consumer tag |
| RpcLifecycle.RpcLifecycleConn.ConsumeResp | utils/amqp_rpc/conn.py:125-131 | keeps the response consumer's tag and asks for an auto-ack exclusive consumer on the queue |
| RpcLifecycle.RpcLifecycleConn.OnPublishChannelClosed | utils/amqp_rpc/conn.py:168-171 | clears the publish slot; the connection is closed exactly when the other two slots are empty |
| RpcLifecycle.RpcLifecycleConn.OnListenChannelClosed | utils/amqp_rpc/conn.py:173-176 | clears the listen slot; the connection is closed exactly when the other two slots are empty |
| RpcLifecycle.RpcLifecycleConn.OnRespChannelClosed | utils/amqp_rpc/conn.py:178-181 | clears the response slot; the connection is closed exactly when the other two slots are empty |
| RpcLifecycle.RpcLifecycleConn.CloseChannels | utils/amqp_rpc/conn.py:61-65 | closes the publish and listen channels that are open, and never the response channel |
| RpcLifecycle.RpcLifecycleConn.OnListenCancelOk | utils/amqp_rpc/conn.py:196-199 | clears the listen tag; the channels are closed exactly when the response tag is empty too |
| RpcLifecycle.RpcLifecycleConn.OnRespCancelOk | utils/amqp_rpc/conn.py:201-204 | clears the response tag; the channels are closed exactly when the listen tag is empty too |
| RpcLifecycle.RpcLifecycleConn.StopConsuming | utils/amqp_rpc/conn.py:67-75 | cancels the listen consumer, then the response consumer; a missing channel raises at that point |
| RpcLifecycle.RpcLifecycleConn.Disconnect | utils/amqp_rpc/conn.py:37-39 | sets the closing flag, then stops consuming |
| RpcLifecycle.RpcLifecycleConn.OnConnectionClosedAsWritten | utils/amqp_rpc/conn.py:137-151 | as written: the slots, pending map, response queue and tag are reset, and every future is left waiting because gevent's `AsyncResult.cancel()` does nothing; when closing the loop stops, and otherwise it raises `AttributeError`, so no reconnect is scheduled |
| RpcLifecycle.RpcLifecycleConn.OnConnectionClosed | utils/amqp_rpc/amqp.py:133-147 | corrected: the same reset, futures left waiting, then a reconnect in 5 seconds unless closing |
| RpcLifecycle.RpcLifecycleConn.OnListenMessage | utils/amqp_rpc/conn.py:206-221 | answers through the callback and publishes the reply to the default exchange, routed by `reply_to` and correlated by the reply key; the `AmqpRpc` handler does nothing |
| RpcLifecycle.RpcLifecycleConn.OnRespMessageAsWritten | utils/amqp_rpc/conn.py:223-233 | as written: a pending entry is popped but building the response raises `TypeError`, so the future is never resolved |
| RpcLifecycle.RpcLifecycleConn.OnRespMessage | utils/amqp_rpc/conn.py:223-233 | corrected: a pending entry is popped and its future is resolved with the body and content type; unknown ids are dropped |
| RpcLifecycle.RpcLifecycleConn.RpcCall | utils/amqp_rpc/conn.py:235-255 | publishes the body with topic `rpc`, a fresh correlation id and the response queue as reply-to, then registers one waiting future under the reply key; without a publish channel it raises |
| RpcLifecycle.RpcLifecycleConn.AwaitReply | utils/amqp_rpc/conn.py:255 | a resolved future yields its response; a waiting one times out |
| RpcLifecycle.PendingAdd | utils/amqp_rpc/conn.py:249-253 | registering the reply key of a fresh id under a new future keeps every pending key pointing at an existing future |
| RpcLifecycle.CloseRequests | utils/amqp_rpc/conn.py:61-65 | one close request per open slot among publish and listen, and nothing else |
| RpcLifecycle.OpenConn | utils/amqp_rpc/conn.py:133-166 | a fresh connection whose three channels open as 1, 2 and 3 |
| RpcLifecycle.DroppedConnectionAsWritten | utils/amqp_rpc/conn.py:151 | as written, a connection lost while not closing fails and issues no request, so it is never re-established |
| RpcLifecycle.DroppedConnection | utils/amqp_rpc/conn.py:137-151 | corrected, a connection lost while not closing asks for exactly one reconnect after 5 seconds |
| RpcLifecycle.ListenSetupAsWritten | utils/amqp_rpc/conn.py:100-108 | as written, the listen queue is never bound and no consumer starts |
| RpcLifecycle.ListenSetup | utils/amqp_rpc/conn.py:100-115 | corrected, the queue `rpc.<route>` is bound to the exchange `rpc.<route>` with key `rpc`, then a consumer starts on it |
| RpcLifecycle.ReplyAsWritten | utils/amqp_rpc/conn.py:223-255 | as written, a reply to a pending call never resolves its future, so the call times out |
| RpcLifecycle.CallRoundTrip | utils/amqp_rpc/conn.py:206-255 | a call handed the exchange `rpc.<route>` is published with exactly the exchange and routing key the server's listen queue is bound with, and the server's answer resolves the caller's future with exactly the body and content type the callback produced |
| RpcLifecycle.CallOrphanedByDrop | utils/amqp_rpc/conn.py:137-144 | a call still pending when the connection drops leaves the pending map; a reply arriving afterwards is dropped, and the caller times out |
| PubSubEvents.EventFields | simple_amqp_pubsub/encoding.py:11-15 | an event is packed as a map with exactly the keys service, event and payload, holding the event's fields |
| PubSubEvents.EncodeEvent | simple_amqp_pubsub/encoding.py:10-19 | the encoded message is labelled `application/msgpack`, has no routing yet, and unpacks to the event's field map |
| PubSubEvents.DecodeEvent | simple_amqp_pubsub/encoding.py:22-28 | a decoded event carries the unpacked service, event and payload; unreadable bytes raise `ValueError`, a non-map `TypeError`, and the first missing key of service, event, payload its `KeyError`; a map with all three keys and string service and event decodes to exactly those fields |
| PubSubEvents.DecodeEncode | simple_amqp_pubsub/encoding.py:10-28 | with a codec that round-trips, decoding an encoded event gives the event back |
| PubSubEvents.DecodeExact | simple_amqp_pubsub/encoding.py:22-28 | a decoded event re-packs to exactly the unpacked map when that map has no other key |
| PubSub.PublishDeclares | simple_amqp_pubsub/base/amqp.py:67-69 | one durable topic exchange declaration per publish service, in loop order, named by the exchange pattern |
| PubSub.PublishDeclaresAppend | simple_amqp_pubsub/base/amqp.py:67-69 | one more service in the loop adds exactly its declaration at the end |
| PubSub.Binds | simple_amqp_pubsub/base/amqp.py:83-84 | one binding of the queue per event of a service, no more |
| PubSub.BindsAt | simple_amqp_pubsub/base/amqp.py:83-84 | the j-th binding binds the queue to the service's exchange with the j-th event as key |
| PubSub.BindsAppend | simple_amqp_pubsub/base/amqp.py:83-84 | one more event adds exactly its binding at the end |
| PubSub.ListenDeclaresAppend | simple_amqp_pubsub/base/amqp.py:78-84 | one more listened service adds its exchange and then its bindings at the end |
| PubSub.ListenDeclaresBinds | simple_amqp_pubsub/base/amqp.py:78-84 | the loop binds the queue to service s's exchange with key e exactly when some service of the loop is s and lists e |
| PubSub.ListsSplit | simple_amqp_pubsub/base/amqp.py:78 | "some service of the loop lists e" splits into the earlier services and the last one |
| PubSub.ServiceDeclaresBinds | simple_amqp_pubsub/base/amqp.py:79-84 | one service's actions bind to s's exchange with key e exactly when that service is s and lists e |
| PubSub.NamesExclude | simple_amqp_pubsub/base/amqp.py:79 | a service not in the loop has an exchange name no service of the loop has |
| PubSub.HandlerCalls | simple_amqp_pubsub/gevent.py:30-31 | every receive-error handler is called, in registration order, with the handler's exception |
| PubSub.Aftermath | simple_amqp_pubsub/gevent.py:24-31 | a handler that returns leaves nothing; one that raises prints a trace when there is no error handler, else calls each error handler |
| PubSub.GeventAmqpPubSub.constructor | simple_amqp_pubsub/base/amqp.py:15-26 | a new connection on the given parameters, no publish services, no channels yet, nothing published |
| PubSub.GeventAmqpPubSub.Client | simple_amqp_pubsub/base/amqp.py:41-43 | the service joins the publish set and a new empty proxy for it is returned |
| PubSub.GeventAmqpPubSub.PushEvent | simple_amqp_pubsub/base/amqp.py:45-51 | the encoded event goes out on the publish channel to its service's exchange with the event name as topic; without a publish channel it raises |
| PubSub.GeventAmqpPubSub.SendEventMsg | simple_amqp_pubsub/gevent.py:33-34 | the message is published on the publish channel, which must exist |
| PubSub.GeventAmqpPubSub.RecvEventAsWritten | simple_amqp_pubsub/gevent.py:19-20 | as written, every event raises `AttributeError` before any handler is looked up |
| PubSub.GeventAmqpPubSub.RecvEvent | simple_amqp_pubsub/gevent.py:19-31 | corrected, a missing handler is reported and nothing runs; otherwise the handler runs once with the payload and its exception goes to the error handlers, unreported |
| PubSub.GeventAmqpPubSub.OnEventMessageAsWritten | simple_amqp_pubsub/gevent.py:36-41 | as written, a message that decodes still fails |
| PubSub.GeventAmqpPubSub.OnEventMessage | simple_amqp_pubsub/gevent.py:36-41 | a decoding error propagates; otherwise the message is acknowledged exactly when a handler is registered for the event |
| PubSub.GeventAmqpPubSub.CreatePublish | simple_amqp_pubsub/base/amqp.py:65-71 | a new channel becomes the publish channel and every publish service gets exactly one exchange, in some order |
| PubSub.GeventAmqpPubSub.CreateListen | simple_amqp_pubsub/base/amqp.py:73-87 | a new channel becomes the listen channel; the loop covers every listened service and each of its events once |
| PubSub.GeventAmqpPubSub.Configure | simple_amqp_pubsub/base/amqp.py:31-33 | the publish channel is the first new channel and the listen channel the next |
| PubSub.PubSubClient.constructor | simple_amqp_pubsub/base/client.py:7-11 | a proxy for the given connection and service with an empty cache |
| PubSub.PubSubClient.GetAttribute | simple_amqp_pubsub/base/client.py:20-40 | a real attribute wins, then a cached publisher; otherwise a publisher for that name is created and cached, so later reads get the same one |
| PubSub.PubSubClient.EventFor | simple_amqp_pubsub/base/client.py:31-36 | the event a publisher sends is the proxy's service, the attribute name and the payload |
| PubSub.PubSubClient.Push | simple_amqp_pubsub/base/client.py:13-18 | the event goes out to the proxy's service's exchange with the event name as topic and decodes back to the event |
| PubSub.DeclareServiceExchanges | simple_amqp_pubsub/base/amqp.py:67-69 | the loop declares one exchange per service, each service once, and the log grows by exactly those declarations |
| PubSub.PublishNext | simple_amqp_pubsub/base/amqp.py:68-69 | one pass declares the next service's exchange and keeps the loop invariant |
| PubSub.DeclareNamed | simple_amqp_pubsub/base/amqp.py:69 | a new named exchange is declared durable topic on the channel and cached |
| PubSub.BuildListen | simple_amqp_pubsub/base/amqp.py:73-86 | the log grows by the channel, the queue, the exchanges and bindings of the loop, and the consumer |
| PubSub.ListenActionsSplit | simple_amqp_pubsub/base/amqp.py:73-86 | the listen log is the channel and queue, then the loop, then the consumer |
| PubSub.OpenListenQueue | simple_amqp_pubsub/base/amqp.py:74-77 | a new channel and the own service's durable queue on it |
| PubSub.DeclareListenServices | simple_amqp_pubsub/base/amqp.py:78-84 | the loop visits every listened service once with all its events, and the log grows by its exchanges and bindings |
| PubSub.ListenNext | simple_amqp_pubsub/base/amqp.py:79-84 | one pass declares the next service's exchange and its bindings and keeps the loop invariant |
| PubSub.EventsMatchAppend | simple_amqp_pubsub/base/amqp.py:78-84 | the events enumerated for the next service are exactly its registered events |
| PubSub.DeclareService | simple_amqp_pubsub/base/amqp.py:79-84 | one service's exchange, then one binding per event |
| PubSub.BindAll | simple_amqp_pubsub/base/amqp.py:83-84 | the inner loop adds exactly one binding per event, in order |
| PubSub.ListenActionsBindIff | simple_amqp_pubsub/base/amqp.py:73-86 | after `_create_listen` the queue is bound to service s's exchange with key e exactly when a handler is registered for (s, e) |
| PubSub.PushThenDeliver | simple_amqp_pubsub/base/amqp.py:45-51 | a pushed event delivered to a subscriber reaches its handler and is acknowledged exactly when such a handler exists |
| PubSub.PushThenDeliverAsWritten | simple_amqp_pubsub/gevent.py:20 | as written, no pushed event ever reaches a handler |
| UsersEntities.NewRole | usersvc/entities/role.py:7-11 | a new role keeps its name and permissions and is unsaved (id -1) |
| UsersEntities.NewUser | usersvc/entities/user.py:9-16 | a new user keeps every given field and is unsaved (id -1) |
| UsersEntities.Elements | usersvc/entities/user.py:23 | `list(set(...))` keeps exactly the elements of the list |
| UsersEntities.Permissions | usersvc/entities/user.py:18-23 | a user without roles has no permissions |
| UsersEntities.RolesPermissionsIff | usersvc/entities/user.py:20-22 | the collected permissions are exactly those some role of the list grants |
| UsersEntities.PermissionsIff | usersvc/entities/user.py:18-23 | a user has a permission exactly when one of their roles grants it |
| UsersEntities.EmptyRolesNoPermissions | usersvc/entities/user.py:18-23 | roles granting nothing give no permissions |
| UsersEntities.PermissionsSameRoles | usersvc/entities/user.py:18-23 | permissions depend only on which roles a user holds, not on their order or repetition |
| UsersEntities.RoleIds | usersvc/repos/mongo/adapters.py:10 | the role-id list has one entry per role, each that role's id |
| RepoStubs.KeyingsStamp | tests/use_cases/conftest.py:32-37 | stamping a user or role with an id makes that its id and keeps its name |
| RepoStubs.FirstNamed | tests/use_cases/conftest.py:22-27 | the name lookup returns a stored record with that name, and none exactly when no record has it |
| RepoStubs.FirstNamedIsFirst | tests/use_cases/conftest.py:23-25 | the lookup returns the first record with that name in iteration order |
| RepoStubs.Without | tests/use_cases/conftest.py:50 | deleting a key from the insertion order leaves exactly the other keys |
| RepoStubs.WithoutDistinct | tests/use_cases/conftest.py:50 | deleting a key keeps the remaining keys distinct |
| RepoStubs.WithoutAbsent | tests/use_cases/conftest.py:47-48 | removing a key that is not there changes nothing |
| RepoStubs.RepoStub.constructor | tests/use_cases/conftest.py:10-12 | an empty repository whose id counter starts at 0 |
| RepoStubs.RepoStub.Values | tests/use_cases/conftest.py:29-30 | the listed records are the stored ones in insertion order |
| RepoStubs.RepoStub.ValuesAreStored | tests/use_cases/conftest.py:29-30 | a record is listed exactly when it is stored under some key |
| RepoStubs.RepoStub.GetById | tests/use_cases/conftest.py:14-20 | the record stored under the id, carrying that id, or none when the id is absent |
| RepoStubs.RepoStub.ByNameIff | tests/use_cases/conftest.py:22-27 | a name is found exactly when some stored record has it, and what is found has it |
| RepoStubs.RepoStub.GetByName | tests/use_cases/conftest.py:22-27 | the loop returns the first stored record with the name, or none |
| RepoStubs.RepoStub.GetAll | tests/use_cases/conftest.py:29-30 | every stored record, in insertion order |
| RepoStubs.RepoStub.Create | tests/use_cases/conftest.py:32-37 | the record is stamped with the next id, stored under it and listed last; the id was free and the counter moves on |
| RepoStubs.RepoStub.Update | tests/use_cases/conftest.py:39-44 | succeeds exactly when the record's id is stored, and then replaces that record only |
| RepoStubs.RepoStub.Mutate | usersvc/use_cases/user.py:67-70 | an in-place edit of a stored record is what the repository then holds |
| RepoStubs.RepoStub.Delete | tests/use_cases/conftest.py:46-51 | succeeds exactly when the record's id is stored, and removes that id only |
| RepoStubs.SeedRoles | tests/use_cases/conftest.py:99-118 | three roles created in order get ids 0, 1 and 2 |
| RepoStubs.SeedUsers | tests/use_cases/conftest.py:121-146 | admin01 and user01, with roles found by name, get ids 0 and 1 |
| RepoStubs.SeededRoleLookups | tests/use_cases/conftest.py:131-141 | each seeded role is found by its own name |
| RepoStubs.SeededUsersCreated | tests/use_cases/conftest.py:144-145 | the seeded users are the two new users stamped with ids 0 and 1 |
| UserUseCases.IndexRolesLast | usersvc/use_cases/user.py:91 | the dictionary built from the roles holds a key exactly when some role has it, mapped to the last such role |
| UserUseCases.IdTableIsRepository | usersvc/use_case/user.py:90-91 | the roles indexed by id are exactly the roles repository's contents |
| UserUseCases.ResolveOk | usersvc/use_cases/user.py:92-99 | resolution succeeds exactly when every key is known, giving the known role for each key in order |
| UserUseCases.ResolveErr | usersvc/use_cases/user.py:93-96 | the first unknown key is the one reported |
| UserUseCases.ResolveRoles | usersvc/use_cases/user.py:92-99 | the loop returns the resolution of the keys |
| UserUseCases.Edited | usersvc/use_cases/user.py:67-70 | the update sets fullname and email, and the password only when one is given; username, roles and id stay |
| UserUseCases.UserUseCases.constructor | usersvc/use_cases/user.py:37-39 | the use cases hold the given repositories |
| UserUseCases.UserUseCases.GetAllUsers | usersvc/use_cases/user.py:41-42 | all stored users in insertion order |
| UserUseCases.UserUseCases.GetUserById | usersvc/use_cases/user.py:44-45 | the stored user with that id, or none |
| UserUseCases.UserUseCases.RolesFor | usersvc/use_cases/user.py:89-99 | role names (or ids) resolve against the roles repository, an unknown one giving its error message |
| UserUseCases.UserUseCases.CreateUser | usersvc/use_cases/user.py:47-60 | an unknown role gives its message and stores nothing; otherwise the new user with the resolved roles is stored under the next id and returned |
| UserUseCases.UserUseCases.UpdateUser | usersvc/use_cases/user.py:62-79 | a missing user gives none; an unknown role gives its message with the edits already made to the stored user; otherwise the edited user with the new roles is stored and returned |
| UserUseCases.UserUseCases.DeleteUser | usersvc/use_cases/user.py:81-87 | the stored user is returned and removed, and only its id leaves the repository's order, or none is returned and nothing changes when absent |
| UserUseCases.SeededNameTable | tests/use_cases/conftest.py:99-118 | the seeded roles indexed by name |
| UserUseCases.InvalidRoleMessage | tests/use_cases/test_users.py:49-58 | an unknown role name gives `invalid role: <name>` |
| UserUseCases.UpdateRejectedKeepsEdits | tests/use_cases/test_users.py:106-115 | an update with an unknown role is rejected, yet the stored user already has the new name, email and password |
| UserUseCases.SeededCases | tests/use_cases/conftest.py:99-146 | use cases over the seeded repositories |
| UserUseCases.CreateWithRoleNames | tests/use_cases/test_users.py:32-46 | creating newuser01 with two role names stores it under id 2 with exactly those roles |
| UserAuth.CreateUserTokenAsWritten | usersvc/use_cases/auth.py:18-25 | as written, building a token raises because the namespace is not passed |
| UserAuth.CreateUserToken | usersvc/use_cases/auth.py:18-25 | corrected, a version-1 token owned by the user holding exactly the user's permissions |
| UserAuth.AuthUseCases.constructor | usersvc/use_cases/auth.py:29-30 | the use cases hold the given repository |
| UserAuth.AuthUseCases.Named | usersvc/use_cases/auth.py:33 | the user found by name has that name and is stored; none means no stored user has it |
| UserAuth.AuthUseCases.UserLoginAsWritten | usersvc/use_cases/auth.py:32-40 | as written, a correct login raises and every other one gives none |
| UserAuth.AuthUseCases.UserLogin | usersvc/use_cases/auth.py:32-40 | a token is issued exactly when the user exists and the password matches, and it is owned by that user |
| UserAuth.AuthUseCases.UserHasPermission | usersvc/use_cases/auth.py:42-47 | true exactly when the user exists and one of their roles grants the permission |
| UserAuth.AuthUseCases.PermissionOf | usersvc/use_case/auth.py:29-31 | without the existence check, a missing user raises |
| UserAuth.AuthUseCases.LoginVariantsAgree | usersvc/use_case/auth.py:22-27 | the token login succeeds exactly when the boolean login answers true |
| UserAuth.AuthUseCases.PermissionVariantsAgree | usersvc/use_case/auth.py:29-31 | the two permission checks agree on stored users; on a missing one the older raises where the newer answers false |
| UserAuth.SeededAuth | tests/use_cases/conftest.py:121-146 | auth use cases over the seeded users |
| UserAuth.SeededLogin | tests/use_cases/test_auth.py:15-22 | admin01 logs in and gets a token; as written the same login raises |
| UserAuth.SeededPermissions | tests/use_cases/test_auth.py:42-66 | admin01 may edit users but not another module, and a missing user has no permission |
| MongoAdapters.UserAsBson | usersvc/repos/mongo/adapters.py:6-17 | the document holds username, email, fullname and the role ids, and the password only when it is non-empty |
| MongoAdapters.Holds | usersvc/repos/mongo/adapters.py:23 | a role id is in a list when the list holds it, never in a map's keys of strings, and testing any other value raises |
| MongoAdapters.KeptRoles | usersvc/repos/mongo/adapters.py:21-24 | the kept roles are exactly the supplied roles whose id the document lists, in supplied order |
| MongoAdapters.StrField | usersvc/repos/mongo/adapters.py:28-31 | a string field is read exactly when present and a string |
| MongoAdapters.IntField | usersvc/repos/mongo/adapters.py:27 | an integer field is read exactly when present and an integer |
| MongoAdapters.UserFields | usersvc/repos/mongo/adapters.py:26-33 | a user read from a document carries the document's id, username, email, fullname and password and the kept roles |
| MongoAdapters.UserFromBson | usersvc/repos/mongo/adapters.py:20-33 | the loop keeps the roles the document lists and builds the user from the document; `roles` is only read when there is a candidate role to test |
| MongoAdapters.KeptRolesOwnIds | usersvc/repos/mongo/adapters.py:21-24 | roles with distinct ids that are all listed are all kept, in order |
| MongoAdapters.UserBsonRoundTrip | usersvc/repos/mongo/adapters.py:6-33 | a user with a password and distinct role ids reads back as itself once the database adds its `_id` |
| MongoAdapters.StoredFields | usersvc/repos/mongo/adapters.py:6-33 | the stored scalar fields read back as the user's own |
| MongoAdapters.EmptyPasswordLost | usersvc/repos/mongo/adapters.py:14-15 | a user with an empty password is stored without one, so it does not read back |
| MongoAdapters.RoleAsBson | usersvc/repos/mongo/adapters.py:36-40 | the document holds exactly the name and the permissions |
| MongoAdapters.RoleFromBson | usersvc/repos/mongo/adapters.py:43-48 | a role read from a document carries its id, name and permissions |
| MongoAdapters.RoleBsonRoundTrip | usersvc/repos/mongo/adapters.py:36-48 | a stored role reads back as itself once the database adds its `_id` |
| HttpAdapters.UserAsJson | usersvc/http/adapters.py:4-11 | the JSON user has id, username, email, fullname and the role ids, and never the password |
| HttpAdapters.RoleNames | tests/http/test_users.py:45-48 | one name per role, in order |
| HttpAdapters.UserAsJsonNamed | tests/http/test_users.py:34-58 | corrected, the JSON user lists role names, as the listing test expects |
| HttpAdapters.RoleAsJson | usersvc/http/adapters.py:14-19 | the JSON role has exactly its id, name and permissions |
| HttpAdapters.ListedAdminRoles | tests/http/test_users.py:40-49 | as written, admin01 is listed with role ids 0 and 1 where role names are expected; corrected, with the names |
| HttpAdapters.NamedRolesResolve | usersvc/use_cases/user.py:89-99 | role names listed for a user resolve back to the user's roles |
| HttpRequest.HeaderOr | utils/http/request.py:25-28 | a header's value when present, the default otherwise |
| HttpRequest.PortWithoutColon | utils/http/request.py:29-30 | a host without `:` is on port 80 |
| HttpRequest.PortAfterColon | utils/http/request.py:29-30 | `name:port` is on that port |
| HttpRequest.EmptyPortRaises | utils/http/request.py:29-30 | a `:` with nothing after it raises |
| HttpRequest.RemoteAddrPrecedence | utils/http/request.py:31-33 | `X-Real-IP` wins over `X-Forwarded-For`, which wins over `Forwarded`, which wins over the given address |
| HttpRequest.Request.constructor | utils/http/request.py:11-35 | the fields are kept, the content type defaults to `text/plain`, authorization and host to empty, the address follows the header loop, and the JSON is not parsed yet |
| HttpRequest.Request.Json | utils/http/request.py:37-41 | parses the body once and answers the cached value afterwards; a parse error raises and caches nothing |
| HttpRequest.Request.JsonTwice | utils/http/request.py:37-41 | once parsed to a non-null value, a second read gives the same answer |
| HttpRequest.NewRequest | utils/http/request.py:28-30 | a request is built exactly when the `Host` port parses, and carries that port |
| HttpResponse.BodyBytes | utils/http/response.py:13-16 | text is encoded, bytes kept, nothing becomes no bytes |
| HttpResponse.ContentTypeOr | utils/http/response.py:12 | the given content type unless none or empty, else `text/plain` |
| HttpResponse.WithContentType | utils/http/response.py:18-22 | an existing `Content-Type` is kept, else the fallback is added, and no other header changes |
| HttpResponse.Response.constructor | utils/http/response.py:4-22 | the body bytes, the status (200 when not passed), and the caller's non-empty headers (or new ones) with a `Content-Type` |
| HttpResponse.JsonResponse | utils/http/response.py:25-33 | a new response with the dumped value as body, sharing the caller's non-empty headers, with `application/json` as the content type when none is passed |
| HttpResponse.JsonDefaults | utils/http/response.py:25-33 | a JSON response with no content type passed is `application/json` unless the headers already name one |
| HttpApi.VerbNamesDistinct | utils/http/api.py:6-28 | the six decorators record under six distinct verb names |
| HttpApi.Api.constructor | utils/http/api.py:2-4 | a registry for the url with nothing recorded |
| HttpApi.Api.Route | utils/http/api.py:6-31 | the decorator records the handler's name under its verb, replacing an earlier one, and gives the handler back |
| HttpApi.Api.GetMethods | utils/http/api.py:33-39 | every recorded verb maps to the object's attribute of the recorded name; the first missing name raises |
| HttpApi.RouteTwice | utils/http/api.py:30-31 | decorating twice for one verb leaves the second handler recorded |
| ServicePipeline.PasswordStrength | gevent_service_test.py:31-40 | strength is 0 below 3 characters, above 1 from 5 characters, 3 from 10 characters, and never above 3 |
| ServicePipeline.StrengthMonotone | gevent_service_test.py:31-40 | a longer password is never weaker |
| ServicePipeline.Prepend | gevent_service_test.py:43-53 | effects of earlier steps come before a later outcome's, which is otherwise unchanged |
| ServicePipeline.PrependTwice | gevent_service_test.py:43-53 | prepending effects in two goes equals prepending them at once |
| ServicePipeline.PipeStops | gevent_service_test.py:48-49 | once a step reports an error, the later steps do not run |
| ServicePipeline.PipeContinues | gevent_service_test.py:45-51 | without an error, running steps in two parts is running the first part and feeding its value to the second |
| ServicePipeline.Compose | gevent_service_test.py:43-53 | the loop runs the steps in order and stops at the first error |
| ServicePipeline.ValidatePasswordStrength | gevent_service_test.py:56-60 | a password stronger than 1 passes the user on unchanged; a weaker one gives error 400 and no value |
| ServicePipeline.EncryptPassword | gevent_service_test.py:63-65 | the user goes on with the password replaced by its encryption and no error |
| ServicePipeline.CreateUser | gevent_service_test.py:82-92 | one insert of the user's fields; an empty inserted id is error 402, otherwise the id goes on |
| ServicePipeline.GetUser | gevent_service_test.py:68-79 | one query by id; no document is error 404, otherwise the document's fields become the user |
| ServicePipeline.PublishCreated | gevent_service_test.py:95-97 | a `created` event carrying the user is pushed and the user goes on |
| ServicePipeline.CreateSteps | gevent_service_test.py:101-107 | the pipeline has its five steps |
| ServicePipeline.Create | gevent_service_test.py:109-114 | creating a user runs the composed pipeline |
| ServicePipeline.CreateOutcomes | gevent_service_test.py:100-116 | a weak password is refused before anything is written; a refused insert is a duplicate; an unreadable document is not found; otherwise the stored user is answered and published |
| ServicePipeline.StubScenario | gevent_service_test.py:132-187 | with the stub collection the user is created with the stored id and the encrypted password, after one insert, one query and one `created` push |
| GeventRpcConn.DeclareNext | simple_amqp_rpc/gevent/conn.py:113-115 | one pass of the publish loop declares the next route's exchange and keeps the loop invariant |
| Strings.Lower | ge_amqp/interfaces.py:19 | lower-casing keeps the length and lowers each character |
| Strings.Split | utils/http/request.py:29 | the split always has at least one part, and no part holds the separator |
| Strings.SplitNoSep | utils/http/request.py:29-30 | a string without the separator splits into itself alone |
| Strings.SplitFirst | utils/http/request.py:29-30 | splitting at a first separator gives the text before it, then the split of the rest |
| Strings.SplitJoin | utils/http/request.py:29 | joining the parts with the separator gives the string back |
| Strings.ParseInt | utils/http/request.py:30 | a digit string parses to its value; the empty string raises |
| Strings.ParseNatToString | utils/http/request.py:30 | parsing reads back every written natural number |
| Values.StrsRoundTrip | usersvc/repos/mongo/adapters.py:39 | a list of strings stored as a value reads back as the same list |

## Left out

- Broker, database and network I/O (`aio_pika`, `pika`, `pymongo`, HTTP servers) is not modelled. The broker is a scripted transport, and the database and HTTP sides are pure adapters over values.
- Sleeps, timers, `ensure_future`, event loops and gevent blocking are not modelled. A wait is a pending slot that is either resolved or times out. `start(wait=False)` runs the same processor in the background; the model runs it to completion.
- Logging and traceback printing are not modelled, apart from the `PrintedTrace` notice of pub/sub delivery.
- `uuid4` and `ulid.new` are an oracle that never repeats an id. Their text format is not modelled.
- msgpack, ujson, `json.dumps`/`loads` and `str.encode` are function parameters. Round trips are hypotheses of the lemmas that need them.
- SimpleDriver.AsyncioAmqpConnection.ActionProcessor: the `while True` retry loop runs at most `fuel` passes. A run that needs more passes ends in `OutOfFuel`.
- SimpleDriver.AsyncioAmqpConnection.Stop: states only the closing flag and, on success, that no consumer and no connection remain. The failure paths are stated by `StopConsuming`, `CloseChannels` and `CloseConnectionStep`.
- The enumeration order of Python dictionaries and sets (publish services, routes, listened services and events) is "some order that lists every element once". Insertion order is not modelled there.
- simple_amqp/actions.py and simple_amqp/data.py are not part of this model. The action and message records take the fields the builders and the driver pass.
- `nack_requeue` is accepted by `consume` and dropped, so every consumer carries the default `True`.
- simple_amqp/gevent.py is not part of this model. Hence `GeventAmqpPubSub.start`/`stop` and `_create_conn` (simple_amqp_pubsub/gevent.py:10-17) are not modelled beyond the new connection's log.
- simple_amqp_pubsub/consts.py is not part of this model. `PUBSUB_EXCHANGE` and `PUBSUB_QUEUE` are naming functions, taken to give non-empty names that are distinct for distinct services.
- simple_amqp_pubsub/base/conn.py is not part of this model. The handler table (`_listen_services`), `_recv_error_handlers` and `_get_handler` come from construction parameters.
- PubSub.PubSubClient.Push: `push` of the base class is taken to be `push_event`.
- simple_amqp_rpc/consts.py, simple_amqp_rpc/encoding.py and simple_amqp_rpc/base/conn.py beyond the registry are not part of this model. The `rpc.<name>` patterns follow their use in simple_amqp_rpc/gevent/conn.py.
- simple_amqp_rpc/rpc.py imports `CALL_ERROR` and `RPC_CALL_TIMEOUT` from a data module that does not define them, so importing it fails. The model takes the status values of ge_amqp_rpc/data.py.
- ge_amqp/base.py, ge_amqp/gevent.py, ge_amqp/data.py, ge_amqp_rpc/conn.py and ge_amqp_rpc/encoding.py are unfinished and fail on import or construction. Only the working builder interfaces of ge_amqp/interfaces.py and the statuses and registries are modelled.
- RpcLifecycle.RpcLifecycleConn.AddService: takes the method table as given. `service.svc.get_methods()` is called with no object (utils/amqp_rpc/amqp.py:26), and that call is not modelled.
- RpcLifecycle: `close_channels` never closes the response channel. This is modelled as written (utils/amqp_rpc/conn.py:61-65).
- MongoAdapters.UserFromBson: a missing or ill-typed field gives `Err(KeyError)`, where Python's `data.get` would build a `User` holding `None`.
- PubSubEvents.DecodeEvent: the `Event` record is typed, so a service or event that is not a string gives `TypeError`, where Python would build an `Event` holding the other value.
- SimpleDriver.BuilderLogFullyReplayed: assumes every consumer sits on a channel the connection created earlier. `AmqpChannel` can be constructed with any number, so the builder does not guarantee this.
- MongoAdapters.RoleFromBson: as for users, a missing or ill-typed field gives `Err(KeyError)` instead of a `Role` holding `None`.
- UsersEntities.Permissions: `list(set(...))` is modelled as a set, because the list's order is unspecified.
- RepoStubs.RepoStub.Mutate: the stubs store the caller's own objects, so the use cases' in-place edits reach the repository. This is modelled by writing the edited record back explicitly.
- The `username` field of the id-variant `UpdateUserRequest` (usersvc/use_case/user.py:20) is never read and is omitted.
- Strings.ParseInt: Python's `int()` also accepts surrounding whitespace and digit-group underscores. These are not modelled.
- HttpResponse.Response.constructor: a `status` that is not passed is `None` in the model. Passing `None` explicitly is not distinguished from not passing it.
- The MongoDB repositories (usersvc/repos/mongo/users.py, roles.py), the empty repository modules and usersvc/adapters/repositories.py are not modelled. They are database glue or fail to define valid classes.
- The HTTP frontends and the falcon backend (usersvc/http/users.py, auth.py, falcon/*, utils/http/backends), usersvc/amqp_rpc/users.py and usersvc/__main__.py are framework wiring and are not modelled.
- gevent_service_test.py: `_create` (lines 119-129) refers to names that do not exist and is never called, so it is not modelled. The `ctx` argument is unused. The stubs' recording lists are the outcome's effects.
- ServicePipeline.Compose: a step given a carried value of the wrong kind raises in the model. The composed create pipeline never produces one.
- examples/ping.py, examples/pong.py, dataclass.py, utils/struct.py and the root conftest.py are scripts or test plumbing and are not modelled.

## Findings

| source | as written | input that shows it | evidently intended | confidence | as-written member | corrected member |
|---|---|---|---|---|---|---|
| simple_amqp/asyncio.py:81-87 | `cancel_consumer` calls the coroutine `_cancel_consumer` without awaiting it, so nothing is cancelled | cancelling consumer `consumer.a` on channel 1 | the consumer is cancelled and unregistered; the corrected member also passes the channel's number, where the line hands on the channel object `real_channel` | high, not executed | SimpleDriver.CancelAsWrittenKeepsConsumer | SimpleDriver.CancelRemovesConsumer |
| utils/amqp_rpc/conn.py:151 | after an unexpected close, reconnecting goes through `self._connection`, which is never set, so it raises `AttributeError` and no reconnect is scheduled | any connection drop while not closing | a reconnect is scheduled on `self.conn` | high, not executed | RpcLifecycle.DroppedConnectionAsWritten | RpcLifecycle.DroppedConnection |
| utils/amqp_rpc/conn.py:229-232 | the reply record is built with a `body` field it does not have; the pending entry is already popped, so the caller's future is never resolved | any reply to a pending call | the future is resolved with the reply's body and content type | high, not executed | RpcLifecycle.ReplyAsWritten | RpcLifecycle.CallRoundTrip |
| utils/amqp_rpc/conn.py:107 | the listen-queue binding names the callback `on_listen_bind_ok`, which is not defined, so the listen queue is never bound and never consumed | opening any connection that listens | the binding's callback starts the listen consumer | high, not executed | RpcLifecycle.ListenSetupAsWritten | RpcLifecycle.ListenSetup |
| simple_amqp_pubsub/gevent.py:20 | `recv_event` looks the handler up by `event.topic`, which an `Event` does not have, so every delivery raises | any event pushed to a listening service | the lookup uses `event.event` | high, not executed | PubSub.PushThenDeliverAsWritten | PubSub.PushThenDeliver |
| usersvc/use_cases/auth.py:19-24 | the `Token` is built without its required `ns` field, so every correct login raises `TypeError` | login of `admin01` with `admin123` on the seeded users | a token owned by the user with the user's permissions | high, not executed | UserAuth.SeededLogin | UserAuth.AuthUseCases.UserLogin |
| usersvc/http/adapters.py:10 | the JSON user lists role ids, while the listing test expects role names | the seeded `admin01`, listed as roles `[0, 1]` | roles listed as `["users.admin", "shopping.admin"]` | medium, not executed | HttpAdapters.ListedAdminRoles | HttpAdapters.NamedRolesResolve |
