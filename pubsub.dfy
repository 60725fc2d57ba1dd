/**
 * The gevent pub/sub connection (`simple_amqp_pubsub`): a publish channel
 * with one durable topic exchange per service it publishes for, a listen
 * channel with one durable queue for its own service bound to every
 * (service, event) pair it listens to, event delivery to the registered
 * handler, and the client proxy whose attributes publish events.
 *
 * The two naming patterns (`PUBSUB_EXCHANGE`, `PUBSUB_QUEUE`) come from a
 * constants module; they are parameters here, taken to give non-empty
 * names, distinct for distinct services.
 */
module PubSub {
  import opened Wrappers
  import opened Values
  import opened AmqpData
  import opened SimpleActions
  import opened PubSubEvents
  import SimpleTopology
  import GeventRpcConn
  import Ids

  const ExchangeKind := "topic"
  /** The callback name the listen consumer is bound to. */
  const EventCallback := "_on_event_message"

  /** What calling an event handler does: it returns, or raises the named exception. */
  datatype Outcome = Completed | Raised(exc: string)

  type Handler = Value -> Outcome

  /** The error `_get_handler` reports for a (service, event) pair nobody listens to. */
  datatype RecvError = HandlerNotFound(service: string, event: string)

  /** What happens to a handler's exception: an error handler sees it, or a trace is printed. */
  datatype Notice = ErrorHandlerCalled(handler: string, exc: string) | PrintedTrace(exc: string)

  /** A message sent on a channel. */
  datatype Published = Published(channel: int, msg: AmqpMsg)

  /** A naming pattern that never gives the empty name (which would be anonymous). */
  ghost predicate NonEmptyNames(f: string -> string) {
    forall s :: f(s) != ""
  }

  /** A naming pattern that gives distinct services distinct names. */
  ghost predicate Injective(f: string -> string) {
    forall a, b :: f(a) == f(b) ==> a == b
  }

  /** The `DeclareExchange` actions of `_create_publish`, one per service, in iteration order. */
  function PublishDeclares(number: int, name: string -> string, services: seq<string>): (r: seq<Action>)
    ensures |r| == |services|
    ensures forall i | 0 <= i < |r| ::
              r[i] == DeclareExchange(number, name(services[i]), ExchangeKind, true, false, false, map[])
  {
    if services == [] then []
    else PublishDeclares(number, name, services[..|services| - 1])
         + [DeclareExchange(number, name(services[|services| - 1]), ExchangeKind, true, false, false, map[])]
  }

  lemma PublishDeclaresAppend(number: int, name: string -> string, services: seq<string>, s: string)
    ensures PublishDeclares(number, name, services + [s])
            == PublishDeclares(number, name, services)
               + [DeclareExchange(number, name(s), ExchangeKind, true, false, false, map[])]
  {
    assert (services + [s])[..|services|] == services;
  }

  /** The bindings of the listen queue to one exchange, one per event, in iteration order. */
  function Binds(number: int, queue: string, exchange: string, events: seq<string>): (r: seq<Action>)
    ensures |r| == |events|
  {
    if events == [] then []
    else Binds(number, queue, exchange, events[..|events| - 1])
         + [BindQueue(number, queue, exchange, events[|events| - 1], map[])]
  }

  /** The `j`-th binding is for the `j`-th event. */
  lemma {:induction false} BindsAt(number: int, queue: string, exchange: string, events: seq<string>)
    ensures forall j | 0 <= j < |events| ::
              Binds(number, queue, exchange, events)[j] == BindQueue(number, queue, exchange, events[j], map[])
  {
    if events != [] {
      var k := |events| - 1;
      BindsAt(number, queue, exchange, events[..k]);
    }
  }

  lemma BindsAppend(number: int, queue: string, exchange: string, events: seq<string>, e: string)
    ensures Binds(number, queue, exchange, events + [e])
            == Binds(number, queue, exchange, events) + [BindQueue(number, queue, exchange, e, map[])]
  {
    assert (events + [e])[..|events|] == events;
  }

  /** The actions for one listened service: its exchange, then the bindings for its events. */
  function ServiceDeclares(number: int, queue: string, exchange: string, events: seq<string>): seq<Action> {
    [DeclareExchange(number, exchange, ExchangeKind, true, false, false, map[])]
    + Binds(number, queue, exchange, events)
  }

  /** The actions of the `_create_listen` loop, service by service. */
  function ListenDeclares(number: int, queue: string, name: string -> string, services: seq<string>,
                          events: seq<seq<string>>): seq<Action>
    requires |events| == |services|
  {
    if services == [] then []
    else ListenDeclares(number, queue, name, services[..|services| - 1], events[..|events| - 1])
         + ServiceDeclares(number, queue, name(services[|services| - 1]), events[|events| - 1])
  }

  lemma ListenDeclaresAppend(number: int, queue: string, name: string -> string, services: seq<string>,
                             events: seq<seq<string>>, s: string, e: seq<string>)
    requires |events| == |services|
    ensures ListenDeclares(number, queue, name, services + [s], events + [e])
            == ListenDeclares(number, queue, name, services, events)
               + ServiceDeclares(number, queue, name(s), e)
  {
    assert (services + [s])[..|services|] == services;
    assert (events + [e])[..|events|] == events;
  }

  /**
   * The listen actions bind the queue to exchange `name(s)` with key `e`
   * exactly when `e` is one of the events listed for a service `s` of the
   * loop (for a naming pattern that tells services apart).
   */
  lemma {:induction false} ListenDeclaresBinds(number: int, queue: string, name: string -> string,
                                               services: seq<string>, events: seq<seq<string>>,
                                               s: string, e: string)
    requires |events| == |services| && Injective(name)
    ensures BindQueue(number, queue, name(s), e, map[]) in ListenDeclares(number, queue, name, services, events)
            <==> Lists(services, events, s, e)
  {
    if services != [] {
      var k := |services| - 1;
      var b := BindQueue(number, queue, name(s), e, map[]);
      var prefix := ListenDeclares(number, queue, name, services[..k], events[..k]);
      var last := ServiceDeclares(number, queue, name(services[k]), events[k]);
      assert b in prefix + last <==> b in prefix || b in last;
      ListenDeclaresBinds(number, queue, name, services[..k], events[..k], s, e);
      ServiceDeclaresBinds(number, queue, name, services[k], events[k], s, e);
      ListsSplit(services, events, s, e);
    }
  }

  /** Some service `s` of the loop lists event `e`. */
  predicate Lists(services: seq<string>, events: seq<seq<string>>, s: string, e: string)
    requires |events| == |services|
  {
    exists i | 0 <= i < |services| :: services[i] == s && e in events[i]
  }

  lemma ListsSplit(services: seq<string>, events: seq<seq<string>>, s: string, e: string)
    requires |events| == |services| && services != []
    ensures var k := |services| - 1;
            Lists(services, events, s, e)
            <==> Lists(services[..k], events[..k], s, e) || (services[k] == s && e in events[k])
  {
    var k := |services| - 1;
    if Lists(services, events, s, e) {
      var i :| 0 <= i < |services| && services[i] == s && e in events[i];
      if i < k {
        assert services[..k][i] == s && events[..k][i] == events[i];
      }
    }
    if Lists(services[..k], events[..k], s, e) {
      var i :| 0 <= i < k && services[..k][i] == s && e in events[..k][i];
      assert services[i] == s && e in events[i];
    }
  }

  /** One service's actions bind the queue to `name(s)` with key `e` exactly when it is `s` and lists `e`. */
  lemma ServiceDeclaresBinds(number: int, queue: string, name: string -> string, service: string,
                             events: seq<string>, s: string, e: string)
    requires Injective(name)
    ensures BindQueue(number, queue, name(s), e, map[]) in ServiceDeclares(number, queue, name(service), events)
            <==> service == s && e in events
  {
    var b := BindQueue(number, queue, name(s), e, map[]);
    var actions := ServiceDeclares(number, queue, name(service), events);
    BindsAt(number, queue, name(service), events);
    if b in actions {
      var j :| 0 <= j < |actions| && actions[j] == b;
      assert j > 0;
      assert name(service) == name(s);
    }
    if service == s && e in events {
      var j :| 0 <= j < |events| && events[j] == e;
      assert actions[j + 1] == b;
    }
  }

  /** The whole `_create_listen` sequence on channel `number`. */
  function ListenActions(number: int, queue: string, name: string -> string, services: seq<string>,
                         events: seq<seq<string>>, tag: string): seq<Action>
    requires |events| == |services|
  {
    [CreateChannel(number), DeclareQueue(number, queue, true, false, false, map[])]
    + ListenDeclares(number, queue, name, services, events)
    + [BindConsumer(number, queue, tag, EventCallback, false, false, map[], NackRequeueDefault)]
  }

  /** The exchange names of a sequence of services. */
  function NamesOf(name: string -> string, services: seq<string>): set<string> {
    if services == [] then {}
    else NamesOf(name, services[..|services| - 1]) + {name(services[|services| - 1])}
  }

  /** A service outside the sequence has its exchange name outside the sequence's names. */
  lemma {:induction false} NamesExclude(name: string -> string, services: seq<string>, s: string)
    requires Injective(name) && s !in services
    ensures name(s) !in NamesOf(name, services)
  {
    if services != [] {
      var k := |services| - 1;
      assert services[k] != s;
      assert services[..k] <= services;
      NamesExclude(name, services[..k], s);
    }
  }

  /** The exceptions notices for `recv_event`'s error handlers, called one after the other. */
  function HandlerCalls(handlers: seq<string>, exc: string): (r: seq<Notice>)
    ensures |r| == |handlers|
    ensures forall i | 0 <= i < |r| :: r[i] == ErrorHandlerCalled(handlers[i], exc)
  {
    if handlers == [] then []
    else HandlerCalls(handlers[..|handlers| - 1], exc) + [ErrorHandlerCalled(handlers[|handlers| - 1], exc)]
  }

  /** What a handler's outcome leaves behind: nothing, a printed trace, or one call per error handler. */
  function Aftermath(handlers: seq<string>, outcome: Outcome): (r: seq<Notice>)
    ensures outcome.Completed? ==> r == []
    ensures outcome.Raised? && handlers == [] ==> r == [PrintedTrace(outcome.exc)]
    ensures outcome.Raised? && handlers != [] ==> r == HandlerCalls(handlers, outcome.exc)
  {
    match outcome
    case Completed => []
    case Raised(exc) => if handlers == [] then [PrintedTrace(exc)] else HandlerCalls(handlers, exc)
  }

  class GeventAmqpPubSub {
    const service: string
    const conn: SimpleTopology.AmqpConnection
    const ids: Ids.IdSource
    const packer: Packer
    /** `PUBSUB_EXCHANGE` as a function of the service. */
    const exchangeName: string -> string
    /** `PUBSUB_QUEUE` formatted with this connection's own service. */
    const listenQueue: string
    var publishServices: set<string>
    /** The handlers registered through the base class, by service and then by event. */
    var listenServices: map<string, map<string, Handler>>
    /** The registered receive-error handlers, by name, in registration order. */
    var recvErrorHandlers: seq<string>
    var publishChannel: Option<int>
    var listenChannel: Option<int>
    var published: seq<Published>
    /** The events whose handler was invoked, in order. */
    var invoked: seq<Event>
    var notices: seq<Notice>

    ghost predicate Valid()
      reads this, conn, ids
    {
      conn.Valid() && ids.Valid() && NonEmptyNames(exchangeName) && Injective(exchangeName)
      && listenQueue != ""
    }

    constructor (params: AmqpParameters, service: string, packer: Packer, exchangeName: string -> string,
                 queueName: string -> string, listenServices: map<string, map<string, Handler>>,
                 recvErrorHandlers: seq<string>, ids: Ids.IdSource)
      requires ids.Valid() && NonEmptyNames(exchangeName) && Injective(exchangeName)
      requires queueName(service) != ""
      ensures Valid() && fresh(conn)
      ensures this.service == service && this.packer == packer && this.exchangeName == exchangeName
      ensures listenQueue == queueName(service) && this.ids == ids
      ensures this.listenServices == listenServices && this.recvErrorHandlers == recvErrorHandlers
      ensures conn.actions == [CreateConnection(params.host, params.port, params.username, params.password,
                                                params.vhost)]
      ensures conn.channelNumber == 1
      ensures publishServices == {} && publishChannel == None && listenChannel == None
      ensures published == [] && invoked == [] && notices == []
    {
      this.service := service;
      this.packer := packer;
      this.exchangeName := exchangeName;
      this.listenQueue := queueName(service);
      this.ids := ids;
      this.listenServices := listenServices;
      this.recvErrorHandlers := recvErrorHandlers;
      conn := new SimpleTopology.AmqpConnection(params);
      publishServices := {};
      publishChannel := None;
      listenChannel := None;
      published := [];
      invoked := [];
      notices := [];
    }

    /** `client`: the service joins the publish set (once), and a new proxy for it is returned. */
    method Client(svc: string) returns (c: PubSubClient)
      modifies this`publishServices
      ensures publishServices == old(publishServices) + {svc}
      ensures fresh(c) && c.Valid() && c.pubsub == this && c.service == svc && c.eventsCache == map[]
    {
      publishServices := publishServices + {svc};
      c := new PubSubClient(this, svc);
    }

    /**
     * `push_event`: the encoded event, routed to the exchange of the event's
     * service with the event name as topic, sent on the publish channel.
     */
    method PushEvent(e: Event) returns (r: Result<(), PyError>)
      modifies this`published
      ensures publishChannel.None? ==> r == Err(AttributeError("publish")) && published == old(published)
      ensures publishChannel.Some? ==>
                r == Ok(()) && |published| == |old(published)| + 1
                && published[..|old(published)|] == old(published)
                && published[|old(published)|].channel == publishChannel.value
      ensures publishChannel.Some? ==>
                var m := published[|old(published)|].msg;
                m.exchange == exchangeName(e.service) && m.topic == e.event
                && m.contentType == ContentTypeMsgpack
                && m == EncodeEvent(packer, e).(exchange := exchangeName(e.service), topic := e.event)
                && (RoundTrips(packer) ==> DecodeEvent(packer, m) == Ok(e))
    {
      var msg := EncodeEvent(packer, e);
      msg := msg.(exchange := exchangeName(e.service), topic := e.event);
      if RoundTrips(packer) {
        DecodeEncode(packer, e);
      }
      r := SendEventMsg(msg);
    }

    /** `_send_event_msg`: publishes on the publish channel, which must exist. */
    method SendEventMsg(msg: AmqpMsg) returns (r: Result<(), PyError>)
      modifies this`published
      ensures publishChannel.None? ==> r == Err(AttributeError("publish")) && published == old(published)
      ensures publishChannel.Some? ==>
                r == Ok(()) && published == old(published) + [Published(publishChannel.value, msg)]
    {
      if publishChannel.None? {
        return Err(AttributeError("publish"));
      }
      published := published + [Published(publishChannel.value, msg)];
      r := Ok(());
    }

    /** Whether a handler is registered for the event's service and name. */
    predicate Listens(e: Event)
      reads this
    {
      e.service in listenServices && e.event in listenServices[e.service]
    }

    /**
     * `recv_event` as written: the handler lookup reads an attribute the
     * event does not have, so every call raises `AttributeError` before any
     * handler is looked up or called.
     */
    method RecvEventAsWritten(e: Event) returns (r: Result<Option<RecvError>, PyError>)
      ensures r == Err(AttributeError("topic"))
    {
      r := Err(AttributeError("topic"));
    }

    /**
     * `recv_event` with the lookup keyed by the event's name: a missing
     * handler is reported and nothing is called; otherwise the handler is
     * called with the payload, and an exception it raises goes to every
     * error handler in turn (or is printed when there is none) and is not
     * reported.
     */
    method RecvEvent(e: Event) returns (r: Option<RecvError>)
      modifies this`invoked, this`notices
      ensures !Listens(e) ==>
                r == Some(HandlerNotFound(e.service, e.event))
                && invoked == old(invoked) && notices == old(notices)
      ensures Listens(e) ==>
                r == None && invoked == old(invoked) + [e]
                && notices == old(notices)
                   + Aftermath(recvErrorHandlers, listenServices[e.service][e.event](e.payload))
    {
      if !Listens(e) {
        return Some(HandlerNotFound(e.service, e.event));
      }
      var handler := listenServices[e.service][e.event];
      invoked := invoked + [e];
      var outcome := handler(e.payload);
      if outcome.Completed? {
        return None;
      }
      if recvErrorHandlers == [] {
        notices := notices + [PrintedTrace(outcome.exc)];
        return None;
      }
      var i := 0;
      while i < |recvErrorHandlers|
        invariant 0 <= i <= |recvErrorHandlers|
        invariant notices == old(notices) + HandlerCalls(recvErrorHandlers[..i], outcome.exc)
        invariant invoked == old(invoked) + [e]
      {
        assert recvErrorHandlers[..i + 1][..i] == recvErrorHandlers[..i];
        notices := notices + [ErrorHandlerCalled(recvErrorHandlers[i], outcome.exc)];
        i := i + 1;
      }
      assert recvErrorHandlers[..i] == recvErrorHandlers;
      r := None;
    }

    /** `_on_event_message` as written: a message that decodes still fails in `recv_event`. */
    method OnEventMessageAsWritten(msg: AmqpMsg) returns (r: Result<bool, PyError>)
      ensures DecodeEvent(packer, msg).Err? ==> r == Err(DecodeEvent(packer, msg).error)
      ensures DecodeEvent(packer, msg).Ok? ==> r == Err(AttributeError("topic"))
    {
      var decoded := DecodeEvent(packer, msg);
      if decoded.Err? {
        return Err(decoded.error);
      }
      var resp := RecvEventAsWritten(decoded.value);
      r := Err(resp.error);
    }

    /**
     * `_on_event_message`: decodes the event and hands it to `recv_event`;
     * the message is acknowledged exactly when a handler was found, whether
     * or not the handler raised.
     */
    method OnEventMessage(msg: AmqpMsg) returns (r: Result<bool, PyError>)
      modifies this`invoked, this`notices
      ensures DecodeEvent(packer, msg).Err? ==>
                r == Err(DecodeEvent(packer, msg).error)
                && invoked == old(invoked) && notices == old(notices)
      ensures DecodeEvent(packer, msg).Ok? ==>
                var e := DecodeEvent(packer, msg).value;
                r == Ok(Listens(e))
                && invoked == old(invoked) + (if Listens(e) then [e] else [])
                && notices == old(notices)
                   + (if Listens(e) then Aftermath(recvErrorHandlers, listenServices[e.service][e.event](e.payload))
                      else [])
    {
      var decoded := DecodeEvent(packer, msg);
      if decoded.Err? {
        return Err(decoded.error);
      }
      var resp := RecvEvent(decoded.value);
      r := Ok(resp.None?);
    }

    /**
     * `_create_publish`: one new channel on which every publish service gets
     * exactly one durable topic exchange, in some order.
     */
    method CreatePublish() returns (ghost order: seq<string>)
      requires Valid()
      modifies this`publishChannel, conn, ids
      ensures Valid()
      ensures publishChannel == Some(old(conn.channelNumber))
      ensures conn.channelNumber == old(conn.channelNumber) + 1 && ids.issued == old(ids.issued)
      ensures forall s :: s in order <==> s in publishServices
      ensures forall i, j | 0 <= i < j < |order| :: order[i] != order[j]
      ensures conn.actions == old(conn.actions) + [CreateChannel(old(conn.channelNumber))]
                              + PublishDeclares(old(conn.channelNumber), exchangeName, order)
    {
      var ch := conn.Channel();
      order := DeclareServiceExchanges(ch, exchangeName, publishServices, ids);
      publishChannel := Some(ch.number);
    }

    /**
     * `_create_listen`: a new channel with the durable queue of the own
     * service, one durable topic exchange per listened service, a binding
     * of the queue per listened event, and one manually acknowledged
     * consumer on the queue.
     */
    method CreateListen() returns (ghost services: seq<string>, ghost events: seq<seq<string>>,
                                   ghost tag: string)
      requires Valid()
      modifies this`listenChannel, conn, ids
      ensures Valid()
      ensures listenChannel == Some(old(conn.channelNumber))
      ensures conn.channelNumber == old(conn.channelNumber) + 1
      ensures Listened(listenServices, services, events)
      ensures conn.actions == old(conn.actions)
                + ListenActions(old(conn.channelNumber), listenQueue, exchangeName, services, events, tag)
    {
      var number;
      number, services, events, tag := BuildListen(conn, ids, exchangeName, listenQueue, listenServices);
      listenChannel := Some(number);
    }

    /** `configure`: the publish channel, then the listen channel. */
    method Configure() returns (ghost order: seq<string>, ghost services: seq<string>,
                                ghost events: seq<seq<string>>, ghost tag: string)
      requires Valid()
      modifies this`publishChannel, this`listenChannel, conn, ids
      ensures Valid()
      ensures publishChannel == Some(old(conn.channelNumber))
      ensures listenChannel == Some(old(conn.channelNumber) + 1)
      ensures forall s :: s in order <==> s in publishServices
      ensures Listened(listenServices, services, events)
      ensures conn.actions == old(conn.actions)
                + [CreateChannel(old(conn.channelNumber))]
                + PublishDeclares(old(conn.channelNumber), exchangeName, order)
                + ListenActions(old(conn.channelNumber) + 1, listenQueue, exchangeName, services, events, tag)
    {
      order := CreatePublish();
      services, events, tag := CreateListen();
    }
  }

  /** The synthesised publisher for one event name. */
  datatype Publisher = Publisher(eventName: string)

  /** What an attribute read on a pub/sub proxy yields. */
  datatype Attribute = Real(name: string) | Synthesised(publisher: Publisher)

  /**
   * The names `object.__getattribute__` resolves on a pub/sub proxy: the
   * three attributes `PubSubClient.__init__` sets and the methods the class
   * defines. Names every Python object inherits (`__class__`, `__dict__`,
   * ...) are not listed.
   */
  const RealAttributes := {"pubsub", "service", "events_cache", "push", "__init__", "__getattribute__"}

  class PubSubClient {
    const pubsub: GeventAmqpPubSub
    const service: string
    var eventsCache: map<string, Publisher>

    /** The cache holds, under each name, the publisher for that name, and never shadows a real attribute. */
    ghost predicate Valid()
      reads this
    {
      forall n | n in eventsCache :: eventsCache[n] == Publisher(n) && n !in RealAttributes
    }

    constructor (pubsub: GeventAmqpPubSub, service: string)
      ensures Valid() && this.pubsub == pubsub && this.service == service && eventsCache == map[]
    {
      this.pubsub := pubsub;
      this.service := service;
      eventsCache := map[];
    }

    /**
     * `__getattribute__`: a real attribute first, then a cached publisher,
     * and otherwise a new publisher that is cached before it is returned.
     */
    method GetAttribute(name: string) returns (a: Attribute)
      requires Valid()
      modifies this
      ensures Valid()
      ensures name in RealAttributes ==> a == Real(name) && eventsCache == old(eventsCache)
      ensures name !in RealAttributes && name in old(eventsCache) ==>
                a == Synthesised(old(eventsCache)[name]) && eventsCache == old(eventsCache)
      ensures name !in RealAttributes && name !in old(eventsCache) ==>
                a == Synthesised(Publisher(name)) && eventsCache == old(eventsCache)[name := Publisher(name)]
      ensures a.Synthesised? ==> a.publisher.eventName == name
    {
      if name in RealAttributes {
        return Real(name);
      }
      if name in eventsCache {
        return Synthesised(eventsCache[name]);
      }
      var p := Publisher(name);
      eventsCache := eventsCache[name := p];
      a := Synthesised(p);
    }

    /** The event a publisher (or `push`) hands over: this proxy's service, the event name, the payload. */
    function EventFor(eventName: string, payload: Value): (e: Event)
      ensures e.service == service && e.event == eventName && e.payload == payload
    {
      Event(service, eventName, payload)
    }

    /** `push(event, payload)`, and equally a call of the publisher for `event`. */
    method Push(eventName: string, payload: Value) returns (r: Result<(), PyError>)
      modifies pubsub`published
      ensures pubsub.publishChannel.None? ==>
                r == Err(AttributeError("publish")) && pubsub.published == old(pubsub.published)
      ensures pubsub.publishChannel.Some? ==>
                r == Ok(()) && |pubsub.published| == |old(pubsub.published)| + 1
                && pubsub.published[..|old(pubsub.published)|] == old(pubsub.published)
                && (var m := pubsub.published[|old(pubsub.published)|].msg;
                    m.exchange == pubsub.exchangeName(service) && m.topic == eventName
                    && (RoundTrips(pubsub.packer) ==>
                          DecodeEvent(pubsub.packer, m) == Ok(Event(service, eventName, payload))))
    {
      r := pubsub.PushEvent(EventFor(eventName, payload));
    }
  }

  /** The loop of `_create_publish`: one `DeclareExchange` per service on a fresh channel. */
  method DeclareServiceExchanges(ch: SimpleTopology.AmqpChannel, name: string -> string,
                                 services: set<string>, ids: Ids.IdSource) returns (order: seq<string>)
    requires ch.Valid() && ch.conn.Valid() && ids.Valid() && ch.exchangeCache == map[]
    requires NonEmptyNames(name) && Injective(name)
    modifies ch, ch.conn, ids
    ensures ch.conn.Valid() && ids.Valid()
    ensures ch.conn.channelNumber == old(ch.conn.channelNumber) && ids.issued == old(ids.issued)
    ensures forall s :: s in order <==> s in services
    ensures forall i, j | 0 <= i < j < |order| :: order[i] != order[j]
    ensures ch.conn.actions == old(ch.conn.actions) + PublishDeclares(ch.number, name, order)
  {
    order := GeventRpcConn.Enumerate(services);
    var i := 0;
    while i < |order|
      invariant 0 <= i <= |order|
      invariant PublishLoop(ch, ids, name, order, i, old(ch.conn.actions), old(ch.conn.channelNumber),
                            old(ids.issued))
    {
      PublishNext(ch, ids, name, order, i, old(ch.conn.actions), old(ch.conn.channelNumber), old(ids.issued));
      i := i + 1;
    }
    assert order[..i] == order;
  }

  /** The state of `_create_publish` after declaring the first `i` services of `order`. */
  ghost predicate PublishLoop(ch: SimpleTopology.AmqpChannel, ids: Ids.IdSource, name: string -> string,
                              order: seq<string>, i: nat, actions0: seq<Action>, number0: int,
                              issued0: set<string>)
    reads ch, ch.conn, ids
  {
    i <= |order|
    && ch.Valid() && ch.conn.Valid() && ids.Valid()
    && ch.conn.channelNumber == number0 && ids.issued == issued0
    && ch.exchangeCache.Keys == NamesOf(name, order[..i])
    && ch.conn.actions == actions0 + PublishDeclares(ch.number, name, order[..i])
  }

  /** One pass of the `_create_publish` loop. */
  method PublishNext(ch: SimpleTopology.AmqpChannel, ids: Ids.IdSource, name: string -> string,
                     order: seq<string>, i: nat, ghost actions0: seq<Action>, ghost number0: int,
                     ghost issued0: set<string>)
    requires i < |order| && forall a, b | 0 <= a < b < |order| :: order[a] != order[b]
    requires NonEmptyNames(name) && Injective(name)
    requires PublishLoop(ch, ids, name, order, i, actions0, number0, issued0)
    modifies ch, ch.conn, ids
    ensures PublishLoop(ch, ids, name, order, i + 1, actions0, number0, issued0)
  {
    assert order[..i + 1] == order[..i] + [order[i]];
    NamesExclude(name, order[..i], order[i]);
    var e := DeclareNamed(ch, name(order[i]), ids);
    PublishDeclaresAppend(ch.number, name, order[..i], order[i]);
  }

  /** Declares a named durable topic exchange the channel has not cached yet. */
  method DeclareNamed(ch: SimpleTopology.AmqpChannel, exchange: string, ids: Ids.IdSource)
    returns (e: SimpleTopology.AmqpExchange)
    requires ch.Valid() && ch.conn.Valid() && ids.Valid()
    requires exchange != "" && exchange !in ch.exchangeCache
    modifies ch, ch.conn, ids
    ensures ch.Valid() && ch.conn.Valid() && ids.Valid()
    ensures ch.conn.channelNumber == old(ch.conn.channelNumber) && ids.issued == old(ids.issued)
    ensures ch.exchangeCache.Keys == old(ch.exchangeCache.Keys) + {exchange}
    ensures ch.queueCache == old(ch.queueCache)
    ensures e.name == exchange
    ensures ch.conn.actions == old(ch.conn.actions)
              + [DeclareExchange(ch.number, exchange, ExchangeKind, true, false, false, map[])]
  {
    e := ch.Exchange(exchange, ExchangeKind, true, false, false, map[], ids);
  }

  /** The builder calls of `_create_listen`: the channel number, the loop orders, and the consumer tag. */
  method BuildListen(conn: SimpleTopology.AmqpConnection, ids: Ids.IdSource, name: string -> string,
                     queueName: string, table: map<string, map<string, Handler>>)
    returns (number: int, services: seq<string>, events: seq<seq<string>>, ghost tag: string)
    requires conn.Valid() && ids.Valid() && NonEmptyNames(name) && Injective(name) && queueName != ""
    modifies conn, ids
    ensures conn.Valid() && ids.Valid()
    ensures number == old(conn.channelNumber) && conn.channelNumber == number + 1
    ensures Listened(table, services, events)
    ensures conn.actions == old(conn.actions) + ListenActions(number, queueName, name, services, events, tag)
  {
    ghost var before := conn.actions;
    var ch, queue := OpenListenQueue(conn, ids, queueName);
    number := ch.number;
    ghost var queued := conn.actions;
    services, events := DeclareListenServices(ch, queue, name, table, ids);
    ghost var declared := conn.actions;
    var consumer := queue.Consume(EventCallback, false, false, true, map[], ids);
    tag := consumer.tag;
    ListenActionsSplit(before, number, queueName, name, services, events, tag);
  }

  /** The log after `_create_listen`, piece by piece. */
  lemma ListenActionsSplit(before: seq<Action>, number: int, queue: string, name: string -> string,
                           services: seq<string>, events: seq<seq<string>>, tag: string)
    requires |events| == |services|
    ensures before + ListenActions(number, queue, name, services, events, tag)
            == before + [CreateChannel(number), DeclareQueue(number, queue, true, false, false, map[])]
               + ListenDeclares(number, queue, name, services, events)
               + [BindConsumer(number, queue, tag, EventCallback, false, false, map[], NackRequeueDefault)]
  {
  }

  /** The first builder calls of `_create_listen`: a new channel and the durable listen queue on it. */
  method OpenListenQueue(conn: SimpleTopology.AmqpConnection, ids: Ids.IdSource, queueName: string)
    returns (ch: SimpleTopology.AmqpChannel, queue: SimpleTopology.AmqpQueue)
    requires conn.Valid() && ids.Valid() && queueName != ""
    modifies conn, ids
    ensures fresh(ch) && ch.Valid() && ch.exchangeCache == map[] && ch.conn == conn
    ensures queue.conn == conn && queue.channel == ch && queue.name == queueName
    ensures conn.Valid() && ids.Valid() && ids.issued == old(ids.issued)
    ensures ch.number == old(conn.channelNumber) && conn.channelNumber == ch.number + 1
    ensures conn.actions == old(conn.actions)
              + [CreateChannel(ch.number), DeclareQueue(ch.number, queueName, true, false, false, map[])]
  {
    ch := conn.Channel();
    queue := ch.Queue(queueName, true, false, false, map[], ids);
  }

  /** The loop of `_create_listen` over the listened services. */
  method DeclareListenServices(ch: SimpleTopology.AmqpChannel, queue: SimpleTopology.AmqpQueue,
                               name: string -> string, table: map<string, map<string, Handler>>,
                               ids: Ids.IdSource) returns (services: seq<string>, events: seq<seq<string>>)
    requires ch.Valid() && ch.conn.Valid() && ids.Valid() && ch.exchangeCache == map[]
    requires queue.conn == ch.conn && queue.channel == ch
    requires NonEmptyNames(name) && Injective(name)
    modifies ch, ch.conn, ids
    ensures ch.conn.Valid() && ids.Valid()
    ensures ch.conn.channelNumber == old(ch.conn.channelNumber) && ids.issued == old(ids.issued)
    ensures Listened(table, services, events)
    ensures ch.conn.actions == old(ch.conn.actions) + ListenDeclares(ch.number, queue.name, name, services, events)
  {
    services := GeventRpcConn.Enumerate(table.Keys);
    events := [];
    var i := 0;
    while i < |services|
      invariant 0 <= i <= |services|
      invariant ListenLoop(ch, queue, ids, name, services, events, i, old(ch.conn.actions),
                           old(ch.conn.channelNumber), old(ids.issued))
      invariant EventsMatch(table, services, events)
    {
      var order := GeventRpcConn.Enumerate(table[services[i]].Keys);
      NamesExclude(name, services[..i], services[i]);
      ListenNext(ch, queue, ids, name, services, events, order, i, old(ch.conn.actions),
                 old(ch.conn.channelNumber), old(ids.issued));
      EventsMatchAppend(table, services, events, order);
      events := events + [order];
      i := i + 1;
    }
    assert services[..i] == services;
  }

  /** The first `|events|` services of the loop each got exactly the events registered for them. */
  ghost predicate EventsMatch(table: map<string, map<string, Handler>>, services: seq<string>,
                              events: seq<seq<string>>)
  {
    |events| <= |services|
    && forall j | 0 <= j < |events| :: services[j] in table && forall e :: e in events[j] <==> e in table[services[j]]
  }

  /**
   * `services` lists every listened service once, and `events[i]` lists
   * every event registered for `services[i]`.
   */
  ghost predicate Listened(table: map<string, map<string, Handler>>, services: seq<string>,
                           events: seq<seq<string>>)
  {
    (forall s :: s in services <==> s in table)
    && |events| == |services| && EventsMatch(table, services, events)
  }

  /** The state of `_create_listen` after the first `i` services of `services`. */
  ghost predicate ListenLoop(ch: SimpleTopology.AmqpChannel, queue: SimpleTopology.AmqpQueue, ids: Ids.IdSource,
                             name: string -> string, services: seq<string>, events: seq<seq<string>>, i: nat,
                             actions0: seq<Action>, number0: int, issued0: set<string>)
    reads ch, ch.conn, ids
  {
    i <= |services| && |events| == i
    && ch.Valid() && ch.conn.Valid() && ids.Valid()
    && queue.conn == ch.conn && queue.channel == ch
    && ch.conn.channelNumber == number0 && ids.issued == issued0
    && ch.exchangeCache.Keys == NamesOf(name, services[..i])
    && ch.conn.actions == actions0 + ListenDeclares(ch.number, queue.name, name, services[..i], events)
  }

  /** One pass of the `_create_listen` loop: the service's exchange, then its bindings. */
  method ListenNext(ch: SimpleTopology.AmqpChannel, queue: SimpleTopology.AmqpQueue, ids: Ids.IdSource,
                    name: string -> string, services: seq<string>, events: seq<seq<string>>,
                    order: seq<string>, i: nat, ghost actions0: seq<Action>, ghost number0: int,
                    ghost issued0: set<string>)
    requires i < |services|
    requires name(services[i]) != "" && name(services[i]) !in NamesOf(name, services[..i])
    requires ListenLoop(ch, queue, ids, name, services, events, i, actions0, number0, issued0)
    modifies ch, ch.conn, ids
    ensures ListenLoop(ch, queue, ids, name, services, events + [order], i + 1, actions0, number0, issued0)
  {
    var s := services[i];
    assert services[..i + 1] == services[..i] + [s];
    ListenDeclaresAppend(ch.number, queue.name, name, services[..i], events, s, order);
    AppendAssoc(actions0, ListenDeclares(ch.number, queue.name, name, services[..i], events),
                ServiceDeclares(ch.number, queue.name, name(s), order));
    DeclareService(ch, queue, name(s), order, ids);
  }

  lemma AppendAssoc(a: seq<Action>, b: seq<Action>, c: seq<Action>)
    ensures a + b + c == a + (b + c)
  {
  }

  /** Appending the enumerated events of the next service keeps the events matched. */
  lemma EventsMatchAppend(table: map<string, map<string, Handler>>, services: seq<string>,
                          events: seq<seq<string>>, order: seq<string>)
    requires EventsMatch(table, services, events) && |events| < |services|
    requires services[|events|] in table
    requires forall e :: e in order <==> e in table[services[|events|]]
    ensures EventsMatch(table, services, events + [order])
  {
  }

  /** The actions for one listened service: its exchange, then one binding of the queue per event. */
  method DeclareService(ch: SimpleTopology.AmqpChannel, queue: SimpleTopology.AmqpQueue, exchange: string,
                        events: seq<string>, ids: Ids.IdSource)
    requires ch.Valid() && ch.conn.Valid() && ids.Valid()
    requires exchange != "" && exchange !in ch.exchangeCache
    requires queue.conn == ch.conn && queue.channel == ch
    modifies ch, ch.conn, ids
    ensures ch.Valid() && ch.conn.Valid() && ids.Valid()
    ensures ch.conn.channelNumber == old(ch.conn.channelNumber) && ids.issued == old(ids.issued)
    ensures ch.exchangeCache.Keys == old(ch.exchangeCache.Keys) + {exchange}
    ensures ch.conn.actions == old(ch.conn.actions) + ServiceDeclares(ch.number, queue.name, exchange, events)
  {
    var e := DeclareNamed(ch, exchange, ids);
    BindAll(queue, e, events);
  }

  /** The inner loop of `_create_listen`: one binding of the queue per event. */
  method BindAll(queue: SimpleTopology.AmqpQueue, exchange: SimpleTopology.AmqpExchange, events: seq<string>)
    requires queue.conn.Valid()
    modifies queue.conn
    ensures queue.conn.Valid() && queue.conn.channelNumber == old(queue.conn.channelNumber)
    ensures queue.conn.actions == old(queue.conn.actions)
              + Binds(queue.channel.number, queue.name, exchange.name, events)
  {
    ghost var base := queue.conn.actions;
    ghost var number, source := queue.channel.number, exchange.name;
    var j := 0;
    while j < |events|
      invariant 0 <= j <= |events|
      invariant queue.conn.Valid() && queue.conn.channelNumber == old(queue.conn.channelNumber)
      invariant queue.conn.actions == base + Binds(number, queue.name, source, events[..j])
    {
      ghost var before := Binds(number, queue.name, source, events[..j]);
      var q := queue.Bind(exchange, events[j], map[]);
      ghost var b := BindQueue(number, queue.name, source, events[j], map[]);
      BindsAppend(number, queue.name, source, events[..j], events[j]);
      assert events[..j + 1] == events[..j] + [events[j]];
      assert base + before + [b] == base + (before + [b]);
      j := j + 1;
    }
    assert events[..j] == events;
  }

  /**
   * After `_create_listen`, the listen queue is bound to the exchange of
   * service `s` with key `e` exactly when a handler is registered for event
   * `e` of service `s`.
   */
  lemma ListenActionsBindIff(number: int, queue: string, name: string -> string,
                             table: map<string, map<string, Handler>>, services: seq<string>,
                             events: seq<seq<string>>, tag: string, s: string, e: string)
    requires Listened(table, services, events) && Injective(name)
    ensures BindQueue(number, queue, name(s), e, map[]) in ListenActions(number, queue, name, services, events, tag)
            <==> s in table && e in table[s]
  {
    ListenDeclaresBinds(number, queue, name, services, events, s, e);
    if s in table && e in table[s] {
      var i :| 0 <= i < |services| && services[i] == s;
      assert e in events[i];
    }
  }

  /**
   * An event pushed by one connection and delivered to another with the same
   * codec reaches the handler registered for its service and name, and the
   * message is acknowledged exactly when such a handler exists.
   */
  method PushThenDeliver(publisher: GeventAmqpPubSub, subscriber: GeventAmqpPubSub, e: Event)
    returns (r: Result<bool, PyError>)
    requires publisher.publishChannel.Some? && publisher.packer == subscriber.packer
    requires RoundTrips(publisher.packer)
    modifies publisher`published, subscriber`invoked, subscriber`notices
    ensures r == Ok(subscriber.Listens(e))
    ensures subscriber.Listens(e) ==> |subscriber.invoked| > 0 && subscriber.invoked[|subscriber.invoked| - 1] == e
    ensures !subscriber.Listens(e) ==> subscriber.invoked == old(subscriber.invoked)
  {
    var pushed := publisher.PushEvent(e);
    var msg := publisher.published[|publisher.published| - 1].msg;
    r := subscriber.OnEventMessage(msg);
  }

  /** As written, no pushed event ever reaches a handler: delivery fails before the lookup. */
  method PushThenDeliverAsWritten(publisher: GeventAmqpPubSub, subscriber: GeventAmqpPubSub, e: Event)
    returns (r: Result<bool, PyError>)
    requires publisher.publishChannel.Some? && publisher.packer == subscriber.packer
    requires RoundTrips(publisher.packer)
    modifies publisher`published
    ensures r == Err(AttributeError("topic"))
  {
    var pushed := publisher.PushEvent(e);
    var msg := publisher.published[|publisher.published| - 1].msg;
    r := subscriber.OnEventMessageAsWritten(msg);
  }
}
