/**
 * The topology builder of `simple_amqp`: building connections, channels,
 * queues, exchanges, bindings and consumers only appends actions to the
 * connection's log. Named queues and exchanges are cached per channel;
 * anonymous ones get a fresh `private.<id>` name every time.
 */
module SimpleTopology {
  import opened SimpleActions
  import opened AmqpData
  import Ids
  import Strings

  const PrivatePrefix := "private."
  const ConsumerPrefix := "consumer."
  /** The exchange type `exchange()` uses when none is given. */
  const DefaultExchangeType := "direct"

  /** The numbers of the channels a log creates, in log order. */
  function ChannelsCreated(log: seq<Action>): seq<int>
  {
    if log == [] then []
    else (if log[0].CreateChannel? then [log[0].number] else []) + ChannelsCreated(log[1..])
  }

  /** `lo, lo + 1, ..., hi - 1`. */
  function Range(lo: int, hi: int): (r: seq<int>)
    requires lo <= hi
    ensures |r| == hi - lo
    ensures forall i | 0 <= i < |r| :: r[i] == lo + i
  {
    seq(hi - lo, i requires 0 <= i < hi - lo => lo + i)
  }

  /** Appending one action adds at most that action's channel to `ChannelsCreated`. */
  lemma {:induction false} ChannelsCreatedAppend(log: seq<Action>, a: Action)
    ensures ChannelsCreated(log + [a])
         == ChannelsCreated(log) + (if a.CreateChannel? then [a.number] else [])
  {
    if log != [] {
      assert (log + [a])[1..] == log[1..] + [a];
      ChannelsCreatedAppend(log[1..], a);
    }
  }

  /** `name` is `private.` followed by an id drawn between `before` and `after`. */
  ghost predicate FreshPrivateName(name: string, before: set<string>, after: set<string>)
  {
    |name| >= |PrivatePrefix| && name[..|PrivatePrefix|] == PrivatePrefix
    && name[|PrivatePrefix|..] !in before && after == before + {name[|PrivatePrefix|..]}
  }

  /** Two names drawn one after the other from the oracle differ. */
  lemma FreshPrivateNamesDiffer(n1: string, n2: string, s0: set<string>, s1: set<string>, s2: set<string>)
    requires FreshPrivateName(n1, s0, s1) && FreshPrivateName(n2, s1, s2)
    ensures n1 != n2
  {
    assert n1[|PrivatePrefix|..] in s1;
  }

  /** `create_name`: an empty name is replaced by `private.<fresh id>`. */
  method CreateName(name: string, ids: Ids.IdSource) returns (r: string)
    requires ids.Valid()
    modifies ids
    ensures ids.Valid() && r != ""
    ensures name != "" ==> r == name && ids.issued == old(ids.issued)
    ensures name == "" ==> FreshPrivateName(r, old(ids.issued), ids.issued)
  {
    r := name;
    if name == "" {
      var id := ids.Next();
      r := PrivatePrefix + id;
      assert r[|PrivatePrefix|..] == id;
    }
  }

  class AmqpConnection {
    /** The append-only action log, in the order the builder calls were made. */
    var actions: seq<Action>
    /** The number the next channel gets. */
    var channelNumber: int

    /**
     * The log starts with its `CreateConnection`, and the channels it creates
     * are exactly 1, 2, ..., channelNumber - 1, in that order.
     */
    ghost predicate Valid()
      reads this
    {
      |actions| >= 1 && actions[0].CreateConnection? && channelNumber >= 1
      && ChannelsCreated(actions) == Range(1, channelNumber)
    }

    constructor (params: AmqpParameters)
      ensures Valid()
      ensures actions == [CreateConnection(params.host, params.port, params.username,
                                           params.password, params.vhost)]
      ensures channelNumber == 1
    {
      actions := [];
      channelNumber := 1;
      new;
      AddAction(CreateConnection(params.host, params.port, params.username,
                                 params.password, params.vhost));
      assert ChannelsCreated(actions) == [];
    }

    /** `channel()`: hands out the next number and logs its `CreateChannel`. */
    method Channel() returns (ch: AmqpChannel)
      requires Valid()
      modifies this
      ensures Valid()
      ensures fresh(ch) && ch.conn == this && ch.number == old(channelNumber)
      ensures ch.queueCache == map[] && ch.exchangeCache == map[] && ch.Valid()
      ensures channelNumber == old(channelNumber) + 1
      ensures actions == old(actions) + [CreateChannel(old(channelNumber))]
      ensures ChannelsCreated(actions) == ChannelsCreated(old(actions)) + [old(channelNumber)]
    {
      var number := channelNumber;
      channelNumber := channelNumber + 1;
      ChannelsCreatedAppend(actions, CreateChannel(number));
      AddAction(CreateChannel(number));
      ch := new AmqpChannel(this, number);
    }

    /** `add_action`: appends, never reorders or removes. */
    method AddAction(a: Action)
      modifies this`actions
      ensures actions == old(actions) + [a]
      ensures actions[..|old(actions)|] == old(actions)
      ensures old(Valid()) && !a.CreateChannel? ==> Valid()
    {
      ChannelsCreatedAppend(actions, a);
      actions := actions + [a];
    }
  }

  class AmqpChannel {
    const conn: AmqpConnection
    const number: int
    var queueCache: map<string, AmqpQueue>
    var exchangeCache: map<string, AmqpExchange>

    /** Every cache entry is a non-empty name mapped to an object of that name on this channel. */
    ghost predicate Valid()
      reads this
    {
      (forall n | n in queueCache ::
         n != "" && queueCache[n].name == n && queueCache[n].channel == this
         && queueCache[n].conn == conn)
      && (forall n | n in exchangeCache ::
         n != "" && exchangeCache[n].name == n && exchangeCache[n].channel == this
         && exchangeCache[n].conn == conn)
    }

    constructor (conn: AmqpConnection, number: int)
      ensures this.conn == conn && this.number == number
      ensures queueCache == map[] && exchangeCache == map[] && Valid()
    {
      this.conn := conn;
      this.number := number;
      queueCache := map[];
      exchangeCache := map[];
    }

    /**
     * `queue()`: a cached named queue is returned as it is, whatever the
     * flags; otherwise a new queue is declared, and cached when it is named.
     */
    method Queue(name: string, durable: bool, exclusive: bool, autoDelete: bool, props: Props,
                 ids: Ids.IdSource) returns (q: AmqpQueue)
      requires Valid() && conn.Valid() && ids.Valid()
      modifies this, conn, ids
      ensures Valid() && conn.Valid() && ids.Valid()
      ensures conn.channelNumber == old(conn.channelNumber) && exchangeCache == old(exchangeCache)
      ensures q.channel == this && q.conn == conn
      ensures name != "" && name in old(queueCache) ==>
                q == old(queueCache)[name] && queueCache == old(queueCache)
                && conn.actions == old(conn.actions) && ids.issued == old(ids.issued)
      ensures name != "" && name !in old(queueCache) ==>
                fresh(q) && q.name == name && queueCache == old(queueCache)[name := q]
                && ids.issued == old(ids.issued)
                && conn.actions == old(conn.actions)
                   + [DeclareQueue(number, name, durable, exclusive, autoDelete, props)]
      ensures name == "" ==>
                fresh(q) && queueCache == old(queueCache)
                && FreshPrivateName(q.name, old(ids.issued), ids.issued)
                && conn.actions == old(conn.actions)
                   + [DeclareQueue(number, q.name, durable, exclusive, autoDelete, props)]
    {
      if name != "" && name in queueCache {
        return queueCache[name];
      }
      q := new AmqpQueue(conn, this, name, durable, exclusive, autoDelete, props, ids);
      if name == "" {
        return;
      }
      queueCache := queueCache[name := q];
    }

    /**
     * `exchange()`: a cached named exchange is returned as it is; otherwise a
     * new exchange is declared, and cached when it is named.
     */
    method Exchange(name: string, exchangeType: string, durable: bool, autoDelete: bool,
                    internal: bool, props: Props, ids: Ids.IdSource) returns (e: AmqpExchange)
      requires Valid() && conn.Valid() && ids.Valid()
      modifies this, conn, ids
      ensures Valid() && conn.Valid() && ids.Valid()
      ensures conn.channelNumber == old(conn.channelNumber) && queueCache == old(queueCache)
      ensures e.channel == this && e.conn == conn
      ensures name != "" && name in old(exchangeCache) ==>
                e == old(exchangeCache)[name] && exchangeCache == old(exchangeCache)
                && conn.actions == old(conn.actions) && ids.issued == old(ids.issued)
      ensures name != "" && name !in old(exchangeCache) ==>
                fresh(e) && e.name == name && exchangeCache == old(exchangeCache)[name := e]
                && ids.issued == old(ids.issued)
                && conn.actions == old(conn.actions)
                   + [DeclareExchange(number, name, exchangeType, durable, autoDelete, internal, props)]
      ensures name == "" ==>
                fresh(e) && exchangeCache == old(exchangeCache)
                && FreshPrivateName(e.name, old(ids.issued), ids.issued)
                && conn.actions == old(conn.actions)
                   + [DeclareExchange(number, e.name, exchangeType, durable, autoDelete, internal, props)]
    {
      if name != "" && name in exchangeCache {
        return exchangeCache[name];
      }
      e := new AmqpExchange(conn, this, name, exchangeType, durable, autoDelete, internal, props, ids);
      if name == "" {
        return;
      }
      exchangeCache := exchangeCache[name := e];
    }
  }

  class AmqpQueue {
    const conn: AmqpConnection
    const channel: AmqpChannel
    const name: string

    /** Names the queue (drawing a private name when it has none) and logs its `DeclareQueue`. */
    constructor (conn: AmqpConnection, channel: AmqpChannel, name: string, durable: bool,
                 exclusive: bool, autoDelete: bool, props: Props, ids: Ids.IdSource)
      requires conn.Valid() && ids.Valid()
      modifies conn, ids
      ensures this.conn == conn && this.channel == channel && this.name != ""
      ensures conn.Valid() && ids.Valid() && conn.channelNumber == old(conn.channelNumber)
      ensures name != "" ==> this.name == name && ids.issued == old(ids.issued)
      ensures name == "" ==> FreshPrivateName(this.name, old(ids.issued), ids.issued)
      ensures conn.actions == old(conn.actions)
                + [DeclareQueue(channel.number, this.name, durable, exclusive, autoDelete, props)]
    {
      var n := CreateName(name, ids);
      this.conn := conn;
      this.channel := channel;
      this.name := n;
      new;
      conn.AddAction(DeclareQueue(channel.number, n, durable, exclusive, autoDelete, props));
    }

    /** `bind()`: logs a `BindQueue` from this queue to `exchange` and returns the queue. */
    method Bind(exchange: AmqpExchange, routingKey: string, props: Props) returns (r: AmqpQueue)
      requires conn.Valid()
      modifies conn
      ensures r == this && conn.Valid() && conn.channelNumber == old(conn.channelNumber)
      ensures conn.actions == old(conn.actions)
                + [BindQueue(channel.number, name, exchange.name, routingKey, props)]
    {
      conn.AddAction(BindQueue(channel.number, name, exchange.name, routingKey, props));
      r := this;
    }

    /**
     * `consume()`: creates a consumer with a fresh `consumer.<id>` tag. The
     * `nack_requeue` and `props` arguments are accepted and dropped.
     */
    method Consume(callback: string, autoAck: bool, exclusive: bool, nackRequeue: bool,
                   props: Props, ids: Ids.IdSource) returns (c: AmqpConsumer)
      requires conn.Valid() && ids.Valid()
      modifies conn, ids
      ensures fresh(c) && c.conn == conn && c.channel == channel
      ensures conn.Valid() && ids.Valid() && conn.channelNumber == old(conn.channelNumber)
      ensures |c.tag| > |ConsumerPrefix| && c.tag[..|ConsumerPrefix|] == ConsumerPrefix
      ensures c.tag[|ConsumerPrefix|..] !in old(ids.issued)
      ensures ids.issued == old(ids.issued) + {c.tag[|ConsumerPrefix|..]}
      ensures conn.actions == old(conn.actions)
                + [BindConsumer(channel.number, name, c.tag, callback, autoAck, exclusive,
                                map[], NackRequeueDefault)]
    {
      c := new AmqpConsumer(conn, channel, this, callback, autoAck, exclusive, ids);
    }
  }

  class AmqpExchange {
    const conn: AmqpConnection
    const channel: AmqpChannel
    const name: string

    /** Names the exchange (drawing a private name when it has none) and logs its `DeclareExchange`. */
    constructor (conn: AmqpConnection, channel: AmqpChannel, name: string, exchangeType: string,
                 durable: bool, autoDelete: bool, internal: bool, props: Props, ids: Ids.IdSource)
      requires conn.Valid() && ids.Valid()
      modifies conn, ids
      ensures this.conn == conn && this.channel == channel && this.name != ""
      ensures conn.Valid() && ids.Valid() && conn.channelNumber == old(conn.channelNumber)
      ensures name != "" ==> this.name == name && ids.issued == old(ids.issued)
      ensures name == "" ==> FreshPrivateName(this.name, old(ids.issued), ids.issued)
      ensures conn.actions == old(conn.actions)
                + [DeclareExchange(channel.number, this.name, exchangeType, durable, autoDelete,
                                   internal, props)]
    {
      var n := CreateName(name, ids);
      this.conn := conn;
      this.channel := channel;
      this.name := n;
      new;
      conn.AddAction(DeclareExchange(channel.number, n, exchangeType, durable, autoDelete,
                                     internal, props));
    }

    /** `bind()`: logs a `BindExchange` whose source is `exchange` and destination this one. */
    method Bind(exchange: AmqpExchange, routingKey: string, props: Props) returns (r: AmqpExchange)
      requires conn.Valid()
      modifies conn
      ensures r == this && conn.Valid() && conn.channelNumber == old(conn.channelNumber)
      ensures conn.actions == old(conn.actions)
                + [BindExchange(channel.number, exchange.name, name, routingKey, props)]
    {
      conn.AddAction(BindExchange(channel.number, exchange.name, name, routingKey, props));
      r := this;
    }
  }

  class AmqpConsumer {
    const conn: AmqpConnection
    const channel: AmqpChannel
    const tag: string

    /** Draws the tag `consumer.<id>` and logs the `BindConsumer`. */
    constructor (conn: AmqpConnection, channel: AmqpChannel, queue: AmqpQueue, callback: string,
                 autoAck: bool, exclusive: bool, ids: Ids.IdSource)
      requires conn.Valid() && ids.Valid()
      modifies conn, ids
      ensures this.conn == conn && this.channel == channel
      ensures conn.Valid() && ids.Valid() && conn.channelNumber == old(conn.channelNumber)
      ensures |tag| > |ConsumerPrefix| && tag[..|ConsumerPrefix|] == ConsumerPrefix
      ensures tag[|ConsumerPrefix|..] !in old(ids.issued)
      ensures ids.issued == old(ids.issued) + {tag[|ConsumerPrefix|..]}
      ensures conn.actions == old(conn.actions)
                + [BindConsumer(channel.number, queue.name, tag, callback, autoAck, exclusive,
                                map[], NackRequeueDefault)]
    {
      var id := ids.Next();
      var t := ConsumerPrefix + id;
      assert t[|ConsumerPrefix|..] == id;
      this.conn := conn;
      this.channel := channel;
      this.tag := t;
      new;
      conn.AddAction(BindConsumer(channel.number, queue.name, t, callback, autoAck, exclusive,
                                  map[], NackRequeueDefault));
    }
  }

  /** Declaring the same named queue twice on a channel yields one object and one declaration. */
  method DeclareNamedTwice(ch: AmqpChannel, name: string, ids: Ids.IdSource)
    returns (q1: AmqpQueue, q2: AmqpQueue)
    requires ch.Valid() && ch.conn.Valid() && ids.Valid() && name != ""
    modifies ch, ch.conn, ids
    ensures q1 == q2 && q1.name == name
    ensures |ch.conn.actions| <= |old(ch.conn.actions)| + 1
  {
    q1 := ch.Queue(name, true, false, false, map[], ids);
    q2 := ch.Queue(name, false, true, true, map["x" := "y"], ids);
  }

  /** Declaring two anonymous queues yields two objects with different generated names. */
  method DeclareAnonymousTwice(ch: AmqpChannel, ids: Ids.IdSource)
    returns (q1: AmqpQueue, q2: AmqpQueue)
    requires ch.Valid() && ch.conn.Valid() && ids.Valid()
    modifies ch, ch.conn, ids
    ensures q1 != q2 && q1.name != q2.name
    ensures |ch.conn.actions| == |old(ch.conn.actions)| + 2
  {
    ghost var s0 := ids.issued;
    q1 := ch.Queue("", false, false, false, map[], ids);
    ghost var s1 := ids.issued;
    q2 := ch.Queue("", false, false, false, map[], ids);
    FreshPrivateNamesDiffer(q1.name, q2.name, s0, s1, ids.issued);
  }

  /** A fresh connection hands out channels 1, 2 and 3 and logs them in that order. */
  method ThreeChannels(params: AmqpParameters) returns (conn: AmqpConnection, a: AmqpChannel,
                                                         b: AmqpChannel, c: AmqpChannel)
    ensures a.number == 1 && b.number == 2 && c.number == 3
    ensures conn.actions == [CreateConnection(params.host, params.port, params.username,
                                              params.password, params.vhost),
                             CreateChannel(1), CreateChannel(2), CreateChannel(3)]
  {
    conn := new AmqpConnection(params);
    a := conn.Channel();
    b := conn.Channel();
    c := conn.Channel();
  }
}
