/**
 * The topology builder of `ge_amqp`: the same action log as `SimpleTopology`
 * but with no per-channel caches (every `queue()` and `exchange()` call logs a
 * new declaration), no `props`, lower-cased ULID ids, and an exchange type
 * that is accepted but never recorded.
 */
module GeTopology {
  import opened Wrappers
  import opened GeActions
  import opened AmqpData
  import Ids
  import Strings

  const PrivatePrefix := "private."
  const ConsumerPrefix := "consumer."

  /** `name` is `prefix` followed by the lower-cased form of an id drawn between `before` and `after`. */
  ghost predicate DrawnName(name: string, prefix: string, before: set<string>, after: set<string>)
  {
    exists id :: id !in before && after == before + {id} && name == prefix + Strings.Lower(id)
  }

  /** `create_name`: an empty name becomes `private.` and a lower-cased fresh ULID. */
  method CreateName(name: string, ids: Ids.IdSource) returns (r: string)
    requires ids.Valid()
    modifies ids
    ensures ids.Valid()
    ensures name != "" ==> r == name && ids.issued == old(ids.issued)
    ensures name == "" ==> DrawnName(r, PrivatePrefix, old(ids.issued), ids.issued)
  {
    r := name;
    if name == "" {
      var id := ids.Next();
      r := PrivatePrefix + Strings.Lower(id);
    }
  }

  class IAmqpConnection {
    var actions: seq<Action>
    var channelNumber: int

    constructor (params: AmqpParameters)
      ensures actions == [CreateConnection(params.host, params.port, params.username,
                                           params.password, params.vhost)]
      ensures channelNumber == 1
    {
      actions := [];
      channelNumber := 1;
      new;
      AddAction(CreateConnection(params.host, params.port, params.username,
                                 params.password, params.vhost));
    }

    /** `channel()`: hands out the next number and logs its `CreateChannel`. */
    method Channel() returns (ch: IAmqpChannel)
      modifies this
      ensures fresh(ch) && ch.conn == this && ch.number == old(channelNumber)
      ensures channelNumber == old(channelNumber) + 1
      ensures actions == old(actions) + [CreateChannel(old(channelNumber))]
    {
      var number := channelNumber;
      channelNumber := channelNumber + 1;
      AddAction(CreateChannel(number));
      ch := new IAmqpChannel(this, number);
    }

    method AddAction(a: Action)
      modifies this`actions
      ensures actions == old(actions) + [a]
    {
      actions := actions + [a];
    }
  }

  class IAmqpChannel {
    const conn: IAmqpConnection
    const number: int

    constructor (conn: IAmqpConnection, number: int)
      ensures this.conn == conn && this.number == number
    {
      this.conn := conn;
      this.number := number;
    }

    /** `queue()`: always a new queue and a new `DeclareQueue`, named or not. */
    method Queue(name: string, durable: bool, exclusive: bool, autoDelete: bool,
                 ids: Ids.IdSource) returns (q: IAmqpQueue)
      requires ids.Valid()
      modifies conn, ids
      ensures fresh(q) && q.conn == conn && q.channel == this && ids.Valid()
      ensures conn.channelNumber == old(conn.channelNumber)
      ensures name != "" ==> q.name == name && ids.issued == old(ids.issued)
      ensures name == "" ==> DrawnName(q.name, PrivatePrefix, old(ids.issued), ids.issued)
      ensures conn.actions == old(conn.actions)
                + [DeclareQueue(number, q.name, durable, exclusive, autoDelete)]
    {
      q := new IAmqpQueue(conn, this, name, durable, exclusive, autoDelete, ids);
    }

    /**
     * `exchange()`: always a new exchange and a new `DeclareExchange`; the
     * `type` argument does not reach the record, which keeps its default "".
     */
    method Exchange(name: string, exchangeType: string, durable: bool, autoDelete: bool,
                    internal: bool, ids: Ids.IdSource) returns (e: IAmqpExchange)
      requires ids.Valid()
      modifies conn, ids
      ensures fresh(e) && e.conn == conn && e.channel == this && ids.Valid()
      ensures conn.channelNumber == old(conn.channelNumber)
      ensures name != "" ==> e.name == name && ids.issued == old(ids.issued)
      ensures name == "" ==> DrawnName(e.name, PrivatePrefix, old(ids.issued), ids.issued)
      ensures conn.actions == old(conn.actions)
                + [DeclareExchange(number, e.name, "", durable, autoDelete, internal)]
    {
      e := new IAmqpExchange(conn, this, name, durable, autoDelete, internal, ids);
    }
  }

  class IAmqpQueue {
    const conn: IAmqpConnection
    const channel: IAmqpChannel
    const name: string

    constructor (conn: IAmqpConnection, channel: IAmqpChannel, name: string, durable: bool,
                 exclusive: bool, autoDelete: bool, ids: Ids.IdSource)
      requires ids.Valid()
      modifies conn, ids
      ensures this.conn == conn && this.channel == channel && ids.Valid()
      ensures conn.channelNumber == old(conn.channelNumber)
      ensures name != "" ==> this.name == name && ids.issued == old(ids.issued)
      ensures name == "" ==> DrawnName(this.name, PrivatePrefix, old(ids.issued), ids.issued)
      ensures conn.actions == old(conn.actions)
                + [DeclareQueue(channel.number, this.name, durable, exclusive, autoDelete)]
    {
      var n := CreateName(name, ids);
      this.conn := conn;
      this.channel := channel;
      this.name := n;
      new;
      conn.AddAction(DeclareQueue(channel.number, n, durable, exclusive, autoDelete));
    }

    /** `bind()`: logs a `BindQueue` and returns this queue. */
    method Bind(exchange: IAmqpExchange, routingKey: string) returns (r: IAmqpQueue)
      modifies conn
      ensures r == this && conn.channelNumber == old(conn.channelNumber)
      ensures conn.actions == old(conn.actions)
                + [BindQueue(channel.number, name, exchange.name, routingKey)]
    {
      conn.AddAction(BindQueue(channel.number, name, exchange.name, routingKey));
      r := this;
    }

    /** `consume()`: a new consumer with the given `auto_ack` and `exclusive`. */
    method Consume(callback: string, autoAck: bool, exclusive: bool, ids: Ids.IdSource)
      returns (c: IAmqpConsumer)
      requires ids.Valid()
      modifies conn, ids
      ensures fresh(c) && c.conn == conn && c.channel == channel && ids.Valid()
      ensures conn.channelNumber == old(conn.channelNumber)
      ensures DrawnName(c.tag, ConsumerPrefix, old(ids.issued), ids.issued)
      ensures conn.actions == old(conn.actions)
                + [BindConsumer(channel.number, name, c.tag, Some(callback), autoAck, exclusive)]
    {
      c := new IAmqpConsumer(conn, channel, this, callback, autoAck, exclusive, ids);
    }
  }

  class IAmqpExchange {
    const conn: IAmqpConnection
    const channel: IAmqpChannel
    const name: string

    constructor (conn: IAmqpConnection, channel: IAmqpChannel, name: string, durable: bool,
                 autoDelete: bool, internal: bool, ids: Ids.IdSource)
      requires ids.Valid()
      modifies conn, ids
      ensures this.conn == conn && this.channel == channel && ids.Valid()
      ensures conn.channelNumber == old(conn.channelNumber)
      ensures name != "" ==> this.name == name && ids.issued == old(ids.issued)
      ensures name == "" ==> DrawnName(this.name, PrivatePrefix, old(ids.issued), ids.issued)
      ensures conn.actions == old(conn.actions)
                + [DeclareExchange(channel.number, this.name, "", durable, autoDelete, internal)]
    {
      var n := CreateName(name, ids);
      this.conn := conn;
      this.channel := channel;
      this.name := n;
      new;
      conn.AddAction(DeclareExchange(channel.number, n, "", durable, autoDelete, internal));
    }

    /** `bind()`: logs a `BindExchange` whose source is `exchange` and destination this one. */
    method Bind(exchange: IAmqpExchange, routingKey: string) returns (r: IAmqpExchange)
      modifies conn
      ensures r == this && conn.channelNumber == old(conn.channelNumber)
      ensures conn.actions == old(conn.actions)
                + [BindExchange(channel.number, exchange.name, name, routingKey)]
    {
      conn.AddAction(BindExchange(channel.number, exchange.name, name, routingKey));
      r := this;
    }
  }

  class IAmqpConsumer {
    const conn: IAmqpConnection
    const channel: IAmqpChannel
    const tag: string

    /** Draws the tag `consumer.<lower-cased ULID>` and logs one `BindConsumer`. */
    constructor (conn: IAmqpConnection, channel: IAmqpChannel, queue: IAmqpQueue,
                 callback: string, autoAck: bool, exclusive: bool, ids: Ids.IdSource)
      requires ids.Valid()
      modifies conn, ids
      ensures this.conn == conn && this.channel == channel && ids.Valid()
      ensures conn.channelNumber == old(conn.channelNumber)
      ensures DrawnName(tag, ConsumerPrefix, old(ids.issued), ids.issued)
      ensures conn.actions == old(conn.actions)
                + [BindConsumer(channel.number, queue.name, tag, Some(callback), autoAck, exclusive)]
    {
      var id := ids.Next();
      var t := ConsumerPrefix + Strings.Lower(id);
      this.conn := conn;
      this.channel := channel;
      this.tag := t;
      new;
      conn.AddAction(BindConsumer(channel.number, queue.name, t, Some(callback), autoAck, exclusive));
    }
  }

  /** Without a cache, declaring the same named queue twice logs two declarations. */
  method DeclareNamedTwice(ch: IAmqpChannel, name: string, ids: Ids.IdSource)
    returns (q1: IAmqpQueue, q2: IAmqpQueue)
    requires ids.Valid() && name != ""
    modifies ch.conn, ids
    ensures q1 != q2 && q1.name == q2.name == name
    ensures ch.conn.actions == old(ch.conn.actions)
              + [DeclareQueue(ch.number, name, false, false, false),
                 DeclareQueue(ch.number, name, false, false, false)]
  {
    q1 := ch.Queue(name, false, false, false, ids);
    q2 := ch.Queue(name, false, false, false, ids);
  }
}
