/**
 * The seven frozen action records of the `ge_amqp` package. A Dafny datatype
 * value is immutable, which is what `frozen=True` promises; Python's keyword
 * defaults become the `Default*` constants below.
 */
module GeActions {
  import opened Wrappers

  datatype Action =
    | CreateConnection(host: string, port: int, username: string, password: string, vhost: string)
    | CreateChannel(number: int)
    | DeclareQueue(channel: int, name: string, durable: bool, exclusive: bool, autoDelete: bool)
    | DeclareExchange(channel: int, name: string, exchangeType: string,
                      durable: bool, autoDelete: bool, internal: bool)
    | BindQueue(channel: int, queue: string, exchange: string, routingKey: string)
    | BindExchange(channel: int, srcExchange: string, dstExchange: string, routingKey: string)
    | BindConsumer(channel: int, queue: string, tag: string, callback: Option<string>,
                   autoAck: bool, exclusive: bool)

  const DefaultCreateConnection: Action := CreateConnection("localhost", 5672, "guest", "guest", "/")
  const DefaultCreateChannel: Action := CreateChannel(-1)
  const DefaultDeclareQueue: Action := DeclareQueue(-1, "", false, false, false)
  const DefaultDeclareExchange: Action := DeclareExchange(-1, "", "", false, false, false)
  const DefaultBindQueue: Action := BindQueue(-1, "", "", "")
  const DefaultBindExchange: Action := BindExchange(-1, "", "", "")
  const DefaultBindConsumer: Action := BindConsumer(-1, "", "", None, false, false)

  /** The channel an action refers to, `None` for `CreateConnection`. */
  function ChannelOf(a: Action): (r: Option<int>)
    ensures r.None? <==> a.CreateConnection?
    ensures a.CreateChannel? ==> r == Some(a.number)
  {
    match a
    case CreateConnection(_, _, _, _, _) => None
    case CreateChannel(n) => Some(n)
    case DeclareQueue(c, _, _, _, _) => Some(c)
    case DeclareExchange(c, _, _, _, _, _) => Some(c)
    case BindQueue(c, _, _, _) => Some(c)
    case BindExchange(c, _, _, _) => Some(c)
    case BindConsumer(c, _, _, _, _, _) => Some(c)
  }

  /** The names and routing key an action carries, in field order. */
  function NamesOf(a: Action): (r: seq<string>)
    ensures a.CreateConnection? || a.CreateChannel? <==> r == []
  {
    match a
    case CreateConnection(_, _, _, _, _) => []
    case CreateChannel(_) => []
    case DeclareQueue(_, n, _, _, _) => [n]
    case DeclareExchange(_, n, t, _, _, _) => [n, t]
    case BindQueue(_, q, e, k) => [q, e, k]
    case BindExchange(_, s, d, k) => [s, d, k]
    case BindConsumer(_, q, t, _, _, _) => [q, t]
  }

  /** Every boolean flag an action carries. */
  function FlagsOf(a: Action): (r: seq<bool>)
    ensures a.DeclareQueue? ==> r == [a.durable, a.exclusive, a.autoDelete]
    ensures a.BindConsumer? ==> r == [a.autoAck, a.exclusive]
    ensures a.CreateConnection? || a.CreateChannel? || a.BindQueue? || a.BindExchange? ==> r == []
  {
    match a
    case DeclareQueue(_, _, d, x, ad) => [d, x, ad]
    case DeclareExchange(_, _, _, d, ad, i) => [d, ad, i]
    case BindConsumer(_, _, _, _, aa, x) => [aa, x]
    case _ => []
  }

  /**
   * The defaults: localhost:5672, guest/guest, vhost "/"; every channel
   * reference -1, every name and key empty, every flag false, no callback.
   */
  lemma DefaultsAreNeutral()
    ensures DefaultCreateConnection == CreateConnection("localhost", 5672, "guest", "guest", "/")
    ensures forall a | a in [DefaultCreateChannel, DefaultDeclareQueue, DefaultDeclareExchange,
                             DefaultBindQueue, DefaultBindExchange, DefaultBindConsumer] ::
              ChannelOf(a) == Some(-1) && (forall n | n in NamesOf(a) :: n == "")
              && (forall f | f in FlagsOf(a) :: !f)
    ensures DefaultBindConsumer.callback == None
  {
  }
}
