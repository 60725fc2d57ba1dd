/**
 * The action records of the `simple_amqp` package, with the fields that its
 * builder passes and its driver reads. Compared with `GeActions` they carry
 * string-keyed `props`, `DeclareExchange` carries the exchange type, and the
 * driver reads a `nack_requeue` flag from `BindConsumer`.
 */
module SimpleActions {

  type Props = map<string, string>

  datatype Action =
    | CreateConnection(host: string, port: int, username: string, password: string, vhost: string)
    | CreateChannel(number: int)
    | DeclareQueue(channel: int, name: string, durable: bool, exclusive: bool, autoDelete: bool,
                   props: Props)
    | DeclareExchange(channel: int, name: string, exchangeType: string, durable: bool,
                      autoDelete: bool, internal: bool, props: Props)
    | BindQueue(channel: int, queue: string, exchange: string, routingKey: string, props: Props)
    | BindExchange(channel: int, srcExchange: string, dstExchange: string, routingKey: string,
                   props: Props)
    | BindConsumer(channel: int, queue: string, tag: string, callback: string, autoAck: bool,
                   exclusive: bool, props: Props, nackRequeue: bool)

  /**
   * The builder never sets `nack_requeue` on a `BindConsumer`, so every
   * consumer action carries the record's own default.
   */
  const NackRequeueDefault := true
}
