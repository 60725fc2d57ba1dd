/**
 * Connection parameters and the message envelope exchanged between the
 * driver and the RPC and pub/sub layers.
 */
module AmqpData {
  import opened Wrappers

  newtype byte = x: int | 0 <= x < 256
  type Bytes = seq<byte>

  /** Broker endpoint; the defaults are those of the frozen `AmqpParameters` record. */
  datatype AmqpParameters = AmqpParameters(
    host: string, port: int, username: string, password: string, vhost: string)

  const DefaultParameters := AmqpParameters("localhost", 5672, "guest", "guest", "/")

  /** The message envelope. `expiration` is `None` when no expiration is set. */
  datatype AmqpMsg = AmqpMsg(
    payload: Bytes,
    contentType: string,
    encoding: string,
    exchange: string,
    topic: string,
    correlationId: string,
    replyTo: string,
    expiration: Option<int>,
    headers: map<string, string>)

  /** An envelope that carries only a payload and its content type. */
  function Envelope(payload: Bytes, contentType: string): (m: AmqpMsg)
    ensures m.payload == payload && m.contentType == contentType
    ensures m.exchange == "" && m.topic == "" && m.correlationId == "" && m.replyTo == ""
    ensures m.expiration == None && m.headers == map[]
  {
    AmqpMsg(payload, contentType, "", "", "", "", "", None, map[])
  }
}
