/**
 * The pub/sub `Event` record and its wire form: the event's three fields go
 * into a string-keyed map, the map is packed by msgpack, and the envelope
 * carries the content type `application/msgpack`. msgpack itself is an
 * opaque pack/unpack pair.
 */
module PubSubEvents {
  import opened Wrappers
  import opened Values
  import opened AmqpData

  /** An event raised by a service. */
  datatype Event = Event(service: string, event: string, payload: Value)

  const ContentTypeMsgpack := "application/msgpack"

  /** The msgpack codec: `unpack` fails (`None`) on bytes it cannot read. */
  datatype Packer = Packer(pack: Value -> Bytes, unpack: Bytes -> Option<Value>)

  /** Unpacking what was packed gives the value back. */
  ghost predicate RoundTrips(p: Packer) {
    forall v: Value :: p.unpack(p.pack(v)) == Some(v)
  }

  /** The map an event is packed as: exactly the keys service, event and payload. */
  function EventFields(e: Event): (d: map<string, Value>)
    ensures d.Keys == {"service", "event", "payload"}
    ensures d["service"] == Str(e.service) && d["event"] == Str(e.event) && d["payload"] == e.payload
  {
    map["service" := Str(e.service), "event" := Str(e.event), "payload" := e.payload]
  }

  /** `encode_event`: the packed field map, labelled as msgpack, with no routing set yet. */
  function EncodeEvent(p: Packer, e: Event): (m: AmqpMsg)
    ensures m.contentType == ContentTypeMsgpack
    ensures m.exchange == "" && m.topic == "" && m.correlationId == "" && m.replyTo == ""
    ensures RoundTrips(p) ==> p.unpack(m.payload) == Some(Dict(EventFields(e)))
  {
    Envelope(p.pack(Dict(EventFields(e))), ContentTypeMsgpack)
  }

  /**
   * `decode_event`: unpacks the payload and rebuilds the event from the keys
   * service, event and payload, read in that order. Bytes msgpack cannot
   * read raise `ValueError`, a value that is not a map raises `TypeError`,
   * and a missing key raises `KeyError` for the first key missing. The
   * record here is typed, so a service or event that is not a string is a
   * `TypeError` rather than an ill-typed event.
   */
  function DecodeEvent(p: Packer, m: AmqpMsg): (r: Result<Event, PyError>)
    ensures r.Ok? ==>
              p.unpack(m.payload).Some? && p.unpack(m.payload).value.Dict?
              && (forall k | k in EventFields(r.value) ::
                    k in p.unpack(m.payload).value.entries
                    && p.unpack(m.payload).value.entries[k] == EventFields(r.value)[k])
    ensures p.unpack(m.payload).None? ==> r == Err(ValueError("msgpack"))
    ensures p.unpack(m.payload).Some? && !p.unpack(m.payload).value.Dict? ==> r == Err(TypeError("payload"))
    ensures p.unpack(m.payload).Some? && p.unpack(m.payload).value.Dict? ==>
              var d := p.unpack(m.payload).value.entries;
              && ("service" !in d ==> r == Err(KeyError("service")))
              && ("service" in d && "event" !in d ==> r == Err(KeyError("event")))
              && ("service" in d && "event" in d && "payload" !in d ==> r == Err(KeyError("payload")))
              && ("service" in d && "event" in d && "payload" in d && d["service"].Str? && d["event"].Str? ==>
                    r.Ok? && EventFields(r.value) == map k | k in EventFields(r.value) :: d[k])
  {
    match p.unpack(m.payload)
    case None => Err(ValueError("msgpack"))
    case Some(v) =>
      if !v.Dict? then Err(TypeError("payload"))
      else if "service" !in v.entries then Err(KeyError("service"))
      else if "event" !in v.entries then Err(KeyError("event"))
      else if "payload" !in v.entries then Err(KeyError("payload"))
      else if !v.entries["service"].Str? || !v.entries["event"].Str? then Err(TypeError("Event"))
      else Ok(Event(v.entries["service"].s, v.entries["event"].s, v.entries["payload"]))
  }

  /** With a codec that round-trips, decoding an encoded event gives the event back. */
  lemma DecodeEncode(p: Packer, e: Event)
    requires RoundTrips(p)
    ensures DecodeEvent(p, EncodeEvent(p, e)) == Ok(e)
  {
    assert p.unpack(EncodeEvent(p, e).payload) == Some(Dict(EventFields(e)));
  }

  /** A decoded event's fields are exactly the unpacked map when that map has no other key. */
  lemma DecodeExact(p: Packer, m: AmqpMsg)
    requires DecodeEvent(p, m).Ok?
    requires p.unpack(m.payload).value.entries.Keys == {"service", "event", "payload"}
    ensures p.unpack(m.payload) == Some(Dict(EventFields(DecodeEvent(p, m).value)))
  {
    var d := p.unpack(m.payload).value.entries;
    var e := DecodeEvent(p, m).value;
    assert forall k | k in d :: k in EventFields(e) && d[k] == EventFields(e)[k];
    assert d.Keys == EventFields(e).Keys;
    assert d == EventFields(e);
  }
}
