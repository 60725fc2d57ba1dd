/**
 * The framework-neutral HTTP response: the body is stored as bytes, the
 * status defaults to 200, and a `Content-Type` header is always present,
 * written into the caller's header dictionary when the caller passed a
 * non-empty one.
 */
module HttpResponse {
  import opened Wrappers
  import opened Values
  import opened AmqpData

  const DefaultStatus := 200
  const DefaultContentType := "text/plain"
  const JsonContentType := "application/json"

  /** A header dictionary the caller may keep a reference to. */
  class HeaderDict {
    var entries: map<string, string>

    constructor (entries: map<string, string>)
      ensures this.entries == entries
    {
      this.entries := entries;
    }
  }

  /** What may be passed as the body: nothing, text, or bytes. */
  datatype BodyArg = NoBody | Text(text: string) | Raw(bytes: Bytes)

  /** The stored body: text encoded by `encode`, bytes as they are, nothing as no bytes. */
  function BodyBytes(body: BodyArg, encode: string -> Bytes): (b: Bytes)
    ensures body.NoBody? ==> b == []
    ensures body.Text? ==> b == encode(body.text)
    ensures body.Raw? ==> b == body.bytes
  {
    match body
    case NoBody => []
    case Text(t) => encode(t)
    case Raw(bytes) => bytes
  }

  /** The content type to fall back on: the one given unless it is none or empty, else `text/plain`. */
  function ContentTypeOr(contentType: Option<string>): (ct: string)
    ensures contentType.Some? && contentType.value != "" ==> ct == contentType.value
    ensures contentType.None? || contentType.value == "" ==> ct == DefaultContentType
  {
    if contentType.Some? && contentType.value != "" then contentType.value else DefaultContentType
  }

  /** The headers after the constructor: an existing `Content-Type` kept, otherwise the fallback added; nothing else changes. */
  function WithContentType(entries: map<string, string>, fallback: string): (h: map<string, string>)
    ensures h.Keys == entries.Keys + {"Content-Type"}
    ensures "Content-Type" in entries ==> h == entries
    ensures "Content-Type" !in entries ==> h["Content-Type"] == fallback
    ensures forall k | k in entries && k != "Content-Type" :: h[k] == entries[k]
  {
    entries["Content-Type" := if "Content-Type" in entries then entries["Content-Type"] else fallback]
  }

  class Response {
    const body: Bytes
    const status: int
    const headers: HeaderDict

    /**
     * `Response(body, status, headers, content_type)`: `status` none means
     * it was not passed. A non-empty header dictionary is used as it is,
     * so the caller sees the `Content-Type` written into it; none or an
     * empty one is replaced by a new dictionary.
     */
    constructor (body: BodyArg, status: Option<int>, headers: HeaderDict?, contentType: Option<string>,
                 encode: string -> Bytes)
      modifies headers
      ensures this.body == BodyBytes(body, encode)
      ensures this.status == if status.Some? then status.value else DefaultStatus
      ensures headers != null && old(headers.entries) != map[] ==> this.headers == headers
      ensures headers == null || old(headers.entries) == map[] ==> fresh(this.headers)
      ensures this.headers.entries
              == WithContentType(if headers == null then map[] else old(headers.entries), ContentTypeOr(contentType))
      ensures headers != null && old(headers.entries) == map[] ==> headers.entries == map[]
    {
      var ct := ContentTypeOr(contentType);
      this.body := BodyBytes(body, encode);
      this.status := if status.Some? then status.value else DefaultStatus;
      var h: HeaderDict;
      if headers != null && headers.entries != map[] {
        h := headers;
      } else {
        h := new HeaderDict(map[]);
      }
      this.headers := h;
      new;
      h.entries := WithContentType(h.entries, ct);
    }
  }

  /**
   * `json_response(body, status, headers, content_type)`: the value is
   * dumped to text and handed on; the content type, when not passed, is
   * `application/json`.
   */
  method JsonResponse(body: Value, status: Option<int>, headers: HeaderDict?, contentType: Option<string>,
                      dumps: Value -> string, encode: string -> Bytes) returns (r: Response)
    modifies headers
    ensures fresh(r)
    ensures headers != null && old(headers.entries) != map[] ==> r.headers == headers
    ensures headers == null || old(headers.entries) == map[] ==> fresh(r.headers)
    ensures r.body == encode(dumps(body))
    ensures r.status == if status.Some? then status.value else DefaultStatus
    ensures r.headers.entries
            == WithContentType(if headers == null then map[] else old(headers.entries),
                               ContentTypeOr(Some(if contentType.Some? then contentType.value else JsonContentType)))
  {
    r := new Response(Text(dumps(body)), status, headers,
                      Some(if contentType.Some? then contentType.value else JsonContentType), encode);
  }

  /**
   * A JSON response with no content type passed is `application/json`
   * unless the caller's headers already name one, which is kept.
   */
  method JsonDefaults(body: Value, headers: HeaderDict?, dumps: Value -> string, encode: string -> Bytes)
    returns (r: Response)
    modifies headers
    ensures r.status == 200
    ensures "Content-Type" in r.headers.entries
    ensures headers != null && "Content-Type" in old(headers.entries) ==>
              r.headers.entries["Content-Type"] == old(headers.entries)["Content-Type"]
    ensures headers == null || "Content-Type" !in old(headers.entries) ==>
              r.headers.entries["Content-Type"] == "application/json"
  {
    r := JsonResponse(body, None, headers, None, dumps, encode);
  }
}
