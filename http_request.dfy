/**
 * The framework-neutral HTTP request: the content type, authorization,
 * host, port and client address are read from the headers once, when the
 * request is built; the JSON body is parsed on first use and cached.
 */
module HttpRequest {
  import opened Wrappers
  import opened Strings
  import opened Values
  import opened AmqpData

  /** The headers that may carry the client address, in the order they are consulted. */
  const RemoteAddrHeaders: seq<string> := ["Forwarded", "X-Forwarded-For", "X-Real-IP"]

  /** `headers.get(name, default)`. */
  function HeaderOr(headers: map<string, string>, name: string, default: string): (v: string)
    ensures name in headers ==> v == headers[name]
    ensures name !in headers ==> v == default
  {
    if name in headers then headers[name] else default
  }

  /**
   * The port of a `Host` value: the integer after its first `:` (anything
   * from a second `:` on is cut off), 80 without a `:`; text after the `:`
   * that is not an integer raises `ValueError`.
   */
  function PortOf(host: string): Result<int, PyError>
  {
    var parts := Split(host, ':');
    if |parts| >= 2 then ParseInt(parts[1]) else Ok(80)
  }

  /** A host without a `:` is on port 80. */
  lemma PortWithoutColon(host: string)
    requires ':' !in host
    ensures PortOf(host) == Ok(80)
  {
    SplitNoSep(host, ':');
  }

  /** `name:port` is on that port. */
  lemma PortAfterColon(name: string, port: nat)
    requires ':' !in name
    ensures PortOf(name + ":" + NatToString(port)) == Ok(port)
  {
    var digits := NatToString(port);
    assert ':' !in digits;
    assert name + ":" + digits == name + [':'] + digits;
    SplitFirst(name, digits, ':');
    SplitNoSep(digits, ':');
    ParseNatToString(port);
  }

  /** A `:` with nothing after it is not a port. */
  lemma EmptyPortRaises(name: string)
    requires ':' !in name
    ensures PortOf(name + ":").Err?
  {
    assert name + ":" == name + [':'] + "";
    SplitFirst(name, "", ':');
  }

  /** The client address: the value of the last of `names` the headers hold, else `start`. */
  function LastPresent(names: seq<string>, headers: map<string, string>, start: string): string
  {
    if names == [] then start
    else if names[|names| - 1] in headers then headers[names[|names| - 1]]
    else LastPresent(names[..|names| - 1], headers, start)
  }

  /**
   * Of the address headers, `X-Real-IP` wins over `X-Forwarded-For`, which
   * wins over `Forwarded`; with none of them the given address stands.
   */
  lemma RemoteAddrPrecedence(headers: map<string, string>, start: string)
    ensures var r := LastPresent(RemoteAddrHeaders, headers, start);
            && ("X-Real-IP" in headers ==> r == headers["X-Real-IP"])
            && ("X-Real-IP" !in headers && "X-Forwarded-For" in headers ==> r == headers["X-Forwarded-For"])
            && ("X-Real-IP" !in headers && "X-Forwarded-For" !in headers && "Forwarded" in headers ==>
                  r == headers["Forwarded"])
            && ("X-Real-IP" !in headers && "X-Forwarded-For" !in headers && "Forwarded" !in headers ==>
                  r == start)
  {
    var two, one: seq<string> := ["Forwarded", "X-Forwarded-For"], ["Forwarded"];
    assert RemoteAddrHeaders[..2] == two && two[..1] == one && one[..0] == [];
    assert LastPresent(RemoteAddrHeaders, headers, start)
        == if "X-Real-IP" in headers then headers["X-Real-IP"] else LastPresent(two, headers, start);
    assert LastPresent(two, headers, start)
        == if "X-Forwarded-For" in headers then headers["X-Forwarded-For"] else LastPresent(one, headers, start);
    assert LastPresent(one, headers, start)
        == if "Forwarded" in headers then headers["Forwarded"] else LastPresent([], headers, start);
  }

  /** The parser the body is read with; it raises on text that is not JSON. */
  type Loads = Bytes -> Result<Value, PyError>

  class Request {
    const path: string
    const verb: string
    const body: Bytes
    const headers: map<string, string>
    const query: map<string, Value>
    const contentType: string
    const authorization: string
    const host: string
    const port: int
    const remoteAddr: string
    /** The cached JSON body; `Null` stands for "not parsed yet", as `None` does. */
    var json: Value

    /**
     * The part of `__init__` after the port is known: the content type
     * defaults to `text/plain`, the authorization to the empty string, the
     * host to the empty string; the client address starts as the given one
     * (none or empty gives the empty string) and each address header present
     * overrides it in turn.
     */
    constructor (path: string, verb: string, body: Bytes, headers: map<string, string>,
                 query: map<string, Value>, remoteAddr: Option<string>, port: int)
      ensures this.path == path && this.verb == verb && this.body == body
      ensures this.headers == headers && this.query == query && this.port == port
      ensures contentType == HeaderOr(headers, "Content-Type", "text/plain")
      ensures authorization == HeaderOr(headers, "Authorization", "")
      ensures host == HeaderOr(headers, "Host", "")
      ensures this.remoteAddr ==
                LastPresent(RemoteAddrHeaders, headers, if remoteAddr.Some? then remoteAddr.value else "")
      ensures json == Null
    {
      this.path := path;
      this.verb := verb;
      this.body := body;
      this.headers := headers;
      this.query := query;
      contentType := HeaderOr(headers, "Content-Type", "text/plain");
      authorization := HeaderOr(headers, "Authorization", "");
      host := HeaderOr(headers, "Host", "");
      this.port := port;
      var start := if remoteAddr.Some? then remoteAddr.value else "";
      var addr := start;
      for i := 0 to |RemoteAddrHeaders|
        invariant addr == LastPresent(RemoteAddrHeaders[..i], headers, start)
      {
        assert RemoteAddrHeaders[..i + 1][..i] == RemoteAddrHeaders[..i];
        addr := HeaderOr(headers, RemoteAddrHeaders[i], addr);
      }
      assert RemoteAddrHeaders[..|RemoteAddrHeaders|] == RemoteAddrHeaders;
      this.remoteAddr := addr;
      json := Null;
    }

    /** `json`: parses the body the first time (or while the cache holds `None`) and keeps what it read. */
    method Json(loads: Loads) returns (r: Result<Value, PyError>)
      modifies this
      ensures old(json) != Null ==> r == Ok(old(json)) && json == old(json)
      ensures old(json) == Null ==> r == loads(body) && json == (if r.Ok? then r.value else Null)
    {
      if json == Null {
        var parsed := loads(body);
        if parsed.Err? {
          return parsed;
        }
        json := parsed.value;
      }
      return Ok(json);
    }

    /** Once the body has parsed to something other than `null`, later reads answer it without parsing again. */
    method JsonTwice(loads: Loads, again: Loads) returns (first: Result<Value, PyError>, second: Result<Value, PyError>)
      modifies this
      ensures first.Ok? && first.value != Null ==> second == first
    {
      first := Json(loads);
      second := Json(again);
    }
  }

  /**
   * `Request(...)`: reads the port from the `Host` header first; a port that
   * is not an integer raises and no request is built.
   */
  method NewRequest(path: string, verb: string, body: Bytes, headers: map<string, string>,
                    query: map<string, Value>, remoteAddr: Option<string>) returns (r: Result<Request, PyError>)
    ensures r.Err? <==> PortOf(HeaderOr(headers, "Host", "")).Err?
    ensures r.Err? ==> r.error == PortOf(HeaderOr(headers, "Host", "")).error
    ensures r.Ok? ==> fresh(r.value) && r.value.port == PortOf(HeaderOr(headers, "Host", "")).value
                      && r.value.host == HeaderOr(headers, "Host", "") && r.value.headers == headers
                      && r.value.json == Null
  {
    var port := PortOf(HeaderOr(headers, "Host", ""));
    if port.Err? {
      return Err(port.error);
    }
    var req := new Request(path, verb, body, headers, query, remoteAddr, port.value);
    return Ok(req);
  }
}
