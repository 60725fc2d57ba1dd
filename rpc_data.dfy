/**
 * The call and response records of the RPC layers and the five status codes
 * they exchange. The codes are the HTTP statuses the packages bind them to.
 */
module RpcData {
  import opened Values

  const StatusOk := 200
  const StatusServiceNotFound := 404
  const StatusMethodNotFound := 405
  const StatusCallError := 500
  const StatusCallArgsMismatch := 400

  /** Every status a dispatcher can answer with. */
  const Statuses := {StatusOk, StatusServiceNotFound, StatusMethodNotFound, StatusCallError,
                     StatusCallArgsMismatch}

  /** No two of the five codes coincide, so a status names its outcome unambiguously. */
  lemma StatusesDistinct()
    ensures |Statuses| == 5
  {
    var s1 := {StatusOk};
    var s2 := s1 + {StatusServiceNotFound};
    var s3 := s2 + {StatusMethodNotFound};
    var s4 := s3 + {StatusCallError};
    assert Statuses == s4 + {StatusCallArgsMismatch};
  }

  /** A call addressed to method `methodName` of `service`, reachable through `route`. */
  datatype RpcCall = RpcCall(route: string, service: string, methodName: string, args: seq<Value>)

  datatype RpcResp = RpcResp(status: int, body: Value)
  {
    /** The `ok` property. */
    predicate IsOk() {
      status == StatusOk
    }
  }

  /** A response built with the status alone: its body is `None`. */
  function Resp(status: int): (r: RpcResp)
    ensures r.status == status && r.body == Null
    ensures r.IsOk() <==> status == StatusOk
  {
    RpcResp(status, Null)
  }
}

/**
 * The records of the callback-driven RPC connection: encoded calls and
 * responses travel as a payload with its content type, and calls carry no
 * route of their own.
 */
module PlainRpcData {
  import opened Values

  /** HTTP 200, the only status `ok` accepts. */
  const HttpOk := 200

  datatype RawRpcResp = RawRpcResp(payload: string, contentType: string)

  datatype RawRpcCall = RawRpcCall(route: string, payload: string, contentType: string)

  datatype RpcCall = RpcCall(service: string, methodName: string, args: seq<Value>)

  datatype RpcResp = RpcResp(status: int, body: Value)
  {
    predicate IsOk() {
      status == HttpOk
    }
  }
}
