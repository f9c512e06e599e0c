/** The request proxy: stamps every request with a trace id and refuses
    API writes that are not JSON. */
module Proxy {
  import opened Strings

  /** A request: path, method, and headers keyed by lower-case name. */
  datatype Request = Request(path: string, httpMethod: string, headers: map<string, string>)

  datatype Decision = Reject(status: nat) | Forward(headers: map<string, string>)

  const TraceHeader := "x-control-plane-trace-id"
  const ContentTypeHeader := "content-type"
  const JsonMediaType := "application/json"
  const UnsupportedMediaType := 415

  /** Whether the proxy refuses the request: a path under the plain
      prefix `/api`, a method other than GET, and a content type that is
      not exactly `application/json` (or none at all). */
  predicate Refused(req: Request)
  {
    && StartsWith(req.path, "/api")
    && req.httpMethod != "GET"
    && !(ContentTypeHeader in req.headers && req.headers[ContentTypeHeader] == JsonMediaType)
  }

  /** `proxy(request)`, with `traceId` the fresh UUID. */
  function ProxyDecision(req: Request, traceId: string): (d: Decision)
    ensures d.Reject? <==> Refused(req)
    ensures d.Reject? ==> d.status == UnsupportedMediaType
    ensures d.Forward? ==> TraceHeader in d.headers && d.headers[TraceHeader] == traceId
    ensures d.Forward? ==> forall k :: k != TraceHeader ==>
      (k in d.headers <==> k in req.headers) && (k in req.headers ==> d.headers[k] == req.headers[k])
  {
    if Refused(req) then Reject(UnsupportedMediaType)
    else Forward(req.headers[TraceHeader := traceId])
  }

  /** GET requests and paths outside `/api` always pass. */
  lemma PassesThrough(req: Request, traceId: string)
    requires req.httpMethod == "GET" || !StartsWith(req.path, "/api")
    ensures ProxyDecision(req, traceId).Forward?
  {
  }

  /** The comparison is by exact string: a JSON content type with a charset
      parameter is refused. */
  lemma CharsetParameterRefused(path: string, traceId: string)
    requires StartsWith(path, "/api")
    ensures ProxyDecision(Request(path, "POST", map[ContentTypeHeader := "application/json; charset=utf-8"]),
                          traceId) == Reject(UnsupportedMediaType)
  {
    assert "application/json; charset=utf-8" != JsonMediaType by {
      assert |"application/json; charset=utf-8"| != |JsonMediaType|;
    }
  }

  /** The prefix test is on characters, not path segments: `/apix` is
      gated too. */
  lemma PrefixNotSegment(traceId: string)
    ensures ProxyDecision(Request("/apix", "POST", map[]), traceId) == Reject(UnsupportedMediaType)
  {
    assert StartsWith("/apix", "/api") by {
      assert "/apix"[..4] == "/api";
    }
  }
}
