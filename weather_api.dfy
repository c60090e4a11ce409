/**
 * The serverless weather proxy: from the request's method and query, the
 * presence of the API key and the outcome of the upstream call, decide the
 * response's status and body. CORS headers go on every response. The
 * upstream call is an input: what `fetch` and `response.json()` would give.
 */
module WeatherApi {
  import opened Wrappers

  const MethodNotAllowed := "M\U{E9}todo no permitido"
  const MissingCoordinates := "Se requieren los par\U{E1}metros lat y lon"
  const MissingConfiguration := "Configuraci\U{F3}n del servidor incompleta"
  const UpstreamFailed := "Error al obtener datos del clima"
  const InternalError := "Error interno del servidor"

  /** The three CORS headers set before any branch. */
  const CorsHeaders: map<string, string> := map[
    "Access-Control-Allow-Origin" := "*",
    "Access-Control-Allow-Methods" := "GET, OPTIONS",
    "Access-Control-Allow-Headers" := "Content-Type"]

  /** `req.method` (named `verb` here) and the two query parameters, absent or given as text. */
  datatype Request = Request(verb: string, lat: Option<string>, lon: Option<string>)

  /** The body of the upstream response as `response.json()` reads it. */
  datatype UpstreamBody =
    | Malformed
    /** The JSON literal `null`: reading `.error` off it throws a `TypeError`. */
    | JsonNull
    /** Any other parsed JSON: its text, forwarded as is, and `error.message` when that is a string. */
    | Json(text: string, errorMessage: Option<string>)

  /** What the upstream `fetch` gives: a thrown error, or a response. */
  datatype Upstream = FetchThrew | Responded(ok: bool, status: int, body: UpstreamBody)

  /** A response as `fetch` builds it: `ok` holds exactly for a status from 200 to 299. */
  predicate WellFormed(u: Upstream) {
    u.Responded? ==> (u.ok <==> 200 <= u.status <= 299)
  }

  datatype Body =
    | Empty
    | ErrorJson(error: string)
    | Forwarded(text: string)

  datatype Reply = Reply(status: int, body: Body)

  /** JavaScript truthiness of an optional text: present and non-empty. */
  function Truthy(s: Option<string>): (truthy: bool)
    ensures !truthy <==> s.None? || |s.value| == 0
  {
    s.Some? && s.value != ""
  }

  /** The request reaches the upstream call: a GET with both coordinates and a key. */
  function ReachesUpstream(req: Request, apiKey: Option<string>): (reaches: bool)
    ensures reaches <==>
      && req.verb == "GET"
      && req.lat.Some? && |req.lat.value| > 0
      && req.lon.Some? && |req.lon.value| > 0
      && apiKey.Some? && |apiKey.value| > 0
  {
    req.verb == "GET" && Truthy(req.lat) && Truthy(req.lon) && Truthy(apiKey)
  }

  /** The reply once the upstream has been called. */
  function UpstreamReply(upstream: Upstream): (r: Reply)
    ensures upstream.FetchThrew? ==> r == Reply(500, ErrorJson(InternalError))
    ensures upstream.Responded? && !upstream.ok && upstream.body.JsonNull? ==>
      r == Reply(500, ErrorJson(InternalError))
    ensures upstream.Responded? && !upstream.ok && !upstream.body.JsonNull? ==>
      r.status == upstream.status && r.body.ErrorJson? &&
      r.body.error == (if upstream.body.Json? && Truthy(upstream.body.errorMessage)
                       then upstream.body.errorMessage.value else UpstreamFailed)
    ensures upstream.Responded? && upstream.ok ==>
      r == (if upstream.body.Json? then Reply(200, Forwarded(upstream.body.text))
            else if upstream.body.JsonNull? then Reply(200, Forwarded("null"))
            else Reply(500, ErrorJson(InternalError)))
  {
    match upstream
    case FetchThrew => Reply(500, ErrorJson(InternalError))
    case Responded(ok, status, body) =>
      if !ok then
        if body.JsonNull? then
          // `errorData.error` on `null` throws inside the try block
          Reply(500, ErrorJson(InternalError))
        else
          // `response.json().catch(() => ({}))`: an unreadable body has no message
          var message := if body.Json? then body.errorMessage else None;
          Reply(status, ErrorJson(if Truthy(message) then message.value else UpstreamFailed))
      else if body.JsonNull? then
        Reply(200, Forwarded("null"))
      else if body.Malformed? then
        // `await response.json()` throws inside the try block
        Reply(500, ErrorJson(InternalError))
      else
        Reply(200, Forwarded(body.text))
  }

  /** The handler's decision table, in the order its early returns are written. */
  function Dispatch(req: Request, apiKey: Option<string>, upstream: Upstream): (r: Reply)
    ensures req.verb == "OPTIONS" ==> r == Reply(200, Empty)
    ensures req.verb != "OPTIONS" && req.verb != "GET" ==> r == Reply(405, ErrorJson(MethodNotAllowed))
    ensures req.verb == "GET" && !(Truthy(req.lat) && Truthy(req.lon)) ==>
      r == Reply(400, ErrorJson(MissingCoordinates))
    ensures req.verb == "GET" && Truthy(req.lat) && Truthy(req.lon) && !Truthy(apiKey) ==>
      r == Reply(500, ErrorJson(MissingConfiguration))
    ensures ReachesUpstream(req, apiKey) ==> r == UpstreamReply(upstream)
    ensures r.body.Empty? ==> req.verb == "OPTIONS"
  {
    if req.verb == "OPTIONS" then Reply(200, Empty)
    else if req.verb != "GET" then Reply(405, ErrorJson(MethodNotAllowed))
    else if !Truthy(req.lat) || !Truthy(req.lon) then Reply(400, ErrorJson(MissingCoordinates))
    else if !Truthy(apiKey) then Reply(500, ErrorJson(MissingConfiguration))
    else UpstreamReply(upstream)
  }

  /** Before the upstream call, the reply does not depend on the upstream at all. */
  lemma UpstreamOnlyWhenReached(req: Request, apiKey: Option<string>, u1: Upstream, u2: Upstream)
    requires !ReachesUpstream(req, apiKey)
    ensures Dispatch(req, apiKey, u1) == Dispatch(req, apiKey, u2)
  {
  }

  /**
   * For a response `fetch` can produce, a 200 reply is the preflight, or an
   * ok upstream response whose parsed body is passed through unchanged.
   */
  lemma SuccessIsPreflightOrPassThrough(req: Request, apiKey: Option<string>, upstream: Upstream)
    requires WellFormed(upstream)
    requires Dispatch(req, apiKey, upstream).status == 200
    ensures req.verb == "OPTIONS" ||
      (ReachesUpstream(req, apiKey) && upstream.Responded? && upstream.ok &&
       ((upstream.body.Json? && Dispatch(req, apiKey, upstream).body == Forwarded(upstream.body.text)) ||
        (upstream.body.JsonNull? && Dispatch(req, apiKey, upstream).body == Forwarded("null"))))
  {
  }

  /**
   * The Node response object as the handler drives it: headers set one by
   * one, the status, and the body once the response is ended.
   */
  class ServerResponse {
    var headers: map<string, string>
    var statusCode: int
    var body: Option<Body>

    /** A fresh response: no headers, Node's default status 200, not yet ended. */
    constructor ()
      ensures headers == map[] && statusCode == 200 && body.None?
    {
      headers := map[];
      statusCode := 200;
      body := None;
    }

    method SetHeader(name: string, value: string)
      modifies this
      ensures headers == old(headers)[name := value]
      ensures statusCode == old(statusCode) && body == old(body)
    {
      headers := headers[name := value];
    }

    /** `res.status(code).end()` or `res.status(code).json(body)`. */
    method Send(code: int, b: Body)
      modifies this
      ensures statusCode == code && body == Some(b) && headers == old(headers)
    {
      statusCode := code;
      body := Some(b);
    }
  }

  /** `handler(req, res)`: headers first, then the early returns in source order. */
  method Handler(req: Request, apiKey: Option<string>, upstream: Upstream, res: ServerResponse)
    modifies res
    ensures res.headers == old(res.headers) + CorsHeaders
    ensures res.body.Some?
    ensures Reply(res.statusCode, res.body.value) == Dispatch(req, apiKey, upstream)
  {
    res.SetHeader("Access-Control-Allow-Origin", "*");
    res.SetHeader("Access-Control-Allow-Methods", "GET, OPTIONS");
    res.SetHeader("Access-Control-Allow-Headers", "Content-Type");
    ghost var withCors := res.headers;
    assert withCors == old(res.headers) + CorsHeaders;

    if req.verb == "OPTIONS" {
      res.Send(200, Empty);
      return;
    }

    if req.verb != "GET" {
      res.Send(405, ErrorJson(MethodNotAllowed));
      return;
    }

    if !Truthy(req.lat) || !Truthy(req.lon) {
      res.Send(400, ErrorJson(MissingCoordinates));
      return;
    }

    if !Truthy(apiKey) {
      res.Send(500, ErrorJson(MissingConfiguration));
      return;
    }

    match upstream {
      case FetchThrew =>
        res.Send(500, ErrorJson(InternalError));
      case Responded(ok, status, body) =>
        if !ok {
          if body.JsonNull? {
            res.Send(500, ErrorJson(InternalError));
            return;
          }
          var message := if body.Json? then body.errorMessage else None;
          res.Send(status, ErrorJson(if Truthy(message) then message.value else UpstreamFailed));
          return;
        }
        if body.JsonNull? {
          res.Send(200, Forwarded("null"));
          return;
        }
        if body.Malformed? {
          res.Send(500, ErrorJson(InternalError));
          return;
        }
        res.Send(200, Forwarded(body.text));
    }
  }
}
