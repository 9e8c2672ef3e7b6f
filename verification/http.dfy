/** The request and response values the mock mode sees, and the per-route
    configuration ("prism") it is handed with every request. */
module Http {
  import opened Json

  /** Header name/value pairs, in the order they are written. */
  type Headers = seq<(string, string)>

  /** Whether the request body has been read off the stream yet. */
  datatype Body = Unread | Captured(text: string)

  /** An incoming request: `stream` is what the body stream would deliver when read
      to the end; `body` is what has been captured so far. */
  datatype Request = Request(verb: string, url: string, headers: Headers, stream: string, body: Body)

  /** What code handed the request object can observe without reading the stream:
      everything but the unread remainder of the body. */
  datatype RequestView = RequestView(verb: string, url: string, headers: Headers, body: Body)

  function View(req: Request): (v: RequestView)
    ensures v.url == req.url && v.body == req.body
  {
    RequestView(req.verb, req.url, req.headers, req.body)
  }

  /** The route settings the mock mode consults: the delay setting handed to the delay
      policy, and whether the fixture path must take the full request body into account. */
  datatype Config = Config(delay: JsonValue, hashFullRequest: bool)

  /** One configured route ("prism"): its name and its settings. */
  datatype Route = Route(name: string, config: Config)

  /** A complete HTTP response: the status and headers passed to `writeHead`, and the body
      the client receives before `end()`. Node adds headers of its own (`Date`, `Connection`,
      the framing header), which are not part of this value. */
  datatype Response = Response(status: int, headers: Headers, body: string)

  /** Whether Node's `http`, in the Node versions of the time, lets the response carry a body. A response to a `HEAD` request
      never does, nor does one whose status is 1xx, 204 or 304: `res.write` on such a
      response returns at once and sends nothing, whatever it is handed. */
  predicate HasBody(verb: string, status: int) {
    verb != "HEAD" && status != 204 && status != 304 && !(100 <= status <= 199)
  }

  /** Reads the whole body stream into the request. Nothing but the body changes. */
  function CaptureBody(req: Request): (r: Request)
    ensures r.body == Captured(req.stream)
    ensures r.(body := req.body) == req
  {
    req.(body := Captured(req.stream))
  }
}
