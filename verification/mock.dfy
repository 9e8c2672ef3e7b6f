/** The mock mode's request dispatcher (lib/modes/mock.js).

    Every function is pure: the fixture store goes in, the store as it stands once the
    issued writes land comes out, together with the ordered trace of effects
    (response written, store write issued, log lines). The path hashing, the delay
    policy and JSON serialisation are collaborators whose code is not part of this
    model; they enter as the total functions of `Collaborators`. */
module Mock {
  import opened Json
  import opened Decimal
  import opened Http
  import opened Fixtures
  import opened Trace

  /** The code the dispatcher calls but that is not modelled here. */
  datatype Collaborators = Collaborators(
    mockPath: (Route, RequestView) -> string,  // responseHash.getMockPath(prism, req)
    delayTimeInMs: JsonValue -> nat,        // responseDelay.delayTimeInMs(prism.config.delay)
    stringify: JsonValue -> string)         // JSON.stringify(data)

  /** The store after the request's writes, and what the request did, in order. */
  datatype Outcome = Outcome(store: Store, trace: seq<Event>)

  const ContentTypeHeader := "Content-Type"
  const NotFoundStatus := 404
  const NotFoundContentType := "text/plain"
  const MockedLabel := "Mocked"

  /** What `res.write` throws when handed something other than a string, on a response
      that may carry a body. */
  const WriteRejected := "first argument must be a string or Buffer"

  function NotFoundBody(url: string, path: string): string {
    "No mock exists for " + url + " - (" + path + ")"
  }

  function DelayedMessage(ms: nat, url: string): string {
    "Mock response delayed by " + FromNat(ms) + " ms for: " + url
  }

  function DispatchMessage(url: string, path: string): string {
    "Dispatching request " + url + " from " + path
  }

  function SerializedMessage(url: string, key: string): string {
    "Serialized empty 404 response for " + url + " to " + key
  }

  function ReturnedNotFoundMessage(url: string): string {
    "Returned 404 for: " + url
  }

  /** The request the dispatch works on: the incoming one, with its body read to the end
      when the route hashes the full request. */
  function Seen(req: Request, route: Route): (r: Request)
    ensures r.url == req.url
    ensures r.(body := req.body) == req
    ensures route.config.hashFullRequest ==> r.body == Captured(req.stream)
  {
    if route.config.hashFullRequest then CaptureBody(req) else req
  }

  /** The request as the fixture path is derived from it. */
  function PathView(req: Request, route: Route): RequestView {
    View(Seen(req, route))
  }

  /** The fixture path the request resolves to. */
  function FixturePath(c: Collaborators, req: Request, route: Route): string {
    c.mockPath(route, PathView(req, route))
  }

  /** The artificial latency the route asks for. */
  function Delay(c: Collaborators, route: Route): nat {
    c.delayTimeInMs(route.config.delay)
  }

  /** Node's `setTimeout` limit: a delay above it, or below one millisecond, is replaced
      by one millisecond. */
  const TimeoutMax := 2147483647

  /** The time after which the timer callback actually runs for a requested delay. */
  function TimerDelay(ms: nat): (d: nat)
    ensures 1 <= d <= TimeoutMax
    ensures 1 <= ms <= TimeoutMax ==> d == ms
    ensures ms == 0 || ms > TimeoutMax ==> d == 1
  {
    if 1 <= ms <= TimeoutMax then ms else 1
  }

  /** Every key the store gained or changed holds an empty placeholder at a `.404` key,
      and no key was removed. */
  ghost predicate ChangesArePlaceholders(before: Store, after: Store) {
    && before.Keys <= after.Keys
    && forall k :: k in after && (k !in before || after[k] != before[k]) ==>
         IsPlaceholderKey(k) && IsEmptyMock(after[k])
  }

  /** Entry point (`handleRequest`): when the route hashes the full request the body is
      read to the end first, and only then is the fixture path derived. Whatever the
      branch, `writeHead` is called exactly once and the store only gains or changes
      placeholder records. */
  function HandleRequest(c: Collaborators, store: Store, req: Request, route: Route): (o: Outcome)
    ensures |o.trace| > 0
    ensures o.trace[0] == BodyCaptured <==> route.config.hashFullRequest
    ensures ResponseCount(o.trace) == 1
    ensures ChangesArePlaceholders(store, o.store)
  {
    if route.config.hashFullRequest then
      var o := GetMockPath(c, store, CaptureBody(req), route);
      ResponseCountAppend([BodyCaptured], o.trace);
      Outcome(o.store, [BodyCaptured] + o.trace)
    else
      GetMockPath(c, store, req, route)
  }

  /** Whatever the branch, an aborted response is the last effect of a request: only the
      replay of a number or boolean aborts, and it does so at the end of the timer callback's
      trace. */
  lemma AbortEndsRequest(c: Collaborators, store: Store, req: Request, route: Route)
    ensures AbortIsLast(HandleRequest(c, store, req, route).trace)
  {
    var seen := Seen(req, route);
    var path := c.mockPath(route, View(seen));
    var t := GetMockPath(c, store, seen, route).trace;
    if path !in store {
      var placeholder := SerializeEmptyMock(store, seen, path);
      assert t == [Respond(Write404(seen.verb, seen.url, path))] + placeholder.trace
        + [Log(Verbose, ReturnedNotFoundMessage(seen.url))];
      assert forall i :: 0 <= i < |t| ==> !t[i].Abort?;
    }
    if route.config.hashFullRequest {
      AbortIsLastAppend([BodyCaptured], t);
    }
  }

  /** Derives the fixture path, asks the store whether it exists, and replays the fixture
      on a hit or answers 404 and writes a placeholder on a miss. */
  function GetMockPath(c: Collaborators, store: Store, req: Request, route: Route): (o: Outcome)
    ensures |o.trace| > 0 && o.trace[0] != BodyCaptured
    ensures ResponseCount(o.trace) == 1
    ensures ChangesArePlaceholders(store, o.store)
  {
    var path := c.mockPath(route, View(req));
    if path in store then
      Outcome(store, MockResponse(c, store, path, route, req))
    else
      var placeholder := SerializeEmptyMock(store, req, path);
      var t := [Respond(Write404(req.verb, req.url, path))] + placeholder.trace
        + [Log(Verbose, ReturnedNotFoundMessage(req.url))];
      assert ResponseCount(t) == 1 by {
        assert t[1..] == placeholder.trace + [Log(Verbose, ReturnedNotFoundMessage(req.url))];
        ResponseCountAppend(placeholder.trace, [Log(Verbose, ReturnedNotFoundMessage(req.url))]);
      }
      Outcome(placeholder.store, t)
  }

  /** The hit branch (`mockResponse`): wait the route's delay, replay the fixture, then,
      unless the write threw, run the rest of the timer callback: the replay logs. */
  function MockResponse(c: Collaborators, store: Store, path: string, route: Route, req: Request): (t: seq<Event>)
    requires path in store
    ensures |t| >= 2 && t[0] == Wait(TimerDelay(Delay(c, route)))
    ensures t[1] == WriteResponse(c, store, path, req.verb)
    ensures ResponseCount(t) == 1
    ensures WritesNothing(t)
    ensures AbortIsLast(t)
    ensures t[1].Abort? ==> |t| == 2
    ensures t[1].Respond? ==> t == [t[0], t[1]] + ReplayLogs(Delay(c, route), path, route, req)
  {
    var delay := Delay(c, route);
    var written := WriteResponse(c, store, path, req.verb);
    if written.Abort? then
      [Wait(TimerDelay(delay)), written]
    else
      var logs := ReplayLogs(delay, path, route, req);
      ResponseThenSteps([Wait(TimerDelay(delay)), written], logs);
      [Wait(TimerDelay(delay)), written] + logs
  }

  /** Behind the timer step and a written response, the verbose channel carries the
      "delayed by" line exactly when the delay is positive, and nothing at all otherwise. */
  lemma ReplayVerbose(delay: nat, written: Event, path: string, route: Route, req: Request)
    requires !written.Log?
    ensures var t := [Wait(TimerDelay(delay)), written] + ReplayLogs(delay, path, route, req);
      && (Logs(t, Verbose, DelayedMessage(delay, req.url)) <==> delay > 0)
      && (delay == 0 ==> forall i :: 0 <= i < |t| ==> !(t[i].Log? && t[i].channel == Verbose))
  {
    var logs := ReplayLogs(delay, path, route, req);
    var t := [Wait(TimerDelay(delay)), written] + logs;
    if delay == 0 {
      forall i | 0 <= i < |t|
        ensures !(t[i].Log? && t[i].channel == Verbose)
      {
        if i >= 2 {
          assert t[i] == logs[i - 2];
        }
      }
    }
  }

  /** Behind the timer step and a written response, the replay logs keep their order: the
      response, then the "delayed by" line when there is one, then the dispatch line, then
      the success event. */
  lemma ReplayOrder(delay: nat, written: Event, path: string, route: Route, req: Request)
    ensures var t := [Wait(TimerDelay(delay)), written] + ReplayLogs(delay, path, route, req);
      && Before(t, written, Success("Mocked", req, route))
      && Before(t, written, Log(Standard, DispatchMessage(req.url, path)))
      && Before(t, Log(Standard, DispatchMessage(req.url, path)), Success("Mocked", req, route))
      && (delay > 0 ==> Before(t, written, Log(Verbose, DelayedMessage(delay, req.url))))
      && (delay > 0 ==>
            Before(t, Log(Verbose, DelayedMessage(delay, req.url)), Log(Standard, DispatchMessage(req.url, path))))
  {
    var p := [Wait(TimerDelay(delay)), written];
    var logs := ReplayLogs(delay, path, route, req);
    var t := p + logs;
    assert t[1] == written;
    assert t[|t| - 1] == logs[|logs| - 1] && t[|t| - 2] == logs[|logs| - 2];
    BeforeAfterPrefix(p, logs, Log(Standard, DispatchMessage(req.url, path)), Success(MockedLabel, req, route));
    if delay > 0 {
      assert t[2] == Log(Verbose, DelayedMessage(delay, req.url));
      BeforeAfterPrefix(p, logs, Log(Verbose, DelayedMessage(delay, req.url)), Log(Standard, DispatchMessage(req.url, path)));
    }
  }

  /** What the timer callback logs once the fixture is written: the delay when it is
      non-zero, the dispatch line, and the success event, in that order. */
  function ReplayLogs(delay: nat, path: string, route: Route, req: Request): (t: seq<Event>)
    ensures |t| == (if delay > 0 then 3 else 2)
    ensures t[0].Log? && t[|t| - 1] == Success("Mocked", req, route)
    ensures ResponseCount(t) == 0 && WritesNothing(t) && AbortIsLast(t) && !Aborted(t)
    ensures Before(t, Log(Standard, DispatchMessage(req.url, path)), Success("Mocked", req, route))
    ensures delay > 0 ==>
      Before(t, Log(Verbose, DelayedMessage(delay, req.url)), Log(Standard, DispatchMessage(req.url, path)))
    ensures t[|t| - 2] == Log(Standard, DispatchMessage(req.url, path))
    ensures Logs(t, Verbose, DelayedMessage(delay, req.url)) <==> delay > 0
    ensures delay == 0 ==> forall i :: 0 <= i < |t| ==> !(t[i].Log? && t[i].channel == Verbose)
  {
    var dispatched := [Log(Standard, DispatchMessage(req.url, path)), Success(MockedLabel, req, route)];
    if delay > 0 then [Log(Verbose, DelayedMessage(delay, req.url))] + dispatched else dispatched
  }

  /** Whether the replay's `res.write` returns normally: the response may not carry a body,
      so the write is ignored, or the data is a string or something `typeof` calls
      "object". */
  predicate WriteReturns(verb: string, f: Fixture) {
    !HasBody(verb, f.statusCode) || !(f.data.JNumber? || f.data.JBool?)
  }

  /** Replays one stored fixture (`writeResponse`) for a request with method `verb`: status
      and `Content-Type` come from the record; an object, array or null `data` is written as
      its JSON text, a string as is. On a response that may not carry a body the write is
      ignored and an empty response is sent. Otherwise a number or boolean reaches
      `res.write` unconverted, which throws: the stored status line is never sent and the
      response never ends. */
  function WriteResponse(c: Collaborators, store: Store, path: string, verb: string): (e: Event)
    requires path in store
    ensures IsResponse(e)
    ensures e.Respond? <==> WriteReturns(verb, store[path])
    ensures e.Respond? ==>
      e.response.status == store[path].statusCode
      && e.response.headers == [("Content-Type", store[path].contentType)]
    ensures e.Abort? ==>
      e.status == store[path].statusCode
      && e.headers == [("Content-Type", store[path].contentType)]
      && e.reason == WriteRejected
    ensures !HasBody(verb, store[path].statusCode) ==> e.Respond? && e.response.body == ""
    ensures HasBody(verb, store[path].statusCode) && store[path].data.JString? ==>
      e.Respond? && e.response.body == store[path].data.s
    ensures HasBody(verb, store[path].statusCode) && TypeOf(store[path].data) == "object" ==>
      e.Respond? && e.response.body == c.stringify(store[path].data)
  {
    var fixture := store[path];
    var head := [(ContentTypeHeader, fixture.contentType)];
    var data := if TypeOf(fixture.data) == "object" then JString(c.stringify(fixture.data)) else fixture.data;
    if !HasBody(verb, fixture.statusCode) then
      Respond(Response(fixture.statusCode, head, ""))
    else if data.JString? then
      Respond(Response(fixture.statusCode, head, data.s))
    else
      Abort(fixture.statusCode, head, WriteRejected)
  }

  /** The miss response (`write404`): a plain-text 404 that names the URL and the path,
      except that a `HEAD` request gets the status line and header without the body. */
  function Write404(verb: string, url: string, path: string): (r: Response)
    ensures r.status == 404
    ensures r.headers == [("Content-Type", "text/plain")]
    ensures verb != "HEAD" ==> r.body == "No mock exists for " + url + " - (" + path + ")"
    ensures verb == "HEAD" ==> r.body == ""
  {
    var body := if HasBody(verb, NotFoundStatus) then NotFoundBody(url, path) else "";
    Response(NotFoundStatus, [(ContentTypeHeader, NotFoundContentType)], body)
  }

  /** Issues a whole-record overwrite of `path` (`writeMockToDisk`). Once it lands, `path`
      holds `record` and every other key is as it was. */
  function WriteMockToDisk(store: Store, record: Fixture, path: string): (o: Outcome)
    ensures o.store.Keys == store.Keys + {path}
    ensures o.store[path] == record
    ensures forall k :: k in store && k != path ==> o.store[k] == store[k]
    ensures o.trace == [StoreWrite(path, record)]
  {
    Outcome(store[path := record], [StoreWrite(path, record)])
  }

  /** Writes the placeholder for a missed request (`serializeEmptyMock`) at the sibling key
      `path + ".404"`, leaving the missed path itself absent, then logs the write. */
  function SerializeEmptyMock(store: Store, req: Request, path: string): (o: Outcome)
    ensures o.store.Keys == store.Keys + {path + ".404"}
    ensures o.store[path + ".404"] == EmptyMock(req.url)
    ensures forall k :: k in store && k != path + ".404" ==> o.store[k] == store[k]
    ensures path in o.store <==> path in store
    ensures |o.trace| == 2 && o.trace[0] == StoreWrite(path + ".404", EmptyMock(req.url))
    ensures o.trace[1] == Log(Standard, SerializedMessage(req.url, path + ".404"))
    ensures ResponseCount(o.trace) == 0
  {
    var response := EmptyMock(req.url);
    var key := PlaceholderKey(path);
    PlaceholderKeyIsSibling(path);
    var written := WriteMockToDisk(store, response, key);
    Outcome(written.store, written.trace + [Log(Standard, SerializedMessage(req.url, key))])
  }
}
