/** What one call of the mock mode's entry point promises, stated over the whole
    outcome of `Mock.HandleRequest`: its response, its store and the order of its effects. */
module MockProperties {
  import opened Json
  import opened Decimal
  import opened Http
  import opened Fixtures
  import opened Trace
  import opened Mock

  /** Data the replay path can write: a string, or anything `typeof` calls "object". */
  predicate Replayable(v: JsonValue) {
    v.JString? || v.JNull? || v.JArray? || v.JObject?
  }

  /** Reference text of a replayed body: the JSON text of a structured value; a string
      is its own text. */
  function ReplayText(c: Collaborators, v: JsonValue): string
    requires Replayable(v)
  {
    match v
    case JString(s) => s
    case _ => c.stringify(v)
  }

  /** The outcome is the dispatch outcome, behind the body-capture step when there is one. */
  lemma HandleRequestUnfolds(c: Collaborators, store: Store, req: Request, route: Route)
    ensures var o := HandleRequest(c, store, req, route);
      var inner := GetMockPath(c, store, Seen(req, route), route);
      && o.store == inner.store
      && (route.config.hashFullRequest ==> o.trace == [BodyCaptured] + inner.trace)
      && (!route.config.hashFullRequest ==> o.trace == inner.trace)
  {
  }

  /** A step in front of a trace that is not a response leaves its response alone. */
  lemma {:induction false} ResponseOfUnderPrefix(x: Event, t: seq<Event>)
    requires !IsResponse(x) && ResponseCount(t) >= 1
    ensures ResponseCount([x] + t) >= 1 && ResponseOf([x] + t) == ResponseOf(t)
  {
    assert ([x] + t)[0] == x && ([x] + t)[1..] == t;
  }

  /** The dispatch itself never reads the body: no effect of it is a body capture. */
  lemma DispatchNeverCaptures(c: Collaborators, store: Store, seen: Request, route: Route)
    ensures var t := GetMockPath(c, store, seen, route).trace;
      forall i :: 0 <= i < |t| ==> t[i] != BodyCaptured
  {
    var path := c.mockPath(route, View(seen));
    var t := GetMockPath(c, store, seen, route).trace;
    if path in store {
      assert t == MockResponse(c, store, path, route, seen);
      if t[1].Respond? {
        var logs := ReplayLogs(Delay(c, route), path, route, seen);
        forall i | 2 <= i < |t|
          ensures t[i] != BodyCaptured
        {
          assert t[i] == logs[i - 2];
        }
      }
    } else {
      MissDispatchLogs(c, store, seen, route);
    }
  }

  /** Body capture happens at most once: only as the very first effect, and only when the
      route hashes the full request. */
  lemma BodyCapturedOnlyFirst(c: Collaborators, store: Store, req: Request, route: Route)
    ensures var t := HandleRequest(c, store, req, route).trace;
      forall i :: 0 <= i < |t| && t[i] == BodyCaptured ==> i == 0 && route.config.hashFullRequest
  {
    var seen := Seen(req, route);
    var inner := GetMockPath(c, store, seen, route).trace;
    var t := HandleRequest(c, store, req, route).trace;
    HandleRequestUnfolds(c, store, req, route);
    DispatchNeverCaptures(c, store, seen, route);
    if route.config.hashFullRequest {
      forall i | 1 <= i < |t|
        ensures t[i] != BodyCaptured
      {
        assert t[i] == inner[i - 1];
      }
    }
  }

  /** The miss branch of the dispatch, before any body-capture step is put in front. */
  lemma MissDispatch(c: Collaborators, store: Store, seen: Request, route: Route)
    requires c.mockPath(route, View(seen)) !in store
    ensures var o := GetMockPath(c, store, seen, route);
      var path := c.mockPath(route, View(seen));
      var key := PlaceholderKey(path);
      && o.trace[0] == Respond(Write404(seen.verb, seen.url, path))
      && ResponseOf(o.trace) == o.trace[0]
      && (forall i :: 0 <= i < |o.trace| ==> !o.trace[i].Wait?)
      && Before(o.trace, o.trace[0], StoreWrite(key, EmptyMock(seen.url)))
      && path !in o.store
      && o.store.Keys == store.Keys + {key}
      && o.store[key] == EmptyMock(seen.url)
      && (forall k :: k in store && k != key ==> o.store[k] == store[k])
  {
    var path := c.mockPath(route, View(seen));
    var placeholder := SerializeEmptyMock(store, seen, path);
    var t := GetMockPath(c, store, seen, route).trace;
    PlaceholderKeyIsSibling(path);
    assert t == [Respond(Write404(seen.verb, seen.url, path))] + placeholder.trace
      + [Log(Verbose, ReturnedNotFoundMessage(seen.url))];
    assert t[1] == StoreWrite(PlaceholderKey(path), EmptyMock(seen.url));
  }

  /** The log lines of the miss branch of the dispatch: the placeholder write, then the
      standard line naming the URL and the placeholder key, then the verbose "Returned 404"
      line, and these are the last three effects. */
  lemma MissDispatchLogs(c: Collaborators, store: Store, seen: Request, route: Route)
    requires c.mockPath(route, View(seen)) !in store
    ensures var t := GetMockPath(c, store, seen, route).trace;
      var key := PlaceholderKey(c.mockPath(route, View(seen)));
      && |t| == 4
      && t[0] == Respond(Write404(seen.verb, seen.url, c.mockPath(route, View(seen))))
      && t[1] == StoreWrite(key, EmptyMock(seen.url))
      && t[2] == Log(Standard, SerializedMessage(seen.url, key))
      && t[3] == Log(Verbose, ReturnedNotFoundMessage(seen.url))
  {
    var path := c.mockPath(route, View(seen));
    var placeholder := SerializeEmptyMock(store, seen, path);
    var t := GetMockPath(c, store, seen, route).trace;
    assert t == [Respond(Write404(seen.verb, seen.url, path))] + placeholder.trace
      + [Log(Verbose, ReturnedNotFoundMessage(seen.url))];
  }

  /** Miss: the one response is a plain-text 404 naming the URL and the path (without the
      body for a `HEAD` request), sent at once (no timer), and it goes out before the
      placeholder write is issued. */
  lemma MissRespondsNotFound(c: Collaborators, store: Store, req: Request, route: Route)
    requires FixturePath(c, req, route) !in store
    ensures var o := HandleRequest(c, store, req, route);
      var path := FixturePath(c, req, route);
      && (req.verb != "HEAD" ==>
            ResponseOf(o.trace) == Respond(Response(404, [("Content-Type", "text/plain")],
              "No mock exists for " + req.url + " - (" + path + ")")))
      && (req.verb == "HEAD" ==> ResponseOf(o.trace) == Respond(Response(404, [("Content-Type", "text/plain")], "")))
      && (forall i :: 0 <= i < |o.trace| ==> !o.trace[i].Wait?)
      && Before(o.trace, ResponseOf(o.trace), StoreWrite(path + ".404", EmptyMock(req.url)))
  {
    var seen := Seen(req, route);
    var t := GetMockPath(c, store, seen, route).trace;
    HandleRequestUnfolds(c, store, req, route);
    MissDispatch(c, store, seen, route);
    if route.config.hashFullRequest {
      ResponseOfUnderPrefix(BodyCaptured, t);
      BeforeAfterPrefix([BodyCaptured], t, t[0], StoreWrite(PlaceholderKey(FixturePath(c, req, route)), EmptyMock(req.url)));
    }
  }

  /** The 404 text handed to `res.write` names the request: the URL follows the fixed lead-in, and the path sits
      inside the closing parentheses. */
  lemma NotFoundBodyNamesRequest(url: string, path: string)
    ensures var body := NotFoundBody(url, path);
      var lead := "No mock exists for ";
      && |body| == |lead| + |url| + |" - ("| + |path| + 1
      && body[..|lead|] == lead
      && body[|lead|..|lead| + |url|] == url
      && body[|body| - |path| - 1..|body| - 1] == path
      && body[|body| - 1] == ')'
  {
    var lead := "No mock exists for ";
    var body := NotFoundBody(url, path);
    assert body == lead + url + " - (" + path + ")";
    var n := |lead| + |url| + 4;
    assert body[..|lead|] == lead;
    assert body[|lead|..|lead| + |url|] == url;
    assert body[n..n + |path|] == path;
  }

  /** Miss: the store gains the placeholder at `path + ".404"` and nothing else changes;
      in particular the missed path stays absent. */
  lemma MissWritesOnlyPlaceholder(c: Collaborators, store: Store, req: Request, route: Route)
    requires FixturePath(c, req, route) !in store
    ensures var o := HandleRequest(c, store, req, route);
      var key := FixturePath(c, req, route) + ".404";
      && FixturePath(c, req, route) !in o.store
      && key in o.store
      && o.store[key].requestUrl == req.url
      && o.store[key].contentType == "application/javascript"
      && o.store[key].statusCode == 200
      && o.store[key].data == JObject([])
      && (forall k :: k != key ==> (k in o.store <==> k in store))
      && (forall k :: k in store && k != key ==> o.store[k] == store[k])
  {
    HandleRequestUnfolds(c, store, req, route);
    MissDispatch(c, store, Seen(req, route), route);
  }

  /** The hit branch of the dispatch, before any body-capture step is put in front: the
      timer, then the response from the stored record, with the store left alone. */
  lemma HitDispatch(c: Collaborators, store: Store, seen: Request, route: Route)
    requires c.mockPath(route, View(seen)) in store
    ensures var o := GetMockPath(c, store, seen, route);
      var t := o.trace;
      var f := store[c.mockPath(route, View(seen))];
      var head := [("Content-Type", f.contentType)];
      && o.store == store
      && WritesNothing(t)
      && |t| >= 2 && t[0] == Wait(TimerDelay(Delay(c, route))) && ResponseOf(t) == t[1]
      && (!HasBody(seen.verb, f.statusCode) ==> t[1] == Respond(Response(f.statusCode, head, "")))
      && (HasBody(seen.verb, f.statusCode) && Replayable(f.data) ==>
            t[1] == Respond(Response(f.statusCode, head, ReplayText(c, f.data))))
      && (HasBody(seen.verb, f.statusCode) && !Replayable(f.data) ==>
            t[1] == Abort(f.statusCode, head, WriteRejected) && |t| == 2)
  {
    var path := c.mockPath(route, View(seen));
    var t := MockResponse(c, store, path, route, seen);
    assert GetMockPath(c, store, seen, route).trace == t;
    assert ResponseOf(t) == t[1] by {
      assert !IsResponse(t[0]) && t[1..][0] == t[1];
    }
    assert t[1] == WriteResponse(c, store, path, seen.verb);
  }

  /** The order of the hit branch's logging when the write returns, before any body-capture
      step is put in front: the response, the "delayed by" line when there is one, the
      dispatch line, then the success event. */
  lemma HitDispatchOrder(c: Collaborators, store: Store, seen: Request, route: Route)
    requires c.mockPath(route, View(seen)) in store
    requires WriteReturns(seen.verb, store[c.mockPath(route, View(seen))])
    ensures var t := GetMockPath(c, store, seen, route).trace;
      var dispatched := Log(Standard, DispatchMessage(seen.url, c.mockPath(route, View(seen))));
      && |t| >= 2 && ResponseOf(t) == t[1]
      && Before(t, t[1], Success("Mocked", seen, route))
      && Before(t, t[1], dispatched)
      && Before(t, dispatched, Success("Mocked", seen, route))
      && (Delay(c, route) > 0 ==> Before(t, t[1], Log(Verbose, DelayedMessage(Delay(c, route), seen.url))))
      && (Delay(c, route) > 0 ==> Before(t, Log(Verbose, DelayedMessage(Delay(c, route), seen.url)), dispatched))
  {
    var path := c.mockPath(route, View(seen));
    var t := MockResponse(c, store, path, route, seen);
    assert GetMockPath(c, store, seen, route).trace == t;
    assert ResponseOf(t) == t[1] by {
      assert !IsResponse(t[0]) && t[1..][0] == t[1];
    }
    ReplayOrder(Delay(c, route), t[1], path, route, seen);
  }

  /** The verbose channel of the hit branch when the write returns, before any body-capture
      step is put in front: the "delayed by" line exactly when the delay is positive, and
      no verbose line at all otherwise. */
  lemma HitDispatchVerbose(c: Collaborators, store: Store, seen: Request, route: Route)
    requires c.mockPath(route, View(seen)) in store
    requires WriteReturns(seen.verb, store[c.mockPath(route, View(seen))])
    ensures var t := GetMockPath(c, store, seen, route).trace;
      && (Logs(t, Verbose, DelayedMessage(Delay(c, route), seen.url)) <==> Delay(c, route) > 0)
      && (Delay(c, route) == 0 ==> forall i :: 0 <= i < |t| ==> !(t[i].Log? && t[i].channel == Verbose))
  {
    var path := c.mockPath(route, View(seen));
    var t := MockResponse(c, store, path, route, seen);
    assert GetMockPath(c, store, seen, route).trace == t;
    ReplayVerbose(Delay(c, route), t[1], path, route, seen);
  }

  /** Hit: the store is left alone, the timer runs first, and the response replays the
      record's status and content type, with the body as the record's data dictates. A
      response that may not carry a body is sent empty; otherwise a number or boolean
      aborts the response and nothing happens after it. */
  lemma HitReplaysFixture(c: Collaborators, store: Store, req: Request, route: Route)
    requires FixturePath(c, req, route) in store
    ensures var o := HandleRequest(c, store, req, route);
      var f := store[FixturePath(c, req, route)];
      var head := [("Content-Type", f.contentType)];
      && o.store == store
      && WritesNothing(o.trace)
      && Before(o.trace, Wait(TimerDelay(Delay(c, route))), ResponseOf(o.trace))
      && (!HasBody(req.verb, f.statusCode) ==> ResponseOf(o.trace) == Respond(Response(f.statusCode, head, "")))
      && (HasBody(req.verb, f.statusCode) && Replayable(f.data) ==>
            ResponseOf(o.trace) == Respond(Response(f.statusCode, head, ReplayText(c, f.data))))
      && (HasBody(req.verb, f.statusCode) && !Replayable(f.data) ==>
            ResponseOf(o.trace) == Abort(f.statusCode, head, WriteRejected)
            && o.trace[|o.trace| - 1] == ResponseOf(o.trace))
  {
    var seen := Seen(req, route);
    var t := GetMockPath(c, store, seen, route).trace;
    HandleRequestUnfolds(c, store, req, route);
    HitDispatch(c, store, seen, route);
    assert Before(t, t[0], t[1]);
    if route.config.hashFullRequest {
      ResponseOfUnderPrefix(BodyCaptured, t);
      BeforeAfterPrefix([BodyCaptured], t, t[0], t[1]);
      assert WritesNothing([BodyCaptured] + t);
    }
  }

  /** Hit where the replay's write returns: the "delayed by" line (which names the delay) appears iff
      the delay is positive, with no verbose line at all otherwise. */
  lemma HitLogsDelay(c: Collaborators, store: Store, req: Request, route: Route)
    requires FixturePath(c, req, route) in store
    requires WriteReturns(req.verb, store[FixturePath(c, req, route)])
    ensures var o := HandleRequest(c, store, req, route);
      && (Logs(o.trace, Verbose, DelayedMessage(Delay(c, route), req.url)) <==> Delay(c, route) > 0)
      && (Delay(c, route) == 0 ==> forall i :: 0 <= i < |o.trace| ==> !(o.trace[i].Log? && o.trace[i].channel == Verbose))
  {
    var seen := Seen(req, route);
    var t := GetMockPath(c, store, seen, route).trace;
    HandleRequestUnfolds(c, store, req, route);
    HitDispatchVerbose(c, store, seen, route);
    if route.config.hashFullRequest {
      LogsAfterPrefix([BodyCaptured], t, Verbose, DelayedMessage(Delay(c, route), req.url));
    }
  }

  /** Hit where the replay's write returns: the dispatch line, naming the URL and the fixture path,
      comes after the response and before the `Mocked` success event, and the "delayed by"
      line, when there is one, comes between the response and it. */
  lemma HitLogsDispatchLine(c: Collaborators, store: Store, req: Request, route: Route)
    requires FixturePath(c, req, route) in store
    requires WriteReturns(req.verb, store[FixturePath(c, req, route)])
    ensures var o := HandleRequest(c, store, req, route);
      var dispatched := Log(Standard, DispatchMessage(req.url, FixturePath(c, req, route)));
      && Before(o.trace, ResponseOf(o.trace), Success("Mocked", Seen(req, route), route))
      && Before(o.trace, ResponseOf(o.trace), dispatched)
      && Before(o.trace, dispatched, Success("Mocked", Seen(req, route), route))
      && (Delay(c, route) > 0 ==> Before(o.trace, ResponseOf(o.trace), Log(Verbose, DelayedMessage(Delay(c, route), req.url))))
      && (Delay(c, route) > 0 ==> Before(o.trace, Log(Verbose, DelayedMessage(Delay(c, route), req.url)), dispatched))
  {
    var seen := Seen(req, route);
    var t := GetMockPath(c, store, seen, route).trace;
    var dispatched := Log(Standard, DispatchMessage(req.url, FixturePath(c, req, route)));
    HandleRequestUnfolds(c, store, req, route);
    HitDispatchOrder(c, store, seen, route);
    if route.config.hashFullRequest {
      ResponseOfUnderPrefix(BodyCaptured, t);
      BeforeAfterPrefix([BodyCaptured], t, t[1], Success("Mocked", seen, route));
      BeforeAfterPrefix([BodyCaptured], t, t[1], dispatched);
      BeforeAfterPrefix([BodyCaptured], t, dispatched, Success("Mocked", seen, route));
      if Delay(c, route) > 0 {
        BeforeAfterPrefix([BodyCaptured], t, t[1], Log(Verbose, DelayedMessage(Delay(c, route), req.url)));
        BeforeAfterPrefix([BodyCaptured], t, Log(Verbose, DelayedMessage(Delay(c, route), req.url)), dispatched);
      }
    }
  }

  /** Miss: the placeholder write is issued, then the standard line naming the URL and the
      placeholder key, and only then the verbose "Returned 404" line. */
  lemma MissLogsAfterWrite(c: Collaborators, store: Store, req: Request, route: Route)
    requires FixturePath(c, req, route) !in store
    ensures var o := HandleRequest(c, store, req, route);
      var key := FixturePath(c, req, route) + ".404";
      var serialized := Log(Standard, SerializedMessage(req.url, key));
      && Before(o.trace, StoreWrite(key, EmptyMock(req.url)), serialized)
      && Before(o.trace, serialized, Log(Verbose, ReturnedNotFoundMessage(req.url)))
  {
    var seen := Seen(req, route);
    var t := GetMockPath(c, store, seen, route).trace;
    var key := FixturePath(c, req, route) + ".404";
    var serialized := Log(Standard, SerializedMessage(req.url, key));
    HandleRequestUnfolds(c, store, req, route);
    MissDispatchLogs(c, store, seen, route);
    assert Before(t, StoreWrite(key, EmptyMock(req.url)), serialized) by {
      assert t[1] == StoreWrite(key, EmptyMock(req.url)) && t[2] == serialized;
    }
    assert Before(t, serialized, Log(Verbose, ReturnedNotFoundMessage(req.url))) by {
      assert t[2] == serialized && t[3] == Log(Verbose, ReturnedNotFoundMessage(req.url));
    }
    if route.config.hashFullRequest {
      BeforeAfterPrefix([BodyCaptured], t, StoreWrite(key, EmptyMock(req.url)), serialized);
      BeforeAfterPrefix([BodyCaptured], t, serialized, Log(Verbose, ReturnedNotFoundMessage(req.url)));
    }
  }

  /** The "delayed by" line determines the delay it reports. */
  lemma DelayedMessageNamesDelay(a: nat, b: nat, url: string)
    ensures DelayedMessage(a, url) == DelayedMessage(b, url) ==> a == b
  {
    if DelayedMessage(a, url) == DelayedMessage(b, url) {
      var prefix := "Mock response delayed by ";
      var sa, sb := FromNat(a), FromNat(b);
      var rest := " ms for: " + url;
      assert DelayedMessage(a, url) == prefix + (sa + rest);
      assert DelayedMessage(b, url) == prefix + (sb + rest);
      assert sa + rest == sb + rest by {
        assert (prefix + (sa + rest))[|prefix|..] == sa + rest;
        assert (prefix + (sb + rest))[|prefix|..] == sb + rest;
      }
      DigitRunOfNumeral(sa, rest);
      DigitRunOfNumeral(sb, rest);
      assert sa == (sa + rest)[..|sa|];
      assert sb == (sb + rest)[..|sb|];
      FromNatInjective(a, b);
    }
  }

  /** Round trip: a record stored at the path a request resolves to is replayed with its
      own status, content type and body text (no body where the response may not carry
      one). */
  lemma StoredFixtureReplays(c: Collaborators, store: Store, req: Request, route: Route, f: Fixture)
    requires Replayable(f.data)
    ensures var o := HandleRequest(c, store[FixturePath(c, req, route) := f], req, route);
      && (HasBody(req.verb, f.statusCode) ==>
            ResponseOf(o.trace) == Respond(Response(f.statusCode, [("Content-Type", f.contentType)], ReplayText(c, f.data))))
      && (!HasBody(req.verb, f.statusCode) ==>
            ResponseOf(o.trace) == Respond(Response(f.statusCode, [("Content-Type", f.contentType)], "")))
  {
    HitReplaysFixture(c, store[FixturePath(c, req, route) := f], req, route);
  }

  /** A placeholder written on a miss is itself replayable: a request that resolves to the
      placeholder key gets a 200 `application/javascript` response holding `{}` (with the
      body left off for a `HEAD` request). */
  lemma PlaceholderReplays(c: Collaborators, store: Store, req: Request, route: Route, later: Request, laterRoute: Route)
    requires FixturePath(c, req, route) !in store
    requires FixturePath(c, later, laterRoute) == FixturePath(c, req, route) + ".404"
    ensures var written := HandleRequest(c, store, req, route).store;
      var o := HandleRequest(c, written, later, laterRoute);
      && o.store == written
      && (later.verb != "HEAD" ==>
            ResponseOf(o.trace) == Respond(Response(200, [("Content-Type", "application/javascript")], c.stringify(JObject([])))))
      && (later.verb == "HEAD" ==>
            ResponseOf(o.trace) == Respond(Response(200, [("Content-Type", "application/javascript")], "")))
  {
    var written := HandleRequest(c, store, req, route).store;
    MissWritesOnlyPlaceholder(c, store, req, route);
    var f := written[FixturePath(c, later, laterRoute)];
    assert f.statusCode == 200 && f.contentType == "application/javascript" && f.data == JObject([]);
    assert Replayable(f.data) && ReplayText(c, f.data) == c.stringify(JObject([]));
    HitReplaysFixture(c, written, later, laterRoute);
  }

  /** Missing the same request twice answers the same 404 twice and leaves the store as the
      first miss left it: the second placeholder write replaces an identical record. */
  lemma MissIsIdempotent(c: Collaborators, store: Store, req: Request, route: Route)
    requires FixturePath(c, req, route) !in store
    ensures var first := HandleRequest(c, store, req, route);
      var second := HandleRequest(c, first.store, req, route);
      && second.store == first.store
      && ResponseOf(second.trace) == ResponseOf(first.trace)
      && ResponseOf(second.trace).Respond? && ResponseOf(second.trace).response.status == 404
  {
    var first := HandleRequest(c, store, req, route);
    MissRespondsNotFound(c, store, req, route);
    MissWritesOnlyPlaceholder(c, store, req, route);
    MissRespondsNotFound(c, first.store, req, route);
    MissWritesOnlyPlaceholder(c, first.store, req, route);
    var second := HandleRequest(c, first.store, req, route);
    assert second.store == first.store by {
      assert second.store.Keys == first.store.Keys;
    }
  }

  /** Without full-request hashing the body is never read: two requests that differ only
      in their unread body resolve to the same path and get the same response and store. */
  lemma UnreadBodyIsIgnored(c: Collaborators, store: Store, req: Request, other: Request, route: Route)
    requires !route.config.hashFullRequest
    requires other == req.(stream := other.stream)
    ensures FixturePath(c, req, route) == FixturePath(c, other, route)
    ensures HandleRequest(c, store, req, route).store == HandleRequest(c, store, other, route).store
    ensures ResponseOf(HandleRequest(c, store, req, route).trace) == ResponseOf(HandleRequest(c, store, other, route).trace)
  {
    var path := FixturePath(c, req, route);
    assert View(req) == View(other);
    if path in store {
      HitReplaysFixture(c, store, req, route);
      HitReplaysFixture(c, store, other, route);
      var f := store[path];
      if !Replayable(f.data) {
        assert ResponseOf(HandleRequest(c, store, req, route).trace)
            == ResponseOf(HandleRequest(c, store, other, route).trace);
      }
    } else {
      MissRespondsNotFound(c, store, req, route);
      MissRespondsNotFound(c, store, other, route);
      MissWritesOnlyPlaceholder(c, store, req, route);
      MissWritesOnlyPlaceholder(c, store, other, route);
      var a := HandleRequest(c, store, req, route).store;
      var b := HandleRequest(c, store, other, route).store;
      assert a.Keys == b.Keys;
    }
  }

  /** With full-request hashing the path is derived from the captured body, and body
      capture is the first thing that happens. */
  lemma FullHashCapturesBodyFirst(c: Collaborators, store: Store, req: Request, route: Route)
    requires route.config.hashFullRequest
    ensures FixturePath(c, req, route) == c.mockPath(route, RequestView(req.verb, req.url, req.headers, Captured(req.stream)))
    ensures HandleRequest(c, store, req, route).trace[0] == BodyCaptured
  {
  }
}
