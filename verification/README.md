# Mock mode of connect-prism, modelled in Dafny

connect-prism is an HTTP mock/proxy middleware. In mock mode, each incoming request
is mapped to a fixture file. If that file exists, the recorded response is replayed,
optionally after an artificial delay. If it does not exist, the mode answers with a
plain-text 404 and writes an empty placeholder fixture next to the missing path (at
`<path>.404`), so a developer can fill it in. This is the "record, then edit"
workflow.

This project models the dispatcher in `lib/modes/mock.js` as pure functions:

- The fixture store is a `map<string, Fixture>` of already-parsed records. An
  existence check is a key lookup, and a whole-file write is a map update.
- Each request yields an `Outcome`: the store once its writes have landed, and an
  ordered trace of effects. The trace events are body captured, timer waited,
  response written (or aborted), store write issued, log line, and success event.
- Three collaborators enter as total functions of a `Collaborators` value. They are
  the path hasher (`responseHash.getMockPath`), the delay policy
  (`responseDelay.delayTimeInMs`) and `JSON.stringify`. So "the same request gives
  the same path" holds by construction.
- A fixture's `data` is a full JSON value (`null`, boolean, number, string, array,
  object). This lets the code's `typeof data === 'object'` test be modelled exactly:
  - `null`, arrays and objects are written as their JSON text.
  - Strings are written verbatim.
  - Some responses may not carry a body: the response to a `HEAD` request, and
    any response with status 1xx, 204 or 304 (`Http.HasBody`). In the Node versions of the time,
    `http` ignores `res.write` on those before looking at its argument, so whatever the
    data, the status line and header go out with an empty body, and the rest of
    the timer callback runs. The 404 for a `HEAD` request is likewise sent without
    its text.
  - On any other response, a number or boolean reaches `res.write` unconverted,
    and Node throws a `TypeError`. `res.writeHead` has only stored the status and headers on the
    response object by then, so nothing reaches the client, and `res.end` never
    runs. The throw escapes the timer callback uncaught, which by Node's default ends
    the process. The model records this as an `Abort` event, and nothing follows it:
    not the rest of the callback, and not any later request.
- The timer fires after `setTimeout`'s effective delay. Node replaces a delay below
  1 ms or above 2147483647 ms by 1 ms, and the model does the same (`TimerDelay`).

Modules:

- `Json`: JSON values and `typeof`.
- `Decimal`: how a whole number is rendered inside a log line.
- `Http`: requests, the request view the hasher sees, route config, responses.
- `Fixtures`: fixture records, the store, the placeholder.
- `Trace`: effect events.
- `Mock`: the dispatcher functions, one per function of `mock.js`.
- `MockProperties`: what one request promises.
- `Session`: requests handled one after another against a shared store.

Two points about the code that the model keeps as written:

- On a miss, the code issues the placeholder write and logs it, and only then logs
  the verbose "Returned 404" line (`mock.js:20-22`).
- There is no error response for a malformed fixture and no logged error for a failed
  placeholder write: `JSON.parse` throws, and `fs.writeFile` is called without a
  callback. Neither path is invented here.

## Model

| member | source | states |
|---|---|---|
| `Mock.HandleRequest` | lib/modes/mock.js:89-97 | When the route hashes the full request, capturing the body is the first effect, and otherwise the first effect is something else (`BodyCapturedOnlyFirst` rules out any capture elsewhere). Every request calls `writeHead` exactly once. The store never loses a key, and every key it gains or changes holds an empty placeholder at a `.404` key. |
| `Mock.AbortEndsRequest` | lib/modes/mock.js:30-36 | An aborted response is the last effect of a request: once `res.write` throws, nothing else of the request happens. |
| `Mock.GetMockPath` | lib/modes/mock.js:13-25 | The dispatch calls `writeHead` exactly once, never starts with a body capture, and changes the store only by adding or replacing placeholder records. |
| `Mock.TimerDelay` | lib/modes/mock.js:30-37 | The timer callback runs after the requested delay when that lies between 1 and 2147483647 ms, and after 1 ms otherwise, as Node's `setTimeout` does. |
| `Mock.MockResponse` | lib/modes/mock.js:27-38 | The hit branch first waits for the timer, then writes exactly the response `WriteResponse` gives for the stored record and the request method, and never writes to the store. After an aborted write nothing follows. After a returned write, the rest of the trace is exactly the replay logs. |
| `Mock.ReplayLogs` | lib/modes/mock.js:32-36 | After a replay the callback records exactly two entries, the dispatch line and the `Mocked` event, or three when the delay is positive: the "delayed by" line first when the delay is positive, then the dispatch line naming the URL and the fixture path, then the `Mocked` success event. None of these is a response or a store write. |
| `Mock.ReplayVerbose` | lib/modes/mock.js:32-34 | Behind the timer and the response, the verbose channel carries the "delayed by" line exactly when the delay is positive, and a zero delay leaves no verbose line at all. |
| `Mock.ReplayOrder` | lib/modes/mock.js:31-36 | Behind the timer, the response comes first, then the "delayed by" line when there is one, then the dispatch line, then the success event: the response precedes the "delayed by" line, the dispatch line and the success event, and each log line precedes the next. |
| `Mock.WriteResponse` | lib/modes/mock.js:41-56 | A replay takes its status and its only header, `Content-Type`, from the record. On a response that may carry a body, a string `data` is the body verbatim, a `null`, array or object `data` becomes its JSON text, and a number or boolean makes `res.write` throw, so the response is aborted and nothing is sent. On a `HEAD` request or a 1xx, 204 or 304 status the write is ignored and the response goes out with an empty body. The write returns exactly when it is not the throwing case. |
| `Mock.Write404` | lib/modes/mock.js:58-64 | The miss response has status 404 and the single header `Content-Type: text/plain`. Its body is `No mock exists for <url> - (<path>)`, or empty for a `HEAD` request. |
| `Mock.WriteMockToDisk` | lib/modes/mock.js:68-73 | A fixture write overwrites one key unconditionally. Afterwards the key holds the record, every other key is as it was, and one store-write event is issued. |
| `Mock.SerializeEmptyMock` | lib/modes/mock.js:75-87 | The placeholder for a request goes to `path + ".404"` and holds the request's URL, `application/javascript`, status 200 and `{}`. The missed path itself stays as it was, and every other key is untouched. The write comes first, then the standard line "Serialized empty 404 response for <url> to <path>.404". |
| `Fixtures.EmptyMock` | lib/modes/mock.js:76-81 | The placeholder record carries the request URL and has the placeholder shape: `application/javascript`, status 200, data `{}`. |
| `Fixtures.PlaceholderKey` | lib/modes/mock.js:83 | The placeholder key extends the missed path by `.404`: the path is its prefix, and it is recognisable as a placeholder key. |
| `Fixtures.PlaceholderKeyIsSibling` | lib/modes/mock.js:83 | The placeholder key always differs from the path it belongs to, so writing it never makes the missed fixture exist. |
| `Http.CaptureBody` | lib/modes/mock.js:90-93 | Capturing the body sets it to the full stream content and changes nothing else about the request. |
| `Json.TypeOf` | lib/modes/mock.js:50 | JavaScript's `typeof` says "object" exactly for `null`, arrays and objects, and "string", "number" or "boolean" exactly for those kinds. |
| `Decimal.FromNat` | lib/modes/mock.js:33 | The delay rendered into the log line is a non-empty string of digits with no leading zero, except for the number zero itself. |
| `Decimal.ValueOfFromNat` | lib/modes/mock.js:33 | Reading the rendered numeral back gives the delay it came from. |
| `MockProperties.MissDispatch` | lib/modes/mock.js:19-23 | On a miss, the dispatch answers 404 first and never waits on a timer. The 404 precedes the placeholder write. The missed path stays absent, the placeholder key is the only key added or changed, and it holds the request's placeholder. |
| `MockProperties.MissDispatchLogs` | lib/modes/mock.js:20-22 | On a miss, the dispatch has exactly four effects, in order: the 404 response for the request's verb, URL and fixture path, the placeholder write, the standard "Serialized empty 404 response" line naming the URL and the placeholder key, and last the verbose "Returned 404 for: <url>" line. |
| `MockProperties.MissRespondsNotFound` | lib/modes/mock.js:58-62 | On a miss, the one response of the request is 404, with only `Content-Type: text/plain` and the body `No mock exists for <url> - (<path>)`, or no body for a `HEAD` request. No timer is involved, and the response goes out before the placeholder write is issued. |
| `MockProperties.MissLogsAfterWrite` | lib/modes/mock.js:20-22 | On a miss, the placeholder write precedes the "Serialized empty 404 response" line, which precedes the verbose "Returned 404" line. |
| `MockProperties.NotFoundBodyNamesRequest` | lib/modes/mock.js:62 | The 404 text names the request: it starts with the fixed lead-in, the URL follows it, and the path sits just before the closing parenthesis. |
| `MockProperties.MissWritesOnlyPlaceholder` | lib/modes/mock.js:75-85 | On a miss, the only store change is at `path + ".404"`, which then holds the request URL, `application/javascript`, status 200 and `{}`. The missed path and every other key are unchanged. |
| `MockProperties.HitDispatch` | lib/modes/mock.js:27-38 | On a hit, the dispatch waits for the timer first and then writes the response from the stored record, leaving the store unchanged. A response that may not carry a body is sent empty. Otherwise the body is the record's text, or, for number or boolean data, the write aborts and is the last effect. |
| `MockProperties.HitDispatchOrder` | lib/modes/mock.js:31-36 | On a hit whose write returns, the response precedes the "delayed by" line (when the delay is positive) and the dispatch line, the "delayed by" line precedes the dispatch line, and the dispatch line precedes the success event. |
| `MockProperties.HitDispatchVerbose` | lib/modes/mock.js:32-34 | On a hit whose write returns, the "delayed by" line is logged exactly when the delay is positive, and a zero delay leaves no verbose line. |
| `MockProperties.HitReplaysFixture` | lib/modes/mock.js:41-54 | On a hit, the store is not modified and no write is issued. The timer precedes the response. The status and `Content-Type` equal the record's. A `HEAD` request or a 1xx, 204 or 304 record gets an empty body. Otherwise the body is the record's string or the JSON text of its structured data, and number or boolean data aborts the response, the abort being the last effect. |
| `MockProperties.HitLogsDelay` | lib/modes/mock.js:29-34 | On a hit whose write returns (including every response that may not carry a body), the "delayed by" line appears if and only if the delay is positive, and a zero delay logs nothing verbose. |
| `MockProperties.HitLogsDispatchLine` | lib/modes/mock.js:31-36 | On a hit whose write returns, the `Mocked` success event and the dispatch line "Dispatching request <url> from <path>" both come after the response. The dispatch line comes before the success event and after the "delayed by" line when there is one, which itself comes after the response. |
| `MockProperties.DelayedMessageNamesDelay` | lib/modes/mock.js:33 | Two "delayed by" lines for the same URL are equal only for equal delays, so the line reports the delay exactly. |
| `MockProperties.StoredFixtureReplays` | lib/modes/mock.js:41-54 | Round trip: for string, null, array or object data, a record stored at the path a request resolves to is replayed with the record's own status, content type and body text, or with no body where the response may not carry one. |
| `MockProperties.PlaceholderReplays` | lib/modes/mock.js:75-85 | A placeholder written on a miss is itself a valid fixture. A request that resolves to the placeholder key gets a 200 `application/javascript` response holding the JSON text of `{}` (no body for a `HEAD` request), and the store stays as it was. |
| `MockProperties.MissIsIdempotent` | lib/modes/mock.js:16-23 | Missing the same request twice gives the same 404 both times. The second placeholder write leaves the store exactly as the first left it. |
| `MockProperties.UnreadBodyIsIgnored` | lib/modes/mock.js:94-96 | Without full-request hashing the body is never read. Requests that differ only in their body resolve to the same path, get the same response and leave the same store. |
| `MockProperties.FullHashCapturesBodyFirst` | lib/modes/mock.js:90-93 | With full-request hashing, body capture is the first effect, and the path is derived from the request with its whole body captured. |
| `MockProperties.BodyCapturedOnlyFirst` | lib/modes/mock.js:89-97 | A request's body is captured at most once: a capture can only be the very first effect, and only when the route hashes the full request. |
| `Session.HandleAll` | lib/modes/mock.js:89-97 | Over a sequence of requests handled one after another, an aborted response ends the run: it is the last effect, and the requests after it are never handled. Each handled request calls `writeHead` once, and unless the run ends in an abort every request is handled. No fixture is ever removed, and every record added or replaced is an empty placeholder at a `.404` key. |
| `Session.RecordedFixturesSurvive` | lib/modes/mock.js:83-85 | A recorded fixture whose key does not end in `.404` survives any sequence of requests unchanged. |

## Left out

- File-system calls (`fs.exists`, `fs.readFileSync`, `fs.writeFile`) are modelled as a map lookup and update. A path that exists but is a directory, or a file that vanishes between the existence check and the read, is not modelled.
- Fixture files are held as parsed records. The JSON text format, `JSON.parse` errors on malformed files, and the pretty-printing of `JSON.stringify(response, true, 2)` are not modelled.
- Failed placeholder writes are not modelled: every write is taken to land. The code passes no callback to `fs.writeFile`, and in the Node versions of the time a callback-less `fs.writeFile` rethrows a write error uncaught.
- How the fixture path is hashed (`lib/modes/response-hash.js`) and how the delay is computed (`lib/modes/response-delay.js`) are not part of this model; both are parameters. The delay is taken as a non-negative integer.
- How `responseHash.getBody` reads the stream is not part of this model. Capturing the body is modelled as setting the request's body to the stream's full content before the path is derived.
- `setTimeout` timing is recorded as a `Wait(ms)` event before the response, with `ms` the effective delay. Timer precision and the ordering of timers that fire together are not modelled.
- Decimal.FromNat: renders every delay in plain digits. JavaScript writes numbers of 10^21 and above in exponent form, and numbers above 2^53 are not exact, so the "delayed by" line matches JavaScript only for delays below 2^53.
- Session.HandleAll: a failed placeholder write also throws uncaught and would end the process, but writes do not fail in the model, so the run continues past every miss. A host that installs an `uncaughtException` handler, and so keeps running after an aborted response, is not modelled either.
- The logger's own behaviour (`logger.log`, `logger.verboseLog`, `logger.logSuccess`) is not modelled. Calls to it are trace events with the exact message text.
- Concurrency is not modelled. That covers interleavings of several in-flight requests, including two concurrent misses on the same key. `Session.HandleAll` covers requests that do not overlap, and it assumes that each placeholder write, which `fs.writeFile` issues without waiting (lib/modes/mock.js:72), has landed before the next request checks whether its fixture exists.
- Dependency injection through `di` is not modelled.
- JSON numbers are integers in the model. Non-integer numbers only matter to `JSON.stringify`, which is a parameter.
- Node's validation of the status code inside `res.writeHead` is not modelled. A recorded status is assumed to be accepted.
- Writing to a response whose client has disconnected is not modelled.
