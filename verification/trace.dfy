/** The observable effects of handling a request, in the order they are issued. */
module Trace {
  import opened Http
  import opened Fixtures

  /** `logger.log` and `logger.verboseLog`. */
  datatype Channel = Standard | Verbose

  datatype Event =
    | BodyCaptured                                   // the request body was read to the end
    | Wait(ms: nat)                                  // a timer of `ms` milliseconds was scheduled and fired
    | Respond(response: Response)                    // status and headers passed to writeHead, and the body the client receives
    | Abort(status: int, headers: Headers, reason: string)  // writeHead, then write threw; see below
    | StoreWrite(key: string, record: Fixture)       // a whole-record overwrite was issued
    | Log(channel: Channel, text: string)
    | Success(tag: string, request: Request, route: Route)  // logger.logSuccess

  /* An `Abort` records a `res.write` that threw, which only a response that may carry a
     body can do (`Http.HasBody`). `writeHead` only stores the status and
     headers on the response object, so nothing has reached the client when `write`
     throws, and `end` is never called. The exception escapes the timer callback
     uncaught, which by Node's default ends the process: nothing can follow an `Abort`. */

  /** Events in which `res.writeHead` is called on the response. */
  predicate IsResponse(e: Event) {
    e.Respond? || e.Abort?
  }

  /** How many times a trace calls `res.writeHead`. */
  function ResponseCount(t: seq<Event>): (n: nat)
    ensures n <= |t|
    ensures n == 0 <==> forall i :: 0 <= i < |t| ==> !IsResponse(t[i])
  {
    if t == [] then 0
    else (if IsResponse(t[0]) then 1 else 0) + ResponseCount(t[1..])
  }

  /** The first response event of a trace. */
  function ResponseOf(t: seq<Event>): (e: Event)
    requires ResponseCount(t) >= 1
    ensures IsResponse(e) && e in t
  {
    if IsResponse(t[0]) then t[0] else ResponseOf(t[1..])
  }

  lemma {:induction false} ResponseCountAppend(a: seq<Event>, b: seq<Event>)
    ensures ResponseCount(a + b) == ResponseCount(a) + ResponseCount(b)
  {
    if a != [] {
      assert (a + b)[0] == a[0] && (a + b)[1..] == a[1..] + b;
      ResponseCountAppend(a[1..], b);
    } else {
      assert a + b == b;
    }
  }

  /** `a` is issued strictly before `b`. */
  ghost predicate Before(t: seq<Event>, a: Event, b: Event) {
    exists i, j :: 0 <= i < j < |t| && t[i] == a && t[j] == b
  }

  /** The trace issues no storage write. */
  predicate WritesNothing(t: seq<Event>) {
    forall i :: 0 <= i < |t| ==> !t[i].StoreWrite?
  }

  /** The trace logs `text` on `channel`. */
  predicate Logs(t: seq<Event>, channel: Channel, text: string) {
    Log(channel, text) in t
  }

  /** A step list in front of a trace keeps the order of the trace's own steps. */
  lemma BeforeAfterPrefix(p: seq<Event>, t: seq<Event>, a: Event, b: Event)
    requires Before(t, a, b)
    ensures Before(p + t, a, b)
  {
    var i, j :| 0 <= i < j < |t| && t[i] == a && t[j] == b;
    assert (p + t)[|p| + i] == a && (p + t)[|p| + j] == b;
  }

  /** Steps in front of a trace that are not log lines change none of its log lines. */
  lemma LogsAfterPrefix(p: seq<Event>, t: seq<Event>, channel: Channel, text: string)
    requires forall i :: 0 <= i < |p| ==> !p[i].Log?
    ensures Logs(p + t, channel, text) <==> Logs(t, channel, text)
    ensures (forall i :: 0 <= i < |t| ==> !(t[i].Log? && t[i].channel == channel))
        ==> (forall i :: 0 <= i < |p + t| ==> !((p + t)[i].Log? && (p + t)[i].channel == channel))
  {
    if Log(channel, text) in p + t {
      var i :| 0 <= i < |p + t| && (p + t)[i] == Log(channel, text);
      assert i >= |p| && (p + t)[i] == t[i - |p|];
    }
    if forall i :: 0 <= i < |t| ==> !(t[i].Log? && t[i].channel == channel) {
      forall i | |p| <= i < |p + t|
        ensures !((p + t)[i].Log? && (p + t)[i].channel == channel)
      {
        assert (p + t)[i] == t[i - |p|];
      }
    }
  }

  /** A written response followed by steps that hold no response and no store write: the
      whole calls `writeHead` once, writes nothing to the store, and has no abort. */
  lemma ResponseThenSteps(head: seq<Event>, t: seq<Event>)
    requires |head| == 2 && head[0].Wait? && head[1].Respond?
    requires ResponseCount(t) == 0 && WritesNothing(t)
    ensures ResponseCount(head + t) == 1 && WritesNothing(head + t) && AbortIsLast(head + t)
  {
    assert head[1..][0] == head[1] && head[1..][1..] == [];
    ResponseCountAppend(head, t);
    forall i | |head| <= i < |head + t|
      ensures !(head + t)[i].StoreWrite? && !(head + t)[i].Abort?
    {
      assert (head + t)[i] == t[i - |head|];
    }
  }

  /** The trace ends in an aborted response. */
  predicate Aborted(t: seq<Event>) {
    |t| > 0 && t[|t| - 1].Abort?
  }

  /** Nothing follows an aborted response. */
  predicate AbortIsLast(t: seq<Event>) {
    forall i :: 0 <= i < |t| && t[i].Abort? ==> i == |t| - 1
  }

  /** Two traces run one after the other, the first not aborted, have an abort only where
      the second has one. */
  lemma AbortIsLastAppend(a: seq<Event>, b: seq<Event>)
    requires AbortIsLast(a) && !Aborted(a) && AbortIsLast(b)
    ensures AbortIsLast(a + b)
    ensures Aborted(a + b) <==> Aborted(b)
  {
    if b == [] {
      assert a + b == a;
    } else {
      forall i | 0 <= i < |a + b| && (a + b)[i].Abort?
        ensures i == |a + b| - 1
      {
        if i >= |a| {
          assert (a + b)[i] == b[i - |a|];
        }
      }
      assert (a + b)[|a + b| - 1] == b[|b| - 1];
    }
  }
}
