/** Requests handled one after another against the same fixture store: the only state
    the mock mode shares between requests is the store itself. */
module Session {
  import opened Http
  import opened Fixtures
  import opened Trace
  import opened Mock

  /** Placeholder-only changes compose: two such steps in a row are one such step. */
  lemma ChangesCompose(s0: Store, s1: Store, s2: Store)
    requires ChangesArePlaceholders(s0, s1) && ChangesArePlaceholders(s1, s2)
    ensures ChangesArePlaceholders(s0, s2)
  {
    forall k | k in s2 && (k !in s0 || s2[k] != s0[k])
      ensures IsPlaceholderKey(k) && IsEmptyMock(s2[k])
    {
      if k in s1 && s2[k] == s1[k] {
        assert k !in s0 || s1[k] != s0[k];
      }
    }
  }

  /** Handles `requests` in order, each against the store the previous one left. An
      aborted response throws out of the timer callback and ends the process, so the
      requests after it are never handled. Every handled request calls `writeHead` once,
      all of them are handled unless the run ends in an abort, nothing follows an abort,
      no fixture is ever removed, and every record the run adds or replaces is an empty
      placeholder at a `.404` key. */
  function HandleAll(c: Collaborators, store: Store, requests: seq<(Request, Route)>): (o: Outcome)
    ensures ResponseCount(o.trace) <= |requests|
    ensures !Aborted(o.trace) ==> ResponseCount(o.trace) == |requests|
    ensures AbortIsLast(o.trace)
    ensures ChangesArePlaceholders(store, o.store)
    decreases |requests|
  {
    if requests == [] then
      Outcome(store, [])
    else
      var first := HandleRequest(c, store, requests[0].0, requests[0].1);
      AbortEndsRequest(c, store, requests[0].0, requests[0].1);
      if Aborted(first.trace) then
        first
      else
        var rest := HandleAll(c, first.store, requests[1..]);
        ResponseCountAppend(first.trace, rest.trace);
        AbortIsLastAppend(first.trace, rest.trace);
        ChangesCompose(store, first.store, rest.store);
        Outcome(rest.store, first.trace + rest.trace)
  }

  /** A recorded fixture at a key that does not end in `.404` survives any run of requests
      unchanged, so replay of real recordings never degrades. */
  lemma RecordedFixturesSurvive(c: Collaborators, store: Store, requests: seq<(Request, Route)>, key: string)
    requires key in store && !IsPlaceholderKey(key)
    ensures key in HandleAll(c, store, requests).store
    ensures HandleAll(c, store, requests).store[key] == store[key]
  {
  }
}
