/** Fixture records, the store that holds them, and the empty placeholder record the
    mock mode writes when a request has no fixture. */
module Fixtures {
  import opened Json

  /** A recorded response, as held in a fixture file once parsed. */
  datatype Fixture = Fixture(requestUrl: string, contentType: string, statusCode: int, data: JsonValue)

  /** The fixture namespace: from path to the record stored there. */
  type Store = map<string, Fixture>

  /** Suffix of the sibling key that receives the placeholder record. */
  const PlaceholderSuffix := ".404"

  const PlaceholderContentType := "application/javascript"

  const PlaceholderStatus := 200

  /** The sibling key at which the placeholder for `path` is written. */
  function PlaceholderKey(path: string): (k: string)
    ensures |k| == |path| + |PlaceholderSuffix|
    ensures k[..|path|] == path && IsPlaceholderKey(k)
  {
    path + PlaceholderSuffix
  }

  predicate IsPlaceholderKey(k: string) {
    |k| >= |PlaceholderSuffix| && k[|k| - |PlaceholderSuffix|..] == PlaceholderSuffix
  }

  /** A record with the placeholder's shape, for any request URL. */
  predicate IsEmptyMock(f: Fixture) {
    && f.contentType == PlaceholderContentType
    && f.statusCode == PlaceholderStatus
    && f.data == EmptyObject
  }

  /** The placeholder record for a request to `url`. */
  function EmptyMock(url: string): (f: Fixture)
    ensures IsEmptyMock(f) && f.requestUrl == url
  {
    Fixture(url, PlaceholderContentType, PlaceholderStatus, EmptyObject)
  }

  /** The placeholder key is never the path it belongs to, so writing a placeholder
      never turns a missing fixture into a present one. */
  lemma PlaceholderKeyIsSibling(path: string)
    ensures PlaceholderKey(path) != path
  {
    assert |PlaceholderKey(path)| != |path|;
  }
}
