/** The one record shape every search adapter produces. */
module Canonical {
  import opened JsValues

  /** A normalised search hit.  `id` and `artist` are optional because two
      adapters can leave them undefined (see the adapters). */
  datatype SearchResult = SearchResult(
    id: Option<string>,
    title: string,
    artist: Option<string>,
    thumbnail: string,
    duration: string,
    url: string,
    embedUrl: string,
    publishedAt: string,
    viewCount: int,
    description: string,
    platform: string)

  /** What the adapters take from outside the model: `encodeURIComponent`,
      and the current time as `new Date().toISOString()` prints it. */
  datatype Env = Env(now: string, encode: string -> string)

  /** The default of the adapters' `maxResults = 20` parameter: it applies
      only when the argument is undefined. */
  function Limit(maxResults: Option<int>): int {
    if maxResults.Some? then maxResults.value else 20
  }
}
