/** The Mixcloud search adapter: one canonical record per cloudcast of the
    search response, in response order, with no filter and no cap. */
module Mixcloud {
  import opened JsValues
  import opened JsStrings
  import opened Seqs
  import opened Canonical
  import Duration

  datatype User = User(name: Option<string>, username: Option<string>)

  datatype Pictures = Pictures(large: Option<string>, medium: Option<string>, thumbnail: Option<string>)

  /** One cloudcast (a mix or a show) of the search response. */
  datatype Cloudcast = Cloudcast(
    key: Option<string>,
    slug: Option<string>,
    name: Option<string>,
    user: Option<User>,
    pictures: Option<Pictures>,
    url: Option<string>,
    createdTime: Option<string>,
    playCount: Option<int>,
    description: Option<string>,
    audioLength: Option<int>)      // seconds

  /** The response body: `data` may be missing. */
  datatype Data = Data(data: Option<seq<Cloudcast>>)

  /** The search URL the adapter fetches. */
  function RequestUrl(query: string, maxResults: int, encode: string -> string): string {
    "https://api.mixcloud.com/search/?q=" + encode(query) + "&type=cloudcast&limit=" + IntToDecimal(maxResults)
  }

  function UserName(u: Option<User>): Option<string> {
    if u.Some? then u.value.name else None
  }

  function UserUsername(u: Option<User>): Option<string> {
    if u.Some? then u.value.username else None
  }

  function Large(p: Option<Pictures>): Option<string> {
    if p.Some? then p.value.large else None
  }

  function Medium(p: Option<Pictures>): Option<string> {
    if p.Some? then p.value.medium else None
  }

  function Thumb(p: Option<Pictures>): Option<string> {
    if p.Some? then p.value.thumbnail else None
  }

  /** `audio_length || 0` seconds, printed as `M:SS`. */
  function CastDuration(c: Cloudcast): string {
    Duration.MinutesSeconds(NumOrElse(c.audioLength, 0))
  }

  /** The canonical record of one cloudcast. */
  function MapCloudcast(c: Cloudcast, env: Env): SearchResult {
    SearchResult(
      id := Or(c.key, c.slug),
      title := OrElse(c.name, "Unknown"),
      artist := Some(OrElse(Or(UserName(c.user), UserUsername(c.user)), "Unknown Artist")),
      thumbnail := OrElse(Or(Or(Large(c.pictures), Medium(c.pictures)), Thumb(c.pictures)), ""),
      duration := CastDuration(c),
      url := OrElse(c.url, "https://www.mixcloud.com" + Interp(c.key)),
      embedUrl := "https://www.mixcloud.com/widget/iframe/?hide_cover=1&feed=" + env.encode(OrElse(c.key, "")),
      publishedAt := OrElse(c.createdTime, env.now),
      viewCount := NumOrElse(c.playCount, 0),
      description := OrElse(c.description, Interp(c.name) + " by " + OrElse(UserName(c.user), "Unknown")),
      platform := "mixcloud")
  }

  /** `data?.data || []`. */
  function Cloudcasts(d: Data): seq<Cloudcast> {
    if d.data.Some? then d.data.value else []
  }

  function CastFn(env: Env): Cloudcast -> SearchResult {
    c => MapCloudcast(c, env)
  }

  /** `cloudcasts.map(...)`. */
  function MapAll(casts: seq<Cloudcast>, env: Env): seq<SearchResult> {
    MapEach(CastFn(env), casts)
  }

  /** One record per cloudcast, the k-th from the k-th. */
  lemma OneRecordPerCloudcast(casts: seq<Cloudcast>, env: Env)
    ensures |MapAll(casts, env)| == |casts|
    ensures forall k :: 0 <= k < |casts| ==> MapAll(casts, env)[k] == MapCloudcast(casts[k], env)
  {
  }

  /** `searchMixcloud(query, maxResults = 20)`; `fetch` answers the request.
      A failed request is caught into the empty list; otherwise every
      cloudcast gives one record, in response order, whatever `maxResults`
      is. */
  function SearchMixcloud(query: string, maxResults: Option<int>, env: Env, fetch: string -> HttpOutcome<Data>)
    : (r: seq<SearchResult>)
    ensures fetch(RequestUrl(query, Limit(maxResults), env.encode)).Failed? ==> r == []
    ensures fetch(RequestUrl(query, Limit(maxResults), env.encode)).Body? ==>
              var casts := Cloudcasts(fetch(RequestUrl(query, Limit(maxResults), env.encode)).data);
              |r| == |casts| && forall k :: 0 <= k < |casts| ==> r[k] == MapCloudcast(casts[k], env)
  {
    match fetch(RequestUrl(query, Limit(maxResults), env.encode))
    case Failed => []
    case Body(d) => MapAll(Cloudcasts(d), env)
  }

  // ------------------------------------------------------------ properties

  /** Mapping commutes with concatenation: records keep the response order. */
  lemma MapAllAppend(a: seq<Cloudcast>, b: seq<Cloudcast>, env: Env)
    ensures MapAll(a + b, env) == MapAll(a, env) + MapAll(b, env)
  {
    MapEachAppend(CastFn(env), a, b);
  }

  /** `maxResults` only reaches the request URL: the response is never cut
      to it.  Three cloudcasts come back as three records under a limit of 1. */
  lemma NoCapAfterMapping(c: Cloudcast, env: Env, fetch: string -> HttpOutcome<Data>)
    requires fetch(RequestUrl("q", 1, env.encode)) == Body(Data(Some([c, c, c])))
    ensures |SearchMixcloud("q", Some(1), env, fetch)| == 3
  {
  }

  /** The duration is `M:SS` of the whole seconds of `audio_length`, and a
      missing (or zero) length prints "0:00". */
  lemma DurationShape(c: Cloudcast, env: Env)
    requires NumOrElse(c.audioLength, 0) >= 0
    ensures Duration.IsMinutesSecondsOf(MapCloudcast(c, env).duration, NumOrElse(c.audioLength, 0))
    ensures c.audioLength.None? ==> MapCloudcast(c, env).duration == "0:00"
  {
    Duration.MinutesSecondsShape(NumOrElse(c.audioLength, 0));
    assert NatToDecimal(0) == "0";
  }

  /** The thumbnail is the first of `large`, `medium`, `thumbnail` that is
      non-empty, and "" when none is. */
  lemma ThumbnailPrecedence(c: Cloudcast, env: Env)
    ensures var t := MapCloudcast(c, env).thumbnail;
            var l, m, s := Large(c.pictures), Medium(c.pictures), Thumb(c.pictures);
            && (Present(l) ==> t == l.value)
            && (!Present(l) && Present(m) ==> t == m.value)
            && (!Present(l) && !Present(m) && Present(s) ==> t == s.value)
            && (!Present(l) && !Present(m) && !Present(s) ==> t == "")
            && t == OrElse(FirstPresent([l, m, s]), "")
  {
    OrChain(Large(c.pictures), Medium(c.pictures), Thumb(c.pictures));
  }

  /** The identity, artist and link fallbacks of one record. */
  lemma Fallbacks(c: Cloudcast, env: Env)
    ensures var r := MapCloudcast(c, env);
            && (Present(c.key) ==> r.id == c.key)
            && (!Present(c.key) ==> r.id == c.slug)
            && (Present(UserName(c.user)) ==> r.artist == UserName(c.user))
            && (!Present(UserName(c.user)) && Present(UserUsername(c.user)) ==> r.artist == UserUsername(c.user))
            && (!Present(UserName(c.user)) && !Present(UserUsername(c.user)) ==> r.artist == Some("Unknown Artist"))
            && (!Present(c.url) ==> r.url == "https://www.mixcloud.com" + Interp(c.key))
            && (Present(c.url) ==> r.url == c.url.value)
  {
  }

  /** Every record says it came from Mixcloud and counts plays or 0. */
  lemma RecordDefaults(c: Cloudcast, env: Env)
    ensures var r := MapCloudcast(c, env);
            && r.platform == "mixcloud"
            && r.viewCount == (if c.playCount.Some? then c.playCount.value else 0)
            && r.title != "" && r.artist.Some? && r.artist.value != ""
  {
  }
}
