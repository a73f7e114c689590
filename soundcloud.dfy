/** The SoundCloud search adapter: keeps only track items of the search
    collection, maps each to the canonical record, then caps the list. */
module SoundCloud {
  import opened JsValues
  import opened JsStrings
  import opened Seqs
  import opened Canonical
  import Duration

  datatype User = User(username: Option<string>, avatarUrl: Option<string>, permalink: Option<string>)

  /** One entry of the search collection: a track, a playlist or a user. */
  datatype Item = Item(
    kind: Option<string>,
    id: Option<int>,
    title: Option<string>,
    user: Option<User>,
    artworkUrl: Option<string>,
    duration: Option<int>,         // milliseconds
    permalinkUrl: Option<string>,
    permalink: Option<string>,
    createdAt: Option<string>,
    playbackCount: Option<int>,
    description: Option<string>)

  /** The response body: `collection` may be missing. */
  datatype Data = Data(collection: Option<seq<Item>>)

  const ClientId := "iZIs9mchVcX5lhVRyQGGAYlNPVldzAoX"

  /** The search URL the adapter fetches. */
  function RequestUrl(query: string, maxResults: int, encode: string -> string): string {
    "https://api-v2.soundcloud.com/search?q=" + encode(query) + "&limit=" + IntToDecimal(maxResults) +
    "&client_id=" + ClientId
  }

  /** `formatDuration(ms)`: whole seconds `floor(ms / 1000)` printed as `M:SS`. */
  function FormatDuration(ms: int): string {
    Duration.MinutesSeconds(ms / 1000)
  }

  /** A non-negative millisecond count prints as `M:SS` of its whole seconds. */
  lemma FormatDurationShape(ms: int)
    requires ms >= 0
    ensures Duration.IsMinutesSecondsOf(FormatDuration(ms), ms / 1000)
  {
    Duration.MinutesSecondsShape(ms / 1000);
  }

  lemma FormatDurationExamples()
    ensures FormatDuration(9000) == "0:09"
    ensures FormatDuration(125000) == "2:05"
    ensures FormatDuration(0) == "0:00"
  {
    assert NatToDecimal(9) == "9";
    assert NatToDecimal(5) == "5";
    assert NatToDecimal(2) == "2";
    assert NatToDecimal(0) == "0";
  }

  function Username(u: Option<User>): Option<string> {
    if u.Some? then u.value.username else None
  }

  function AvatarUrl(u: Option<User>): Option<string> {
    if u.Some? then u.value.avatarUrl else None
  }

  function UserPermalink(u: Option<User>): Option<string> {
    if u.Some? then u.value.permalink else None
  }

  /** `item.kind === 'track' && item.id`: only tracks with a non-zero id are kept. */
  predicate IsTrack(item: Item) {
    item.kind == Some("track") && item.id.Some? && item.id.value != 0
  }

  /** The canonical record of one track. */
  function MapTrack(item: Item, env: Env): SearchResult
    requires IsTrack(item)
  {
    SearchResult(
      id := Some(IntToDecimal(item.id.value)),
      title := OrElse(item.title, "Unknown"),
      artist := Some(OrElse(Username(item.user), "Unknown Artist")),
      thumbnail := OrElse(Or(item.artworkUrl, AvatarUrl(item.user)), ""),
      duration := FormatDuration(NumOrElse(item.duration, 0)),
      url := OrElse(item.permalinkUrl,
                    "https://soundcloud.com/" + Interp(UserPermalink(item.user)) + "/" + Interp(item.permalink)),
      embedUrl := "https://w.soundcloud.com/player/?url=" + env.encode(OrElse(item.permalinkUrl, "")),
      publishedAt := OrElse(item.createdAt, env.now),
      viewCount := NumOrElse(item.playbackCount, 0),
      description := OrElse(item.description, Interp(item.title) + " by " + OrElse(Username(item.user), "Unknown")),
      platform := "soundcloud")
  }

  /** What one pass of the loop pushes for `item`: a record, or nothing. */
  function TrackRecord(item: Item, env: Env): Option<SearchResult> {
    if IsTrack(item) then Some(MapTrack(item, env)) else None
  }

  function TrackFn(env: Env): Item -> Option<SearchResult> {
    item => TrackRecord(item, env)
  }

  /** The records the loop collects before the cap. */
  function KeptTracks(items: seq<Item>, env: Env): seq<SearchResult> {
    FilterMap(TrackFn(env), items)
  }

  /** One more item extends the kept records by its record, if it is a track. */
  lemma KeptTracksPush(items: seq<Item>, x: Item, env: Env)
    ensures KeptTracks(items + [x], env) ==
            KeptTracks(items, env) + (if IsTrack(x) then [MapTrack(x, env)] else [])
  {
    assert (items + [x])[..|items|] == items;
  }

  /** `data.collection || []`. */
  function Tracks(d: Data): seq<Item> {
    if d.collection.Some? then d.collection.value else []
  }

  /** `searchSoundCloud(query, maxResults = 20)`; `fetch` answers the request. */
  method SearchSoundCloud(query: string, maxResults: Option<int>, env: Env, fetch: string -> HttpOutcome<Data>)
    returns (results: seq<SearchResult>)
    ensures fetch(RequestUrl(query, Limit(maxResults), env.encode)).Failed? ==> results == []
    ensures fetch(RequestUrl(query, Limit(maxResults), env.encode)).Body? ==>
              results == SliceTo(KeptTracks(Tracks(fetch(RequestUrl(query, Limit(maxResults), env.encode)).data), env),
                                 Limit(maxResults))
  {
    var limit := Limit(maxResults);
    var response := fetch(RequestUrl(query, limit, env.encode));
    if response.Failed? {
      return [];
    }
    // for (const item of data.collection || []) if it is a track, push its record
    var collected := PushKept(TrackFn(env), Tracks(response.data));
    results := SliceTo(collected, limit);
  }

  // ------------------------------------------------------------ properties

  /** Every record is built from a track item of the input, never from a
      playlist, a user, or an item without an id. */
  lemma OnlyTracksProduceRecords(items: seq<Item>, env: Env, k: nat)
    requires k < |KeptTracks(items, env)|
    ensures exists j :: 0 <= j < |items| && IsTrack(items[j]) &&
                        KeptTracks(items, env)[k] == MapTrack(items[j], env)
  {
    FilterMapOrigin(TrackFn(env), items, k);
    var j :| 0 <= j < |items| && TrackFn(env)(items[j]) == Some(KeptTracks(items, env)[k]);
    assert IsTrack(items[j]);
  }

  /** A non-track item is dropped, not degraded: removing it changes nothing. */
  lemma NonTracksAreDropped(a: seq<Item>, x: Item, b: seq<Item>, env: Env)
    requires !IsTrack(x)
    ensures KeptTracks(a + [x] + b, env) == KeptTracks(a + b, env)
  {
    DroppedItem(TrackFn(env), a, x, b);
  }

  /** Kept tracks stay in input order. */
  lemma KeepsInputOrder(a: seq<Item>, b: seq<Item>, env: Env)
    ensures KeptTracks(a + b, env) == KeptTracks(a, env) + KeptTracks(b, env)
  {
    FilterMapAppend(TrackFn(env), a, b);
  }

  /** The cap counts kept tracks, not raw items: a playlist at the head of
      the collection does not use up a place. */
  lemma CapAppliesAfterFilter(playlist: Item, t1: Item, t2: Item, env: Env)
    requires !IsTrack(playlist) && IsTrack(t1) && IsTrack(t2)
    ensures SliceTo(KeptTracks([playlist, t1, t2], env), 2) == [MapTrack(t1, env), MapTrack(t2, env)]
  {
    KeptTracksPush([], playlist, env);
    KeptTracksPush([playlist], t1, env);
    KeptTracksPush([playlist, t1], t2, env);
    assert [] + [playlist] == [playlist];
    assert [playlist] + [t1] == [playlist, t1];
    assert [playlist, t1] + [t2] == [playlist, t1, t2];
  }

  /** Without an argument the cap is 20 records. */
  lemma DefaultCap(kept: seq<SearchResult>)
    ensures |SliceTo(kept, Limit(None))| == (if |kept| < 20 then |kept| else 20)
  {
  }

  /** The defaults every record carries. */
  lemma TrackRecordDefaults(item: Item, env: Env)
    requires IsTrack(item)
    ensures var r := MapTrack(item, env);
            && r.platform == "soundcloud"
            && r.id.Some? && r.id.value != "" && r.id.value != "0"
            && r.title != "" && (Present(item.title) ==> r.title == item.title.value)
            && (!Present(item.title) ==> r.title == "Unknown")
            && r.artist.Some? && r.artist.value != ""
            && (Present(Username(item.user)) ==> r.artist == Username(item.user))
            && (!Present(Username(item.user)) ==> r.artist == Some("Unknown Artist"))
            && r.viewCount == (if item.playbackCount.Some? then item.playbackCount.value else 0)
            && (item.duration.None? ==> r.duration == "0:00")
  {
    var n := item.id.value;
    if n < 0 {
      assert IntToDecimal(n) == "-" + NatToDecimal(-n);
    } else {
      assert NatToDecimal(n)[0] != '0';
    }
    assert NatToDecimal(0) == "0";
  }
}
