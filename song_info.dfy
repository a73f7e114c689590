/** The song-information route: from a free-text query it finds a video id
    (through the video search) and lyrics (through the lyrics service),
    guessing the artist/track split of the query in two stages. */
module SongInfo {
  import opened JsValues
  import opened JsStrings

  /** The dash characters of the class `[-–—]`: hyphen-minus, en dash, em dash. */
  const Dashes: set<char> := {'-', '\U{2013}', '\U{2014}'}

  const Placeholder := "Lyrics not available. Try searching with format: Artist - Song Name"

  /** The body of a lyrics-service answer. */
  datatype LyricsData = LyricsData(lyrics: Option<string>)

  /** The lyrics service, asked for (artist, track); a non-ok status and a
      thrown error are both `Failed`. */
  type LyricsService = (string, string) -> HttpOutcome<LyricsData>

  /** One result of the video search; its `url` may be missing. */
  datatype Video = Video(url: Option<string>)

  /** The video search threw, or gave a list of results. */
  datatype VideoSearch = SearchThrew | Videos(results: seq<Video>)

  /** What the route answers. */
  datatype RouteResponse =
    | BadRequest(error: string)                          // status 400
    | ServerError(error: string)                         // status 500
    | Found(videoId: Option<string>, lyrics: string)     // status 200

  /** `fetchLyrics(artist, track)`: the lyrics text, or nothing when the call
      failed or the text is missing or empty. */
  function FetchLyrics(artist: string, track: string, api: LyricsService): Option<string> {
    match api(artist, track)
    case Failed => None
    case Body(d) => if Present(d.lyrics) then d.lyrics else None
  }

  // ------------------------------------------------------------- the query

  /** The (artist, track) guess from the dash split: the first two parts,
      trimmed, when there is a dash; otherwise no artist and the trimmed query. */
  function ParseQuery(query: string): (string, string) {
    var parts := Split(query, Dashes);
    if |parts| >= 2 then (Trim(parts[0]), Trim(parts[1])) else ("", Trim(query))
  }

  function Words(track: string): seq<string> {
    Split(track, {' '})
  }

  /** The word-midpoint guess: the first half of the words (rounded down)
      is the artist, the rest the track. */
  function WordSplit(track: string): (string, string) {
    var words := Words(track);
    var h := |words| / 2;
    (Join(words[..h], " "), Join(words[h..], " "))
  }

  // ------------------------------------------------------------ the video id

  /** `[?&]v=([^&]+)` matches at `i`. */
  predicate MatchAt(s: string, i: nat) {
    i + 3 < |s| && (s[i] == '?' || s[i] == '&') && s[i + 1] == 'v' && s[i + 2] == '=' && s[i + 3] != '&'
  }

  predicate NoMatchIn(s: string, from: nat, to: nat) {
    forall j :: from <= j < to ==> !MatchAt(s, j)
  }

  /** The leftmost match position at or after `from`. */
  function FirstMatch(s: string, from: nat): (r: Option<nat>)
    requires from <= |s|
    ensures r.Some? ==> from <= r.value < |s| && MatchAt(s, r.value) && NoMatchIn(s, from, r.value)
    ensures r.None? ==> NoMatchIn(s, from, |s|)
    decreases |s| - from
  {
    if from == |s| then None
    else if MatchAt(s, from) then Some(from)
    else FirstMatch(s, from + 1)
  }

  /** `url.match(/[?&]v=([^&]+)/)?.[1]`: the greedy capture at the leftmost match. */
  function VideoId(url: string): Option<string> {
    match FirstMatch(url, 0)
    case Some(i) =>
      var rest := url[i + 3..];
      Some(rest[..FirstSep(rest, {'&'})])
    case None => None
  }

  /** The video id of the first search result, if any. */
  function VideoIdOf(results: seq<Video>): Option<string>
    requires results != [] ==> results[0].url.Some?
  {
    if results == [] then None else VideoId(results[0].url.value)
  }

  // ---------------------------------------------------------- the lookups

  /** The lyrics found and the (artist, track) pairs looked up, in order. */
  datatype Resolution = Resolution(lyrics: Option<string>, lookups: seq<(string, string)>)

  /** The two-stage resolution: a direct lookup when both artist and track
      are known; then, when nothing was found and the track has two or more
      words, a lookup of the word-midpoint guess. */
  function Resolve(artist: string, track: string, api: LyricsService): Resolution {
    var direct := artist != "" && track != "";
    var first := if direct then FetchLyrics(artist, track, api) else None;
    var calls := if direct then [(artist, track)] else [];
    if first.None? && track != "" && |Words(track)| >= 2 then
      var guess := WordSplit(track);
      Resolution(FetchLyrics(guess.0, guess.1, api), calls + [guess])
    else Resolution(first, calls)
  }

  /** `lyrics || placeholder`. */
  function LyricsText(lyrics: Option<string>): string {
    if lyrics.Some? then lyrics.value else Placeholder
  }

  /** The route handler for `GET /?q=…`.  `lookups` lists the lyrics-service
      calls made, in order. */
  method HandleSongInfo(q: Option<string>, search: string -> VideoSearch, api: LyricsService)
    returns (resp: RouteResponse, lookups: seq<(string, string)>)
    ensures q.None? || q == Some("") ==> resp == BadRequest("Query parameter is required") && lookups == []
    ensures Present(q) && (search(q.value).SearchThrew? ||
                           (search(q.value).results != [] && search(q.value).results[0].url.None?)) ==>
              resp == ServerError("Internal server error") && lookups == []
    ensures Present(q) && search(q.value).Videos? &&
            (search(q.value).results != [] ==> search(q.value).results[0].url.Some?) ==>
              var parsed := ParseQuery(q.value);
              var res := Resolve(parsed.0, parsed.1, api);
              resp == Found(VideoIdOf(search(q.value).results), LyricsText(res.lyrics)) &&
              lookups == res.lookups
  {
    lookups := [];
    if q.None? || q.value == "" {
      return BadRequest("Query parameter is required"), lookups;
    }
    var query := q.value;
    var queryParts := Split(query, Dashes);
    var artist := "";
    var track := "";
    if |queryParts| >= 2 {
      artist := Trim(queryParts[0]);
      track := Trim(queryParts[1]);
    } else {
      track := Trim(query);
    }

    var found := search(query);
    if found.SearchThrew? {
      return ServerError("Internal server error"), lookups;
    }
    var videoId: Option<string> := None;
    if |found.results| > 0 {
      if found.results[0].url.None? {
        // `.match` on an undefined url throws
        return ServerError("Internal server error"), lookups;
      }
      videoId := VideoId(found.results[0].url.value);
    }

    var lyrics: Option<string> := None;
    if artist != "" && track != "" {
      lyrics := FetchLyrics(artist, track, api);
      lookups := lookups + [(artist, track)];
    }
    if lyrics.None? && track != "" {
      var words := Split(track, {' '});
      if |words| >= 2 {
        var possibleArtist := Join(words[..|words| / 2], " ");
        var possibleTrack := Join(words[|words| / 2..], " ");
        lyrics := FetchLyrics(possibleArtist, possibleTrack, api);
        lookups := lookups + [(possibleArtist, possibleTrack)];
      }
    }
    resp := Found(videoId, LyricsText(lyrics));
  }

  // ------------------------------------------------------------ properties

  /** At most two lookups; the direct one, when made, comes first; the
      word-midpoint guess is looked up exactly when nothing was found yet
      and the track has two or more words. */
  lemma LookupPlan(artist: string, track: string, api: LyricsService)
    ensures var r := Resolve(artist, track, api);
            && |r.lookups| <= 2
            && (artist != "" && track != "" ==> |r.lookups| >= 1 && r.lookups[0] == (artist, track))
            && (artist == "" || track == "" ==> r.lookups == (if track != "" && |Words(track)| >= 2
                                                              then [WordSplit(track)] else []))
            && (|r.lookups| == 2 ==> FetchLyrics(artist, track, api).None? && r.lookups[1] == WordSplit(track))
            && (artist != "" && track != "" && FetchLyrics(artist, track, api).Some? ==>
                  r.lookups == [(artist, track)])
            && (artist != "" && track != "" && FetchLyrics(artist, track, api).None? && |Words(track)| >= 2 ==>
                  r.lookups == [(artist, track), WordSplit(track)])
            && (artist != "" && track != "" && FetchLyrics(artist, track, api).None? && |Words(track)| < 2 ==>
                  r.lookups == [(artist, track)])
  {
  }

  /** The lyrics found are what the last lookup returned; when nothing was
      found every lookup missed. */
  lemma LyricsFromLastLookup(artist: string, track: string, api: LyricsService)
    ensures var r := Resolve(artist, track, api);
            && (r.lyrics.Some? ==>
                  |r.lookups| >= 1 &&
                  r.lyrics == FetchLyrics(r.lookups[|r.lookups| - 1].0, r.lookups[|r.lookups| - 1].1, api))
            && (r.lyrics.None? ==> forall k :: 0 <= k < |r.lookups| ==>
                  FetchLyrics(r.lookups[k].0, r.lookups[k].1, api).None?)
  {
  }

  /** Found lyrics are never empty, so the answered text is never empty: it
      is the found text or the placeholder. */
  lemma LyricsNeverEmpty(artist: string, track: string, api: LyricsService)
    ensures var r := Resolve(artist, track, api);
            && (r.lyrics.Some? ==> r.lyrics.value != "" && LyricsText(r.lyrics) == r.lyrics.value)
            && (r.lyrics.None? ==> LyricsText(r.lyrics) == Placeholder)
            && LyricsText(r.lyrics) != ""
  {
  }

  /** `fetchLyrics` gives nothing for a failed call and for a missing or
      empty text, and the text otherwise. */
  lemma FetchLyricsCases(artist: string, track: string, api: LyricsService)
    ensures api(artist, track).Failed? ==> FetchLyrics(artist, track, api).None?
    ensures api(artist, track).Body? ==>
              (FetchLyrics(artist, track, api).Some? <==> Present(api(artist, track).data.lyrics))
    ensures FetchLyrics(artist, track, api).Some? ==> FetchLyrics(artist, track, api).value != ""
    ensures api(artist, track).Body? && Present(api(artist, track).data.lyrics) ==>
              FetchLyrics(artist, track, api) == api(artist, track).data.lyrics
  {
  }

  /** Joining the two halves of the word split with a space gives the track
      back: the guess only moves the boundary. */
  lemma WordSplitReassembles(track: string)
    requires |Words(track)| >= 2
    ensures WordSplit(track).0 + " " + WordSplit(track).1 == track
  {
    var words := Words(track);
    var h := |words| / 2;
    assert words[..h] + words[h..] == words;
    JoinAppend(words[..h], words[h..], " ");
    JoinSplit(track, ' ');
  }

  /** With a dash, the artist is the trimmed text before the first dash
      and the track the trimmed text between the first and the second dash
      (or the end); anything after a second dash is ignored.  Without a
      dash there is no artist and the track is the whole query, trimmed. */
  lemma ParseQueryParts(query: string)
    ensures var i := FirstSep(query, Dashes);
            i < |query| ==>
              var rest := query[i + 1..];
              ParseQuery(query) == (Trim(query[..i]), Trim(rest[..FirstSep(rest, Dashes)]))
    ensures FirstSep(query, Dashes) == |query| ==> ParseQuery(query) == ("", Trim(query))
  {
    SplitAtFirst(query, Dashes);
    var i := FirstSep(query, Dashes);
    if i < |query| {
      SplitAtFirst(query[i + 1..], Dashes);
    }
  }

  /** The capture is a non-empty run without '&' right after the leftmost
      `?v=` or `&v=` that is followed by one; it ends at an '&' or at the
      end of the url.  No such position means no id. */
  lemma VideoIdMatch(url: string)
    ensures VideoId(url).Some? ==>
              var v := VideoId(url).value;
              exists i :: 0 <= i && i + 3 + |v| <= |url| && MatchAt(url, i) && NoMatchIn(url, 0, i) &&
                          url[i + 3..i + 3 + |v|] == v && v != [] && '&' !in v &&
                          (i + 3 + |v| == |url| || url[i + 3 + |v|] == '&')
    ensures VideoId(url).None? ==> NoMatchIn(url, 0, |url|)
  {
    match FirstMatch(url, 0)
    case Some(i) =>
      var rest := url[i + 3..];
      var n := FirstSep(rest, {'&'});
      var v := rest[..n];
      assert url[i + 3..i + 3 + |v|] == v;
      assert n > 0;
      assert '&' !in v by {
        assert forall j :: 0 <= j < |v| ==> v[j] == rest[j] && rest[j] != '&';
      }
      if n < |rest| {
        assert url[i + 3 + n] == rest[n];
      }
    case None =>
  }

  /** The leftmost match position is determined by the text up to it. */
  lemma FirstMatchAt(s: string, k: nat)
    requires MatchAt(s, k) && NoMatchIn(s, 0, k)
    ensures FirstMatch(s, 0) == Some(k)
  {
  }

  // -------------------------------------------------------------- examples

  lemma QueenSplit()
    ensures Split("Queen - Bohemian Rhapsody", Dashes) == ["Queen ", " Bohemian Rhapsody"]
  {
    assert "Queen - Bohemian Rhapsody" == "Queen " + ['-'] + " Bohemian Rhapsody";
    SplitTwo("Queen ", '-', " Bohemian Rhapsody", Dashes);
  }

  lemma QueenTrim()
    ensures Trim("Queen ") == "Queen"
  {
    assert "Queen "[..5] == "Queen";
  }

  lemma BohemianTrim()
    ensures Trim(" Bohemian Rhapsody") == "Bohemian Rhapsody"
  {
    assert " Bohemian Rhapsody"[1..] == "Bohemian Rhapsody";
  }

  /** A query with a dash: "Queen - Bohemian Rhapsody" is artist "Queen" and
      track "Bohemian Rhapsody". */
  lemma QueenExample()
    ensures ParseQuery("Queen - Bohemian Rhapsody") == ("Queen", "Bohemian Rhapsody")
  {
    QueenSplit();
    QueenTrim();
    BohemianTrim();
  }

  lemma MidpointWords()
    ensures Words("take me home tonight") == ["take", "me", "home", "tonight"]
  {
    assert "take me home tonight" == "take" + [' '] + ("me" + [' '] + ("home" + [' '] + "tonight"));
    SplitFour("take", "me", "home", "tonight", ' ');
  }

  /** Four words are guessed as two plus two. */
  lemma WordSplitFour(track: string, a: string, b: string, c: string, d: string)
    requires Words(track) == [a, b, c, d]
    ensures WordSplit(track) == (a + " " + b, c + " " + d)
  {
    var words := Words(track);
    assert words[..2] == [a, b] && words[2..] == [c, d];
    assert Join([a, b], " ") == a + " " + Join([b], " ");
    assert Join([c, d], " ") == c + " " + Join([d], " ");
  }

  /** Without a dash, "take me home tonight" is guessed as artist "take me"
      and track "home tonight". */
  lemma MidpointExample()
    ensures WordSplit("take me home tonight") == ("take" + " " + "me", "home" + " " + "tonight")
  {
    MidpointWords();
    WordSplitFour("take me home tonight", "take", "me", "home", "tonight");
  }

  lemma HelloSplit()
    ensures Split("hello", Dashes) == ["hello"]
  {
    SplitNoSep("hello", Dashes);
  }

  lemma HelloWords()
    ensures Words("hello") == ["hello"]
  {
    SplitNoSep("hello", {' '});
  }

  /** A single undelimited word makes no lookup at all. */
  lemma SingleWordNoLookup(api: LyricsService)
    ensures Resolve(ParseQuery("hello").0, ParseQuery("hello").1, api).lookups == []
  {
    HelloSplit();
    HelloWords();
    assert Trim("hello") == "hello";
  }

  /** The capture runs up to the next '&'. */
  lemma VideoIdExample()
    ensures VideoId("/watch?v=ab&t=1") == Some("ab")
  {
    var u := "/watch?v=ab&t=1";
    assert NoMatchIn(u, 0, 6) by {
      assert forall j :: 0 <= j < 6 ==> u[j] != '?' && u[j] != '&';
    }
    FirstMatchAt(u, 6);
    assert u[9..] == "ab&t=1";
    FirstSepAt("ab&t=1", {'&'}, 2);
    assert "ab&t=1"[..2] == "ab";
  }

  /** The leftmost `v=` whose capture is non-empty wins: in "?v=&v=zz" the
      first `?v=` has nothing to capture, so the id is "zz". */
  lemma VideoIdSkipsEmptyCapture()
    ensures VideoId("?v=&v=zz") == Some("zz")
  {
    var w := "?v=&v=zz";
    assert w[0] == '?' && w[1] == 'v' && w[2] == '=' && w[3] == '&' && w[4] == 'v' && w[5] == '=' && w[6] == 'z';
    assert NoMatchIn(w, 0, 3);
    assert MatchAt(w, 3);
    FirstMatchAt(w, 3);
    assert w[6..] == "zz";
    FirstSepAt("zz", {'&'}, 2);
    assert "zz"[..2] == "zz";
  }

  /** A url without `v=` gives no id. */
  lemma VideoIdAbsent()
    ensures VideoId("/watch?t=1") == None
  {
    var x := "/watch?t=1";
    assert NoMatchIn(x, 0, |x|) by {
      assert forall j :: 0 <= j < |x| && (x[j] == '?' || x[j] == '&') ==> j == 6;
    }
  }
}
