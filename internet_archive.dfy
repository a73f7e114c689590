/** The Internet Archive search adapter: it asks the advanced-search service
    for twice as many audio items as wanted, maps every returned document to
    the canonical record, and keeps the first `maxResults`. */
module InternetArchive {
  import opened JsValues
  import opened JsStrings
  import opened Seqs
  import opened Canonical

  /** `doc.creator` is a single name or a list of names. */
  datatype Creator = One(name: string) | Many(names: seq<string>)

  /** One document of the search response. */
  datatype Doc = Doc(
    identifier: Option<string>,
    title: Option<string>,
    creator: Option<Creator>,
    date: Option<string>,
    description: Option<string>)

  datatype Response = Response(docs: Option<seq<Doc>>)

  /** The response body: `response` and `response.docs` may be missing. */
  datatype Data = Data(response: Option<Response>)

  /** The request: the endpoint and the query parameters in the order they are
      given to `URLSearchParams` (their encoding is the library's). */
  datatype Request = Request(endpoint: string, params: seq<(string, string)>)

  const Endpoint := "https://archive.org/advancedsearch.php"

  const Fields := "identifier,title,creator,date,format,description"

  /** The search string: restricted to the audio collection. */
  function SearchString(query: string): string {
    "collection:audio AND (" + query + ")"
  }

  function BuildRequest(query: string, maxResults: int): Request {
    Request(Endpoint, [("q", SearchString(query)), ("fl[]", Fields), ("rows", IntToDecimal(maxResults * 2)),
                       ("page", "1"), ("output", "json")])
  }

  /** The value of the first parameter named `key`, if any. */
  function Param(params: seq<(string, string)>, key: string): Option<string>
    decreases |params|
  {
    if params == [] then None
    else if params[0].0 == key then Some(params[0].1)
    else Param(params[1..], key)
  }

  /** `Array.isArray(doc.creator) ? doc.creator[0] : (doc.creator || 'Unknown Artist')`:
      the first of a list (undefined when the list is empty), else the name,
      else "Unknown Artist". */
  function CreatorOf(c: Option<Creator>): Option<string> {
    match c
    case Some(Many(names)) => if names == [] then None else Some(names[0])
    case Some(One(name)) => Some(if name != "" then name else "Unknown Artist")
    case None => Some("Unknown Artist")
  }

  /** The canonical record of one document. */
  function MapDoc(doc: Doc): SearchResult {
    var title := OrElse(doc.title, "Unknown");
    var creator := CreatorOf(doc.creator);
    SearchResult(
      id := doc.identifier,
      title := title,
      artist := creator,
      thumbnail := "https://archive.org/services/img/" + Interp(doc.identifier),
      duration := "0:00",
      url := "https://archive.org/details/" + Interp(doc.identifier),
      embedUrl := "https://archive.org/embed/" + Interp(doc.identifier),
      publishedAt := OrElse(doc.date, "Unknown"),
      viewCount := 0,
      description := OrElse(doc.description, title + " by " + Interp(creator)),
      platform := "internet-archive")
  }

  function DocFn(): Doc -> SearchResult {
    doc => MapDoc(doc)
  }

  /** `data?.response?.docs || []`. */
  function Docs(d: Data): seq<Doc> {
    if d.response.Some? && d.response.value.docs.Some? then d.response.value.docs.value else []
  }

  /** `searchInternetArchive(query, maxResults = 20)`; `fetch` answers the
      request.  A failed request is caught into the empty list. */
  method SearchInternetArchive(query: string, maxResults: Option<int>, fetch: Request -> HttpOutcome<Data>)
    returns (results: seq<SearchResult>)
    ensures fetch(BuildRequest(query, Limit(maxResults))).Failed? ==> results == []
    ensures fetch(BuildRequest(query, Limit(maxResults))).Body? ==>
              results == SliceTo(MapEach(DocFn(), Docs(fetch(BuildRequest(query, Limit(maxResults))).data)),
                                 Limit(maxResults))
  {
    var limit := Limit(maxResults);
    var response := fetch(BuildRequest(query, limit));
    if response.Failed? {
      return [];
    }
    // for (const doc of docs) results.push({...})
    var all := PushEach(DocFn(), Docs(response.data));
    results := SliceTo(all, limit);
  }

  // ------------------------------------------------------------ properties

  /** The answer is the order-preserving prefix of the mapped documents: one
      record per document, nothing filtered, at most `maxResults` of them. */
  lemma ResultIsPrefix(docs: seq<Doc>, maxResults: int)
    requires maxResults >= 0
    ensures var r := SliceTo(MapEach(DocFn(), docs), maxResults);
            && |r| == (if |docs| < maxResults then |docs| else maxResults)
            && forall k :: 0 <= k < |r| ==> r[k] == MapDoc(docs[k])
  {
  }

  /** The request restricts the search to audio and asks for twice as many
      rows as the answer can hold. */
  lemma RequestShape(query: string, maxResults: int)
    requires maxResults >= 0
    ensures var p := BuildRequest(query, maxResults).params;
            && Param(p, "q") == Some("collection:audio AND (" + query + ")")
            && Param(p, "rows").Some? && AllDigits(Param(p, "rows").value)
            && DecimalValue(Param(p, "rows").value) == 2 * maxResults
  {
    var p := BuildRequest(query, maxResults).params;
    assert p[0].0 == "q" && p[1].0 == "fl[]" && p[2] == ("rows", NatToDecimal(maxResults * 2));
    assert Param(p, "rows") == Param(p[1..], "rows") == Param(p[2..], "rows");
    DecimalRoundTrip(2 * maxResults);
  }

  /** The artist rule. */
  lemma ArtistRule(doc: Doc)
    ensures var a := MapDoc(doc).artist;
            && (doc.creator.Some? && doc.creator.value.Many? && doc.creator.value.names != [] ==>
                  a == Some(doc.creator.value.names[0]))
            && (doc.creator == Some(Many([])) ==> a.None?)
            && (doc.creator.Some? && doc.creator.value.One? && doc.creator.value.name != "" ==>
                  a == Some(doc.creator.value.name))
            && (doc.creator.None? || doc.creator == Some(One("")) ==> a == Some("Unknown Artist"))
  {
  }

  /** The three links are fixed prefixes followed by the identifier as a
      template prints it ("undefined" when it is missing); the duration and
      the view count are constants. */
  lemma FixedFields(doc: Doc)
    ensures var r := MapDoc(doc);
            var id := Interp(doc.identifier);
            && r.thumbnail == "https://archive.org/services/img/" + id
            && r.url == "https://archive.org/details/" + id
            && r.embedUrl == "https://archive.org/embed/" + id
            && (doc.identifier.None? ==> r.id.None? && r.url == "https://archive.org/details/undefined")
            && r.duration == "0:00" && r.viewCount == 0 && r.platform == "internet-archive"
  {
  }

  /** The description and date defaults. */
  lemma TextDefaults(doc: Doc)
    ensures var r := MapDoc(doc);
            && (!Present(doc.description) ==> r.description == r.title + " by " + Interp(r.artist))
            && (Present(doc.description) ==> r.description == doc.description.value)
            && (!Present(doc.date) ==> r.publishedAt == "Unknown")
            && r.title != ""
  {
  }
}
