# matesearch provider core, modelled in Dafny

matesearch is a music search application. This project models its server-side
provider layer and the browser's chat client:

- three search adapters (SoundCloud, Mixcloud, Internet Archive). Each turns a
  provider's JSON answer into the one canonical search record (`Canonical.SearchResult`);
- the song-information route, which guesses an artist and a track from a free-text
  query, finds a video id, and looks the lyrics up in two stages;
- the server chat client, which offers one prompt to three free chat services in
  turn and falls back to a fixed apology;
- the browser chat client over Puter.js, with its option defaults and the
  streaming call that forwards each part's text to a callback.

Both chat clients build the prompt with the same rule, so it is defined once
(module `Prompt`). The JavaScript semantics the code leans on are written out in
three modules:

- `JsValues`: truthiness, `||` on optional fields, template interpolation of a
  missing field as "undefined";
- `JsStrings`: `String(n)`, `padStart`, the truncating `%`, `trim` with the
  ECMAScript whitespace set, `split`, `join`;
- `Seqs`: `map`, push-if-kept loops, `slice(0, end)` with a negative end.

Everything outside the model becomes a parameter, a function value the caller supplies:

- `fetch` for each adapter, and the chat network;
- the lyrics service and the video search;
- Puter's `chat`;
- `encodeURIComponent` and the current time, carried in `Canonical.Env`.

A failed request, a non-2xx status and a thrown error all become `Failed`,
because every caller treats them alike.

Code that changes local state step by step becomes a method; the rest is functions.

| method | source |
|---|---|
| `Seqs.PushKept` | the SoundCloud loop, with a loop invariant |
| `Seqs.PushEach` | the Internet Archive loop, with a loop invariant |
| `FreeGpt.FreegptChat` | the endpoint loop, which returns early, with loop invariants |
| `PuterAi.PuterChatStreaming` | the stream loop, with loop invariants |
| `SongInfo.HandleSongInfo` | the route handler: straight-line code that reassigns its locals, without a loop |

Each method is proved against a function, and the properties are lemmas about that function.

The `maxResults = 20` default argument of the three adapters is modelled as an
optional argument (`Canonical.Limit`), which takes 20 only when it is undefined.

The declared TypeScript types promise more than the code delivers, and the model
follows the code:

- The declared `id: string` of mixcloud.ts:4 and internet-archive.ts:4, and the
  declared `artist: string` of internet-archive.ts:6, can be undefined.
  Mixcloud's `key || slug` is undefined when both are missing. An Internet
  Archive document without `identifier` has no id, and an empty `creator` list
  gives no artist. So `SearchResult.id` and `.artist` are `Option<string>`.
  SoundCloud always sets both (`String(item.id)`, and 'Unknown Artist' as the
  artist fallback), and so does Mixcloud's artist; `SoundCloud.TrackRecordDefaults`
  and `Mixcloud.RecordDefaults` prove it.
- Mixcloud neither filters nor caps: `maxResults` reaches only the request URL
  (`Mixcloud.NoCapAfterMapping`).
- Internet Archive does not filter: every document gives a record, and the result
  is then cut to `maxResults` (`InternetArchive.ResultIsPrefix`).
- When the first video result has no `url`, `.match` throws. The route then
  answers 500, not 200 without an id (`SongInfo.HandleSongInfo`).
- The SoundCloud track test is `item.id` truthy, so a track with id 0 is dropped
  (`SoundCloud.IsTrack`).

## Model

| member | source | states |
|---|---|---|
| JsValues.FirstPresent | server/lib/mixcloud.ts:41 | a `||` chain of optional strings is truthy iff some candidate is; it is then the first truthy one, else the last candidate |
| JsValues.OrChain | server/lib/mixcloud.ts:41 | the nested `Or` the adapters are written with is that chain |
| JsStrings.NatToDecimal | server/lib/soundcloud.ts:74 | `String(n)` of a non-negative number is all digits, one digit iff n < 10, and has a leading zero only for 0 |
| JsStrings.DecimalRoundTrip | server/lib/internet-archive.ts:23 | reading back the printed number gives the number |
| JsStrings.DecimalRoundTripBack | server/lib/internet-archive.ts:23 | printing the value of a canonical digit string gives the string back |
| JsStrings.DecimalLowerBound | server/lib/internet-archive.ts:23 | a canonical digit string of two or more digits denotes at least 10 |
| JsStrings.JsRem | server/lib/mixcloud.ts:34 | JavaScript `%`: equals the Euclidean remainder for a non-negative dividend and lies strictly between -b and b |
| JsStrings.TrimStartCuts | server/routes/song-info.ts:37-40 | `trim` drops a whitespace prefix: the rest is a suffix that starts with a non-whitespace character, or is empty |
| JsStrings.TrimEndCuts | server/routes/song-info.ts:37-40 | `trim` drops a whitespace suffix: the rest is a prefix that ends with a non-whitespace character, or is empty |
| JsStrings.TrimCutsWhitespace | server/lib/freegpt.ts:57 | the trimmed text is a slice of the input with only whitespace outside it, and it starts and ends with non-whitespace |
| JsStrings.TrimBlank | server/lib/freegpt.ts:57 | `trim()` is empty exactly when every character is whitespace |
| JsStrings.Split | server/routes/song-info.ts:32 | `split` gives at least one part and no part holds a separator |
| JsStrings.FirstSep | server/routes/song-info.ts:47 | the position of the first separator, or the length when there is none; no separator before it |
| JsStrings.SplitAtFirst | server/routes/song-info.ts:32 | the first part runs up to the first separator; the other parts are the split of the text after it |
| JsStrings.SplitHasTwoParts | server/routes/song-info.ts:36 | there are two or more parts exactly when a separator occurs |
| JsStrings.FirstSepAt | server/routes/song-info.ts:47 | the first separator's position is fixed by the characters up to it |
| JsStrings.SplitNoSep | server/routes/song-info.ts:32 | a text without separators splits into itself alone |
| JsStrings.SplitCons | server/routes/song-info.ts:60 | a separator after a separator-free prefix ends the first part |
| JsStrings.SplitTwo | server/routes/song-info.ts:32 | one separator between separator-free texts gives exactly those two parts |
| JsStrings.SplitFour | server/routes/song-info.ts:60 | three separators between separator-free texts give exactly those four parts |
| JsStrings.JoinAppend | server/routes/song-info.ts:62-63 | joining a concatenation puts one separator between the joins of the halves |
| JsStrings.JoinSplit | server/routes/song-info.ts:60-63 | splitting on a character and joining with it gives the text back |
| Seqs.FilterMap | server/lib/soundcloud.ts:38-60 | the kept values are no more than the inputs |
| Seqs.FilterMapAppend | server/lib/soundcloud.ts:40-60 | the kept values of a concatenation are those of each half, in order |
| Seqs.DroppedItem | server/lib/soundcloud.ts:42 | an item that is not kept changes nothing when removed |
| Seqs.FilterMapOrigin | server/lib/soundcloud.ts:42-46 | every kept value comes from some input item that is kept |
| Seqs.FilterMapKeepsAll | client/src/lib/puter-ai.ts:90-94 | when every item is kept, output and input correspond one to one |
| Seqs.FilterMapDropsAll | server/lib/soundcloud.ts:42 | when no item is kept, the output is empty |
| Seqs.MapEach | server/lib/mixcloud.ts:31-50 | `map` keeps the length and the k-th output comes from the k-th input |
| Seqs.MapEachAppend | server/lib/mixcloud.ts:31 | mapping a concatenation maps each half, in order |
| Seqs.PushEach | server/lib/internet-archive.ts:37-59 | the loop pushing one record per item yields the map of the items |
| Seqs.PushKept | server/lib/soundcloud.ts:38-60 | the loop pushing a record per kept item yields the filtering map of the items |
| Seqs.SliceEnd | server/lib/soundcloud.ts:62 | definition of `slice`'s end index, within the length; specified by Seqs.SliceTo |
| Seqs.SliceTo | server/lib/internet-archive.ts:61 | `slice(0, end)` is a prefix: all of the input when `end` reaches its length, exactly `end` elements for an `end` inside it, the last `-end` elements dropped for a negative `end`, nothing when that drops everything |
| Duration.PaddedSeconds | server/lib/soundcloud.ts:74 | a seconds value below 60, padded to two places, is two digits denoting it |
| Duration.ColonJoin | server/lib/soundcloud.ts:74 | where the colon and the seconds field sit in `M:SS` |
| Duration.UnfoldMinutesSeconds | server/lib/mixcloud.ts:33-35 | for a non-negative count the JavaScript remainder is the Euclidean one |
| Duration.MinutesSecondsShape | server/lib/mixcloud.ts:33-35 | the text is the decimal minutes, a colon and two digits holding the leftover seconds |
| SoundCloud.FormatDurationShape | server/lib/soundcloud.ts:70-75 | `formatDuration` prints the whole seconds of a millisecond count as `M:SS` |
| SoundCloud.FormatDurationExamples | server/lib/soundcloud.ts:70-75 | 9000 ms is "0:09", 125000 ms is "2:05", 0 ms is "0:00" |
| SoundCloud.KeptTracksPush | server/lib/soundcloud.ts:40-59 | one more item adds its record exactly when it is a track with an id |
| SoundCloud.SearchSoundCloud | server/lib/soundcloud.ts:18-67 | a failed request gives []; otherwise the records of the track items, in order, cut to `maxResults` (20 when it is undefined) |
| SoundCloud.DefaultCap | server/lib/soundcloud.ts:18 | without a `maxResults` argument at most 20 records are returned |
| SoundCloud.OnlyTracksProduceRecords | server/lib/soundcloud.ts:42 | every record is built from an input item that is a track with an id |
| SoundCloud.NonTracksAreDropped | server/lib/soundcloud.ts:41-42 | removing a non-track item changes no record |
| SoundCloud.KeepsInputOrder | server/lib/soundcloud.ts:40 | records follow the collection's order |
| SoundCloud.CapAppliesAfterFilter | server/lib/soundcloud.ts:62 | the cap counts records, not items: a leading playlist does not use up a place |
| SoundCloud.TrackRecordDefaults | server/lib/soundcloud.ts:46-57 | platform, a non-empty id other than "0", the title ("Unknown" when missing or empty) and artist ("Unknown Artist") fallbacks, the play count or 0, "0:00" for a missing duration |
| Mixcloud.OneRecordPerCloudcast | server/lib/mixcloud.ts:31-50 | one record per cloudcast, the k-th from the k-th |
| Mixcloud.SearchMixcloud | server/lib/mixcloud.ts:17-57 | a failed request gives []; otherwise exactly one record per cloudcast, the k-th from the k-th: no filter and no cap |
| Mixcloud.MapAllAppend | server/lib/mixcloud.ts:31 | records keep the response order |
| Mixcloud.NoCapAfterMapping | server/lib/mixcloud.ts:52 | three cloudcasts under a limit of 1 still give three records |
| Mixcloud.DurationShape | server/lib/mixcloud.ts:32-35 | the duration is `M:SS` of `audio_length`, and "0:00" when it is missing |
| Mixcloud.ThumbnailPrecedence | server/lib/mixcloud.ts:41 | the thumbnail is the first non-empty of large, medium and thumbnail, else ""; it is the `||` chain of the three |
| Mixcloud.Fallbacks | server/lib/mixcloud.ts:38-43 | id is `key`, else `slug`; artist is the user's name, else the username, else "Unknown Artist"; url is the given one, else built from `key` |
| Mixcloud.RecordDefaults | server/lib/mixcloud.ts:39-48 | platform "mixcloud", the play count or 0, a non-empty title and artist |
| InternetArchive.SearchInternetArchive | server/lib/internet-archive.ts:17-66 | a failed request gives []; otherwise one record per document, cut to `maxResults` (20 when it is undefined) |
| InternetArchive.ResultIsPrefix | server/lib/internet-archive.ts:39-61 | the answer holds min(documents, maxResults) records, each the k-th document's |
| InternetArchive.RequestShape | server/lib/internet-archive.ts:20-26 | the query is restricted to the audio collection and `rows` is the decimal text of twice `maxResults` |
| InternetArchive.ArtistRule | server/lib/internet-archive.ts:42 | a list gives its first name (none when empty), a non-empty name is used, otherwise "Unknown Artist" |
| InternetArchive.FixedFields | server/lib/internet-archive.ts:50-57 | for every document, thumbnail, url and embed link are fixed prefixes plus the identifier as printed ("undefined" when missing); duration "0:00", views 0 |
| InternetArchive.TextDefaults | server/lib/internet-archive.ts:41-44 | description is the given one, else "title by creator"; the date defaults to "Unknown"; the title is never empty |
| Prompt.FindSystem | server/lib/freegpt.ts:71 | the index found holds the first system message; none found means there is no system message |
| Prompt.PromptRule | server/lib/freegpt.ts:70-73 | with non-empty first system content the prompt is that content, a blank line, "User: " and the last content; otherwise the last content |
| Prompt.NoSystemPrompt | client/src/lib/puter-ai.ts:39-44 | without a system message the prompt is the last content, "" for no messages |
| Prompt.FindSystemIs | server/lib/freegpt.ts:71 | the first system message's position determines what `find` returns |
| Prompt.InsertAfterSystem | server/lib/freegpt.ts:71 | a turn inserted after the first system message leaves it found in place |
| Prompt.InsertBeforeSystem | server/lib/freegpt.ts:71 | a non-system turn inserted before it shifts it by one |
| Prompt.InsertWithoutSystem | server/lib/freegpt.ts:71 | a non-system turn inserted where there is no system message leaves none |
| Prompt.InsertedTurnIgnored | server/lib/freegpt.ts:70-73 | a turn inserted before the last message leaves the prompt unchanged unless it becomes the first system message |
| Prompt.MiddleContentIgnored | client/src/lib/puter-ai.ts:39-44 | the content of a turn that is neither the first system message nor the last does not reach the prompt |
| Prompt.PromptExample | client/src/lib/puter-ai.ts:39-44 | a worked conversation, and a conversation whose system content is empty |
| FreeGpt.ExtractFirstTruthy | server/lib/freegpt.ts:14 | an extractor's `||` chain is truthy iff some field is; it is then the first truthy field, else the last field's value |
| FreeGpt.FreegptChat | server/lib/freegpt.ts:69-86 | endpoints are tried from the first, strictly in order; every attempt before the last failed; the reply is the last attempt's answer, or the apology after all three failed |
| FreeGpt.SuccessIsNonBlank | server/lib/freegpt.ts:36-67 | an attempt succeeds exactly when the request answered and the extracted value is a non-blank string, which is returned |
| FreeGpt.NonBlankIsNonEmpty | server/lib/freegpt.ts:57 | a non-blank string is non-empty |
| FreeGpt.TruthyNonStringBlocksAnswer | server/lib/freegpt.ts:14 | a truthy non-string `response` hides a good `answer`, so the primary attempt fails |
| FreeGpt.TextOnlyBody | server/lib/freegpt.ts:14-31 | `text` is read by the primary endpoint only: a body with only `text` satisfies it and leaves both fallbacks undefined |
| FreeGpt.CompletionPrefersChoice | server/lib/freegpt.ts:31 | the completion endpoint prefers the first choice's content |
| FreeGpt.EndpointOrder | server/lib/freegpt.ts:9-34 | three endpoints, with their names, order and timeouts |
| PuterAi.PuterChatStreaming | client/src/lib/puter-ai.ts:60-99 | not loaded: no chunk, "not loaded" error; a throwing call: no chunk, stream error; otherwise the truthy part texts in arrival order, then the stream error if the stream broke off |
| PuterAi.SameRequest | client/src/lib/puter-ai.ts:69-88 | both calls send the same prompt, model and token limit; only the stream flag differs |
| PuterAi.Defaults | client/src/lib/puter-ai.ts:33-37 | an undefined option, or omitted options, mean "gpt-5-nano" and 400 tokens; a given model or token limit is used as given; `{}` behaves like omitted options |
| PuterAi.NotLoadedMakesNoCall | client/src/lib/puter-ai.ts:29-31 | without the library the answer is the "not loaded" error, whatever the chat call would do |
| PuterAi.ChatOutcome | client/src/lib/puter-ai.ts:46-57 | an answer is returned unchanged; a thrown error becomes the fixed message |
| PuterAi.ForwardedChunks | client/src/lib/puter-ai.ts:90-94 | every forwarded chunk is non-empty and is the text of some part; a stream whose parts all carry text is forwarded whole |
| PuterAi.ChunksInArrivalOrder | client/src/lib/puter-ai.ts:90-94 | the chunks of a stream in two pieces are the first piece's chunks then the second's |
| SongInfo.FirstMatch | server/routes/song-info.ts:47 | the leftmost position where `[?&]v=` is followed by a character other than '&', or none |
| SongInfo.HandleSongInfo | server/routes/song-info.ts:24-76 | no or empty `q` gives 400 with no lookup; a throwing search or a first result without url gives 500; otherwise the first result's id and the resolved lyrics or placeholder, with the lookups made |
| SongInfo.LookupPlan | server/routes/song-info.ts:53-66 | at most two lookups: the direct one first when artist and track are known; a direct hit is the only lookup; the word-midpoint guess is looked up exactly when nothing was found yet and the track has two or more words |
| SongInfo.LyricsFromLastLookup | server/routes/song-info.ts:53-66 | found lyrics come from the last lookup; when none are found every lookup missed |
| SongInfo.LyricsNeverEmpty | server/routes/song-info.ts:70 | the answered lyrics are the found non-empty text or the placeholder, never empty |
| SongInfo.FetchLyricsCases | server/routes/song-info.ts:6-22 | a failed call, or a missing or empty text, gives nothing; a body with a non-empty text gives exactly that text |
| SongInfo.WordSplitReassembles | server/routes/song-info.ts:60-63 | the two halves of the guess joined by a space give the track back |
| SongInfo.ParseQueryParts | server/routes/song-info.ts:32-41 | with a dash, artist and track are the trimmed texts before the first dash and between the first and second dash; without one, no artist and the trimmed query |
| SongInfo.VideoIdMatch | server/routes/song-info.ts:46-51 | the id is the non-empty run without '&' after the leftmost matching `?v=`/`&v=`, ending at '&' or the end; no match means no id |
| SongInfo.FirstMatchAt | server/routes/song-info.ts:47 | the leftmost match is fixed by the text up to it |
| SongInfo.QueenSplit | server/routes/song-info.ts:32 | "Queen - Bohemian Rhapsody" splits at its dash |
| SongInfo.QueenTrim | server/routes/song-info.ts:37 | trimming "Queen " gives "Queen" |
| SongInfo.BohemianTrim | server/routes/song-info.ts:38 | trimming " Bohemian Rhapsody" gives "Bohemian Rhapsody" |
| SongInfo.QueenExample | server/routes/song-info.ts:32-41 | "Queen - Bohemian Rhapsody" is artist "Queen" and track "Bohemian Rhapsody" |
| SongInfo.MidpointWords | server/routes/song-info.ts:60 | "take me home tonight" has four words |
| SongInfo.WordSplitFour | server/routes/song-info.ts:60-63 | four words are guessed as two plus two |
| SongInfo.MidpointExample | server/routes/song-info.ts:60-63 | "take me home tonight" is guessed as "take me" and "home tonight" |
| SongInfo.HelloSplit | server/routes/song-info.ts:32 | "hello" has no dash |
| SongInfo.HelloWords | server/routes/song-info.ts:60 | "hello" is one word |
| SongInfo.SingleWordNoLookup | server/routes/song-info.ts:55-66 | a single undelimited word makes no lyrics lookup |
| SongInfo.VideoIdExample | server/routes/song-info.ts:47-49 | the id of "/watch?v=ab&t=1" is "ab" |
| SongInfo.VideoIdSkipsEmptyCapture | server/routes/song-info.ts:47 | in "?v=&v=zz" the first `?v=` captures nothing, so the id is "zz" |
| SongInfo.VideoIdAbsent | server/routes/song-info.ts:47-51 | a url without `v=` gives no id |
| Canonical.Limit | server/lib/soundcloud.ts:18 | definition of the `maxResults = 20` default; specified by SoundCloud.DefaultCap |
| JsStrings.IntToDecimal | server/lib/soundcloud.ts:47 | definition of `String(n)`; specified by JsStrings.NatToDecimal and JsStrings.DecimalRoundTrip |
| JsStrings.PadStart | server/lib/soundcloud.ts:74 | definition of `padStart`; specified by Duration.PaddedSeconds |
| JsStrings.Trim | server/routes/song-info.ts:37 | definition of `trim`; specified by JsStrings.TrimCutsWhitespace and JsStrings.TrimBlank |
| JsStrings.Join | server/routes/song-info.ts:62 | definition of `join`; specified by JsStrings.JoinAppend and JsStrings.JoinSplit |
| Duration.MinutesSeconds | server/lib/mixcloud.ts:32-35 | definition of the `M:SS` text; specified by Duration.MinutesSecondsShape |
| SoundCloud.FormatDuration | server/lib/soundcloud.ts:70-75 | definition; specified by SoundCloud.FormatDurationShape |
| SoundCloud.IsTrack | server/lib/soundcloud.ts:42 | definition of the track test; specified by SoundCloud.OnlyTracksProduceRecords and SoundCloud.NonTracksAreDropped |
| SoundCloud.MapTrack | server/lib/soundcloud.ts:46-58 | definition of a track's record; specified by SoundCloud.TrackRecordDefaults |
| Mixcloud.CastDuration | server/lib/mixcloud.ts:32-35 | definition; specified by Mixcloud.DurationShape |
| Mixcloud.MapCloudcast | server/lib/mixcloud.ts:37-49 | definition of a cloudcast's record; specified by Mixcloud.Fallbacks, Mixcloud.ThumbnailPrecedence and Mixcloud.RecordDefaults |
| InternetArchive.BuildRequest | server/lib/internet-archive.ts:19-26 | definition of the request; specified by InternetArchive.RequestShape |
| InternetArchive.CreatorOf | server/lib/internet-archive.ts:42 | definition of the artist rule; specified by InternetArchive.ArtistRule |
| InternetArchive.MapDoc | server/lib/internet-archive.ts:40-58 | definition of a document's record; specified by InternetArchive.ArtistRule, InternetArchive.FixedFields and InternetArchive.TextDefaults |
| Prompt.BuildPrompt | server/lib/freegpt.ts:70-73 | definition of the prompt; specified by Prompt.PromptRule and Prompt.NoSystemPrompt |
| FreeGpt.Extract | server/lib/freegpt.ts:14 | definition of an extractor's `||` chain; specified by FreeGpt.ExtractFirstTruthy |
| FreeGpt.TryEndpoint | server/lib/freegpt.ts:36-67 | definition of one attempt; specified by FreeGpt.SuccessIsNonBlank |
| FreeGpt.AiEndpoints | server/lib/freegpt.ts:9-34 | the endpoint table; specified by FreeGpt.EndpointOrder |
| PuterAi.RequestFor | client/src/lib/puter-ai.ts:33-51 | definition of the chat request; specified by PuterAi.SameRequest and PuterAi.Defaults |
| PuterAi.PuterChat | client/src/lib/puter-ai.ts:25-58 | definition of `puterChat`; specified by PuterAi.NotLoadedMakesNoCall and PuterAi.ChatOutcome |
| SongInfo.FetchLyrics | server/routes/song-info.ts:6-22 | definition; specified by SongInfo.FetchLyricsCases |
| SongInfo.ParseQuery | server/routes/song-info.ts:32-41 | definition of the dash split; specified by SongInfo.ParseQueryParts |
| SongInfo.WordSplit | server/routes/song-info.ts:60-63 | definition of the word-midpoint guess; specified by SongInfo.WordSplitReassembles |
| SongInfo.VideoId | server/routes/song-info.ts:47-50 | definition of the id capture; specified by SongInfo.VideoIdMatch |
| SongInfo.Resolve | server/routes/song-info.ts:53-66 | definition of the two lookups; specified by SongInfo.LookupPlan and SongInfo.LyricsFromLastLookup |

## Left out

- Numbers are integers: floating point, `NaN` and fractional durations are not modelled. `Math.floor(ms / 1000)` is Dafny's floor division, which matches for the integer values modelled.
- JSON `null` is treated like a missing field. In a template a missing field prints "undefined"; a `null` would print "null".
- Field types are fixed by the datatypes. A non-string title, a numeric `permalink_url` or a non-string `part.text` are outside the model. Only the chat answers' fields are loosely typed (`JsValues.Value`).
- `encodeURIComponent`, the `URLSearchParams` encoding and `new Date().toISOString()` are parameters (`Canonical.Env`, and `InternetArchive.Request` lists its parameters unencoded).
- Request headers, the HTTP status, JSON parsing, abort timers and exceptions are folded into `HttpOutcome.Failed`. The timeouts are carried in the posted request.
- Logging (`console.log`, `console.error`) is not modelled.
- The `temperature` option of the Puter client is not modelled. Neither are `freegptChat`'s unused `model`, `max_tokens` and `temperature` parameters.
- `puterGenerateImage` and `AVAILABLE_MODELS` in client/src/lib/puter-ai.ts are not modelled: they are outside the chat path.
- The video search (server/lib/youtube) is not part of this model. It is a parameter that returns results or throws.
- The Express wiring is not modelled. `req.query.q` given as an array is not modelled; `q` is an optional string.
- `onChunk` throwing is not modelled. The model records the chunks it is called with.
- Calls are sequential in the model: there is no concurrency between requests.
- The client components are not modelled. Only the video-and-lyrics panel (client/src/components/song-video-lyrics.tsx:22) calls a modelled route, the song-information route. The assistant (client/src/components/ai-assistant.tsx) embeds an external chat page in an iframe and calls neither chat client. The search page (client/src/pages/search.tsx:43) calls the search aggregator, which merges the adapters' results and is not part of this model.
- `Seqs.PushEach`, `Seqs.PushKept`: the adapters' loops are written once, generically, and instantiated with each adapter's record function.
