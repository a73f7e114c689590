/** The browser-side chat client over the Puter.js library: the same prompt
    rule as the server client, option defaults, and a streaming call that
    forwards the text of each stream part to a callback. */
module PuterAi {
  import opened JsValues
  import opened Seqs
  import opened Prompt

  /** The caller's options; each one may be left undefined. */
  datatype Options = Options(model: Option<string>, maxTokens: Option<int>)

  /** What `window.puter.ai.chat` is given besides the prompt. */
  datatype ChatRequest = ChatRequest(prompt: string, model: string, maxTokens: int, stream: bool)

  datatype Outcome<+T> = Ok(value: T) | Err(message: string)

  /** What the chat call produced for a plain request. */
  datatype ChatAnswer = ChatThrew | Answer(text: string)

  /** One part of a streamed answer; `part?.text` may be missing. */
  datatype Part = Part(text: Option<string>)

  /** What the chat call produced for a streaming request: it threw, or it
      yielded some parts and then either ended or threw. */
  datatype Stream = StreamThrew | Parts(parts: seq<Part>, brokeOff: bool)

  const DefaultModel := "gpt-5-nano"
  const DefaultMaxTokens := 400

  const NotLoaded := "Puter.js is not loaded. Make sure the script is included in your HTML."
  const ChatFailed := "Failed to get AI response from Puter"
  const StreamFailed := "Failed to stream AI response from Puter"

  /** The destructuring defaults: they apply only to an undefined option
      (an omitted options object leaves every option undefined). */
  function ModelOf(o: Option<Options>): string {
    if o.Some? && o.value.model.Some? then o.value.model.value else DefaultModel
  }

  function MaxTokensOf(o: Option<Options>): int {
    if o.Some? && o.value.maxTokens.Some? then o.value.maxTokens.value else DefaultMaxTokens
  }

  function RequestFor(messages: seq<Message>, o: Option<Options>, stream: bool): ChatRequest {
    ChatRequest(BuildPrompt(messages), ModelOf(o), MaxTokensOf(o), stream)
  }

  /** `puterChat(messages, options)`.  `loaded` says whether `window.puter`
      exists; `chat` is the library call. */
  function PuterChat(messages: seq<Message>, o: Option<Options>, loaded: bool, chat: ChatRequest -> ChatAnswer)
    : Outcome<string>
  {
    if !loaded then Err(NotLoaded)
    else match chat(RequestFor(messages, o, false))
         case ChatThrew => Err(ChatFailed)
         case Answer(text) => Ok(text)
  }

  /** `part?.text` when truthy. */
  function TextOf(p: Part): Option<string> {
    if Present(p.text) then p.text else None
  }

  /** `puterChatStreaming(messages, onChunk, options)`.  `chunks` is the
      sequence of arguments `onChunk` is called with: the truthy texts of the
      parts, in arrival order, one call each. */
  method PuterChatStreaming(messages: seq<Message>, o: Option<Options>, loaded: bool,
                            chat: ChatRequest -> Stream)
    returns (chunks: seq<string>, result: Outcome<()>)
    ensures !loaded ==> chunks == [] && result == Err(NotLoaded)
    ensures loaded && chat(RequestFor(messages, o, true)).StreamThrew? ==>
              chunks == [] && result == Err(StreamFailed)
    ensures loaded && chat(RequestFor(messages, o, true)).Parts? ==>
              var s := chat(RequestFor(messages, o, true));
              chunks == FilterMap(TextOf, s.parts) &&
              result == (if s.brokeOff then Err(StreamFailed) else Ok(()))
  {
    chunks := [];
    if !loaded {
      return chunks, Err(NotLoaded);
    }
    var response := chat(RequestFor(messages, o, true));
    if response.StreamThrew? {
      return chunks, Err(StreamFailed);
    }
    var parts := response.parts;
    var i := 0;
    while i < |parts|
      invariant 0 <= i <= |parts|
      invariant chunks == FilterMap(TextOf, parts[..i])
    {
      var part := parts[i];
      if Present(part.text) {
        chunks := chunks + [part.text.value];
      }
      assert parts[..i + 1][..i] == parts[..i];
      i := i + 1;
    }
    assert parts[..i] == parts;
    result := if response.brokeOff then Err(StreamFailed) else Ok(());
  }

  // ------------------------------------------------------------ properties

  /** Both calls send the same prompt, model and token limit; only the
      stream flag differs. */
  lemma SameRequest(messages: seq<Message>, o: Option<Options>)
    ensures RequestFor(messages, o, false).prompt == RequestFor(messages, o, true).prompt == BuildPrompt(messages)
    ensures RequestFor(messages, o, false) == RequestFor(messages, o, true).(stream := false)
  {
  }

  /** An option left undefined, or an omitted options object, means
      `gpt-5-nano` and 400 tokens; a given option is used as given, even an
      empty model name or a zero token limit. */
  lemma Defaults(messages: seq<Message>, o: Option<Options>, stream: bool)
    ensures o.None? || o.value.model.None? ==> RequestFor(messages, o, stream).model == "gpt-5-nano"
    ensures o.None? || o.value.maxTokens.None? ==> RequestFor(messages, o, stream).maxTokens == 400
    ensures o.Some? && o.value.model.Some? ==> RequestFor(messages, o, stream).model == o.value.model.value
    ensures o.Some? && o.value.maxTokens.Some? ==>
              RequestFor(messages, o, stream).maxTokens == o.value.maxTokens.value
    ensures RequestFor(messages, Some(Options(None, None)), stream) == RequestFor(messages, None, stream)
  {
  }

  /** Without the library the answer does not depend on what the chat call
      would do: no call is made. */
  lemma NotLoadedMakesNoCall(messages: seq<Message>, o: Option<Options>,
                             chat1: ChatRequest -> ChatAnswer, chat2: ChatRequest -> ChatAnswer)
    ensures PuterChat(messages, o, false, chat1) == PuterChat(messages, o, false, chat2) == Err(NotLoaded)
  {
  }

  /** A successful plain call returns the library's answer unchanged; a
      throwing one is reported with the fixed message. */
  lemma ChatOutcome(messages: seq<Message>, o: Option<Options>, chat: ChatRequest -> ChatAnswer)
    ensures chat(RequestFor(messages, o, false)).Answer? ==>
              PuterChat(messages, o, true, chat) == Ok(chat(RequestFor(messages, o, false)).text)
    ensures chat(RequestFor(messages, o, false)).ChatThrew? ==>
              PuterChat(messages, o, true, chat) == Err(ChatFailed)
  {
  }

  /** Every forwarded chunk is non-empty and is the text of some part; a
      stream whose parts all carry text is forwarded whole. */
  lemma ForwardedChunks(parts: seq<Part>)
    ensures forall k :: 0 <= k < |FilterMap(TextOf, parts)| ==>
              FilterMap(TextOf, parts)[k] != "" &&
              exists j :: 0 <= j < |parts| && parts[j].text == Some(FilterMap(TextOf, parts)[k])
    ensures (forall j :: 0 <= j < |parts| ==> Present(parts[j].text)) ==>
              |FilterMap(TextOf, parts)| == |parts| &&
              forall j :: 0 <= j < |parts| ==> FilterMap(TextOf, parts)[j] == parts[j].text.value
  {
    forall k | 0 <= k < |FilterMap(TextOf, parts)|
      ensures FilterMap(TextOf, parts)[k] != "" &&
              exists j :: 0 <= j < |parts| && parts[j].text == Some(FilterMap(TextOf, parts)[k])
    {
      FilterMapOrigin(TextOf, parts, k);
    }
    if forall j :: 0 <= j < |parts| ==> Present(parts[j].text) {
      FilterMapKeepsAll(TextOf, parts);
    }
  }

  /** Chunks of a stream that arrives in two pieces are the chunks of the
      first piece followed by those of the second. */
  lemma ChunksInArrivalOrder(a: seq<Part>, b: seq<Part>)
    ensures FilterMap(TextOf, a + b) == FilterMap(TextOf, a) + FilterMap(TextOf, b)
  {
    FilterMapAppend(TextOf, a, b);
  }
}
