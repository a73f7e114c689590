/** The server-side chat client: it builds one prompt from the conversation
    and offers it to a fixed list of free chat services in order, returning
    the first usable answer or a fixed apology. */
module FreeGpt {
  import opened JsValues
  import opened JsStrings
  import opened Prompt

  /** The first choice's message of a chat-completion answer. */
  datatype ChoiceMessage = ChoiceMessage(content: Value)

  datatype Choice = Choice(message: Option<ChoiceMessage>)

  /** The fields of a parsed answer that any endpoint reads. */
  datatype ChatData = ChatData(
    response: Value,
    answer: Value,
    reply: Value,
    message: Value,
    text: Value,
    choices: Option<seq<Choice>>)

  /** A field an extractor reads. */
  datatype Field = Response | Answer | Reply | MessageField | Text | FirstChoiceContent

  /** `data.<field>`; `data.choices?.[0]?.message?.content` for the last kind. */
  function FieldValue(d: ChatData, f: Field): Value {
    match f
    case Response => d.response
    case Answer => d.answer
    case Reply => d.reply
    case MessageField => d.message
    case Text => d.text
    case FirstChoiceContent =>
      if d.choices.Some? && |d.choices.value| > 0 && d.choices.value[0].message.Some?
      then d.choices.value[0].message.value.content
      else Undefined
  }

  /** `data.f0 || data.f1 || ... || data.fn`. */
  function Extract(fields: seq<Field>, d: ChatData): Value
    requires |fields| > 0
    decreases |fields|
  {
    if |fields| == 1 then FieldValue(d, fields[0])
    else OrValue(FieldValue(d, fields[0]), Extract(fields[1..], d))
  }

  /** The chain yields the first truthy field, or the last field's value
      when none is truthy; it is truthy exactly when some field is. */
  lemma {:induction false} ExtractFirstTruthy(fields: seq<Field>, d: ChatData)
    requires |fields| > 0
    ensures var v := Extract(fields, d);
            && (v.Truthy() <==> exists k :: 0 <= k < |fields| && FieldValue(d, fields[k]).Truthy())
            && (v.Truthy() ==> exists k :: 0 <= k < |fields| && v == FieldValue(d, fields[k]) &&
                                           forall j :: 0 <= j < k ==> !FieldValue(d, fields[j]).Truthy())
            && (!v.Truthy() ==> v == FieldValue(d, fields[|fields| - 1]))
    decreases |fields|
  {
    if |fields| > 1 {
      ExtractFirstTruthy(fields[1..], d);
      assert forall k :: 1 <= k < |fields| ==> fields[k] == fields[1..][k - 1];
      var v := Extract(fields, d);
      if FieldValue(d, fields[0]).Truthy() {
        assert v == FieldValue(d, fields[0]);
      } else if v.Truthy() {
        var k :| 0 <= k < |fields[1..]| && v == FieldValue(d, fields[1..][k]) &&
                 forall j :: 0 <= j < k ==> !FieldValue(d, fields[1..][j]).Truthy();
        assert v == FieldValue(d, fields[k + 1]);
        assert forall j :: 1 <= j < k + 1 ==> !FieldValue(d, fields[j]).Truthy();
      }
    }
  }

  /** The JSON body an endpoint is sent. */
  datatype RequestBody =
    | MessageBody(message: string)
    | CompletionBody(model: string, messages: seq<(string, string)>)   // (role, content)

  datatype BodyShape = MessageShape | CompletionShape

  /** One entry of `AI_ENDPOINTS`. */
  datatype Endpoint = Endpoint(name: string, url: string, shape: BodyShape, fields: seq<Field>, timeoutMs: nat)

  function BuildBody(shape: BodyShape, query: string): RequestBody {
    match shape
    case MessageShape => MessageBody(query)
    case CompletionShape => CompletionBody("gpt-3.5-turbo", [("user", query)])
  }

  /** The endpoints, in the order they are tried. */
  const AiEndpoints: seq<Endpoint> := [
    Endpoint("Primary API", "https://ai-wtsg.onrender.com/chat/", MessageShape,
             [Response, Answer, Reply, MessageField, Text], 45000),
    Endpoint("Fallback API 1", "https://free-unoficial-gpt4o-mini-api-g70n.onrender.com/chat/", MessageShape,
             [Response, Answer, Reply, MessageField], 30000),
    Endpoint("Fallback API 2", "https://chatgpt-api.shn.hk/v1/", CompletionShape,
             [FirstChoiceContent, Response, Answer], 30000)
  ]

  /** What is posted: the URL, the JSON body and the abort timeout. */
  datatype Post = Post(url: string, body: RequestBody, timeoutMs: nat)

  /** The network: the outcome of one POST.  A non-2xx status, a timeout and
      any thrown error are `Failed`. */
  type Network = Post -> HttpOutcome<ChatData>

  const Degraded := "I'm currently unable to connect to the AI service. The API may be waking up (this can take 30-60 seconds for free services). Please try again in a moment, or ask a specific music question."

  /** `tryEndpoint(endpoint, query)`: the extracted answer when it is a
      string that is not blank, otherwise nothing. */
  function TryEndpoint(ep: Endpoint, query: string, net: Network): (r: Option<string>)
    requires |ep.fields| > 0
  {
    match net(Post(ep.url, BuildBody(ep.shape, query), ep.timeoutMs))
    case Failed => None
    case Body(d) =>
      var v := Extract(ep.fields, d);
      if v.Str? && v.s != "" && Trim(v.s) != "" then Some(v.s) else None
  }

  /** The attempt at endpoint `i` of the list. */
  function Attempt(i: nat, query: string, net: Network): Option<string>
    requires i < |AiEndpoints|
  {
    TryEndpoint(AiEndpoints[i], query, net)
  }

  /** `freegptChat({ messages })`: `tried` lists the endpoints attempted, by
      position.  They are attempted from the first, strictly in order; every
      attempt but the last failed; the last one either succeeded and its
      answer is the reply, or it was the third one, every endpoint failed
      once, and the reply is the apology. */
  method FreegptChat(messages: seq<Message>, net: Network) returns (reply: string, tried: seq<nat>)
    ensures 1 <= |tried| <= |AiEndpoints|
    ensures forall k :: 0 <= k < |tried| ==> tried[k] == k
    ensures forall k :: 0 <= k < |tried| - 1 ==> Attempt(k, BuildPrompt(messages), net).None?
    ensures Attempt(|tried| - 1, BuildPrompt(messages), net).Some? ==>
              reply == Attempt(|tried| - 1, BuildPrompt(messages), net).value
    ensures Attempt(|tried| - 1, BuildPrompt(messages), net).None? ==>
              |tried| == |AiEndpoints| && reply == Degraded
  {
    var query := BuildPrompt(messages);
    tried := [];
    for i := 0 to |AiEndpoints|
      invariant |tried| == i
      invariant forall k :: 0 <= k < i ==> tried[k] == k
      invariant forall k :: 0 <= k < i ==> Attempt(k, query, net).None?
    {
      var result := TryEndpoint(AiEndpoints[i], query, net);
      tried := tried + [i];
      if result.Some? {
        return result.value, tried;
      }
    }
    reply := Degraded;
  }

  // ------------------------------------------------------------ properties

  /** A successful attempt is a non-blank string, exactly what the endpoint's
      extractor found; a failed request is never a success. */
  lemma SuccessIsNonBlank(ep: Endpoint, query: string, net: Network)
    requires |ep.fields| > 0
    ensures var out := net(Post(ep.url, BuildBody(ep.shape, query), ep.timeoutMs));
            match TryEndpoint(ep, query, net)
            case Some(s) => Trim(s) != "" && out.Body? && Extract(ep.fields, out.data) == Str(s)
            case None => out.Failed? || !(Extract(ep.fields, out.data).Str? &&
                                          Trim(Extract(ep.fields, out.data).s) != "")
  {
  }

  /** A non-blank string is never empty, so the truthiness test in the
      success condition adds nothing to the trim test. */
  lemma NonBlankIsNonEmpty(s: string)
    ensures Trim(s) != "" ==> s != ""
  {
    if s == "" {
      TrimBlank(s);
    }
  }

  /** A truthy field that is not a string (here the number 1 in `response`)
      hides a good `answer`: the primary attempt fails. */
  lemma TruthyNonStringBlocksAnswer(net: Network, query: string, d: ChatData)
    requires d.response == Num(1) && d.answer == Str("hello")
    requires net(Post(AiEndpoints[0].url, BuildBody(MessageShape, query), 45000)) == Body(d)
    ensures Attempt(0, query, net).None?
  {
    assert Extract(AiEndpoints[0].fields, d) == Num(1);
  }

  /** A body carrying only `text` satisfies the primary endpoint and
      neither fallback: only the primary endpoint reads `text`. */
  lemma TextOnlyBody(query: string, d: ChatData)
    requires d.response == Undefined && d.answer == Undefined && d.reply == Undefined &&
             d.message == Undefined && d.text == Str("hi") && d.choices.None?
    ensures Extract(AiEndpoints[0].fields, d) == Str("hi")
    ensures Extract(AiEndpoints[1].fields, d) == Undefined
    ensures Extract(AiEndpoints[2].fields, d) == Undefined
  {
    assert !Extract(AiEndpoints[1].fields, d).Truthy();
    assert !Extract(AiEndpoints[2].fields, d).Truthy();
  }

  /** The completion endpoint prefers the first choice's content. */
  lemma CompletionPrefersChoice(d: ChatData, content: string)
    requires d.choices == Some([Choice(Some(ChoiceMessage(Str(content))))]) && content != ""
    ensures Extract(AiEndpoints[2].fields, d) == Str(content)
  {
    assert FieldValue(d, FirstChoiceContent) == Str(content);
  }

  /** The endpoint table: order, names and timeouts. */
  lemma EndpointOrder()
    ensures |AiEndpoints| == 3
    ensures AiEndpoints[0].name == "Primary API" && AiEndpoints[0].timeoutMs == 45000
    ensures AiEndpoints[1].name == "Fallback API 1" && AiEndpoints[1].timeoutMs == 30000
    ensures AiEndpoints[2].name == "Fallback API 2" && AiEndpoints[2].timeoutMs == 30000
    ensures AiEndpoints[2].fields[0] == FirstChoiceContent
  {
  }
}
