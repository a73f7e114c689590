/** The one-string prompt both chat clients build from a conversation: the
    first system message's content, a blank line, "User: " and the last
    message's content; or just the last message's content when there is no
    system message with non-empty content. */
module Prompt {
  import opened JsValues

  datatype Role = System | User | Assistant

  datatype Message = Message(role: Role, content: string)

  /** `messages.find(m => m.role === 'system')`, as an index. */
  function FindSystem(ms: seq<Message>): (r: Option<nat>)
    ensures r.Some? ==> FirstSystemAt(ms, r.value)
    ensures r.None? ==> NoSystem(ms)
    decreases |ms|
  {
    if ms == [] then None
    else if ms[0].role == System then Some(0)
    else match FindSystem(ms[1..])
         case Some(k) => Some(k + 1)
         case None => None
  }

  /** Position `k` holds the first system message. */
  predicate FirstSystemAt(ms: seq<Message>, k: nat) {
    k < |ms| && ms[k].role == System && forall j :: 0 <= j < k ==> ms[j].role != System
  }

  predicate NoSystem(ms: seq<Message>) {
    forall j :: 0 <= j < |ms| ==> ms[j].role != System
  }

  /** `messages.find(m => m.role === 'system')?.content || ''`. */
  function SystemContent(ms: seq<Message>): string {
    match FindSystem(ms)
    case Some(k) => ms[k].content
    case None => ""
  }

  /** `messages[messages.length - 1]?.content || ''`. */
  function LastContent(ms: seq<Message>): string {
    if ms == [] then "" else ms[|ms| - 1].content
  }

  /** The prompt sent to the model. */
  function BuildPrompt(ms: seq<Message>): string {
    var system := SystemContent(ms);
    var user := LastContent(ms);
    if system != "" then system + "\n\nUser: " + user else user
  }

  // ------------------------------------------------------------ properties

  /** The prompt rule stated on positions: with a first system message at
      `k` carrying non-empty content, the prompt is that content, the
      separator and the last content; otherwise it is the last content. */
  lemma PromptRule(ms: seq<Message>, k: nat)
    requires k < |ms| && ms[k].role == System
    requires forall j :: 0 <= j < k ==> ms[j].role != System
    ensures ms[k].content != "" ==>
              BuildPrompt(ms) == ms[k].content + "\n\nUser: " + ms[|ms| - 1].content
    ensures ms[k].content == "" ==> BuildPrompt(ms) == ms[|ms| - 1].content
  {
    assert FindSystem(ms) == Some(k);
  }

  /** Without any system message the prompt is the last content; for an
      empty conversation it is "". */
  lemma NoSystemPrompt(ms: seq<Message>)
    requires forall j :: 0 <= j < |ms| ==> ms[j].role != System
    ensures BuildPrompt(ms) == LastContent(ms)
    ensures ms == [] ==> BuildPrompt(ms) == ""
  {
    assert FindSystem(ms).None?;
  }

  /** `find` returns the first system message, so that position determines it. */
  lemma FindSystemIs(ms: seq<Message>, k: nat)
    requires FirstSystemAt(ms, k)
    ensures FindSystem(ms) == Some(k)
  {
  }

  /** A turn inserted after the first system message leaves it in place. */
  lemma InsertAfterSystem(ms: seq<Message>, i: nat, m: Message, k: nat)
    requires FirstSystemAt(ms, k) && k < i <= |ms|
    ensures FindSystem(ms[..i] + [m] + ms[i..]) == Some(k)
  {
    var ms' := ms[..i] + [m] + ms[i..];
    assert forall j :: 0 <= j <= k ==> ms'[j] == ms[j];
    FindSystemIs(ms', k);
  }

  /** A non-system turn inserted before the first system message shifts it by one. */
  lemma InsertBeforeSystem(ms: seq<Message>, i: nat, m: Message, k: nat)
    requires FirstSystemAt(ms, k) && i <= k && m.role != System
    ensures FindSystem(ms[..i] + [m] + ms[i..]) == Some(k + 1)
  {
    var ms' := ms[..i] + [m] + ms[i..];
    assert forall j :: 0 <= j < i ==> ms'[j] == ms[j];
    assert forall j :: i < j <= k + 1 ==> ms'[j] == ms[j - 1];
    FindSystemIs(ms', k + 1);
  }

  /** A non-system turn inserted into a conversation without system messages
      leaves it without one. */
  lemma InsertWithoutSystem(ms: seq<Message>, i: nat, m: Message)
    requires NoSystem(ms) && i <= |ms| && m.role != System
    ensures FindSystem(ms[..i] + [m] + ms[i..]).None?
  {
    var ms' := ms[..i] + [m] + ms[i..];
    assert forall j :: 0 <= j < i ==> ms'[j] == ms[j];
    assert forall j :: i < j < |ms'| ==> ms'[j] == ms[j - 1];
    assert NoSystem(ms');
  }

  /** A turn inserted anywhere before the last message changes nothing,
      unless it is a system message that becomes the first one. */
  lemma InsertedTurnIgnored(ms: seq<Message>, i: nat, m: Message)
    requires i < |ms|
    requires m.role != System || exists j :: 0 <= j < i && ms[j].role == System
    ensures BuildPrompt(ms[..i] + [m] + ms[i..]) == BuildPrompt(ms)
  {
    var ms' := ms[..i] + [m] + ms[i..];
    assert ms'[|ms'| - 1] == ms[|ms| - 1];
    match FindSystem(ms)
    case Some(k) =>
      if k < i {
        InsertAfterSystem(ms, i, m, k);
        assert ms'[k] == ms[k];
      } else {
        InsertBeforeSystem(ms, i, m, k);
        assert ms'[k + 1] == ms[k];
      }
    case None =>
      InsertWithoutSystem(ms, i, m);
  }

  /** The content of a turn that is neither the first system message nor
      the last message does not reach the prompt. */
  lemma MiddleContentIgnored(ms: seq<Message>, i: nat, text: string)
    requires i < |ms| - 1
    requires FindSystem(ms) != Some(i)
    ensures BuildPrompt(ms[i := Message(ms[i].role, text)]) == BuildPrompt(ms)
  {
    var ms' := ms[i := Message(ms[i].role, text)];
    match FindSystem(ms)
    case Some(k) =>
      FindSystemIs(ms', k);
    case None =>
      assert forall j :: 0 <= j < |ms'| ==> ms'[j].role == ms[j].role;
  }

  lemma PromptExample()
    ensures BuildPrompt([Message(System, "Be brief."), Message(User, "Hi"), Message(Assistant, "Hello"),
                         Message(User, "Best 80s album?")])
            == "Be brief.\n\nUser: Best 80s album?"
    ensures BuildPrompt([Message(User, "Hi"), Message(System, "")]) == ""
  {
    assert FindSystem([Message(System, "Be brief."), Message(User, "Hi"), Message(Assistant, "Hello"),
                       Message(User, "Best 80s album?")]) == Some(0);
    var two := [Message(User, "Hi"), Message(System, "")];
    assert FindSystem(two[1..]) == Some(0);
  }
}
