/** `extract_last_assistant_text` of the supervisor API (agent/app/main.py):
    the text of the last turn spoken by the assistant in a conversation, with
    structured content flattened to lines. Plain dictionaries and LangChain
    message objects are read the same way ("role" or `type`, and "content"),
    so one message type stands for both. */
module AssistantReply {
  import opened Common

  /** One element of list content: a dictionary with a "text" key, or anything
      else, carried as its `str()`. */
  datatype Part = TextPart(text: string) | OtherPart(repr: string)

  /** The value of a message's content: a string, a list of parts, `None`, or
      any other value, carried as its `str()`. */
  datatype Content = StrContent(s: string) | ListContent(parts: seq<Part>) | NoneContent | OtherContent(repr: string)

  /** A message's role (or `type`) and content; `None` when the key or
      attribute is missing. */
  datatype Message = Message(role: Option<string>, content: Option<Content>)

  /** The assistant side of the conversation is "assistant" or "ai". */
  predicate IsReply(m: Message)
  {
    m.role == Some("assistant") || m.role == Some("ai")
  }

  /** `m.get("content", "")`: a missing content reads as the empty string. */
  function ContentOf(m: Message): Content
  {
    m.content.GetOr(StrContent(""))
  }

  /** The position of the last reply turn, if there is one. */
  function LastReplyIndex(ms: seq<Message>): (r: Option<nat>)
    ensures r.Some? ==> r.value < |ms| && IsReply(ms[r.value])
    ensures r.Some? ==> forall j :: r.value < j < |ms| ==> !IsReply(ms[j])
    ensures r.None? <==> forall j :: 0 <= j < |ms| ==> !IsReply(ms[j])
  {
    if ms == [] then None
    else if IsReply(ms[|ms| - 1]) then Some(|ms| - 1)
    else LastReplyIndex(ms[..|ms| - 1])
  }

  function PartText(p: Part): string
  {
    match p
    case TextPart(text) => text
    case OtherPart(repr) => repr
  }

  function PartTexts(ps: seq<Part>): (ts: seq<string>)
    ensures |ts| == |ps|
  {
    seq(|ps|, k requires 0 <= k < |ps| => PartText(ps[k]))
  }

  /** The text of a content value; `None` gives the empty string. */
  function Flatten(c: Content): string
  {
    match c
    case StrContent(s) => s
    case ListContent(ps) => Join("\n", PartTexts(ps))
    case NoneContent => ""
    case OtherContent(repr) => repr
  }

  /** The text of the last reply turn; empty when no turn is a reply. */
  function Reply(ms: seq<Message>): (r: string)
    ensures (forall j :: 0 <= j < |ms| ==> !IsReply(ms[j])) ==> r == ""
  {
    match LastReplyIndex(ms)
    case None => ""
    case Some(i) => Flatten(ContentOf(ms[i]))
  }

  /** Adding a turn: a reply becomes the answer, anything else leaves it. */
  lemma ReplyAfterTurn(ms: seq<Message>, m: Message)
    ensures Reply(ms + [m]) == if IsReply(m) then Flatten(ContentOf(m)) else Reply(ms)
  {
    assert (ms + [m])[..|ms + [m]| - 1] == ms;
  }

  /** Turns that are not replies (human, system or tool messages) added after
      the conversation do not change the answer. */
  lemma {:induction false} ReplyIgnoresLaterTurns(ms: seq<Message>, rest: seq<Message>)
    requires forall j :: 0 <= j < |rest| ==> !IsReply(rest[j])
    ensures Reply(ms + rest) == Reply(ms)
  {
    if rest != [] {
      var init := rest[..|rest| - 1];
      ReplyIgnoresLaterTurns(ms, init);
      assert ms + rest == (ms + init) + [rest[|rest| - 1]];
      ReplyAfterTurn(ms + init, rest[|rest| - 1]);
    } else {
      assert ms + rest == ms;
    }
  }

  /** The answer is the flattened content of a reply turn that no later reply
      follows. */
  lemma ReplyIsLastReply(ms: seq<Message>, i: nat)
    requires i < |ms| && IsReply(ms[i])
    requires forall j :: i < j < |ms| ==> !IsReply(ms[j])
    ensures Reply(ms) == Flatten(ContentOf(ms[i]))
  {
  }

  /** List content of several parts puts exactly one newline between the text
      of the first parts and that of the last ones. */
  lemma FlattenListAppend(ps: seq<Part>, qs: seq<Part>)
    requires ps != [] && qs != []
    ensures Flatten(ListContent(ps + qs)) == Flatten(ListContent(ps)) + "\n" + Flatten(ListContent(qs))
  {
    assert PartTexts(ps + qs) == PartTexts(ps) + PartTexts(qs);
    JoinAppend("\n", PartTexts(ps), PartTexts(qs));
  }

  /** `extract_last_assistant_text(messages)`. */
  method ExtractLastAssistantText(messages: seq<Message>) returns (text: string)
    ensures text == Reply(messages)
  {
    var lastContent := NoneContent;
    var k := |messages|;
    while k > 0
      invariant 0 <= k <= |messages|
      invariant LastReplyIndex(messages) == LastReplyIndex(messages[..k])
      decreases k
    {
      var m := messages[k - 1];
      var role := m.role;
      var content := m.content.GetOr(StrContent(""));
      assert messages[..k][..k - 1] == messages[..k - 1];
      if role == Some("assistant") || role == Some("ai") {
        lastContent := content;
        k := k - 1;
        break;
      }
      k := k - 1;
    }
    assert lastContent != NoneContent ==> LastReplyIndex(messages) == Some(k);

    if lastContent == NoneContent {
      return "";
    }
    match lastContent
    case StrContent(s) =>
      return s;
    case ListContent(content) =>
      var parts: seq<string> := [];
      for j := 0 to |content|
        invariant parts == PartTexts(content[..j])
      {
        var part := content[j];
        if part.TextPart? {
          parts := parts + [part.text];
        } else {
          parts := parts + [part.repr];
        }
      }
      assert content[..|content|] == content;
      return Join("\n", parts);
    case OtherContent(repr) =>
      return repr;
  }
}
