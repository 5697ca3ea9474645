/**
 * The chat page's conversation: an append-only list of messages seeded with
 * two assistant prompts, the pending flag, the input field, and `handleSend`,
 * which appends the user's question and then exactly one assistant reply.
 */
module Chat {
  import opened Wrappers
  import opened JsString
  import opened Json

  /** Who wrote a message: the assistant (`"ai"`) or the user (`"user"`). */
  datatype Role = Ai | User

  datatype ChatMessage = ChatMessage(id: int, role: Role, content: string)

  const Welcome: string := "Stel een vraag over de Wabliefteru Podcast!"
  const ScopeReminder: string := "Vraag enkel over de inhoud van de afleveringen!"
  /** Shown when the endpoint answered with an empty reply. */
  const EmptyReply: string := "(Leeg antwoord)"
  /** Shown on every failure: transport error, unreadable body or malformed JSON. */
  const ErrorReply: string :=
    "Oei! Er ging iets mis... Jammer! Maar bekijk het langs de positieve kant: ge hebt ten minste nog een job \U{1F605}"
  const JsonMediaType: string := "application/json"

  /** The two assistant messages the thread starts with. */
  function InitialMessages(): (r: seq<ChatMessage>)
    ensures |r| == 2 && forall i | 0 <= i < |r| :: r[i].role == Ai
  {
    [ChatMessage(1, Ai, Welcome), ChatMessage(2, Ai, ScopeReminder)]
  }

  /** Every message's id is its one-based position in the thread. */
  predicate IdsArePositions(msgs: seq<ChatMessage>) {
    forall i | 0 <= i < |msgs| :: msgs[i].id == i + 1
  }

  /** `[...prev, { id: prev.length + 1, type: role, content }]`. */
  function Appended(prev: seq<ChatMessage>, role: Role, content: string): (r: seq<ChatMessage>)
    ensures |r| == |prev| + 1 && r[..|prev|] == prev
    ensures r[|prev|].role == role && r[|prev|].content == content
    ensures IdsArePositions(prev) ==> IdsArePositions(r)
  {
    prev + [ChatMessage(|prev| + 1, role, content)]
  }

  lemma InitialIdsArePositions()
    ensures IdsArePositions(InitialMessages())
  {
  }

  /** Ids that are positions are unique and strictly increasing, whatever the roles. */
  lemma IdsStrictlyIncrease(msgs: seq<ChatMessage>, i: int, j: int)
    requires IdsArePositions(msgs)
    requires 0 <= i < j < |msgs|
    ensures msgs[i].id < msgs[j].id
  {
  }

  // The network outcome of the one request `handleSend` makes.

  /** The response body: reading it failed, or its text and, when the text is JSON, the value `JSON.parse` gives. */
  datatype Body = Unreadable | Readable(text: string, parsed: Option<ParsedJson>)

  /** A rejected `fetch`, or a response of any status with an optional `content-type` header. */
  datatype Outcome = NetworkError | Response(status: int, contentType: Option<string>, body: Body)

  /** `res.headers.get("content-type") || ""`. */
  function ContentType(o: Outcome): (r: string)
    requires o.Response?
    ensures o.contentType.Some? ==> r == o.contentType.value
    ensures o.contentType.None? ==> r == ""
  {
    o.contentType.GetOr("")
  }

  /** The body is read as JSON exactly when the content type includes "application/json". */
  predicate IsJsonResponse(o: Outcome)
    requires o.Response?
    ensures IsJsonResponse(o) <==> exists i :: OccursAt(ContentType(o), JsonMediaType, i)
    ensures IsJsonResponse(o) ==> o.contentType.Some?
  {
    IncludesIffOccurs(ContentType(o), JsonMediaType);
    Includes(ContentType(o), JsonMediaType)
  }

  /**
   * The reply picked from a parsed JSON body: a non-empty string `message`,
   * else a non-empty string `reply`, else the whole body stringified.
   */
  function JsonReply(data: Json): (r: string)
    ensures |r| > 0
  {
    var message, reply := StringMember(data, "message"), StringMember(data, "reply");
    if message.Some? && message.value != "" then message.value
    else if reply.Some? && reply.value != "" then reply.value
    else Stringify(data)
  }

  /**
   * `replyText` when the try block reaches it; None when the request or the
   * body read rejects, or the declared JSON does not parse.
   */
  function ReplyText(o: Outcome): (r: Option<string>)
    ensures r.None? <==> o.NetworkError? || o.body.Unreadable? || (IsJsonResponse(o) && o.body.parsed.None?)
    ensures o.Response? && IsJsonResponse(o) && o.body.Readable? && o.body.parsed.Some?
      ==> r == Some(JsonReply(o.body.parsed.value))
    ensures o.Response? && !IsJsonResponse(o) && o.body.Readable? ==> r == Some(o.body.text)
  {
    if o.NetworkError? || o.body.Unreadable? then None
    else if IsJsonResponse(o) then
      match o.body.parsed
      case None => None
      case Some(data) => Some(JsonReply(data))
    else Some(o.body.text)
  }

  /** The content of the single assistant message a dispatched send appends. */
  function AiReply(o: Outcome): (r: string)
    ensures |r| > 0
    ensures ReplyText(o).None? ==> r == ErrorReply
    ensures ReplyText(o).Some? && ReplyText(o).value != "" ==> r == ReplyText(o).value
    ensures ReplyText(o) == Some("") ==> r == EmptyReply
  {
    match ReplyText(o)
    case None => ErrorReply
    case Some(t) => if t == "" then EmptyReply else t
  }

  // Properties of the reply resolution.

  /** The member `key` holds no usable reply: it is absent, not a string, or "". */
  predicate Unusable(members: seq<(string, Json)>, key: string) {
    match Find(members, key)
    case Some(JString(s)) => s == ""
    case _ => true
  }

  /**
   * The precedence among `message`, `reply` and the stringified body: a
   * member that is absent, not a string, or "" falls through to the next.
   */
  lemma {:induction false} JsonReplyPrecedence(members: seq<(string, Json)>, m: string, r: string)
    ensures Find(members, "message") == Some(JString(m)) && m != "" ==> JsonReply(JObject(members)) == m
    ensures Unusable(members, "message") && Find(members, "reply") == Some(JString(r)) && r != ""
      ==> JsonReply(JObject(members)) == r
    ensures Unusable(members, "message") && Unusable(members, "reply")
      ==> JsonReply(JObject(members)) == Stringify(JObject(members))
  {
  }

  /** A JSON body that is not an object has no members, so it is shown stringified; a JSON string keeps its quotes. */
  lemma NonObjectJsonIsStringified(data: Json)
    requires !data.JObject?
    ensures JsonReply(data) == Stringify(data)
    ensures data.JString? ==> Unquote(JsonReply(data)) == Some(data.s)
  {
    if data.JString? {
      QuoteRoundTrip(data.s);
    }
  }

  /** A body not declared JSON, or without the header at all, is shown verbatim. */
  lemma TextBodyVerbatim(status: int, contentType: Option<string>, text: string, parsed: Option<ParsedJson>)
    requires !Includes(contentType.GetOr(""), JsonMediaType)
    ensures ReplyText(Response(status, contentType, Readable(text, parsed))) == Some(text)
    ensures ReplyText(Response(status, None, Readable(text, parsed))) == Some(text)
  {
    EmptyIncludesOnlyEmpty(JsonMediaType);
  }

  /** The placeholder stands in exactly for an empty body that was not declared JSON. */
  lemma EmptyReplyOnlyForEmptyText(o: Outcome)
    ensures ReplyText(o) == Some("") <==>
      o.Response? && !IsJsonResponse(o) && o.body.Readable? && o.body.text == ""
  {
  }

  /** The status code is never inspected. */
  lemma StatusIgnored(s1: int, s2: int, contentType: Option<string>, body: Body)
    ensures AiReply(Response(s1, contentType, body)) == AiReply(Response(s2, contentType, body))
  {
  }

  /**
   * A parameterised JSON type matches; `text/plain` and a capitalised
   * `Application/JSON` do not, since the test is case-sensitive.
   */
  lemma ContentTypeExamples()
    ensures Includes("application/json; charset=utf-8", JsonMediaType)
    ensures !Includes("text/plain", JsonMediaType)
    ensures !Includes("Application/JSON", JsonMediaType)
  {
    assert OccursAt("application/json; charset=utf-8", JsonMediaType, 0);
    IncludesIffOccurs("application/json; charset=utf-8", JsonMediaType);
    var cap := "Application/JSON";
    assert cap[..|JsonMediaType|] != JsonMediaType by {
      assert cap[0] != JsonMediaType[0];
    }
  }

  const JsonHeader: Option<string> := Some(JsonMediaType)

  /** `{"message":"hello"}` is answered with "hello". */
  lemma MessageExample()
    ensures AiReply(Response(200, JsonHeader, Readable("{\"message\":\"hello\"}",
              Some(JObject([("message", JString("hello"))]))))) == "hello"
  {
    assert OccursAt(JsonMediaType, JsonMediaType, 0);
    IncludesIffOccurs(JsonMediaType, JsonMediaType);
  }

  /** `{"reply":"hi"}` is answered with "hi". */
  lemma ReplyFieldExample()
    ensures AiReply(Response(200, JsonHeader, Readable("{\"reply\":\"hi\"}",
              Some(JObject([("reply", JString("hi"))]))))) == "hi"
  {
    assert OccursAt(JsonMediaType, JsonMediaType, 0);
    IncludesIffOccurs(JsonMediaType, JsonMediaType);
  }

  /** `{"foo":"bar"}` is answered with its own JSON text. */
  lemma StringifiedExample()
    ensures AiReply(Response(200, JsonHeader, Readable("{\"foo\":\"bar\"}",
              Some(JObject([("foo", JString("bar"))]))))) == "{\"foo\":\"bar\"}"
  {
    assert OccursAt(JsonMediaType, JsonMediaType, 0);
    IncludesIffOccurs(JsonMediaType, JsonMediaType);
    var foo := JObject([("foo", JString("bar"))]);
    assert JsonReply(foo) == Stringify(foo);
    StringifyFooBar();
  }

  lemma StringifyFooBar()
    ensures Stringify(JObject([("foo", JString("bar"))])) == "{\"foo\":\"bar\"}"
  {
    assert Quote("foo") == "\"foo\"" by {
      assert EscapeAll("foo") == Escape('f') + EscapeAll("oo");
      assert EscapeAll("oo") == Escape('o') + EscapeAll("o");
      assert EscapeAll("o") == Escape('o') + EscapeAll("");
    }
    assert Quote("bar") == "\"bar\"" by {
      assert EscapeAll("bar") == Escape('b') + EscapeAll("ar");
      assert EscapeAll("ar") == Escape('a') + EscapeAll("r");
      assert EscapeAll("r") == Escape('r') + EscapeAll("");
    }
    var m := [("foo", JString("bar"))];
    var parts := seq(|m|, i requires 0 <= i < |m| => Quote(m[i].0) + ":" + Stringify(m[i].1));
    assert Stringify(JObject(m)) == "{" + Join(parts) + "}";
    assert |parts| == 1 && parts[0] == "\"foo\"" + ":" + "\"bar\"";
    assert Join(parts) == parts[0];
  }

  /** `{"message":42,"reply":"hi"}` skips the number; `{"message":"","reply":null}` is shown stringified. */
  lemma FallThroughExamples()
    ensures JsonReply(JObject([("message", JNumber("42")), ("reply", JString("hi"))])) == "hi"
    ensures JsonReply(JObject([("message", JString("")), ("reply", JNull)]))
      == Stringify(JObject([("message", JString("")), ("reply", JNull)]))
  {
  }

  /** An empty plain-text body is shown as the placeholder. */
  lemma EmptyBodyExample()
    ensures AiReply(Response(200, Some("text/plain"), Readable("", None))) == EmptyReply
  {
  }

  /** A plain-text answer is shown as it is, even with an error status; a malformed JSON body is the error path. */
  lemma TextAndFailureExamples()
    ensures AiReply(Response(500, Some("text/plain"), Readable("plain answer", None))) == "plain answer"
    ensures AiReply(Response(200, JsonHeader, Readable("oops", None))) == ErrorReply
    ensures AiReply(NetworkError) == ErrorReply
  {
    assert OccursAt(JsonMediaType, JsonMediaType, 0);
    IncludesIffOccurs(JsonMediaType, JsonMediaType);
  }

  /**
   * The conversation state of the page: the thread, `isLoading` and
   * `inputValue`. One call of Send is one whole run of `handleSend`.
   */
  class Conversation {
    var messages: seq<ChatMessage>
    var isLoading: bool
    var inputValue: string

    /** The seeded prompts stay first and every id is its position. */
    ghost predicate Valid()
      reads this
    {
      |messages| >= 2 && messages[..2] == InitialMessages() && IdsArePositions(messages)
    }

    constructor ()
      ensures Valid()
      ensures messages == InitialMessages() && !isLoading && inputValue == ""
    {
      messages := InitialMessages();
      isLoading := false;
      inputValue := "";
    }

    /** The input field's change handler. */
    method SetInput(value: string)
      modifies this`inputValue
      ensures inputValue == value
    {
      inputValue := value;
    }

    /**
     * The part of `handleSend` before the request: a blank input is ignored;
     * otherwise the untrimmed input becomes a user message, the field is
     * cleared and the flag raised.
     */
    method BeginSend() returns (dispatched: bool, userText: string)
      requires Valid()
      modifies this
      ensures Valid()
      ensures dispatched <==> !AllWhiteSpace(old(inputValue))
      ensures !dispatched ==> messages == old(messages) && isLoading == old(isLoading) && inputValue == old(inputValue)
      ensures dispatched ==> userText == old(inputValue) && inputValue == "" && isLoading
      ensures dispatched ==> messages == Appended(old(messages), User, userText)
    {
      dispatched := Trim(inputValue) != "";
      userText := "";
      if dispatched {
        userText := inputValue;
        AppendMessage(User, userText);
        inputValue := "";
        isLoading := true;
      }
    }

    /**
     * The part of `handleSend` after the request: exactly one assistant
     * message, the reply or the error text, then the flag is lowered.
     */
    method Complete(outcome: Outcome)
      requires Valid()
      modifies this`messages, this`isLoading
      ensures Valid()
      ensures messages == Appended(old(messages), Ai, AiReply(outcome))
      ensures !isLoading
    {
      var reply := ReplyText(outcome);
      match reply {
        case Some(t) =>
          AppendMessage(Ai, if t == "" then EmptyReply else t);
        case None =>
          AppendMessage(Ai, ErrorReply);
      }
      isLoading := false;
    }

    /** `handleSend` for one request whose result is `outcome`. */
    method Send(outcome: Outcome) returns (dispatched: bool)
      requires Valid()
      modifies this
      ensures Valid()
      ensures dispatched <==> !AllWhiteSpace(old(inputValue))
      ensures !dispatched ==> messages == old(messages) && isLoading == old(isLoading) && inputValue == old(inputValue)
      ensures dispatched ==> inputValue == "" && !isLoading
      ensures dispatched ==> messages == old(messages) + [
        ChatMessage(|old(messages)| + 1, User, old(inputValue)),
        ChatMessage(|old(messages)| + 2, Ai, AiReply(outcome))]
    {
      var userText;
      dispatched, userText := BeginSend();
      if dispatched {
        Complete(outcome);
      }
    }

    /** `setMessages(prev => [...prev, { id: prev.length + 1, ... }])`. */
    method AppendMessage(role: Role, content: string)
      requires Valid()
      modifies this`messages
      ensures Valid()
      ensures messages == Appended(old(messages), role, content)
    {
      messages := Appended(messages, role, content);
    }
  }
}
