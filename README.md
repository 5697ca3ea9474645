# Wabliefteru chatbot: conversation store and reply resolution

A model of the chat page `client/pages/Index.tsx`. The page keeps an
append-only thread of messages (`{id, type: "ai" | "user", content}`). The
thread starts with two assistant prompts. The page also keeps an `isLoading`
flag and the text of the input field. `handleSend` ignores a blank input.
Otherwise it appends the user's question, clears the field and raises the
flag. It then makes one request and turns the response into exactly one
assistant message, either the reply or a fixed Dutch error text. At the end
it lowers the flag.

Modules:

- `Wrappers`: `Option`.
- `JsString`: the ECMAScript built-ins the page calls. `Trim` is
  `String.prototype.trim` over the WhiteSpace and LineTerminator code points
  of sections 12.2 and 12.3 of ECMA-262. `Includes` is
  `String.prototype.includes`, a case-sensitive substring test.
- `Json`: a parsed JSON value. `Member` is the optional-chaining read
  `data?.key` for a key that no prototype defines, such as "message" and
  "reply": an object's member, and undefined for every other value.
  `Stringify` is `JSON.stringify(data)` with no replacer and no indentation,
  including the string quoting of section 25.5.2 of ECMA-262. `Unquote`
  is the left inverse of `Quote`. It is not a full parser of JSON string
  literals.
- `Chat`: messages and their `prev.length + 1` ids. The network outcome is an
  input value `Outcome`. `JsonReply` resolves the reply from a JSON body
  (`message`, then `reply`, then the stringified body). `ReplyText` is the
  `replyText` the try block computes, or none on the error path. `AiReply` is
  the content of the assistant message with the "(Leeg antwoord)" substitution.
  The class `Conversation` holds `messages`, `isLoading` and `inputValue`.
  `BeginSend` models the code before the request, `Complete` the code after
  it, and `Send` is one whole `handleSend`.

A `message` or `reply` field counts only when it is a non-empty string:
`typeof x === "string" && x` is falsy for `""`. A field that is absent, not
a string, or empty falls through to the next choice. The roles are `"ai"`
and `"user"`.

Because `JSON.stringify` of a parsed value is never empty, `JsonReply` is
never empty either. So the "(Leeg antwoord)" placeholder appears only for an
empty body whose content type is not JSON (`EmptyReplyOnlyForEmptyText`).

## Model

| member | source | states |
|---|---|---|
| `JsString.LeadingWhiteSpace` | client/pages/Index.tsx:29 | the count of leading white-space characters: all of them are white space and the next one is not |
| `JsString.TrailingWhiteSpace` | client/pages/Index.tsx:29 | the same for the end of the string |
| `JsString.Trim` | client/pages/Index.tsx:29 | `inputValue.trim()` is empty exactly when every character is ECMAScript white space; a non-empty result starts and ends with a non-white-space character |
| `JsString.Includes` | client/pages/Index.tsx:53 | `contentType.includes(sub)`: true only when `sub` fits in the content type, and always true for an empty `sub` |
| `JsString.IncludesIffOccurs` | client/pages/Index.tsx:53 | `contentType.includes(sub)` holds exactly when `sub` occurs at some index of the content type |
| `JsString.EmptyIncludesOnlyEmpty` | client/pages/Index.tsx:52-53 | the `""` that replaces a missing header includes no non-empty media type |
| `Json.Find` | client/pages/Index.tsx:56-57 | the member read finds the first `(key, value)` pair with that key, and finds nothing exactly when no member has that key |
| `Json.FindUnique` | client/pages/Index.tsx:56-57 | when the keys are distinct, as `JSON.parse` makes them, the member read gives the value of the one member with that key |
| `Json.Member` | client/pages/Index.tsx:56-57 | `data?.key` gives a value exactly when `data` is an object with a member named `key`, and that value belongs to such a member |
| `Json.StringMember` | client/pages/Index.tsx:56-57 | `typeof data?.key === "string"` holds exactly when the member exists and is a JSON string, and then yields that string |
| `Json.Stringify` | client/pages/Index.tsx:58 | `JSON.stringify(data)` is never empty, and a JSON string is rendered as its quoted literal |
| `Json.Quote` | client/pages/Index.tsx:58 | the JSON string literal `JSON.stringify` writes opens and closes with a double quote and is at least as long as the string plus two |
| `Json.QuoteRoundTrip` | client/pages/Index.tsx:58 | the quoted literal that `JSON.stringify` writes for a string reads back as that string |
| `Json.QuoteInjective` | client/pages/Index.tsx:58 | distinct strings are quoted differently |
| `Chat.InitialMessages` | client/pages/Index.tsx:8-19 | the thread starts with two messages, both from the assistant |
| `Chat.InitialIdsArePositions` | client/pages/Index.tsx:8-19 | the seeded ids 1 and 2 are the positions of the seeded messages |
| `Chat.Appended` | client/pages/Index.tsx:31-38 | an append adds one message at the end with the given role and content, keeps every earlier message in order, and keeps "id = position" |
| `Chat.IdsStrictlyIncrease` | client/pages/Index.tsx:31-38 | when ids are positions, an earlier message has a smaller id, so ids are unique whatever the roles |
| `Chat.ContentType` | client/pages/Index.tsx:52 | the content type read from the response headers is the header's value when present and "" when absent |
| `Chat.IsJsonResponse` | client/pages/Index.tsx:53 | the response is read as JSON exactly when "application/json" occurs in its content type, which requires the header to be present |
| `Chat.JsonReply` | client/pages/Index.tsx:55-58 | the reply resolved from a JSON body is never empty |
| `Chat.JsonReplyPrecedence` | client/pages/Index.tsx:55-58 | a non-empty string `message` wins; a `message` that is absent, not a string, or "" falls through to a non-empty string `reply`; when neither is usable the whole body is stringified |
| `Chat.FallThroughExamples` | client/pages/Index.tsx:56-58 | `{"message":42,"reply":"hi"}` gives "hi", and `{"message":"","reply":null}` is stringified |
| `Chat.NonObjectJsonIsStringified` | client/pages/Index.tsx:55-58 | a JSON body that is not an object is shown stringified, and a JSON string body is shown as its quoted literal |
| `Chat.ReplyText` | client/pages/Index.tsx:51-71 | the try block yields no reply exactly when the request rejects, the body cannot be read, or a body declared JSON does not parse; a parsed JSON body gives its resolved JSON reply, and any other readable body gives its text |
| `Chat.TextBodyVerbatim` | client/pages/Index.tsx:52-60 | a body whose content type does not include "application/json", or that has no content-type header, is the reply verbatim |
| `Chat.AiReply` | client/pages/Index.tsx:63-79 | the assistant message is never empty; it is the fixed error text on the error path, the reply text when that is non-empty, and "(Leeg antwoord)" when the reply text is empty |
| `Chat.EmptyReplyOnlyForEmptyText` | client/pages/Index.tsx:68 | the reply text is empty exactly when the body was read as text, not declared JSON, and empty; with `AiReply` these are exactly the cases that show the placeholder |
| `Chat.EmptyBodyExample` | client/pages/Index.tsx:59-68 | an empty `text/plain` body is shown as "(Leeg antwoord)" |
| `Chat.StatusIgnored` | client/pages/Index.tsx:43-68 | two responses that differ only in status code give the same assistant message |
| `Chat.ContentTypeExamples` | client/pages/Index.tsx:52-53 | a parameterised `application/json; charset=utf-8` is read as JSON; `text/plain` and the capitalised `Application/JSON` are not |
| `Chat.MessageExample` | client/pages/Index.tsx:55-56 | the body `{"message":"hello"}` gives "hello" |
| `Chat.ReplyFieldExample` | client/pages/Index.tsx:55-57 | the body `{"reply":"hi"}` gives "hi" |
| `Chat.StringifiedExample` | client/pages/Index.tsx:55-58 | the body `{"foo":"bar"}` gives its own JSON text |
| `Chat.StringifyFooBar` | client/pages/Index.tsx:58 | `JSON.stringify` of `{"foo":"bar"}` is `{"foo":"bar"}` |
| `Chat.TextAndFailureExamples` | client/pages/Index.tsx:59-79 | a plain-text body with status 500 is shown verbatim; malformed JSON and a rejected request both give the error text |
| `Chat.Conversation.constructor` | client/pages/Index.tsx:7-20 | the page starts with the two seeded messages, no pending request and an empty input |
| `Chat.Conversation.SetInput` | client/pages/Index.tsx:199 | the field's change handler sets the input and nothing else |
| `Chat.Conversation.AppendMessage` | client/pages/Index.tsx:31-38 | `setMessages(prev => [...prev, {id: prev.length + 1, ...}])` appends one message and keeps the thread's invariant |
| `Chat.Conversation.BeginSend` | client/pages/Index.tsx:29-41 | a blank input changes nothing; otherwise the untrimmed input is appended as a user message, the field is cleared and the flag is raised |
| `Chat.Conversation.Complete` | client/pages/Index.tsx:42-82 | exactly one assistant message is appended, the reply or the error text, and the flag is false afterwards on every outcome |
| `Chat.Conversation.Send` | client/pages/Index.tsx:28-84 | a blank input changes nothing; otherwise the thread grows by exactly a user message with the untrimmed input and then one assistant message, both with id = position, earlier messages are unchanged, the input is "" and the flag is false |

## Left out

- Rendering, styling, markdown rendering and the auto-scroll effect: presentation and DOM side effects with no state of their own.
- `fetch`, the request method, headers and body `{"message": userText}`, and the webhook URL taken from the environment: network I/O and configuration. The outcome of the request is an input value (`Outcome`).
- `JSON.parse` (inside `res.json()`): an outcome's readable body carries the text and, when that text is valid JSON, the parsed value. The parsed value is a `ParsedJson`, so every object in it has distinct keys. The model does not check that the text and the value agree.
- Json.Member: inherited properties (such as `length` on a string) are not modelled; the page reads only "message" and "reply", which no prototype defines.
- Numbers in JSON values are carried as their Number::toString rendering, which is never "Infinity", "-Infinity" or "NaN". Floating point is not modelled.
- A number literal that `JSON.parse` rounds to an infinity (such as `1e999`) is given as `JNull`. `JSON.stringify` writes a non-finite number as `null`, and neither value passes the string test, so the reply is the same. For example, `{"x":1e999}` is shown as `{"x":null}`.
- Strings are sequences of Unicode scalar values. JavaScript strings may also hold lone UTF-16 surrogates, and the escape `JSON.stringify` writes for them is not modelled.
- Chat.Conversation.Send: one send is one atomic step. The suspension at `await fetch` and overlapping sends are event-loop concurrency and not modelled. `handleSend` has no guard on `isLoading`.
- The Enter-key handler (it only calls `handleSend`).
