/** The uniform reply of every tool handler, the success constructor, and the
    wrapper that turns anything a handler throws into an error-flagged reply. */
module Response {
  import opened Values

  /** The text of a content item. The formatter that renders a message with a
      data record (src/utils/formatters) is not part of this model: its
      application is kept as the symbolic term `Formatted`. */
  datatype Text = Plain(s: string) | Formatted(message: string, data: map<string, Value>)

  /** One content item; `kind` is its `type` tag. */
  datatype ContentItem = ContentItem(kind: string, text: Text)

  datatype ToolResponse = ToolResponse(isError: Option<bool>, content: seq<ContentItem>)

  /** How a handler's promise settled: it returned a reply, it threw a value, or
      it is still waiting on a remote job when the scripted replies run out. */
  datatype Completion = Returned(response: ToolResponse) | Threw(error: Value) | Running

  const DefaultErrorPrefix := "Error"

  /** A reply is an error reply when it carries `isError: true`. */
  predicate IsErrorResponse(r: ToolResponse) {
    r.isError == Some(true)
  }

  /** The reply is exactly one plain text item that starts with `prefix: `. */
  predicate HasErrorText(r: ToolResponse, prefix: string) {
    |r.content| == 1 && r.content[0].kind == "text" && r.content[0].text.Plain?
    && |prefix| + 2 <= |r.content[0].text.s|
    && r.content[0].text.s[..|prefix| + 2] == prefix + ": "
  }

  /** A success reply whose message is `message` (with or without data). */
  predicate IsSuccessWith(r: ToolResponse, message: string) {
    r.isError.None? && |r.content| == 1 && r.content[0].kind == "text"
    && match r.content[0].text
       case Plain(s) => s == message
       case Formatted(m, _) => m == message
  }

  function CreateSuccessResponse(message: string, data: Option<map<string, Value>>): (r: ToolResponse)
    ensures !IsErrorResponse(r) && r.isError.None?
    ensures IsSuccessWith(r, message)
    ensures data.None? ==> r.content[0].text == Plain(message)
    ensures data.Some? ==> r.content[0].text == Formatted(message, data.value)
  {
    var text := if data.Some? then Formatted(message, data.value) else Plain(message);
    ToolResponse(None, [ContentItem("text", text)])
  }

  /** The message reported for a thrown value: an `Error`'s own message,
      anything else rendered by `String(...)`. */
  function ErrorMessage(e: Value): (m: string)
    ensures e.ErrorObj? ==> m == e.message
    ensures e.Str? ==> m == e.s
    ensures !e.ErrorObj? ==> m == JsString(e)
  {
    if e.ErrorObj? then e.message else JsString(e)
  }

  function ErrorResponse(prefix: string, e: Value): ToolResponse {
    ToolResponse(Some(true), [ContentItem("text", Plain(prefix + ": " + ErrorMessage(e)))])
  }

  /** `withErrorHandling(handler, errorPrefix)` applied to how the handler settled. */
  function WithErrorHandling(c: Completion, errorPrefix: Option<string>): (r: Completion)
    ensures !r.Threw?
    ensures c.Returned? ==> r == c
    ensures c.Running? ==> r.Running?
    ensures c.Threw? ==> r.Returned? && IsErrorResponse(r.response)
    ensures c.Threw? && errorPrefix.None? ==> HasErrorText(r.response, "Error")
    ensures c.Threw? && errorPrefix.Some? ==> HasErrorText(r.response, errorPrefix.value)
    ensures c.Threw? && c.error.ErrorObj? ==>
      r.response.content[0].text.s
        == (if errorPrefix.Some? then errorPrefix.value else "Error") + ": " + c.error.message
    ensures c.Threw? && !c.error.ErrorObj? ==>
      r.response.content[0].text.s
        == (if errorPrefix.Some? then errorPrefix.value else "Error") + ": " + JsString(c.error)
  {
    match c
    case Returned(_) => c
    case Running => c
    case Threw(e) =>
      var prefix := if errorPrefix.Some? then errorPrefix.value else DefaultErrorPrefix;
      Returned(ErrorResponse(prefix, e))
  }

  /** The reply of a wrapped handler that always settles. */
  function Reply(c: Completion, errorPrefix: string): (r: ToolResponse)
    requires !c.Running?
    ensures c.Returned? ==> r == c.response
    ensures c.Threw? ==> IsErrorResponse(r) && HasErrorText(r, errorPrefix)
  {
    WithErrorHandling(c, Some(errorPrefix)).response
  }
}
