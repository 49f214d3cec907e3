/** The request and response handling of lib/gemini.ts (`generateCode`):
    the chat history becomes the request's `contents`, the new prompt is
    appended as one final user turn, and every failure to read the reply's
    text as a generation result surfaces as one "invalid response" error.
    The SDK call itself is an input (`SdkReply`); JSON.parse is the
    parameter `parse`. */
module Gemini {
  import opened Wrappers

  datatype ChatMessage = ChatMessage(role: string, content: string)

  datatype Part = Part(text: string)

  /** One entry of the request's `contents`. */
  datatype Content = Content(role: string, parts: seq<Part>)

  datatype GeneratedFile = GeneratedFile(path: string, content: string)

  datatype GenerationResult = GenerationResult(files: seq<GeneratedFile>, description: string)

  /** The request `generateCode` sends: the model is fixed, the reply is
      asked for as JSON. */
  datatype Request = Request(model: string, contents: seq<Content>, responseMimeType: string)

  /** What the SDK call produced: it threw, or it answered with an optional text. */
  datatype SdkReply = SdkThrew(message: string) | Answered(text: Option<string>)

  const ModelId: string := "gemini-3.1-pro-preview"

  /** The opening of the system instruction; the rest of its prose is not reproduced. */
  const SystemInstruction: string :=
    "\n    You are TechWiser, an expert AI Full-Stack Engineer and UI/UX Designer.\n"

  const UserRequestSeparator: string := "\n\nUser Request: "

  const NoResponseMessage: string := "No response from AI"

  const InvalidFormatMessage: string :=
    "The AI returned an invalid response format. Please try again."

  // ---------------------------------------------------------------------
  // Contents

  /** The role the API sees: 'user' stays, every other role is 'model'. */
  function ApiRole(role: string): string {
    if role == "user" then "user" else "model"
  }

  function FormatMessage(m: ChatMessage): Content {
    Content(ApiRole(m.role), [Part(m.content)])
  }

  /** `history.map(...)`: one entry per message, in order. */
  function FormatHistory(history: seq<ChatMessage>): (r: seq<Content>)
    ensures |r| == |history|
    ensures forall i :: 0 <= i < |r| ==>
      (r[i].role == "user" <==> history[i].role == "user")
      && (r[i].role != "user" ==> r[i].role == "model")
      && r[i].parts == [Part(history[i].content)]
  {
    seq(|history|, i requires 0 <= i < |history| => FormatMessage(history[i]))
  }

  function FinalTurnText(prompt: string): string {
    "System: " + SystemInstruction + UserRequestSeparator + prompt
  }

  /** `[...formattedHistory, { role: "user", parts: [{ text }] }]`. */
  function RequestContents(prompt: string, history: seq<ChatMessage>): (r: seq<Content>)
    ensures |r| == |history| + 1
    ensures r[..|history|] == FormatHistory(history)
    ensures r[|history|].role == "user" && |r[|history|].parts| == 1
  {
    FormatHistory(history) + [Content("user", [Part(FinalTurnText(prompt))])]
  }

  function BuildRequest(prompt: string, history: seq<ChatMessage>): Request {
    Request(ModelId, RequestContents(prompt, history), "application/json")
  }

  // ---------------------------------------------------------------------
  // Reading a request back: the partner of RequestContents

  /** The history a list of contents encodes, with roles as the API sees them. */
  function HistoryOf(contents: seq<Content>): seq<ChatMessage> {
    seq(|contents|, i requires 0 <= i < |contents| =>
      ChatMessage(contents[i].role, if |contents[i].parts| == 1 then contents[i].parts[0].text else ""))
  }

  /** The prompt inside a final user turn, if it has the expected prefix. */
  function PromptOf(turn: Content): Option<string> {
    var prefix := "System: " + SystemInstruction + UserRequestSeparator;
    if turn.role == "user" && |turn.parts| == 1
       && |prefix| <= |turn.parts[0].text| && turn.parts[0].text[..|prefix|] == prefix
    then Some(turn.parts[0].text[|prefix|..])
    else None
  }

  /** The request loses nothing but the distinction between non-user roles:
      the history comes back with roles normalised, and the prompt comes back
      unchanged from the last entry. */
  lemma RequestContentsRoundTrip(prompt: string, history: seq<ChatMessage>)
    ensures var c := RequestContents(prompt, history);
      HistoryOf(c[..|history|]) == seq(|history|, i requires 0 <= i < |history| =>
                                         ChatMessage(ApiRole(history[i].role), history[i].content))
      && PromptOf(c[|history|]) == Some(prompt)
  {
    var c := RequestContents(prompt, history);
    var prefix := "System: " + SystemInstruction + UserRequestSeparator;
    assert c[|history|].parts[0].text == prefix + prompt;
    assert (prefix + prompt)[..|prefix|] == prefix;
    assert (prefix + prompt)[|prefix|..] == prompt;
  }

  // ---------------------------------------------------------------------
  // Response handling

  /** The body of the `try`: a missing or empty text throws "No response
      from AI"; otherwise JSON.parse either yields a result or throws. */
  function ParseText(text: Option<string>, parse: string -> Option<GenerationResult>): Result<GenerationResult, string> {
    if text.None? || text.value == "" then Failure(NoResponseMessage)
    else match parse(text.value)
      case Some(result) => Success(result)
      case None => Failure("JSON parse error")
  }

  /** The `try`/`catch`: every error of ParseText becomes the one
      invalid-format error. */
  function ReadResponse(text: Option<string>, parse: string -> Option<GenerationResult>): (r: Result<GenerationResult, string>)
    ensures r.Failure? ==> r.error == InvalidFormatMessage
    ensures r.Success? <==> text.Some? && text.value != "" && parse(text.value).Some?
    ensures r.Success? ==> r.value == parse(text.value).value
  {
    match ParseText(text, parse)
    case Success(result) => Success(result)
    case Failure(_) => Failure(InvalidFormatMessage)
  }

  /** `generateCode`: an error thrown by the SDK call is outside the `try`
      and escapes with its own message; after an answer, only the
      invalid-format error can escape, never "No response from AI". */
  function GenerateCode(reply: SdkReply, parse: string -> Option<GenerationResult>): (r: Result<GenerationResult, string>)
    ensures reply.SdkThrew? ==> r == Failure(reply.message)
    ensures reply.Answered? && r.Failure? ==> r.error == InvalidFormatMessage && r.error != NoResponseMessage
    ensures reply.Answered? ==> (r.Success? <==> reply.text.Some? && reply.text.value != "" && parse(reply.text.value).Some?)
    ensures reply.Answered? && r.Success? ==> r.value == parse(reply.text.value).value
  {
    match reply
    case SdkThrew(message) => Failure(message)
    case Answered(text) => ReadResponse(text, parse)
  }
}
