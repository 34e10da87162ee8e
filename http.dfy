/**
 What both `/api/gemini` handlers read and write: the parsed request body,
 what the external generation service answered (reduced to the facts the
 handlers test), and the status-plus-JSON response they send.
 */
module Http {
  import opened Values

  /** The parsed JSON request body. `apiKey` is sent by the browser client and
      read by neither handler. */
  datatype Request = Request(
    npcId: Option<string>,
    playerInput: Option<string>,
    context: Option<Json>,
    apiKey: Option<string>)

  /** One text part of a candidate's content. */
  datatype Part = Part(text: string)
  datatype Content = Content(parts: Option<seq<Part>>)
  /** A candidate without content also stands for a falsy (`null`) candidate:
      both fail the same shape test. */
  datatype Candidate = Candidate(content: Option<Content>)

  /** The body of a success-status answer: either it cannot be read as an
      object (`response.json()` rejects, or it is `null`, so reading
      `data.candidates` throws), or it carries an optional candidate list. */
  datatype Payload =
    | Unreadable(message: string)
    | Parsed(candidates: Option<seq<Candidate>>)

  /** How the single outbound `fetch` ended. */
  datatype Upstream =
    | TransportFailure(message: string)
    | Responded(status: int, text: string, payload: Payload)

  /** `response.ok`: a status in the range 200-299. */
  predicate Ok(status: int)
  {
    200 <= status <= 299
  }

  /** The V8 messages of the TypeError thrown by
      `data.candidates[0].content.parts[0].text` when `parts` is missing, or
      when it is empty. */
  const MissingPartsMessage: string := "Cannot read properties of undefined (reading '0')"
  const EmptyPartsMessage: string := "Cannot read properties of undefined (reading 'text')"

  /** What the shape check and the text extraction make of a readable body. */
  datatype Reading = Malformed | Throws(message: string) | Text(reply: string)

  /** `!data.candidates || !data.candidates[0] || !data.candidates[0].content`
      is the shape check; after it, `content.parts[0].text` is read without a
      check and throws when `parts` is missing or empty. */
  function ReadReply(candidates: Option<seq<Candidate>>): (r: Reading)
    ensures r.Malformed? <==>
              candidates.None? || |candidates.value| == 0 || candidates.value[0].content.None?
    ensures r.Text? <==>
              && candidates.Some? && |candidates.value| > 0
              && candidates.value[0].content.Some?
              && candidates.value[0].content.value.parts.Some?
              && |candidates.value[0].content.value.parts.value| > 0
    ensures r.Text? ==> r.reply == candidates.value[0].content.value.parts.value[0].text
  {
    if candidates.None? || |candidates.value| == 0 || candidates.value[0].content.None? then
      Malformed
    else
      var parts := candidates.value[0].content.value.parts;
      if parts.None? then Throws(MissingPartsMessage)
      else if |parts.value| == 0 then Throws(EmptyPartsMessage)
      else Text(parts.value[0].text)
  }

  /** The optional `details` field of an error body. */
  datatype Details = UpstreamText(text: string) | ErrorMessage(message: string)

  datatype Body =
    | Reply(response: string, npcId: string, executionTime: Option<int>)
    | Error(error: string, details: Option<Details>)
    | NoBody

  datatype Response = Response(status: int, body: Body)

  /** Everything one invocation of a handler does: the headers it sets itself,
      the prompt it sends upstream (if it gets that far), and its response. */
  datatype Exchange = Exchange(headers: seq<(string, string)>, sent: Option<string>, response: Response)

  const InvalidInputMessage: string := "Invalid input: npcId and playerInput are required"
  const ExternalServiceMessage: string := "External service error"
  const InvalidFormatMessage: string := "Invalid response format"
}
