/**
 The `POST /api/gemini` route of the locally hosted Express server
 (server.js): validate the body, read the key from the process environment,
 build the prompt, send it, and translate what came back into a status and a
 JSON body. Every failure after validation is a 500; the two that come with a
 `details` field carry the upstream error text or the exception's message.
 */
module LocalServer {
  import opened Values
  import opened Prompt
  import opened Http

  const MissingKeyMessage: string := "API key not configured"
  const InternalErrorMessage: string := "Internal server error"

  /** The response once the prompt has gone upstream. */
  function Answer(npcId: string, upstream: Upstream): (r: Response)
    ensures r.status == 200 || r.status == 500
    ensures r.status == 200 <==> r.body.Reply?
    ensures r.body.Reply? ==> r.body.npcId == npcId && r.body.executionTime.None?
  {
    match upstream
    case TransportFailure(m) =>
      Response(500, Error(InternalErrorMessage, Some(ErrorMessage(m))))
    case Responded(status, text, payload) =>
      if !Ok(status) then
        Response(500, Error(ExternalServiceMessage, Some(UpstreamText(text))))
      else
        match payload
        case Unreadable(m) => Response(500, Error(InternalErrorMessage, Some(ErrorMessage(m))))
        case Parsed(candidates) =>
          match ReadReply(candidates)
          case Malformed => Response(500, Error(InvalidFormatMessage, None))
          case Throws(m) => Response(500, Error(InternalErrorMessage, Some(ErrorMessage(m))))
          case Text(reply) => Response(200, Reply(reply, npcId, None))
  }

  /** One invocation of the route. `envKey` is `process.env.GEMINI_API_KEY`;
      `upstream` is what the outbound call would return. The handler sets no
      headers itself. */
  function Handle(req: Request, envKey: Option<string>, upstream: Upstream,
                  stringify: Json -> string): (x: Exchange)
    ensures x.headers == []
    ensures x.response.status in {200, 400, 500}
    ensures x.sent.Some? <==> Present(req.npcId) && Present(req.playerInput) && Present(envKey)
    ensures x.sent.Some? ==>
              x.sent.value == GeneratePrompt(req.npcId.value, req.playerInput.value, req.context, stringify)
    ensures x.response.status == 400 <==> !Present(req.npcId) || !Present(req.playerInput)
  {
    if !Present(req.npcId) || !Present(req.playerInput) then
      Exchange([], None, Response(400, Error(InvalidInputMessage, None)))
    else if !Present(envKey) then
      Exchange([], None, Response(500, Error(MissingKeyMessage, None)))
    else
      var prompt := GeneratePrompt(req.npcId.value, req.playerInput.value, req.context, stringify);
      Exchange([], Some(prompt), Answer(req.npcId.value, upstream))
  }

  // ----- Properties of the route -----

  /** A falsy `npcId` or `playerInput` is rejected with 400 before the key or
      the upstream service is consulted. */
  lemma InvalidInputRejectedFirst(req: Request, k1: Option<string>, k2: Option<string>,
                                  u1: Upstream, u2: Upstream, stringify: Json -> string)
    requires !Present(req.npcId) || !Present(req.playerInput)
    ensures Handle(req, k1, u1, stringify) == Handle(req, k2, u2, stringify)
    ensures Handle(req, k1, u1, stringify).response == Response(400, Error(InvalidInputMessage, None))
  {
  }

  /** With valid input and no key in the environment: 500, nothing sent. */
  lemma MissingKeyRejected(req: Request, envKey: Option<string>, upstream: Upstream,
                           stringify: Json -> string)
    requires Present(req.npcId) && Present(req.playerInput) && !Present(envKey)
    ensures Handle(req, envKey, upstream, stringify)
         == Exchange([], None, Response(500, Error(MissingKeyMessage, None)))
  {
  }

  /** The `apiKey` in the body plays no part: only the environment's key is read. */
  lemma BodyKeyIgnored(req: Request, k: Option<string>, envKey: Option<string>, upstream: Upstream,
                       stringify: Json -> string)
    ensures Handle(req.(apiKey := k), envKey, upstream, stringify)
         == Handle(req, envKey, upstream, stringify)
  {
  }

  /** How each answer of the upstream service is reported, once the prompt has
      been sent: a non-ok status as "External service error" with the upstream
      text as details; a body failing the shape check as "Invalid response
      format"; content without parts, an unreadable body or a failed transport
      as "Internal server error" with the exception's message; otherwise 200
      with the first part's text and the echoed `npcId`. */
  lemma UpstreamOutcomes(req: Request, envKey: Option<string>, upstream: Upstream,
                         stringify: Json -> string)
    requires Present(req.npcId) && Present(req.playerInput) && Present(envKey)
    ensures var r := Handle(req, envKey, upstream, stringify).response;
            && (upstream.TransportFailure? ==>
                  r == Response(500, Error(InternalErrorMessage, Some(ErrorMessage(upstream.message)))))
            && (upstream.Responded? && !Ok(upstream.status) ==>
                  r == Response(500, Error(ExternalServiceMessage, Some(UpstreamText(upstream.text)))))
            && (upstream.Responded? && Ok(upstream.status) && upstream.payload.Unreadable? ==>
                  r == Response(500, Error(InternalErrorMessage, Some(ErrorMessage(upstream.payload.message)))))
            && (upstream.Responded? && Ok(upstream.status) && upstream.payload.Parsed? ==>
                  match ReadReply(upstream.payload.candidates)
                  case Malformed => r == Response(500, Error(InvalidFormatMessage, None))
                  case Throws(m) => r == Response(500, Error(InternalErrorMessage, Some(ErrorMessage(m))))
                  case Text(t) => r == Response(200, Reply(t, req.npcId.value, None)))
  {
  }

  /** 200 is answered exactly when the prompt was sent, the upstream status
      was ok, and the first candidate had content with at least one part; the
      reply is that part's text. */
  lemma SuccessExactly(req: Request, envKey: Option<string>, upstream: Upstream,
                       stringify: Json -> string)
    ensures var x := Handle(req, envKey, upstream, stringify);
            x.response.status == 200 <==>
              && x.sent.Some?
              && upstream.Responded? && Ok(upstream.status) && upstream.payload.Parsed?
              && ReadReply(upstream.payload.candidates).Text?
    ensures var x := Handle(req, envKey, upstream, stringify);
            x.response.status == 200 ==>
              x.response.body == Reply(ReadReply(upstream.payload.candidates).reply, req.npcId.value, None)
  {
  }
  // ----- The route with `generatePrompt` as written -----

  /** The route with the prompt built by `generatePrompt` as the source writes
      it: for an inherited `Object.prototype` name the call throws inside the
      `try`, and the `catch` answers 500 with the TypeError's message. */
  function HandleAsWritten(req: Request, envKey: Option<string>, upstream: Upstream,
                           stringify: Json -> string): (x: Exchange)
    ensures x.sent.Some? <==>
              Present(req.npcId) && Present(req.playerInput) && Present(envKey)
              && req.npcId.value !in ObjectPrototypeKeys
    ensures x.response.status == 400 <==> !Present(req.npcId) || !Present(req.playerInput)
  {
    if !Present(req.npcId) || !Present(req.playerInput) || !Present(envKey) then
      Handle(req, envKey, upstream, stringify)
    else
      match PromptAsWritten(req.npcId.value, req.playerInput.value, req.context, stringify)
      case None =>
        Exchange([], None, Response(500, Error(InternalErrorMessage, Some(ErrorMessage(MissingKnowledgeMessage)))))
      case Some(prompt) =>
        Exchange([], Some(prompt), Answer(req.npcId.value, upstream))
  }

  /** Off the inherited names the route as written is the modelled route. */
  lemma HandleAsWrittenAgreesElsewhere(req: Request, envKey: Option<string>, upstream: Upstream,
                                       stringify: Json -> string)
    requires req.npcId.Some? ==> req.npcId.value !in ObjectPrototypeKeys
    ensures HandleAsWritten(req, envKey, upstream, stringify) == Handle(req, envKey, upstream, stringify)
  {
    if Present(req.npcId) && Present(req.playerInput) && Present(envKey) {
      PromptAsWrittenAgreesElsewhere(req.npcId.value, req.playerInput.value, req.context, stringify);
    }
  }

  /** An inherited name with valid input and a key: 500 `Internal server
      error` with the TypeError's message, nothing sent, whatever the upstream
      service would have answered. */
  lemma HandleAsWrittenFailsOnInherited(req: Request, envKey: Option<string>, upstream: Upstream,
                                        stringify: Json -> string)
    requires Present(req.npcId) && Present(req.playerInput) && Present(envKey)
    requires req.npcId.value in ObjectPrototypeKeys
    ensures HandleAsWritten(req, envKey, upstream, stringify)
         == Exchange([], None, Response(500, Error(InternalErrorMessage, Some(ErrorMessage(MissingKnowledgeMessage)))))
  {
  }
}
