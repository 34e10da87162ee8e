/**
 The serverless `handler(req, res)` of api/gemini.js: set three CORS headers,
 answer a preflight, refuse every method but POST, then validate, read the key
 from the environment, send the prompt and translate the answer. Unlike the
 local server it never returns a `details` field, and it reports every
 exception as "Service temporarily unavailable".
 */
module ServerlessHandler {
  import opened Values
  import opened Prompt
  import opened Http

  /** The headers set on every response, before any branch is taken. */
  const CorsHeaders: seq<(string, string)> := [
    ("Access-Control-Allow-Origin", "*"),
    ("Access-Control-Allow-Methods", "POST, OPTIONS"),
    ("Access-Control-Allow-Headers", "Content-Type")
  ]

  const MethodNotAllowedMessage: string := "Method not allowed"
  const MissingKeyMessage: string := "Service unavailable - API key not configured"
  const UnavailableMessage: string := "Service temporarily unavailable"

  /** An incoming call: its HTTP method (`req.method`) and its parsed body,
      absent (`undefined` or `null`) when nothing could be parsed. */
  datatype Invocation = Invocation(verb: string, body: Option<Request>)

  /** The response once the prompt has gone upstream. `elapsed` stands for
      `Date.now() - startTime`. */
  function Answer(npcId: string, upstream: Upstream, elapsed: int): (r: Response)
    ensures r.status == 200 || r.status == 500
    ensures r.status == 200 <==> r.body.Reply?
    ensures r.body.Reply? ==> r.body.npcId == npcId && r.body.executionTime == Some(elapsed)
    ensures r.body.Error? ==> r.body.details.None?
  {
    match upstream
    case TransportFailure(_) => Response(500, Error(UnavailableMessage, None))
    case Responded(status, _, payload) =>
      if !Ok(status) then
        Response(500, Error(ExternalServiceMessage, None))
      else
        match payload
        case Unreadable(_) => Response(500, Error(UnavailableMessage, None))
        case Parsed(candidates) =>
          match ReadReply(candidates)
          case Malformed => Response(500, Error(InvalidFormatMessage, None))
          case Throws(_) => Response(500, Error(UnavailableMessage, None))
          case Text(reply) => Response(200, Reply(reply, npcId, Some(elapsed)))
  }

  function Handle(inv: Invocation, envKey: Option<string>, upstream: Upstream, elapsed: int,
                  stringify: Json -> string): (x: Exchange)
    ensures x.headers == CorsHeaders
    ensures x.response.status in {200, 400, 405, 500}
    ensures x.response.body.Error? ==> x.response.body.details.None?
    ensures x.sent.Some? <==>
              && inv.verb == "POST" && inv.body.Some?
              && Present(inv.body.value.npcId) && Present(inv.body.value.playerInput)
              && Present(envKey)
    ensures x.sent.Some? ==>
              x.sent.value == GeneratePrompt(inv.body.value.npcId.value, inv.body.value.playerInput.value,
                                             inv.body.value.context, stringify)
    ensures x.response.status == 405 <==> inv.verb != "OPTIONS" && inv.verb != "POST"
    ensures x.response.body.NoBody? <==> inv.verb == "OPTIONS"
  {
    if inv.verb == "OPTIONS" then
      Exchange(CorsHeaders, None, Response(200, NoBody))
    else if inv.verb != "POST" then
      Exchange(CorsHeaders, None, Response(405, Error(MethodNotAllowedMessage, None)))
    else if inv.body.None? then
      // destructuring an undefined or null body throws inside the try block
      Exchange(CorsHeaders, None, Response(500, Error(UnavailableMessage, None)))
    else
      var req := inv.body.value;
      if !Present(req.npcId) || !Present(req.playerInput) then
        Exchange(CorsHeaders, None, Response(400, Error(InvalidInputMessage, None)))
      else if !Present(envKey) then
        Exchange(CorsHeaders, None, Response(500, Error(MissingKeyMessage, None)))
      else
        var prompt := GeneratePrompt(req.npcId.value, req.playerInput.value, req.context, stringify);
        Exchange(CorsHeaders, Some(prompt), Answer(req.npcId.value, upstream, elapsed))
  }

  // ----- Properties of the handler -----

  /** A preflight gets 200 with an empty body whatever else holds. */
  lemma PreflightAnswered(body: Option<Request>, envKey: Option<string>, upstream: Upstream,
                          elapsed: int, stringify: Json -> string)
    ensures Handle(Invocation("OPTIONS", body), envKey, upstream, elapsed, stringify)
         == Exchange(CorsHeaders, None, Response(200, NoBody))
  {
  }

  /** Any method other than POST and OPTIONS gets 405. */
  lemma OtherMethodsRefused(inv: Invocation, envKey: Option<string>, upstream: Upstream,
                            elapsed: int, stringify: Json -> string)
    requires inv.verb != "POST" && inv.verb != "OPTIONS"
    ensures Handle(inv, envKey, upstream, elapsed, stringify)
         == Exchange(CorsHeaders, None, Response(405, Error(MethodNotAllowedMessage, None)))
  {
  }

  /** A POST with a falsy `npcId` or `playerInput` gets the local server's 400,
      before the key or the upstream service is consulted. */
  lemma InvalidInputRejectedFirst(req: Request, k1: Option<string>, k2: Option<string>,
                                  u1: Upstream, u2: Upstream, e1: int, e2: int,
                                  stringify: Json -> string)
    requires !Present(req.npcId) || !Present(req.playerInput)
    ensures Handle(Invocation("POST", Some(req)), k1, u1, e1, stringify)
         == Handle(Invocation("POST", Some(req)), k2, u2, e2, stringify)
    ensures Handle(Invocation("POST", Some(req)), k1, u1, e1, stringify).response
         == Response(400, Error(InvalidInputMessage, None))
  {
  }

  /** With valid input and no key in the environment: 500, nothing sent. */
  lemma MissingKeyRejected(req: Request, envKey: Option<string>, upstream: Upstream,
                           elapsed: int, stringify: Json -> string)
    requires Present(req.npcId) && Present(req.playerInput) && !Present(envKey)
    ensures Handle(Invocation("POST", Some(req)), envKey, upstream, elapsed, stringify)
         == Exchange(CorsHeaders, None, Response(500, Error(MissingKeyMessage, None)))
  {
  }

  /** The `apiKey` in the body plays no part: only the environment's key is read. */
  lemma BodyKeyIgnored(verb: string, req: Request, k: Option<string>, envKey: Option<string>,
                       upstream: Upstream, elapsed: int, stringify: Json -> string)
    ensures Handle(Invocation(verb, Some(req.(apiKey := k))), envKey, upstream, elapsed, stringify)
         == Handle(Invocation(verb, Some(req)), envKey, upstream, elapsed, stringify)
  {
  }

  /** How each answer of the upstream service is reported, once the prompt has
      been sent: a non-ok status as "External service error"; a body failing
      the shape check as "Invalid response format"; any exception as "Service
      temporarily unavailable"; otherwise 200 with the first part's text, the
      elapsed time and the echoed `npcId`. */
  lemma UpstreamOutcomes(req: Request, envKey: Option<string>, upstream: Upstream,
                         elapsed: int, stringify: Json -> string)
    requires Present(req.npcId) && Present(req.playerInput) && Present(envKey)
    ensures var r := Handle(Invocation("POST", Some(req)), envKey, upstream, elapsed, stringify).response;
            && (upstream.TransportFailure? ==> r == Response(500, Error(UnavailableMessage, None)))
            && (upstream.Responded? && !Ok(upstream.status) ==>
                  r == Response(500, Error(ExternalServiceMessage, None)))
            && (upstream.Responded? && Ok(upstream.status) && upstream.payload.Unreadable? ==>
                  r == Response(500, Error(UnavailableMessage, None)))
            && (upstream.Responded? && Ok(upstream.status) && upstream.payload.Parsed? ==>
                  match ReadReply(upstream.payload.candidates)
                  case Malformed => r == Response(500, Error(InvalidFormatMessage, None))
                  case Throws(_) => r == Response(500, Error(UnavailableMessage, None))
                  case Text(t) => r == Response(200, Reply(t, req.npcId.value, Some(elapsed))))
  {
  }
  // ----- The handler with `generatePrompt` as written -----

  /** The handler with the prompt built by `generatePrompt` as the source
      writes it: for an inherited `Object.prototype` name the call throws
      inside the `try`, and the `catch` answers 500 "Service temporarily
      unavailable". */
  function HandleAsWritten(inv: Invocation, envKey: Option<string>, upstream: Upstream, elapsed: int,
                           stringify: Json -> string): (x: Exchange)
    ensures x.headers == CorsHeaders
    ensures x.sent.Some? <==>
              && inv.verb == "POST" && inv.body.Some?
              && Present(inv.body.value.npcId) && Present(inv.body.value.playerInput)
              && Present(envKey)
              && inv.body.value.npcId.value !in ObjectPrototypeKeys
    ensures x.response.status == 405 <==> inv.verb != "OPTIONS" && inv.verb != "POST"
  {
    if inv.verb != "POST" || inv.body.None? then
      Handle(inv, envKey, upstream, elapsed, stringify)
    else
      var req := inv.body.value;
      if !Present(req.npcId) || !Present(req.playerInput) || !Present(envKey) then
        Handle(inv, envKey, upstream, elapsed, stringify)
      else
        match PromptAsWritten(req.npcId.value, req.playerInput.value, req.context, stringify)
        case None => Exchange(CorsHeaders, None, Response(500, Error(UnavailableMessage, None)))
        case Some(prompt) => Exchange(CorsHeaders, Some(prompt), Answer(req.npcId.value, upstream, elapsed))
  }

  /** Off the inherited names the handler as written is the modelled handler. */
  lemma HandleAsWrittenAgreesElsewhere(inv: Invocation, envKey: Option<string>, upstream: Upstream,
                                       elapsed: int, stringify: Json -> string)
    requires inv.body.Some? && inv.body.value.npcId.Some? ==> inv.body.value.npcId.value !in ObjectPrototypeKeys
    ensures HandleAsWritten(inv, envKey, upstream, elapsed, stringify)
         == Handle(inv, envKey, upstream, elapsed, stringify)
  {
    if inv.verb == "POST" && inv.body.Some? {
      var req := inv.body.value;
      if Present(req.npcId) && Present(req.playerInput) && Present(envKey) {
        PromptAsWrittenAgreesElsewhere(req.npcId.value, req.playerInput.value, req.context, stringify);
      }
    }
  }

  /** A POST naming an inherited name, with valid input and a key: 500
      "Service temporarily unavailable", nothing sent, whatever the upstream
      service and the clock would have given. */
  lemma HandleAsWrittenFailsOnInherited(req: Request, envKey: Option<string>, upstream: Upstream,
                                        elapsed: int, stringify: Json -> string)
    requires Present(req.npcId) && Present(req.playerInput) && Present(envKey)
    requires req.npcId.value in ObjectPrototypeKeys
    ensures HandleAsWritten(Invocation("POST", Some(req)), envKey, upstream, elapsed, stringify)
         == Exchange(CorsHeaders, None, Response(500, Error(UnavailableMessage, None)))
  {
  }
}
