/**
 The two deployments of `/api/gemini` side by side: for a POST with a body
 they take the same branches, send the same prompt and answer with the same
 status; they differ only in two error strings, in `details`, and in the
 elapsed time the serverless variant adds to a success.
 */
module Deployments {
  import opened Values
  import opened Http
  import LocalServer
  import ServerlessHandler

  /** The serverless error string for each local-server error string. */
  function ServerlessError(local: string): string
  {
    if local == LocalServer.MissingKeyMessage then ServerlessHandler.MissingKeyMessage
    else if local == LocalServer.InternalErrorMessage then ServerlessHandler.UnavailableMessage
    else local
  }

  lemma VariantsAgree(req: Request, envKey: Option<string>, upstream: Upstream, elapsed: int,
                      stringify: Json -> string)
    ensures var l := LocalServer.Handle(req, envKey, upstream, stringify);
            var s := ServerlessHandler.Handle(ServerlessHandler.Invocation("POST", Some(req)),
                                              envKey, upstream, elapsed, stringify);
            && s.sent == l.sent
            && s.response.status == l.response.status
            && (l.response.body.Reply? ==>
                  s.response.body == l.response.body.(executionTime := Some(elapsed)))
            && (l.response.body.Error? ==>
                  s.response.body == Error(ServerlessError(l.response.body.error), None))
  {
  }
}
