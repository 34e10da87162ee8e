# NPC dialogue proxy: a Dafny model

This project models the three parts with real logic in a small game that gets NPC dialogue from a generative-language service.

- **The conversation manager** (`js/conversationManager.js`) runs in the browser. It keeps an enabled flag, the current NPC, an in-flight guard and a rolling history of the last ten turns. Each player line either gets an answer at once or goes to the proxy endpoint `/api/gemini`. At once means a scripted fallback line when the manager is disabled, a fixed "no key" message when no key is stored, or a fixed "waiting" message while a call is in flight. When a proxied call returns, the reply is recorded, or a fallback line is given on any failure.
- **The prompt builder** (`generatePrompt`) turns an NPC identifier, the player's words and an optional game context into a Japanese prompt. It uses a persona table whose default is the villager. `server.js:114-147` and `api/gemini.js:94-127` contain the same text, so the model defines it once (`Prompt.GeneratePrompt`), and both handlers use that one definition.
- **The two request handlers** are the Express route in `server.js` and the serverless `handler` in `api/gemini.js`. Each is a chain of early returns from a few facts to a status and a JSON body. The facts are the method, the body fields, the environment key, and how the upstream call ended.

Modules, leaf first:

- `Values`: optional values, JSON values and JavaScript truthiness.
- `Prompt`: the persona table and the template.
- `Http`: request and response forms, and the upstream reply shape check.
- `LocalServer`: the `server.js` route.
- `ServerlessHandler`: the `api/gemini.js` handler.
- `Deployments`: the two handlers compared.
- `Conversation`: the manager. The class `ConversationManager` has a method for each method of the source class except `getFallbackResponse`, which is the module function `GetFallbackResponse`. `startConversation` becomes three methods: `Begin`, `Complete` and `StartConversation`. Each method is specified by a pure step function on an abstract `Session`. The lemmas about those step functions state what the source promises.

`startConversation` is asynchronous. It suspends at `await fetch` (`js/conversationManager.js:31`) and, for an ok status, again at `await response.json()` (`:52`). No session field is touched between the two, so `Begin` is everything before the first and `Complete` everything after the last resumption. `Begin` runs the early returns, sets the guard and names the NPC. `Complete` records or falls back, then clears the guard as the `finally` does. `StartConversation` runs the two steps back to back, which is the call when nothing else runs while it is suspended.

Three points the code decides:

- Neither handler reads the `apiKey` the browser sends. Both read `process.env.GEMINI_API_KEY`.
- A missing server key gives status 500, not 400.
- In the manager, a missing stored key gives a fixed message, not a fallback line. This check comes before the in-flight check.

## Model

| member | source | states |
|---|---|---|
| `Prompt.PersonaFor` | server.js:115-132 | The persona is always one of the table's entries. An identifier in the table gets its own entry, and every identifier outside it gets the villager entry. |
| `Prompt.GeneratePrompt` | server.js:114-147 | The prompt, defined once for both handlers. Its properties are stated by `PromptOpensWithName`, `PromptMentions`, `PromptEndsWithInstruction`, `PromptDeterminesInput` and `UnknownNpcPromptIsVillager`. |
| `Prompt.Join` | server.js:139 | `join(', ')` of the knowledge list. Its partner `JoinContainsEach` states that every item appears in the result. |
| `Values.LookupOwn` | server.js:132 | The property lookup on an object literal: the own entry exactly for keys in the table, an inherited member exactly for the `Object.prototype` names outside it, and nothing otherwise. |
| `Prompt.ContextBlock` | server.js:133 | The context block is empty exactly when the context is falsy. Otherwise it is `ゲーム状況: ` followed by the serialised context. |
| `Prompt.JoinContainsEach` | server.js:139 | Every knowledge item appears, verbatim, in the `', '`-joined list. |
| `Prompt.VillagerKnowledgeJoined` | server.js:127 | The villager's four topics join to `村の噂話, 近隣の情報, 天気の話, 作物の話`. |
| `Prompt.UnknownNpcPromptIsVillager` | server.js:132 | An identifier other than `oldMan` and `villager` gets exactly the villager's prompt, for every input and context. |
| `Prompt.PromptOpensWithName` | server.js:135 | The prompt begins `あなたは` followed by the persona's name. |
| `Prompt.PromptMentions` | server.js:135-146 | The prompt contains the joined knowledge list, the context block, and the player's words between double quotes. |
| `Prompt.PromptEndsWithInstruction` | server.js:146 | The prompt ends with the fixed instruction to reply in 50 characters or fewer. |
| `Prompt.PromptDeterminesInput` | server.js:144 | For one NPC and context, different player inputs give different prompts. The input reaches the prompt unaltered. |
| `Prompt.VillagerGreetingScenario` | server.js:114-147 | `('villager', 'こんにちは', {weather:'rain'})` gives a prompt containing `村人`, the villager's joined topics and `こんにちは`. |
| `Prompt.PromptAsWritten` | server.js:132-139 | The lookup as the source writes it throws exactly for the names inherited from `Object.prototype`. |
| `Prompt.PromptAsWrittenAgreesElsewhere` | api/gemini.js:112-113 | For every identifier that is not an inherited name, the source's lookup gives the corrected prompt. |
| `Prompt.PromptAsWrittenThrowsOnToString` | server.js:132-139 | `toString` is not in the table, yet the source's prompt throws for it. |
| `Http.ReadReply` | server.js:89-94 | The shape check fails exactly when `candidates` is missing or empty, or the first candidate has no content. A reply text is read exactly when that content has at least one part, and the text is the first part's. Otherwise the read throws. |
| `LocalServer.Answer` | server.js:75-110 | After the send, the status is 200 or 500. It is 200 exactly when the body is a reply, which echoes the `npcId` and has no elapsed time. |
| `LocalServer.Handle` | server.js:19-111 | The status is 200, 400 or 500. It is 400 exactly when `npcId` or `playerInput` is falsy. A prompt is sent exactly when both are present and the environment key is present, and the prompt sent is `generatePrompt`'s. |
| `LocalServer.InvalidInputRejectedFirst` | server.js:29-32 | A falsy `npcId` or `playerInput` gives 400 with the fixed message, whatever the key and the upstream answer. |
| `LocalServer.MissingKeyRejected` | server.js:34-42 | Valid input with no environment key gives 500 `API key not configured`, and nothing is sent. |
| `LocalServer.BodyKeyIgnored` | server.js:26-35 | The exchange does not depend on the body's `apiKey`. |
| `LocalServer.UpstreamOutcomes` | server.js:75-110 | A non-ok status gives `External service error` with the upstream text. A shape failure gives `Invalid response format`. Missing parts, an unreadable body or a transport failure give `Internal server error` with the message. Otherwise 200. |
| `LocalServer.HandleAsWritten` | server.js:45-110 | The route with `generatePrompt` as written. A prompt is sent exactly when both fields and the key are present and `npcId` is not an inherited `Object.prototype` name. It is 400 exactly when a field is falsy. |
| `LocalServer.HandleAsWrittenAgreesElsewhere` | server.js:45 | Off the inherited names the route as written equals `LocalServer.Handle`. |
| `LocalServer.HandleAsWrittenFailsOnInherited` | server.js:103-109 | For an inherited name with valid input and a key: 500 `Internal server error` with the TypeError's message, and nothing is sent. |
| `LocalServer.SuccessExactly` | server.js:94-101 | 200 happens exactly when the prompt was sent, the status was ok and the first part exists. The reply is that part's text, with the `npcId` echoed. |
| `ServerlessHandler.Answer` | api/gemini.js:61-90 | After the send, the status is 200 or 500. A reply carries the `npcId` and the elapsed time. No error has `details`. |
| `ServerlessHandler.Handle` | api/gemini.js:2-91 | The three CORS headers are set on every response. The status is one of 200, 400, 405 or 500. 405 happens exactly for methods other than POST and OPTIONS, and the body is empty exactly for OPTIONS. A prompt is sent exactly for a POST whose body has both fields present when the key is present. `details` never appears. |
| `ServerlessHandler.HandleAsWritten` | api/gemini.js:37-90 | The handler with `generatePrompt` as written. The CORS headers are always set. A prompt is sent exactly for a POST whose body has both fields present, when the key is present and `npcId` is not an inherited name. 405 happens exactly for methods other than POST and OPTIONS. |
| `ServerlessHandler.HandleAsWrittenAgreesElsewhere` | api/gemini.js:37 | Off the inherited names the handler as written equals `ServerlessHandler.Handle`. |
| `ServerlessHandler.HandleAsWrittenFailsOnInherited` | api/gemini.js:85-90 | A POST naming an inherited name, with valid input and a key: 500 `Service temporarily unavailable`, and nothing is sent. |
| `ServerlessHandler.PreflightAnswered` | api/gemini.js:4-11 | OPTIONS gets 200 with no body and the CORS headers, whatever else holds. |
| `ServerlessHandler.OtherMethodsRefused` | api/gemini.js:14-16 | Any other non-POST method gets 405 `Method not allowed`. |
| `ServerlessHandler.InvalidInputRejectedFirst` | api/gemini.js:21-26 | A POST with a falsy field gets the local server's 400 message, whatever the key, the upstream answer and the time. |
| `ServerlessHandler.MissingKeyRejected` | api/gemini.js:28-34 | Valid input with no environment key gives 500 `Service unavailable - API key not configured`. |
| `ServerlessHandler.BodyKeyIgnored` | api/gemini.js:21-29 | The exchange does not depend on the body's `apiKey`. |
| `ServerlessHandler.UpstreamOutcomes` | api/gemini.js:61-90 | A non-ok status gives `External service error` without details. A shape failure gives `Invalid response format`. Any exception gives `Service temporarily unavailable`. Otherwise 200 with the text, the elapsed time and the `npcId`. |
| `Deployments.VariantsAgree` | api/gemini.js:20-90 | For a POST with a body, both handlers send the same prompt and answer with the same status. Replies agree except for the elapsed time. Errors differ only by a fixed renaming of two messages and the absence of `details`. |
| `Conversation.FallbackLines` | js/conversationManager.js:83-100 | Each NPC's list has five lines and comes from the table. An identifier in the table gets its own list, and unknown identifiers get the villager's list. |
| `Conversation.GetFallbackResponse` | js/conversationManager.js:82-102 | The line is always an element of the NPC's list (the villager's for unknown ids), so always a scripted line. |
| `Conversation.EveryFallbackLineReachable` | js/conversationManager.js:101 | Every line of the list is produced by some index, so the random choice can reach each one. |
| `Conversation.FallbackAsWritten` | js/conversationManager.js:100-101 | The lookup as the source writes it yields no line exactly for the names inherited from `Object.prototype`. |
| `Conversation.FallbackAsWrittenAgreesElsewhere` | js/conversationManager.js:100 | For every other identifier, the source's lookup gives the corrected line. |
| `Conversation.FallbackAsWrittenLosesLine` | js/conversationManager.js:100-101 | `constructor` has no list of its own, yet the source returns `undefined` for it. |
| `Conversation.LastN` | js/conversationManager.js:43 | For the positive `n` the source uses, `slice(-n)` gives the last `min(n, length)` elements, as a suffix. |
| `Conversation.Record` | js/conversationManager.js:59-69 | The push followed by the conditional `slice(-10)`. Its partner `RecordKeepsLatest` states that the result is the last nine old turns followed by the new one. |
| `Conversation.BeginStep` | js/conversationManager.js:12-46 | The call goes out exactly when the manager is enabled, a key is stored and no call is in flight. An early answer leaves the session unchanged. The history is never changed. |
| `Conversation.CompleteStep` | js/conversationManager.js:48-78 | The guard is always cleared, and the flag and the NPC are kept. On success the reply is the proxy's and the history stays within ten turns. |
| `Conversation.SetEnabledStep` | js/conversationManager.js:105-111 | The flag becomes the given value, and the guard is kept. |
| `Conversation.ClearStep` | js/conversationManager.js:119-121 | The history becomes empty. |
| `Conversation.DisabledAnswersFallback` | js/conversationManager.js:13-15 | When disabled, the answer is a fallback line for that NPC and the session is unchanged. |
| `Conversation.MissingKeyAnswered` | js/conversationManager.js:17-21 | When enabled with no stored key, the answer is the fixed "no key" message and the session is unchanged. This holds whether or not a call is in flight. |
| `Conversation.WaitingAnswered` | js/conversationManager.js:23-25 | While a call is in flight, the answer is `応答を待っています...` and the session, including the history, NPC and guard, is unchanged. |
| `Conversation.BeginSends` | js/conversationManager.js:27-46 | Otherwise the guard is set, the NPC becomes current and the history is kept. The request carries the stored key and the last `min(5, n)` turns, in order. |
| `Conversation.RecordKeepsLatest` | js/conversationManager.js:59-69 | Push-then-trim gives the last nine old turns followed by the new one. That is at most ten turns, with the new turn last. |
| `Conversation.CompleteOnSuccess` | js/conversationManager.js:58-71 | A reply is returned and recorded as the last turn. The history is the last nine old turns plus the new one. The guard is cleared. The flag and the NPC are kept. |
| `Conversation.CompleteOnFailure` | js/conversationManager.js:48-78 | Any failure returns a fallback line for the NPC. Only the guard changes, and it is cleared. |
| `Conversation.DisableClears` | js/conversationManager.js:105-111 | `setEnabled(false)` empties the history and clears the NPC. A second `setEnabled(false)` changes nothing. |
| `Conversation.EnableKeeps` | js/conversationManager.js:105-107 | `setEnabled(true)` changes only the flag. |
| `Conversation.ClearOnlyHistory` | js/conversationManager.js:119-121 | Clearing empties the history and changes nothing else. |
| `Conversation.StepsStayBounded` | js/conversationManager.js:66-69 | Every step keeps the history at ten turns or fewer. |
| `Conversation.OneCallInFlight` | js/conversationManager.js:23-28 | After one turn has gone out, a second turn gets the waiting message and changes nothing. Only the first turn's completion changes the history. |
| `Conversation.ReplayKeepsLatest` | js/conversationManager.js:58-69 | After any run of successful turns, the history is the last ten of the old history followed by the new turns, taken together, oldest first. |
| `Conversation.ReplayManyTurns` | js/conversationManager.js:66-69 | After ten or more successful turns, the history is exactly the last ten turns, in order. |
| `Conversation.OutcomeOf` | js/conversationManager.js:48-56 | A non-ok status is a failure carrying that status. The outcome is a reply exactly when the status is ok and the body is a reply, and the reply is the body's `response`. |
| `Conversation.ErrorStatusFallsBack` | js/conversationManager.js:48-78 | A 500 from the proxy gives a fallback line, a cleared guard and an untouched history. |
| `Conversation.ConversationManager.constructor` | js/conversationManager.js:3-9 | A new manager is disabled, has no NPC, has an empty history and is not waiting. The endpoint is `/api/gemini`. |
| `Conversation.ConversationManager.Begin` | js/conversationManager.js:12-28 | The new state and the result are those of `BeginStep` on the old state. The history bound is kept. |
| `Conversation.ConversationManager.Complete` | js/conversationManager.js:30-78 | The new state and the reply are those of `CompleteStep`. The push, the conditional `slice(-10)` and the `finally` reset, done in place, match it. |
| `Conversation.ConversationManager.StartConversation` | js/conversationManager.js:12-79 | An early answer leaves the state unchanged. Otherwise the result is `CompleteStep` after `BeginStep`. |
| `Conversation.ConversationManager.SetEnabled` | js/conversationManager.js:105-111 | The new state is `SetEnabledStep` of the old one. |
| `Conversation.ConversationManager.GetConversationHistory` | js/conversationManager.js:114-116 | It returns the history, oldest first: at most ten turns. |
| `Conversation.ConversationManager.ClearConversationHistory` | js/conversationManager.js:119-121 | The new state is the old one with an empty history. |
| `Conversation.ConversationManager.GetStatus` | js/conversationManager.js:124-131 | The status reports the flag, the NPC and the guard, and `historyCount` equals the history length (at most ten). |
| `Conversation.SecondTurnWhileWaiting` | js/conversationManager.js:23-25 | On a real manager object, a second turn while the first is in flight gets the waiting message. After the first completes, the history holds one turn. |

## Left out

- The HTTP calls themselves are replaced by their results. This covers the browser's `fetch` to `/api/gemini` and the handlers' `fetch` to the generation service, with its URL, key placement and fixed generation settings. The model uses `Conversation.Outcome` and `Http.Upstream` instead. They are foreign network calls.
- Real asynchrony is left out. Only the split into `Begin` (before `await fetch`) and `Complete` (after the last resumption) is modelled. Any other method may run while the call is suspended, and the lemmas hold for whatever session `Complete` finds.
- `Math.random()` is replaced by a caller-chosen index `pick` below the list's length. The model says every line can be chosen but not that the choice is uniform. Probability is outside what the verifier states.
- `Date.now()` and the serverless `executionTime` are parameters. Clocks are outside the model.
- `localStorage` is replaced by the `storedKey` parameter, and `process.env` by the `envKey` parameter.
- All `console.log` and `console.error` output is left out. It has no effect on results.
- `JSON.stringify` is an uninterpreted function parameter, `stringify`. `JSON.parse` and `response.json()` are reduced to the `Payload` forms.
- Express setup, static files, the `cors()` middleware, `GET /` and `app.listen` (`server.js:1-16`, `150-159`) are left out as hosting. `LocalServer.Handle` therefore reports only the headers the route sets itself, which is none.
- The browser's `window.conversationManager` singleton is left out.
- js/apiKeyManager.js is not part of this model. It is DOM, modal and `localStorage` code for entering the key.
- `Http.Request`: `npcId` and `playerInput` are modelled as absent or as strings. Non-string JSON values (numbers, booleans, objects), which JavaScript would convert for the property lookup and the template, are left out.
- `Http.ReadReply`: a `parts[0]` that exists but has no `text` (the reply would be `undefined`) and a present but non-array `candidates` or `parts` are left out. The model treats a `null` candidate like one without content, which leads to the same outcome.
- `Conversation.OutcomeOf`: an ok-status error body whose `error` is the empty string is mapped to `Thrown`. The source would record and return `data.response`, which is `undefined` there. Neither handler produces such a body.
- `Conversation.Outcome`: an ok reply whose `response` field is missing is not modelled. The manager would record and return `undefined`.
- `Conversation.BeginStep`: on the disabled path it uses the corrected fallback lookup, so for an inherited `Object.prototype` name (such as `constructor`) it answers a villager line where `js/conversationManager.js:14` returns `undefined`. That value is `Conversation.FallbackAsWritten`.
- `Conversation.CompleteStep`: on every failure it uses the corrected fallback lookup, so for an inherited name it answers a villager line where `js/conversationManager.js:75` returns `undefined`. That value is `Conversation.FallbackAsWritten`.
- `LocalServer.Handle`: uses the corrected persona lookup, so for an inherited `Object.prototype` name (such as `toString`) it sends a villager prompt where `server.js` throws in `generatePrompt` and answers 500. That behaviour is `LocalServer.HandleAsWritten`.
- `LocalServer.UpstreamOutcomes`: its 200 case also covers the inherited names, for which `server.js` answers 500 `Internal server error` before anything is sent (`LocalServer.HandleAsWrittenFailsOnInherited`).
- `ServerlessHandler.Handle`: uses the corrected persona lookup, so for an inherited name it sends a villager prompt where `api/gemini.js` throws in `generatePrompt` and answers 500. That behaviour is `ServerlessHandler.HandleAsWritten`.
- `ServerlessHandler.UpstreamOutcomes`: its 200 case also covers the inherited names, for which `api/gemini.js` answers 500 `Service temporarily unavailable` before anything is sent (`ServerlessHandler.HandleAsWrittenFailsOnInherited`).
- The `...context` spread into the outbound context is kept as the caller's value beside the timestamp and the recent turns. Its merge into one object is part of the JSON encoding, which is not modelled.

## Findings

| source | as written | input that shows it | evidently intended | confidence | as-written member | corrected member |
|---|---|---|---|---|---|---|
| js/conversationManager.js:100-101 | `fallbackResponses[npcId] \|\| fallbackResponses['villager']` finds members inherited from `Object.prototype`. For those it returns `undefined`, not a line. | `getFallbackResponse('constructor')` | Unknown identifiers get a villager line; the lookup uses only the table's own entries. | medium, not executed | `Conversation.FallbackAsWrittenLosesLine` | `Conversation.GetFallbackResponse` |
| server.js:132-139 (and api/gemini.js:112-119) | `npcConfigs[npcId] \|\| npcConfigs['villager']` finds an inherited function for `toString`. That function has no `knowledge`, so `.join` throws a TypeError and the request fails with 500. | `generatePrompt('toString', 'hi', {})` | Unknown identifiers get the villager persona and the prompt never fails. | medium, not executed | `Prompt.PromptAsWrittenThrowsOnToString` | `Prompt.PersonaFor` |

The rest of the model uses the corrected lookups. `Conversation.FallbackAsWrittenAgreesElsewhere` and `Prompt.PromptAsWrittenAgreesElsewhere` show that the two lookups differ only on the twelve inherited names. At the handler level, `LocalServer.HandleAsWrittenFailsOnInherited` and `ServerlessHandler.HandleAsWrittenFailsOnInherited` give the 500 that each handler as written answers for those names, and the `HandleAsWrittenAgreesElsewhere` lemmas show the as-written handlers agree with the modelled ones everywhere else.
