/**
 The browser-side conversation manager (js/conversationManager.js): an
 enabled flag, the NPC being talked to, an in-flight guard and a rolling
 history of the last ten turns. A turn either answers at once (disabled, no
 stored key, a call already in flight) or sends one request and, when the
 answer arrives, records the reply or falls back to a scripted line.

 The asynchronous `startConversation` suspends at `await fetch` and, for an
 ok status, again at `await response.json()`. No session field is touched
 between the two, so `Begin` is everything before the first (the early
 returns and setting the guard) and `Complete` everything after the last
 resumption, including the `finally` that clears the guard. The pure functions `BeginStep`,
 `CompleteStep`, `SetEnabledStep` and `ClearStep` specify the methods on the
 abstract `Session`; the lemmas state what the source promises about them.
 `localStorage.getItem('gemini_api_key')`, `Date.now()` and `Math.random()`
 are parameters: `storedKey`, a timestamp, and the chosen index `pick`.
 */
module Conversation {
  import opened Values
  import Http

  datatype Turn = Turn(npcId: string, playerInput: string, aiResponse: string, timestamp: int)

  const ApiEndpoint: string := "/api/gemini"
  /** The history keeps at most this many turns. */
  const MaxHistory: nat := 10
  /** A request carries at most this many of the latest turns. */
  const ContextTurns: nat := 5
  const NoKeyMessage: string := "APIキーが設定されていません。設定画面でAPIキーを入力してください。"
  const WaitingMessage: string := "応答を待っています..."

  // ----- Scripted fallback lines -----

  const OldManLines: seq<string> := [
    "My bones hurt.",
    "The weather is nice today.",
    "Have you seen my grandson?",
    "In my day, we had to walk uphill both ways.",
    "The village has changed so much over the years."
  ]

  const VillagerLines: seq<string> := [
    "Hey mister, have you seen my Doggochu?",
    "Welcome to our village!",
    "The crops are growing well this year.",
    "Did you hear about the new trainer in town?",
    "The weather has been strange lately."
  ]

  const FallbackTable: map<string, seq<string>> := map["oldMan" := OldManLines, "villager" := VillagerLines]

  /** The lines an NPC falls back to: its own list, or the villager's for any
      identifier without one. */
  function FallbackLines(npcId: string): (lines: seq<string>)
    ensures |lines| == 5
    ensures lines in FallbackTable.Values
    ensures npcId in FallbackTable ==> lines == FallbackTable[npcId]
    ensures npcId !in FallbackTable ==> lines == FallbackTable["villager"]
  {
    assert FallbackTable["villager"] == VillagerLines;
    if npcId in FallbackTable then FallbackTable[npcId] else VillagerLines
  }

  /** `getFallbackResponse`: the line at the randomly chosen index `pick`. */
  function GetFallbackResponse(npcId: string, pick: nat): (line: string)
    requires pick < |FallbackLines(npcId)|
    ensures line in FallbackLines(npcId)
    ensures line in OldManLines || line in VillagerLines
  {
    FallbackLines(npcId)[pick]
  }

  /** Every line of the NPC's list is what some index yields: the random
      choice can reach each of them. */
  lemma EveryFallbackLineReachable(npcId: string, line: string)
    requires line in FallbackLines(npcId)
    ensures exists pick: nat :: pick < |FallbackLines(npcId)| && GetFallbackResponse(npcId, pick) == line
  {
    var lines := FallbackLines(npcId);
    var i :| 0 <= i < |lines| && lines[i] == line;
    assert GetFallbackResponse(npcId, i) == line;
  }

  /** `getFallbackResponse` as the source writes it, `fallbackResponses[npcId]
      || fallbackResponses['villager']`: an inherited `Object.prototype` name
      such as "constructor" finds a truthy non-array, and indexing it yields
      `undefined` (`None`) instead of a line. */
  function FallbackAsWritten(npcId: string, pick: nat): (line: Option<string>)
    requires pick < |FallbackLines(npcId)|
    ensures line.None? <==> npcId in ObjectPrototypeKeys
  {
    match LookupOwn(FallbackTable, npcId)
    case Own(lines) => Some(lines[pick])
    case Missing => Some(VillagerLines[pick])
    case Inherited => None
  }

  /** Off the inherited names, the corrected lookup returns what the source does. */
  lemma FallbackAsWrittenAgreesElsewhere(npcId: string, pick: nat)
    requires pick < |FallbackLines(npcId)|
    requires npcId !in ObjectPrototypeKeys
    ensures FallbackAsWritten(npcId, pick) == Some(GetFallbackResponse(npcId, pick))
  {
  }

  /** "constructor" has no list of its own, yet the source returns no line for it. */
  lemma FallbackAsWrittenLosesLine()
    ensures "constructor" !in FallbackTable
    ensures FallbackAsWritten("constructor", 0) == None
  {
  }

  // ----- The session, abstractly -----

  datatype Session = Session(enabled: bool, currentNpc: Option<string>, waiting: bool, history: seq<Turn>)

  /** A new manager: disabled, no NPC, nothing in flight, no history. */
  const Initial: Session := Session(false, None, false, [])

  predicate Bounded(s: Session)
  {
    |s.history| <= MaxHistory
  }

  /** `s.slice(-n)` for a positive `n`: the last `n` elements, or all of them. */
  function LastN<T>(s: seq<T>, n: nat): (r: seq<T>)
    ensures |r| == if |s| < n then |s| else n
    ensures r == s[|s| - |r|..]
  {
    if |s| <= n then s else s[|s| - n..]
  }

  /** The history after a successful turn: push, then keep the last ten. */
  function Record(history: seq<Turn>, t: Turn): seq<Turn>
  {
    LastN(history + [t], MaxHistory)
  }

  /** The context object of the outbound request: the caller's context, the
      send time and the latest turns. */
  datatype OutboundContext = OutboundContext(base: Json, timestamp: int, conversationHistory: seq<Turn>)
  /** The body POSTed to the proxy endpoint. */
  datatype Outbound = Outbound(endpoint: string, npcId: string, playerInput: string, apiKey: string,
                               context: OutboundContext)
  /** A turn in flight: what `Complete` needs from the suspended call. */
  datatype Call = Call(npcId: string, playerInput: string)

  datatype Began = Answered(text: string) | Sent(call: Call, request: Outbound)
  datatype Step = Step(next: Session, began: Began)

  /** How the proxy call ended, as the manager sees it: a reply; a non-ok
      status; an ok body whose `error` field is truthy; or an exception
      (network failure, unreadable body). */
  datatype Outcome = Ok(reply: string) | HttpNotOk(status: int) | ErrorField(message: string) | Thrown

  datatype Finish = Finish(next: Session, reply: string)

  /** `startConversation` up to its first `await`. */
  function BeginStep(s: Session, npcId: string, playerInput: string, context: Json,
                     storedKey: Option<string>, now: int, pick: nat): (st: Step)
    requires pick < |FallbackLines(npcId)|
    ensures st.began.Sent? <==> s.enabled && Present(storedKey) && !s.waiting
    ensures st.began.Answered? ==> st.next == s
    ensures st.next.history == s.history
  {
    if !s.enabled then Step(s, Answered(GetFallbackResponse(npcId, pick)))
    else if !Present(storedKey) then Step(s, Answered(NoKeyMessage))
    else if s.waiting then Step(s, Answered(WaitingMessage))
    else
      var request := Outbound(ApiEndpoint, npcId, playerInput, storedKey.value,
                              OutboundContext(context, now, LastN(s.history, ContextTurns)));
      Step(s.(waiting := true, currentNpc := Some(npcId)), Sent(Call(npcId, playerInput), request))
  }

  /** `startConversation` from its last resumption to the end of its `finally`. */
  function CompleteStep(s: Session, call: Call, outcome: Outcome, now: int, pick: nat): (f: Finish)
    requires pick < |FallbackLines(call.npcId)|
    ensures !f.next.waiting
    ensures f.next.enabled == s.enabled && f.next.currentNpc == s.currentNpc
    ensures outcome.Ok? ==> f.reply == outcome.reply && |f.next.history| <= MaxHistory
  {
    match outcome
    case Ok(reply) =>
      var turn := Turn(call.npcId, call.playerInput, reply, now);
      Finish(s.(waiting := false, history := Record(s.history, turn)), reply)
    case _ =>
      Finish(s.(waiting := false), GetFallbackResponse(call.npcId, pick))
  }

  function SetEnabledStep(s: Session, enabled: bool): (r: Session)
    ensures r.enabled == enabled && r.waiting == s.waiting
  {
    if enabled then s.(enabled := true)
    else s.(enabled := false, history := [], currentNpc := None)
  }

  function ClearStep(s: Session): (r: Session)
    ensures r.history == []
  {
    s.(history := [])
  }

  // ----- What the source promises about each step -----

  /** Disabled: a fallback line for that NPC, and nothing changes. */
  lemma DisabledAnswersFallback(s: Session, npcId: string, playerInput: string, context: Json,
                                storedKey: Option<string>, now: int, pick: nat)
    requires pick < |FallbackLines(npcId)|
    requires !s.enabled
    ensures var st := BeginStep(s, npcId, playerInput, context, storedKey, now, pick);
            && st.next == s
            && st.began.Answered?
            && st.began.text in FallbackLines(npcId)
  {
  }

  /** Enabled without a stored key: the fixed "no key" message, nothing
      changes, and this holds whether or not a call is in flight, so the key
      is checked before the guard. */
  lemma MissingKeyAnswered(s: Session, npcId: string, playerInput: string, context: Json,
                           storedKey: Option<string>, now: int, pick: nat)
    requires pick < |FallbackLines(npcId)|
    requires s.enabled && !Present(storedKey)
    ensures BeginStep(s, npcId, playerInput, context, storedKey, now, pick) == Step(s, Answered(NoKeyMessage))
    ensures BeginStep(s.(waiting := true), npcId, playerInput, context, storedKey, now, pick)
         == Step(s.(waiting := true), Answered(NoKeyMessage))
  {
  }

  /** While a call is in flight, a further call gets the waiting message and
      touches neither the history, the NPC nor the guard. */
  lemma WaitingAnswered(s: Session, npcId: string, playerInput: string, context: Json,
                        storedKey: Option<string>, now: int, pick: nat)
    requires pick < |FallbackLines(npcId)|
    requires s.enabled && Present(storedKey) && s.waiting
    ensures BeginStep(s, npcId, playerInput, context, storedKey, now, pick) == Step(s, Answered(WaitingMessage))
  {
  }

  /** Otherwise the call goes out: the guard is set, the NPC becomes current,
      the history is untouched, and the request carries the stored key and the
      last five turns (all of them when there are fewer), in order. */
  lemma BeginSends(s: Session, npcId: string, playerInput: string, context: Json,
                   storedKey: Option<string>, now: int, pick: nat)
    requires pick < |FallbackLines(npcId)|
    requires s.enabled && Present(storedKey) && !s.waiting
    ensures var st := BeginStep(s, npcId, playerInput, context, storedKey, now, pick);
            && st.next == Session(true, Some(npcId), true, s.history)
            && st.began.Sent?
            && st.began.call == Call(npcId, playerInput)
            && st.began.request.apiKey == storedKey.value
            && st.began.request.endpoint == ApiEndpoint
            && var recent := st.began.request.context.conversationHistory;
               && recent == LastN(s.history, ContextTurns)
               && |recent| == (if |s.history| < ContextTurns then |s.history| else ContextTurns)
               && recent == s.history[|s.history| - |recent|..]
  {
  }

  /** Pushing a turn and keeping the last ten yields the last nine old turns
      followed by the new one. */
  lemma RecordKeepsLatest(history: seq<Turn>, t: Turn)
    ensures Record(history, t) == LastN(history, MaxHistory - 1) + [t]
    ensures |Record(history, t)| <= MaxHistory
    ensures Record(history, t)[|Record(history, t)| - 1] == t
  {
  }

  /** A reply is returned and recorded as the last turn; the history keeps
      the latest nine old turns before it; the guard is cleared. */
  lemma CompleteOnSuccess(s: Session, call: Call, reply: string, now: int, pick: nat)
    requires pick < |FallbackLines(call.npcId)|
    ensures var f := CompleteStep(s, call, Ok(reply), now, pick);
            var t := Turn(call.npcId, call.playerInput, reply, now);
            && f.reply == reply
            && f.next.history == LastN(s.history, MaxHistory - 1) + [t]
            && |f.next.history| <= MaxHistory
            && f.next.history[|f.next.history| - 1] == t
            && !f.next.waiting
            && f.next.enabled == s.enabled && f.next.currentNpc == s.currentNpc
  {
  }

  /** Any failure returns a fallback line for the NPC, leaves the history
      alone and clears the guard. */
  lemma CompleteOnFailure(s: Session, call: Call, outcome: Outcome, now: int, pick: nat)
    requires pick < |FallbackLines(call.npcId)|
    requires !outcome.Ok?
    ensures var f := CompleteStep(s, call, outcome, now, pick);
            && f.reply in FallbackLines(call.npcId)
            && f.next == s.(waiting := false)
  {
  }

  /** Disabling empties the history and forgets the NPC; doing it twice is the
      same as doing it once. */
  lemma DisableClears(s: Session)
    ensures var d := SetEnabledStep(s, false);
            && !d.enabled && d.history == [] && d.currentNpc == None && d.waiting == s.waiting
            && SetEnabledStep(d, false) == d
  {
  }

  /** Enabling keeps the history and the NPC. */
  lemma EnableKeeps(s: Session)
    ensures SetEnabledStep(s, true) == s.(enabled := true)
  {
  }

  /** Clearing empties the history and changes nothing else. */
  lemma ClearOnlyHistory(s: Session)
    ensures ClearStep(s).history == []
    ensures ClearStep(s).(history := s.history) == s
  {
  }

  /** Every step keeps the history within ten turns. */
  lemma StepsStayBounded(s: Session, npcId: string, playerInput: string, context: Json,
                         storedKey: Option<string>, now: int, pick: nat,
                         call: Call, outcome: Outcome, enabled: bool)
    requires Bounded(s)
    requires pick < |FallbackLines(npcId)| && pick < |FallbackLines(call.npcId)|
    ensures Bounded(BeginStep(s, npcId, playerInput, context, storedKey, now, pick).next)
    ensures Bounded(CompleteStep(s, call, outcome, now, pick).next)
    ensures Bounded(SetEnabledStep(s, enabled))
    ensures Bounded(ClearStep(s))
  {
  }

  /** At most one call is in flight: once a turn has gone out, a second turn
      is refused with the waiting message and changes nothing, and only the
      first turn's completion changes the history. */
  lemma OneCallInFlight(s: Session, a: Call, b: Call, context: Json, storedKey: Option<string>,
                        t0: int, t1: int, t2: int, reply: string, pick: nat)
    requires s.enabled && Present(storedKey) && !s.waiting
    requires pick < |FallbackLines(a.npcId)| && pick < |FallbackLines(b.npcId)|
    ensures var first := BeginStep(s, a.npcId, a.playerInput, context, storedKey, t0, pick);
            var second := BeginStep(first.next, b.npcId, b.playerInput, context, storedKey, t1, pick);
            && first.began == Sent(a, first.began.request)
            && second == Step(first.next, Answered(WaitingMessage))
            && second.next.history == s.history
            && CompleteStep(second.next, a, Ok(reply), t2, pick).next.history
               == Record(s.history, Turn(a.npcId, a.playerInput, reply, t2))
  {
  }

  // ----- Many turns -----

  /** The history after the given successful turns, completed in order. */
  function Replay(history: seq<Turn>, turns: seq<Turn>): seq<Turn>
    decreases |turns|
  {
    if turns == [] then history else Replay(Record(history, turns[0]), turns[1..])
  }

  lemma LastNOfLastN<T>(x: seq<T>, y: seq<T>, n: nat)
    ensures LastN(LastN(x, n) + y, n) == LastN(x + y, n)
  {
    var lx := LastN(x, n);
    var a := LastN(lx + y, n);
    var b := LastN(x + y, n);
    assert |a| == |b|;
    forall i | 0 <= i < |a|
      ensures a[i] == b[i]
    {
      assert a[i] == (lx + y)[|lx + y| - |a| + i];
      assert b[i] == (x + y)[|x + y| - |b| + i];
    }
  }

  /** After any run of successful turns the history is the last ten of the
      old history followed by the new turns, taken together, in chronological
      order. */
  lemma {:induction false} ReplayKeepsLatest(history: seq<Turn>, turns: seq<Turn>)
    requires |history| <= MaxHistory
    ensures Replay(history, turns) == LastN(history + turns, MaxHistory)
    decreases |turns|
  {
    if turns == [] {
      assert history + turns == history;
    } else {
      var h1 := Record(history, turns[0]);
      ReplayKeepsLatest(h1, turns[1..]);
      LastNOfLastN(history + [turns[0]], turns[1..], MaxHistory);
      assert history + [turns[0]] + turns[1..] == history + turns;
    }
  }

  /** From ten successful turns on, the history holds exactly the last ten. */
  lemma ReplayManyTurns(history: seq<Turn>, turns: seq<Turn>)
    requires |history| <= MaxHistory
    requires |turns| >= MaxHistory
    ensures Replay(history, turns) == turns[|turns| - MaxHistory..]
  {
    ReplayKeepsLatest(history, turns);
    var all := history + turns;
    assert all[|all| - MaxHistory..] == turns[|turns| - MaxHistory..];
  }

  // ----- What the proxy's response means to the manager -----

  /** `response.ok`, then `data.error`, then `data.response`. A response
      without a JSON body makes `response.json()` throw. */
  function OutcomeOf(r: Http.Response): (o: Outcome)
    ensures !Http.Ok(r.status) ==> o == HttpNotOk(r.status)
    ensures o.Ok? <==> Http.Ok(r.status) && r.body.Reply?
    ensures o.Ok? ==> o.reply == r.body.response
  {
    if !Http.Ok(r.status) then HttpNotOk(r.status)
    else
      match r.body
      case Reply(response, _, _) => Ok(response)
      case Error(e, _) => if e != "" then ErrorField(e) else Thrown
      case NoBody => Thrown
  }

  /** An error status from the proxy leaves the player with a scripted line
      and the session idle, its history untouched. */
  lemma ErrorStatusFallsBack(s: Session, call: Call, r: Http.Response, now: int, pick: nat)
    requires pick < |FallbackLines(call.npcId)|
    requires r.status == 500
    ensures var f := CompleteStep(s, call, OutcomeOf(r), now, pick);
            && f.reply in FallbackLines(call.npcId)
            && !f.next.waiting
            && f.next.history == s.history
  {
  }

  // ----- The manager object -----

  datatype Status = Status(isEnabled: bool, currentNpc: Option<string>, isWaitingForResponse: bool,
                           historyCount: nat)

  class ConversationManager {
    const apiEndpoint: string
    var isEnabled: bool
    var currentNpc: Option<string>
    var conversationHistory: seq<Turn>
    var isWaitingForResponse: bool

    function State(): Session
      reads this
    {
      Session(isEnabled, currentNpc, isWaitingForResponse, conversationHistory)
    }

    ghost predicate Valid()
      reads this
    {
      apiEndpoint == ApiEndpoint && Bounded(State())
    }

    constructor ()
      ensures Valid()
      ensures State() == Initial
    {
      apiEndpoint := ApiEndpoint;
      isEnabled := false;
      currentNpc := None;
      conversationHistory := [];
      isWaitingForResponse := false;
    }

    /** `startConversation` up to its first `await`. */
    method Begin(npcId: string, playerInput: string, context: Json, storedKey: Option<string>,
                 now: int, pick: nat) returns (began: Began)
      requires Valid()
      requires pick < |FallbackLines(npcId)|
      modifies this
      ensures Valid()
      ensures Step(State(), began) == BeginStep(old(State()), npcId, playerInput, context, storedKey, now, pick)
    {
      if !isEnabled {
        return Answered(GetFallbackResponse(npcId, pick));
      }
      if !Present(storedKey) {
        return Answered(NoKeyMessage);
      }
      if isWaitingForResponse {
        return Answered(WaitingMessage);
      }
      isWaitingForResponse := true;
      currentNpc := Some(npcId);
      var outbound := OutboundContext(context, now, LastN(conversationHistory, ContextTurns));
      began := Sent(Call(npcId, playerInput), Outbound(apiEndpoint, npcId, playerInput, storedKey.value, outbound));
    }

    /** `startConversation` from its last resumption on, with the answer `outcome`. */
    method Complete(call: Call, outcome: Outcome, now: int, pick: nat) returns (reply: string)
      requires Valid()
      requires pick < |FallbackLines(call.npcId)|
      modifies this
      ensures Valid()
      ensures Finish(State(), reply) == CompleteStep(old(State()), call, outcome, now, pick)
    {
      if outcome.Ok? {
        conversationHistory := conversationHistory + [Turn(call.npcId, call.playerInput, outcome.reply, now)];
        if |conversationHistory| > MaxHistory {
          conversationHistory := conversationHistory[|conversationHistory| - MaxHistory..];
        }
        reply := outcome.reply;
      } else {
        reply := GetFallbackResponse(call.npcId, pick);
      }
      isWaitingForResponse := false;
    }

    /** The whole `startConversation` when nothing else runs while it is
        suspended: `sentAt` and `repliedAt` are the two `Date.now()` readings. */
    method StartConversation(npcId: string, playerInput: string, context: Json, storedKey: Option<string>,
                             outcome: Outcome, sentAt: int, repliedAt: int, pick: nat) returns (reply: string)
      requires Valid()
      requires pick < |FallbackLines(npcId)|
      modifies this
      ensures Valid()
      ensures var st := BeginStep(old(State()), npcId, playerInput, context, storedKey, sentAt, pick);
              if st.began.Answered? then State() == old(State()) && reply == st.began.text
              else Finish(State(), reply) == CompleteStep(st.next, st.began.call, outcome, repliedAt, pick)
    {
      var began := Begin(npcId, playerInput, context, storedKey, sentAt, pick);
      if began.Answered? {
        reply := began.text;
      } else {
        reply := Complete(began.call, outcome, repliedAt, pick);
      }
    }

    method SetEnabled(enabled: bool)
      requires Valid()
      modifies this
      ensures Valid()
      ensures State() == SetEnabledStep(old(State()), enabled)
    {
      isEnabled := enabled;
      if !enabled {
        conversationHistory := [];
        currentNpc := None;
      }
    }

    /** A copy of the history, oldest first. */
    method GetConversationHistory() returns (history: seq<Turn>)
      requires Valid()
      ensures history == State().history
      ensures |history| <= MaxHistory
    {
      history := conversationHistory;
    }

    method ClearConversationHistory()
      requires Valid()
      modifies this
      ensures Valid()
      ensures State() == ClearStep(old(State()))
    {
      conversationHistory := [];
    }

    method GetStatus() returns (status: Status)
      requires Valid()
      ensures status.isEnabled == isEnabled
      ensures status.currentNpc == currentNpc
      ensures status.isWaitingForResponse == isWaitingForResponse
      ensures status.historyCount == |conversationHistory| && status.historyCount <= MaxHistory
    {
      status := Status(isEnabled, currentNpc, isWaitingForResponse, |conversationHistory|);
    }
  }

  /** The in-flight scenario on a manager object: while one turn is awaiting
      its answer, a second turn is answered with the waiting message and the
      history stays as it was. */
  method SecondTurnWhileWaiting(storedKey: string, reply: string) returns (second: Began, count: nat)
    requires storedKey != ""
    ensures second == Answered(WaitingMessage)
    ensures count == 1
  {
    var m := new ConversationManager();
    m.SetEnabled(true);
    var first := m.Begin("oldMan", "Hello", JObject([]), Some(storedKey), 0, 0);
    second := m.Begin("villager", "Hi", JObject([]), Some(storedKey), 1, 0);
    assert m.State().history == [];
    var answer := m.Complete(first.call, Ok(reply), 2, 0);
    var status := m.GetStatus();
    count := status.historyCount;
  }
}
