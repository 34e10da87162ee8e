/**
 The prompt builder `generatePrompt(npcId, playerInput, context)`: a static
 table of two NPC personas, a lookup that falls back to the villager, the
 knowledge list joined with ", ", an optional game-context block and the
 player's words in double quotes, rendered into one fixed Japanese template.
 `JSON.stringify` is an uninterpreted serialiser passed in as `stringify`.
 */
module Prompt {
  import opened Values

  datatype Persona = Persona(
    name: string,
    personality: string,
    background: string,
    knowledge: seq<string>,
    conversationStyle: string)

  const OldMan: Persona := Persona(
    "長老",
    "賢者、経験豊富、親切、物語を好む",
    "村の長老として50年以上暮らしている。村の歴史や伝説に詳しい。",
    ["村の歴史", "伝説のポケモン", "戦闘のコツ", "人生の教訓"],
    "教訓的、物語を交える、親切で丁寧")

  const Villager: Persona := Persona(
    "村人",
    "親切、好奇心旺盛、村の話題に詳しい",
    "村で生まれ育った若い村人。村の日常や噂話に詳しい。",
    ["村の噂話", "近隣の情報", "天気の話", "作物の話"],
    "親しみやすい、噂話を交える、カジュアル")

  /** The persona table, keyed by NPC identifier. */
  const Personas: map<string, Persona> := map["oldMan" := OldMan, "villager" := Villager]

  /** The persona an identifier selects: its own table entry, and the villager
      for every other identifier. */
  function PersonaFor(npcId: string): (p: Persona)
    ensures p in Personas.Values
    ensures npcId in Personas ==> p == Personas[npcId]
    ensures npcId !in Personas ==> p == Personas["villager"]
  {
    assert Personas["villager"] == Villager;
    if npcId in Personas then Personas[npcId] else Villager
  }

  /** `Array.prototype.join`: the items in order, `sep` between neighbours. */
  function Join(items: seq<string>, sep: string): string
  {
    if |items| == 0 then ""
    else if |items| == 1 then items[0]
    else items[0] + sep + Join(items[1..], sep)
  }

  /** `sub` occurs in `s` at offset `k`. */
  predicate InfixAt(sub: string, s: string, k: int)
  {
    0 <= k <= |s| - |sub| && s[k..k + |sub|] == sub
  }

  /** `sub` occurs somewhere inside `s`. */
  predicate Infix(sub: string, s: string)
  {
    exists k :: 0 <= k <= |s| && InfixAt(sub, s, k)
  }

  const ContextLabel: string := "ゲーム状況: "

  /** The game-context block: empty for a falsy context, otherwise the label
      followed by the serialised context. */
  function ContextBlock(context: Option<Json>, stringify: Json -> string): (block: string)
    ensures block == "" <==> !Truthy(context)
    ensures Truthy(context) ==> block == ContextLabel + stringify(context.value)
  {
    if Truthy(context) then ContextLabel + stringify(context.value) else ""
  }

  const Opening: string := "あなたは"
  const RoleSuffix: string := "として振る舞ってください。\n\n"
  const Separator: string := ", "
  const AskPrefix: string := "\n\nプレイヤーの発言: "
  const Instruction: string :=
    "上記の設定に基づいて、自然で親しみやすい日本語で応答してください。応答は50文字以内で簡潔にしてください。"
  const Tail: string := "\n\n" + Instruction

  function Quote(s: string): string
  {
    "\"" + s + "\""
  }

  /** The first template line: who the model is to play. */
  function NameLine(p: Persona): string
  {
    Opening + p.name + RoleSuffix
  }

  /** The personality and background lines, up to the knowledge label. */
  function Profile(p: Persona): string
  {
    "性格: " + p.personality + "\n" + "背景: " + p.background + "\n" + "知識: "
  }

  /** The line after the knowledge list: the conversation style. */
  function StyleLine(p: Persona): string
  {
    "\n会話スタイル: " + p.conversationStyle + "\n\n"
  }

  /** The player's quoted words and the closing reply instruction. */
  function AskLine(playerInput: string): string
  {
    AskPrefix + Quote(playerInput) + Tail
  }

  function Render(p: Persona, playerInput: string, block: string): string
  {
    NameLine(p) + Profile(p) + Join(p.knowledge, Separator) + StyleLine(p) + block + AskLine(playerInput)
  }

  /** `generatePrompt`, identical in server.js and api/gemini.js. */
  function GeneratePrompt(npcId: string, playerInput: string, context: Option<Json>,
                          stringify: Json -> string): string
  {
    Render(PersonaFor(npcId), playerInput, ContextBlock(context, stringify))
  }

  // ----- Facts about strings used below -----

  lemma InfixOfConcat(a: string, b: string, c: string)
    ensures Infix(b, a + b + c)
  {
    assert (a + b + c)[|a|..|a| + |b|] == b;
    assert InfixAt(b, a + b + c, |a|);
  }

  lemma InfixAfter(sub: string, s: string, a: string)
    requires Infix(sub, s)
    ensures Infix(sub, a + s)
  {
    var k :| 0 <= k <= |s| && InfixAt(sub, s, k);
    assert (a + s)[|a| + k..|a| + k + |sub|] == s[k..k + |sub|];
    assert InfixAt(sub, a + s, |a| + k);
  }

  lemma InfixBefore(sub: string, s: string, c: string)
    requires Infix(sub, s)
    ensures Infix(sub, s + c)
  {
    var k :| 0 <= k <= |s| && InfixAt(sub, s, k);
    assert (s + c)[k..k + |sub|] == s[k..k + |sub|];
    assert InfixAt(sub, s + c, k);
  }

  lemma CancelLeft(x: string, y: string, z: string)
    requires x + y == x + z
    ensures y == z
  {
    assert y == (x + y)[|x|..];
    assert z == (x + z)[|x|..];
  }

  lemma CancelRight(y: string, z: string, x: string)
    requires y + x == z + x
    ensures y == z
  {
    assert y == (y + x)[..|y|];
    assert z == (z + x)[..|z|];
  }

  lemma PrefixKept(x: string, y: string, n: nat)
    requires n <= |x|
    ensures (x + y)[..n] == x[..n]
  {
  }

  lemma SuffixKept(x: string, y: string, n: nat)
    requires n <= |y|
    ensures |x + y| >= n && (x + y)[|x + y| - n..] == y[|y| - n..]
  {
  }

  lemma HeadTailInfix(a: string, b: string, r: string)
    requires |r| >= |a + b| && r[..|a + b|] == a + b
    ensures Infix(b, r)
  {
    assert r[|a|..|a| + |b|] == (a + b)[|a|..];
    assert InfixAt(b, r, |a|);
  }

  lemma QuotedInfix(w: string, r: string)
    requires Infix(Quote(w), r)
    ensures Infix(w, r)
  {
    var q := Quote(w);
    var k :| 0 <= k <= |r| && InfixAt(q, r, k);
    assert |q| == |w| + 2;
    assert r[k..k + |q|] == q;
    forall i | 0 <= i < |w|
      ensures r[k + 1..k + 1 + |w|][i] == w[i]
    {
      assert r[k + 1 + i] == r[k..k + |q|][1 + i] == q[1 + i];
    }
    assert InfixAt(w, r, k + 1);
  }

  // ----- Properties of the prompt -----

  /** Every item appears in the joined list. */
  lemma {:induction false} JoinContainsEach(items: seq<string>, sep: string, i: nat)
    requires i < |items|
    ensures Infix(items[i], Join(items, sep))
  {
    if |items| == 1 {
      assert Join(items, sep) == items[0];
      assert InfixAt(items[0], items[0], 0);
    } else if i == 0 {
      assert Join(items, sep) == "" + items[0] + (sep + Join(items[1..], sep));
      InfixOfConcat("", items[0], sep + Join(items[1..], sep));
    } else {
      JoinContainsEach(items[1..], sep, i - 1);
      InfixAfter(items[i], Join(items[1..], sep), items[0] + sep);
    }
  }

  /** Any identifier outside the table yields exactly the villager's prompt. */
  lemma UnknownNpcPromptIsVillager(npcId: string, playerInput: string, context: Option<Json>,
                                   stringify: Json -> string)
    requires npcId != "oldMan" && npcId != "villager"
    ensures GeneratePrompt(npcId, playerInput, context, stringify)
         == GeneratePrompt("villager", playerInput, context, stringify)
  {
  }

  lemma RenderOpensWithName(p: Persona, playerInput: string, block: string)
    ensures var r := Render(p, playerInput, block);
            |r| >= |Opening + p.name| && r[..|Opening + p.name|] == Opening + p.name
  {
    var rest := Profile(p) + Join(p.knowledge, Separator) + StyleLine(p) + block + AskLine(playerInput);
    assert Render(p, playerInput, block) == (Opening + p.name) + (RoleSuffix + rest);
    PrefixKept(Opening + p.name, RoleSuffix + rest, |Opening + p.name|);
  }

  /** The prompt opens by naming the persona. */
  lemma PromptOpensWithName(npcId: string, playerInput: string, context: Option<Json>,
                            stringify: Json -> string)
    ensures var r := GeneratePrompt(npcId, playerInput, context, stringify);
            var n := |Opening + PersonaFor(npcId).name|;
            |r| >= n && r[..n] == Opening + PersonaFor(npcId).name
  {
    RenderOpensWithName(PersonaFor(npcId), playerInput, ContextBlock(context, stringify));
  }

  lemma RenderEndsWithInstruction(p: Persona, playerInput: string, block: string)
    ensures var r := Render(p, playerInput, block);
            |r| >= |Instruction| && r[|r| - |Instruction|..] == Instruction
  {
    var front := NameLine(p) + Profile(p) + Join(p.knowledge, Separator) + StyleLine(p) + block
                 + AskPrefix + Quote(playerInput) + "\n\n";
    assert Render(p, playerInput, block) == front + Instruction;
    SuffixKept(front, Instruction, |Instruction|);
  }

  /** The prompt ends with the fixed instruction to reply briefly. */
  lemma PromptEndsWithInstruction(npcId: string, playerInput: string, context: Option<Json>,
                                  stringify: Json -> string)
    ensures var r := GeneratePrompt(npcId, playerInput, context, stringify);
            |r| >= |Instruction| && r[|r| - |Instruction|..] == Instruction
  {
    RenderEndsWithInstruction(PersonaFor(npcId), playerInput, ContextBlock(context, stringify));
  }

  /** The prompt mentions the persona's knowledge items joined by ", ", the
      context block, and the player's words in double quotes. */
  lemma PromptMentions(npcId: string, playerInput: string, context: Option<Json>,
                       stringify: Json -> string)
    ensures var r := GeneratePrompt(npcId, playerInput, context, stringify);
            var p := PersonaFor(npcId);
            && Infix(Join(p.knowledge, Separator), r)
            && Infix(ContextBlock(context, stringify), r)
            && Infix(Quote(playerInput), r)
  {
    var p := PersonaFor(npcId);
    var block := ContextBlock(context, stringify);
    var knowledge := Join(p.knowledge, Separator);
    var ask := AskLine(playerInput);
    var x2 := NameLine(p) + Profile(p);
    var x3 := x2 + knowledge + StyleLine(p);
    // the knowledge list
    InfixOfConcat(x2, knowledge, StyleLine(p));
    InfixBefore(knowledge, x3, block);
    InfixBefore(knowledge, x3 + block, ask);
    // the context block
    InfixOfConcat(x3, block, ask);
    // the quoted input
    InfixOfConcat(AskPrefix, Quote(playerInput), Tail);
    InfixAfter(Quote(playerInput), ask, x3 + block);
  }

  /** Two prompts for the same NPC and context are equal only if the player's
      words are: the player's input reaches the prompt verbatim. */
  lemma PromptDeterminesInput(npcId: string, a: string, b: string, context: Option<Json>,
                              stringify: Json -> string)
    requires GeneratePrompt(npcId, a, context, stringify) == GeneratePrompt(npcId, b, context, stringify)
    ensures a == b
  {
    var p := PersonaFor(npcId);
    var block := ContextBlock(context, stringify);
    var front := NameLine(p) + Profile(p) + Join(p.knowledge, Separator) + StyleLine(p) + block;
    CancelLeft(front, AskLine(a), AskLine(b));
    CancelRight(AskPrefix + Quote(a), AskPrefix + Quote(b), Tail);
    CancelLeft(AskPrefix, Quote(a), Quote(b));
    CancelRight("\"" + a, "\"" + b, "\"");
    CancelLeft("\"", a, b);
  }

  /** The villager's knowledge items joined as the prompt lists them. */
  lemma VillagerKnowledgeJoined()
    ensures Join(Villager.knowledge, Separator) == "村の噂話, 近隣の情報, 天気の話, 作物の話"
  {
  }

  /** A villager greeting: the prompt carries the villager's name, the
      villager's four knowledge items and the greeting. */
  lemma VillagerGreetingScenario(stringify: Json -> string)
    ensures var r := GeneratePrompt("villager", "こんにちは",
                                    Some(JObject([("weather", JString("rain"))])), stringify);
            && Infix("村人", r)
            && Infix("村の噂話, 近隣の情報, 天気の話, 作物の話", r)
            && Infix("こんにちは", r)
  {
    var ctx := Some(JObject([("weather", JString("rain"))]));
    var r := GeneratePrompt("villager", "こんにちは", ctx, stringify);
    assert PersonaFor("villager") == Villager;
    PromptOpensWithName("villager", "こんにちは", ctx, stringify);
    PromptMentions("villager", "こんにちは", ctx, stringify);
    VillagerKnowledgeJoined();
    HeadTailInfix(Opening, Villager.name, r);
    QuotedInfix("こんにちは", r);
  }

  // ----- generatePrompt as written, for inherited identifiers -----

  /** `generatePrompt` as the source writes it, `npcConfigs[npcId] ||
      npcConfigs['villager']`: an identifier such as "toString" finds an
      inherited `Object.prototype` member, which is truthy, so the default is
      not taken; that member has no `knowledge`, and `npc.knowledge.join`
      throws a TypeError (`None`). */
  function PromptAsWritten(npcId: string, playerInput: string, context: Option<Json>,
                           stringify: Json -> string): (r: Option<string>)
    ensures r.None? <==> npcId in ObjectPrototypeKeys
  {
    match LookupOwn(Personas, npcId)
    case Own(p) => Some(Render(p, playerInput, ContextBlock(context, stringify)))
    case Missing => Some(Render(Villager, playerInput, ContextBlock(context, stringify)))
    case Inherited => None
  }

  /** The TypeError's message when `npc.knowledge` is `undefined`. */
  const MissingKnowledgeMessage: string := "Cannot read properties of undefined (reading 'join')"

  /** On every identifier that is not an inherited `Object.prototype` name,
      the corrected lookup gives the prompt the source gives. */
  lemma PromptAsWrittenAgreesElsewhere(npcId: string, playerInput: string, context: Option<Json>,
                                       stringify: Json -> string)
    requires npcId !in ObjectPrototypeKeys
    ensures PromptAsWritten(npcId, playerInput, context, stringify)
         == Some(GeneratePrompt(npcId, playerInput, context, stringify))
  {
  }

  /** "toString" is an identifier outside the table, yet the source throws
      instead of using the villager persona. */
  lemma PromptAsWrittenThrowsOnToString(playerInput: string, context: Option<Json>,
                                        stringify: Json -> string)
    ensures "toString" !in Personas
    ensures PromptAsWritten("toString", playerInput, context, stringify).None?
  {
  }
}
