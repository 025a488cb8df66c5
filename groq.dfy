/** The language-model helpers of the course pipeline: the arithmetic and
    text the prompts are built from, and how a completion is turned into a
    result or an error. What the model writes is an argument: `content` is the
    completion text (absent or empty when the model returned nothing) and
    `parse` is JSON.parse, None standing for a syntax error. */
module Groq {
  import opened Common
  import opened Records

  /** A parsed JSON value. */
  datatype Json =
    | JNull
    | JBool(b: bool)
    | JNum(n: int)
    | JStr(s: string)
    | JArr(items: seq<Json>)
    | JObj(fields: map<string, Json>)

  type Parser = string -> Option<Json>

  /** JavaScript truthiness of a JSON value. */
  predicate JsTruthy(j: Json) {
    match j
    case JNull => false
    case JBool(b) => b
    case JNum(n) => n != 0
    case JStr(s) => s != ""
    case _ => true
  }

  // ---------------------------------------------------------------------------
  // Arithmetic written into the prompts

  /** The scene reserved for calendar data: the second-to-last position
      counted from one, except that one or no scene gives scene 1. */
  function CalendarSceneIndex(sceneCount: int): (r: int)
    ensures r >= 1
    ensures sceneCount >= 1 ==> r <= sceneCount
    ensures sceneCount > 1 ==> r + 1 == sceneCount
    ensures sceneCount <= 1 ==> r == 1
  {
    if sceneCount > 1 then sceneCount - 1 else 1
  }

  /** floor(duration * 2.5): 150 spoken words a minute, for whole seconds. */
  function TargetWords(duration: nat): (r: nat)
    ensures 2 * r <= 5 * duration < 2 * r + 2
  {
    (5 * duration) / 2
  }

  /** The hard word limit: ten words over the target. */
  function MaxWords(duration: nat): (r: nat)
    ensures r >= 10 && 2 * (r - 10) <= 5 * duration < 2 * (r - 10) + 2
  {
    TargetWords(duration) + 10
  }

  lemma WordBudgetOfTenSeconds()
    ensures TargetWords(10) == 25 && MaxWords(10) == 35
  {
  }

  /** A longer scene never gets a smaller budget. */
  lemma {:induction false} TargetWordsMonotone(d1: nat, d2: nat)
    requires d1 <= d2
    ensures TargetWords(d1) <= TargetWords(d2)
  {
    var t1, t2 := TargetWords(d1), TargetWords(d2);
    assert 2 * t1 <= 5 * d1 <= 5 * d2 < 2 * t2 + 2;
  }

  // ---------------------------------------------------------------------------
  // Completions

  /** Every method's tail: no content is an error, content that does not
      parse is an error, and otherwise the parsed value is returned. */
  function ParseCompletion(content: Option<string>, parse: Parser): (r: Result<Json>)
    ensures !Truthy(content) ==> r == Err(GenerationFailure)
    ensures Truthy(content) ==> (r.Ok? <==> parse(content.value).Some?)
    ensures r.Ok? ==> Some(r.value) == parse(content.value)
    ensures r.Err? ==> r.error == GenerationFailure || r.error == InvalidJson
  {
    if !Truthy(content) then Err(GenerationFailure)
    else match parse(content.value)
      case None => Err(InvalidJson)
      case Some(j) => Ok(j)
  }

  /** The `generateScript` unwrap: an array as it is; otherwise the value's
      `scenes` field when truthy, else an empty array. Reading a field of null
      throws, and the error is reported as invalid JSON. */
  function UnwrapScenes(parsed: Json): (r: Result<Json>)
    ensures parsed.JArr? ==> r == Ok(parsed)
    ensures parsed.JNull? ==> r == Err(InvalidJson)
    ensures parsed.JObj? && "scenes" in parsed.fields && JsTruthy(parsed.fields["scenes"]) ==>
      r == Ok(parsed.fields["scenes"])
    ensures (!parsed.JArr? && !parsed.JNull? &&
             !(parsed.JObj? && "scenes" in parsed.fields && JsTruthy(parsed.fields["scenes"]))) ==> r == Ok(JArr([]))
  {
    match parsed
    case JArr(_) => Ok(parsed)
    case JNull => Err(InvalidJson)
    case JObj(fields) =>
      if "scenes" in fields && JsTruthy(fields["scenes"]) then Ok(fields["scenes"]) else Ok(JArr([]))
    case _ => Ok(JArr([]))
  }

  /** Wrapping an array of scenes in `{ "scenes": ... }` is undone by the unwrap. */
  lemma UnwrapUndoesWrapping(scenes: seq<Json>, others: map<string, Json>)
    ensures UnwrapScenes(JObj(others["scenes" := JArr(scenes)])) == Ok(JArr(scenes))
    ensures UnwrapScenes(JArr(scenes)) == Ok(JArr(scenes))
  {
  }

  /** `generateScript` */
  function GenerateScript(content: Option<string>, parse: Parser): (r: Result<Json>)
    ensures !Truthy(content) ==> r == Err(GenerationFailure)
    ensures Truthy(content) && parse(content.value).None? ==> r == Err(InvalidJson)
    ensures Truthy(content) && parse(content.value).Some? ==> r == UnwrapScenes(parse(content.value).value)
    ensures Truthy(content) && parse(content.value) == Some(JNull) ==> r == Err(InvalidJson)
  {
    match ParseCompletion(content, parse)
    case Err(e) => Err(e)
    case Ok(j) => UnwrapScenes(j)
  }

  /** `analyzeAndMapScript`, `generateScriptFromScratch` and `regenerateScene`
      all return the parsed completion unvalidated: any JSON value, including
      one that ignores every rule the prompt states. */
  lemma CompletionIsUnvalidated(content: string, j: Json)
    requires content != ""
    ensures ParseCompletion(Some(content), (_ => Some(j))) == Ok(j)
  {
  }

  // ---------------------------------------------------------------------------
  // Prompt text

  /** One element of `allScenes` as `regenerateScene` reads it. */
  datatype SceneContext = SceneContext(topic: Option<string>, scriptText: Option<string>)

  /** `Scene i+1: topic - <first 50 characters>...`; absent values print as
      `undefined`. */
  function SummaryLine(i: nat, s: SceneContext): string {
    "Scene " + NatToString(i + 1) + ": " + Shown(s.topic) + " - " +
    Shown(if s.scriptText.Some? then Some(Prefix(s.scriptText.value, 50)) else None) + "..."
  }

  function SummaryLines(scenes: seq<SceneContext>): (r: seq<string>)
    ensures |r| == |scenes|
    ensures forall i :: 0 <= i < |scenes| ==> r[i] == SummaryLine(i, scenes[i])
  {
    seq(|scenes|, i requires 0 <= i < |scenes| => SummaryLine(i, scenes[i]))
  }

  /** The scenes summary: the lines joined with newlines. */
  function ScenesSummary(scenes: seq<SceneContext>): string {
    Join(SummaryLines(scenes), "\n")
  }

  predicate SingleLine(s: Option<string>) {
    s.None? || '\n' !in s.value
  }

  lemma SummaryLineSingleLine(i: nat, s: SceneContext)
    requires SingleLine(s.topic) && SingleLine(s.scriptText)
    ensures '\n' !in SummaryLine(i, s)
  {
    var num := NatToString(i + 1);
    assert '\n' !in num by {
      forall k | 0 <= k < |num| ensures num[k] != '\n' {
        assert '0' <= num[k] <= '9';
      }
    }
    var text := if s.scriptText.Some? then Some(Prefix(s.scriptText.value, 50)) else None;
    if s.scriptText.Some? {
      var t := s.scriptText.value;
      var p := Prefix(t, 50);
      assert forall k :: 0 <= k < |p| ==> p[k] == t[k];
    }
    assert '\n' !in Shown(text);
    assert '\n' !in Shown(s.topic);
  }

  /** With no newline in any topic or text, the summary has exactly one line
      per scene, in scene order. */
  lemma ScenesSummaryLines(scenes: seq<SceneContext>)
    requires scenes != []
    requires forall i :: 0 <= i < |scenes| ==> SingleLine(scenes[i].topic) && SingleLine(scenes[i].scriptText)
    ensures Split(ScenesSummary(scenes), '\n') == SummaryLines(scenes)
  {
    var lines := SummaryLines(scenes);
    forall k | 0 <= k < |lines|
      ensures '\n' !in lines[k]
    {
      SummaryLineSingleLine(k, scenes[k]);
    }
    SplitJoin(lines, '\n');
  }

  /** A scene's `keywords` as the prompts receive it: the request body is
      untyped, so it may be the list the create form sends or the
      comma-separated text the edit form's input holds. */
  datatype KeywordsValue = KeywordString(text: string) | KeywordArray(items: seq<string>)

  /** A scene as the prompts read it (`generateScriptFromScratch`'s `scenes`
      and `regenerateScene`'s `currentSceneData`). */
  datatype SceneRequest = SceneRequest(
    topic: Option<string>,
    duration: Option<nat>,
    emotion: Option<string>,
    visualContext: Option<string>,
    objective: Option<string>,
    complexity: Option<string>,
    pov: Option<string>,
    keywords: Option<KeywordsValue>)

  /** The per-scene values written into a prompt after defaulting. */
  datatype PromptFields = PromptFields(
    topic: string, objective: string, complexity: string, pov: string,
    emotion: string, duration: nat, visualContext: string, keywords: string)

  /** `k && k.length > 0 ? k.join(', ') : fallback`: a non-empty list is
      joined with `, `; nothing, an empty list or empty text give the
      fallback; non-empty text has a length but no `join`, which throws. */
  function KeywordLine(keywords: Option<KeywordsValue>, fallback: string): (r: Result<string>)
    ensures r.Err? <==> keywords.Some? && keywords.value.KeywordString? && keywords.value.text != ""
    ensures r.Err? ==> r.error == TypeError
    ensures keywords.None? || keywords.value == KeywordString("") || keywords.value == KeywordArray([]) ==>
      r == Ok(fallback)
    ensures keywords.Some? && keywords.value.KeywordArray? && |keywords.value.items| == 1 ==>
      r == Ok(keywords.value.items[0])
    ensures keywords.Some? && keywords.value.KeywordArray? && |keywords.value.items| > 1 ==>
      var items := keywords.value.items;
      r == Ok(items[0] + ", " + Join(items[1..], ", "))
  {
    match keywords
    case None => Ok(fallback)
    case Some(KeywordString(text)) => if text == "" then Ok(fallback) else Err(TypeError)
    case Some(KeywordArray(items)) => if |items| > 0 then Ok(Join(items, ", ")) else Ok(fallback)
  }

  /** Per-scene defaulting, shared by both prompts except for the keyword
      fallback: `Ninguna` when generating from scratch, `N/A` when
      regenerating. Building the prompt fails exactly when the keyword line
      does. */
  function PromptFieldsOf(s: SceneRequest, keywordFallback: string): (r: Result<PromptFields>)
    ensures r.Err? <==> KeywordLine(s.keywords, keywordFallback).Err?
    ensures r.Err? ==> r.error == TypeError
    ensures r.Ok? ==> r.value.topic == Shown(s.topic)
    ensures r.Ok? ==> r.value.objective == (if Truthy(s.objective) then s.objective.value else "educational")
    ensures r.Ok? ==> r.value.complexity == (if Truthy(s.complexity) then s.complexity.value else "general")
    ensures r.Ok? ==> r.value.pov == (if Truthy(s.pov) then s.pov.value else "second_person")
    ensures r.Ok? ==> r.value.emotion == (if Truthy(s.emotion) then s.emotion.value else "neutral")
    ensures r.Ok? ==> r.value.duration == (if s.duration.Some? && s.duration.value != 0 then s.duration.value else 10)
    ensures r.Ok? ==> r.value.visualContext == (if Truthy(s.visualContext) then s.visualContext.value else "N/A")
    ensures r.Ok? ==> r.value.keywords == KeywordLine(s.keywords, keywordFallback).value
  {
    match KeywordLine(s.keywords, keywordFallback)
    case Err(e) => Err(e)
    case Ok(line) =>
      Ok(PromptFields(Shown(s.topic), OrElse(s.objective, "educational"), OrElse(s.complexity, "general"),
                      OrElse(s.pov, "second_person"), OrElse(s.emotion, "neutral"),
                      if s.duration.Some? && s.duration.value != 0 then s.duration.value else 10,
                      OrElse(s.visualContext, "N/A"), line))
  }

  /** After defaulting, every configurable field of the prompt is filled. */
  lemma DefaultsFillEveryField(s: SceneRequest, keywordFallback: string)
    requires keywordFallback != ""
    requires PromptFieldsOf(s, keywordFallback).Ok?
    ensures var f := PromptFieldsOf(s, keywordFallback).value;
      f.objective != "" && f.complexity != "" && f.pov != "" && f.emotion != "" &&
      f.duration != 0 && f.visualContext != ""
  {
  }

  function ScratchPromptFields(s: SceneRequest): Result<PromptFields> {
    PromptFieldsOf(s, "Ninguna")
  }

  function RegeneratePromptFields(s: SceneRequest): Result<PromptFields> {
    PromptFieldsOf(s, "N/A")
  }

  /** The two prompts default a scene identically except for the keyword
      line, and fail on the same scenes. */
  lemma PromptsDifferOnlyInKeywordFallback(s: SceneRequest)
    ensures ScratchPromptFields(s).Ok? <==> RegeneratePromptFields(s).Ok?
    ensures ScratchPromptFields(s).Ok? ==>
      ScratchPromptFields(s).value.(keywords := "") == RegeneratePromptFields(s).value.(keywords := "")
    ensures s.keywords.Some? && s.keywords.value.KeywordArray? && s.keywords.value.items != [] ==>
      ScratchPromptFields(s) == RegeneratePromptFields(s)
  {
  }

  /** Keywords typed into the edit form reach `regenerateScene` as text, and
      building its prompt throws before the model is called. */
  lemma TypedKeywordsFailRegenerate(s: SceneRequest, typed: string)
    requires typed != "" && s.keywords == Some(KeywordString(typed))
    ensures RegeneratePromptFields(s) == Err(TypeError)
  {
  }

  /** `regenerateScene`'s word budget uses the raw duration (NaN when absent)
      while its prompt prints the defaulted one. */
  function RegenerateBudget(s: SceneRequest): (r: Option<(nat, nat)>)
    ensures s.duration.None? <==> r.None?
    ensures r.Some? ==> r.value == (TargetWords(s.duration.value), MaxWords(s.duration.value))
  {
    if s.duration.Some? then Some((TargetWords(s.duration.value), MaxWords(s.duration.value))) else None
  }

  /** A zero-second scene is announced as 10 seconds but budgeted at 0 words,
      at most 10. */
  lemma ZeroDurationMismatch(s: SceneRequest)
    requires s.duration == Some(0)
    ensures RegeneratePromptFields(s).Ok? ==> RegeneratePromptFields(s).value.duration == 10
    ensures RegenerateBudget(s) == Some((0, 10))
  {
  }
}
