/** The text-generation provider of the story worker: how a Gemini reply is turned into a
    story response (`GeminiProvider.callGemini`) and which conditional parts the start and
    continuation prompts contain (`buildSystemPrompt`, `continueStory`). The prose of the
    prompts is not modelled, only what they include and when. */
module StoryProvider {
  import opened Wrappers
  import opened Text
  import opened JsValue

  /** What the HTTP call to the model produced. */
  datatype HttpReply =
    | NetworkFailure(message: string)        // `fetch` rejected
    | NotOk(status: int, body: string)       // `!response.ok`
    | BodyNotJson(message: string)           // `response.json()` rejected
    | Candidate(text: Option<string>)        // `data.candidates?.[0]?.content?.parts?.[0]?.text`; None when a link is missing

  datatype StoryResponse = StoryResponse(
    content: Json,
    options: Json,
    narrativeContext: Json,
    correction: Json,
    vocabularyHighlight: Json)

  const NoContentMessage := "Error: No content generated."

  /** The reply used both when the model returned no text and when its text is not JSON:
      the given content, no options, an empty narrative context and nothing else. */
  function Plain(content: string): StoryResponse {
    StoryResponse(JStr(content), JArr([]), EmptyObject, JNull, JNull)
  }

  /** `rawText.replace(/```json\n?|\n?```/g, "")`: a left-to-right scan that, at each position,
      first tries "```json" (with one optional newline after it), then "```" (with one optional
      newline before it), and otherwise keeps the character. */
  function StripFences(s: string): (r: string)
    ensures |r| <= |s|
  {
    if StartsWith(s, "```json\n") then StripFences(s[8..])
    else if StartsWith(s, "```json") then StripFences(s[7..])
    else if StartsWith(s, "\n```") then StripFences(s[4..])
    else if StartsWith(s, "```") then StripFences(s[3..])
    else if s == [] then []
    else [s[0]] + StripFences(s[1..])
  }

  predicate NoBacktick(s: string) {
    forall i :: 0 <= i < |s| ==> s[i] != '`'
  }

  /** Text without a backtick passes through untouched. */
  lemma {:induction false} StripFencesKeepsPlainText(s: string)
    requires NoBacktick(s)
    ensures StripFences(s) == s
  {
    if s != [] {
      if |s| >= 4 { assert s[..4][1] == s[1]; }
      KeepsFirst(s);
      StripFencesKeepsPlainText(s[1..]);
    }
  }

  /** A character that starts no fence is kept and the scan moves on. */
  lemma KeepsFirst(s: string)
    requires s != [] && s[0] != '`' && !StartsWith(s, "\n```")
    ensures StripFences(s) == [s[0]] + StripFences(s[1..])
  {
    if |s| >= 3 { assert s[..3][0] == s[0]; }
    if |s| >= 7 { assert s[..7][0] == s[0]; }
    if |s| >= 8 { assert s[..8][0] == s[0]; }
  }

  /** A closing fence after text without a backtick is removed, with the newline before it. */
  lemma {:induction false} StripClosingFence(body: string)
    requires NoBacktick(body)
    ensures StripFences(body + "\n```") == body
  {
    var s := body + "\n```";
    if body == [] {
      assert s[4..] == [];
    } else {
      assert s[0] == body[0];
      assert s[..4][1] == s[1];
      assert |body| > 1 ==> s[1] == body[1];
      KeepsFirst(s);
      assert s[1..] == body[1..] + "\n```";
      StripClosingFence(body[1..]);
    }
  }

  /** A reply wrapped in a ```json fence reaches the JSON parser as the text inside the fence. */
  lemma FencedJsonUnwrapped(body: string)
    requires NoBacktick(body)
    ensures StripFences("```json\n" + body + "\n```") == body
  {
    var s := "```json\n" + body + "\n```";
    assert StartsWith(s, "```json\n");
    assert s[8..] == body + "\n```";
    StripClosingFence(body);
  }

  /** The text handed to `JSON.parse`. */
  function JsonText(rawText: string): string {
    Trim(StripFences(rawText))
  }

  /** Reads the parsed value into a response; `None` is a parse that threw, and a `null`
      result throws on its first property read; both fall back to the raw text. */
  function Interpret(parsed: Option<Json>, rawText: string): (r: StoryResponse)
    ensures parsed.None? || parsed == Some(JNull) ==> r == Plain(rawText)
  {
    match parsed
    case None => Plain(rawText)
    case Some(p) =>
      if p == JNull then Plain(rawText)
      else StoryResponse(
        OrElse(Get(p, "content"), JStr(rawText)),
        OrElse(Get(p, "options"), JArr([])),
        OrElse(Get(p, "narrative_context"), EmptyObject),
        OrElse(Get(p, "correction"), JNull),
        OrElse(Get(p, "vocabulary_highlight"), JNull))
  }

  /** `callGemini` after the request is sent. `parse` is `JSON.parse` (`None` when it throws).
      An error result is an exception, which fails the job. */
  function CallGemini(reply: HttpReply, parse: string -> Option<Json>): (r: Result<StoryResponse, string>)
    ensures reply.NotOk? ==>
      r == Failure("Gemini API Error: " + IntToString(reply.status) + " - " + reply.body)
    ensures r.Failure? <==> !reply.Candidate?
    ensures reply.Candidate? && (reply.text.None? || Trim(reply.text.value) == "") ==>
      r == Success(Plain(NoContentMessage))
  {
    match reply
    case NetworkFailure(m) => Failure(m)
    case NotOk(status, body) => Failure("Gemini API Error: " + IntToString(status) + " - " + body)
    case BodyNotJson(m) => Failure(m)
    case Candidate(text) =>
      if text.None? || Trim(text.value) == "" then Success(Plain(NoContentMessage))
      else
        var rawText := Trim(text.value);
        Success(Interpret(parse(JsonText(rawText)), rawText))
  }

  /** A reply whose text is not JSON does not fail: its trimmed text becomes the content,
      with no options and an empty narrative context. */
  lemma UnparseableReplyIsContent(text: string, parse: string -> Option<Json>)
    requires Trim(text) != ""
    requires parse(JsonText(Trim(text))).None?
    ensures CallGemini(Candidate(Some(text)), parse) == Success(Plain(Trim(text)))
  {
  }

  /** Whatever a parsed object leaves out gets its default: the raw text for the content, `[]`
      for the options, `{}` for the narrative context, `null` for the correction and the
      vocabulary; and a field that is present and truthy is taken as it is. */
  lemma ParsedObjectDefaults(text: string, parse: string -> Option<Json>, fields: map<string, Json>)
    requires Trim(text) != ""
    requires parse(JsonText(Trim(text))) == Some(JObj(fields))
    ensures var r := CallGemini(Candidate(Some(text)), parse).value;
      && (if "content" in fields && Truthy(fields["content"]) then r.content == fields["content"] else r.content == JStr(Trim(text)))
      && (if "options" in fields && Truthy(fields["options"]) then r.options == fields["options"] else r.options == JArr([]))
      && (if "narrative_context" in fields && Truthy(fields["narrative_context"]) then r.narrativeContext == fields["narrative_context"] else r.narrativeContext == EmptyObject)
      && (if "correction" in fields && Truthy(fields["correction"]) then r.correction == fields["correction"] else r.correction == JNull)
      && (if "vocabulary_highlight" in fields && Truthy(fields["vocabulary_highlight"]) then r.vocabularyHighlight == fields["vocabulary_highlight"] else r.vocabularyHighlight == JNull)
  {
    var raw := Trim(text);
    assert CallGemini(Candidate(Some(text)), parse) == Success(Interpret(Some(JObj(fields)), raw));
  }

  /** A fenced reply is parsed exactly as the same JSON without the fence; only the fallback
      content (the raw text) differs. */
  lemma FenceMakesNoDifferenceToParsing(body: string)
    requires NoBacktick(body)
    requires Trim(body) == body && body != ""
    ensures JsonText(Trim("```json\n" + body + "\n```")) == JsonText(body)
  {
    var fenced := "```json\n" + body + "\n```";
    assert fenced[0] == '`' && fenced[|fenced| - 1] == '`';
    TrimOfUnspaced(fenced);
    FencedJsonUnwrapped(body);
    StripFencesKeepsPlainText(body);
  }

  lemma TrimOfUnspaced(s: string)
    requires s != [] && !IsSpace(s[0]) && !IsSpace(s[|s| - 1])
    ensures Trim(s) == s
  {
  }

  // ----- prompts -----------------------------------------------------------------------

  /** The fields `generateStoryStart` receives; all but the native language are read from
      the job's parameters. */
  datatype GenerationParams = GenerationParams(
    genre: Read, language: Read, goal: Read, lesson: Read, level: Read, levelLabel: Read,
    nativeLanguage: string)
  {
    predicate Wf() {
      !genre.TypeError? && !language.TypeError? && !goal.TypeError? && !lesson.TypeError?
      && !level.TypeError? && !levelLabel.TypeError?
    }
  }

  datatype ContinuationParams = ContinuationParams(
    turnType: Read, userDirection: Read, contextSummary: Read, narrativeContext: Read,
    nativeLanguage: string)
  {
    predicate Wf() {
      !turnType.TypeError? && !userDirection.TypeError? && !contextSummary.TypeError?
      && !narrativeContext.TypeError?
    }
  }

  /** The conditional content of a prompt. For a start: the genre, the language, the
      complexity line, the optional goal and theme rules and the language definitions are
      given in. For a continuation: the user-input analysis rule (with the user's text), the
      definitions language, the narrative context, the summary, and the direction clause. */
  datatype Prompt =
    | StartPrompt(genre: string, language: string, complexity: string,
                  goal: Option<string>, theme: Option<string>, definitionsIn: Option<string>)
    | ContinuePrompt(inputAnalysis: Option<string>, definitionsIn: Option<string>,
                     context: Json, summary: string, direction: Option<string>)

  function DefinitionsIn(nativeLanguage: string): Option<string> {
    if nativeLanguage != "" then Some(nativeLanguage) else None
  }

  /** `buildSystemPrompt`. */
  function BuildSystemPrompt(p: GenerationParams): (r: Prompt)
    requires p.Wf()
    ensures r.StartPrompt?
    ensures TruthyRead(p.levelLabel) ==> r.complexity == "Level " + TemplateText(p.levelLabel)
    ensures !TruthyRead(p.levelLabel) && !TruthyRead(p.level) ==> r.complexity == "Level 5/10"
    ensures !TruthyRead(p.language) ==> r.language == "English"
    ensures r.goal.Some? <==> TruthyRead(p.goal)
    ensures r.theme.Some? <==> TruthyRead(p.lesson)
  {
    StartPrompt(
      TemplateText(p.genre),
      ToText(OrElse(p.language, JStr("English"))),
      if TruthyRead(p.levelLabel) then "Level " + TemplateText(p.levelLabel)
      else "Level " + ToText(OrElse(p.level, JNum(5))) + "/10",
      if TruthyRead(p.goal) then Some(TemplateText(p.goal)) else None,
      if TruthyRead(p.lesson) then Some(TemplateText(p.lesson)) else None,
      DefinitionsIn(p.nativeLanguage))
  }

  /** `isCustom` in `continueStory`: a custom turn with a non-empty direction. */
  predicate IsCustom(p: ContinuationParams) {
    p.turnType == Value(JStr("custom")) && TruthyRead(p.userDirection)
  }

  /** The prompt of `continueStory`. */
  function ContinuePromptOf(p: ContinuationParams): (r: Prompt)
    requires p.Wf()
    ensures r.ContinuePrompt?
    ensures r.inputAnalysis.Some? <==> IsCustom(p)
    ensures r.direction.Some? <==> IsCustom(p)
    ensures IsCustom(p) ==> r.direction == r.inputAnalysis == Some(TemplateText(p.userDirection))
    ensures !TruthyRead(p.narrativeContext) ==> r.context == EmptyObject
    ensures !TruthyRead(p.contextSummary) ==> r.summary == "Start of story."
  {
    var custom := IsCustom(p);
    ContinuePrompt(
      if custom then Some(TemplateText(p.userDirection)) else None,
      DefinitionsIn(p.nativeLanguage),
      OrElse(p.narrativeContext, EmptyObject),
      if TruthyRead(p.contextSummary) then TemplateText(p.contextSummary) else "Start of story.",
      if custom then Some(TemplateText(p.userDirection)) else None)
  }

  /** An AI-option turn never asks for grammar analysis, whatever its direction text is. */
  lemma AiTurnHasNoCorrectionRule(p: ContinuationParams)
    requires p.Wf()
    requires p.turnType == Value(JStr("ai"))
    ensures ContinuePromptOf(p).inputAnalysis.None? && ContinuePromptOf(p).direction.None?
  {
  }
}
