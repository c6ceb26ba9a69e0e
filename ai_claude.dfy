/**
 * The Anthropic-backed helpers of the assistant. The model's replies are inputs
 * (`Outcome`s: an answer, or a thrown API error); what is modelled is how each helper
 * post-processes a reply and where it falls back to the rule-based heuristics.
 */
module AiClaude {
  import opened Wrappers
  import opened Text
  import opened AiFallback

  const FastModel := "claude-3-5-haiku-20241022"

  /** The part of the email quoted in the language-detection prompt. */
  function PromptExcerpt(text: string): (r: string)
    ensures r <= text
    ensures |r| == if |text| < 500 then |text| else 500
  {
    Take(text, 500)
  }

  /**
   * `detectLanguageClaude(text)`: the model's reply trimmed and lower-cased, or the
   * heuristic guess when the call fails.
   */
  function DetectLanguageClaude(text: string, reply: Outcome<string>): (r: string)
    ensures reply.Threw? ==> r in {"pl", "en", "de"} && r == DetectLanguageFallback(text)
    ensures reply.Answered? ==> r == Lower(Trim(reply.answer)) && |r| <= |reply.answer|
    ensures reply.Answered? && |r| > 0 ==> !IsSpace(r[0]) && !IsSpace(r[|r| - 1])
  {
    match reply
    case Answered(answer) =>
      NormalizedHasNoOuterSpace(answer);
      Lower(Trim(answer))
    case Threw => DetectLanguageFallback(text)
  }

  /** Lower-casing never turns a non-space into a space. */
  lemma LowerKeepsSpaces(s: string)
    ensures |Lower(s)| == |s|
    ensures forall i :: 0 <= i < |s| && !IsSpace(s[i]) ==> !IsSpace(Lower(s)[i])
  {
  }

  /** A trimmed and lower-cased reply is no longer than the reply and has no outer white space. */
  lemma NormalizedHasNoOuterSpace(answer: string)
    ensures var r := Lower(Trim(answer));
            |r| <= |answer| && (|r| > 0 ==> !IsSpace(r[0]) && !IsSpace(r[|r| - 1]))
  {
    TrimHasNoOuterSpace(answer);
    LowerKeepsSpaces(Trim(answer));
  }

  /** The language the response prompt asks for: anything other than pl or en is German. */
  function ReplyLanguageName(language: string): (r: string)
    ensures r == "Polish" <==> language == "pl"
    ensures r == "English" <==> language == "en"
    ensures r == "German" <==> language != "pl" && language != "en"
  {
    if language == "pl" then "Polish" else if language == "en" then "English" else "German"
  }

  /** `generateResponseClaude(content, language)`: the reply, or the canned text in `language`. */
  function GenerateResponseClaude(content: string, language: string, reply: Outcome<string>): (r: string)
    ensures reply.Answered? ==> r == reply.answer
    ensures reply.Threw? ==> r == GenerateResponseFallback(content, language)
  {
    match reply
    case Answered(answer) => answer
    case Threw => GenerateResponseFallback(content, language)
  }

  /** Index of the first occurrence of `c` in `s`. */
  function FirstIndex(s: string, c: char): (r: Option<nat>)
    ensures r.None? <==> c !in s
    ensures r.Some? ==> r.value < |s| && s[r.value] == c && c !in s[..r.value]
  {
    if |s| == 0 then None
    else if s[0] == c then Some(0)
    else
      match FirstIndex(s[1..], c)
      case None => None
      case Some(i) =>
        assert s[..i + 1] == [s[0]] + s[1..][..i];
        Some(i + 1)
  }

  /** Index of the last occurrence of `c` in `s`. */
  function LastIndex(s: string, c: char): (r: Option<nat>)
    ensures r.None? <==> c !in s
    ensures r.Some? ==> r.value < |s| && s[r.value] == c && c !in s[r.value + 1..]
  {
    if |s| == 0 then None
    else if s[|s| - 1] == c then Some(|s| - 1)
    else
      match LastIndex(s[..|s| - 1], c)
      case None =>
        assert s == s[..|s| - 1] + [s[|s| - 1]];
        None
      case Some(i) =>
        assert s[i + 1..] == s[..|s| - 1][i + 1..] + [s[|s| - 1]];
        Some(i)
  }

  /**
   * What the greedy pattern `\{[\s\S]*\}` matches: from the first `{` to the last `}`,
   * provided some `}` follows that `{`.
   */
  function JsonSpan(text: string): (r: Option<string>)
    ensures r.Some? ==> |r.value| >= 2 && r.value[0] == '{' && r.value[|r.value| - 1] == '}'
  {
    match FirstIndex(text, '{')
    case None => None
    case Some(i) =>
      match LastIndex(text, '}')
      case None => None
      case Some(j) => if i < j then Some(text[i..j + 1]) else None
  }

  /** A span is found exactly when some `{` comes before some `}`. */
  lemma JsonSpanIff(text: string)
    ensures JsonSpan(text).Some? <==>
              exists a, b :: 0 <= a < b < |text| && text[a] == '{' && text[b] == '}'
  {
    if a, b :| 0 <= a < b < |text| && text[a] == '{' && text[b] == '}' {
      var i := FirstIndex(text, '{');
      var j := LastIndex(text, '}');
      assert text[a] in text;
      assert text[b] in text;
    }
  }

  /** The span leaves out only text before the first `{` and after the last `}`. */
  lemma JsonSpanIsGreedy(text: string) returns (i: nat, j: nat)
    requires JsonSpan(text).Some?
    ensures i < j < |text| && JsonSpan(text).value == text[i..j + 1]
    ensures '{' !in text[..i] && '}' !in text[j + 1..]
  {
    i := FirstIndex(text, '{').value;
    j := LastIndex(text, '}').value;
  }

  /**
   * `categorizeEmailClaude(content, subject)`: the JSON object found in the reply when
   * `parse` (JSON.parse, `None` when it throws) accepts it; the heuristic categorisation when
   * the call fails, no braces are found, or the text does not parse.
   */
  function CategorizeEmailClaude(content: string, reply: Outcome<string>,
                                 parse: string -> Option<CategoryRecord>): (r: CategoryRecord)
    ensures reply.Threw? ==> r == CategorizeEmailFallback(content).Record()
    ensures reply.Answered? && JsonSpan(reply.answer).None? ==> r == CategorizeEmailFallback(content).Record()
    ensures reply.Answered? && JsonSpan(reply.answer).Some? ==>
              r == parse(JsonSpan(reply.answer).value).GetOr(CategorizeEmailFallback(content).Record())
  {
    match reply
    case Threw => CategorizeEmailFallback(content).Record()
    case Answered(answer) =>
      match JsonSpan(answer)
      case None => CategorizeEmailFallback(content).Record()
      case Some(span) =>
        match parse(span)
        case None => CategorizeEmailFallback(content).Record()
        case Some(record) => record
  }

  /** Whether a model-parsed categorisation ever carries `detectedLanguage` is up to the model. */
  lemma HeuristicCategoryHasNoDetectedLanguage(content: string, reply: Outcome<string>,
                                               parse: string -> Option<CategoryRecord>)
    requires reply.Threw? || JsonSpan(reply.answer).None?
    ensures CategorizeEmailClaude(content, reply, parse).detectedLanguage.None?
    ensures CategorizeEmailClaude(content, reply, parse).language == Some(DetectLanguageFallback(content))
  {
  }

  datatype ConnectionReport = Connected(response: string, model: string) | Failed(error: string, model: string)

  /** `testClaudeConnection()`: the reply or the error message, always naming the fast model. */
  function TestClaudeConnection(reply: Outcome<string>, errorMessage: string): (r: ConnectionReport)
    ensures r.model == FastModel
    ensures r.Connected? <==> reply.Answered?
    ensures r.Connected? ==> r.response == reply.answer
    ensures r.Failed? ==> r.error == errorMessage
  {
    match reply
    case Answered(text) => Connected(text, FastModel)
    case Threw => Failed(errorMessage, FastModel)
  }
}
