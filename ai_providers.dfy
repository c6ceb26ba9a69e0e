/**
 * Provider selection and the deterministic parts of the AI facade: which backend answers,
 * how a failed backend falls back to the rule-based helpers, the localisation tables, and
 * the threshold branches that decide which context blocks go into the reply prompt.
 */
module AiProviders {
  import opened Wrappers
  import opened Text
  import opened AiFallback
  import opened AiClaude

  datatype Provider = Claude | OpenAI | Fallback

  /** `AI_PROVIDER`: the environment value, `auto` when unset or empty. */
  function ConfiguredProvider(env: string): (r: string)
    ensures r != ""
    ensures env != "" ==> r == env
  {
    if env == "" then "auto" else env
  }

  /** The automatic order: Anthropic key, then OpenAI key, then the heuristics. */
  function AutoProvider(anthropicKey: string, openaiKey: string): Provider
  {
    if anthropicKey != "" then Claude else if openaiKey != "" then OpenAI else Fallback
  }

  /**
   * `getAvailableProvider()`: the configured provider when its key is set (or when it is
   * `fallback`), the automatic order otherwise. An empty key counts as missing.
   */
  function GetAvailableProvider(configured: string, anthropicKey: string, openaiKey: string): (r: Provider)
    ensures configured == "fallback" ==> r == Fallback
    ensures configured == "claude" && anthropicKey != "" ==> r == Claude
    ensures configured == "openai" && openaiKey != "" ==> r == OpenAI
    ensures r == Claude ==> anthropicKey != ""
    ensures r == OpenAI ==> openaiKey != ""
  {
    if configured == "claude" && anthropicKey != "" then Claude
    else if configured == "openai" && openaiKey != "" then OpenAI
    else if configured == "fallback" then Fallback
    else AutoProvider(anthropicKey, openaiKey)
  }

  /** A configured provider that cannot be used leaves the choice to the automatic order. */
  lemma MissingKeyFallsThroughToAuto(configured: string, anthropicKey: string, openaiKey: string)
    requires configured != "fallback"
    requires !(configured == "claude" && anthropicKey != "")
    requires !(configured == "openai" && openaiKey != "")
    ensures GetAvailableProvider(configured, anthropicKey, openaiKey) == AutoProvider(anthropicKey, openaiKey)
  {
  }

  /** With no key at all every configuration ends in the heuristics. */
  lemma NoKeysMeansFallback(configured: string)
    ensures GetAvailableProvider(configured, "", "") == Fallback
  {
  }

  const KnownLanguages: set<string> := {"pl", "en", "de", "fr", "es", "it", "ru"}

  const Templates: map<string, string> := map[
    "pl" := "Dziękujemy za zainteresowanie podróżą do Dubaju. Oto informacje dotyczące Twojego zapytania:",
    "en" := "Thank you for your interest in traveling to Dubai. Here is the information regarding your inquiry:",
    "de" := "Vielen Dank für Ihr Interesse an einer Reise nach Dubai. Hier sind die Informationen zu Ihrer Anfrage:",
    "fr" := "Merci pour votre intérêt pour un voyage à Dubaï. Voici les informations concernant votre demande:",
    "es" := "Gracias por su interés en viajar a Dubai. Aquí está la información sobre su consulta:",
    "it" := "Grazie per il vostro interesse per un viaggio a Dubai. Ecco le informazioni riguardo alla vostra richiesta:",
    "ru" := "Спасибо за ваш интерес к поездке в Дубай. Вот информация по вашему запросу:"
  ]

  const Signatures: map<string, string> := map[
    "pl" := "Pozdrawiam,\nDubai Travel Assistant\n\nBiuro Podróży Dubai Dreams\nTel: +48 123 456 789\nEmail: kontakt@dubaitravel.com",
    "en" := "Best regards,\nDubai Travel Assistant\n\nDubai Dreams Travel Agency\nTel: +48 123 456 789\nEmail: contact@dubaitravel.com",
    "de" := "Mit freundlichen Grüßen,\nDubai Travel Assistant\n\nReisebüro Dubai Dreams\nTel: +48 123 456 789\nEmail: kontakt@dubaitravel.com",
    "fr" := "Cordialement,\nDubai Travel Assistant\n\nAgence de Voyage Dubai Dreams\nTél: +48 123 456 789\nEmail: contact@dubaitravel.com",
    "es" := "Saludos cordiales,\nDubai Travel Assistant\n\nAgencia de Viajes Dubai Dreams\nTel: +48 123 456 789\nEmail: contacto@dubaitravel.com",
    "it" := "Cordiali saluti,\nDubai Travel Assistant\n\nAgenzia di Viaggi Dubai Dreams\nTel: +48 123 456 789\nEmail: contatto@dubaitravel.com",
    "ru" := "С уважением,\nDubai Travel Assistant\n\nТуристическое агентство Dubai Dreams\nТел: +48 123 456 789\nEmail: kontakt@dubaitravel.com"
  ]

  /** Every localisation table covers exactly the seven known languages. */
  lemma TablesCoverKnownLanguages()
    ensures Templates.Keys == KnownLanguages
    ensures Signatures.Keys == KnownLanguages
  {
  }

  /** `getLocalizedTemplate(language)`: the language's opening line, English for any other code. */
  function LocalizedTemplate(language: string): (r: string)
    ensures language in KnownLanguages ==> r == Templates[language]
    ensures language !in KnownLanguages ==> r == Templates["en"]
    ensures r in Templates.Values
  {
    if language in Templates then Templates[language] else Templates["en"]
  }

  /**
   * `getLocalizedSignature(language, defaultSignature)`: the built-in signature of a known
   * language wins; other codes get the configured signature when it is non-empty, else English.
   */
  function LocalizedSignature(language: string, defaultSignature: string): (r: string)
    ensures language in KnownLanguages ==> r == Signatures[language]
    ensures language !in KnownLanguages && defaultSignature != "" ==> r == defaultSignature
    ensures language !in KnownLanguages && defaultSignature == "" ==> r == Signatures["en"]
  {
    if language in Signatures then Signatures[language]
    else if defaultSignature != "" then defaultSignature
    else Signatures["en"]
  }

  /** The configured signature is used only for languages outside the table. */
  lemma DefaultSignatureOnlyForUnknownLanguages(language: string, defaultSignature: string)
    requires defaultSignature !in Signatures.Values
    ensures LocalizedSignature(language, defaultSignature) == defaultSignature <==>
              language !in KnownLanguages && defaultSignature != ""
  {
  }

  function SubjectPrefix(language: string): (r: string)
    ensures r == "AW:" <==> language == "de"
    ensures r == "AW:" || r == "Re:"
  {
    if language == "de" then "AW:" else "Re:"
  }

  /** `getLocalizedSubject(language, subject)`: the reply prefix, one space, the subject. */
  function LocalizedSubject(language: string, subject: string): (r: string)
    ensures |r| == |subject| + 4
    ensures r[..3] == SubjectPrefix(language) && r[3] == ' ' && r[4..] == subject
  {
    SubjectPrefix(language) + " " + subject
  }

  /** The prefix is not idempotent: a reply to a reply carries it twice. */
  lemma SubjectPrefixedTwice(language: string, subject: string)
    ensures LocalizedSubject(language, LocalizedSubject(language, subject))
            == SubjectPrefix(language) + " " + SubjectPrefix(language) + " " + subject
  {
  }

  /** The client status label of the prompt. */
  function LoyaltyLabel(loyaltyScore: real): (r: string)
    ensures r == "VIP" <==> loyaltyScore > 0.7
    ensures r == "returning" <==> 0.3 < loyaltyScore <= 0.7
    ensures r == "new" <==> loyaltyScore <= 0.3
  {
    if loyaltyScore > 0.7 then "VIP" else if loyaltyScore > 0.3 then "returning" else "new"
  }

  /** `Math.round(x)`: halves round up. */
  function Round(x: real): (r: int)
    ensures x - 0.5 < r as real <= x + 0.5
  {
    (x + 0.5).Floor
  }

  datatype PurchaseContext = HighPurchaseIntent(percent: int) | MediumPurchaseIntent(percent: int) | NoPurchaseContext
  datatype SentimentContext = Empathy | Proactive | NoSentimentContext

  /** The purchase block chosen from the rounded percentage of the purchase probability. */
  function PurchaseContextFor(prediction: Option<real>): (r: PurchaseContext)
    ensures prediction.None? ==> r == NoPurchaseContext
    ensures r.HighPurchaseIntent? ==> r.percent > 80
    ensures r.MediumPurchaseIntent? ==> 60 < r.percent <= 80
  {
    match prediction
    case None => NoPurchaseContext
    case Some(p) =>
      var percent := Round(p * 100.0);
      if percent > 80 then HighPurchaseIntent(percent)
      else if percent > 60 then MediumPurchaseIntent(percent)
      else NoPurchaseContext
  }

  /** Rounding moves the thresholds half a point down: 0.805 is high, 0.605 is medium. */
  lemma PurchaseContextThresholds(p: real)
    ensures PurchaseContextFor(Some(p)).HighPurchaseIntent? <==> p >= 0.805
    ensures PurchaseContextFor(Some(p)).MediumPurchaseIntent? <==> 0.605 <= p < 0.805
  {
    var percent := Round(p * 100.0);
    if p >= 0.805 {
      assert p * 100.0 + 0.5 >= 81.0;
      assert percent >= 81;
    } else {
      assert p * 100.0 + 0.5 < 81.0;
      assert percent <= 80;
      if p >= 0.605 {
        assert p * 100.0 + 0.5 >= 61.0;
        assert percent >= 61;
      } else {
        assert p * 100.0 + 0.5 < 61.0;
        assert percent <= 60;
      }
    }
  }

  /** The sentiment block: empathy for negative moods first, then proactive selling. */
  function SentimentContextFor(analysis: Option<(string, string)>): (r: SentimentContext)
    ensures r == Empathy <==> analysis.Some? && analysis.value.0 in {"negative", "frustrated"}
    ensures r == Proactive <==> analysis.Some? && analysis.value.0 !in {"negative", "frustrated"}
                                && (analysis.value.0 == "positive" || analysis.value.1 == "excited")
  {
    match analysis
    case None => NoSentimentContext
    case Some((sentiment, emotion)) =>
      if sentiment == "negative" || sentiment == "frustrated" then Empathy
      else if sentiment == "positive" || emotion == "excited" then Proactive
      else NoSentimentContext
  }

  /** The language whose base prompt and instructions are used. */
  function PromptLanguage(language: string): (r: string)
    ensures r in KnownLanguages
    ensures language in KnownLanguages ==> r == language
  {
    if language in KnownLanguages then language else "en"
  }

  datatype ClientContext = ClientContext(returning: bool, loyalty: string)

  /** The decisions that `getEnhancedLocalizedPrompt` makes; the prompt wording is not modelled. */
  datatype PromptPlan = PromptPlan(
    language: string,
    client: Option<ClientContext>,
    sentiment: SentimentContext,
    purchase: PurchaseContext,
    withRecommendations: bool)

  /** A profile is given as its number of bookings and its loyalty score. */
  function EnhancedPromptPlan(language: string, profile: Option<(nat, real)>,
                              analysis: Option<(string, string)>, prediction: Option<real>,
                              hasRecommendations: bool): (r: PromptPlan)
    ensures r.language in KnownLanguages
    ensures r.client.Some? <==> profile.Some?
    ensures profile.Some? ==> r.client.value.returning == (profile.value.0 > 0)
                              && r.client.value.loyalty == LoyaltyLabel(profile.value.1)
    ensures r.language == PromptLanguage(language)
    ensures r.sentiment == SentimentContextFor(analysis) && r.purchase == PurchaseContextFor(prediction)
    ensures r.withRecommendations == hasRecommendations
  {
    var client := match profile
      case None => None
      case Some((bookings, loyalty)) => Some(ClientContext(bookings > 0, LoyaltyLabel(loyalty)));
    PromptPlan(PromptLanguage(language), client, SentimentContextFor(analysis),
               PurchaseContextFor(prediction), hasRecommendations)
  }

  /** What `generateResponse` returns, minus the echoed email. */
  datatype AiReply = AiReply(response: string, detectedLanguage: string, provider: string, fallback: bool)

  /** The external replies one `generateResponse` call may consume. */
  datatype ModelReplies = ModelReplies(
    claudeDetect: Outcome<string>,
    claudeGenerate: Outcome<string>,
    openaiDetect: Outcome<string>,
    openaiGenerate: Outcome<string>)

  /** `detectLanguageOpenAI(text)`: the reply trimmed and lower-cased, or the heuristic guess. */
  function DetectLanguageOpenAI(text: string, reply: Outcome<string>): (r: string)
    ensures reply.Threw? ==> r == DetectLanguageFallback(text)
    ensures reply.Answered? ==> r == Lower(Trim(reply.answer))
  {
    match reply
    case Answered(answer) => Lower(Trim(answer))
    case Threw => DetectLanguageFallback(text)
  }

  /** `detectLanguage(text)`: dispatch on the provider. */
  function DetectLanguage(provider: Provider, text: string, replies: ModelReplies): (r: string)
    ensures provider == Fallback ==> r in {"pl", "en", "de"} && r == DetectLanguageFallback(text)
    ensures provider == Claude ==> r == DetectLanguageClaude(text, replies.claudeDetect)
    ensures provider == OpenAI ==> r == DetectLanguageOpenAI(text, replies.openaiDetect)
  {
    match provider
    case Claude => DetectLanguageClaude(text, replies.claudeDetect)
    case OpenAI => DetectLanguageOpenAI(text, replies.openaiDetect)
    case Fallback => DetectLanguageFallback(text)
  }

  /** The heuristic reply, tagged with the provider name that produced it. */
  function HeuristicReply(content: string, provider: string): (r: AiReply)
    ensures r.detectedLanguage in {"pl", "en", "de"}
    ensures r.response == GenerateResponseFallback(content, r.detectedLanguage)
    ensures r.fallback && r.provider == provider
  {
    var language := DetectLanguageFallback(content);
    AiReply(GenerateResponseFallback(content, language), language, provider, true)
  }

  /**
   * `generateResponse(content, aiContext)`. Claude failures are absorbed inside the Claude
   * helpers; a failed OpenAI completion switches the whole reply to the heuristics.
   */
  function GenerateResponse(provider: Provider, content: string, replies: ModelReplies): (r: AiReply)
    ensures r.provider in {"claude", "openai", "openai-fallback", "fallback"}
    ensures r.fallback <==> r.provider in {"openai-fallback", "fallback"}
    ensures r.fallback ==> r == HeuristicReply(content, r.provider)
    ensures r.provider == "fallback" <==> provider == Fallback
    ensures r.provider == "openai-fallback" <==> provider == OpenAI && replies.openaiGenerate.Threw?
    ensures provider == Claude ==>
              var language := DetectLanguageClaude(content, replies.claudeDetect);
              r == AiReply(GenerateResponseClaude(content, language, replies.claudeGenerate), language, "claude", false)
    ensures provider == OpenAI && replies.openaiGenerate.Answered? ==>
              r == AiReply(replies.openaiGenerate.answer, DetectLanguageOpenAI(content, replies.openaiDetect), "openai", false)
  {
    match provider
    case Claude =>
      var language := DetectLanguageClaude(content, replies.claudeDetect);
      AiReply(GenerateResponseClaude(content, language, replies.claudeGenerate), language, "claude", false)
    case OpenAI =>
      (match replies.openaiGenerate
       case Answered(text) => AiReply(text, DetectLanguageOpenAI(content, replies.openaiDetect), "openai", false)
       case Threw => HeuristicReply(content, "openai-fallback"))
    case Fallback => HeuristicReply(content, "fallback")
  }

  /** When both Claude calls fail, the reply text is the one the heuristics would give. */
  lemma ClaudeOutageGivesHeuristicText(content: string, replies: ModelReplies)
    requires replies.claudeDetect.Threw? && replies.claudeGenerate.Threw?
    ensures GenerateResponse(Claude, content, replies).response == HeuristicReply(content, "fallback").response
    ensures GenerateResponse(Claude, content, replies).provider == "claude"
  {
  }

  /** The external replies one `categorizeEmail` call may consume; `None` from a parser is a throw. */
  datatype CategoryReplies = CategoryReplies(
    claudeReply: Outcome<string>,
    claudeParse: string -> Option<CategoryRecord>,
    openaiDetect: Outcome<string>,
    openaiReply: Outcome<string>,
    openaiParse: string -> Option<CategoryRecord>)

  /** `categorizeEmailOpenAI(content)`: the parsed reply plus `detectedLanguage`, or the heuristics. */
  function CategorizeEmailOpenAI(content: string, replies: CategoryReplies): (r: CategoryRecord)
    ensures r.detectedLanguage.Some? ==> r.detectedLanguage.value == DetectLanguageOpenAI(content, replies.openaiDetect)
    ensures replies.openaiReply.Threw? ==> r == CategorizeEmailFallback(content).Record()
    ensures replies.openaiReply.Answered? && replies.openaiParse(replies.openaiReply.answer).None? ==>
              r == CategorizeEmailFallback(content).Record()
    ensures replies.openaiReply.Answered? && replies.openaiParse(replies.openaiReply.answer).Some? ==>
              r == replies.openaiParse(replies.openaiReply.answer).value
                     .(detectedLanguage := Some(DetectLanguageOpenAI(content, replies.openaiDetect)))
  {
    match replies.openaiReply
    case Threw => CategorizeEmailFallback(content).Record()
    case Answered(text) =>
      match replies.openaiParse(text)
      case None => CategorizeEmailFallback(content).Record()
      case Some(parsed) => parsed.(detectedLanguage := Some(DetectLanguageOpenAI(content, replies.openaiDetect)))
  }

  /** `categorizeEmail(content)`: dispatch on the provider. */
  function CategorizeEmail(provider: Provider, content: string, replies: CategoryReplies): (r: CategoryRecord)
    ensures provider == Fallback ==> r == CategorizeEmailFallback(content).Record()
    ensures provider == Claude ==> r == CategorizeEmailClaude(content, replies.claudeReply, replies.claudeParse)
    ensures provider == OpenAI ==> r == CategorizeEmailOpenAI(content, replies)
  {
    match provider
    case Claude => CategorizeEmailClaude(content, replies.claudeReply, replies.claudeParse)
    case OpenAI => CategorizeEmailOpenAI(content, replies)
    case Fallback => CategorizeEmailFallback(content).Record()
  }

  /**
   * `detectedLanguage` is only ever added by a successful OpenAI categorisation: the
   * heuristic answer, under any provider, never carries it.
   */
  lemma DetectedLanguageOnlyFromOpenAI(provider: Provider, content: string, replies: CategoryReplies)
    requires provider == Fallback || (provider == OpenAI && replies.openaiReply.Threw?)
             || (provider == Claude && replies.claudeReply.Threw?)
    ensures CategorizeEmail(provider, content, replies).detectedLanguage.None?
  {
  }
}
