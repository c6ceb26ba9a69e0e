# Dubai travel agency email assistant — a Dafny model

The system is a Next.js application for a travel agency selling trips to Dubai. It reads
customer emails, categorises them and detects their language, and asks a language model
(Claude, OpenAI, or built-in keyword heuristics) for a reply. It scores each customer's
sentiment and purchase intent, escalates hard cases, and raises purchase alerts for clients
who are ready to buy. Small HTTP routes let an operator list emails, run the alert queue, keep
a knowledge base and a learning queue, look at a dashboard, and edit the settings.

This project models the decision logic of those parts in Dafny:

- `text.dfy` (`Text`): the JavaScript string operations the code relies on: case mapping, `includes`,
  `substring`, `join`, `trim`, number rendering, and code-point string order.
- `ranking.dfy` (`Ranking`): a stable insertion sort by a total preorder, `take`, and `filter`. They
  stand in for the store's `orderBy`, `take` and `where`.
- `wrappers.dfy` (`Wrappers`): `Option` and `Outcome`. `Outcome` is a call that answers or throws.
- `store.dfy` (`Store`): the email, conversation and message tables as a class. `messageId` is a
  unique key.
- `ai_fallback.dfy`, `ai_claude.dfy`, `ai_providers.dfy`: provider selection, language detection,
  categorisation and reply generation. Every model call is an input `Outcome`. The keyword
  heuristics are modelled in full.
- `ai_advanced.dfy` (`AiAdvanced`): priority, escalation criteria, client profiles, and the
  purchase-readiness alert gate.
- `process_route.dfy` (`ProcessRoute`): `POST /api/email/process`, the intake pipeline, as
  methods over the tables.
- `fetch_route.dfy` (`FetchRoute`): `POST /api/email/fetch`, the mailbox polling loop.
- `mail.dfy` (`Mail`): parsing a Gmail message, sending mail, and listing messages.
- `emails_route.dfy`, `purchase_alerts.dfy`, `knowledge.dfy`, `learning.dfy`, `dashboard.dfy`,
  `settings.dfy`: the operator routes.

## Where the model follows the code rather than the description

- The alert gate of `notifyPurchaseReadyClient` fires at a readiness score of 0.8 or more
  (`< 0.8` returns early). The route's priority override needs a score strictly above 0.8. A
  client scored exactly 0.8 gets an alert but keeps the computed priority
  (`ProcessRoute.OverrideStricterThanAlertGate`).
- The keyword rule of `checkEscalationCriteria` reads `conversation.email.content`. The process
  route passes the conversation row it has just created, which has no `email`, so the rule never
  fires (Findings, row 2).
- `parseGmailMessage` takes the first `text/plain` part. If that part has no data, the body is
  empty even when a later part has data. An empty `parts` array is truthy, so the payload body is
  not read either.
- `PUT /api/learning` answers `addedToKnowledge: addToKnowledgeBase` even when an empty answer
  kept the entry out of the knowledge base.
- `PUT /api/knowledge` writes `tags: JSON.stringify(tags || [])` and `isActive: isActive ?? true`.
  Leaving tags out clears them. Leaving `isActive` out reactivates the entry. Text fields left
  out keep their stored value. Because tags are stored as JSON text, the search filter of GET
  cannot work as intended (Findings, row 3).
- `GET /api/emails` counts lower-case statuses (`pending`, `processed`, `responded`, `failed`).
  The process route writes `PROCESSING`, `RESPONDED` and `ESCALATED`, so its rows never appear
  in those counts (`EmailsRoute.UpperCaseStatusesAreNeverCounted`).
- The page size comes from `parseInt`. A NaN page or limit, or a negative offset, makes the
  route answer 500. A negative `take` reads backwards from the end of the ordering. A limit of 0
  gives a non-finite page count, which is serialised as `null` (`None`).
- The fetch loop reports each stored email with the status it had when it was created (`new`).
  It reports `responded` as "a reply text exists", even when sending that reply failed.
- `slice(0, 6)` in `generateAIInsights` never cuts anything, because each rule adds at most one
  insight and there are six rules.
- String sort orders are code-point orders. The alert priorities sort descending as URGENT,
  MEDIUM, LOW, HIGH. The learning priorities sort as medium, low, high. So "high" is listed last.

## Model

| member | source | states |
|---|---|---|
| Text.Lower | src/lib/ai-fallback.js:9 | `toLowerCase` maps every character, keeping the length |
| Text.LowerIdempotent | src/lib/ai-fallback.js:131 | lower-casing an already lower-cased text changes nothing |
| Text.IncludesIff | src/lib/ai-fallback.js:11-13 | `includes` is true exactly when the pattern occurs at some position |
| Text.IncludesBounds | src/lib/ai-fallback.js:142 | the empty pattern is always found; a pattern longer than the text never is |
| Text.Take | src/lib/ai-claude.js:27 | `substring(0, n)` is a prefix of at most `n` characters, the whole text when it is shorter |
| Text.Join | src/app/api/email/process/route.js:87 | `join(sep)` puts the separator between consecutive parts only |
| Text.NatToStringRoundTrip | src/app/api/email/process/route.js:87 | a rendered number, such as the percentage in the summary, reads back as the same number |
| Text.TrimHasNoOuterSpace | src/lib/ai.js:53 | the trimmed reply neither starts nor ends with white space |
| Text.LexTrichotomy | src/app/api/purchase-alerts/route.js:47-51 | code-point string order is total and asymmetric |
| Text.LexTransitive | src/app/api/purchase-alerts/route.js:47-51 | code-point string order is transitive |
| Ranking.Sort | src/app/api/emails/route.js:29-33 | the ordering is a permutation of its input |
| Ranking.SortSorted | src/app/api/emails/route.js:31 | sorting by a total preorder yields a descending sequence |
| Ranking.TopIsBest | src/app/api/purchase-alerts/route.js:47-52 | `take: n` after `orderBy` keeps `n` rows, none outranked by a row left out |
| Ranking.LastIndexWhere | src/app/api/email/process/route.js:21-23 | the position found holds a row the key accepts and no later row is accepted; none only when no row is accepted |
| Ranking.Filter | src/app/api/email/fetch/route.js:211 | `filter` keeps exactly the elements satisfying the predicate, each no more often than the input holds it, and never more of them than the input |
| Ranking.FilterAppend | src/app/api/email/fetch/route.js:211 | filtering keeps the order: the kept elements of a first part come before those of a second part |
| Store.IndexOfMessage | src/app/api/email/process/route.js:21-23 | the lookup by `messageId` finds a row with that key, and finds none only when no row has it |
| Store.IndexOfAppended | src/app/api/email/fetch/route.js:46-68 | a row created after an unsuccessful lookup is found at its new position, and keys stay unique |
| Store.Store.FindEmail | src/app/api/email/fetch/route.js:46-48 | `findUnique` by `messageId` on the current table |
| Store.Store.CreateEmail | src/app/api/email/process/route.js:65-74 | a new email is appended, its id is its position, keys stay unique, the other tables are unchanged |
| Store.Store.UpdateEmail | src/app/api/email/process/route.js:175-182 | an update by id replaces that row only and keeps it findable by key |
| Store.Store.CreateConversation | src/app/api/email/process/route.js:77-89 | a new conversation is appended at the next id |
| Store.Store.UpdateConversation | src/app/api/email/process/route.js:115-121 | an update by id replaces that conversation only |
| Store.Store.AddMessage | src/app/api/email/process/route.js:128-134 | a message is appended; emails and conversations are unchanged |
| AiFallback.Hits | src/lib/ai-fallback.js:11-13 | the count of list words occurring in the text is at most the length of the list |
| AiFallback.HitsDependOnPresenceOnly | src/lib/ai-fallback.js:11-13 | two texts containing the same list words get the same count, however often each occurs |
| AiFallback.HitsZeroIff | src/lib/ai-fallback.js:11-13 | the count is zero exactly when no list word occurs |
| AiFallback.ChooseLanguage | src/lib/ai-fallback.js:15-19 | Polish when its count ties or beats both others; English when it beats Polish and ties or beats German; German only when it beats both |
| AiFallback.DetectLanguageFallback | src/lib/ai-fallback.js:3-20 | the guess is always `pl`, `en` or `de` |
| AiFallback.NoHitsMeansPolish | src/lib/ai-fallback.js:15-19 | a text with no keyword from any list is taken to be Polish |
| AiFallback.GenerateResponseFallback | src/lib/ai-fallback.js:22-128 | the canned reply for `pl`, `en` or `de`, and the Polish one for any other code |
| AiFallback.CategoryOf | src/lib/ai-fallback.js:141-157 | the category is one of the fixed set, and each category is chosen exactly when one of its words occurs and no word of an earlier category does |
| AiFallback.PriceRangeOf | src/lib/ai-fallback.js:179-186 | budget words win over luxury words, which win over mid-range words; each range is chosen exactly when that holds |
| AiFallback.CategorizeEmailFallback | src/lib/ai-fallback.js:130-197 | the language is the heuristic guess and the topics follow the category; the category and price range follow their precedence rules; urgency is high exactly on an urgent word and low exactly on a question word without one; sentiment is positive exactly on a thanking word and negative exactly on a complaint word without one; specific dates are flagged exactly on a date pattern or the month name |
| AiFallback.GeneralMeansNoCategoryWord | src/lib/ai-fallback.js:141-157 | the category is `general` exactly when no category keyword occurs in the lower-cased text |
| AiFallback.UnspecifiedPriceMeansNoPriceWord | src/lib/ai-fallback.js:179-186 | the price range stays `not-specified` exactly when no price keyword occurs |
| AiClaude.PromptExcerpt | src/lib/ai-claude.js:27 | the prompt quotes the first 500 characters of the text, or all of a shorter one |
| AiClaude.DetectLanguageClaude | src/lib/ai-claude.js:10-36 | the heuristic guess (pl, en or de) when the call throws; otherwise the answer trimmed and lower-cased, so without outer white space and no longer than it |
| AiClaude.ReplyLanguageName | src/lib/ai-claude.js:48 | `pl` asks for Polish, `en` for English, any other code for German |
| AiClaude.GenerateResponseClaude | src/lib/ai-claude.js:39-71 | the model's text, or the heuristic reply in the requested language when the call throws |
| AiClaude.JsonSpan | src/lib/ai-claude.js:102 | the match of `/\{[\s\S]*\}/`: from the first `{` to the last `}` |
| AiClaude.JsonSpanIff | src/lib/ai-claude.js:102-105 | a span is found exactly when some `{` precedes some `}` |
| AiClaude.JsonSpanIsGreedy | src/lib/ai-claude.js:102 | the span starts at the first `{`, ends at the last `}`, and is the text between them |
| AiClaude.CategorizeEmailClaude | src/lib/ai-claude.js:74-115 | the parsed span; the heuristic categorisation when the call throws, no span is found, or parsing fails |
| AiClaude.HeuristicCategoryHasNoDetectedLanguage | src/lib/ai-claude.js:106-114 | when the call throws or no JSON span is found, the record has no `detectedLanguage` and its language is the heuristic guess |
| AiClaude.TestClaudeConnection | src/lib/ai-claude.js:118-141 | success with the reply, or failure with the error message; the fast model is named either way |
| AiProviders.ConfiguredProvider | src/lib/ai.js:11 | an unset or empty `AI_PROVIDER` means `auto` |
| AiProviders.GetAvailableProvider | src/lib/ai.js:219-243 | `fallback` when configured so; a configured provider only with its key; a model provider is never chosen without its key |
| AiProviders.MissingKeyFallsThroughToAuto | src/lib/ai.js:219-243 | any configuration other than `fallback` whose provider has no key gives the automatic choice: Claude, then OpenAI, then the heuristics |
| AiProviders.NoKeysMeansFallback | src/lib/ai.js:233-242 | without any key every configuration ends in the heuristics |
| AiProviders.TablesCoverKnownLanguages | src/lib/ai.js:532-572 | the template and signature tables cover exactly pl, en, de, fr, es, it, ru |
| AiProviders.LocalizedTemplate | src/lib/ai.js:532-544 | the language's opening line, English for an unknown code |
| AiProviders.LocalizedSignature | src/lib/ai.js:546-558 | the language's signature; for an unknown code the configured signature if non-empty, else English |
| AiProviders.DefaultSignatureOnlyForUnknownLanguages | src/lib/ai.js:557 | the configured signature is used exactly for unknown languages, and only when non-empty |
| AiProviders.SubjectPrefix | src/lib/ai.js:561-571 | `AW:` exactly for German, `Re:` otherwise |
| AiProviders.LocalizedSubject | src/lib/ai.js:560-573 | the prefix, one space, then the original subject unchanged |
| AiProviders.SubjectPrefixedTwice | src/lib/ai.js:572 | the prefix is not idempotent: a reply to a reply carries it twice |
| AiProviders.LoyaltyLabel | src/lib/ai.js:351 | VIP above 0.7, returning above 0.3, new otherwise |
| AiProviders.Round | src/lib/ai.js:388 | `Math.round` lies within half a unit of its argument, halves rounding up |
| AiProviders.PurchaseContextFor | src/lib/ai.js:386-405 | no purchase block without a prediction; the high block needs more than 80 percent, the medium block 61 to 80 |
| AiProviders.PurchaseContextThresholds | src/lib/ai.js:388-398 | because of rounding, the high block starts at probability 0.805 and the medium block at 0.605 |
| AiProviders.SentimentContextFor | src/lib/ai.js:364-383 | empathy for negative or frustrated clients; proactive selling for positive or excited clients otherwise |
| AiProviders.PromptLanguage | src/lib/ai.js:417-418 | a known language keeps its prompt; an unknown one falls back to English |
| AiProviders.EnhancedPromptPlan | src/lib/ai.js:348-418 | the prompt carries a client block exactly when a profile is given, with its returning flag and loyalty label, plus the sentiment and purchase blocks; it asks for the reply in the language the code names, and for recommendations exactly when some are given |
| AiProviders.DetectLanguageOpenAI | src/lib/ai.js:28-59 | the answer trimmed and lower-cased, or the heuristic guess when the call throws |
| AiProviders.DetectLanguage | src/lib/ai.js:14-25 | each provider's detector answers: the heuristics (always `pl`, `en` or `de`), Claude's normalised answer or OpenAI's, each with its own fallback |
| AiProviders.HeuristicReply | src/lib/ai.js:85-95 | the heuristic reply is in the heuristically detected language and marked as fallback |
| AiProviders.GenerateResponse | src/lib/ai.js:62-164 | the heuristic reply for the heuristics or a failed OpenAI call; Claude's reply (or its fallback text) tagged `claude` in Claude's detected language; OpenAI's answer tagged `openai` in OpenAI's detected language; the fallback flag only for heuristic replies |
| AiProviders.ClaudeOutageGivesHeuristicText | src/lib/ai.js:68-81 | when both Claude calls fail, the reply text is the heuristic one, still tagged `claude` |
| AiProviders.CategorizeEmailOpenAI | src/lib/ai.js:181-216 | a failed call or an answer that does not parse gives the heuristic categorisation; a parsed answer is kept as sent, with `detectedLanguage` set to the detected language |
| AiProviders.CategorizeEmail | src/lib/ai.js:167-178 | dispatch: the heuristics, Claude's categoriser or OpenAI's categoriser, each exactly for its provider |
| AiProviders.DetectedLanguageOnlyFromOpenAI | src/lib/ai.js:167-216 | a heuristic categorisation, directly or after a failed model call, carries no `detectedLanguage` |
| AiAdvanced.DeterminePriority | src/lib/ai-advanced.js:200-223 | URGENT exactly for angry or frustrated clients; then HIGH, MEDIUM or LOW by urgency and purchase probability, each band with its exact condition |
| AiAdvanced.PriorityMonotoneInProbability | src/lib/ai-advanced.js:200-223 | a higher purchase probability never lowers the priority |
| AiAdvanced.DefaultsGiveMedium | src/lib/ai-advanced.js:200-223 | the results of failed sentiment and prediction analyses together give MEDIUM |
| AiAdvanced.CheckEscalationCriteria | src/lib/ai-advanced.js:226-277 | escalate exactly when some reason was recorded; the reasons are the ones whose triggers fire |
| AiAdvanced.TotalBookingValue | src/lib/ai-advanced.js:250 | the running total is the sum of the booking values |
| AiAdvanced.SomeComplexKeyword | src/lib/ai-advanced.js:262-265 | true exactly when some complex keyword occurs in the lower-cased content |
| AiAdvanced.ReasonsInCheckOrder | src/lib/ai-advanced.js:226-270 | reasons appear in check order, so none appears twice |
| AiAdvanced.ReasonTriggers | src/lib/ai-advanced.js:230-270 | each reason is present exactly when its trigger fires; the number of reasons is the number of triggers firing |
| AiAdvanced.FailedLookupAddsNothing | src/lib/ai-advanced.js:243-259 | a failed profile lookup gives the same reasons as a missing profile |
| AiAdvanced.NoContentNoComplexQuery | src/lib/ai-advanced.js:262-265 | without email content the complex-query reason never appears |
| AiAdvanced.EngagementBoost | src/lib/ai-advanced.js:285 | 0.1 for a response time under 2 or `null` (which compares as 0), otherwise 0.05, a left-out time included |
| AiAdvanced.NextEngagement | src/lib/ai-advanced.js:292 | the new engagement is the old one plus the boost, capped at 1.0 |
| AiAdvanced.EngagementStaysInRangeAndGrows | src/lib/ai-advanced.js:285-292 | a score in [0, 1] stays in [0, 1] and never decreases |
| AiAdvanced.EngagementIgnoresSentiment | src/lib/ai-advanced.js:286-297 | the interaction's sentiment does not affect the stored profile |
| AiAdvanced.UpdatedProfile | src/lib/ai-advanced.js:289-297 | the engagement is raised; a given response time or language is written, `null` clears it and a left-out one keeps the stored value; the other fields are kept |
| AiAdvanced.ClientStore.GetOrCreateClientProfile | src/lib/ai-advanced.js:157-184 | the stored profile if one exists, else a new zero-score profile that is stored |
| AiAdvanced.ClientStore.UpdateClientProfile | src/lib/ai-advanced.js:280-310 | the stored (or new) profile becomes the updated one, and one EMAIL interaction is logged, with outcome `no-action` by default |
| AiAdvanced.NewAlert | src/lib/ai-advanced.js:433-447 | the alert is PURCHASE_READY, URGENT, active, unresolved, and carries the readiness figures |
| AiAdvanced.NotifyPurchaseReadyClient | src/lib/ai-advanced.js:426-475 | an alert is stored exactly when the client is ready with a score of at least 0.8; it is returned only if the notification went out |
| AiAdvanced.GateBoundary | src/lib/ai-advanced.js:428 | the gate is inclusive: a ready client scored exactly 0.8 passes |
| AiAdvanced.DefaultReadinessRaisesNoAlert | src/lib/ai-advanced.js:407-422 | a failed readiness analysis never raises an alert |
| ProcessRoute.PriorityOverrideIff | src/app/api/email/process/route.js:59-62 | URGENT exactly for an upset client or a ready client scored above 0.8; otherwise the computed priority |
| ProcessRoute.OverrideStricterThanAlertGate | src/app/api/email/process/route.js:60 | at exactly 0.8 a ready client gets an alert but no priority override |
| ProcessRoute.ComplaintAloneNeverEscalates | src/app/api/email/process/route.js:112 | as written, a complaint without another trigger never escalates |
| ProcessRoute.ComplaintEscalatesWithContent | src/lib/ai-advanced.js:262-270 | with the content passed, a complaint keyword adds the complex-query reason and keeps every other reason |
| ProcessRoute.UrgentActions | src/app/api/email/process/route.js:158 | `slice(0, 2)`: the first two actions, or all of them when there are fewer |
| ProcessRoute.EnhancedResponse | src/app/api/email/process/route.js:151-160 | the reply extended by the upsell block and/or the offer block; unchanged exactly when neither applies |
| ProcessRoute.SummaryLanguage | src/app/api/email/process/route.js:87 | as written: the summary has a language tag exactly when the categorisation has a `detectedLanguage` |
| ProcessRoute.HeuristicCategoryBreaksSummary | src/app/api/email/process/route.js:87 | as written: a heuristic categorisation makes the summary step throw |
| ProcessRoute.IntendedSummaryLanguage | src/app/api/email/process/route.js:87 | corrected: the detected language when there is one |
| ProcessRoute.IntendedSummaryCoversHeuristics | src/app/api/email/process/route.js:87 | corrected: a heuristic categorisation shows its own language, upper-cased |
| ProcessRoute.FinalEmail | src/app/api/email/process/route.js:173-182 | status ESCALATED exactly when escalated, RESPONDED otherwise; `responded` is the negation of escalation |
| ProcessRoute.FinalConversation | src/app/api/email/process/route.js:114-121 | escalated and URGENT exactly when the email escalates; the created row is otherwise unchanged |
| ProcessRoute.ReportedPriorityIsPreEscalation | src/app/api/email/process/route.js:204-209 | the response reports the priority before escalation, while the stored conversation says URGENT |
| ProcessRoute.OpenConversation | src/app/api/email/process/route.js:76-134 | one conversation row (the escalated form when it escalates), one CLIENT message, an alert exactly when the gate opens, and the route's reasons |
| ProcessRoute.StoreReply | src/app/api/email/process/route.js:136-194 | the AGENT message holds the enhanced reply, the email row is finalised, and an auto-reply is sent exactly when due and the transport works |
| ProcessRoute.AnswerNewEmail | src/app/api/email/process/route.js:76-218 | for a freshly stored email: the final email row, one conversation, the CLIENT and AGENT messages, an alert exactly when the gate opens, the auto-reply exactly when due and sendable, and the response fields (500 when sending fails) |
| ProcessRoute.ProcessEmail | src/app/api/email/process/route.js:16-226 | a known `messageId` changes nothing; otherwise the sender's profile is created when missing, the email is stored, and either the summary step throws (500, email left PROCESSING) or every table ends as the pipeline prescribes; no client interaction is logged |
| FetchRoute.ConversationPriority | src/app/api/email/fetch/route.js:97 | high and low are copied from the urgency; anything else is medium |
| FetchRoute.PurchaseProbability | src/app/api/email/fetch/route.js:99 | 0.8 exactly for luxury, 0.3 exactly for budget, 0.5 otherwise |
| FetchRoute.FinalStatus | src/app/api/email/fetch/route.js:106-181 | `responded` when a reply exists and was sent, `send_error` when sending failed, `no_response` without a reply |
| FetchRoute.StoredEmail | src/app/api/email/fetch/route.js:56-181 | the stored row is processed, with the final status, `responded` only when sent, and the reply when one exists |
| FetchRoute.Step | src/app/api/email/fetch/route.js:41-203 | a known message changes nothing; a failed save adds only an error entry; otherwise one email, one conversation and one entry reporting status `new` |
| FetchRoute.RunAppendsEntries | src/app/api/email/fetch/route.js:41-204 | the loop only appends, at most one entry and one email per message, and every entry reports its creation status |
| FetchRoute.RunKeepsKeysUnique | src/app/api/email/fetch/route.js:45-68 | the loop keeps `messageId` unique in the email table |
| FetchRoute.SecondCopyIsSkipped | src/app/api/email/fetch/route.js:45-53 | a message fetched twice in one batch is stored and reported once |
| FetchRoute.MarkAsReadIsIrrelevant | src/app/api/email/fetch/route.js:149-155 | whether marking the message as read succeeds changes nothing |
| FetchRoute.StoreAndAnswer | src/app/api/email/fetch/route.js:55-192 | one stored email and one conversation are appended, and the entry reports them |
| FetchRoute.ProcessBatch | src/app/api/email/fetch/route.js:39-204 | the loop leaves the tables and the entries the specification function gives |
| FetchRoute.FetchEmails | src/app/api/email/fetch/route.js:7-227 | missing configuration or a failed mailbox read fails without changes; an empty mailbox reports nothing new; otherwise the loop's tables and a report counting its entries |
| FetchRoute.ReportBounds | src/app/api/email/fetch/route.js:206-213 | processed ≤ total ≤ fetched, and every entry reports its creation status |
| Mail.FirstHeaderIsFirstMatch | src/lib/email.js:98-102 | `find` returns the value of the first header with that exact name, and nothing only when there is none |
| Mail.LaterHeaderIsIgnored | src/lib/email.js:99 | a repeated header never displaces the first one |
| Mail.FirstTextPart | src/lib/email.js:106-108 | the part found is `text/plain` and in the list; none only when no part is `text/plain` |
| Mail.ParseGmailMessage | src/lib/email.js:97-126 | id, thread id and snippet are copied |
| Mail.ParsedHeadersAreFirstMatches | src/lib/email.js:98-102 | each of subject, from, to and date is the value of a header with that name, and empty when there is none |
| Mail.PartsShadowPayloadBody | src/lib/email.js:105-114 | once parts exist, the payload body is never read; without a `text/plain` part the body is empty |
| Mail.OnlyFirstTextPartIsRead | src/lib/email.js:105-111 | a later `text/plain` part with data is not used when the first has none |
| Mail.NoPartsReadsPayloadBody | src/lib/email.js:112-114 | without parts, the body is the decoded payload body, or empty without data |
| Mail.SendEmail | src/lib/email.js:17-33 | answers exactly when the transport answers, with success and the transport's message id; otherwise throws |
| Mail.SendNeverReportsFailure | src/lib/email.js:27-32 | every answer from sending reports `success: true`; failure shows only as a thrown error |
| Mail.FetchAll | src/lib/email.js:78-88 | every listed message is fetched and parsed in order; one failed fetch fails the whole batch |
| Mail.GetGmailMessages | src/lib/email.js:64-95 | a failed listing throws; a listing without messages gives the empty list |
| Mail.ListedMessagesAreParsedInOrder | src/lib/email.js:78-90 | one parsed message per listed id, with that id, in listing order, or a failure |
| EmailsRoute.TextOr | src/app/api/emails/route.js:7-8 | a present non-empty parameter, else the default |
| EmailsRoute.NumOr | src/app/api/emails/route.js:9-10 | an absent parameter gives the default; NaN is the only failure |
| EmailsRoute.BuildWhere | src/app/api/emails/route.js:14-26 | the status constraint is absent exactly for `all` |
| EmailsRoute.MatchesMeaning | src/app/api/emails/route.js:16-26 | a row matches exactly when the search text occurs in sender, subject or content, ASCII letters compared without case, and the status agrees |
| EmailsRoute.ExactOccurrenceIsFound | src/app/api/emails/route.js:16-22 | a sender that contains the search text exactly is always found: folding case only widens the search |
| EmailsRoute.CapitalsFindSmallLetters | src/app/api/emails/route.js:16-22 | a search in capitals (`HOTEL`) finds a sender written in small letters |
| EmailsRoute.StatusAllKeepsEveryStatus | src/app/api/emails/route.js:24-26 | no status parameter means no status constraint |
| EmailsRoute.NewerFirstIsTotalPreorder | src/app/api/emails/route.js:31 | ordering by `createdAt` descending is a total preorder |
| EmailsRoute.Ordered | src/app/api/emails/route.js:29-31 | exactly the matching rows, each as often as stored |
| EmailsRoute.OrderedIsNewestFirst | src/app/api/emails/route.js:31 | the rows are ordered newest first |
| EmailsRoute.Window | src/app/api/emails/route.js:32-33 | `skip`/`take` yields at most `|take|` rows, all taken from the ordering |
| EmailsRoute.RowIsOnItsPage | src/app/api/emails/route.js:11 | with a positive limit, row `i` appears on page `i / limit + 1` at position `i % limit` |
| EmailsRoute.Pages | src/app/api/emails/route.js:67 | no page count exactly for a zero limit; never positive for a negative limit |
| EmailsRoute.PagesAreExactlyEnough | src/app/api/emails/route.js:67 | with a positive limit the pages hold every row and none is empty; zero pages exactly for zero rows |
| EmailsRoute.StatsOf | src/app/api/emails/route.js:51-57 | the total counts the request's filter; each of the four status counts (pending, processed, responded, failed) replaces the requested status by its own |
| EmailsRoute.StatsIgnoreRequestedStatus | src/app/api/emails/route.js:53-56 | only the total depends on the requested status |
| EmailsRoute.NoRowCountedUnderOtherStatus | src/app/api/emails/route.js:53-56 | a status no row carries is counted zero times |
| EmailsRoute.UpperCaseStatusesAreNeverCounted | src/app/api/emails/route.js:53-56 | rows written by the process route never show up in the four status counts |
| EmailsRoute.GetEmails | src/app/api/emails/route.js:4-78 | 500 exactly for a NaN page or limit or a negative offset; otherwise the page and limit asked for (1 and 10 by default), the window of the newest-first matching rows that skip and take select, the statistics for the filter, and a total equal to the match count, with its page count |
| EmailsRoute.DefaultIsFirstTenNewest | src/app/api/emails/route.js:7-11 | with no parameters, the ten newest rows of the whole table, in order |
| PurchaseAlerts.Resolve | src/app/api/purchase-alerts/route.js:133-143 | resolved, inactive, stamped `manual` and now; notes given or cleared; `updatedAt` is now; nothing else changes |
| PurchaseAlerts.Snooze | src/app/api/purchase-alerts/route.js:152-160 | inactive with the given or default notes; the resolution is untouched |
| PurchaseAlerts.Reactivate | src/app/api/purchase-alerts/route.js:169-178 | active and unresolved with the given or default notes; the resolution stamp stays |
| PurchaseAlerts.BuildWhere | src/app/api/purchase-alerts/route.js:8-29 | a priority parameter constrains to that priority; without one, and with a status other than `urgent`, there is no priority constraint |
| PurchaseAlerts.StatusFilterMeaning | src/app/api/purchase-alerts/route.js:14-24 | which alerts each status filter selects, any other status selecting all |
| PurchaseAlerts.PriorityParameterOverridesStatus | src/app/api/purchase-alerts/route.js:26-29 | with `urgent` and a priority parameter, the parameter's priority is selected instead of URGENT |
| PurchaseAlerts.SnoozedAlertIsHidden | src/app/api/purchase-alerts/route.js:152-160 | a snoozed, unresolved alert appears in no status view |
| PurchaseAlerts.ReactivatedAlertIsActive | src/app/api/purchase-alerts/route.js:169-178 | a reactivated alert is in the active view whatever its previous state |
| PurchaseAlerts.PriorityStringOrder | src/app/api/purchase-alerts/route.js:48 | descending code-point order puts URGENT, MEDIUM, LOW, HIGH |
| PurchaseAlerts.AlertOrderIsTotalPreorder | src/app/api/purchase-alerts/route.js:47-51 | priority, then readiness score, then creation time, all descending, is a total preorder |
| PurchaseAlerts.ParseLimit | src/app/api/purchase-alerts/route.js:10 | a given non-zero limit is kept; the limit is never zero |
| PurchaseAlerts.ListAlerts | src/app/api/purchase-alerts/route.js:32-53 | exactly as many matching alerts as the limit's magnitude allows (all of them when fewer match), each drawn from the matching ones |
| PurchaseAlerts.ListAlertsIsBestFirst | src/app/api/purchase-alerts/route.js:47-52 | the list is ordered, and no matching alert left out outranks a listed one |
| PurchaseAlerts.Stats | src/app/api/purchase-alerts/route.js:56-79 | the per-priority counts, the total value and the average score are over active unresolved alerts, `resolved` counts resolved ones, and the total and average are 0 when no alert is active |
| PurchaseAlerts.NewAlertAddsToTotal | src/app/api/purchase-alerts/route.js:69-72 | a new active alert adds its estimated value to the total value; an inactive or resolved one leaves it |
| PurchaseAlerts.SumScoreBounds | src/app/api/purchase-alerts/route.js:76-79 | scores in [0, 1] sum to between 0 and the number of alerts |
| PurchaseAlerts.AverageScoreBounded | src/app/api/purchase-alerts/route.js:76-79 | the average readiness score stays in [0, 1] |
| PurchaseAlerts.ActiveWithIgnoresInactive | src/app/api/purchase-alerts/route.js:57-65 | appending an inactive alert leaves every per-priority selection unchanged |
| PurchaseAlerts.InactiveAlertNotCounted | src/app/api/purchase-alerts/route.js:56-79 | an inactive alert changes only the `resolved` count |
| PurchaseAlerts.AlertTable.Create | src/lib/ai-advanced.js:433-447 | the alert is appended with the next id |
| PurchaseAlerts.AlertTable.Post | src/app/api/purchase-alerts/route.js:129-199 | a known action on an existing alert applies that transition to it alone; an unknown action is a 400 and a missing alert a 500, both without change |
| Knowledge.Param | src/app/api/knowledge/route.js:12-16 | a parameter counts only when present and non-empty |
| Knowledge.NewerFirstIsTotalPreorder | src/app/api/knowledge/route.js:26 | ordering by `updatedAt` descending is a total preorder |
| Knowledge.ListKnowledge | src/app/api/knowledge/route.js:4-29 | exactly the active entries matching the category and search, taken from the stored rows, with the search hitting title or content case-insensitively or naming a tag (the intended listing; see Findings) |
| Knowledge.GetKnowledge | src/app/api/knowledge/route.js:4-35 | as written: 500 exactly when a non-empty search is given; otherwise the listing |
| Knowledge.SearchByTitleFails | src/app/api/knowledge/route.js:16-22 | an active entry searched by its own title is what the intended listing returns, while GET as written fails |
| Knowledge.ListKnowledgeIsNewestFirst | src/app/api/knowledge/route.js:24-27 | the list is ordered by `updatedAt`, newest first |
| Knowledge.SearchIgnoresCaseOnText | src/app/api/knowledge/route.js:16-22 | a title containing the search in any letter case is a hit for it |
| Knowledge.InactiveNeverListed | src/app/api/knowledge/route.js:10 | an inactive entry is never listed |
| Knowledge.IndexOfId | src/app/api/knowledge/route.js:69-70 | the entry found has the id; none only when no entry has it |
| Knowledge.Overwritten | src/app/api/knowledge/route.js:69-77 | every given field is written; text fields left out are kept, tags left out become empty, `isActive` left out becomes true; id and creation time are kept and `updatedAt` is now |
| Knowledge.UpdateWithoutFlagReactivates | src/app/api/knowledge/route.js:76 | an update without `isActive` brings a hidden entry back |
| Knowledge.RemoveAtDropsId | src/app/api/knowledge/route.js:96-98 | with unique ids, removing the entry drops exactly the rows with that id |
| Knowledge.KnowledgeTable.Create | src/app/api/knowledge/route.js:38-61 | a new active entry with tags defaulting to empty, appended with the next id |
| Knowledge.KnowledgeTable.Update | src/app/api/knowledge/route.js:63-89 | the entry with the id is overwritten in place; an unknown id is a 500 without change |
| Knowledge.KnowledgeTable.Delete | src/app/api/knowledge/route.js:91-107 | exactly the entry with the id is removed; an unknown id is a 500 without change |
| Learning.SomeHit | src/app/api/learning/route.js:143-151 | some word occurs in the question or equals a supplied keyword |
| Learning.DeterminePriority | src/app/api/learning/route.js:136-156 | high exactly when a high word hits; medium when a medium word hits and no high word does; low otherwise |
| Learning.QuestionBySubstringKeywordsByEquality | src/app/api/learning/route.js:143-145 | the question is searched for the word, while a supplied keyword must equal it |
| Learning.OrDefault | src/app/api/learning/route.js:21-22 | a present non-empty value, else the default |
| Learning.NewEntry | src/app/api/learning/route.js:17-28 | a pending entry with category `unknown` and language `pl` by default, and the computed priority |
| Learning.ResolvedEntry | src/app/api/learning/route.js:95-102 | resolved and stamped; an answer left out keeps the stored one |
| Learning.FaqTitle | src/app/api/learning/route.js:108 | `FAQ: `, at most 50 characters of the question, then `...` |
| Learning.QueueOrderIsTotalPreorder | src/app/api/learning/route.js:57-60 | priority then creation time, both descending, is a total preorder |
| Learning.HighPriorityListedLast | src/app/api/learning/route.js:57-58 | descending string order lists medium before low before high |
| Learning.ParseLimit | src/app/api/learning/route.js:53 | a missing, unparsable or zero limit means 10 |
| Learning.ListQueue | src/app/api/learning/route.js:49-62 | exactly as many entries with the requested status (pending by default) as the limit's magnitude allows, all of them when fewer match |
| Learning.ListQueueIsBestFirst | src/app/api/learning/route.js:55-62 | the list is in queue order and nothing left out outranks a listed entry |
| Learning.CountStatus | src/app/api/learning/route.js:65-67 | the number of entries with that status |
| Learning.StatusCounts | src/app/api/learning/route.js:65-76 | each status present in the queue, mapped to its number of entries |
| Learning.LearningQueue.Enqueue | src/app/api/learning/route.js:5-37 | the new entry is appended with the next id |
| Learning.LearningQueue.Resolve | src/app/api/learning/route.js:90-124 | an unknown id changes nothing; otherwise the entry is resolved, and a knowledge entry is added exactly when asked and the answer is non-empty |
| Learning.EmptyAnswerIsNotPromoted | src/app/api/learning/route.js:105-123 | an empty answer adds no knowledge entry, though the response reports `addedToKnowledge` |
| Dashboard.Lookup | src/app/api/dashboard/enhanced-stats/route.js:221-222 | 0 for a key no entry holds; otherwise the count of the first entry holding the key |
| Dashboard.ThreeKeysWithinTotal | src/app/api/dashboard/enhanced-stats/route.js:221-223 | three different keys never add up to more than the total |
| Dashboard.BreakdownOf | src/app/api/dashboard/enhanced-stats/route.js:63-77 | every present key once, with its number of rows |
| Dashboard.Present | src/app/api/dashboard/enhanced-stats/route.js:67 | exactly the non-null values, never more of them than the input holds |
| Dashboard.PresentAppend | src/app/api/dashboard/enhanced-stats/route.js:67 | the order is kept: the values of a first part come before those of a second part |
| Dashboard.TenthIsDetermined | src/app/api/dashboard/enhanced-stats/route.js:166 | only one whole number of tenths lies within half a tenth (upper end included) of a value, so the rounding is determined |
| Dashboard.RoundToTenth | src/app/api/dashboard/enhanced-stats/route.js:166 | a whole number of tenths within half a tenth of the value (with `TenthIsDetermined`: the nearest tenth, halves rounded up) |
| Dashboard.AverageResponseTime | src/app/api/dashboard/enhanced-stats/route.js:124-129 | 0 without answered emails; otherwise a whole number of tenths of an hour within half a tenth of the mean |
| Dashboard.LeadBandsDisjoint | src/app/api/dashboard/enhanced-stats/route.js:35-49 | the high and medium lead counts together never exceed the conversations |
| Dashboard.MoodInsight | src/app/api/dashboard/enhanced-stats/route.js:220-239 | a warning above 30 percent negative; otherwise success above 60 percent positive; at most one |
| Dashboard.LeadInsight | src/app/api/dashboard/enhanced-stats/route.js:241-256 | an opportunity above 5 leads, information above 2, nothing otherwise |
| Dashboard.TopLanguages | src/app/api/dashboard/enhanced-stats/route.js:261-264 | the three most requested languages (all of them when fewer), in that order, upper-cased |
| Dashboard.LanguageInsight | src/app/api/dashboard/enhanced-stats/route.js:258-272 | one insight exactly when more than three languages occur |
| Dashboard.TopLanguagesAreMostFrequent | src/app/api/dashboard/enhanced-stats/route.js:261-263 | no language left out has more requests than a listed one |
| Dashboard.BusiestBelow | src/app/api/dashboard/enhanced-stats/route.js:281-282 | the earliest hour with the most conversations |
| Dashboard.PeakInsight | src/app/api/dashboard/enhanced-stats/route.js:274-291 | reported exactly when the busiest hour holds more than a fifth of the conversations |
| Dashboard.Truthy | src/app/api/dashboard/enhanced-stats/route.js:295 | exactly the probabilities that are set and non-zero |
| Dashboard.AverageProbability | src/app/api/dashboard/enhanced-stats/route.js:294-296 | no value (NaN) exactly when no conversation has a truthy probability |
| Dashboard.TrendInsight | src/app/api/dashboard/enhanced-stats/route.js:293-312 | success above 0.6, warning below 0.3, nothing in between or for NaN |
| Dashboard.ClientInsight | src/app/api/dashboard/enhanced-stats/route.js:314-322 | one insight exactly when there is a client |
| Dashboard.AtMostSixInsights | src/app/api/dashboard/enhanced-stats/route.js:324 | the six rules produce at most six insights, so the cut to six never drops one |
| Dashboard.PeakInsightFromCount | src/app/api/dashboard/enhanced-stats/route.js:281-284 | the counted peak gives the same insight as the specification of the busiest hour |
| Dashboard.CountHours | src/app/api/dashboard/enhanced-stats/route.js:275-279 | each hour's slot holds its number of conversations |
| Dashboard.PeakHour | src/app/api/dashboard/enhanced-stats/route.js:281-282 | the loop finds the earliest busiest hour and its count |
| Dashboard.PeakPart | src/app/api/dashboard/enhanced-stats/route.js:274-291 | the counted peak-hour push equals the peak-hour rule |
| Dashboard.FirstSix | src/app/api/dashboard/enhanced-stats/route.js:324 | `slice(0, 6)`: the first six, or all when fewer |
| Dashboard.GenerateAIInsights | src/app/api/dashboard/enhanced-stats/route.js:217-325 | the insights are exactly the rules' outputs in rule order |
| Settings.Member | src/app/api/settings/route.js:116 | an object's member when present; nothing for other values |
| Settings.DefaultsHaveEverySection | src/app/api/settings/route.js:10-75 | the defaults carry every required section |
| Settings.FirstMissingIndex | src/app/api/settings/route.js:114-122 | the first section, in order, that is absent or falsy; none only when all are there |
| Settings.FirstMissing | src/app/api/settings/route.js:114-122 | the name of the first required section, in order, that is absent or falsy; none only when all are there |
| Settings.EffectiveEmail | src/app/api/settings/route.js:87-91 | the default email section with the stored signature when non-empty and the stored auto-reply flag when set |
| Settings.GetSettings | src/app/api/settings/route.js:4-98 | the defaults when nothing is stored; otherwise every default and stored section, the stored ones winning, with the effective email section |
| Settings.StoredEmailFieldsIgnored | src/app/api/settings/route.js:84-92 | whatever email fields the stored JSON holds, GET reports the same email section |
| Settings.PutSection | src/app/api/settings/route.js:215-219 | the key is set in an object section, a missing or falsy section starting empty; an array section is updated as JavaScript does it; fails on a string, number or `true` section, and on an array length JavaScript refuses |
| Settings.ArrayPut | src/app/api/settings/route.js:218 | an index key sets that element, growing the array with `null` holes; `length` resizes it, failing on a length that is not a whole number below 2^32; any other key leaves the saved array as it was |
| Settings.Resized | src/app/api/settings/route.js:218 | the array cut to the new length, or padded with `null` |
| Settings.LengthValue | src/app/api/settings/route.js:218 | a length is accepted exactly when it is a whole number below 2^32, and then is that number |
| Settings.RenderedIndexIsIndexKey | src/app/api/settings/route.js:218 | every index below 2^32 - 1 written in decimal is an index key naming that index |
| Settings.SettingsTable.Post | src/app/api/settings/route.js:109-197 | a missing section is a 400 without change; otherwise the JSON and the two columns are stored, and the answer is a 500 after the write exactly when one of the four values copied to the environment is `null` |
| Settings.SettingsTable.Put | src/app/api/settings/route.js:200-252 | the stored object gets the key set in the section, starting over from an empty object when the stored JSON is corrupt |
| Settings.PostThenGet | src/app/api/settings/route.js:84-92 | after a successful POST, GET reports every section except `email` as sent |
| Settings.PutOnCorruptDropsOtherSections | src/app/api/settings/route.js:205-219 | with a corrupt stored row, PUT starts from `{}`, so only the updated section survives |

## Left out

- Language model calls (OpenAI, Claude): their answers are inputs (`Outcome` values), and prompt wording is not modelled beyond the blocks the prompt plan selects.
- `analyzeSentiment`, `predictPurchaseProbability`, `generatePersonalizedRecommendations` and `detectPurchaseReadyClient` are model calls: their results are inputs, and only their failure defaults are modelled.
- `getRelevantKnowledge`, `getHotelInfo` and `getAttractionInfo` only feed prompt text; they are not modelled.
- `getFallbackResponse` in `src/lib/ai.js` is never called and is not modelled; `getProviderStatus` only reports environment flags.
- `logPrediction` and `logPurchaseReadiness` only write log rows.
- `notifyHumanAgents`, the e-mail, SMS and Slack notification bodies, and their HTML: message text and delivery are outside the model. Whether a notification went out is an input.
- `setupGmailWebhook` registers a push subscription with Google and has no logic to model.
- Base64 decoding is a parameter (`decode`) of `Mail.ParseGmailMessage`; the SMTP transport, the Gmail API and the IMAP client are inputs (`Outcome` values).
- The IMAP client in `src/lib/email-imap.js` is not part of this model; the fetch route receives its result as an input.
- Writes to `process.env` in `POST /api/settings` change the running process only; their values are not modelled. What they do to the answer is: a `null` value reaches `.toString()` and the route answers 500 after the row is written (`SavedButFailed`).
- Database failures other than those the routes handle explicitly (a missing row on update or delete) are not modelled. This includes the catch paths of `getOrCreateClientProfile` and `updateClientProfile`.
- The dashboard's database counts (lines 11-23, 149-155), its purchase-probability aggregate, its recent-emails query and its fallback payload (lines 184-214) are plain queries; the week window and time zones (`getHours`) are inputs (hours are given per conversation).
- Clock readings are parameters (`now`); ids are positions in the tables.
- Concurrency between requests is not modelled: each route runs alone against the tables.
- Floating point is modelled by exact reals; `Math.round` is `floor(x + 0.5)`.
- `toLowerCase` and `toUpperCase` are modelled for ASCII, Latin-1 (with ÿ/Ÿ and the micro sign, whose
  capital is the Greek mu) and the Polish letters only.
- Text.Upper: `ß` stays as it is, where JavaScript writes the two letters `SS`, because the model maps one
  character to one character.
- Text.Lower: other scripts (Cyrillic, for instance) keep their case in the model, because full Unicode case mapping is not modelled.
- ProcessRoute.ProcessEmail: a failed database write after the email row exists is not modelled; only the summary failure and a failed auto-reply send produce the 500 answer.
- ProcessRoute.ProcessEmail: the profile lookup of the escalation check is an input. It is not tied to the stored profile the route has just created or read, because the client's bookings it sums are not part of this model.
- Settings.PutSection: setting `length` on an array section from a value that is not a number (which JavaScript converts, `true` to 1 for instance) is modelled as a failure. A `__proto__` key is treated as an ordinary key.
- EmailsRoute.SearchHit: `contains` without `mode` is modelled as SQLite's `LIKE`, the default store (`file:./prisma/dev.db`), which ignores the case of ASCII letters only. On a store whose `contains` is case-sensitive (PostgreSQL, for instance) fewer rows match; `EmailsRoute.MatchesMeaning` states the SQLite reading.
- Knowledge.Overwritten, PurchaseAlerts.Resolve: `updatedAt` is taken to be refreshed by the store on every update (a Prisma `@updatedAt` column), since the knowledge listing orders by it and the dashboard measures response times with it while those routes never write it. The schema is not part of this model; without `@updatedAt` both would keep the old stamp.
- The `include` clauses of the store queries (joined conversation and email details) do not change which rows are selected, and are not modelled.

## Findings

| source | as written | input that shows it | evidently intended | confidence | as-written member | corrected member |
|---|---|---|---|---|---|---|
| src/app/api/email/process/route.js:87 | the summary calls `emailCategory.detectedLanguage.toUpperCase()`, but only a successful OpenAI categorisation sets `detectedLanguage` | provider `fallback` (or Claude, or a failed OpenAI call) and any email: the call throws, the route answers 500 after storing the email as PROCESSING, and a retry is skipped as already processed | the summary shows the language of whatever categorisation was used | high, not executed | ProcessRoute.HeuristicCategoryBreaksSummary | ProcessRoute.IntendedSummaryCoversHeuristics |
| src/app/api/email/process/route.js:112 | `checkEscalationCriteria` reads `conversation.email?.content`, but the route passes the freshly created conversation row, which has no `email` | a neutral, non-urgent email containing "complaint" from a client who is not high-value: no escalation reason | a complaint, refund or legal keyword in the email escalates it | high, not executed | ProcessRoute.ComplaintAloneNeverEscalates | ProcessRoute.ComplaintEscalatesWithContent |
| src/app/api/knowledge/route.js:17-22 | the search adds `tags: { has: search }`, a list filter, but tags are stored as the JSON text of the list (lines 49 and 75, and the seed script), and it asks for `mode: 'insensitive'`, which the SQLite store the application defaults to (next.config.js:7) does not offer | any non-empty `search`, for instance an active entry's own title: the store refuses the filter and GET answers 500 | the search lists active entries whose title or content holds the term in any case, or that carry it as a tag | medium, not executed (the database schema is not part of this model) | Knowledge.SearchByTitleFails | Knowledge.ListKnowledge |

`ProcessRoute.ProcessEmail` models the route as written, including the effects of the first two
rows, and `Knowledge.GetKnowledge` models the knowledge GET as written. The corrected members
state what the routes evidently mean to do.
