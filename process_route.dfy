/**
 * `POST /api/email/process`: the intake pipeline for one email. Every external verdict
 * (categorisation, sentiment, purchase prediction, readiness, profile lookup, generated
 * reply, notification and send outcomes) is an input; the route's own decisions (dedup,
 * priority override, escalation, final status, reply composition, auto-reply) are modelled
 * step by step against the stored tables.
 */
module ProcessRoute {
  import opened Wrappers
  import opened Text
  import opened AiFallback
  import opened AiProviders
  import opened AiAdvanced
  import opened PurchaseAlerts
  import opened Store
  import Settings

  datatype Incoming = Incoming(messageId: string, from: string, to: string, subject: string, content: string)

  /** What the external analyses returned for this email. */
  datatype Analyses = Analyses(
    category: CategoryRecord,
    sentiment: Sentiment,
    prediction: Prediction,
    readiness: Readiness,
    profileLookup: ProfileLookup,
    reply: AiReply)

  datatype Mail = Mail(to: string, subject: string, text: string)

  datatype ProcessResponse =
    | AlreadyProcessed(emailId: nat)
    | Processed(emailId: nat, conversationId: nat, response: string, detectedLanguage: string,
                priority: Priority, escalated: bool, reasons: seq<Reason>, purchaseAlert: Option<Alert>)
    | InternalError

  /** The priority after the purchase-readiness override; this is what the response reports. */
  function InitialPriority(a: Analyses): Priority
  {
    if a.readiness.isPurchaseReady && a.readiness.readinessScore > 0.8 then Urgent
    else DeterminePriority(a.sentiment.sentiment, a.sentiment.urgency, a.prediction.purchaseProbability)
  }

  /** URGENT exactly for an upset client or a ready client scored above 0.8. */
  lemma PriorityOverrideIff(a: Analyses)
    ensures InitialPriority(a) == Urgent <==>
              (a.readiness.isPurchaseReady && a.readiness.readinessScore > 0.8) || Upset(a.sentiment.sentiment)
    ensures !(a.readiness.isPurchaseReady && a.readiness.readinessScore > 0.8) ==>
              InitialPriority(a) == DeterminePriority(a.sentiment.sentiment, a.sentiment.urgency, a.prediction.purchaseProbability)
  {
  }

  /** At exactly 0.8 a ready client gets an alert but no priority override. */
  lemma OverrideStricterThanAlertGate(a: Analyses)
    requires a.readiness.isPurchaseReady && a.readiness.readinessScore == 0.8
    ensures AlertGate(a.readiness)
    ensures InitialPriority(a) == DeterminePriority(a.sentiment.sentiment, a.sentiment.urgency, a.prediction.purchaseProbability)
  {
  }

  /**
   * The reasons as the route computes them: it passes the conversation row it just created,
   * which carries no `email`, so the keyword check sees no content.
   */
  function RouteReasons(a: Analyses): seq<Reason>
  {
    EscalationReasons(a.sentiment.sentiment, a.sentiment.urgency, a.profileLookup, None)
  }

  predicate Escalates(a: Analyses)
  {
    RouteReasons(a) != [] || a.readiness.isPurchaseReady
  }

  /** A complaint alone never escalates in the route: the keyword rule cannot fire there. */
  lemma ComplaintAloneNeverEscalates(a: Analyses)
    requires !Upset(a.sentiment.sentiment) && a.sentiment.urgency != "urgent"
    requires !HighValue(a.profileLookup) && !a.readiness.isPurchaseReady
    ensures !Escalates(a)
  {
  }

  /** The reasons with the email's content handed to the keyword check. */
  function IntendedReasons(a: Analyses, content: string): seq<Reason>
  {
    EscalationReasons(a.sentiment.sentiment, a.sentiment.urgency, a.profileLookup, Some(content))
  }

  /** With the content passed, a complaint keyword is enough to escalate. */
  lemma ComplaintEscalatesWithContent(a: Analyses, content: string)
    requires HasComplexKeywords(Some(content))
    ensures ComplexQuery in IntendedReasons(a, content)
    ensures RouteReasons(a) <= IntendedReasons(a, content)
  {
    ReasonTriggers(a.sentiment.sentiment, a.sentiment.urgency, a.profileLookup, Some(content));
  }

  const UpsellHeading := "\n\n✨ Dodatkowe rekomendacje specjalnie dla Ciebie:\n"
  const OfferHeading := "\n\n🚀 SPECJALNA OFERTA - DZIAŁAMY NATYCHMIAST:\n• "
  const OfferClosing := "\n\nSkontaktuj się z nami telefonicznie pod numerem +48 123 456 789 w ciągu najbliższych 2 godzin, aby otrzymać najlepszą ofertę!"

  predicate UpsellDue(p: Prediction)
  {
    p.purchaseProbability > 0.7 && |p.upsellOpportunities| > 0
  }

  /** `immediateActions.slice(0, 2)`. */
  function UrgentActions(actions: seq<string>): (r: seq<string>)
    ensures |r| <= 2 && r <= actions
    ensures |actions| >= 2 ==> r == actions[..2]
    ensures |actions| < 2 ==> r == actions
  {
    if |actions| <= 2 then actions else actions[..2]
  }

  /** The generated reply with the upsell and purchase-ready blocks appended as they apply. */
  function EnhancedResponse(base: string, p: Prediction, r: Readiness): (e: string)
    ensures base <= e
    ensures e == base <==> !UpsellDue(p) && !r.isPurchaseReady
    ensures UpsellDue(p) ==> base + UpsellHeading <= e
    ensures !UpsellDue(p) && r.isPurchaseReady ==> base + OfferHeading <= e
  {
    var withUpsell := if UpsellDue(p) then base + UpsellHeading + Join(p.upsellOpportunities, "\n") else base;
    if r.isPurchaseReady then withUpsell + OfferHeading + Join(UrgentActions(r.immediateActions), "\n• ") + OfferClosing
    else withUpsell
  }

  /** The stored reply: template, blank line, reply, blank line, signature. */
  function FullResponse(template: string, enhanced: string, signature: string): string
  {
    template + "\n\n" + enhanced + "\n\n" + signature
  }

  function ConfiguredSignature(settings: Option<Settings.SettingsRow>): string
  {
    if settings.Some? && settings.value.signature.Some? then settings.value.signature.value else ""
  }

  predicate AutoReplyOn(settings: Option<Settings.SettingsRow>)
  {
    settings.Some? && settings.value.autoReply == Some(true)
  }

  function ComposedReply(a: Analyses, settings: Option<Settings.SettingsRow>): string
  {
    FullResponse(LocalizedTemplate(a.reply.detectedLanguage),
                 EnhancedResponse(a.reply.response, a.prediction, a.readiness),
                 LocalizedSignature(a.reply.detectedLanguage, ConfiguredSignature(settings)))
  }

  /** An auto-reply goes out only for an email that was not escalated. */
  predicate AutoReplyDue(a: Analyses, settings: Option<Settings.SettingsRow>)
  {
    AutoReplyOn(settings) && !Escalates(a)
  }

  /**
   * `emailCategory.detectedLanguage.toUpperCase()`, as written: `None` stands for the
   * TypeError thrown when the key is missing.
   */
  function SummaryLanguage(c: CategoryRecord): (r: Option<string>)
    ensures r.Some? <==> c.detectedLanguage.Some?
  {
    match c.detectedLanguage
    case None => None
    case Some(language) => Some(Upper(language))
  }

  /** The rule-based categorisation has no `detectedLanguage`, so the summary step throws on it. */
  lemma HeuristicCategoryBreaksSummary(content: string)
    ensures SummaryLanguage(CategorizeEmailFallback(content).Record()).None?
  {
  }

  /** The language the summary evidently means: the detected one, else the categoriser's. */
  function IntendedSummaryLanguage(c: CategoryRecord, reply: AiReply): (r: string)
    ensures SummaryLanguage(c).Some? ==> r == SummaryLanguage(c).value
  {
    Upper(if c.detectedLanguage.Some? then c.detectedLanguage.value
          else if c.language.Some? then c.language.value
          else reply.detectedLanguage)
  }

  /** For the rule-based categorisation the intended summary shows the heuristic language. */
  lemma IntendedSummaryCoversHeuristics(content: string, reply: AiReply)
    ensures IntendedSummaryLanguage(CategorizeEmailFallback(content).Record(), reply)
            == Upper(DetectLanguageFallback(content))
  {
  }

  function SummaryText(language: string, a: Analyses): string
  {
    "[" + language + "] " + a.category.category + " - " + Join(a.category.topics, ", ")
    + " | Sentiment: " + a.sentiment.sentiment
    + " | Purchase: " + IntToString(Round(a.prediction.purchaseProbability * 100.0))
    + "% | Ready: " + (if a.readiness.isPurchaseReady then "YES" else "NO")
  }

  function ConversationFor(emailId: nat, m: Incoming, a: Analyses, summaryLanguage: string): ConversationRow
  {
    ConversationRow(emailId, m.from, a.category.category, a.category.detectedLanguage, a.sentiment.sentiment,
                    InitialPriority(a).Name(), a.prediction.purchaseProbability,
                    SummaryText(summaryLanguage, a), false, None)
  }

  function ReceivedEmail(m: Incoming, now: int): EmailRow
  {
    EmailRow(m.messageId, m.from, m.to, m.subject, m.content, "PROCESSING", false, false, None, now)
  }

  /** The email row after the final update. */
  function FinalEmail(m: Incoming, a: Analyses, settings: Option<Settings.SettingsRow>, now: int): (e: EmailRow)
    ensures e.status == "ESCALATED" <==> Escalates(a)
    ensures e.status == "RESPONDED" <==> !Escalates(a)
    ensures e.responded == !Escalates(a)
  {
    ReceivedEmail(m, now).(response := Some(ComposedReply(a, settings)),
                           status := if Escalates(a) then "ESCALATED" else "RESPONDED",
                           responded := !Escalates(a))
  }

  /** The conversation row after the escalation update. */
  function FinalConversation(emailId: nat, m: Incoming, a: Analyses, summaryLanguage: string): (c: ConversationRow)
    ensures c.escalated == Escalates(a)
    ensures c.priority == if Escalates(a) then "URGENT" else InitialPriority(a).Name()
    ensures c.(escalated := false, priority := InitialPriority(a).Name()) == ConversationFor(emailId, m, a, summaryLanguage)
  {
    var row := ConversationFor(emailId, m, a, summaryLanguage);
    if Escalates(a) then row.(escalated := true, priority := "URGENT") else row
  }

  /**
   * The stored priority can be URGENT while the response reports the pre-escalation value:
   * an urgent-flagged email from a calm client with low purchase probability.
   */
  lemma ReportedPriorityIsPreEscalation(a: Analyses, emailId: nat, m: Incoming, summaryLanguage: string)
    requires a.sentiment == Sentiment("neutral", "neutral", "urgent")
    requires a.prediction.purchaseProbability == 0.1 && !a.readiness.isPurchaseReady
    ensures InitialPriority(a) == High
    ensures FinalConversation(emailId, m, a, summaryLanguage).priority == "URGENT"
  {
    assert RouteReasons(a) == [HighUrgency] + (if HighValue(a.profileLookup) then [HighValueClient] else []);
  }


  lemma AppendTwo<T>(s: seq<T>, x: T, y: T)
    ensures s + [x] + [y] == s + [x, y]
  {
  }

  /**
   * Steps 4 to 7 of the route: the conversation row, the purchase alert, the escalation
   * update and the client's message.
   */
  method OpenConversation(store: Store, alerts: AlertTable, emailId: nat, m: Incoming, a: Analyses,
                          summaryLanguage: string, notified: bool, now: int)
    returns (conversationId: nat, purchaseAlert: Option<Alert>, escalation: Escalation)
    requires store.Valid()
    modifies store, alerts
    ensures store.Valid()
    ensures conversationId == |old(store.conversations)|
    ensures store.conversations == old(store.conversations) + [FinalConversation(emailId, m, a, summaryLanguage)]
    ensures store.messages == old(store.messages) + [MessageRow(conversationId, m.content, "CLIENT")]
    ensures store.emails == old(store.emails)
    ensures !AlertGate(a.readiness) ==> alerts.alerts == old(alerts.alerts) && purchaseAlert.None?
    ensures AlertGate(a.readiness) ==>
              alerts.alerts == old(alerts.alerts) + [NewAlert(conversationId, m.from, a.readiness, now)]
    ensures purchaseAlert.Some? <==> AlertGate(a.readiness) && notified
    ensures escalation.reasons == RouteReasons(a)
    ensures escalation.shouldEscalate || a.readiness.isPurchaseReady <==> Escalates(a)
  {
    var conversation := ConversationFor(emailId, m, a, summaryLanguage);
    conversationId := store.CreateConversation(conversation);

    purchaseAlert := None;
    if a.readiness.isPurchaseReady {
      purchaseAlert := NotifyPurchaseReadyClient(alerts, conversationId, m.from, a.readiness, now, notified);
    }

    escalation := CheckEscalationCriteria(a.sentiment.sentiment, a.sentiment.urgency, a.profileLookup, None);
    if escalation.shouldEscalate || a.readiness.isPurchaseReady {
      store.UpdateConversation(conversationId, conversation.(escalated := true, priority := "URGENT"));
    }

    store.AddMessage(MessageRow(conversationId, m.content, "CLIENT"));
  }

  /**
   * Steps 9 to 12: compose the localized reply, store the agent's message, close the
   * email row and send the auto-reply when it is due. `ok` is false when sending failed.
   */
  method StoreReply(store: Store, emailId: nat, conversationId: nat, m: Incoming, a: Analyses,
                    settings: Option<Settings.SettingsRow>, escalated: bool, sendOk: bool, now: int)
    returns (enhanced: string, ok: bool, sent: Option<Mail>)
    requires store.Valid() && emailId < |store.emails| && store.emails[emailId] == ReceivedEmail(m, now)
    requires escalated == Escalates(a)
    modifies store
    ensures store.Valid()
    ensures enhanced == EnhancedResponse(a.reply.response, a.prediction, a.readiness)
    ensures store.messages == old(store.messages) + [MessageRow(conversationId, enhanced, "AGENT")]
    ensures store.emails == old(store.emails)[emailId := FinalEmail(m, a, settings, now)]
    ensures store.FindEmail(m.messageId) == Some(emailId)
    ensures store.conversations == old(store.conversations)
    ensures ok <==> !(AutoReplyDue(a, settings) && !sendOk)
    ensures AutoReplyDue(a, settings) && sendOk ==>
              sent == Some(Mail(m.from, LocalizedSubject(a.reply.detectedLanguage, m.subject), ComposedReply(a, settings)))
    ensures !(AutoReplyDue(a, settings) && sendOk) ==> sent.None?
  {
    var signature := LocalizedSignature(a.reply.detectedLanguage, ConfiguredSignature(settings));
    var template := LocalizedTemplate(a.reply.detectedLanguage);
    enhanced := a.reply.response;
    if a.prediction.purchaseProbability > 0.7 && |a.prediction.upsellOpportunities| > 0 {
      enhanced := enhanced + UpsellHeading + Join(a.prediction.upsellOpportunities, "\n");
    }
    if a.readiness.isPurchaseReady {
      enhanced := enhanced + OfferHeading + Join(UrgentActions(a.readiness.immediateActions), "\n• ") + OfferClosing;
    }
    var full := template + "\n\n" + enhanced + "\n\n" + signature;

    store.AddMessage(MessageRow(conversationId, enhanced, "AGENT"));

    var finalStatus := if escalated then "ESCALATED" else "RESPONDED";
    store.UpdateEmail(emailId, ReceivedEmail(m, now).(response := Some(full), status := finalStatus, responded := !escalated));

    ok, sent := true, None;
    if AutoReplyOn(settings) && !escalated {
      if !sendOk {
        return enhanced, false, None;
      }
      sent := Some(Mail(m.from, LocalizedSubject(a.reply.detectedLanguage, m.subject), full));
    }
  }

  /**
   * Steps 4 to 12 for an email whose row was just created: the conversation, the alert, the
   * reply and the final updates. `ok` is false when the auto-reply could not be sent.
   */
  method AnswerNewEmail(store: Store, alerts: AlertTable, emailId: nat, m: Incoming, a: Analyses,
                        summaryLanguage: string, priority: Priority, settings: Option<Settings.SettingsRow>,
                        notified: bool, sendOk: bool, now: int)
    returns (resp: ProcessResponse, sent: Option<Mail>)
    requires store.Valid() && emailId < |store.emails| && store.emails[emailId] == ReceivedEmail(m, now)
    modifies store, alerts
    ensures store.Valid()
    ensures store.FindEmail(m.messageId) == Some(emailId)
    ensures var conversationId := |old(store.conversations)|;
            var enhanced := EnhancedResponse(a.reply.response, a.prediction, a.readiness);
            && store.emails == old(store.emails)[emailId := FinalEmail(m, a, settings, now)]
            && store.conversations == old(store.conversations) + [FinalConversation(emailId, m, a, summaryLanguage)]
            && store.messages == old(store.messages)
                 + [MessageRow(conversationId, m.content, "CLIENT"), MessageRow(conversationId, enhanced, "AGENT")]
            && (!AlertGate(a.readiness) ==> alerts.alerts == old(alerts.alerts))
            && (AlertGate(a.readiness) ==>
                  alerts.alerts == old(alerts.alerts) + [NewAlert(conversationId, m.from, a.readiness, now)])
            && (AutoReplyDue(a, settings) && sendOk ==>
                  sent == Some(Mail(m.from, LocalizedSubject(a.reply.detectedLanguage, m.subject), ComposedReply(a, settings))))
            && (!(AutoReplyDue(a, settings) && sendOk) ==> sent.None?)
            && (AutoReplyDue(a, settings) && !sendOk ==> resp == InternalError)
            && (!(AutoReplyDue(a, settings) && !sendOk) ==>
                  resp.Processed? && resp.emailId == emailId && resp.conversationId == conversationId
                  && resp.response == enhanced && resp.priority == priority
                  && resp.escalated == Escalates(a) && resp.reasons == RouteReasons(a)
                  && (resp.purchaseAlert.Some? <==> AlertGate(a.readiness) && notified))
  {
    var conversationId, purchaseAlert, escalation :=
      OpenConversation(store, alerts, emailId, m, a, summaryLanguage, notified, now);
    var escalated := escalation.shouldEscalate || a.readiness.isPurchaseReady;

    var enhanced, ok;
    enhanced, ok, sent := StoreReply(store, emailId, conversationId, m, a, settings, escalated, sendOk, now);
    AppendTwo(old(store.messages), MessageRow(conversationId, m.content, "CLIENT"), MessageRow(conversationId, enhanced, "AGENT"));
    if !ok {
      return InternalError, None;
    }
    resp := Processed(emailId, conversationId, enhanced, a.reply.detectedLanguage, priority, escalated,
                      escalation.reasons, purchaseAlert);
  }

  /**
   * The whole route. `notified` is whether the sales notification after an alert went out;
   * `sendOk` is whether the auto-reply could be sent.
   */
  method ProcessEmail(store: Store, clients: ClientStore, alerts: AlertTable,
                      m: Incoming, a: Analyses, settings: Option<Settings.SettingsRow>,
                      notified: bool, sendOk: bool, now: int)
    returns (resp: ProcessResponse, sent: Option<Mail>)
    requires store.Valid()
    modifies store, clients, alerts
    ensures store.Valid()
    ensures old(store.FindEmail(m.messageId)).Some? ==>
              resp == AlreadyProcessed(old(store.FindEmail(m.messageId)).value) && sent.None?
              && store.emails == old(store.emails) && store.conversations == old(store.conversations)
              && store.messages == old(store.messages) && alerts.alerts == old(alerts.alerts)
              && clients.profiles == old(clients.profiles)
    ensures clients.interactions == old(clients.interactions)
    ensures old(store.FindEmail(m.messageId)).None? ==>
              && store.FindEmail(m.messageId) == Some(|old(store.emails)|)
              && clients.profiles == (if m.from in old(clients.profiles) then old(clients.profiles)
                                      else old(clients.profiles)[m.from := NewProfile(m.from)])
    ensures old(store.FindEmail(m.messageId)).None? && SummaryLanguage(a.category).None? ==>
              resp == InternalError && sent.None?
              && store.emails == old(store.emails) + [ReceivedEmail(m, now)]
              && store.conversations == old(store.conversations) && store.messages == old(store.messages)
              && alerts.alerts == old(alerts.alerts)
    ensures old(store.FindEmail(m.messageId)).None? && SummaryLanguage(a.category).Some? ==>
              var emailId := |old(store.emails)|;
              var conversationId := |old(store.conversations)|;
              var enhanced := EnhancedResponse(a.reply.response, a.prediction, a.readiness);
              && store.emails == old(store.emails) + [FinalEmail(m, a, settings, now)]
              && store.conversations == old(store.conversations)
                   + [FinalConversation(emailId, m, a, SummaryLanguage(a.category).value)]
              && store.messages == old(store.messages)
                   + [MessageRow(conversationId, m.content, "CLIENT"), MessageRow(conversationId, enhanced, "AGENT")]
              && (!AlertGate(a.readiness) ==> alerts.alerts == old(alerts.alerts))
              && (AlertGate(a.readiness) ==>
                    alerts.alerts == old(alerts.alerts) + [NewAlert(conversationId, m.from, a.readiness, now)])
              && (AutoReplyDue(a, settings) && sendOk ==>
                    sent == Some(Mail(m.from, LocalizedSubject(a.reply.detectedLanguage, m.subject), ComposedReply(a, settings))))
              && (!(AutoReplyDue(a, settings) && sendOk) ==> sent.None?)
              && (AutoReplyDue(a, settings) && !sendOk ==> resp == InternalError)
              && (!(AutoReplyDue(a, settings) && !sendOk) ==>
                    resp.Processed? && resp.emailId == emailId && resp.conversationId == conversationId
                    && resp.response == enhanced && resp.priority == InitialPriority(a)
                    && resp.escalated == Escalates(a) && resp.reasons == RouteReasons(a)
                    && (resp.purchaseAlert.Some? <==> AlertGate(a.readiness) && notified))
  {
    var existing := store.FindEmail(m.messageId);
    if existing.Some? {
      return AlreadyProcessed(existing.value), None;
    }
    var _ := clients.GetOrCreateClientProfile(m.from);
    assert m.from in clients.profiles;

    var priority := DeterminePriority(a.sentiment.sentiment, a.sentiment.urgency, a.prediction.purchaseProbability);
    if a.readiness.isPurchaseReady && a.readiness.readinessScore > 0.8 {
      priority := Urgent;
    }
    assert priority == InitialPriority(a);

    var emailId := store.CreateEmail(ReceivedEmail(m, now));
    assert store.FindEmail(m.messageId) == Some(|old(store.emails)|);
    var summaryLanguage := SummaryLanguage(a.category);
    if summaryLanguage.None? {
      return InternalError, None;
    }

    resp, sent := AnswerNewEmail(store, alerts, emailId, m, a, summaryLanguage.value, priority, settings,
                                 notified, sendOk, now);
    ReplaceLast(old(store.emails), ReceivedEmail(m, now), FinalEmail(m, a, settings, now));
  }
}
