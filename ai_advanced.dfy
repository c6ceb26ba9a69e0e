/**
 * The decision rules of the advanced analysis layer: priority ranking, escalation reasons,
 * the engagement-score update of a client profile, and the gate that turns a purchase-ready
 * verdict into a stored alert. Model verdicts (sentiment, purchase prediction, readiness)
 * are inputs; the defaults each analysis returns when its call fails are constants here.
 */
module AiAdvanced {
  import opened Wrappers
  import opened Text
  import opened PurchaseAlerts

  datatype Priority = Low | Medium | High | Urgent
  {
    function Name(): string
    {
      match this
      case Low => "LOW"
      case Medium => "MEDIUM"
      case High => "HIGH"
      case Urgent => "URGENT"
    }

    function Rank(): nat
    {
      match this
      case Low => 0
      case Medium => 1
      case High => 2
      case Urgent => 3
    }
  }

  /** The sentiment verdict, or the neutral default when the analysis call fails. */
  datatype Sentiment = Sentiment(sentiment: string, emotion: string, urgency: string)

  const SentimentDefault := Sentiment("neutral", "neutral", "medium")

  /** The purchase prediction, or its default when the call fails. */
  datatype Prediction = Prediction(purchaseProbability: real, timeToDecision: string, upsellOpportunities: seq<string>)

  const PredictionDefault := Prediction(0.5, "1-2 weeks", [])

  /** The purchase-readiness verdict, or the "not ready" default when the call fails. */
  datatype Readiness = Readiness(
    isPurchaseReady: bool,
    readinessScore: real,
    readySignals: seq<string>,
    immediateActions: seq<string>,
    estimatedCloseTime: string,
    potentialValue: real,
    nextSteps: seq<string>)

  const ReadinessDefault := Readiness(false, 0.0, [], [], "1 week", 0.0, [])

  predicate Upset(sentiment: string) { sentiment == "angry" || sentiment == "frustrated" }

  /** `determinePriority(sentimentAnalysis, purchasePrediction)`. */
  function DeterminePriority(sentiment: string, urgency: string, probability: real): (r: Priority)
    ensures r == Urgent <==> Upset(sentiment)
    ensures r == High <==> !Upset(sentiment) && (urgency in {"urgent", "high"} || probability > 0.6)
    ensures r == Medium <==> (!Upset(sentiment) && urgency !in {"urgent", "high"} && probability <= 0.6
                              && (probability > 0.4 || urgency == "medium"))
  {
    if sentiment == "angry" || sentiment == "frustrated" then Urgent
    else if urgency == "urgent" || probability > 0.8 then High
    else if urgency == "high" || probability > 0.6 then High
    else if probability > 0.4 || urgency == "medium" then Medium
    else Low
  }

  /** A higher purchase probability never lowers the priority. */
  lemma PriorityMonotoneInProbability(sentiment: string, urgency: string, p: real, q: real)
    requires p <= q
    ensures DeterminePriority(sentiment, urgency, p).Rank() <= DeterminePriority(sentiment, urgency, q).Rank()
  {
  }

  /** The failed analyses together give MEDIUM: neutral sentiment, medium urgency, probability 0.5. */
  lemma DefaultsGiveMedium()
    ensures DeterminePriority(SentimentDefault.sentiment, SentimentDefault.urgency,
                              PredictionDefault.purchaseProbability) == Medium
  {
  }

  /** Why a conversation goes to a human, in the order the checks run. */
  datatype Reason = NegativeSentiment(sentiment: string) | HighUrgency | HighValueClient | ComplexQuery
  {
    function Text(): string
    {
      match this
      case NegativeSentiment(s) => "Negative sentiment detected: " + s
      case HighUrgency => "High urgency email"
      case HighValueClient => "High-value client (VIP treatment required)"
      case ComplexQuery => "Complex query detected (complaint/refund/legal)"
    }

    function Order(): nat
    {
      match this
      case NegativeSentiment(_) => 0
      case HighUrgency => 1
      case HighValueClient => 2
      case ComplexQuery => 3
    }
  }

  /** The client-profile lookup: a profile (booking values, loyalty), none, or a failed query. */
  datatype ProfileLookup = Found(bookingValues: seq<real>, loyaltyScore: real) | NotFound | LookupFailed

  function Sum(values: seq<real>): real
  {
    if values == [] then 0.0 else values[0] + Sum(values[1..])
  }

  predicate HighValue(lookup: ProfileLookup)
  {
    lookup.Found? && (Sum(lookup.bookingValues) > 50000.0 || lookup.loyaltyScore > 0.8)
  }

  const ComplexKeywords: seq<string> := ["complaint", "refund", "cancel", "problem", "issue", "disappointed", "legal"]

  /** `conversation.email?.content?` lower-cased contains a complex keyword; no content, no match. */
  predicate HasComplexKeywords(content: Option<string>)
  {
    content.Some? && exists k :: k in ComplexKeywords && Includes(Lower(content.value), k)
  }

  /** The reasons the checks find, each contributing at most one entry. */
  function EscalationReasons(sentiment: string, urgency: string, lookup: ProfileLookup,
                             content: Option<string>): seq<Reason>
  {
    (if Upset(sentiment) then [NegativeSentiment(sentiment)] else [])
    + (if urgency == "urgent" then [HighUrgency] else [])
    + (if HighValue(lookup) then [HighValueClient] else [])
    + (if HasComplexKeywords(content) then [ComplexQuery] else [])
  }

  datatype Escalation = Escalation(shouldEscalate: bool, reasons: seq<Reason>, escalationType: string)

  /** `bookings.reduce((sum, booking) => sum + booking.totalValue, 0)`. */
  method TotalBookingValue(values: seq<real>) returns (total: real)
    ensures total == Sum(values)
  {
    total := 0.0;
    var i := 0;
    while i < |values|
      invariant 0 <= i <= |values|
      invariant total + Sum(values[i..]) == Sum(values)
    {
      assert values[i..] == [values[i]] + values[i + 1..];
      total := total + values[i];
      i := i + 1;
    }
  }

  /** `complexKeywords.some(keyword => lower.includes(keyword))`. */
  method SomeComplexKeyword(lower: string) returns (found: bool)
    ensures found <==> exists k :: k in ComplexKeywords && Includes(lower, k)
  {
    found := false;
    var k := 0;
    while k < |ComplexKeywords|
      invariant 0 <= k <= |ComplexKeywords|
      invariant found <==> exists j :: 0 <= j < k && Includes(lower, ComplexKeywords[j])
    {
      if Includes(lower, ComplexKeywords[k]) {
        found := true;
      }
      k := k + 1;
    }
    assert found <==> exists w :: w in ComplexKeywords && Includes(lower, w) by {
      if exists w :: w in ComplexKeywords && Includes(lower, w) {
        var w :| w in ComplexKeywords && Includes(lower, w);
        var j :| 0 <= j < |ComplexKeywords| && ComplexKeywords[j] == w;
      }
    }
  }

  /** `checkEscalationCriteria(sentimentAnalysis, conversation)`, with the profile lookup as input. */
  method CheckEscalationCriteria(sentiment: string, urgency: string, lookup: ProfileLookup,
                                 content: Option<string>) returns (e: Escalation)
    ensures e.reasons == EscalationReasons(sentiment, urgency, lookup, content)
    ensures e.shouldEscalate <==> e.reasons != []
    ensures e.escalationType == (if e.shouldEscalate then "HUMAN_REQUIRED" else "AI_HANDLED")
  {
    ghost var byMood: seq<Reason> := if Upset(sentiment) then [NegativeSentiment(sentiment)] else [];
    ghost var byUrgency: seq<Reason> := if urgency == "urgent" then [HighUrgency] else [];
    ghost var byValue: seq<Reason> := if HighValue(lookup) then [HighValueClient] else [];
    var reasons: seq<Reason> := [];
    var shouldEscalate := false;
    if sentiment == "angry" || sentiment == "frustrated" {
      reasons := reasons + [NegativeSentiment(sentiment)];
      shouldEscalate := true;
    }
    assert reasons == byMood && (shouldEscalate <==> reasons != []);
    if urgency == "urgent" {
      reasons := reasons + [HighUrgency];
      shouldEscalate := true;
    }
    assert reasons == byMood + byUrgency && (shouldEscalate <==> reasons != []);
    var highValue := false;
    if lookup.Found? {
      var total := TotalBookingValue(lookup.bookingValues);
      highValue := total > 50000.0 || lookup.loyaltyScore > 0.8;
    }
    assert highValue == HighValue(lookup);
    if highValue {
      reasons := reasons + [HighValueClient];
      shouldEscalate := true;
    }
    assert reasons == byMood + byUrgency + byValue && (shouldEscalate <==> reasons != []);
    var hasComplexKeywords := false;
    if content.Some? {
      hasComplexKeywords := SomeComplexKeyword(Lower(content.value));
    }
    assert hasComplexKeywords == HasComplexKeywords(content);
    if hasComplexKeywords {
      reasons := reasons + [ComplexQuery];
      shouldEscalate := true;
    }
    e := Escalation(shouldEscalate, reasons, if shouldEscalate then "HUMAN_REQUIRED" else "AI_HANDLED");
  }

  /** Reasons come in check order, so none appears twice. */
  lemma ReasonsInCheckOrder(sentiment: string, urgency: string, lookup: ProfileLookup, content: Option<string>)
    ensures var r := EscalationReasons(sentiment, urgency, lookup, content);
            forall i, j :: 0 <= i < j < |r| ==> r[i].Order() < r[j].Order()
  {
  }

  /** Each trigger contributes its reason exactly when it fires; triggers add up. */
  lemma ReasonTriggers(sentiment: string, urgency: string, lookup: ProfileLookup, content: Option<string>)
    ensures var r := EscalationReasons(sentiment, urgency, lookup, content);
            && (NegativeSentiment(sentiment) in r <==> Upset(sentiment))
            && (HighUrgency in r <==> urgency == "urgent")
            && (HighValueClient in r <==> HighValue(lookup))
            && (ComplexQuery in r <==> HasComplexKeywords(content))
            && |r| == (if Upset(sentiment) then 1 else 0) + (if urgency == "urgent" then 1 else 0)
                      + (if HighValue(lookup) then 1 else 0) + (if HasComplexKeywords(content) then 1 else 0)
  {
  }

  /** A failed or empty profile lookup never adds the high-value reason. */
  lemma FailedLookupAddsNothing(sentiment: string, urgency: string, content: Option<string>)
    ensures EscalationReasons(sentiment, urgency, LookupFailed, content)
            == EscalationReasons(sentiment, urgency, NotFound, content)
    ensures HighValueClient !in EscalationReasons(sentiment, urgency, LookupFailed, content)
  {
  }

  /** Without the email's content no complex-keyword reason is possible. */
  lemma NoContentNoComplexQuery(sentiment: string, urgency: string, lookup: ProfileLookup)
    ensures ComplexQuery !in EscalationReasons(sentiment, urgency, lookup, None)
  {
  }

  /**
   * A property of a JavaScript argument object: left out (`undefined`), explicitly `null`, or
   * a value. The two absent forms behave differently both in comparisons and in a database
   * update, where `undefined` keeps the stored column and `null` clears it.
   */
  datatype Field<T> = Undefined | Null | Value(value: T)

  /**
   * The engagement boost of one interaction: faster replies earn more. `null < 2` holds in
   * JavaScript (null compares as 0) while `undefined < 2` does not.
   */
  function EngagementBoost(responseTime: Field<real>): (r: real)
    ensures r == 0.1 || r == 0.05
    ensures r == 0.1 <==> responseTime.Null? || (responseTime.Value? && responseTime.value < 2.0)
  {
    match responseTime
    case Undefined => 0.05
    case Null => 0.1
    case Value(t) => if t < 2.0 then 0.1 else 0.05
  }

  /** The stored column after an update that writes `f`. */
  function Written<T>(f: Field<T>, stored: Option<T>): (r: Option<T>)
    ensures f.Undefined? ==> r == stored
    ensures f.Null? ==> r.None?
    ensures f.Value? ==> r == Some(f.value)
  {
    match f
    case Undefined => stored
    case Null => None
    case Value(v) => Some(v)
  }

  /** `Math.min(1.0, (engagementScore || 0) + boost)`. */
  function NextEngagement(score: real, responseTime: Field<real>): (r: real)
    ensures r <= 1.0
    ensures r == 1.0 || r == score + EngagementBoost(responseTime)
  {
    var raised := score + EngagementBoost(responseTime);
    if raised < 1.0 then raised else 1.0
  }

  /** A score within [0, 1] stays within [0, 1] and never goes down. */
  lemma EngagementStaysInRangeAndGrows(score: real, responseTime: Field<real>)
    requires 0.0 <= score <= 1.0
    ensures score <= NextEngagement(score, responseTime) <= 1.0
    ensures score < 1.0 ==> score < NextEngagement(score, responseTime)
  {
  }

  /** The sentiment of an interaction plays no part in the update. */
  lemma EngagementIgnoresSentiment(p: ClientProfile, d: InteractionData, sentiment: string)
    ensures UpdatedProfile(p, d) == UpdatedProfile(p, d.(sentiment := sentiment))
  {
  }

  datatype ClientProfile = ClientProfile(
    email: string,
    loyaltyScore: real,
    valueScore: real,
    engagementScore: real,
    responseTime: Option<real>,
    preferredLanguage: Option<string>)

  datatype InteractionData = InteractionData(
    responseTime: Field<real>,
    language: Field<string>,
    content: string,
    sentiment: string,
    outcome: string)

  datatype Interaction = Interaction(clientEmail: string, kind: string, content: string, sentiment: string, outcome: string)

  function NewProfile(email: string): ClientProfile
  {
    ClientProfile(email, 0.0, 0.0, 0.0, None, None)
  }

  /** The fields `updateClientProfile` writes. */
  function UpdatedProfile(p: ClientProfile, d: InteractionData): (r: ClientProfile)
    ensures r.engagementScore == NextEngagement(p.engagementScore, d.responseTime)
    ensures d.responseTime.Undefined? ==> r.responseTime == p.responseTime
    ensures d.responseTime.Null? ==> r.responseTime.None?
    ensures d.responseTime.Value? ==> r.responseTime == Some(d.responseTime.value)
    ensures d.language.Undefined? ==> r.preferredLanguage == p.preferredLanguage
    ensures d.language.Null? ==> r.preferredLanguage.None?
    ensures d.language.Value? ==> r.preferredLanguage == Some(d.language.value)
    ensures r.email == p.email && r.loyaltyScore == p.loyaltyScore && r.valueScore == p.valueScore
  {
    p.(engagementScore := NextEngagement(p.engagementScore, d.responseTime),
       responseTime := Written(d.responseTime, p.responseTime),
       preferredLanguage := Written(d.language, p.preferredLanguage))
  }

  /** Client profiles by email, and the interaction log. */
  class ClientStore {
    var profiles: map<string, ClientProfile>
    var interactions: seq<Interaction>

    constructor()
      ensures profiles == map[] && interactions == []
    {
      profiles := map[];
      interactions := [];
    }

    /** `getOrCreateClientProfile(email)`: the stored profile, or a new zero-score one. */
    method GetOrCreateClientProfile(email: string) returns (p: ClientProfile)
      modifies this
      ensures email in old(profiles) ==> p == old(profiles)[email] && profiles == old(profiles)
      ensures email !in old(profiles) ==> p == NewProfile(email) && profiles == old(profiles)[email := p]
      ensures interactions == old(interactions)
    {
      if email in profiles {
        p := profiles[email];
      } else {
        p := NewProfile(email);
        profiles := profiles[email := p];
      }
    }

    /** `updateClientProfile(email, data)`: score update plus one logged EMAIL interaction. */
    method UpdateClientProfile(email: string, d: InteractionData) returns (p: ClientProfile)
      modifies this
      ensures var before := if email in old(profiles) then old(profiles)[email] else NewProfile(email);
              p == UpdatedProfile(before, d) && profiles == old(profiles)[email := p]
      ensures interactions == old(interactions)
                              + [Interaction(email, "EMAIL", d.content, d.sentiment,
                                             if d.outcome == "" then "no-action" else d.outcome)]
    {
      var profile := GetOrCreateClientProfile(email);
      p := UpdatedProfile(profile, d);
      profiles := profiles[email := p];
      interactions := interactions + [Interaction(email, "EMAIL", d.content, d.sentiment,
                                                  if d.outcome == "" then "no-action" else d.outcome)];
    }
  }

  /** `notifyPurchaseReadyClient` raises an alert for a ready client with score at least 0.8. */
  predicate AlertGate(r: Readiness)
  {
    r.isPurchaseReady && !(r.readinessScore < 0.8)
  }

  /** The row the gate creates. */
  function NewAlert(conversationId: nat, clientEmail: string, r: Readiness, now: int): (a: Alert)
    ensures a.alertType == "PURCHASE_READY" && a.priority == "URGENT"
    ensures IsActive(a) && a.readinessScore == r.readinessScore && a.estimatedValue == r.potentialValue
  {
    Alert(conversationId, clientEmail, "PURCHASE_READY", "URGENT", r.readinessScore, r.potentialValue,
          r.estimatedCloseTime, r.readySignals, r.immediateActions, r.nextSteps,
          true, false, None, None, None, now, now)
  }

  /**
   * `notifyPurchaseReadyClient(conversation, readiness)`. The sales notification happens
   * after the row is written; when it fails the result is `false` but the alert stays.
   */
  method NotifyPurchaseReadyClient(table: AlertTable, conversationId: nat, clientEmail: string,
                                   r: Readiness, now: int, notificationSent: bool) returns (alert: Option<Alert>)
    modifies table
    ensures !AlertGate(r) ==> alert.None? && table.alerts == old(table.alerts)
    ensures AlertGate(r) ==> table.alerts == old(table.alerts) + [NewAlert(conversationId, clientEmail, r, now)]
    ensures alert.Some? <==> AlertGate(r) && notificationSent
    ensures alert.Some? ==> alert.value == NewAlert(conversationId, clientEmail, r, now)
  {
    if !r.isPurchaseReady || r.readinessScore < 0.8 {
      return None;
    }
    var a := NewAlert(conversationId, clientEmail, r, now);
    var _ := table.Create(a);
    if notificationSent {
      alert := Some(a);
    } else {
      alert := None;
    }
  }

  /** The gate is inclusive at 0.8: a ready client scored exactly 0.8 gets an alert. */
  lemma GateBoundary(r: Readiness)
    requires r.isPurchaseReady
    ensures AlertGate(r) <==> r.readinessScore >= 0.8
    ensures r.readinessScore == 0.8 ==> AlertGate(r)
  {
  }

  /** A failed readiness analysis never raises an alert. */
  lemma DefaultReadinessRaisesNoAlert()
    ensures !AlertGate(ReadinessDefault)
  {
  }
}
