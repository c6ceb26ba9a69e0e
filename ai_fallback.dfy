/**
 * The rule-based classifiers used when no language model is configured or a model call
 * fails: keyword language detection, keyword categorisation and the canned replies.
 */
module AiFallback {
  import opened Text
  import opened Wrappers

  const PolishWords: seq<string> := ["dzień", "dobry", "proszę", "dziękuję", "hotel", "cena", "dostępność"]
  const EnglishWords: seq<string> := ["hello", "please", "thank", "hotel", "price", "availability"]
  const GermanWords: seq<string> := ["hallo", "bitte", "danke", "hotel", "preis", "verfügbarkeit"]

  /** How many of `words` occur in `text` (`words.filter(w => text.includes(w)).length`). */
  function Hits(words: seq<string>, text: string): (n: nat)
    ensures n <= |words|
  {
    if words == [] then 0
    else (if Includes(text, words[0]) then 1 else 0) + Hits(words[1..], text)
  }

  /** A keyword counts once, however often it occurs: only which words occur matters. */
  lemma {:induction false} HitsDependOnPresenceOnly(words: seq<string>, t1: string, t2: string)
    requires forall w :: w in words ==> (Includes(t1, w) <==> Includes(t2, w))
    ensures Hits(words, t1) == Hits(words, t2)
  {
    if words != [] {
      HitsDependOnPresenceOnly(words[1..], t1, t2);
    }
  }

  /** No keyword occurs exactly when the count is zero. */
  lemma {:induction false} HitsZeroIff(words: seq<string>, text: string)
    ensures Hits(words, text) == 0 <==> forall w :: w in words ==> !Includes(text, w)
  {
    if words != [] {
      HitsZeroIff(words[1..], text);
      assert Hits(words, text) == (if Includes(text, words[0]) then 1 else 0) + Hits(words[1..], text);
      assert forall w :: w in words <==> w == words[0] || w in words[1..];
      if Hits(words, text) != 0 && !Includes(text, words[0]) {
        var w :| w in words[1..] && Includes(text, w);
        assert w in words;
      }
    }
  }

  /** The choice among the three counts; ties favour Polish, then English. */
  function ChooseLanguage(pl: nat, en: nat, de: nat): (r: string)
    ensures r == "pl" <==> pl >= en && pl >= de
    ensures r == "en" <==> en > pl && en >= de
    ensures r == "de" <==> de > pl && de > en
  {
    if pl >= en && pl >= de then "pl"
    else if en >= de then "en"
    else if de > 0 then "de"
    else "pl"
  }

  /** `detectLanguageFallback(text)`. */
  function DetectLanguageFallback(text: string): (r: string)
    ensures r == "pl" || r == "en" || r == "de"
  {
    var lower := Lower(text);
    ChooseLanguage(Hits(PolishWords, lower), Hits(EnglishWords, lower), Hits(GermanWords, lower))
  }

  /** Text in which no keyword of any list occurs is taken to be Polish. */
  lemma NoHitsMeansPolish(text: string)
    requires forall w :: w in PolishWords + EnglishWords + GermanWords ==> !Includes(Lower(text), w)
    ensures DetectLanguageFallback(text) == "pl"
  {
    var lower := Lower(text);
    HitsZeroIff(PolishWords, lower);
    HitsZeroIff(EnglishWords, lower);
    HitsZeroIff(GermanWords, lower);
  }

  const ReplyPl: string :=
    "Dzień dobry!\n\n"
    + "Dziękuję za zapytanie dotyczące pobytu w Dubaju. Z przyjemnością pomogę Państwu w organizacji wyjazdu.\n\n"
    + "🏨 **HOTELE W DUBAJU:**\n• Burj Al Arab - 2,500 AED/noc (2,700 PLN)\n• Atlantis The Palm - 1,800 AED/noc (1,944 PLN)\n• Emirates Palace - 2,200 AED/noc (2,376 PLN)\n• Four Seasons Resort - 1,600 AED/noc (1,728 PLN)\n\n"
    + "🎯 **ATRAKCJE:**\n• Burj Khalifa - 149 AED (161 PLN)\n• Dubai Mall + Fontanna - bezpłatne\n• Palm Jumeirah - 89 AED (96 PLN)\n• Dubai Marina - spacery bezpłatne\n\n"
    + "📅 **SIERPIEŃ 2024:**\nDoskonały czas na wizytę! Temperatura 35-42°C, idealna pogoda na baseny i klimatyzowane atrakcje.\n\n"
    + "💰 **PAKIET ALL-INCLUSIVE (7 dni):**\n• Hotel 4* + śniadania: od 8,500 PLN/os\n• Hotel 5* + all inclusive: od 12,500 PLN/os\n• Loty z Polski: od 2,200 PLN\n\n"
    + "🎁 **PROMOCJA:** Rezerwacja do końca miesiąca - 15% zniżki!\n\n"
    + "Chętnie przygotujemy spersonalizowaną ofertę. Proszę o kontakt:\n📞 +48 123 456 789\n📧 marcin@deximlabs.com\n\n"
    + "Pozdrawiam serdecznie,\nMarcin - Ekspert ds. Dubaju\nDubai Travel Experts"

  const ReplyEn: string :=
    "Hello!\n\n"
    + "Thank you for your inquiry about Dubai accommodation. I\'d be happy to help you plan your trip.\n\n"
    + "🏨 **DUBAI HOTELS:**\n• Burj Al Arab - 2,500 AED/night ($675)\n• Atlantis The Palm - 1,800 AED/night ($486)\n• Emirates Palace - 2,200 AED/night ($594)\n• Four Seasons Resort - 1,600 AED/night ($432)\n\n"
    + "🎯 **ATTRACTIONS:**\n• Burj Khalifa - 149 AED ($40)\n• Dubai Mall + Fountain - free\n• Palm Jumeirah - 89 AED ($24)\n• Dubai Marina - free walks\n\n"
    + "📅 **AUGUST 2024:**\nPerfect time to visit! Temperature 35-42°C, ideal for pools and air-conditioned attractions.\n\n"
    + "💰 **ALL-INCLUSIVE PACKAGES (7 days):**\n• 4* Hotel + breakfast: from $2,300/person\n• 5* Hotel + all inclusive: from $3,400/person\n• Flights from Europe: from $600\n\n"
    + "🎁 **PROMOTION:** Book by month end - 15% discount!\n\n"
    + "I\'d be happy to prepare a personalized offer. Please contact:\n📞 +48 123 456 789\n📧 marcin@deximlabs.com\n\n"
    + "Best regards,\nMarcin - Dubai Expert\nDubai Travel Experts"

  const ReplyDe: string :=
    "Hallo!\n\n"
    + "Vielen Dank für Ihre Anfrage bezüglich Dubai-Unterkünften. Gerne helfe ich Ihnen bei der Reiseplanung.\n\n"
    + "🏨 **DUBAI HOTELS:**\n• Burj Al Arab - 2.500 AED/Nacht (625€)\n• Atlantis The Palm - 1.800 AED/Nacht (450€)\n• Emirates Palace - 2.200 AED/Nacht (550€)\n• Four Seasons Resort - 1.600 AED/Nacht (400€)\n\n"
    + "🎯 **ATTRAKTIONEN:**\n• Burj Khalifa - 149 AED (37€)\n• Dubai Mall + Brunnen - kostenlos\n• Palm Jumeirah - 89 AED (22€)\n• Dubai Marina - kostenlose Spaziergänge\n\n"
    + "📅 **AUGUST 2024:**\nPerfekte Reisezeit! Temperatur 35-42°C, ideal für Pools und klimatisierte Attraktionen.\n\n"
    + "💰 **ALL-INCLUSIVE PAKETE (7 Tage):**\n• 4* Hotel + Frühstück: ab 2.100€/Person\n• 5* Hotel + all inclusive: ab 3.100€/Person\n• Flüge aus Deutschland: ab 550€\n\n"
    + "🎁 **AKTION:** Buchung bis Monatsende - 15% Rabatt!\n\n"
    + "Gerne erstelle ich ein personalisiertes Angebot. Kontakt:\n📞 +48 123 456 789\n📧 marcin@deximlabs.com\n\n"
    + "Mit freundlichen Grüßen,\nMarcin - Dubai Experte\nDubai Travel Experts"

  /** `generateResponseFallback`: the canned reply for pl, en or de, and the Polish one otherwise. */
  function GenerateResponseFallback(content: string, language: string): (r: string)
    ensures language == "en" ==> r == ReplyEn
    ensures language == "de" ==> r == ReplyDe
    ensures language != "en" && language != "de" ==> r == ReplyPl
  {
    if language == "pl" then ReplyPl
    else if language == "en" then ReplyEn
    else if language == "de" then ReplyDe
    else ReplyPl
  }

  /** The record `categorizeEmailFallback` returns: always these seven keys. */
  datatype Categorization = Categorization(
    category: string,
    urgency: string,
    topics: seq<string>,
    sentiment: string,
    language: string,
    hasSpecificDates: bool,
    priceRange: string)
  {
    /** The same answer in the common shape every categoriser returns. */
    function Record(): CategoryRecord
    {
      CategoryRecord(category, urgency, topics, sentiment, priceRange, Some(language), None)
    }
  }

  /**
   * A categorisation as the callers read it, whichever categoriser produced it. Keys a
   * categoriser did not set are `None`: the rule-based one sets `language` but never
   * `detectedLanguage`, which only a successful OpenAI categorisation adds.
   */
  datatype CategoryRecord = CategoryRecord(
    category: string,
    urgency: string,
    topics: seq<string>,
    sentiment: string,
    priceRange: string,
    language: Option<string>,
    detectedLanguage: Option<string>)

  predicate AnyOccurs(text: string, words: seq<string>)
  {
    exists w :: w in words && Includes(text, w)
  }

  /** Looking for any word of `a + b` is looking for any word of `a` or any word of `b`. */
  lemma AnyOccursAppend(text: string, a: seq<string>, b: seq<string>)
    ensures AnyOccurs(text, a + b) <==> AnyOccurs(text, a) || AnyOccurs(text, b)
  {
    if AnyOccurs(text, a + b) {
      var w :| w in a + b && Includes(text, w);
      assert w in a || w in b;
    }
    if AnyOccurs(text, a) {
      var w :| w in a && Includes(text, w);
      assert w in a + b;
    }
    if AnyOccurs(text, b) {
      var w :| w in b && Includes(text, w);
      assert w in a + b;
    }
  }

  const HotelWords: seq<string> := ["hotel", "zakwaterowanie"]
  const AttractionWords: seq<string> := ["atrakcj", "zwiedzanie"]
  const RestaurantWords: seq<string> := ["restauracj", "jedzenie"]
  const TransportWords: seq<string> := ["transport", "lot"]
  const BookingWords: seq<string> := ["rezerwacj", "booking"]

  /** The fixed topic pair that goes with each category. */
  function TopicsOf(category: string): seq<string>
  {
    match category
    case "hotels" => ["hotels", "accommodation"]
    case "attractions" => ["attractions", "sightseeing"]
    case "restaurants" => ["restaurants", "dining"]
    case "transport" => ["transport", "flights"]
    case "booking" => ["booking", "reservation"]
    case _ => ["general"]
  }

  predicate Digit(c: char) { '0' <= c <= '9' }
  predicate Separator(c: char) { c == '/' || c == '-' || c == '.' }

  /** `n` digits start at position `i`. */
  predicate DigitsAt(s: string, i: nat, n: nat)
  {
    i + n <= |s| && forall k :: i <= k < i + n ==> Digit(s[k])
  }

  /** `\d{a}[sep]\d{b}[sep]\d{2}` starts at `i`. */
  predicate DayFirstWith(s: string, i: nat, a: nat, b: nat)
  {
    DigitsAt(s, i, a) && i + a < |s| && Separator(s[i + a])
    && DigitsAt(s, i + a + 1, b) && i + a + 1 + b < |s| && Separator(s[i + a + 1 + b])
    && DigitsAt(s, i + a + b + 2, 2)
  }

  /** `\d{4}[sep]\d{b}[sep]\d` starts at `i`. */
  predicate YearFirstWith(s: string, i: nat, b: nat)
  {
    DigitsAt(s, i, 4) && i + 4 < |s| && Separator(s[i + 4])
    && DigitsAt(s, i + 5, b) && i + 5 + b < |s| && Separator(s[i + 5 + b])
    && DigitsAt(s, i + b + 6, 1)
  }

  /**
   * The date pattern of the source matches a substring starting at `i`. Since the match is
   * not anchored, only the shortest digit runs each `{m,n}` allows matter at the ends; the
   * middle run sits between two separators and may have one or two digits.
   */
  predicate DateAt(s: string, i: nat)
  {
    DayFirstWith(s, i, 1, 1) || DayFirstWith(s, i, 1, 2) || DayFirstWith(s, i, 2, 1) || DayFirstWith(s, i, 2, 2)
    || YearFirstWith(s, i, 1) || YearFirstWith(s, i, 2)
  }

  predicate HasDatePattern(s: string)
  {
    exists i: nat :: i < |s| && DateAt(s, i)
  }

  const UrgentWords: seq<string> := ["pilne", "urgent", "szybko"]
  const WhenWords: seq<string> := ["kiedy", "when"]
  const PositiveWords: seq<string> := ["dziękuję", "świetnie", "excellent"]
  const NegativeWords: seq<string> := ["problem", "źle", "bad"]
  const BudgetWords: seq<string> := ["budget", "tani", "cheap"]
  const LuxuryWords: seq<string> := ["luxury", "luksus", "premium"]
  const MidRangeWords: seq<string> := ["średni", "mid"]

  /** The first category, in the fixed order, with a word in the text. */
  function CategoryOf(lower: string): (c: string)
    ensures c in {"hotels", "attractions", "restaurants", "transport", "booking", "general"}
    ensures c == "hotels" <==> AnyOccurs(lower, HotelWords)
    ensures c == "attractions" <==> !AnyOccurs(lower, HotelWords) && AnyOccurs(lower, AttractionWords)
    ensures c == "restaurants" <==> !AnyOccurs(lower, HotelWords + AttractionWords) && AnyOccurs(lower, RestaurantWords)
    ensures c == "transport" <==>
              !AnyOccurs(lower, HotelWords + AttractionWords + RestaurantWords) && AnyOccurs(lower, TransportWords)
    ensures c == "booking" <==>
              !AnyOccurs(lower, HotelWords + AttractionWords + RestaurantWords + TransportWords) && AnyOccurs(lower, BookingWords)
  {
    AnyOccursAppend(lower, HotelWords, AttractionWords);
    AnyOccursAppend(lower, HotelWords + AttractionWords, RestaurantWords);
    AnyOccursAppend(lower, HotelWords + AttractionWords + RestaurantWords, TransportWords);
    if AnyOccurs(lower, HotelWords) then "hotels"
    else if AnyOccurs(lower, AttractionWords) then "attractions"
    else if AnyOccurs(lower, RestaurantWords) then "restaurants"
    else if AnyOccurs(lower, TransportWords) then "transport"
    else if AnyOccurs(lower, BookingWords) then "booking"
    else "general"
  }

  /** The price range: budget words win over luxury words, which win over mid-range words. */
  function PriceRangeOf(lower: string): (p: string)
    ensures p in {"budget", "luxury", "mid-range", "not-specified"}
    ensures p == "budget" <==> AnyOccurs(lower, BudgetWords)
    ensures p == "luxury" <==> !AnyOccurs(lower, BudgetWords) && AnyOccurs(lower, LuxuryWords)
    ensures p == "mid-range" <==> !AnyOccurs(lower, BudgetWords + LuxuryWords) && AnyOccurs(lower, MidRangeWords)
  {
    AnyOccursAppend(lower, BudgetWords, LuxuryWords);
    if AnyOccurs(lower, BudgetWords) then "budget"
    else if AnyOccurs(lower, LuxuryWords) then "luxury"
    else if AnyOccurs(lower, MidRangeWords) then "mid-range"
    else "not-specified"
  }

  /** `categorizeEmailFallback(emailContent)`: keyword rules on the lower-cased content. */
  function CategorizeEmailFallback(content: string): (r: Categorization)
    ensures r.language == DetectLanguageFallback(content)
    ensures r.topics == TopicsOf(r.category)
    ensures r.category == CategoryOf(Lower(content))
    ensures r.urgency in {"high", "low", "medium"}
    ensures r.urgency == "high" <==> AnyOccurs(Lower(content), UrgentWords)
    ensures r.urgency == "low" <==> !AnyOccurs(Lower(content), UrgentWords) && AnyOccurs(Lower(content), WhenWords)
    ensures r.sentiment in {"positive", "negative", "neutral"}
    ensures r.sentiment == "positive" <==> AnyOccurs(Lower(content), PositiveWords)
    ensures r.sentiment == "negative" <==> !AnyOccurs(Lower(content), PositiveWords) && AnyOccurs(Lower(content), NegativeWords)
    ensures r.hasSpecificDates <==>
              HasDatePattern(Lower(content)) || Includes(Lower(content), "sierpień") || Includes(Lower(content), "august")
    ensures r.priceRange == PriceRangeOf(Lower(content))
  {
    var lower := Lower(content);
    var category := CategoryOf(lower);
    var urgency :=
      if AnyOccurs(lower, UrgentWords) then "high"
      else if AnyOccurs(lower, WhenWords) then "low"
      else "medium";
    var sentiment :=
      if AnyOccurs(lower, PositiveWords) then "positive"
      else if AnyOccurs(lower, NegativeWords) then "negative"
      else "neutral";
    var hasDates := HasDatePattern(lower) || Includes(lower, "sierpień") || Includes(lower, "august");
    Categorization(category, urgency, TopicsOf(category), sentiment, DetectLanguageFallback(content), hasDates,
                   PriceRangeOf(lower))
  }

  /** An email falls into "general" exactly when it mentions no word of any category. */
  lemma GeneralMeansNoCategoryWord(content: string)
    ensures CategorizeEmailFallback(content).category == "general" <==>
              !AnyOccurs(Lower(content), HotelWords + AttractionWords + RestaurantWords + TransportWords + BookingWords)
  {
    var lower := Lower(content);
    AnyOccursAppend(lower, HotelWords, AttractionWords);
    AnyOccursAppend(lower, HotelWords + AttractionWords, RestaurantWords);
    AnyOccursAppend(lower, HotelWords + AttractionWords + RestaurantWords, TransportWords);
    AnyOccursAppend(lower, HotelWords + AttractionWords + RestaurantWords + TransportWords, BookingWords);
  }

  /** The price range stays "not-specified" exactly when no price word occurs. */
  lemma UnspecifiedPriceMeansNoPriceWord(content: string)
    ensures CategorizeEmailFallback(content).priceRange == "not-specified" <==>
              !AnyOccurs(Lower(content), BudgetWords + LuxuryWords + MidRangeWords)
  {
    var lower := Lower(content);
    AnyOccursAppend(lower, BudgetWords, LuxuryWords);
    AnyOccursAppend(lower, BudgetWords + LuxuryWords, MidRangeWords);
  }
}
