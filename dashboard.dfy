/**
 * `GET /api/dashboard/enhanced-stats`: the week's breakdowns and the rule-based insights
 * shown on the dashboard. The rows read from the store and each conversation's local hour
 * are inputs.
 */
module Dashboard {
  import opened Wrappers
  import opened Text
  import opened Ranking
  import opened AiProviders

  /** What `getHours()` returns. */
  newtype Hour = h: int | 0 <= h < 24

  /** A key → count breakdown, in the order its keys were first inserted. */
  type Breakdown = seq<(string, nat)>

  /** An object's keys are distinct. */
  predicate DistinctKeys(b: Breakdown)
  {
    forall i, j :: 0 <= i < j < |b| ==> b[i].0 != b[j].0
  }

  /** `breakdown[key] || 0`: the count of the first entry with the key, or 0 when there is none. */
  function Lookup(b: Breakdown, key: string): (n: nat)
    ensures (forall i :: 0 <= i < |b| ==> b[i].0 != key) ==> n == 0
    ensures forall i :: 0 <= i < |b| && b[i].0 == key && (forall j :: 0 <= j < i ==> b[j].0 != key) ==> n == b[i].1
  {
    if b == [] then 0
    else if b[0].0 == key then b[0].1
    else
      var n := Lookup(b[1..], key);
      assert forall i :: 1 <= i < |b| ==> b[i] == b[1..][i - 1];
      n
  }

  /** The sum of the counts: `Object.values(...).reduce((s, c) => s + c, 0)`. */
  function Total(b: Breakdown): nat
  {
    if b == [] then 0 else b[0].1 + Total(b[1..])
  }

  /** Three different keys of a breakdown never add up to more than the whole. */
  lemma {:induction false} ThreeKeysWithinTotal(b: Breakdown, x: string, y: string, z: string)
    requires DistinctKeys(b) && x != y && y != z && x != z
    ensures Lookup(b, x) + Lookup(b, y) + Lookup(b, z) <= Total(b)
  {
    if b != [] {
      var rest := b[1..];
      assert DistinctKeys(rest) by {
        forall i, j | 0 <= i < j < |rest| ensures rest[i].0 != rest[j].0 {
          assert rest[i] == b[i + 1] && rest[j] == b[j + 1];
        }
      }
      ThreeKeysWithinTotal(rest, x, y, z);
      var k := b[0].0;
      assert forall i :: 0 <= i < |rest| ==> rest[i].0 != k by {
        forall i | 0 <= i < |rest| ensures rest[i].0 != k {
          assert rest[i] == b[i + 1];
        }
      }
      if k == x {
        assert Lookup(rest, x) == 0;
      } else if k == y {
        assert Lookup(rest, y) == 0;
      } else if k == z {
        assert Lookup(rest, z) == 0;
      }
    }
  }

  /** The keys in first-appearance order, each once. */
  function FirstAppearances(keys: seq<string>): (d: seq<string>)
    ensures forall k :: k in d <==> k in keys
    ensures forall i, j :: 0 <= i < j < |d| ==> d[i] != d[j]
  {
    if keys == [] then []
    else
      var d := FirstAppearances(keys[..|keys| - 1]);
      assert keys == keys[..|keys| - 1] + [keys[|keys| - 1]];
      if keys[|keys| - 1] in d then d else d + [keys[|keys| - 1]]
  }

  function Occurrences(keys: seq<string>, k: string): (n: nat)
    ensures n > 0 <==> k in keys
  {
    if keys == [] then 0 else (if keys[0] == k then 1 else 0) + Occurrences(keys[1..], k)
  }

  /** A `groupBy` reduced into an object: every present key once, with its number of rows. */
  function BreakdownOf(keys: seq<string>): (b: Breakdown)
    ensures DistinctKeys(b)
    ensures forall k :: (exists i :: 0 <= i < |b| && b[i].0 == k) <==> k in keys
    ensures forall i :: 0 <= i < |b| ==> b[i].1 == Occurrences(keys, b[i].0) && b[i].1 > 0
  {
    var d := FirstAppearances(keys);
    var b := seq(|d|, i requires 0 <= i < |d| => (d[i], Occurrences(keys, d[i])));
    forall k | k in d ensures exists i :: 0 <= i < |b| && b[i].0 == k {
      var j :| 0 <= j < |d| && d[j] == k;
      assert b[j].0 == k;
    }
    b
  }

  /** The non-null values of a nullable column, as `where: { column: { not: null } }` keeps them. */
  function Present(values: seq<Option<string>>): (r: seq<string>)
    ensures |r| <= |values|
    ensures forall k :: k in r <==> Some(k) in values
  {
    if values == [] then []
    else
      assert values == [values[0]] + values[1..];
      (if values[0].Some? then [values[0].value] else []) + Present(values[1..])
  }

  /** The values kept from a first part come before those kept from a second part: the order is kept. */
  lemma {:induction false} PresentAppend(a: seq<Option<string>>, b: seq<Option<string>>)
    ensures Present(a + b) == Present(a) + Present(b)
  {
    if a != [] {
      assert (a + b)[1..] == a[1..] + b;
      PresentAppend(a[1..], b);
    } else {
      assert a + b == b;
    }
  }

  /** `Math.round(x * 10) / 10`: the tenth nearest to `x`, halves rounded up. */
  function RoundToTenth(x: real): (r: real)
    ensures (r * 10.0).Floor as real == r * 10.0
    ensures x - 0.05 < r <= x + 0.05
  {
    Round(x * 10.0) as real / 10.0
  }

  /** Only one tenth lies within the rounding interval, so RoundToTenth's contract fixes its value. */
  lemma TenthIsDetermined(x: real, t: real)
    requires (t * 10.0).Floor as real == t * 10.0
    requires x - 0.05 < t <= x + 0.05
    ensures t == RoundToTenth(x)
  {
    var r := RoundToTenth(x);
    var a, b := (t * 10.0).Floor, (r * 10.0).Floor;
    assert -1.0 < a as real - b as real < 1.0;
    assert a == b;
  }

  /** Hours from an email's creation to its last update, for each answered email. */
  function ResponseHours(spans: seq<(int, int)>): real
  {
    if spans == [] then 0.0
    else (spans[0].1 - spans[0].0) as real / 3600000.0 + ResponseHours(spans[1..])
  }

  /** avgResponseTime: the mean in hours, 0 without answered emails, to one decimal. */
  function AverageResponseTime(spans: seq<(int, int)>): (r: real)
    ensures spans == [] ==> r == 0.0
    ensures spans != [] ==> var mean := ResponseHours(spans) / |spans| as real;
                            mean - 0.05 < r <= mean + 0.05
    ensures (r * 10.0).Floor as real == r * 10.0
  {
    if spans == [] then 0.0 else RoundToTenth(ResponseHours(spans) / |spans| as real)
  }

  /** Conversations whose probability is at least 0.7. */
  function HighValueLeads(ps: seq<Option<real>>): nat
  {
    if ps == [] then 0 else (if ps[0].Some? && ps[0].value >= 0.7 then 1 else 0) + HighValueLeads(ps[1..])
  }

  /** Conversations whose probability is in [0.4, 0.7). */
  function MediumValueLeads(ps: seq<Option<real>>): nat
  {
    if ps == [] then 0 else (if ps[0].Some? && 0.4 <= ps[0].value < 0.7 then 1 else 0) + MediumValueLeads(ps[1..])
  }

  /** The two lead bands never share a conversation. */
  lemma {:induction false} LeadBandsDisjoint(ps: seq<Option<real>>)
    ensures HighValueLeads(ps) + MediumValueLeads(ps) <= |ps|
  {
    if ps != [] {
      LeadBandsDisjoint(ps[1..]);
    }
  }

  /** A conversation as the insight rules see it. */
  datatype DashConversation = DashConversation(hour: Hour, purchaseProbability: Option<real>)

  datatype Insight =
    | NegativeMood(percent: int)
    | PositiveMood(percent: int)
    | ManyLeads(leads: nat)
    | SomeLeads(leads: nat)
    | Multilingual(languages: nat, top: seq<string>)
    | BusiestHour(hour: Hour)
    | StrongLeads(percent: int)
    | WeakLeads(percent: int)
    | ClientBase(clients: nat)
  {
    /** The `type` shown with the insight. */
    function Kind(): string
    {
      match this
      case NegativeMood(_) => "warning"
      case PositiveMood(_) => "success"
      case ManyLeads(_) => "opportunity"
      case SomeLeads(_) => "info"
      case Multilingual(_, _) => "info"
      case BusiestHour(_) => "info"
      case StrongLeads(_) => "success"
      case WeakLeads(_) => "warning"
      case ClientBase(_) => "info"
    }
  }

  function NegativeCount(sentiments: Breakdown): nat
  {
    Lookup(sentiments, "negative") + Lookup(sentiments, "frustrated") + Lookup(sentiments, "angry")
  }

  function PositiveCount(sentiments: Breakdown): nat
  {
    Lookup(sentiments, "positive") + Lookup(sentiments, "excited")
  }

  /** Mood: a warning above 30% negative, else a success above 60% positive. */
  function MoodInsight(sentiments: Breakdown): (r: seq<Insight>)
    requires DistinctKeys(sentiments)
    ensures |r| <= 1
    ensures Total(sentiments) == 0 ==> r == []
    ensures r != [] && r[0].NegativeMood? <==> NegativeCount(sentiments) as real > Total(sentiments) as real * 0.3
    ensures r != [] && r[0].PositiveMood? <==>
              !(NegativeCount(sentiments) as real > Total(sentiments) as real * 0.3)
              && PositiveCount(sentiments) as real > Total(sentiments) as real * 0.6
  {
    var total := Total(sentiments);
    ThreeKeysWithinTotal(sentiments, "negative", "frustrated", "angry");
    ThreeKeysWithinTotal(sentiments, "positive", "excited", "negative");
    if NegativeCount(sentiments) as real > total as real * 0.3 then
      [NegativeMood(Round(NegativeCount(sentiments) as real / total as real * 100.0))]
    else if PositiveCount(sentiments) as real > total as real * 0.6 then
      [PositiveMood(Round(PositiveCount(sentiments) as real / total as real * 100.0))]
    else []
  }

  function LeadInsight(highValueLeads: nat): (r: seq<Insight>)
    ensures r == [ManyLeads(highValueLeads)] <==> highValueLeads > 5
    ensures r == [SomeLeads(highValueLeads)] <==> 2 < highValueLeads <= 5
    ensures r == [] <==> highValueLeads <= 2
  {
    if highValueLeads > 5 then [ManyLeads(highValueLeads)]
    else if highValueLeads > 2 then [SomeLeads(highValueLeads)]
    else []
  }

  predicate MoreOrEqual(a: (string, nat), b: (string, nat))
  {
    a.1 >= b.1
  }

  /** The three most frequent languages, upper-cased; a stable sort keeps ties in key order. */
  function TopLanguages(languages: Breakdown): (r: seq<string>)
    ensures |r| == if |languages| < 3 then |languages| else 3
    ensures |r| == |Top(languages, MoreOrEqual, 3)|
    ensures forall i :: 0 <= i < |r| ==> r[i] == Upper(Top(languages, MoreOrEqual, 3)[i].0)
  {
    var top := Top(languages, MoreOrEqual, 3);
    seq(|top|, i requires 0 <= i < |top| => Upper(top[i].0))
  }

  function LanguageInsight(languages: Breakdown): (r: seq<Insight>)
    ensures r != [] <==> |languages| > 3
    ensures r != [] ==> r == [Multilingual(|languages|, TopLanguages(languages))] && |r[0].top| == 3
  {
    if |languages| > 3 then [Multilingual(|languages|, TopLanguages(languages))] else []
  }

  /** The listed languages are the most frequent ones: none left out has more requests. */
  lemma TopLanguagesAreMostFrequent(languages: Breakdown)
    ensures forall x, y :: x in Top(languages, MoreOrEqual, 3)
                           && y in multiset(languages) - multiset(Top(languages, MoreOrEqual, 3))
                           ==> x.1 >= y.1
    ensures SortedDesc(Top(languages, MoreOrEqual, 3), MoreOrEqual)
  {
    var top := Top(languages, MoreOrEqual, 3);
    assert TotalPreorder(MoreOrEqual) by {
      assert forall a, b :: MoreOrEqual(a, b) || MoreOrEqual(b, a);
      assert forall a, b, c :: MoreOrEqual(a, b) && MoreOrEqual(b, c) ==> MoreOrEqual(a, c);
    }
    TopIsBest(languages, MoreOrEqual, 3);
    forall x, y | x in top && y in multiset(languages) - multiset(top) ensures x.1 >= y.1 {
      assert MoreOrEqual(x, y);
    }
  }

  function HourCount(hours: seq<Hour>, h: Hour): nat
  {
    if hours == [] then 0 else (if hours[|hours| - 1] == h then 1 else 0) + HourCount(hours[..|hours| - 1], h)
  }

  /** The earliest hour with the most conversations, among the hours below `n`. */
  function BusiestBelow(hours: seq<Hour>, n: int): (b: Hour)
    requires 1 <= n <= 24
    ensures (b as int) < n
    ensures forall h: Hour :: (h as int) < n ==> HourCount(hours, b) >= HourCount(hours, h)
    ensures forall h: Hour :: h < b ==> HourCount(hours, h) < HourCount(hours, b)
  {
    if n == 1 then 0
    else
      var b := BusiestBelow(hours, n - 1);
      if HourCount(hours, (n - 1) as Hour) > HourCount(hours, b) then (n - 1) as Hour else b
  }

  function Busiest(hours: seq<Hour>): Hour
  {
    BusiestBelow(hours, 24)
  }

  function HoursOf(conversations: seq<DashConversation>): (r: seq<Hour>)
    ensures |r| == |conversations| && forall i :: 0 <= i < |r| ==> r[i] == conversations[i].hour
  {
    seq(|conversations|, i requires 0 <= i < |conversations| => conversations[i].hour)
  }

  /** The busiest hour is reported when it holds more than a fifth of the conversations. */
  function PeakInsight(conversations: seq<DashConversation>): (r: seq<Insight>)
    ensures var hours := HoursOf(conversations);
            && (r != [] <==> HourCount(hours, Busiest(hours)) as real > |conversations| as real * 0.2)
            && (r != [] ==> r == [BusiestHour(Busiest(hours))])
  {
    var hours := HoursOf(conversations);
    if HourCount(hours, Busiest(hours)) as real > |conversations| as real * 0.2 then [BusiestHour(Busiest(hours))] else []
  }

  /** The probabilities that are set and non-zero. */
  function Truthy(probabilities: seq<Option<real>>): (r: seq<real>)
    ensures |r| <= |probabilities|
    ensures forall p :: p in r <==> Some(p) in probabilities && p != 0.0
  {
    if probabilities == [] then []
    else
      assert probabilities == [probabilities[0]] + probabilities[1..];
      var p := probabilities[0];
      (if p.Some? && p.value != 0.0 then [p.value] else []) + Truthy(probabilities[1..])
  }

  function SumReals(xs: seq<real>): real
  {
    if xs == [] then 0.0 else xs[0] + SumReals(xs[1..])
  }

  function ProbabilitiesOf(conversations: seq<DashConversation>): seq<Option<real>>
  {
    seq(|conversations|, i requires 0 <= i < |conversations| => conversations[i].purchaseProbability)
  }

  /** The mean of the truthy probabilities; `None` where JavaScript would compute NaN. */
  function AverageProbability(conversations: seq<DashConversation>): (r: Option<real>)
    ensures r.None? <==> Truthy(ProbabilitiesOf(conversations)) == []
  {
    var ps := Truthy(ProbabilitiesOf(conversations));
    if ps == [] then None else Some(SumReals(ps) / |ps| as real)
  }

  function TrendInsight(conversations: seq<DashConversation>): (r: seq<Insight>)
    ensures |r| <= 1
    ensures AverageProbability(conversations).None? ==> r == []
    ensures r != [] && r[0].StrongLeads? <==> AverageProbability(conversations).Some? && AverageProbability(conversations).value > 0.6
    ensures r != [] && r[0].WeakLeads? <==> AverageProbability(conversations).Some? && AverageProbability(conversations).value < 0.3
  {
    var avg := AverageProbability(conversations);
    if avg.None? then []
    else if avg.value > 0.6 then [StrongLeads(Round(avg.value * 100.0))]
    else if avg.value < 0.3 then [WeakLeads(Round(avg.value * 100.0))]
    else []
  }

  function ClientInsight(totalClients: nat): (r: seq<Insight>)
    ensures r != [] <==> totalClients > 0
    ensures r != [] ==> r == [ClientBase(totalClients)]
  {
    if totalClients > 0 then [ClientBase(totalClients)] else []
  }

  /** Every rule, in the order the source applies them, before the cut to six. */
  function AllInsights(conversations: seq<DashConversation>, sentiments: Breakdown, highValueLeads: nat,
                       languages: Breakdown, totalClients: nat): seq<Insight>
    requires DistinctKeys(sentiments)
  {
    MoodInsight(sentiments) + LeadInsight(highValueLeads) + LanguageInsight(languages)
    + PeakInsight(conversations) + TrendInsight(conversations) + ClientInsight(totalClients)
  }

  /** Each rule adds at most one insight, so the cut to six never drops one. */
  lemma AtMostSixInsights(conversations: seq<DashConversation>, sentiments: Breakdown, highValueLeads: nat,
                          languages: Breakdown, totalClients: nat)
    requires DistinctKeys(sentiments)
    ensures |AllInsights(conversations, sentiments, highValueLeads, languages, totalClients)| <= 6
  {
  }

  lemma PeakInsightFromCount(conversations: seq<DashConversation>, peak: Hour, peakCount: nat)
    requires peak == Busiest(HoursOf(conversations)) && peakCount == HourCount(HoursOf(conversations), peak)
    ensures PeakInsight(conversations)
            == if peakCount as real > |conversations| as real * 0.2 then [BusiestHour(peak)] else []
  {
  }

  /** `hourCounts`: conversations per hour of the day. */
  method CountHours(hours: seq<Hour>) returns (counts: array<nat>)
    ensures fresh(counts) && counts.Length == 24
    ensures forall h: Hour :: counts[h] == HourCount(hours, h)
  {
    counts := new nat[24](_ => 0);
    var i := 0;
    while i < |hours|
      invariant 0 <= i <= |hours|
      invariant forall h: Hour :: counts[h] == HourCount(hours[..i], h)
    {
      assert hours[..i + 1][..i] == hours[..i];
      counts[hours[i]] := counts[hours[i]] + 1;
      i := i + 1;
    }
    assert hours[..|hours|] == hours;
  }

  /**
   * `peakHour`: scanning the hours upwards from 0 and moving only on a strictly larger
   * count keeps the earliest of the busiest hours.
   */
  method PeakHour(hours: seq<Hour>) returns (peak: Hour, peakCount: nat)
    ensures peak == Busiest(hours) && peakCount == HourCount(hours, peak)
    ensures forall h: Hour :: peakCount >= HourCount(hours, h)
  {
    var counts := CountHours(hours);
    peak := 0;
    var h := 1;
    while h < 24
      invariant 1 <= h <= 24
      invariant peak == BusiestBelow(hours, h)
    {
      if counts[h] > counts[peak] {
        peak := h as Hour;
      }
      h := h + 1;
    }
    peakCount := counts[peak];
  }

  /** The peak-hour push: the busiest hour, found by counting, when it holds over 20% of the conversations. */
  method PeakPart(conversations: seq<DashConversation>) returns (part: seq<Insight>)
    ensures part == PeakInsight(conversations)
  {
    var peak, peakCount := PeakHour(HoursOf(conversations));
    PeakInsightFromCount(conversations, peak, peakCount);
    part := [];
    if peakCount as real > |conversations| as real * 0.2 {
      part := [BusiestHour(peak)];
    }
  }

  /** `slice(0, 6)`. */
  function FirstSix(s: seq<Insight>): (r: seq<Insight>)
    ensures r <= s && |r| <= 6
    ensures |s| <= 6 ==> r == s
  {
    if |s| <= 6 then s else s[..6]
  }

  /** `generateAIInsights`: one push per rule, the peak found by counting hours, then the first six. */
  method GenerateAIInsights(conversations: seq<DashConversation>, sentiments: Breakdown, highValueLeads: nat,
                            languages: Breakdown, totalClients: nat) returns (insights: seq<Insight>)
    requires DistinctKeys(sentiments)
    ensures insights == AllInsights(conversations, sentiments, highValueLeads, languages, totalClients)
  {
    insights := [];
    insights := insights + MoodInsight(sentiments);
    insights := insights + LeadInsight(highValueLeads);
    insights := insights + LanguageInsight(languages);
    var peakPart := PeakPart(conversations);
    insights := insights + peakPart;
    insights := insights + TrendInsight(conversations);
    insights := insights + ClientInsight(totalClients);
    ghost var all := AllInsights(conversations, sentiments, highValueLeads, languages, totalClients);
    assert [] + MoodInsight(sentiments) == MoodInsight(sentiments);
    assert insights == all;
    AtMostSixInsights(conversations, sentiments, highValueLeads, languages, totalClients);
    assert |insights| <= 6;
    insights := FirstSix(insights);
  }
}
