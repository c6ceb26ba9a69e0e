/**
 * The learning queue behind `/api/learning`: customer questions the knowledge base could not
 * answer, waiting for a human answer. POST enqueues a question with a keyword priority, PUT
 * resolves it and may promote the answer into the knowledge base, GET lists a status.
 */
module Learning {
  import opened Wrappers
  import opened Text
  import opened Ranking
  import Knowledge
  import Settings

  const HighKeywords: seq<string> := ["cena", "koszt", "ile", "price", "cost", "hotel", "rezerwacja", "booking"]
  const MediumKeywords: seq<string> := ["informacja", "info", "details", "szczegóły"]

  /** A keyword hits when the lower-cased question contains it or a lower-cased tag equals it. */
  predicate Hit(word: string, questionLower: string, keywordsLower: seq<string>)
  {
    Includes(questionLower, word) || word in keywordsLower
  }

  /** `words.some(...)`, scanning the list in order. */
  function SomeHit(words: seq<string>, questionLower: string, keywordsLower: seq<string>): (r: bool)
    ensures r <==> exists w :: w in words && Hit(w, questionLower, keywordsLower)
  {
    if words == [] then false
    else Hit(words[0], questionLower, keywordsLower) || SomeHit(words[1..], questionLower, keywordsLower)
  }

  function LowerAll(keywords: seq<string>): (r: seq<string>)
    ensures |r| == |keywords| && forall i :: 0 <= i < |keywords| ==> r[i] == Lower(keywords[i])
  {
    seq(|keywords|, i requires 0 <= i < |keywords| => Lower(keywords[i]))
  }

  /** The queue priority of a question; omitted keywords count as none. */
  function DeterminePriority(question: string, keywords: Option<seq<string>>): (r: string)
    ensures r == "high" || r == "medium" || r == "low"
    ensures r == "high" <==>
              exists w :: w in HighKeywords && Hit(w, Lower(question), LowerAll(keywords.GetOr([])))
    ensures r == "medium" <==>
              (!exists w :: w in HighKeywords && Hit(w, Lower(question), LowerAll(keywords.GetOr([]))))
              && exists w :: w in MediumKeywords && Hit(w, Lower(question), LowerAll(keywords.GetOr([])))
  {
    var q := Lower(question);
    var ks := LowerAll(keywords.GetOr([]));
    if SomeHit(HighKeywords, q, ks) then "high"
    else if SomeHit(MediumKeywords, q, ks) then "medium"
    else "low"
  }

  /**
   * The edge between the two ways a keyword counts: in the question it is found as a
   * substring ("Hotels?" holds "hotel"), but a supplied keyword list must name it exactly
   * ("Hotels" does not count, "Hotel" does).
   */
  lemma QuestionBySubstringKeywordsByEquality()
    ensures DeterminePriority("Hotels?", None) == "high"
    ensures DeterminePriority("", Some(["Hotels"])) == "low"
    ensures DeterminePriority("", Some(["Hotel"])) == "high"
  {
    var q := Lower("Hotels?");
    assert q == "hotels?";
    assert "hotel" <= q[0..];
    IncludesIff(q, "hotel");
    assert Hit("hotel", q, []);

    var ks := LowerAll(["Hotels"]);
    assert Lower("Hotels") == "hotels";
    assert ks == ["hotels"];
    forall w | w in HighKeywords || w in MediumKeywords ensures !Hit(w, Lower(""), ks) {
      IncludesBounds(Lower(""), w);
    }

    var hk := LowerAll(["Hotel"]);
    assert Lower("Hotel") == "hotel";
    assert hk == ["hotel"];
    assert Hit("hotel", Lower(""), hk);
  }

  datatype LearningEntry = LearningEntry(
    id: nat,
    customerEmail: string,
    question: string,
    category: string,
    language: string,
    keywords: seq<string>,
    context: Settings.Json,
    status: string,
    priority: string,
    answer: Option<string>,
    createdAt: int,
    resolvedAt: Option<int>)

  /** `value || fallback` for an optional string field. */
  function OrDefault(value: Option<string>, fallback: string): (r: string)
    ensures value.Some? && value.value != "" ==> r == value.value
    ensures value.None? || value.value == "" ==> r == fallback
  {
    if value.Some? && value.value != "" then value.value else fallback
  }

  /** The row POST creates: pending, with the defaults for omitted fields. */
  function NewEntry(id: nat, customerEmail: string, question: string, category: Option<string>,
                    language: Option<string>, keywords: Option<seq<string>>, context: Option<Settings.Json>,
                    now: int): (e: LearningEntry)
    ensures e.status == "pending" && e.answer.None? && e.resolvedAt.None?
    ensures e.category == OrDefault(category, "unknown") && e.language == OrDefault(language, "pl")
    ensures e.keywords == keywords.GetOr([])
    ensures e.priority == DeterminePriority(question, keywords)
  {
    var ctx := if context.Some? && Settings.Truthy(context.value) then context.value else Settings.JObj(map[]);
    LearningEntry(id, customerEmail, question, OrDefault(category, "unknown"), OrDefault(language, "pl"),
                  keywords.GetOr([]), ctx, "pending", DeterminePriority(question, keywords), None, now, None)
  }

  /** The row after PUT; an omitted answer leaves the stored one. */
  function ResolvedEntry(e: LearningEntry, answer: Option<string>, now: int): (r: LearningEntry)
    ensures r.status == "resolved" && r.resolvedAt == Some(now)
    ensures answer.Some? ==> r.answer == answer
    ensures answer.None? ==> r.answer == e.answer
    ensures r.(status := e.status, answer := e.answer, resolvedAt := e.resolvedAt) == e
  {
    e.(status := "resolved", answer := if answer.Some? then answer else e.answer, resolvedAt := Some(now))
  }

  /** The title of the knowledge entry a promoted question becomes. */
  function FaqTitle(question: string): (r: string)
    ensures "FAQ: " <= r && |r| <= 5 + 50 + 3
    ensures r == "FAQ: " + Take(question, 50) + "..."
  {
    "FAQ: " + Take(question, 50) + "..."
  }

  /** An answer is promoted only when asked for and non-empty. */
  predicate Promotes(answer: Option<string>, addToKnowledgeBase: bool)
  {
    addToKnowledgeBase && answer.Some? && answer.value != ""
  }

  datatype PutResult = Resolved(addedToKnowledge: bool) | NotFound

  /** The list order: `priority` desc as a string, then `createdAt` desc. */
  predicate QueueGe(a: LearningEntry, b: LearningEntry)
  {
    LexLess(b.priority, a.priority) || (a.priority == b.priority && a.createdAt >= b.createdAt)
  }

  lemma QueueOrderIsTotalPreorder()
    ensures TotalPreorder(QueueGe)
  {
    forall a, b ensures QueueGe(a, b) || QueueGe(b, a) {
      LexTrichotomy(a.priority, b.priority);
    }
    forall a, b, c | QueueGe(a, b) && QueueGe(b, c) ensures QueueGe(a, c) {
      LexTrichotomy(a.priority, c.priority);
      if LexLess(b.priority, a.priority) && LexLess(c.priority, b.priority) {
        LexTransitive(c.priority, b.priority, a.priority);
      }
    }
  }

  /** Sorting the priority strings descending puts "medium" first and "high" last. */
  lemma HighPriorityListedLast(a: LearningEntry, b: LearningEntry, c: LearningEntry)
    requires a.priority == "medium" && b.priority == "low" && c.priority == "high"
    ensures QueueGe(a, b) && !QueueGe(b, a)
    ensures QueueGe(b, c) && !QueueGe(c, b)
  {
    LexTrichotomy("medium", "low");
    LexTrichotomy("low", "high");
  }

  /** `parseInt(limit) || 10`. */
  function ParseLimit(limit: Option<int>): (r: int)
    ensures r != 0
    ensures limit.Some? && limit.value != 0 ==> r == limit.value
    ensures limit.None? || limit.value == 0 ==> r == 10
  {
    if limit.None? || limit.value == 0 then 10 else limit.value
  }

  /** GET: the entries with the requested status (default pending), best first, at most `limit`. */
  function ListQueue(rows: seq<LearningEntry>, status: Option<string>, limit: Option<int>): (r: seq<LearningEntry>)
    ensures forall e :: e in r ==> e in rows && e.status == OrDefault(status, "pending")
    ensures var n := ParseLimit(limit); |r| <= if n >= 0 then n else -n
    ensures var matching := Filter(rows, (e: LearningEntry) => e.status == OrDefault(status, "pending"));
            var n := if ParseLimit(limit) >= 0 then ParseLimit(limit) else -ParseLimit(limit);
            |r| == (if n < |matching| then n else |matching|) && multiset(r) <= multiset(matching)
  {
    var wanted := OrDefault(status, "pending");
    var matching := Filter(rows, (e: LearningEntry) => e.status == wanted);
    var n := ParseLimit(limit);
    var r := if n >= 0 then Top(matching, QueueGe, n) else Bottom(matching, QueueGe, -n);
    forall e | e in r ensures e in rows && e.status == wanted {
      assert e in multiset(matching);
    }
    r
  }

  /** With a positive limit the list is in queue order and nothing left out outranks a listed entry. */
  lemma ListQueueIsBestFirst(rows: seq<LearningEntry>, status: Option<string>, limit: nat)
    requires limit > 0
    ensures SortedDesc(ListQueue(rows, status, Some(limit)), QueueGe)
    ensures var wanted := OrDefault(status, "pending");
            forall x, y :: x in ListQueue(rows, status, Some(limit))
                           && y in multiset(Filter(rows, (e: LearningEntry) => e.status == wanted))
                                   - multiset(ListQueue(rows, status, Some(limit)))
                           ==> QueueGe(x, y)
  {
    QueueOrderIsTotalPreorder();
    var wanted := OrDefault(status, "pending");
    TopIsBest(Filter(rows, (e: LearningEntry) => e.status == wanted), QueueGe, limit);
  }

  function CountStatus(rows: seq<LearningEntry>, status: string): (n: nat)
    ensures n <= |rows|
    ensures n > 0 <==> exists i :: 0 <= i < |rows| && rows[i].status == status
  {
    if rows == [] then 0
    else
      var rest := CountStatus(rows[1..], status);
      assert forall i :: 1 <= i < |rows| ==> rows[i] == rows[1..][i - 1];
      (if rows[0].status == status then 1 else 0) + rest
  }

  /** GET stats: each status present in the queue, mapped to its number of entries. */
  function StatusCounts(rows: seq<LearningEntry>): (m: map<string, nat>)
    ensures forall s :: s in m <==> exists i :: 0 <= i < |rows| && rows[i].status == s
    ensures forall s :: s in m ==> m[s] == CountStatus(rows, s) && m[s] > 0
  {
    map s | s in (set i | 0 <= i < |rows| :: rows[i].status) :: CountStatus(rows, s)
  }

  class LearningQueue {
    var entries: seq<LearningEntry>

    ghost predicate Valid()
      reads this
    {
      forall i :: 0 <= i < |entries| ==> entries[i].id == i
    }

    constructor()
      ensures Valid() && entries == []
    {
      entries := [];
    }

    /** POST. */
    method Enqueue(customerEmail: string, question: string, category: Option<string>, language: Option<string>,
                   keywords: Option<seq<string>>, context: Option<Settings.Json>, now: int) returns (id: nat)
      requires Valid()
      modifies this
      ensures Valid()
      ensures id == |old(entries)|
      ensures entries == old(entries) + [NewEntry(id, customerEmail, question, category, language, keywords, context, now)]
    {
      id := |entries|;
      entries := entries + [NewEntry(id, customerEmail, question, category, language, keywords, context, now)];
    }

    /**
     * PUT: resolve the entry and, when asked and the answer is non-empty, add it to the
     * knowledge base. The reply echoes the request's flag, not whether an entry was added.
     */
    method Resolve(kb: Knowledge.KnowledgeTable, learningId: nat, answer: Option<string>,
                   addToKnowledgeBase: bool, now: int) returns (r: PutResult)
      requires Valid() && kb.Valid()
      modifies this, kb
      ensures Valid() && kb.Valid()
      ensures learningId >= |old(entries)| ==>
                r == NotFound && entries == old(entries) && kb.rows == old(kb.rows) && kb.nextId == old(kb.nextId)
      ensures learningId < |old(entries)| ==>
                var e := old(entries)[learningId];
                && r == Resolved(addToKnowledgeBase)
                && entries == old(entries)[learningId := ResolvedEntry(e, answer, now)]
                && (Promotes(answer, addToKnowledgeBase) ==>
                      kb.rows == old(kb.rows) + [Knowledge.Entry(old(kb.nextId), FaqTitle(e.question), answer.value,
                                                                 Upper(e.category), e.keywords, true, now, now)])
                && (!Promotes(answer, addToKnowledgeBase) ==> kb.rows == old(kb.rows) && kb.nextId == old(kb.nextId))
    {
      if learningId >= |entries| {
        return NotFound;
      }
      var updated := ResolvedEntry(entries[learningId], answer, now);
      entries := entries[learningId := updated];
      if addToKnowledgeBase && answer.Some? && answer.value != "" {
        var _ := kb.Create(FaqTitle(updated.question), answer.value, Upper(updated.category), Some(updated.keywords), now);
      }
      r := Resolved(addToKnowledgeBase);
    }
  }

  /** Asking for promotion with an empty answer reports `addedToKnowledge` though nothing is added. */
  lemma EmptyAnswerIsNotPromoted(answer: Option<string>)
    requires answer == Some("") || answer.None?
    ensures !Promotes(answer, true)
  {
  }
}
