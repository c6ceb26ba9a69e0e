/**
 * `GET /api/emails`: the email list with its search and status filters, newest first, one
 * page at a time, together with per-status counts.
 */
module EmailsRoute {
  import opened Wrappers
  import opened Text
  import opened Ranking
  import opened Store

  /** A numeric query parameter after `parseInt(param || default)`: absent or empty, a number, or NaN. */
  datatype NumParam = Absent | Num(n: int) | NotANumber

  datatype Query = Query(search: Option<string>, status: Option<string>, page: NumParam, limit: NumParam)

  /** `searchParams.get(name) || d`. */
  function TextOr(p: Option<string>, d: string): (r: string)
    ensures p.Some? && p.value != "" ==> r == p.value
    ensures p.None? || p.value == "" ==> r == d
  {
    if p.Some? && p.value != "" then p.value else d
  }

  /** `parseInt(searchParams.get(name) || d)`; `None` is NaN. */
  function NumOr(p: NumParam, d: int): (r: Option<int>)
    ensures p.Absent? ==> r == Some(d)
    ensures p.NotANumber? <==> r.None?
  {
    match p
    case Absent => Some(d)
    case Num(n) => Some(n)
    case NotANumber => None
  }

  /** The `where` object: the search text (empty for none) and the status constraint, if any. */
  datatype Where = Where(search: string, status: Option<string>)

  function BuildWhere(search: string, status: string): (w: Where)
    ensures w.search == search
    ensures w.status.None? <==> status == "all"
    ensures w.status.Some? ==> w.status.value == status
  {
    Where(search, if status != "all" then Some(status) else None)
  }

  /**
   * Prisma `contains` on one of the three text columns. On SQLite, the application's default
   * store, it becomes a `LIKE` pattern, which ignores the case of ASCII letters.
   */
  predicate SearchHit(e: EmailRow, search: string)
  {
    var p := AsciiLower(search);
    Includes(AsciiLower(e.from), p) || Includes(AsciiLower(e.subject), p) || Includes(AsciiLower(e.content), p)
  }

  predicate Matches(w: Where, e: EmailRow)
  {
    (w.search != "" ==> SearchHit(e, w.search)) && (w.status.Some? ==> e.status == w.status.value)
  }

  /** A row matches iff the search text occurs in its sender, subject or content, and the status agrees. */
  lemma MatchesMeaning(w: Where, e: EmailRow)
    ensures Matches(w, e) <==>
              (|| w.search == ""
               || Occurs(AsciiLower(w.search), AsciiLower(e.from))
               || Occurs(AsciiLower(w.search), AsciiLower(e.subject))
               || Occurs(AsciiLower(w.search), AsciiLower(e.content)))
              && (w.status.None? || e.status == w.status.value)
  {
    IncludesIff(AsciiLower(e.from), AsciiLower(w.search));
    IncludesIff(AsciiLower(e.subject), AsciiLower(w.search));
    IncludesIff(AsciiLower(e.content), AsciiLower(w.search));
  }

  /** Folding ASCII case only widens the search: every exact occurrence in the sender is still found. */
  lemma ExactOccurrenceIsFound(e: EmailRow, search: string)
    requires Includes(e.from, search)
    ensures SearchHit(e, search)
  {
    IncludesIff(e.from, search);
    var i :| 0 <= i <= |e.from| && search <= e.from[i..];
    var f, p := AsciiLower(e.from), AsciiLower(search);
    assert p <= f[i..] by {
      assert |p| <= |f[i..]|;
      forall k | 0 <= k < |p| ensures p[k] == f[i..][k] {
        assert e.from[i..][k] == search[k];
      }
    }
    IncludesIff(f, p);
  }

  /** A search in capitals finds a sender written in small letters. */
  lemma CapitalsFindSmallLetters()
    ensures SearchHit(EmailRow("m1", "hotel@dubai.ae", "", "", "", "new", false, false, None, 0), "HOTEL")
  {
    var f, p := AsciiLower("hotel@dubai.ae"), AsciiLower("HOTEL");
    assert p == "hotel";
    assert p <= f[0..];
    IncludesIff(f, p);
  }

  /** `status=all` (or no status) adds no constraint at all. */
  lemma StatusAllKeepsEveryStatus(search: string, e: EmailRow)
    ensures Matches(BuildWhere(search, TextOr(None, "all")), e) <==> (search == "" || SearchHit(e, search))
  {
  }

  predicate NewerFirst(a: EmailRow, b: EmailRow)
  {
    a.createdAt >= b.createdAt
  }

  lemma NewerFirstIsTotalPreorder()
    ensures TotalPreorder(NewerFirst)
  {
  }

  /** The matching rows, ordered by `createdAt` descending. */
  function Ordered(rows: seq<EmailRow>, w: Where): (r: seq<EmailRow>)
    ensures multiset(r) <= multiset(rows)
    ensures forall e :: e in r <==> e in rows && Matches(w, e)
    ensures |r| == Count(rows, w)
  {
    var matching := Matching(rows, w);
    var r := Sort(matching, NewerFirst);
    forall e ensures e in r <==> e in matching {
      assert e in r <==> e in multiset(r);
      assert e in matching <==> e in multiset(matching);
    }
    r
  }

  lemma OrderedIsNewestFirst(rows: seq<EmailRow>, w: Where)
    ensures SortedDesc(Ordered(rows, w), NewerFirst)
  {
    NewerFirstIsTotalPreorder();
    SortSorted(Matching(rows, w), NewerFirst);
  }

  /**
   * `skip`/`take` on an ordered list. A negative `take` reads backwards from the end of the
   * ordering, skipping `skip` rows there first.
   */
  function Window<T>(s: seq<T>, skip: nat, take: int): (r: seq<T>)
    ensures |r| <= (if take >= 0 then take else -take)
    ensures multiset(r) <= multiset(s)
  {
    if skip >= |s| then []
    else if take >= 0 then
      var end := if skip + take < |s| then skip + take else |s|;
      assert s == s[..skip] + s[skip..end] + s[end..];
      s[skip..end]
    else
      var end := |s| - skip;
      var start := if end + take > 0 then end + take else 0;
      assert s == s[..start] + s[start..end] + s[end..];
      s[start..end]
  }

  /** With a positive page size, row `i` of the ordering is on page `i / limit + 1`, at `i % limit`. */
  lemma RowIsOnItsPage<T>(s: seq<T>, limit: nat, i: nat)
    requires limit > 0 && i < |s|
    ensures var w := Window(s, (i / limit) * limit, limit);
            i % limit < |w| && w[i % limit] == s[i]
  {
    var skip := (i / limit) * limit;
    assert skip + i % limit == i;
  }

  /** `Math.ceil(total / limit)`; `None` when the quotient is not finite (a zero limit). */
  function Pages(total: nat, limit: int): (r: Option<int>)
    ensures r.None? <==> limit == 0
    ensures limit < 0 ==> r.value <= 0
  {
    if limit > 0 then Some((total + limit - 1) / limit)
    else if limit < 0 then Some(-(total / -limit))
    else None
  }

  /** With a positive limit the pages are exactly enough: none is empty, and together they hold every row. */
  lemma PagesAreExactlyEnough(total: nat, limit: nat)
    requires limit > 0
    ensures (Pages(total, limit).value - 1) * limit < total <= Pages(total, limit).value * limit
    ensures total == 0 <==> Pages(total, limit).value == 0
  {
    var p := (total + limit - 1) / limit;
    var rem := (total + limit - 1) % limit;
    assert p * limit + rem == total + limit - 1;
  }

  /** The per-status figures: the search part of `where` with a fixed lower-case status. */
  datatype Stats = Stats(total: nat, pending: nat, processed: nat, responded: nat, failed: nat)

  function Matching(rows: seq<EmailRow>, w: Where): (r: seq<EmailRow>)
    ensures forall e :: e in r <==> e in rows && Matches(w, e)
  {
    Filter(rows, (e: EmailRow) => Matches(w, e))
  }

  function Count(rows: seq<EmailRow>, w: Where): nat
  {
    |Matching(rows, w)|
  }

  function StatsOf(rows: seq<EmailRow>, w: Where): (r: Stats)
    ensures r.total == Count(rows, w)
    ensures r.pending == Count(rows, w.(status := Some("pending")))
    ensures r.processed == Count(rows, w.(status := Some("processed")))
    ensures r.responded == Count(rows, w.(status := Some("responded")))
    ensures r.failed == Count(rows, w.(status := Some("failed")))
  {
    Stats(Count(rows, w), Count(rows, w.(status := Some("pending"))), Count(rows, w.(status := Some("processed"))),
          Count(rows, w.(status := Some("responded"))), Count(rows, w.(status := Some("failed"))))
  }

  /** Only `total` follows the requested status; the four per-status figures override it. */
  lemma StatsIgnoreRequestedStatus(rows: seq<EmailRow>, search: string, s1: string, s2: string)
    ensures var a := StatsOf(rows, BuildWhere(search, s1));
            var b := StatsOf(rows, BuildWhere(search, s2));
            a.(total := 0) == b.(total := 0)
  {
    assert BuildWhere(search, s1).(status := Some("pending")) == BuildWhere(search, s2).(status := Some("pending"));
    assert BuildWhere(search, s1).(status := Some("processed")) == BuildWhere(search, s2).(status := Some("processed"));
    assert BuildWhere(search, s1).(status := Some("responded")) == BuildWhere(search, s2).(status := Some("responded"));
    assert BuildWhere(search, s1).(status := Some("failed")) == BuildWhere(search, s2).(status := Some("failed"));
  }

  /** A status that no row carries is counted zero times, whatever the search. */
  lemma NoRowCountedUnderOtherStatus(rows: seq<EmailRow>, w: Where, status: string)
    requires forall i :: 0 <= i < |rows| ==> rows[i].status != status
    ensures Count(rows, w.(status := Some(status))) == 0
  {
    var r := Matching(rows, w.(status := Some(status)));
    assert forall e :: e in multiset(r) <==> e in r;
    assert multiset(r) == multiset{};
  }

  /**
   * The `/api/email/process` route stores upper-case statuses (PROCESSING, RESPONDED,
   * ESCALATED), so none of its rows ever shows up in pending, processed, responded or failed.
   */
  lemma UpperCaseStatusesAreNeverCounted(rows: seq<EmailRow>, w: Where)
    requires forall i :: 0 <= i < |rows| ==> rows[i].status in {"PROCESSING", "RESPONDED", "ESCALATED"}
    ensures var st := StatsOf(rows, w);
            st.pending == 0 && st.processed == 0 && st.responded == 0 && st.failed == 0
  {
    NoRowCountedUnderOtherStatus(rows, w, "pending");
    NoRowCountedUnderOtherStatus(rows, w, "processed");
    NoRowCountedUnderOtherStatus(rows, w, "responded");
    NoRowCountedUnderOtherStatus(rows, w, "failed");
  }

  datatype EmailsResponse =
    | Listed(emails: seq<EmailRow>, stats: Stats, page: int, limit: int, total: nat, pages: Option<int>)
    | Failed

  /**
   * `GET`. A NaN page or limit, or a negative offset, is refused by the store and the route
   * answers 500 (`Failed`).
   */
  function GetEmails(rows: seq<EmailRow>, q: Query): (r: EmailsResponse)
    ensures r.Failed? <==> q.page.NotANumber? || q.limit.NotANumber?
                           || (NumOr(q.page, 1).value - 1) * NumOr(q.limit, 10).value < 0
    ensures r.Listed? ==>
              var w := BuildWhere(TextOr(q.search, ""), TextOr(q.status, "all"));
              && (forall e :: e in r.emails ==> e in rows && Matches(w, e))
              && multiset(r.emails) <= multiset(rows)
              && |r.emails| <= (if r.limit >= 0 then r.limit else -r.limit)
              && r.total == Count(rows, w) == r.stats.total
              && r.pages == Pages(r.total, r.limit)
    ensures r.Listed? ==>
              var w := BuildWhere(TextOr(q.search, ""), TextOr(q.status, "all"));
              && r.page == NumOr(q.page, 1).value && r.limit == NumOr(q.limit, 10).value
              && (r.page - 1) * r.limit >= 0
              && r.emails == Window(Ordered(rows, w), (r.page - 1) * r.limit, r.limit)
              && r.stats == StatsOf(rows, w)
  {
    var page := NumOr(q.page, 1);
    var limit := NumOr(q.limit, 10);
    if page.None? || limit.None? then Failed
    else
      var offset := (page.value - 1) * limit.value;
      if offset < 0 then Failed
      else
        var w := BuildWhere(TextOr(q.search, ""), TextOr(q.status, "all"));
        var ordered := Ordered(rows, w);
        var emails := Window(ordered, offset, limit.value);
        forall e | e in emails ensures e in rows && Matches(w, e) {
          assert e in multiset(ordered);
        }
        var stats := StatsOf(rows, w);
        Listed(emails, stats, page.value, limit.value, stats.total, Pages(stats.total, limit.value))
  }

  /** With no parameters the first ten rows of the whole table, newest first, are listed. */
  lemma DefaultIsFirstTenNewest(rows: seq<EmailRow>)
    ensures var r := GetEmails(rows, Query(None, None, Absent, Absent));
            var o := Ordered(rows, Where("", None));
            r.Listed? && r.page == 1 && r.limit == 10
            && r.emails == o[..if |o| < 10 then |o| else 10]
            && SortedDesc(r.emails, NewerFirst)
  {
    var w := Where("", None);
    var o := Ordered(rows, w);
    OrderedIsNewestFirst(rows, w);
    var n := if |o| < 10 then |o| else 10;
    var first := Window(o, 0, 10);
    assert first == o[..n];
    assert SortedDesc(first, NewerFirst) by {
      forall i, j | 0 <= i < j < |first| ensures NewerFirst(first[i], first[j]) {
        assert first[i] == o[i] && first[j] == o[j];
      }
    }
    assert BuildWhere(TextOr(None, ""), TextOr(None, "all")) == w;
    var st := StatsOf(rows, w);
    assert GetEmails(rows, Query(None, None, Absent, Absent)) == Listed(first, st, 1, 10, st.total, Pages(st.total, 10));
  }
}
