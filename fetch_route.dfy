/**
 * `POST /api/email/fetch`: pull the latest messages from the mailbox and answer each new
 * one. The mailbox listing and every service verdict (storage, language, categorisation,
 * generated reply, SMTP send, mark-as-read) are inputs; the loop's dedup, the status
 * progression of each stored email and the counting of the report are modelled.
 */
module FetchRoute {
  import opened Wrappers
  import opened AiFallback
  import opened AiProviders
  import opened Store
  import Ranking

  datatype ImapConfig = ImapConfig(host: string, user: string, pass: string)

  /** IMAP_HOST, IMAP_USER and IMAP_PASS are all set. */
  predicate Configured(c: ImapConfig)
  {
    c.host != "" && c.user != "" && c.pass != ""
  }

  datatype Fetched = Fetched(messageId: string, from: string, to: string, subject: string, content: string, date: int)

  /**
   * What the services did for one message: whether storing it worked (and the error text
   * when not), the detected language, the categorisation, the generated reply and whether
   * sending and marking as read succeeded.
   */
  datatype Services = Services(
    saveOk: bool,
    errorMessage: string,
    language: string,
    category: CategoryRecord,
    reply: AiReply,
    sendOk: bool,
    markReadOk: bool)

  datatype Incoming = Incoming(mail: Fetched, services: Services)

  /** One entry of the report: a handled email (`processed: true`) or a failure (`processed: false`). */
  datatype Entry =
    | Done(id: nat, subject: string, from: string, to: string, responded: bool, status: string, aiProvider: string)
    | Failed(messageId: string, subject: string, from: string, error: string)

  predicate IsDone(e: Entry) { e.Done? }

  datatype FetchResult =
    | FetchFailed
    | NoNewEmails
    | Report(processed: nat, total: nat, entries: seq<Entry>)

  /** The conversation priority from the categoriser's urgency. */
  function ConversationPriority(urgency: string): (r: string)
    ensures urgency == "high" || urgency == "low" ==> r == urgency
    ensures urgency != "high" && urgency != "low" ==> r == "medium"
  {
    if urgency == "high" then "high" else if urgency == "low" then "low" else "medium"
  }

  /** The purchase probability guessed from the price range. */
  function PurchaseProbability(priceRange: string): (r: real)
    ensures r == 0.8 <==> priceRange == "luxury"
    ensures r == 0.3 <==> priceRange == "budget"
    ensures r == 0.5 <==> priceRange != "luxury" && priceRange != "budget"
  {
    if priceRange == "luxury" then 0.8 else if priceRange == "budget" then 0.3 else 0.5
  }

  /** The row as first stored. */
  function NewEmail(m: Fetched): EmailRow
  {
    EmailRow(m.messageId, m.from, m.to, m.subject, m.content, "new", false, false, None, m.date)
  }

  function ConversationFor(emailId: nat, m: Fetched, s: Services): ConversationRow
  {
    ConversationRow(emailId, m.from, m.subject,
                    Some(if s.reply.detectedLanguage != "" then s.reply.detectedLanguage else s.language),
                    if s.category.sentiment != "" then s.category.sentiment else "neutral",
                    ConversationPriority(s.category.urgency), PurchaseProbability(s.category.priceRange),
                    "Email od " + m.from + ": " + m.subject, false, Some("active"))
  }

  /** Where the status ends: answered and sent, answered but not sent, or no answer at all. */
  function FinalStatus(s: Services): (r: string)
    ensures r == "responded" <==> s.reply.response != "" && s.sendOk
    ensures r == "send_error" <==> s.reply.response != "" && !s.sendOk
    ensures r == "no_response" <==> s.reply.response == ""
  {
    if s.reply.response == "" then "no_response" else if s.sendOk then "responded" else "send_error"
  }

  /** The email row once the loop is done with it. */
  function StoredEmail(m: Fetched, s: Services): (e: EmailRow)
    ensures e.processed && e.status == FinalStatus(s)
    ensures e.responded <==> e.status == "responded"
    ensures e.response.Some? <==> s.reply.response != ""
    ensures e.(status := "new", processed := false, responded := false, response := None) == NewEmail(m)
  {
    if s.reply.response != "" then
      NewEmail(m).(response := Some(s.reply.response), processed := true, status := FinalStatus(s), responded := s.sendOk)
    else
      NewEmail(m).(processed := true, status := "no_response")
  }

  function ProviderName(reply: AiReply): string
  {
    if reply.provider != "" then reply.provider else "unknown"
  }

  /** The tables the loop writes and the report it builds. */
  datatype Tables = Tables(emails: seq<EmailRow>, conversations: seq<ConversationRow>, entries: seq<Entry>)

  /** One iteration of the loop. */
  function Step(t: Tables, x: Incoming): (r: Tables)
    ensures IndexOfMessage(t.emails, x.mail.messageId).Some? ==> r == t
    ensures IndexOfMessage(t.emails, x.mail.messageId).None? && !x.services.saveOk ==>
              r.emails == t.emails && r.conversations == t.conversations && |r.entries| == |t.entries| + 1
              && r.entries[|t.entries|].Failed?
    ensures IndexOfMessage(t.emails, x.mail.messageId).None? && x.services.saveOk ==>
              r.emails == t.emails + [StoredEmail(x.mail, x.services)]
              && |r.conversations| == |t.conversations| + 1 && r.conversations[|t.conversations|].emailId == |t.emails|
              && |r.entries| == |t.entries| + 1 && r.entries[|t.entries|].Done?
              && r.entries[|t.entries|].status == "new"
              && (r.entries[|t.entries|].responded <==> x.services.reply.response != "")
    ensures t.entries <= r.entries
  {
    var m := x.mail;
    var s := x.services;
    if IndexOfMessage(t.emails, m.messageId).Some? then t
    else if !s.saveOk then t.(entries := t.entries + [Failed(m.messageId, m.subject, m.from, s.errorMessage)])
    else
      var id := |t.emails|;
      Tables(t.emails + [StoredEmail(m, s)], t.conversations + [ConversationFor(id, m, s)],
             t.entries + [Done(id, m.subject, m.from, m.to, s.reply.response != "", "new", ProviderName(s.reply))])
  }

  /** The loop over a batch, from the front. */
  function Run(t: Tables, xs: seq<Incoming>): Tables
    decreases |xs|
  {
    if xs == [] then t else Step(Run(t, xs[..|xs| - 1]), xs[|xs| - 1])
  }

  /** Every report entry of a handled email gives the status the row was created with. */
  predicate ReportsCreationStatus(entries: seq<Entry>)
  {
    forall i :: 0 <= i < |entries| && entries[i].Done? ==> entries[i].status == "new"
  }

  /** The loop appends at most one entry per message, and only ever appends. */
  lemma {:induction false} RunAppendsEntries(t: Tables, xs: seq<Incoming>)
    ensures t.entries <= Run(t, xs).entries
    ensures |Run(t, xs).entries| <= |t.entries| + |xs|
    ensures |Run(t, xs).emails| <= |t.emails| + |xs|
    ensures ReportsCreationStatus(t.entries) ==> ReportsCreationStatus(Run(t, xs).entries)
    decreases |xs|
  {
    if xs != [] {
      RunAppendsEntries(t, xs[..|xs| - 1]);
    }
  }

  /** The loop keeps `messageId` unique in the email table. */
  lemma {:induction false} RunKeepsKeysUnique(t: Tables, xs: seq<Incoming>)
    requires UniqueMessageIds(t.emails)
    ensures UniqueMessageIds(Run(t, xs).emails)
    decreases |xs|
  {
    if xs != [] {
      var u := Run(t, xs[..|xs| - 1]);
      RunKeepsKeysUnique(t, xs[..|xs| - 1]);
      var x := xs[|xs| - 1];
      if IndexOfMessage(u.emails, x.mail.messageId).None? && x.services.saveOk {
        IndexOfAppended(u.emails, StoredEmail(x.mail, x.services));
      }
    }
  }

  /** A message fetched twice in one batch is stored and reported once. */
  lemma SecondCopyIsSkipped(t: Tables, x: Incoming)
    requires x.services.saveOk
    ensures Step(Step(t, x), x) == Step(t, x)
  {
    if IndexOfMessage(t.emails, x.mail.messageId).None? {
      IndexOfAppended(t.emails, StoredEmail(x.mail, x.services));
    }
  }

  /** Whether marking the message as read worked changes nothing. */
  lemma MarkAsReadIsIrrelevant(t: Tables, x: Incoming, ok: bool)
    ensures Step(t, x.(services := x.services.(markReadOk := ok))) == Step(t, x)
  {
  }

  /**
   * The body of the loop for a message not stored yet: store it, open its conversation,
   * record the reply and the send outcome.
   */
  method StoreAndAnswer(store: Store, m: Fetched, s: Services) returns (entry: Entry)
    requires store.Valid() && store.FindEmail(m.messageId).None?
    modifies store
    ensures store.Valid()
    ensures store.emails == old(store.emails) + [StoredEmail(m, s)]
    ensures store.conversations == old(store.conversations) + [ConversationFor(|old(store.emails)|, m, s)]
    ensures store.messages == old(store.messages)
    ensures entry == Done(|old(store.emails)|, m.subject, m.from, m.to, s.reply.response != "", "new", ProviderName(s.reply))
  {
    var id := store.CreateEmail(NewEmail(m));
    var _ := store.CreateConversation(ConversationFor(id, m, s));
    if s.reply.response != "" {
      var answered := NewEmail(m).(response := Some(s.reply.response), processed := true, status := "processing");
      store.UpdateEmail(id, answered);
      if s.sendOk {
        store.UpdateEmail(id, answered.(responded := true, status := "responded"));
      } else {
        store.UpdateEmail(id, answered.(status := "send_error"));
      }
    } else {
      store.UpdateEmail(id, NewEmail(m).(processed := true, status := "no_response"));
    }
    ReplaceLast(old(store.emails), NewEmail(m), StoredEmail(m, s));
    entry := Done(id, m.subject, m.from, m.to, s.reply.response != "", "new", ProviderName(s.reply));
  }

  /** The loop itself, run once the mailbox has been listed. */
  method ProcessBatch(store: Store, items: seq<Incoming>) returns (entries: seq<Entry>)
    requires store.Valid()
    modifies store
    ensures store.Valid()
    ensures Tables(store.emails, store.conversations, entries)
            == Run(Tables(old(store.emails), old(store.conversations), []), items)
    ensures store.messages == old(store.messages)
  {
    ghost var start := Tables(store.emails, store.conversations, []);
    entries := [];
    var i := 0;
    while i < |items|
      invariant 0 <= i <= |items|
      invariant store.Valid()
      invariant Tables(store.emails, store.conversations, entries) == Run(start, items[..i])
      invariant store.messages == old(store.messages)
    {
      assert items[..i + 1][..i] == items[..i];
      ghost var before := Tables(store.emails, store.conversations, entries);
      assert Run(start, items[..i + 1]) == Step(before, items[i]);
      var m := items[i].mail;
      var s := items[i].services;
      var existing := store.FindEmail(m.messageId);
      if existing.Some? {
        i := i + 1;
        continue;
      }
      if !s.saveOk {
        entries := entries + [Failed(m.messageId, m.subject, m.from, s.errorMessage)];
        i := i + 1;
        continue;
      }
      var entry := StoreAndAnswer(store, m, s);
      entries := entries + [entry];
      i := i + 1;
    }
    assert items[..|items|] == items;
  }

  /** The route: configuration check, mailbox listing, the loop and the report. */
  method FetchEmails(store: Store, config: ImapConfig, fetched: Outcome<seq<Incoming>>) returns (r: FetchResult)
    requires store.Valid()
    modifies store
    ensures store.Valid()
    ensures !Configured(config) || fetched.Threw? || fetched == Answered([]) ==>
              store.emails == old(store.emails) && store.conversations == old(store.conversations)
              && store.messages == old(store.messages)
    ensures !Configured(config) || fetched.Threw? ==> r == FetchFailed
    ensures Configured(config) && fetched == Answered([]) ==> r == NoNewEmails
    ensures Configured(config) && fetched.Answered? && fetched.answer != [] ==>
              var t := Run(Tables(old(store.emails), old(store.conversations), []), fetched.answer);
              && store.emails == t.emails && store.conversations == t.conversations
              && store.messages == old(store.messages)
              && r == Report(|Ranking.Filter(t.entries, IsDone)|, |t.entries|, t.entries)
  {
    if !Configured(config) || fetched.Threw? {
      return FetchFailed;
    }
    if fetched.answer == [] {
      return NoNewEmails;
    }
    var entries := ProcessBatch(store, fetched.answer);
    r := Report(|Ranking.Filter(entries, IsDone)|, |entries|, entries);
  }

  /** The report never counts more handled emails than entries, nor more entries than fetched messages. */
  lemma ReportBounds(emails: seq<EmailRow>, conversations: seq<ConversationRow>, items: seq<Incoming>)
    ensures var t := Run(Tables(emails, conversations, []), items);
            |Ranking.Filter(t.entries, IsDone)| <= |t.entries| <= |items|
            && ReportsCreationStatus(t.entries)
  {
    RunAppendsEntries(Tables(emails, conversations, []), items);
  }
}
