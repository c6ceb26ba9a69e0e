/**
 * The Gmail and SMTP helpers: reading a fetched Gmail message into a flat record, the
 * success-or-throw contract of sending, and listing messages. The transport, the Gmail API
 * and base64 decoding are parameters: `decode` stands for `Buffer.from(data, 'base64').toString()`.
 */
module Mail {
  import opened Wrappers

  datatype Header = Header(name: string, value: string)

  /** A message part body; `data` is the base64 payload when Gmail sends one. */
  datatype PartBody = PartBody(data: Option<string>)

  datatype Part = Part(mimeType: string, body: PartBody)

  /** `parts` is `None` when the payload has no `parts` array; an empty array is `Some([])`. */
  datatype Payload = Payload(headers: seq<Header>, parts: Option<seq<Part>>, body: PartBody)

  datatype GmailMessage = GmailMessage(id: string, threadId: string, snippet: string, payload: Payload)

  datatype ParsedMessage = ParsedMessage(
    id: string,
    threadId: string,
    subject: string,
    from: string,
    to: string,
    date: string,
    body: string,
    snippet: string)

  /** `headers.find(h => h.name === name)?.value`. */
  function FirstHeader(headers: seq<Header>, name: string): Option<string>
  {
    if headers == [] then None
    else if headers[0].name == name then Some(headers[0].value)
    else FirstHeader(headers[1..], name)
  }

  /** The lookup finds the first header with exactly that name, and finds nothing only when there is none. */
  lemma {:induction false} FirstHeaderIsFirstMatch(headers: seq<Header>, name: string)
    ensures FirstHeader(headers, name).None? <==> forall i :: 0 <= i < |headers| ==> headers[i].name != name
    ensures FirstHeader(headers, name).Some? ==>
              exists i :: 0 <= i < |headers| && headers[i].name == name
                          && FirstHeader(headers, name).value == headers[i].value
                          && forall j :: 0 <= j < i ==> headers[j].name != name
  {
    if headers == [] || headers[0].name == name {
    } else {
      var r := FirstHeader(headers[1..], name);
      FirstHeaderIsFirstMatch(headers[1..], name);
      assert forall i :: 1 <= i < |headers| ==> headers[i] == headers[1..][i - 1];
      if r.Some? {
        var i :| 0 <= i < |headers| - 1 && headers[1..][i].name == name && r.value == headers[1..][i].value
                 && forall j :: 0 <= j < i ==> headers[1..][j].name != name;
        assert headers[i + 1].name == name && r.value == headers[i + 1].value;
        assert forall j :: 0 <= j < i + 1 ==> headers[j].name != name;
      }
    }
  }

  /** `...?.value || ''`: a missing header, like an empty one, reads as the empty string. */
  function HeaderOrEmpty(headers: seq<Header>, name: string): string
  {
    FirstHeader(headers, name).GetOr("")
  }

  /** A repeated header never displaces the first one. */
  lemma {:induction false} LaterHeaderIsIgnored(headers: seq<Header>, h: Header, name: string)
    requires FirstHeader(headers, name).Some?
    ensures FirstHeader(headers + [h], name) == FirstHeader(headers, name)
  {
    if headers[0].name != name {
      assert (headers + [h])[1..] == headers[1..] + [h];
      LaterHeaderIsIgnored(headers[1..], h, name);
    }
  }

  /** JavaScript truthiness of `body.data`: present and non-empty. */
  predicate HasData(b: PartBody)
  {
    b.data.Some? && b.data.value != ""
  }

  /** `parts.find(part => part.mimeType === 'text/plain')`. */
  function FirstTextPart(parts: seq<Part>): (r: Option<Part>)
    ensures r.None? <==> forall i :: 0 <= i < |parts| ==> parts[i].mimeType != "text/plain"
    ensures r.Some? ==> r.value.mimeType == "text/plain" && r.value in parts
  {
    if parts == [] then None
    else if parts[0].mimeType == "text/plain" then Some(parts[0])
    else
      var r := FirstTextPart(parts[1..]);
      assert forall i :: 1 <= i < |parts| ==> parts[i] == parts[1..][i - 1];
      r
  }

  /** The message text: the first plain-text part when there are parts, the payload body otherwise. */
  function MessageBody(p: Payload, decode: string -> string): string
  {
    if p.parts.Some? then
      match FirstTextPart(p.parts.value)
      case Some(part) => if HasData(part.body) then decode(part.body.data.value) else ""
      case None => ""
    else if HasData(p.body) then decode(p.body.data.value)
    else ""
  }

  /** `parseGmailMessage`. */
  function ParseGmailMessage(m: GmailMessage, decode: string -> string): (r: ParsedMessage)
    ensures r.id == m.id && r.threadId == m.threadId && r.snippet == m.snippet
  {
    var hs := m.payload.headers;
    ParsedMessage(m.id, m.threadId, HeaderOrEmpty(hs, "Subject"), HeaderOrEmpty(hs, "From"),
                  HeaderOrEmpty(hs, "To"), HeaderOrEmpty(hs, "Date"), MessageBody(m.payload, decode), m.snippet)
  }

  /** Each of the four header fields is the first header of that exact name, or empty without one. */
  lemma ParsedHeadersAreFirstMatches(m: GmailMessage, decode: string -> string, name: string)
    requires name in ["Subject", "From", "To", "Date"]
    ensures var r := ParseGmailMessage(m, decode);
            var v := if name == "Subject" then r.subject else if name == "From" then r.from
                     else if name == "To" then r.to else r.date;
            (v != "" ==> exists i :: 0 <= i < |m.payload.headers| && m.payload.headers[i].name == name
                                      && m.payload.headers[i].value == v)
            && ((forall i :: 0 <= i < |m.payload.headers| ==> m.payload.headers[i].name != name) ==> v == "")
  {
    FirstHeaderIsFirstMatch(m.payload.headers, name);
  }

  /** Once the payload has parts, its own body is never read, even when no part is plain text. */
  lemma PartsShadowPayloadBody(p: Payload, other: PartBody, decode: string -> string)
    requires p.parts.Some?
    ensures MessageBody(p.(body := other), decode) == MessageBody(p, decode)
    ensures (forall i :: 0 <= i < |p.parts.value| ==> p.parts.value[i].mimeType != "text/plain")
            ==> MessageBody(p, decode) == ""
  {
  }

  /**
   * The edge of the part search: the first `text/plain` part is taken even when it carries no
   * data, so a later plain-text part with data, and the payload body, are both left unread.
   */
  lemma OnlyFirstTextPartIsRead(decode: string -> string, data: string)
    requires data != ""
    ensures var p := Payload([], Some([Part("text/plain", PartBody(None)), Part("text/plain", PartBody(Some(data)))]),
                             PartBody(Some(data)));
            MessageBody(p, decode) == ""
  {
  }

  /** Without parts, the body is the decoded payload body, or empty when it carries no data. */
  lemma NoPartsReadsPayloadBody(p: Payload, decode: string -> string)
    requires p.parts.None?
    ensures HasData(p.body) ==> MessageBody(p, decode) == decode(p.body.data.value)
    ensures !HasData(p.body) ==> MessageBody(p, decode) == ""
  {
  }

  /** What the transport is asked to deliver. */
  datatype MailOptions = MailOptions(from: string, to: string, subject: string, text: string, html: string)

  datatype SendReceipt = SendReceipt(success: bool, messageId: string)

  /** `sendEmail`: `transport` is `transporter.sendMail`, answering with the message id or throwing. */
  function SendEmail(smtpUser: string, to: string, subject: string, html: string, text: string,
                     transport: MailOptions -> Outcome<string>): (r: Outcome<SendReceipt>)
    ensures r.Answered? <==> transport(MailOptions(smtpUser, to, subject, text, html)).Answered?
    ensures r.Answered? ==> r.answer.success
                            && r.answer.messageId == transport(MailOptions(smtpUser, to, subject, text, html)).answer
  {
    match transport(MailOptions(smtpUser, to, subject, text, html))
    case Answered(id) => Answered(SendReceipt(true, id))
    case Threw => Threw
  }

  /** No call of SendEmail answers with `success` false. */
  lemma SendNeverReportsFailure(smtpUser: string, to: string, subject: string, html: string, text: string,
                                transport: MailOptions -> Outcome<string>)
    ensures var r := SendEmail(smtpUser, to, subject, html, text, transport);
            r.Answered? ==> r.answer.success
  {
  }

  /** Fetching and parsing every listed message; one failed fetch fails the whole batch, as `Promise.all` does. */
  function FetchAll(ids: seq<string>, get: string -> Outcome<GmailMessage>, decode: string -> string): (r: Outcome<seq<ParsedMessage>>)
    ensures r.Answered? <==> forall i :: 0 <= i < |ids| ==> get(ids[i]).Answered?
    ensures r.Answered? ==> |r.answer| == |ids|
                            && forall i :: 0 <= i < |ids| ==> r.answer[i] == ParseGmailMessage(get(ids[i]).answer, decode)
  {
    if ids == [] then Answered([])
    else
      var rest := FetchAll(ids[1..], get, decode);
      assert forall i :: 1 <= i < |ids| ==> ids[i] == ids[1..][i - 1];
      match get(ids[0])
      case Threw => Threw
      case Answered(m) =>
        match rest
        case Threw => Threw
        case Answered(ms) => Answered([ParseGmailMessage(m, decode)] + ms)
  }

  /**
   * `getGmailMessages`: `listing` is the answer of `messages.list` (`None` when it has no
   * `messages` field), `get` fetches one message in full.
   */
  function GetGmailMessages(listing: Outcome<Option<seq<string>>>, get: string -> Outcome<GmailMessage>,
                            decode: string -> string): (r: Outcome<seq<ParsedMessage>>)
    ensures listing.Threw? ==> r.Threw?
    ensures listing == Answered(None) ==> r == Answered([])
  {
    match listing
    case Threw => Threw
    case Answered(None) => Answered([])
    case Answered(Some(ids)) => FetchAll(ids, get, decode)
  }

  /** An answered listing yields one parsed message per listed id, in listing order, or a failure. */
  lemma ListedMessagesAreParsedInOrder(ids: seq<string>, get: string -> Outcome<GmailMessage>, decode: string -> string)
    ensures var r := GetGmailMessages(Answered(Some(ids)), get, decode);
            (r.Answered? <==> forall i :: 0 <= i < |ids| ==> get(ids[i]).Answered?)
            && (r.Answered? ==> |r.answer| == |ids| && forall i :: 0 <= i < |ids| ==> r.answer[i].id == get(ids[i]).answer.id)
  {
  }
}
