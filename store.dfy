/**
 * The email, conversation and message tables the two intake routes write. Rows are never
 * deleted, so a row's id is its position; `messageId` is a unique key of the email table.
 */
module Store {
  import opened Wrappers
  import opened Ranking

  datatype EmailRow = EmailRow(
    messageId: string,
    from: string,
    to: string,
    subject: string,
    content: string,
    status: string,
    processed: bool,
    responded: bool,
    response: Option<string>,
    createdAt: int)

  /** `status` is `None` where the route leaves the column to its default. */
  datatype ConversationRow = ConversationRow(
    emailId: nat,
    clientEmail: string,
    topic: string,
    language: Option<string>,
    sentiment: string,
    priority: string,
    purchaseProbability: real,
    summary: string,
    escalated: bool,
    status: Option<string>)

  datatype MessageRow = MessageRow(conversationId: nat, content: string, sender: string)

  ghost predicate UniqueMessageIds(rows: seq<EmailRow>)
  {
    forall i, j :: 0 <= i < j < |rows| ==> rows[i].messageId != rows[j].messageId
  }

  /** `findUnique({ where: { messageId } })`, as a position. */
  function IndexOfMessage(rows: seq<EmailRow>, messageId: string): (r: Option<nat>)
    ensures r.None? <==> forall i :: 0 <= i < |rows| ==> rows[i].messageId != messageId
    ensures r.Some? ==> r.value < |rows| && rows[r.value].messageId == messageId
  {
    LastIndexWhere(rows, (e: EmailRow) => e.messageId == messageId)
  }

  /** A new row is found at its position, and only there. */
  lemma {:induction false} IndexOfAppended(rows: seq<EmailRow>, row: EmailRow)
    requires IndexOfMessage(rows, row.messageId).None?
    ensures IndexOfMessage(rows + [row], row.messageId) == Some(|rows|)
    ensures UniqueMessageIds(rows) ==> UniqueMessageIds(rows + [row])
  {
    assert (rows + [row])[|rows|] == row;
  }

  /** Updating the row just appended is appending the updated row. */
  lemma ReplaceLast<T>(s: seq<T>, x: T, y: T)
    ensures (s + [x])[|s| := y] == s + [y]
  {
    assert forall i :: 0 <= i < |s| ==> (s + [x])[|s| := y][i] == s[i];
  }

  class Store {
    var emails: seq<EmailRow>
    var conversations: seq<ConversationRow>
    var messages: seq<MessageRow>

    ghost predicate Valid()
      reads this
    {
      UniqueMessageIds(emails)
    }

    constructor()
      ensures Valid() && emails == [] && conversations == [] && messages == []
    {
      emails := [];
      conversations := [];
      messages := [];
    }

    function FindEmail(messageId: string): (r: Option<nat>)
      reads this
      ensures r == IndexOfMessage(emails, messageId)
    {
      IndexOfMessage(emails, messageId)
    }

    method CreateEmail(row: EmailRow) returns (id: nat)
      requires Valid() && FindEmail(row.messageId).None?
      modifies this
      ensures Valid()
      ensures emails == old(emails) + [row] && id == |old(emails)|
      ensures FindEmail(row.messageId) == Some(id)
      ensures conversations == old(conversations) && messages == old(messages)
    {
      IndexOfAppended(emails, row);
      id := |emails|;
      emails := emails + [row];
    }

    /** An update that keeps the key. */
    method UpdateEmail(id: nat, row: EmailRow)
      requires Valid() && id < |emails| && row.messageId == emails[id].messageId
      modifies this
      ensures Valid()
      ensures emails == old(emails)[id := row]
      ensures FindEmail(row.messageId) == Some(id)
      ensures conversations == old(conversations) && messages == old(messages)
    {
      emails := emails[id := row];
      assert forall i :: 0 <= i < |emails| ==> emails[i].messageId == old(emails)[i].messageId;
    }

    method CreateConversation(row: ConversationRow) returns (id: nat)
      modifies this
      ensures conversations == old(conversations) + [row] && id == |old(conversations)|
      ensures emails == old(emails) && messages == old(messages)
    {
      id := |conversations|;
      conversations := conversations + [row];
    }

    method UpdateConversation(id: nat, row: ConversationRow)
      requires id < |conversations|
      modifies this
      ensures conversations == old(conversations)[id := row]
      ensures emails == old(emails) && messages == old(messages)
    {
      conversations := conversations[id := row];
    }

    method AddMessage(m: MessageRow)
      modifies this
      ensures messages == old(messages) + [m]
      ensures emails == old(emails) && conversations == old(conversations)
    {
      messages := messages + [m];
    }
  }
}
