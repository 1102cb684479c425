/**
 * The conversations route: GET lists the caller's conversations, newest
 * first, each titled after its earliest message; DELETE removes one of the
 * caller's conversations after the ownership guard.
 */
module Conversations {
  import opened Wrappers
  import opened Store
  import opened Http
  import Chat

  const ListedTitleLength: nat := 30
  const EmptyTitle: string := "Empty Conversation"
  const IdRequired: Response := Response(400, ErrorJson("ID is required"))

  /** The conversation's earliest message, if it has one. */
  function FirstMessage(messages: seq<Message>, id: ConversationId): Option<Message>
  {
    var t := Transcript(messages, id);
    if t == [] then None else Some(t[0])
  }

  /** `c.messages[0]?.content.substring(0, 30) || 'Empty Conversation'`. */
  function ListedTitle(first: Option<Message>): string
  {
    match first
    case None => EmptyTitle
    case Some(m) => if Prefix(m.content, ListedTitleLength) == "" then EmptyTitle else Prefix(m.content, ListedTitleLength)
  }

  /** One row of the listing. */
  function Summarize(c: Conversation, messages: seq<Message>): Summary
  {
    Summary(c.id, c.createdAt, ListedTitle(FirstMessage(messages, c.id)))
  }

  /** `conversations.map(...)`: one row per conversation, in the same order. */
  function Summaries(conversations: seq<Conversation>, messages: seq<Message>): (r: seq<Summary>)
    ensures |r| == |conversations|
    ensures forall i :: 0 <= i < |r| ==> r[i] == Summarize(conversations[i], messages)
  {
    if conversations == [] then []
    else [Summarize(conversations[0], messages)] + Summaries(conversations[1..], messages)
  }

  /**
   * A listed title is the fallback or a non-empty prefix of at most 30
   * characters of the conversation's earliest message.
   */
  lemma ListedTitleShape(messages: seq<Message>, id: ConversationId)
    ensures var first := FirstMessage(messages, id);
      || (ListedTitle(first) == EmptyTitle
          && (first.None? || first.value.content == ""))
      || (&& first.Some? && first.value in messages && first.value.conversationId == id
          && ListedTitle(first) != "" && ListedTitle(first) <= first.value.content
          && |ListedTitle(first)| <= ListedTitleLength)
  {
    var first := FirstMessage(messages, id);
    if first.Some? {
      var t := Transcript(messages, id);
      assert t[0] in t;
    }
  }

  /**
   * The title shown in the listing for a conversation whose first message is
   * a chat message of 1..2000 characters is the title that message gave the
   * conversation when it was created.
   */
  lemma ListedTitleIsCreationTitle(m: Message)
    requires 1 <= |m.content|
    ensures ListedTitle(Some(m)) == Chat.Title(m.content)
  {
  }

  /** The first stored message of a new conversation is the first one saved to it. */
  lemma FreshConversationFirstMessage(messages: seq<Message>, conversations: seq<Conversation>, id: ConversationId,
                                      turn: Message, reply: Message)
    requires forall m :: m in messages ==> m.conversationId in Ids(conversations)
    requires id !in Ids(conversations)
    requires turn.conversationId == id && reply.conversationId == id
    ensures FirstMessage(messages + [turn], id) == Some(turn)
    ensures FirstMessage(messages + [turn, reply], id) == Some(turn)
  {
    Chat.FreshConversationHasNoHistory(messages, conversations, id);
    Chat.TurnExtendsTranscript(messages, id, turn, reply);
  }

  /**
   * A conversation created by a chat turn is listed under the title that turn
   * stored with it: the first stored message of the new conversation is the
   * turn's own message, and the listing's title rule applied to it gives the
   * stored `title`, whether or not the provider answered.
   */
  lemma CreatedConversationListedUnderStoredTitle(
    conversations: seq<Conversation>, messages: seq<Message>, clock: int,
    conversations': seq<Conversation>, messages': seq<Message>, clock': int,
    userId: UserId, input: Chat.ChatInput, freshId: ConversationId,
    provider: seq<Chat.ApiMessage> -> Chat.Completion, response: Response, sent: Option<seq<Chat.ApiMessage>>)
    requires forall m :: m in messages ==> m.conversationId in Ids(conversations)
    requires freshId !in Ids(conversations)
    requires input.conversationId.None? && 1 <= |input.message|
    requires Chat.TurnOutcome(conversations, messages, clock, conversations', messages', clock',
                              userId, input, freshId, provider, response, sent)
    ensures Find(conversations', freshId).Some?
    ensures Find(conversations', freshId).value.userId == userId
    ensures Find(conversations', freshId).value.title == ListedTitle(FirstMessage(messages', freshId))
  {
    var created := Conversation(freshId, userId, Chat.Title(input.message), clock);
    var turn := Message(freshId, User, input.message, clock + 1);
    var reply := Message(freshId, Assistant, if provider(sent.value).Completed? then provider(sent.value).text else "", clock + 2);
    assert conversations' == conversations + [created];
    assert messages' == messages + [turn] || messages' == messages + [turn, reply];
    FindAppended(conversations, created);
    FreshConversationFirstMessage(messages, conversations, freshId, turn, reply);
    ListedTitleIsCreationTitle(turn);
  }

  /**
   * The listing: `conversation.findMany({ where: { userId }, orderBy: { createdAt: 'desc' } })`
   * followed by the row formatting.
   */
  function Listing(conversations: seq<Conversation>, messages: seq<Message>, userId: UserId): seq<Summary>
  {
    Summaries(Reverse(OwnedBy(conversations, userId)), messages)
  }

  /** Row i of the listing summarises the caller's i-th newest conversation. */
  lemma ListingAt(conversations: seq<Conversation>, messages: seq<Message>, userId: UserId)
    ensures var owned := OwnedBy(conversations, userId);
      && |Listing(conversations, messages, userId)| == |owned|
      && forall i :: 0 <= i < |owned| ==>
           Listing(conversations, messages, userId)[i] == Summarize(owned[|owned| - 1 - i], messages)
  {
  }

  /** The caller's conversations are exactly those with the caller as owner. */
  lemma OwnedByMembers(conversations: seq<Conversation>, userId: UserId)
    ensures forall c :: c in OwnedBy(conversations, userId) <==> c in conversations && c.userId == userId
  {
  }

  /** Rows built from the reversed `owned` rows come from `owned`'s conversations. */
  lemma RowsComeFromOwned(items: seq<Summary>, owned: seq<Conversation>, messages: seq<Message>)
    requires |items| == |owned|
    requires forall i :: 0 <= i < |owned| ==> items[i] == Summarize(owned[|owned| - 1 - i], messages)
    ensures forall s :: s in items ==> exists c :: c in owned && c.id == s.id && c.createdAt == s.createdAt
  {
    forall s | s in items
      ensures exists c :: c in owned && c.id == s.id && c.createdAt == s.createdAt
    {
      var i :| 0 <= i < |items| && items[i] == s;
      var c := owned[|owned| - 1 - i];
      assert c in owned && c.id == s.id && c.createdAt == s.createdAt;
    }
  }

  /** Every conversation of `owned` has its row among the reversed rows. */
  lemma OwnedRowsPresent(items: seq<Summary>, owned: seq<Conversation>, messages: seq<Message>)
    requires |items| == |owned|
    requires forall i :: 0 <= i < |owned| ==> items[i] == Summarize(owned[|owned| - 1 - i], messages)
    ensures forall c :: c in owned ==> Summarize(c, messages) in items
  {
    forall c | c in owned
      ensures Summarize(c, messages) in items
    {
      var k :| 0 <= k < |owned| && owned[k] == c;
      assert items[|owned| - 1 - k] == Summarize(c, messages);
    }
  }

  /** Every listed row is one of the caller's conversations, with its own id and createdAt. */
  lemma ListingOwnedOnly(conversations: seq<Conversation>, messages: seq<Message>, userId: UserId)
    ensures |Listing(conversations, messages, userId)| == |OwnedBy(conversations, userId)|
    ensures forall s :: s in Listing(conversations, messages, userId) ==>
      exists c :: c in conversations && c.userId == userId && c.id == s.id && c.createdAt == s.createdAt
  {
    var owned := OwnedBy(conversations, userId);
    var items := Listing(conversations, messages, userId);
    ListingAt(conversations, messages, userId);
    OwnedByMembers(conversations, userId);
    RowsComeFromOwned(items, owned, messages);
  }

  /** Every conversation of the caller is listed. */
  lemma ListingComplete(conversations: seq<Conversation>, messages: seq<Message>, userId: UserId)
    ensures forall c :: c in conversations && c.userId == userId ==>
      Summarize(c, messages) in Listing(conversations, messages, userId)
  {
    var owned := OwnedBy(conversations, userId);
    ListingAt(conversations, messages, userId);
    OwnedByMembers(conversations, userId);
    OwnedRowsPresent(Listing(conversations, messages, userId), owned, messages);
  }

  /** In a chronological store the listing is strictly newest first. */
  lemma ListingNewestFirst(conversations: seq<Conversation>, messages: seq<Message>, userId: UserId)
    requires Pairwise(conversations, StartedBefore)
    ensures var items := Listing(conversations, messages, userId);
      forall i, j :: 0 <= i < j < |items| ==> items[i].createdAt > items[j].createdAt
  {
    var owned := OwnedBy(conversations, userId);
    FilterPairwise(conversations, (c: Conversation) => c.userId == userId, StartedBefore);
    var items := Listing(conversations, messages, userId);
    forall i, j | 0 <= i < j < |items|
      ensures items[i].createdAt > items[j].createdAt
    {
      assert StartedBefore(owned[|owned| - 1 - j], owned[|owned| - 1 - i]);
    }
  }

  /** GET: the caller's conversations, newest first, with their derived titles. */
  method List(db: Db, headers: Headers) returns (response: Response)
    requires db.Valid()
    ensures Get(headers, UserIdHeader).None? ==> response == Unauthorized
    ensures Get(headers, UserIdHeader).Some? ==>
      response == Response(200, SummariesJson(Listing(db.conversations, db.messages, Get(headers, UserIdHeader).value)))
  {
    var userId := Get(headers, UserIdHeader);
    if userId.None? {
      return Unauthorized;
    }
    var owned := OwnedBy(db.conversations, userId.value);
    var newestFirst := Reverse(owned);
    var items := Summaries(newestFirst, db.messages);
    response := Response(200, SummariesJson(items));
  }

  /** A deleted conversation is gone for everyone, with all its messages, and nothing else is. */
  lemma DeletionIsComplete(conversations: seq<Conversation>, messages: seq<Message>, id: ConversationId, userId: UserId)
    ensures Guard(WithoutConversation(conversations, id), userId, id).None?
    ensures Transcript(WithoutMessagesOf(messages, id), id) == []
    ensures forall c :: c in WithoutConversation(conversations, id) <==> c in conversations && c.id != id
    ensures forall m :: m in WithoutMessagesOf(messages, id) <==> m in messages && m.conversationId != id
  {
    var rest := WithoutMessagesOf(messages, id);
    FilterNone(rest, (m: Message) => m.conversationId == id);
  }

  /** DELETE: remove one of the caller's conversations. */
  method Delete(db: Db, headers: Headers, query: map<string, string>) returns (response: Response)
    requires db.Valid()
    modifies db
    ensures db.Valid() && db.users == old(db.users)
    ensures Get(headers, UserIdHeader).None? ==> response == Unauthorized && unchanged(db)
    ensures Get(headers, UserIdHeader).Some? && Get(query, "id").None? ==> response == IdRequired && unchanged(db)
    ensures Get(headers, UserIdHeader).Some? && Get(query, "id").Some? ==>
      var userId, id := Get(headers, UserIdHeader).value, Get(query, "id").value;
      if Guard(old(db.conversations), userId, id).None? then
        response == NotFoundOrUnauthorized && unchanged(db)
      else
        && response == Ok
        && db.conversations == WithoutConversation(old(db.conversations), id)
        && db.messages == WithoutMessagesOf(old(db.messages), id)
  {
    var userId := Get(headers, UserIdHeader);
    if userId.None? {
      return Unauthorized;
    }
    var id := Get(query, "id");
    if id.None? {
      return IdRequired;
    }
    var conversation := Guard(db.conversations, userId.value, id.value);
    if conversation.None? {
      return NotFoundOrUnauthorized;
    }
    db.DeleteConversation(id.value);
    response := Ok;
  }
}
