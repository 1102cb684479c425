/**
 * The chat route: GET returns the transcript of one of the caller's
 * conversations; POST runs one conversation turn (authorise, rate-limit,
 * validate, check configuration, create or guard the conversation, save the
 * user turn, send the ordered history to the completion provider, save the
 * assistant turn).
 */
module Chat {
  import opened Wrappers
  import opened Store
  import opened Http
  import RateLimit

  const MaxMessageLength: int := 2000
  const TitleLength: int := 30
  /** The rate-limit key when no `x-forwarded-for` header is sent. */
  const LoopbackAddress: string := "127.0.0.1"

  /** A member of the request's JSON object, as the schema sees it. */
  datatype Field = Absent | Null | Str(text: string) | OtherJson

  /** The request body: not JSON at all, JSON but not an object, or an object. */
  datatype Body = Unparsable | NotAnObject | Object(message: Field, conversationId: Field)

  /** What the schema hands on when the body is valid. */
  datatype ChatInput = ChatInput(message: string, conversationId: Option<ConversationId>)

  /** One entry of the history sent to the completion provider. */
  datatype ApiMessage = ApiMessage(role: Role, content: string)

  /** The completion provider's answer: a non-OK status, or the reply text. */
  datatype Completion = Failed | Completed(text: string)

  const TooManyRequests: Response := Response(429, ErrorJson("Too many requests"))
  const InvalidBody: Response := Response(400, ErrorJson("Invalid request body"))
  const Misconfigured: Response := Response(500, ErrorJson("Service misconfigured"))
  const UpstreamFailure: Response := Response(500, ErrorJson("Failed to fetch from OpenAI"))
  const ConversationIdRequired: Response := Response(400, ErrorJson("Conversation ID is required"))

  predicate IsHexDigit(c: char)
  {
    '0' <= c <= '9' || 'a' <= c <= 'f' || 'A' <= c <= 'F'
  }

  /** The 8-4-4-4-12 hexadecimal shape of a UUID. */
  predicate IsUuid(s: string)
  {
    |s| == 36 && forall i :: 0 <= i < 36 ==> if i in {8, 13, 18, 23} then s[i] == '-' else IsHexDigit(s[i])
  }

  /** The title a new conversation is created with: the message's first 30 characters. */
  function Title(message: string): string
  {
    Prefix(message, TitleLength)
  }

  /** `chatSchema.safeParse(body)`. */
  function ChatSchema(body: Body): (r: Option<ChatInput>)
    requires !body.Unparsable?
    ensures r.Some? <==>
      && body.Object?
      && body.message.Str? && 1 <= |body.message.text| <= MaxMessageLength
      && (body.conversationId in {Absent, Null} || (body.conversationId.Str? && IsUuid(body.conversationId.text)))
    ensures r.Some? ==> r.value.message == body.message.text
    ensures r.Some? ==> (r.value.conversationId.None? <==> body.conversationId in {Absent, Null})
    ensures r.Some? && r.value.conversationId.Some? ==> r.value.conversationId.value == body.conversationId.text
  {
    match body
    case Object(Str(text), id) =>
      if 1 <= |text| && |text| <= MaxMessageLength then
        match id
        case Absent => Some(ChatInput(text, None))
        case Null => Some(ChatInput(text, None))
        case Str(s) => if IsUuid(s) then Some(ChatInput(text, Some(s))) else None
        case OtherJson => None
      else None
    case _ => None
  }

  /** `req.headers.get('x-forwarded-for') || '127.0.0.1'`. */
  function ClientIp(headers: Headers): string
  {
    match Get(headers, ForwardedForHeader)
    case Some(ip) => ip
    case None => LoopbackAddress
  }

  /** Does this POST pass the default rate-limit policy at time `now`? */
  function Admitted(records: map<string, RateLimit.Record>, headers: Headers, now: int): bool
  {
    RateLimit.Admit(records, ClientIp(headers), RateLimit.DefaultLimit, RateLimit.DefaultWindowMs, now).success
  }

  /** `!OPENAI_API_KEY` is false. */
  predicate Configured(apiKey: Option<string>)
  {
    apiKey.Some? && apiKey.value != ""
  }

  /**
   * The checks POST makes before it touches the store, in the order it makes
   * them; `None` means all of them passed.
   */
  function Preflight(userId: Option<UserId>, admitted: bool, body: Body, apiKey: Option<string>): (r: Option<Response>)
    ensures r.None? <==> userId.Some? && admitted && !body.Unparsable? && ChatSchema(body).Some? && Configured(apiKey)
    ensures userId.None? ==> r == Some(Unauthorized)
    ensures userId.Some? && !admitted ==> r == Some(TooManyRequests)
    ensures userId.Some? && admitted && body.Unparsable? ==> r == Some(InternalServerError)
    ensures userId.Some? && admitted && !body.Unparsable? && ChatSchema(body).None? ==> r == Some(InvalidBody)
    ensures userId.Some? && admitted && !body.Unparsable? && ChatSchema(body).Some? && !Configured(apiKey)
      ==> r == Some(Misconfigured)
  {
    if userId.None? then Some(Unauthorized)
    else if !admitted then Some(TooManyRequests)
    else if body.Unparsable? then Some(InternalServerError)
    else if ChatSchema(body).None? then Some(InvalidBody)
    else if !Configured(apiKey) then Some(Misconfigured)
    else None
  }

  /** `history.map(msg => ({ role, content }))`. */
  function ToApi(history: seq<Message>): seq<ApiMessage>
  {
    seq(|history|, i requires 0 <= i < |history| => ApiMessage(history[i].role, history[i].content))
  }

  // ---------------------------------------------------------------------------
  // Facts about one turn

  /** A newly created conversation has no earlier messages. */
  lemma FreshConversationHasNoHistory(messages: seq<Message>, conversations: seq<Conversation>, id: ConversationId)
    requires forall m :: m in messages ==> m.conversationId in Ids(conversations)
    requires id !in Ids(conversations)
    ensures Transcript(messages, id) == []
  {
    FilterNone(messages, (m: Message) => m.conversationId == id);
  }

  /**
   * The history sent to the provider (the stored transcript followed by the
   * turn just saved at a later instant) is in ascending createdAt order and
   * ends with that turn.
   */
  lemma HistoryAscending(messages: seq<Message>, id: ConversationId, turn: Message)
    requires Pairwise(messages, CreatedBefore)
    requires forall m :: m in messages ==> m.createdAt < turn.createdAt
    ensures Pairwise(Transcript(messages, id) + [turn], CreatedBefore)
    ensures (Transcript(messages, id) + [turn])[|Transcript(messages, id)|] == turn
  {
    var t := Transcript(messages, id);
    TranscriptAscending(messages, id);
    var h := t + [turn];
    forall i, j | 0 <= i < j < |h|
      ensures CreatedBefore(h[i], h[j])
    {
      if j < |t| {
        assert h[i] == t[i] && h[j] == t[j];
      } else {
        assert h[i] == t[i] && t[i] in messages;
      }
    }
  }

  /**
   * What a turn leaves in its conversation's transcript: the earlier
   * transcript, then the user turn, then the reply when there is one.
   */
  lemma TurnExtendsTranscript(messages: seq<Message>, cid: ConversationId, turn: Message, reply: Message)
    requires turn.conversationId == cid && reply.conversationId == cid
    ensures Transcript(messages + [turn], cid) == Transcript(messages, cid) + [turn]
    ensures Transcript(messages + [turn, reply], cid) == Transcript(messages, cid) + [turn, reply]
  {
    var before := Transcript(messages, cid);
    var withTurn := messages + [turn];
    TranscriptAppend(messages, turn, cid);
    calc {
      Transcript(messages + [turn, reply], cid);
      { assert messages + [turn, reply] == withTurn + [reply]; }
      Transcript(withTurn + [reply], cid);
      { TranscriptAppend(withTurn, reply, cid); }
      Transcript(withTurn, cid) + [reply];
      before + [turn] + [reply];
      { assert before + [turn] + [reply] == before + [turn, reply]; }
      before + [turn, reply];
    }
  }

  /** A turn leaves every other conversation's transcript as it was. */
  lemma TurnLeavesOtherTranscripts(messages: seq<Message>, turn: Message, reply: Message, other: ConversationId)
    requires turn.conversationId != other && reply.conversationId != other
    ensures Transcript(messages + [turn], other) == Transcript(messages, other)
    ensures Transcript(messages + [turn, reply], other) == Transcript(messages, other)
  {
    TranscriptAppend(messages, turn, other);
    TranscriptAppend(messages + [turn], reply, other);
    assert messages + [turn, reply] == messages + [turn] + [reply];
  }

  /**
   * Conversation continuity: a conversation started by one turn and continued
   * by a second, both answered, reads back as exactly the two user turns and
   * the two replies in the order they were saved.
   */
  lemma TwoTurnsReadBack(messages: seq<Message>, conversations: seq<Conversation>, cid: ConversationId,
                         first: Message, firstReply: Message, second: Message, secondReply: Message)
    requires forall m :: m in messages ==> m.conversationId in Ids(conversations)
    requires cid !in Ids(conversations)
    requires first.conversationId == firstReply.conversationId == second.conversationId == secondReply.conversationId == cid
    ensures Transcript(messages + [first, firstReply] + [second, secondReply], cid)
         == [first, firstReply, second, secondReply]
  {
    var afterFirst := messages + [first, firstReply];
    calc {
      Transcript(afterFirst + [second, secondReply], cid);
      { TurnExtendsTranscript(afterFirst, cid, second, secondReply); }
      Transcript(afterFirst, cid) + [second, secondReply];
      { TurnExtendsTranscript(messages, cid, first, firstReply); }
      Transcript(messages, cid) + [first, firstReply] + [second, secondReply];
      { FreshConversationHasNoHistory(messages, conversations, cid); }
      [] + [first, firstReply] + [second, secondReply];
      [first, firstReply, second, secondReply];
    }
  }

  // ---------------------------------------------------------------------------
  // Handlers

  /** GET: the messages of one of the caller's conversations, oldest first. */
  method GetMessages(db: Db, headers: Headers, query: map<string, string>) returns (response: Response)
    requires db.Valid()
    ensures Get(headers, UserIdHeader).None? ==> response == Unauthorized
    ensures Get(headers, UserIdHeader).Some? && Get(query, "conversationId").None? ==> response == ConversationIdRequired
    ensures Get(headers, UserIdHeader).Some? && Get(query, "conversationId").Some? &&
            Guard(db.conversations, Get(headers, UserIdHeader).value, Get(query, "conversationId").value).None?
      ==> response == NotFoundOrUnauthorized
    ensures Get(headers, UserIdHeader).Some? && Get(query, "conversationId").Some? &&
            Guard(db.conversations, Get(headers, UserIdHeader).value, Get(query, "conversationId").value).Some?
      ==> response == Response(200, MessagesJson(Transcript(db.messages, Get(query, "conversationId").value)))
    ensures response.status == 200 ==>
      && Get(headers, UserIdHeader).Some? && Get(query, "conversationId").Some?
      && var id := Get(query, "conversationId").value;
         && Guard(db.conversations, Get(headers, UserIdHeader).value, id).Some?
         && response.payload.MessagesJson?
         && (forall m :: m in response.payload.messages <==> m in db.messages && m.conversationId == id)
         && Pairwise(response.payload.messages, CreatedBefore)
  {
    var userId := Get(headers, UserIdHeader);
    if userId.None? {
      return Unauthorized;
    }
    var conversationId := Get(query, "conversationId");
    if conversationId.None? {
      return ConversationIdRequired;
    }
    var conversation := Guard(db.conversations, userId.value, conversationId.value);
    if conversation.None? {
      return NotFoundOrUnauthorized;
    }
    var messages := Transcript(db.messages, conversationId.value);
    TranscriptAscending(db.messages, conversationId.value);
    response := Response(200, MessagesJson(messages));
  }

  /**
   * What one turn does once POST's checks have passed, relating the store
   * before it (`conversations`, `messages`, `clock`) to the store after it
   * (the primed names). A given conversation that is missing or belongs to
   * someone else gets the one 404 and nothing is written. Otherwise the
   * conversation is the given one or a new one owned by the caller and titled
   * after the message; the user turn is saved; the provider is called with the
   * conversation's transcript ending in that turn; and an assistant turn is
   * saved exactly when the provider answers.
   */
  ghost predicate TurnOutcome(conversations: seq<Conversation>, messages: seq<Message>, clock: int,
                              conversations': seq<Conversation>, messages': seq<Message>, clock': int,
                              userId: UserId, input: ChatInput, freshId: ConversationId,
                              provider: seq<ApiMessage> -> Completion,
                              response: Response, sent: Option<seq<ApiMessage>>)
  {
    var created := input.conversationId.None?;
    var cid := if created then freshId else input.conversationId.value;
    if !created && Guard(conversations, userId, cid).None? then
      && response == NotFoundOrUnauthorized && sent.None?
      && conversations' == conversations && messages' == messages && clock' == clock
    else
      var start := if created then clock + 1 else clock;
      var turn := Message(cid, User, input.message, start);
      && conversations' == conversations
                           + (if created then [Conversation(freshId, userId, Title(input.message), clock)] else [])
      && Guard(conversations', userId, cid).Some?
      && sent == Some(ToApi(Transcript(messages, cid) + [turn]))
      && match provider(sent.value)
         case Failed =>
           && response == UpstreamFailure
           && messages' == messages + [turn] && clock' == start + 1
         case Completed(text) =>
           && response == Response(200, ReplyJson(text, cid))
           && messages' == messages + [turn, Message(cid, Assistant, text, start + 1)] && clock' == start + 2
  }

  /**
   * Step 1 of a turn: create a conversation owned by the caller when none is
   * requested, otherwise run the ownership guard on the requested one.
   */
  method OpenConversation(db: Db, userId: UserId, requested: Option<ConversationId>, title: string,
                          freshId: ConversationId)
    returns (current: Option<ConversationId>)
    requires db.Valid()
    requires freshId !in Ids(db.conversations)
    modifies db
    ensures db.Valid() && db.users == old(db.users) && db.messages == old(db.messages)
    ensures requested.None? ==>
      && current == Some(freshId)
      && db.conversations == old(db.conversations) + [Conversation(freshId, userId, title, old(db.clock))]
      && db.clock == old(db.clock) + 1
    ensures requested.Some? ==>
      && unchanged(db)
      && current == if Guard(old(db.conversations), userId, requested.value).Some? then requested else None
    ensures current.Some? ==> Guard(db.conversations, userId, current.value).Some?
  {
    if requested.None? {
      var conversation := db.CreateConversation(freshId, userId, title);
      assert Find(db.conversations, freshId).value == conversation;
      return Some(conversation.id);
    }
    var existing := Guard(db.conversations, userId, requested.value);
    if existing.None? {
      return None;
    }
    return requested;
  }

  /**
   * Steps 2 to 5 of a turn: save the user turn, send the conversation's
   * history to the provider, and save the reply when there is one.
   */
  method Exchange(db: Db, conversationId: ConversationId, message: string, provider: seq<ApiMessage> -> Completion)
    returns (response: Response, sent: seq<ApiMessage>)
    requires db.Valid()
    requires conversationId in Ids(db.conversations)
    modifies db
    ensures db.Valid() && db.users == old(db.users) && db.conversations == old(db.conversations)
    ensures var turn := Message(conversationId, User, message, old(db.clock));
      && sent == ToApi(Transcript(old(db.messages), conversationId) + [turn])
      && match provider(sent)
         case Failed =>
           && response == UpstreamFailure
           && db.messages == old(db.messages) + [turn] && db.clock == old(db.clock) + 1
         case Completed(text) =>
           && response == Response(200, ReplyJson(text, conversationId))
           && db.messages == old(db.messages) + [turn, Message(conversationId, Assistant, text, old(db.clock) + 1)]
           && db.clock == old(db.clock) + 2
  {
    ghost var before := db.messages;
    var turn := db.CreateMessage(conversationId, User, message);
    var history := Transcript(db.messages, conversationId);
    TranscriptAppend(before, turn, conversationId);
    sent := ToApi(history);

    var completion := provider(sent);
    if completion.Failed? {
      return UpstreamFailure, sent;
    }

    var reply := db.CreateMessage(conversationId, Assistant, completion.text);
    response := Response(200, ReplyJson(completion.text, conversationId));
  }

  /** The part of POST after the checks: one turn of the conversation. */
  method Converse(db: Db, userId: UserId, input: ChatInput, freshId: ConversationId,
                  provider: seq<ApiMessage> -> Completion)
    returns (response: Response, sent: Option<seq<ApiMessage>>)
    requires db.Valid()
    requires freshId !in Ids(db.conversations)
    modifies db
    ensures db.Valid() && db.users == old(db.users)
    ensures TurnOutcome(old(db.conversations), old(db.messages), old(db.clock),
                        db.conversations, db.messages, db.clock,
                        userId, input, freshId, provider, response, sent)
  {
    var current := OpenConversation(db, userId, input.conversationId, Title(input.message), freshId);
    if current.None? {
      return NotFoundOrUnauthorized, None;
    }
    assert current.value == if input.conversationId.None? then freshId else input.conversationId.value;
    ghost var afterOpen := db.conversations;
    var history;
    response, history := Exchange(db, current.value, input.message, provider);
    sent := Some(history);
    assert db.conversations == afterOpen;
  }

  /**
   * POST: one conversation turn. `now` is the rate limiter's clock, `apiKey`
   * the configured provider credential, `freshId` the id the store assigns if
   * a conversation is created, and `provider` the completion call; `sent` is
   * the history the provider was called with, if it was called.
   */
  method Post(db: Db, limiter: RateLimit.Limiter, headers: Headers, body: Body, apiKey: Option<string>, now: int,
              freshId: ConversationId, provider: seq<ApiMessage> -> Completion)
    returns (response: Response, sent: Option<seq<ApiMessage>>)
    requires db.Valid()
    requires freshId !in Ids(db.conversations)
    modifies db, limiter
    ensures db.Valid() && db.users == old(db.users)
    ensures Get(headers, UserIdHeader).None? ==> unchanged(limiter)
    ensures Get(headers, UserIdHeader).Some? ==>
      limiter.records == RateLimit.Admit(old(limiter.records), ClientIp(headers),
                                         RateLimit.DefaultLimit, RateLimit.DefaultWindowMs, now).records
    // Every refusal before the conversation step leaves the store as it was.
    ensures var verdict := Preflight(Get(headers, UserIdHeader), Admitted(old(limiter.records), headers, now), body, apiKey);
      verdict.Some? ==> response == verdict.value && sent.None? && unchanged(db)
    // Once they pass, the turn itself.
    ensures var verdict := Preflight(Get(headers, UserIdHeader), Admitted(old(limiter.records), headers, now), body, apiKey);
      verdict.None? ==>
        TurnOutcome(old(db.conversations), old(db.messages), old(db.clock),
                    db.conversations, db.messages, db.clock,
                    Get(headers, UserIdHeader).value, ChatSchema(body).value, freshId, provider, response, sent)
  {
    var userId := Get(headers, UserIdHeader);
    if userId.None? {
      return Unauthorized, None;
    }

    var success := limiter.RateLimit(ClientIp(headers), RateLimit.DefaultLimit, RateLimit.DefaultWindowMs, now);
    if !success {
      return TooManyRequests, None;
    }

    if body.Unparsable? {
      return InternalServerError, None;
    }
    var validation := ChatSchema(body);
    if validation.None? {
      return InvalidBody, None;
    }
    var message, conversationId := validation.value.message, validation.value.conversationId;

    if !Configured(apiKey) {
      return Misconfigured, None;
    }

    response, sent := Converse(db, userId.value, ChatInput(message, conversationId), freshId, provider);
  }

}
