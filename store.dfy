/**
 * The record store the route handlers talk to, reduced to the queries they
 * issue: users keyed by their unique username, conversations and messages
 * kept in creation order. Every record gets its `createdAt` from a clock that
 * grows by one per insert, so "ordered by createdAt" is creation order.
 */
module Store {
  import opened Wrappers

  type UserId = string
  type ConversationId = string

  datatype Role = User | Assistant

  datatype Account = Account(id: UserId, passwordHash: string)

  datatype Conversation = Conversation(id: ConversationId, userId: UserId, title: string, createdAt: int)

  datatype Message = Message(conversationId: ConversationId, role: Role, content: string, createdAt: int)

  // ---------------------------------------------------------------------------
  // Sequences: filtering, reversal and pairwise properties

  /** The elements of `s` that satisfy `keep`, in their original order. */
  function Filter<T(!new)>(s: seq<T>, keep: T -> bool): (r: seq<T>)
    ensures forall x :: x in r <==> x in s && keep(x)
    ensures |r| <= |s|
  {
    if s == [] then []
    else
      var init := Filter(s[..|s| - 1], keep);
      if keep(s[|s| - 1]) then init + [s[|s| - 1]] else init
  }

  lemma FilterAppend<T(!new)>(s: seq<T>, x: T, keep: T -> bool)
    ensures Filter(s + [x], keep) == if keep(x) then Filter(s, keep) + [x] else Filter(s, keep)
  {
    assert (s + [x])[..|s|] == s;
  }

  /** Nothing passes the filter when no element satisfies `keep`. */
  lemma {:induction false} FilterNone<T(!new)>(s: seq<T>, keep: T -> bool)
    requires forall x :: x in s ==> !keep(x)
    ensures Filter(s, keep) == []
  {
    if s != [] {
      assert s[|s| - 1] in s;
      FilterNone(s[..|s| - 1], keep);
    }
  }

  /** `rel` holds of every pair of elements taken in sequence order. */
  ghost predicate Pairwise<T>(s: seq<T>, rel: (T, T) -> bool)
  {
    forall i, j :: 0 <= i < j < |s| ==> rel(s[i], s[j])
  }

  /** Filtering keeps the relative order, so it keeps every pairwise property. */
  lemma {:induction false} FilterPairwise<T(!new)>(s: seq<T>, keep: T -> bool, rel: (T, T) -> bool)
    requires Pairwise(s, rel)
    ensures Pairwise(Filter(s, keep), rel)
  {
    if s != [] {
      var init, last := s[..|s| - 1], s[|s| - 1];
      assert Pairwise(init, rel);
      FilterPairwise(init, keep, rel);
      var f := Filter(init, keep);
      if keep(last) {
        forall i | 0 <= i < |f|
          ensures rel(f[i], last)
        {
          assert f[i] in init;
          var k :| 0 <= k < |init| && init[k] == f[i];
          assert rel(s[k], s[|s| - 1]);
        }
        var g := f + [last];
        forall i, j | 0 <= i < j < |g|
          ensures rel(g[i], g[j])
        {
          if j < |f| {
            assert g[i] == f[i] && g[j] == f[j];
          } else {
            assert g[i] == f[i] && g[j] == last;
          }
        }
      }
    }
  }

  /** `s` backwards. */
  function Reverse<T>(s: seq<T>): (r: seq<T>)
    ensures |r| == |s|
    ensures forall i :: 0 <= i < |s| ==> r[i] == s[|s| - 1 - i]
  {
    if s == [] then [] else [s[|s| - 1]] + Reverse(s[..|s| - 1])
  }

  // ---------------------------------------------------------------------------
  // Record relations used by the store's invariant

  predicate CreatedBefore(a: Message, b: Message)
  {
    a.createdAt < b.createdAt
  }

  predicate StartedBefore(a: Conversation, b: Conversation)
  {
    a.createdAt < b.createdAt
  }

  predicate DistinctIds(a: Conversation, b: Conversation)
  {
    a.id != b.id
  }

  function Ids(conversations: seq<Conversation>): set<ConversationId>
  {
    set c | c in conversations :: c.id
  }

  // ---------------------------------------------------------------------------
  // Queries

  /** `conversation.findUnique({ where: { id } })`: the first record with that id. */
  function Find(conversations: seq<Conversation>, id: ConversationId): (r: Option<Conversation>)
    ensures r.Some? ==> r.value in conversations && r.value.id == id
    ensures r.None? ==> forall c :: c in conversations ==> c.id != id
    ensures r.Some? <==> id in Ids(conversations)
  {
    if conversations == [] then None
    else if conversations[0].id == id then Some(conversations[0])
    else Find(conversations[1..], id)
  }

  /**
   * The ownership guard: the conversation with that id when it exists and
   * belongs to `userId`; nothing otherwise, whichever of the two failed.
   */
  function Guard(conversations: seq<Conversation>, userId: UserId, id: ConversationId): (r: Option<Conversation>)
    ensures r.Some? ==> r.value in conversations && r.value.id == id && r.value.userId == userId
  {
    match Find(conversations, id)
    case None => None
    case Some(c) => if c.userId == userId then Some(c) else None
  }

  /** `message.findMany({ where: { conversationId: id }, orderBy: { createdAt: 'asc' } })`. */
  function Transcript(messages: seq<Message>, id: ConversationId): seq<Message>
  {
    Filter(messages, (m: Message) => m.conversationId == id)
  }

  /** `conversation.findMany({ where: { userId } })`, in creation order. */
  function OwnedBy(conversations: seq<Conversation>, userId: UserId): seq<Conversation>
  {
    Filter(conversations, (c: Conversation) => c.userId == userId)
  }

  /** What `conversation.delete({ where: { id } })` leaves of the conversations. */
  function WithoutConversation(conversations: seq<Conversation>, id: ConversationId): seq<Conversation>
  {
    Filter(conversations, (c: Conversation) => c.id != id)
  }

  /** What the cascade of that delete leaves of the messages. */
  function WithoutMessagesOf(messages: seq<Message>, id: ConversationId): seq<Message>
  {
    Filter(messages, (m: Message) => m.conversationId != id)
  }

  // ---------------------------------------------------------------------------
  // Facts about the queries

  /** With unique ids, the guard admits exactly the caller's own conversation. */
  lemma GuardAdmitsOwnerOnly(conversations: seq<Conversation>, userId: UserId, id: ConversationId)
    requires Pairwise(conversations, DistinctIds)
    ensures Guard(conversations, userId, id).Some?
        <==> exists c :: c in conversations && c.id == id && c.userId == userId
  {
    if c :| c in conversations && c.id == id && c.userId == userId {
      var f := Find(conversations, id);
      var i :| 0 <= i < |conversations| && conversations[i] == f.value;
      var j :| 0 <= j < |conversations| && conversations[j] == c;
    }
  }

  /** A record appended under a new id is the one the lookup finds for that id. */
  lemma FindAppended(conversations: seq<Conversation>, c: Conversation)
    requires c.id !in Ids(conversations)
    ensures Find(conversations + [c], c.id) == Some(c)
  {
    var found := Find(conversations + [c], c.id);
    assert c in conversations + [c];
    assert found.value !in conversations;
  }

  /** A transcript holds exactly the messages of that conversation. */
  lemma TranscriptMembers(messages: seq<Message>, id: ConversationId)
    ensures forall m :: m in Transcript(messages, id) <==> m in messages && m.conversationId == id
  {
  }

  /** Appending a message extends the transcript of its own conversation only. */
  lemma TranscriptAppend(messages: seq<Message>, m: Message, id: ConversationId)
    ensures Transcript(messages + [m], id)
         == if m.conversationId == id then Transcript(messages, id) + [m] else Transcript(messages, id)
  {
    FilterAppend(messages, m, (m: Message) => m.conversationId == id);
  }

  /** A transcript of a chronological table is in ascending createdAt order. */
  lemma TranscriptAscending(messages: seq<Message>, id: ConversationId)
    requires Pairwise(messages, CreatedBefore)
    ensures Pairwise(Transcript(messages, id), CreatedBefore)
  {
    FilterPairwise(messages, (m: Message) => m.conversationId == id, CreatedBefore);
  }

  // ---------------------------------------------------------------------------
  // The store

  class Db {
    /** Accounts, keyed by the unique username. */
    var users: map<string, Account>
    /** Conversations, in creation order. */
    var conversations: seq<Conversation>
    /** Messages, in creation order. */
    var messages: seq<Message>
    /** The `createdAt` the next record receives. */
    var clock: int

    ghost predicate Valid()
      reads this
    {
      && (forall a, b :: a in users && b in users && a != b ==> users[a].id != users[b].id)
      && Pairwise(conversations, DistinctIds)
      && Pairwise(conversations, StartedBefore)
      && (forall c :: c in conversations ==> c.createdAt < clock)
      && Pairwise(messages, CreatedBefore)
      && (forall m :: m in messages ==> m.createdAt < clock)
      && (forall m :: m in messages ==> m.conversationId in Ids(conversations))
    }

    /** The ids of all accounts. */
    function AccountIds(): set<UserId>
      reads this
    {
      set u | u in users :: users[u].id
    }

    constructor ()
      ensures Valid()
      ensures users == map[] && conversations == [] && messages == []
    {
      users, conversations, messages, clock := map[], [], [], 0;
    }

    /** `user.create`: `id` is the one the store's generator assigns. */
    method CreateUser(username: string, id: UserId, passwordHash: string) returns (account: Account)
      requires Valid()
      requires username !in users && id !in AccountIds()
      modifies this
      ensures Valid()
      ensures account == Account(id, passwordHash)
      ensures users == old(users)[username := account]
      ensures conversations == old(conversations) && messages == old(messages) && clock == old(clock)
    {
      account := Account(id, passwordHash);
      users := users[username := account];
    }

    /** `conversation.create`: `id` is the one the store's generator assigns. */
    method CreateConversation(id: ConversationId, userId: UserId, title: string) returns (c: Conversation)
      requires Valid()
      requires id !in Ids(conversations)
      modifies this
      ensures Valid()
      ensures c == Conversation(id, userId, title, old(clock))
      ensures conversations == old(conversations) + [c] && clock == old(clock) + 1
      ensures users == old(users) && messages == old(messages)
    {
      c := Conversation(id, userId, title, clock);
      ghost var before := conversations;
      conversations := conversations + [c];
      clock := clock + 1;
      forall i, j | 0 <= i < j < |conversations|
        ensures DistinctIds(conversations[i], conversations[j]) && StartedBefore(conversations[i], conversations[j])
      {
        if j < |before| {
          assert DistinctIds(before[i], before[j]) && StartedBefore(before[i], before[j]);
        } else {
          assert before[i] in before;
        }
      }
    }

    /** `message.create` in an existing conversation. */
    method CreateMessage(conversationId: ConversationId, role: Role, content: string) returns (m: Message)
      requires Valid()
      requires conversationId in Ids(conversations)
      modifies this
      ensures Valid()
      ensures m == Message(conversationId, role, content, old(clock))
      ensures messages == old(messages) + [m] && clock == old(clock) + 1
      ensures users == old(users) && conversations == old(conversations)
    {
      m := Message(conversationId, role, content, clock);
      ghost var before := messages;
      messages := messages + [m];
      clock := clock + 1;
      forall i, j | 0 <= i < j < |messages|
        ensures CreatedBefore(messages[i], messages[j])
      {
        if j < |before| {
          assert CreatedBefore(before[i], before[j]);
        } else {
          assert before[i] in before;
        }
      }
    }

    /** `conversation.delete`, cascading to the conversation's messages. */
    method DeleteConversation(id: ConversationId)
      requires Valid()
      modifies this
      ensures Valid()
      ensures conversations == WithoutConversation(old(conversations), id)
      ensures messages == WithoutMessagesOf(old(messages), id)
      ensures users == old(users) && clock == old(clock)
    {
      ghost var before := conversations;
      conversations := WithoutConversation(conversations, id);
      messages := WithoutMessagesOf(messages, id);
      FilterPairwise(before, (c: Conversation) => c.id != id, DistinctIds);
      FilterPairwise(before, (c: Conversation) => c.id != id, StartedBefore);
      FilterPairwise(old(messages), (m: Message) => m.conversationId != id, CreatedBefore);
      forall m | m in messages
        ensures m.conversationId in Ids(conversations)
      {
        var c :| c in before && c.id == m.conversationId;
        assert c in conversations;
      }
    }
  }
}
