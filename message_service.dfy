/** The mock `MessageService` (src/services/messageService.ts): the
    conversation list `MOCK_CONVERSATIONS` and the per-conversation message
    lists `MOCK_MESSAGES`.  `Date.now()` is the parameter `now`. */
module MessageService {
  import opened Common

  datatype Message = Message(
    id: string, senderId: string, senderName: string, text: string,
    timestamp: int, isRead: bool, isMine: bool)

  datatype Conversation = Conversation(
    id: string, participantName: string, lastMessage: string, unreadCount: int,
    avatar: Option<string>, timestamp: int)

  /** Most recent first. */
  predicate NewestFirst(cs: seq<Conversation>)
  {
    forall i, j :: 0 <= i < j < |cs| ==> cs[i].timestamp >= cs[j].timestamp
  }

  /** Put `c` before the first conversation that is not more recent than it. */
  function Insert(c: Conversation, cs: seq<Conversation>): (r: seq<Conversation>)
    requires NewestFirst(cs)
    ensures NewestFirst(r)
    ensures multiset(r) == multiset(cs) + multiset{c}
    ensures forall k :: 0 <= k < |r| ==> r[k] == c || r[k] in cs
  {
    if cs == [] || c.timestamp >= cs[0].timestamp then
      [c] + cs
    else
      var rest := Insert(c, cs[1..]);
      assert cs == [cs[0]] + cs[1..];
      assert forall k :: 0 <= k < |rest| ==> cs[0].timestamp >= rest[k].timestamp;
      [cs[0]] + rest
  }

  /** The conversations sorted most recent first (an insertion sort). */
  function SortNewestFirst(cs: seq<Conversation>): (r: seq<Conversation>)
    ensures NewestFirst(r)
    ensures multiset(r) == multiset(cs)
    ensures |r| == |cs|
  {
    if cs == [] then []
    else
      assert cs == [cs[0]] + cs[1..];
      Insert(cs[0], SortNewestFirst(cs[1..]))
  }

  function InitialConversations(now: int): seq<Conversation>
  {
    [
      Conversation("c1", "Coach Sarah", "Great progress this week! Keep it up.", 1, None,
                   now - 1000 * 60 * 5),
      Conversation("c2", "Dr. Mike", "Don't forget to track your water intake.", 0, None,
                   now - 1000 * 60 * 60 * 2),
      Conversation("c3", "Support Team", "Your subscription has been renewed.", 0, None,
                   now - 1000 * 60 * 60 * 24)
    ]
  }

  function InitialMessages(now: int): map<string, seq<Message>>
  {
    map["c1" := [
      Message("m1", "coach", "Coach Sarah", "Hey! How are you feeling today?", now - 100000, true, false),
      Message("m2", "me", "Me", "Feeling great, thanks similar to last week.", now - 90000, true, true),
      Message("m3", "coach", "Coach Sarah", "Great progress this week! Keep it up.", now - 50000, false, false)
    ]]
  }

  /** The fixture is already most recent first, so sorting it keeps its order. */
  lemma InitialConversationsSorted(now: int)
    ensures SortNewestFirst(InitialConversations(now)) == InitialConversations(now)
  {
    SortKeepsSorted(InitialConversations(now));
  }

  /** A list that is already sorted comes back unchanged. */
  lemma {:induction false} SortKeepsSorted(cs: seq<Conversation>)
    requires NewestFirst(cs)
    ensures SortNewestFirst(cs) == cs
  {
    if cs != [] {
      assert NewestFirst(cs[1..]);
      SortKeepsSorted(cs[1..]);
      assert cs == [cs[0]] + cs[1..];
    }
  }

  /** The message `sendMessage(text)` builds at time `now`. */
  function OwnMessage(text: string, now: nat): (m: Message)
    ensures m.senderId == "me" && m.senderName == "Me" && m.text == text
    ensures m.isRead && m.isMine && m.timestamp == now
    ensures m.id == "m_" + DecimalString(now)
  {
    Message("m_" + DecimalString(now), "me", "Me", text, now, true, true)
  }

  /** `MOCK_MESSAGES[conversationId] || []`. */
  function Thread(messages: map<string, seq<Message>>, conversationId: string): (ms: seq<Message>)
    ensures conversationId !in messages ==> ms == []
    ensures conversationId in messages ==> ms == messages[conversationId]
  {
    if conversationId in messages then messages[conversationId] else []
  }

  class MessageStore {
    var conversations: seq<Conversation>
    var messages: map<string, seq<Message>>

    /** The fixture, with timestamps taken relative to the load time `now`. */
    constructor (now: int)
      ensures conversations == InitialConversations(now)
      ensures messages == InitialMessages(now)
    {
      conversations := InitialConversations(now);
      messages := InitialMessages(now);
    }

    /** `getConversations`: a sorted copy, most recent first, of the stored
        list, which itself keeps its order. */
    method GetConversations(userId: string) returns (sorted: seq<Conversation>)
      ensures NewestFirst(sorted)
      ensures multiset(sorted) == multiset(conversations)
    {
      sorted := SortNewestFirst(conversations);
    }

    /** `getMessages`: the stored list of the conversation, or an empty one. */
    method GetMessages(conversationId: string) returns (ms: seq<Message>)
      ensures ms == Thread(messages, conversationId)
    {
      ms := Thread(messages, conversationId);
    }

    /** `sendMessage`: the new message goes at the end of its conversation's
        list, which is created when missing; every other list and every
        conversation record (last message, unread count) stays as it was. */
    method SendMessage(conversationId: string, text: string, now: nat) returns (sent: Message)
      modifies this
      ensures sent == OwnMessage(text, now)
      ensures conversationId in messages
      ensures messages[conversationId] == Thread(old(messages), conversationId) + [sent]
      ensures forall id :: id != conversationId ==>
                (id in messages <==> id in old(messages))
                && (id in messages ==> messages[id] == old(messages)[id])
      ensures conversations == old(conversations)
    {
      sent := OwnMessage(text, now);
      if conversationId !in messages {
        messages := messages[conversationId := []];
      }
      messages := messages[conversationId := messages[conversationId] + [sent]];
    }
  }
}
