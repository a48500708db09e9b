/**
 * The `conversations` table (app/models/conversation.py) and the queries a
 * conversation answers about its messages.
 */
module ConversationModel {
  import opened Wrappers
  import opened Seqs
  import opened Sorting
  import opened Text
  import opened MessageModel

  datatype Conversation = Conversation(id: nat, userId: nat, title: string, createdAt: int, updatedAt: int)

  function ConversationId(c: Conversation): nat { c.id }

  /** The title a conversation starts with ("new conversation"). */
  const DefaultTitle := "新对话"
  /** How many characters of the first user message a derived title keeps. */
  const TitleChars: nat := 30
  const Ellipsis := "..."

  /** `Conversation(user_id, title)` created at `now`, given the key the table assigns. */
  function NewConversation(convs: seq<Conversation>, userId: nat, title: string, now: int): (c: Conversation)
    ensures forall i :: 0 <= i < |convs| ==> convs[i].id != c.id
    ensures c.userId == userId && c.title == title && c.createdAt == now && c.updatedAt == now
  {
    Conversation(NextId(convs, ConversationId), userId, title, now, now)
  }

  /** The title derived from a message: its first 30 characters, with "..." when it was longer. */
  function DeriveTitle(content: string): (t: string)
    ensures |content| <= TitleChars ==> t == content
    ensures |content| > TitleChars ==> t == content[..TitleChars] + Ellipsis
    ensures |t| <= TitleChars + |Ellipsis|
  {
    Prefix(content, TitleChars) + (if |content| > TitleChars then Ellipsis else "")
  }

  /** Deriving a title from a derived title changes nothing. */
  lemma DeriveTitleIdempotent(content: string)
    ensures DeriveTitle(DeriveTitle(content)) == DeriveTitle(content)
  {
    var t := DeriveTitle(content);
    if |content| > TitleChars {
      assert t[..TitleChars] == content[..TitleChars];
    }
  }

  function IsUserMessage(m: Message): bool { m.role == UserRole }

  /** `self.messages.filter_by(role='user').first()`: the earliest user message of conversation `cid`. */
  function FirstUserMessage(ms: seq<Message>, cid: nat): (r: Option<Message>)
    ensures r.None? <==> forall i :: 0 <= i < |ms| && ms[i].conversationId == cid ==> ms[i].role != UserRole
    ensures r.Some? ==> r.value in ms && r.value.conversationId == cid && r.value.role == UserRole
    ensures r.Some? ==> forall i :: 0 <= i < |ms| && ms[i].conversationId == cid && ms[i].role == UserRole ==>
                          r.value.createdAt <= ms[i].createdAt
  {
    var users := Filter(AllConversationMessages(ms, cid), IsUserMessage);
    FirstUserMessageFacts(ms, cid);
    if users == [] then None else Some(users[0])
  }

  /** The user messages of a conversation, oldest first: all of them, and nothing else. */
  lemma FirstUserMessageFacts(ms: seq<Message>, cid: nat)
    ensures var users := Filter(AllConversationMessages(ms, cid), IsUserMessage);
      && (forall k :: 0 <= k < |users| ==> users[k] in ms && users[k].conversationId == cid && users[k].role == UserRole)
      && (forall i :: 0 <= i < |ms| && ms[i].conversationId == cid && ms[i].role == UserRole ==>
            ms[i] in users && users[0].createdAt <= ms[i].createdAt)
  {
    var all := AllConversationMessages(ms, cid);
    var users := Filter(all, IsUserMessage);
    FilterSorted(all, IsUserMessage, CreatedAt);
    forall i | 0 <= i < |ms| && ms[i].conversationId == cid && ms[i].role == UserRole ensures ms[i] in users {
      assert ms[i] in OfConversation(ms, cid);
      assert ms[i] in multiset(all);
    }
    forall i | 0 <= i < |ms| && ms[i].conversationId == cid && ms[i].role == UserRole
      ensures users[0].createdAt <= ms[i].createdAt
    {
      var k :| 0 <= k < |users| && users[k] == ms[i];
      assert k == 0 || CreatedAt(users[0]) <= CreatedAt(users[k]);
    }
  }

  /**
   * The conversation after `update_title_from_first_message()` at time `now`:
   * when the earliest user message is non-empty the title is derived from it
   * and `updated_at` becomes `now`; otherwise nothing changes.
   */
  function UpdateTitleFromFirstMessage(conv: Conversation, ms: seq<Message>, now: int): (c: Conversation)
    ensures c.id == conv.id && c.userId == conv.userId && c.createdAt == conv.createdAt
  {
    match FirstUserMessage(ms, conv.id)
    case Some(m) =>
      if |m.content| > 0 then conv.(title := DeriveTitle(m.content), updatedAt := now) else conv
    case None => conv
  }

  /**
   * Either the title update changes nothing, or the new title comes from the
   * earliest user message, which is non-empty, and the update time is `now`;
   * a conversation without user messages is left alone.
   */
  lemma UpdateTitleFacts(conv: Conversation, ms: seq<Message>, now: int)
    ensures var c := UpdateTitleFromFirstMessage(conv, ms, now);
      c == conv || exists i :: 0 <= i < |ms| && ms[i].conversationId == conv.id && ms[i].role == UserRole
                               && ms[i].content != "" && c.title == DeriveTitle(ms[i].content) && c.updatedAt == now
                               && forall j :: 0 <= j < |ms| && ms[j].conversationId == conv.id && ms[j].role == UserRole ==>
                                                ms[i].createdAt <= ms[j].createdAt
    ensures (forall i :: 0 <= i < |ms| && ms[i].conversationId == conv.id ==> ms[i].role != UserRole) ==>
              UpdateTitleFromFirstMessage(conv, ms, now) == conv
  {
    var first := FirstUserMessage(ms, conv.id);
    if first.Some? && first.value.content != "" {
      var i :| 0 <= i < |ms| && ms[i] == first.value;
    }
  }

  /**
   * A conversation created with the default title keeps 新对话 as long as
   * none of its user messages has any text.
   */
  lemma DefaultTitleKept(convs: seq<Conversation>, userId: nat, now: int, ms: seq<Message>, later: int)
    requires var c := NewConversation(convs, userId, DefaultTitle, now);
      forall i :: 0 <= i < |ms| && ms[i].conversationId == c.id && ms[i].role == UserRole ==> ms[i].content == ""
    ensures UpdateTitleFromFirstMessage(NewConversation(convs, userId, DefaultTitle, now), ms, later).title == DefaultTitle
  {
    var c := NewConversation(convs, userId, DefaultTitle, now);
    var first := FirstUserMessage(ms, c.id);
    if first.Some? {
      var i :| 0 <= i < |ms| && ms[i] == first.value;
    }
  }

  /** When conversation `cid` holds just one message, a user message, the title is derived from it. */
  lemma TitleFromOnlyMessage(conv: Conversation, ms: seq<Message>, m: Message, now: int)
    requires OfConversation(ms, conv.id) == [m]
    requires m.role == UserRole && m.content != ""
    ensures UpdateTitleFromFirstMessage(conv, ms, now) == conv.(title := DeriveTitle(m.content), updatedAt := now)
  {
    var first := FirstUserMessage(ms, conv.id);
    assert m in OfConversation(ms, conv.id);
    assert first.Some?;
    assert first.value in OfConversation(ms, conv.id);
  }

  /** `get_message_count()`. */
  function MessageCount(ms: seq<Message>, cid: nat): nat {
    |OfConversation(ms, cid)|
  }

  /** Creating a message adds one to its own conversation's count and leaves every other count alone. */
  lemma MessageCountAfterCreate(ms: seq<Message>, m: Message, cid: nat)
    ensures MessageCount(ms + [m], cid) == MessageCount(ms, cid) + (if m.conversationId == cid then 1 else 0)
  {
    OfConversationAppend(ms, m, cid);
  }

  /** A message count of 1 right after creating `m` means `m` is the conversation's only message. */
  lemma OnlyMessageAfterCreate(ms: seq<Message>, m: Message)
    requires MessageCount(ms + [m], m.conversationId) == 1
    ensures OfConversation(ms + [m], m.conversationId) == [m]
    ensures OfConversation(ms, m.conversationId) == []
  {
    OfConversationAppend(ms, m, m.conversationId);
  }

  /** The latest creation time among `s` (the generator `max(msg.created_at for msg in messages)`). */
  function MaxCreatedAt(s: seq<Message>): (t: int)
    requires s != []
    ensures exists i :: 0 <= i < |s| && s[i].createdAt == t
    ensures forall i :: 0 <= i < |s| ==> s[i].createdAt <= t
  {
    if |s| == 1 then s[0].createdAt
    else
      var rest := MaxCreatedAt(s[1..]);
      assert forall i :: 1 <= i < |s| ==> s[i] == s[1..][i - 1];
      if s[0].createdAt < rest then rest else s[0].createdAt
  }

  /** `get_last_message_time()`: the latest message's creation time, or the conversation's own when it has none. */
  function LastMessageTime(conv: Conversation, ms: seq<Message>): (t: int)
    ensures OfConversation(ms, conv.id) == [] ==> t == conv.createdAt
    ensures OfConversation(ms, conv.id) != [] ==>
              (exists i :: 0 <= i < |ms| && ms[i].conversationId == conv.id && ms[i].createdAt == t)
    ensures forall i :: 0 <= i < |ms| && ms[i].conversationId == conv.id ==> ms[i].createdAt <= t
  {
    var own := OfConversation(ms, conv.id);
    if own == [] then conv.createdAt
    else
      var t := MaxCreatedAt(own);
      var k :| 0 <= k < |own| && own[k].createdAt == t;
      assert own[k] in ms;
      MaxCreatedAt(own)
  }

  /** `Conversation.to_dict()`; timestamps stay integers. */
  datatype ConversationDict = ConversationDict(id: nat, title: string, messageCount: nat,
                                               createdAt: int, updatedAt: int, lastMessageTime: int)

  function ToDict(conv: Conversation, ms: seq<Message>): ConversationDict {
    ConversationDict(conv.id, conv.title, MessageCount(ms, conv.id), conv.createdAt, conv.updatedAt, LastMessageTime(conv, ms))
  }

  /** The conversation `id` owned by `userId` (`filter_by(id=..., user_id=...).first()`). */
  function FindOwned(convs: seq<Conversation>, id: nat, userId: nat): (i: Option<nat>)
    ensures i.None? <==> forall j :: 0 <= j < |convs| ==> convs[j].id != id || convs[j].userId != userId
    ensures i.Some? ==> i.value < |convs| && convs[i.value].id == id && convs[i.value].userId == userId
  {
    if convs == [] then None
    else if convs[0].id == id && convs[0].userId == userId then Some(0)
    else match FindOwned(convs[1..], id, userId)
      case None => None
      case Some(j) => Some(j + 1)
  }

  /** Python truthiness of an optional user id: present and non-zero. */
  predicate Truthy(userId: Option<nat>) {
    userId.Some? && userId.value != 0
  }

  /**
   * The conversation a service call acts on: with a truthy user id the one with
   * that id owned by that user (`filter_by(id=..., user_id=...).first()`),
   * otherwise the one with that id.
   */
  function Accessible(convs: seq<Conversation>, id: nat, userId: Option<nat>): (i: Option<nat>)
    ensures i.Some? ==> i.value < |convs| && convs[i.value].id == id
    ensures i.Some? && Truthy(userId) ==> convs[i.value].userId == userId.value
    ensures i.None? <==> forall j :: 0 <= j < |convs| && convs[j].id == id ==> Truthy(userId) && convs[j].userId != userId.value
  {
    if Truthy(userId) then FindOwned(convs, id, userId.value) else FindById(convs, ConversationId, id)
  }
}
