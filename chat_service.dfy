/**
 * The chat service (app/services/chat_service.py): the current user of a
 * browser session, conversation queries and deletion, and one chat turn of
 * `send_message` over the database and the upstream client.
 */
module ChatService {
  import opened Wrappers
  import opened Seqs
  import opened Sorting
  import opened MessageModel
  import Cfg = ConfigModel
  import Usr = UserModel
  import Conv = ConversationModel
  import Api = ApiService
  import Db

  // ---------------------------------------------------------------------
  // The browser session
  // ---------------------------------------------------------------------

  /** Flask's signed-cookie `session`, of which only `session_id` is used. */
  class RequestSession {
    var sessionId: Option<string>

    constructor (sessionId: Option<string>)
      ensures this.sessionId == sessionId
    {
      this.sessionId := sessionId;
    }
  }

  /** The session id in use after `get_or_create_user`: the stored one, or the fresh `uuid4()` text when none is stored. */
  function SessionIdAfter(current: Option<string>, freshUuid: string): (sid: string)
    ensures current.Some? ==> sid == current.value
    ensures current.None? ==> sid == freshUuid
  {
    current.GetOr(freshUuid)
  }

  /** `ChatService.get_or_create_user()`: `freshUuid` is the `uuid4()` used only when the session has no id yet. */
  method GetOrCreateUser(db: Db.Database, session: RequestSession, freshUuid: string, now: int) returns (u: Usr.User)
    requires db.Valid()
    modifies session, db`users
    ensures db.Valid()
    ensures session.sessionId == Some(SessionIdAfter(old(session.sessionId), freshUuid))
    ensures Usr.Lookup(db.users, u) == Usr.GetOrCreateBySession(old(db.users), session.sessionId.value, now)
  {
    if session.sessionId.None? {
      session.sessionId := Some(freshUuid);
    }
    var sessionId := session.sessionId.value;
    u := db.GetOrCreateBySession(sessionId, now);
  }

  /**
   * Two calls in one session use the same session id, whatever the second
   * `uuid4()` would have been, and so find the same user; the table grows by
   * at most one row.
   */
  lemma SameSessionSameUser(users: seq<Usr.User>, current: Option<string>, uuid1: string, uuid2: string, t1: int, t2: int)
    requires SessionIdAfter(current, uuid1) != ""
    ensures var sid := SessionIdAfter(current, uuid1);
      && SessionIdAfter(Some(sid), uuid2) == sid
      && var first := Usr.GetOrCreateBySession(users, sid, t1);
         var second := Usr.GetOrCreateBySession(first.users, sid, t2);
         second.user.id == first.user.id && |second.users| == |first.users| <= |users| + 1
  {
    Usr.GetOrCreateIdempotent(users, SessionIdAfter(current, uuid1), t1, t2);
  }

  // ---------------------------------------------------------------------
  // Conversations
  // ---------------------------------------------------------------------

  /**
   * `ChatService.create_conversation(user_id, title)` at time `now`; `None`
   * stands for an omitted `title`, which defaults to 新对话 (the call `/new` makes).
   */
  method CreateConversation(db: Db.Database, userId: nat, title: Option<string>, now: int) returns (c: Conv.Conversation)
    requires db.Valid()
    modifies db`conversations
    ensures db.Valid()
    ensures title.None? ==> c.title == Conv.DefaultTitle
    ensures title.Some? ==> c.title == title.value
    ensures c == Conv.NewConversation(old(db.conversations), userId, c.title, now)
    ensures db.conversations == old(db.conversations) + [c]
  {
    var t := if title.Some? then title.value else Conv.DefaultTitle;
    c := Conv.NewConversation(db.conversations, userId, t, now);
    AppendFreshUnique(db.conversations, c, Conv.ConversationId);
    db.conversations := db.conversations + [c];
  }

  function NegatedUpdatedAt(c: Conv.Conversation): int { -c.updatedAt }

  /** The user's conversations, most recently updated first (`order_by(updated_at.desc())`). */
  function UserConversationsByRecency(convs: seq<Conv.Conversation>, userId: nat): (r: seq<Conv.Conversation>)
    ensures SortedBy(r, NegatedUpdatedAt)
    ensures |r| == Count(convs, (c: Conv.Conversation) => c.userId == userId)
    ensures forall i :: 0 <= i < |r| ==> r[i].userId == userId && r[i] in convs
    ensures forall i :: 0 <= i < |convs| && convs[i].userId == userId ==> convs[i] in r
  {
    var owned := Filter(convs, (c: Conv.Conversation) => c.userId == userId);
    var r := SortBy(owned, NegatedUpdatedAt);
    forall x | x in owned ensures x in r { SortByMembers(owned, NegatedUpdatedAt, x); }
    forall i | 0 <= i < |r| ensures r[i].userId == userId && r[i] in convs {
      SortByMembers(owned, NegatedUpdatedAt, r[i]);
      var j :| 0 <= j < |owned| && owned[j] == r[i];
    }
    r
  }

  /** The default page size of the conversation list. */
  const ConversationListLimit: nat := 50

  /**
   * `ChatService.get_user_conversations(user_id, limit)`: at most `limit` of
   * them (`.limit(limit)`, so none for 0); `None` stands for an omitted
   * `limit`, which defaults to 50 (the call the conversation list makes).
   */
  function GetUserConversations(convs: seq<Conv.Conversation>, userId: nat, limit: Option<nat>): (r: seq<Conv.Conversation>)
    ensures limit.Some? ==> |r| <= limit.value
    ensures limit.None? ==> |r| <= ConversationListLimit
    ensures var n := if limit.Some? then limit.value else ConversationListLimit;
            |r| == if |UserConversationsByRecency(convs, userId)| < n then |UserConversationsByRecency(convs, userId)| else n
    ensures r == UserConversationsByRecency(convs, userId)[..|r|]
    ensures SortedBy(r, NegatedUpdatedAt)
    ensures forall i :: 0 <= i < |r| ==> r[i].userId == userId && r[i] in convs
  {
    var all := UserConversationsByRecency(convs, userId);
    var page := if limit.Some? then limit.value else ConversationListLimit;
    var n := if |all| < page then |all| else page;
    SortedPrefix(all, NegatedUpdatedAt, n);
    all[..n]
  }

  /** `ChatService.get_conversation_messages(conversation_id, user_id)`: `None` when a truthy user id does not own it. */
  function GetConversationMessages(convs: seq<Conv.Conversation>, ms: seq<Message>, conversationId: nat, userId: Option<nat>): (r: Option<seq<Message>>)
    ensures r.None? <==> Conv.Truthy(userId) && Conv.Accessible(convs, conversationId, userId).None?
    ensures r.Some? ==> r.value == AllConversationMessages(ms, conversationId)
  {
    if Conv.Truthy(userId) && Conv.Accessible(convs, conversationId, userId).None? then None
    else Some(MessageModel.GetConversationMessages(ms, conversationId, 0))
  }

  /** What `get_conversation_detail` returns: the conversation's dictionary and its messages' dictionaries. */
  datatype ConversationDetail = ConversationDetail(conversation: Conv.ConversationDict, messages: seq<MessageDict>)

  function MessageDicts(ms: seq<Message>): (ds: seq<MessageDict>)
    ensures |ds| == |ms|
    ensures forall i :: 0 <= i < |ms| ==> ds[i] == ToDict(ms[i])
  {
    seq(|ms|, i requires 0 <= i < |ms| => ToDict(ms[i]))
  }

  /** `ChatService.get_conversation_detail(conversation_id, user_id)`. */
  function GetConversationDetail(convs: seq<Conv.Conversation>, ms: seq<Message>, conversationId: nat, userId: Option<nat>): (r: Option<ConversationDetail>)
    ensures r.None? <==> Conv.Accessible(convs, conversationId, userId).None?
    ensures r.Some? ==> r.value.conversation.id == conversationId
    ensures r.Some? ==> r.value.messages == MessageDicts(AllConversationMessages(ms, conversationId))
  {
    match Conv.Accessible(convs, conversationId, userId)
    case None => None
    case Some(i) =>
      var messages := GetConversationMessages(convs, ms, conversationId, None);
      Some(ConversationDetail(Conv.ToDict(convs[i], ms), if messages.Some? then MessageDicts(messages.value) else []))
  }

  /** The detail's message count agrees with the messages it lists, and they ascend in time. */
  lemma DetailConsistent(convs: seq<Conv.Conversation>, ms: seq<Message>, conversationId: nat, userId: Option<nat>)
    requires GetConversationDetail(convs, ms, conversationId, userId).Some?
    ensures var d := GetConversationDetail(convs, ms, conversationId, userId).value;
      && d.conversation.messageCount == |d.messages|
      && forall i, j :: 0 <= i < j < |d.messages| ==> d.messages[i].createdAt <= d.messages[j].createdAt
  {
    var all := AllConversationMessages(ms, conversationId);
    assert forall i, j :: 0 <= i < j < |all| ==> CreatedAt(all[i]) <= CreatedAt(all[j]);
  }

  /** The messages that survive deleting conversation `cid` (the `delete-orphan` cascade). */
  function WithoutConversation(ms: seq<Message>, cid: nat): (r: seq<Message>)
    ensures forall i :: 0 <= i < |r| ==> r[i].conversationId != cid && r[i] in ms
    ensures forall i :: 0 <= i < |ms| && ms[i].conversationId != cid ==> ms[i] in r
  {
    Filter(ms, (m: Message) => m.conversationId != cid)
  }

  /** Deleting a conversation's messages leaves every other conversation's messages as they were. */
  lemma {:induction false} OtherConversationsKept(ms: seq<Message>, cid: nat, other: nat)
    requires other != cid
    ensures OfConversation(WithoutConversation(ms, cid), other) == OfConversation(ms, other)
    ensures OfConversation(WithoutConversation(ms, cid), cid) == []
  {
    if ms != [] {
      OtherConversationsKept(ms[1..], cid, other);
      var w := WithoutConversation(ms, cid);
      var rest := WithoutConversation(ms[1..], cid);
      if ms[0].conversationId != cid {
        assert w == [ms[0]] + rest;
        assert w[0] == ms[0] && w[1..] == rest;
      } else {
        assert w == rest;
      }
    }
  }

  /** `ChatService.delete_conversation(conversation_id, user_id)`. */
  method DeleteConversation(db: Db.Database, conversationId: nat, userId: nat) returns (deleted: bool)
    requires db.Valid()
    modifies db`conversations, db`messages
    ensures db.Valid()
    ensures deleted <==> Conv.FindOwned(old(db.conversations), conversationId, userId).Some?
    ensures !deleted ==> db.conversations == old(db.conversations) && db.messages == old(db.messages)
    ensures deleted ==> var i := Conv.FindOwned(old(db.conversations), conversationId, userId).value;
      && db.conversations == old(db.conversations)[..i] + old(db.conversations)[i + 1..]
      && db.messages == WithoutConversation(old(db.messages), conversationId)
  {
    var found := Conv.FindOwned(db.conversations, conversationId, userId);
    if found.None? {
      return false;
    }
    var i := found.value;
    RemoveAtUnique(db.conversations, i, Conv.ConversationId);
    FilterPreservesUnique(db.messages, (m: Message) => m.conversationId != conversationId, MessageId);
    db.conversations := db.conversations[..i] + db.conversations[i + 1..];
    db.messages := WithoutConversation(db.messages, conversationId);
    return true;
  }

  // ---------------------------------------------------------------------
  // One chat turn
  // ---------------------------------------------------------------------

  /** How many stored messages are sent upstream as history. */
  const HistoryLimit: nat := 20

  const NotFoundOrForbidden := "对话不存在或无权限访问"
  const NotFound := "对话不存在"
  const MalformedReply := "API返回格式错误"
  /** `str(KeyError('message'))` and `str(KeyError('content'))`. */
  const MissingMessageKey := "'message'"
  const MissingContentKey := "'content'"

  /** The `api_messages` entries for a history: role and content of each message, in order. */
  function ApiMessages(history: seq<Message>): (api: seq<Api.ApiMessage>)
    ensures |api| == |history|
    ensures forall i :: 0 <= i < |history| ==> api[i] == Api.ApiMessage(history[i].role, history[i].content)
  {
    seq(|history|, i requires 0 <= i < |history| => Api.ApiMessage(history[i].role, history[i].content))
  }

  /** The append loop of `send_message` that builds `api_messages`. */
  method BuildApiMessages(history: seq<Message>) returns (api: seq<Api.ApiMessage>)
    ensures api == ApiMessages(history)
  {
    api := [];
    for k := 0 to |history|
      invariant |api| == k
      invariant forall i :: 0 <= i < k ==> api[i] == Api.ApiMessage(history[i].role, history[i].content)
    {
      api := api + [Api.ApiMessage(history[k].role, history[k].content)];
    }
  }

  /** `response['choices'][0]['message']['content']`, behind the `'choices' in response and len(...) > 0` guard. */
  function ExtractReply(env: Api.Envelope): (r: Result<string>)
    ensures r.Success? <==> env.choices.Some? && env.choices.value != [] && env.choices.value[0].message.Some?
                             && env.choices.value[0].message.value.content.Some?
    ensures r.Success? ==> Some(r.value) == env.choices.value[0].message.value.content
    ensures (env.choices.None? || env.choices.value == []) ==> r == Failure(MalformedReply)
    ensures r.Failure? ==> r.error in {MalformedReply, MissingMessageKey, MissingContentKey}
  {
    if env.choices.None? || env.choices.value == [] then Failure(MalformedReply)
    else match env.choices.value[0].message
      case None => Failure(MissingMessageKey)
      case Some(message) =>
        if message.content.None? then Failure(MissingContentKey) else Success(message.content.value)
  }

  /** The assistant reply for a history, or the text of the exception that stops the turn. */
  function TurnReply(config: Cfg.OpenAiConfig, history: seq<Message>, network: Api.ApiRequest -> Api.HttpOutcome,
                     parse: string -> Api.Payload): Result<string>
  {
    var response := Api.SendChatRequest(config, ApiMessages(history), false, network, parse);
    if response.Raised? then Failure(response.error) else ExtractReply(response.envelope)
  }

  /**
   * The middle of `send_message`: build `api_messages`, send them without
   * streaming and pull the reply text out of the response; an exception on
   * the way becomes the failure.
   */
  method RequestReply(config: Cfg.OpenAiConfig, history: seq<Message>, network: Api.ApiRequest -> Api.HttpOutcome,
                      parse: string -> Api.Payload) returns (reply: Result<string>)
    ensures reply == TurnReply(config, history, network, parse)
  {
    var apiMessages := BuildApiMessages(history);
    var response := Api.SendChatRequest(config, apiMessages, false, network, parse);
    if response.Raised? {
      return Failure(response.error);
    }
    reply := ExtractReply(response.envelope);
  }

  /** The canned envelope parses to the canned greeting, so without an API key every turn succeeds with it. */
  lemma NoKeyTurnGreets(config: Cfg.OpenAiConfig, history: seq<Message>, network: Api.ApiRequest -> Api.HttpOutcome,
                        parse: string -> Api.Payload)
    requires config.apiKey == ""
    ensures TurnReply(config, history, network, parse) == Success(Api.CannedGreeting)
  {
  }

  /** An upstream failure becomes the turn's error text unchanged. */
  lemma UpstreamErrorReported(config: Cfg.OpenAiConfig, history: seq<Message>, network: Api.ApiRequest -> Api.HttpOutcome,
                              parse: string -> Api.Payload)
    requires config.apiKey != ""
    requires network(Api.ApiRequest(config.apiUrl, config.apiKey, config.model, ApiMessages(history), false, Api.ChatMaxTokens)).Timeout?
    ensures TurnReply(config, history, network, parse) == Failure(Api.TimeoutMessage)
  {
  }

  /** What `send_message` returns: both messages' dictionaries, or the error text. */
  datatype SendResult = Sent(userMessage: MessageDict, aiMessage: MessageDict) | Failed(error: string)

  /** The history sent upstream once the user message `u` is stored: the earliest `HistoryLimit` messages of the conversation. */
  function TurnHistory(ms: seq<Message>, cid: nat): seq<Message> {
    MessageModel.GetConversationMessages(ms, cid, HistoryLimit)
  }

  /**
   * `ChatService.send_message(conversation_id, user_message, user_id)`.
   * `now` is the time of the user message and the title update, `replyAt` the
   * time of the assistant message; `app` holds the application's defaults.
   */
  method SendMessage(db: Db.Database, conversationId: nat, text: string, userId: Option<nat>, app: Cfg.OpenAiConfig,
                     network: Api.ApiRequest -> Api.HttpOutcome, parse: string -> Api.Payload, now: int, replyAt: int)
    returns (r: SendResult)
    requires db.Valid()
    modifies db`messages, db`conversations
    ensures db.Valid()
    ensures var i := Conv.Accessible(old(db.conversations), conversationId, userId);
      i.None? ==> && r == Failed(if Conv.Truthy(userId) then NotFoundOrForbidden else NotFound)
                  && db.messages == old(db.messages) && db.conversations == old(db.conversations)
    ensures var i := Conv.Accessible(old(db.conversations), conversationId, userId);
      i.Some? ==>
        var u := NewMessage(old(db.messages), conversationId, UserRole, text, now);
        var stored := old(db.messages) + [u];
        var reply := TurnReply(Api.GetApiConfig(db.configs, app), TurnHistory(stored, conversationId), network, parse);
        && db.conversations == (if Conv.MessageCount(stored, conversationId) == 1
                                then old(db.conversations)[i.value := Conv.UpdateTitleFromFirstMessage(old(db.conversations)[i.value], stored, now)]
                                else old(db.conversations))
        && (reply.Failure? ==> r == Failed(reply.error) && db.messages == stored)
        && (reply.Success? ==>
              var a := NewMessage(stored, conversationId, AssistantRole, reply.value, replyAt);
              r == Sent(ToDict(u), ToDict(a)) && db.messages == stored + [a])
  {
    var found := Conv.Accessible(db.conversations, conversationId, userId);
    if found.None? {
      return Failed(if Conv.Truthy(userId) then NotFoundOrForbidden else NotFound);
    }
    r := RunTurn(db, found.value, text, app, network, parse, now, replyAt);
  }

  /**
   * The first writes of a turn in conversation `i`: store the user message,
   * then update the title when it is the conversation's only message.
   */
  method StoreUserMessage(db: Db.Database, i: nat, text: string, now: int) returns (u: Message)
    requires db.Valid() && i < |db.conversations|
    modifies db`messages, db`conversations
    ensures db.Valid()
    ensures var cid := old(db.conversations)[i].id;
      && u == NewMessage(old(db.messages), cid, UserRole, text, now)
      && db.messages == old(db.messages) + [u]
      && db.conversations == (if Conv.MessageCount(db.messages, cid) == 1
                              then old(db.conversations)[i := Conv.UpdateTitleFromFirstMessage(old(db.conversations)[i], db.messages, now)]
                              else old(db.conversations))
  {
    var conversationId := db.conversations[i].id;
    u := db.CreateMessage(conversationId, UserRole, text, now);
    if Conv.MessageCount(db.messages, conversationId) == 1 {
      db.UpdateTitleFromFirstMessage(i, now);
    }
  }

  /**
   * The rest of `send_message` once conversation `i` has been found: store
   * the user message, update the title when it is the first message, ask
   * for the reply and store it.
   */
  method RunTurn(db: Db.Database, i: nat, text: string, app: Cfg.OpenAiConfig,
                 network: Api.ApiRequest -> Api.HttpOutcome, parse: string -> Api.Payload, now: int, replyAt: int)
    returns (r: SendResult)
    requires db.Valid() && i < |db.conversations|
    modifies db`messages, db`conversations
    ensures db.Valid()
    ensures var cid := old(db.conversations)[i].id;
      var u := NewMessage(old(db.messages), cid, UserRole, text, now);
      var stored := old(db.messages) + [u];
      var reply := TurnReply(Api.GetApiConfig(db.configs, app), TurnHistory(stored, cid), network, parse);
      && db.conversations == (if Conv.MessageCount(stored, cid) == 1
                              then old(db.conversations)[i := Conv.UpdateTitleFromFirstMessage(old(db.conversations)[i], stored, now)]
                              else old(db.conversations))
      && (reply.Failure? ==> r == Failed(reply.error) && db.messages == stored)
      && (reply.Success? ==>
            var a := NewMessage(stored, cid, AssistantRole, reply.value, replyAt);
            r == Sent(ToDict(u), ToDict(a)) && db.messages == stored + [a])
  {
    var conversationId := db.conversations[i].id;
    var userMsg := StoreUserMessage(db, i, text, now);
    var history := TurnHistory(db.messages, conversationId);
    var reply := RequestReply(Api.GetApiConfig(db.configs, app), history, network, parse);
    if reply.Failure? {
      return Failed(reply.error);
    }
    var aiMsg := db.CreateMessage(conversationId, AssistantRole, reply.value, replyAt);
    return Sent(ToDict(userMsg), ToDict(aiMsg));
  }

  /** The first message of an empty conversation is its only one, and a non-empty text becomes its title. */
  lemma FirstTurnTitle(conv: Conv.Conversation, ms: seq<Message>, text: string, now: int)
    ensures var stored := ms + [NewMessage(ms, conv.id, UserRole, text, now)];
      Conv.MessageCount(stored, conv.id) == 1 <==> OfConversation(ms, conv.id) == []
    ensures var stored := ms + [NewMessage(ms, conv.id, UserRole, text, now)];
      OfConversation(ms, conv.id) == [] && text != "" ==>
        Conv.UpdateTitleFromFirstMessage(conv, stored, now) == conv.(title := Conv.DeriveTitle(text), updatedAt := now)
  {
    var u := NewMessage(ms, conv.id, UserRole, text, now);
    OfConversationAppend(ms, u, conv.id);
    if OfConversation(ms, conv.id) == [] && text != "" {
      assert OfConversation(ms + [u], conv.id) == [u];
      Conv.TitleFromOnlyMessage(conv, ms + [u], u, now);
    }
  }

  /** A message no earlier than the conversation's others sorts after all of them. */
  lemma NewestSortsLast(ms: seq<Message>, cid: nat, u: Message)
    requires u.conversationId == cid
    requires forall i :: 0 <= i < |ms| && ms[i].conversationId == cid ==> ms[i].createdAt <= u.createdAt
    ensures AllConversationMessages(ms + [u], cid) == AllConversationMessages(ms, cid) + [u]
  {
    var earlier := OfConversation(ms, cid);
    OfConversationAppend(ms, u, cid);
    forall i | 0 <= i < |earlier| ensures CreatedAt(earlier[i]) <= CreatedAt(u) {
      var j :| 0 <= j < |ms| && ms[j] == earlier[i];
    }
    SortAppendGreatest(earlier, u, CreatedAt);
  }

  /**
   * When every earlier message of the conversation is no later than the new
   * one, the history ends with the new message while the conversation holds
   * fewer than 20 messages, and leaves it out from then on: the limit keeps the
   * earliest messages.
   */
  lemma HistoryAndNewMessage(ms: seq<Message>, cid: nat, text: string, now: int)
    requires forall i :: 0 <= i < |ms| && ms[i].conversationId == cid ==> ms[i].createdAt <= now
    ensures var u := NewMessage(ms, cid, UserRole, text, now);
      var h := TurnHistory(ms + [u], cid);
      && (|OfConversation(ms, cid)| < HistoryLimit ==> h == AllConversationMessages(ms, cid) + [u])
      && (|OfConversation(ms, cid)| >= HistoryLimit ==> u !in h && |h| == HistoryLimit)
  {
    var u := NewMessage(ms, cid, UserRole, text, now);
    NewestSortsLast(ms, cid, u);
    OfConversationAppend(ms, u, cid);
    var earlier := AllConversationMessages(ms, cid);
    var h := TurnHistory(ms + [u], cid);
    if |OfConversation(ms, cid)| >= HistoryLimit {
      assert (earlier + [u])[..HistoryLimit] == earlier[..HistoryLimit];
      assert h == earlier[..HistoryLimit];
      forall k | 0 <= k < |h| ensures h[k].id != u.id {
        assert h[k] == earlier[k] && earlier[k] in ms;
        var j :| 0 <= j < |ms| && ms[j] == h[k];
      }
    } else {
      assert h == earlier + [u];
    }
  }
}
