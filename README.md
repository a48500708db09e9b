# SimpleChat-Qwen core, modelled in Dafny

SimpleChat-Qwen is a Flask chat application. Each browser session becomes a
user. A user has conversations, and every message they send is forwarded,
with the conversation's history, to an OpenAI-compatible chat-completions
service (Qwen on SiliconFlow by default). The reply is stored next to the
question. An administrator can read user statistics, see recent activity and
delete users. The browser reads the reply as a stream of server-sent event
lines.

This project models the logic of that pipeline and proves properties of it:

- **Tables.** The four tables (`users`, `conversations`, `messages`,
  `configs`) are sequences of rows held by the class `Db.Database`. Its
  methods are the model classes' writes, each committed at once as the source
  does. `Valid()` is the invariant every write keeps: primary keys are unique,
  session ids are unique, and there is one config row per key.
- **Models.** The row queries of `Message`, `Conversation`, `User` and
  `Config` are pure functions: filtering, ordering, limiting, title
  derivation, upsert and get-or-create.
- **ApiService.**
  - The upstream stream normaliser (`_stream_response_generator`) is an
    imperative loop, proved equal to a total function `Normalize` over the
    response lines.
  - The legacy reader (`_handle_stream_response`) is proved to agree with
    `Normalize` on well-formed OpenAI streams.
  - Also modelled: the settings merge (`get_api_config`), the no-key demo
    path, the exception-to-message mapping of `send_chat_request`, and the
    connection probe.
- **ChatService.** The chat turn `send_message` is a method over the
  database, with its ordered writes. Also modelled: session user creation,
  conversation listing, detail and deletion.
- **UserService.** Statistics, deleting a user (their conversations and
  messages go with them) and the recent-activity feed.
- **ChatClient.** The browser's read loop in `chat.js`: the `buffer`/`split`
  line cutter and `handleStreamChunk`. It is proved to show the
  concatenation of the stream's truthy `ai_chunk` contents, however the body
  is cut into reads. The `try`/`catch` around it is modelled too: the relay
  the page posts to is not routed here, so a send ends in the `catch` branch
  with its generic error.

The clock, `uuid4`, JSON parsing and the network are not modelled; they are
parameters instead:

- timestamps are integers (`now`, `replyAt`);
- a fresh UUID is a string argument;
- `parse` maps a payload text to an abstract payload;
- `network` maps a request to an HTTP outcome.

Sorting by a column is a stable insertion sort (`Sorting.SortBy`), and a
descending order is a sort on the negated key. A new primary key is one more
than the largest in its table, which is SQLite's rowid rule.

Where the stated design and the code differ, the model follows the code:

- The history sent upstream is ordered ascending before the limit of 20 is
  applied. It therefore holds the *earliest* 20 messages, not the most
  recent ones (`app/models/message.py:32-34`, used at
  `app/services/chat_service.py:91`). `ChatService.HistoryAndNewMessage`
  states the consequence: once a conversation holds 20 messages, the new
  question is not in the history.
- The database default model (`Qwen/Qwen2-7B-Instruct` in
  `get_openai_config`) always wins over the application's `OPENAI_MODEL`
  setting, because the stored value is never empty unless it was cleared
  (`ApiService.EmptyStoreModel`).
- `send_message` is always called with `stream=False`. The streaming relay
  endpoint that the browser posts to does not exist in this code base, so
  the server side streams only through `ApiService`.

## Model

| member | source | states |
|---|---|---|
| MessageModel.ToDictExposes | app/models/message.py:20-27 | two messages have equal dictionaries exactly when they agree on id, role, content and creation time; only the owning conversation is hidden |
| MessageModel.OfConversation | app/models/message.py:32 | every message of the conversation is kept, and nothing else |
| MessageModel.OfConversationAppend | app/models/message.py:38-43 | a new message adds itself to its own conversation and to no other |
| MessageModel.AllConversationMessages | app/models/message.py:32 | the conversation's messages ascending by creation time, a permutation of them |
| MessageModel.GetConversationMessages | app/models/message.py:30-35 | only that conversation's messages, ascending; with a truthy limit at most `limit` and a prefix of the unlimited result; with a falsy limit all of them |
| MessageModel.NewMessage | app/models/message.py:38-40 | the new row has a key no other row has and exactly the given conversation, role, content and time |
| Db.Database.CreateMessage | app/models/message.py:38-43 | exactly one message is appended and the tables stay valid |
| ConversationModel.NewConversation | app/models/conversation.py:19-21 | the new conversation has a fresh key, the given owner and title, and equal creation and update times |
| ConversationModel.DeriveTitle | app/models/conversation.py:28 | up to 30 characters are kept verbatim; a longer text gives its first 30 characters and "..."; a title is at most 33 long |
| ConversationModel.DeriveTitleIdempotent | app/models/conversation.py:28 | deriving a title from a derived title changes nothing |
| ConversationModel.FirstUserMessage | app/models/conversation.py:25 | the earliest user message of the conversation; none exactly when it has no user message |
| ConversationModel.UpdateTitleFromFirstMessage | app/models/conversation.py:23-30 | id, owner and creation time are kept |
| ConversationModel.UpdateTitleFacts | app/models/conversation.py:23-30 | either nothing changes, or the title is derived from the earliest user message, which is non-empty, and the update time becomes now; with no user message nothing changes |
| ConversationModel.DefaultTitleKept | app/models/conversation.py:19-30 | a conversation created with the default title keeps 新对话 while none of its user messages has text |
| ConversationModel.TitleFromOnlyMessage | app/models/conversation.py:23-30 | when the only message is a non-empty user message, it becomes the title |
| ConversationModel.MessageCountAfterCreate | app/models/conversation.py:32-34 | creating a message adds one to its conversation's count and nothing to any other |
| ConversationModel.OnlyMessageAfterCreate | app/models/conversation.py:32-34 | a count of 1 right after creating a message means it is the conversation's only message |
| ConversationModel.MaxCreatedAt | app/models/conversation.py:41 | the result is one of the creation times and no creation time exceeds it |
| ConversationModel.LastMessageTime | app/models/conversation.py:36-43 | the latest creation time of the conversation's messages, or the conversation's own creation time when it has none |
| Seqs.FindById | app/services/chat_service.py:79 | `query.get(key)`: the position of the row with that key; none exactly when no row has it |
| ConversationModel.FindOwned | app/services/chat_service.py:129 | the conversation with that id owned by that user; none exactly when there is none |
| ConversationModel.Accessible | app/services/chat_service.py:74-81 | with a truthy user id, the conversation with that id owned by that user; otherwise the one with that id; none exactly when there is no such row |
| Db.Database.UpdateTitleFromFirstMessage | app/models/conversation.py:23-30 | only that conversation's row is replaced by its updated version, and the tables stay valid |
| UserModel.Nonempty | app/models/user.py:24-27 | a field is set exactly when its argument is truthy |
| UserModel.NewUser | app/models/user.py:23-29 | session id and username are set only when non-empty; admin flag as given; last activity is now |
| UserModel.FindBySession | app/models/user.py:47 | the first user with that session id; none exactly when no user has it |
| UserModel.FirstSessionMatch | app/models/user.py:47 | no earlier row has the session id (`first()`) |
| UserModel.Touch | app/models/user.py:39-42 | only that user's last activity changes, to now |
| UserModel.GetOrCreateExisting | app/models/user.py:47-53 | an existing user with that session id is returned and no row is added |
| UserModel.GetOrCreateNew | app/models/user.py:47-51 | otherwise exactly one new non-admin user without username and with a fresh key is appended |
| UserModel.GetOrCreateWellFormed | app/models/user.py:13 | the table never holds two users with the same session id |
| UserModel.GetOrCreateIdempotent | app/models/user.py:45-54 | a second call with the same non-empty session id returns the same user, and the table grows by at most one row |
| Db.Database.UpdateLastActive | app/models/user.py:39-42 | the table after touching the user, still valid |
| Db.Database.GetOrCreateBySession | app/models/user.py:45-54 | the table and the user returned are those of the get-or-create function, and the tables stay valid |
| ConfigModel.FindKey | app/models/config_model.py:23 | the first row with that key; none exactly when no row has it |
| ConfigModel.GetValue | app/models/config_model.py:21-24 | an absent key gives the default; otherwise the value of a row with that key |
| ConfigModel.Upsert | app/models/config_model.py:27-39 | the table grows by one row exactly when the key was absent |
| ConfigModel.GetAfterUpsert | app/models/config_model.py:21-39 | after `set_value(k, v)`, `get_value(k)` is `v` |
| ConfigModel.UpsertOtherKey | app/models/config_model.py:27-39 | `set_value(k, v)` leaves every other key's value unchanged |
| ConfigModel.UpsertWellFormed | app/models/config_model.py:27-39 | keys and row ids stay unique: one row per key |
| ConfigModel.UpsertDescription | app/models/config_model.py:33-36 | on update the description changes only for a truthy description; on insert it is the one given |
| ConfigModel.GetOpenaiConfig | app/models/config_model.py:42-48 | an empty store gives `''`, `''` and `Qwen/Qwen2-7B-Instruct` |
| ConfigModel.SetThenGetOpenaiConfig | app/models/config_model.py:42-55 | writing the three settings and reading them back gives what was written |
| Db.Database.SetValue | app/models/config_model.py:27-39 | the table after the upsert, still valid; the row returned carries the key and value |
| Db.Database.SetOpenaiConfig | app/models/config_model.py:51-55 | the table after the three upserts, still valid |
| ApiService.TextOf | app/services/api_service.py:154 | a value yields text exactly when it is a non-empty string |
| ApiService.ExtractFragment | app/services/api_service.py:139-157 | dispatch on `choices`, then `content`, then `text`; an empty `choices` list raises; when `choices` is present only `choices[0].delta.content` counts; a fragment is never empty |
| ApiService.ChoicesShadowFlatKeys | app/services/api_service.py:142-152 | with `choices` present the flat `content` and `text` keys are never looked at |
| ApiService.ContentShadowsText | app/services/api_service.py:147-152 | with `content` present `text` is never looked at; otherwise `text` decides |
| ApiService.ClassifyLineCases | app/services/api_service.py:123-161 | an empty or non-`data: ` line is ignored; a payload that strips to `[DONE]` ends the stream; an unparseable payload is skipped; an emitted fragment is non-empty; the only failure is the rewrapped IndexError |
| ApiService.ChunkEffect | app/services/api_service.py:134-157 | a parsed chunk never ends the stream; a fragment is non-empty; a failure carries the rewrapped IndexError |
| ApiService.Normalize | app/services/api_service.py:123-167 | every fragment is non-empty and there are no more fragments than lines |
| ApiService.NormalizeStep | app/services/api_service.py:123-161 | one line at a time: ignored, emitted before the rest, end of stream, or failure |
| ApiService.NormalizeIsConcatMap | app/services/api_service.py:123-157 | the fragments are the in-order concatenation of each line's contribution over the lines before the first terminating line; the error is that line's failure, if any |
| ApiService.IgnoredLineRemovable | app/services/api_service.py:123-161 | removing a line that contributes nothing changes nothing |
| ApiService.NonDataLineRemovable | app/services/api_service.py:123-128 | empty lines and lines not starting with `data: ` never affect the outcome |
| ApiService.UnparseableLineRemovable | app/services/api_service.py:159-161 | a payload that fails to parse is skipped and does not end the stream |
| ApiService.EndMarkerStops | app/services/api_service.py:129-132 | no line after `[DONE]` contributes anything |
| ApiService.DemoChunksNonEmpty | app/services/api_service.py:104-116 | there are 11 demo chunks and none of them is empty |
| ApiService.DemoChunksSpellGreeting | app/services/api_service.py:104-116 | the demo chunks concatenate to the canned non-streaming greeting |
| ApiService.StreamResponseGenerator | app/services/api_service.py:94-167 | without a response it yields exactly the 11 demo chunks; otherwise its fragments and error are those of `Normalize` |
| ApiService.GeneratorLine | app/services/api_service.py:124-161 | one pass of the generator's loop body skips, yields, stops or raises exactly as `ClassifyLine` says for that line |
| ApiService.LegacyLineStep | app/services/api_service.py:174-186 | one pass of the older reader's loop body keeps, appends, stops or crashes exactly as `LegacyLine` says for that line |
| ApiService.HandleStreamResponse | app/services/api_service.py:169-198 | the reply envelope carries the legacy accumulation; a failure is rewrapped as `响应处理失败: ` plus the error |
| ApiService.LegacyAgreesWithNormalize | app/services/api_service.py:169-195 | on a stream where every `data: ` line other than `[DONE]` that parses to an object has a present, non-empty `choices` list whose first delta's `content` is not JSON null, the legacy reader's content is the concatenation of `Normalize`'s fragments and neither fails |
| ApiService.GetApiConfig | app/services/api_service.py:12-23 | each effective field is the stored value when non-empty, else the application's; it is empty only when both are |
| ApiService.SavedSettingsWin | app/services/api_service.py:17-21 | non-empty saved settings are used as they are |
| ApiService.ClearedSettingsFallBack | app/services/api_service.py:17-21 | cleared settings fall back to the application's |
| ApiService.EmptyStoreModel | app/services/api_service.py:20 | with nothing stored, URL and key are the application's but the model is the table's default |
| ApiService.SendChatRequest | app/services/api_service.py:25-92 | without a key: the demo stream, or the canned greeting envelope; raised errors are the timeout, connection, `API请求失败: ` and format messages, only with a key; the stream flag selects the response kind |
| ApiService.NoKeyNoNetwork | app/services/api_service.py:38-51 | without a key the network is never consulted |
| ApiService.DemoStreamMatchesCannedReply | app/services/api_service.py:38-51 | without a key streaming yields the demo chunks, whose concatenation is the non-streaming reply's content |
| ApiService.ProbeConfig | app/services/api_service.py:212-221 | with no override the current settings; otherwise each non-empty override replaces its field |
| ApiService.TestConnection | app/services/api_service.py:200-252 | success exactly when the probe request gets a response; the message is the success text, or the failure prefix plus the error |
| ChatService.RequestSession.constructor | app/services/chat_service.py:16 | the session starts with the cookie's session id, if any |
| ChatService.SessionIdAfter | app/services/chat_service.py:16-20 | a session id is assigned only when none exists |
| ChatService.GetOrCreateUser | app/services/chat_service.py:11-29 | the session holds its old or a fresh id, and the user and table are those of `get_or_create_by_session` on it |
| ChatService.SameSessionSameUser | app/services/chat_service.py:16-23 | repeated calls in one session keep the session id and return the same user, with at most one row added |
| ChatService.CreateConversation | app/services/chat_service.py:32-37 | exactly one new conversation with the given owner is appended, titled as given or 新对话 when the title is omitted |
| ChatService.UserConversationsByRecency | app/services/chat_service.py:42-43 | exactly the user's conversations, most recently updated first |
| ChatService.GetUserConversations | app/services/chat_service.py:40-45 | at most `limit` of them, or 50 when the limit is omitted; a prefix of the full ordered list, all owned by the user |
| ChatService.GetConversationMessages | app/services/chat_service.py:48-57 | none exactly when a truthy user id does not own the conversation; otherwise all its messages ascending |
| ChatService.GetConversationDetail | app/services/chat_service.py:138-152 | none exactly when the conversation is not accessible; otherwise its dictionary and its messages' dictionaries ascending |
| ChatService.DetailConsistent | app/services/chat_service.py:148-152 | the message count in the detail equals the number of messages listed, which ascend in time |
| ChatService.OtherConversationsKept | app/models/conversation.py:16-17 | the cascade removes every message of the deleted conversation and keeps every other conversation's messages |
| ChatService.DeleteConversation | app/services/chat_service.py:127-135 | false and nothing changed unless the user owns it; otherwise exactly that row and its messages are removed |
| ChatService.BuildApiMessages | app/services/chat_service.py:94-99 | one `{role, content}` entry per history message, in order |
| ChatService.ExtractReply | app/services/chat_service.py:105-108 | `choices[0].message.content` when present; a missing or empty `choices` gives `API返回格式错误`; other failures are the KeyError texts |
| ChatService.NoKeyTurnGreets | app/services/chat_service.py:102-108 | without a key the turn's reply is the canned greeting |
| ChatService.UpstreamErrorReported | app/services/chat_service.py:119-124 | an upstream timeout becomes the turn's error message |
| ChatService.StoreUserMessage | app/services/chat_service.py:83-88 | the user message is appended with the next key, and the conversation's title is updated exactly when that message is the conversation's only one |
| ChatService.RunTurn | app/services/chat_service.py:83-116 | the user message is stored first and stays on failure, the title is updated exactly when it is the conversation's first message, and on success exactly one assistant message is appended and both dictionaries are returned |
| ChatService.RequestReply | app/services/chat_service.py:93-108 | the reply text is the one `TurnReply` gives for the history: the first choice's message content, or the error raised on the way |
| ChatService.SendMessage | app/services/chat_service.py:60-124 | an inaccessible conversation fails with the right message and writes nothing; otherwise the user message is stored first and stays on failure, the title is updated exactly when it is the first message, and on success exactly one assistant message is appended and both dictionaries are returned |
| ChatService.FirstTurnTitle | app/services/chat_service.py:87-88 | the count is 1 exactly when the conversation was empty, and then a non-empty text becomes the title |
| ChatService.NewestSortsLast | app/models/message.py:32 | a message no older than the others sorts last |
| ChatService.HistoryAndNewMessage | app/services/chat_service.py:91 | under 20 earlier messages the history is all of them plus the new one; from 20 on it is 20 long and leaves the new message out |
| UserService.GetUserStats | app/services/user_service.py:17-32 | total is the row count; admins counted; regular users are the non-admins, never negative; active users are those active at or after a week ago |
| UserService.ActiveUsersFallOverTime | app/services/user_service.py:24-25 | a later clock never raises the active count |
| UserService.TouchedUserActive | app/services/user_service.py:24-25 | a user just touched counts as active |
| UserService.DeleteUser | app/services/user_service.py:76-88 | false and nothing changed for a missing user or an admin; otherwise the user, their conversations and those conversations' messages are removed and the tables stay valid |
| UserService.DeleteUserCascade | app/models/user.py:21 | nothing of the deleted user remains, and other users' conversations keep all their messages |
| UserService.UserLabel | app/services/user_service.py:112 | the username when set; otherwise `用户_` and at most 8 characters of the session id; a user with neither raises the `None[:8]` TypeError |
| UserService.VisitorLabel | app/services/user_service.py:112 | a session-created user is labelled `用户_` plus the first 8 characters of its session id |
| UserService.RecentConversations | app/services/user_service.py:103-106 | at most `limit` conversations whose user exists, newest first |
| UserService.ActivitiesElements | app/services/user_service.py:109-116 | a successful feed holds one activity per conversation, in order |
| UserService.ActivitiesFailure | app/services/user_service.py:109-116 | the feed fails exactly when some conversation's user has no label |
| UserService.FirstFailedActivity | app/services/user_service.py:109-116 | the feed fails with the error of the first conversation whose user has no label |
| UserService.ActivitiesNewestFirst | app/services/user_service.py:109-118 | the activities are newest first, as their conversations are |
| UserService.CollectActivities | app/services/user_service.py:108-116 | the loop returns `Activities` of the rows: one activity per row in order, or the failure of the first row whose user has no label |
| UserService.GetRecentActivities | app/services/user_service.py:100-118 | the loop's result is `Activities` of the query; at most `limit` entries, sorted by time descending |
| ChatClient.Split | app/static/js/chat.js:289 | at least one piece, none containing a newline |
| ChatClient.JoinSplit | app/static/js/chat.js:286-291 | the lines taken plus the new buffer are exactly the old buffer plus the new data |
| ChatClient.SplitJoin | app/static/js/chat.js:289 | splitting is the inverse of joining newline-free pieces |
| ChatClient.ReceivedLines | app/static/js/chat.js:277-291 | however the body is cut into reads, the lines taken so far followed by the buffer's are the body's complete lines |
| ChatClient.HandleStreamChunk | app/static/js/chat.js:381-426 | only `ai_chunk` appends, and only truthy content; `ai_complete` stops the cursor; `error` removes the message and shows the error; both re-enable input |
| ChatClient.PayloadAction | app/static/js/chat.js:297-309 | `[DONE]` finishes; an empty payload and a parse failure are skipped |
| ChatClient.HandleLine | app/static/js/chat.js:294-309 | handling one line finishes the stream exactly when `ClientLine` says so, and otherwise changes the page as `Apply` says; only `data: ` lines with a non-empty payload that parses have an effect |
| ChatClient.ReplayFinishes | app/static/js/chat.js:297-300 | the loop finishes early exactly when some line is the end marker |
| ChatClient.FinishedStaysFinished | app/static/js/chat.js:297-313 | after `[DONE]` no further line is processed |
| ChatClient.ReplayShows | app/static/js/chat.js:389-394 | the text gains exactly the truthy `ai_chunk` contents, in order |
| ChatClient.ReadEventStream | app/static/js/chat.js:273-319 | the stream always ends completed, and the view is that of handling the body's complete lines in order up to `[DONE]`, with input re-enabled |
| ChatClient.CatchNotice | app/static/js/chat.js:331-337 | an error mentioning `timeout` or `Timeout` is a timeout, else one mentioning `Failed to fetch` is a network failure, else the generic notice |
| ChatClient.SendMessageStream | app/static/js/chat.js:257-345 | the page is the read loop's when the response is ok, otherwise the `catch` branch's; input is enabled again on every path |
| ChatClient.FailureShowsOneError | app/static/js/chat.js:324-343 | a rejected fetch or a response that is not ok shows no reply text, removes the message and shows exactly one error |
| ChatClient.TimeoutStatusReported | app/static/js/chat.js:269-270 | a non-ok response whose status text mentions `Timeout` is reported as a timeout |
| ChatClient.NotFoundFails | app/static/js/chat.js:258-270 | a 404 for `/api/chat/send-stream` drops the body and shows 发送消息失败，请重试 |
| ChatClient.DisplayedText | app/static/js/chat.js:389-394 | the displayed text is the in-order concatenation of the truthy `ai_chunk` contents |

## Left out

- Network I/O, timeouts and HTTP status checks are not modelled. The upstream service is a function from request to outcome (`ApiService.HttpOutcome`), and only the mapping of its exceptions to messages is kept.
- JSON parsing is not modelled. Payloads are an abstract datatype. Non-object JSON values, non-string `content` values and a JSON `null` reply content are not represented.
- UTF-8 decoding of response lines and the browser's `TextDecoder` are not modelled; lines and reads are already strings.
- Whitespace is the six ASCII spaces that JavaScript's `trim()` also removes (`Text.IsSpace`). Python's `strip()` also removes `\x1c`–`\x1f` and Unicode whitespace; those characters and the Unicode whitespace of `trim()` are not modelled.
- ApiService.SendChatRequest: assumes `requests` older than 2.27, where an unreadable JSON body raises only `json.JSONDecodeError` and gives `API响应格式错误`. From 2.27 on that error is also a `RequestException`, so the earlier `except` branch catches it and the message is `API请求失败: ` followed by the error text; that path is not modelled.
- The demo delay (`time.sleep`) and all logging are left out.
- Temperature (0.7), the request headers and the per-request timeouts are fixed values sent upstream. They are left out of `ApiService.ApiRequest`.
- The `/api/chat/send-stream` relay that the browser posts to does not exist in this code base, so no relay is modelled.
- Flask views, routing, templates, flash messages and configuration loading from the environment are left out.
- Password hashing, login, `load_user` and `UserService.authenticate_admin` are left out (hashing and sessions are library code).
- Pagination is left out: `UserService.get_all_users`, `UserService.get_user_conversations` and `UserService.get_all_conversations` only page over ordered queries.
- `UserService.get_conversation_stats` is left out: it counts rows against the start of the current calendar day, which needs date arithmetic.
- ISO-8601 rendering of timestamps is left out; dictionaries carry integer times.
- The constant `'type': 'conversation'` field of an activity is left out of `UserService.Activity`.
- Concurrency, database errors and rollbacks are left out; every write commits.
- `ChatService.GetOrCreateUser` re-raises any exception; since no step of the model can fail, that path is empty.
- DOM work in `chat.js` is left out: element creation, scrolling, HTML escaping, time formatting, notifications and conversation-list reloads. The page state is reduced to `ChatClient.ClientView`.
- ChatClient.SendMessageStream: the blueprint mounted at `/api/chat` has no `send-stream` route, so in this code base every send gets a 404 and takes the `catch` branch (`ChatClient.NotFoundFails`); `ChatClient.ReadEventStream` states what the read loop would do for a server that answers. An error thrown while the body is being read is not modelled.
- `ChatClient.HandleStreamChunk`: the timestamp that `ai_complete` adds is left out. A missing `message` is modelled only as the exception that stops `restoreUIState()` from running.
