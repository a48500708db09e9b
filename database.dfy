/**
 * The SQLAlchemy database: the four tables as sequences of rows, and the
 * model classes' methods that write to them. Each write is committed at once,
 * as the source does, so every method leaves the tables in their final state.
 */
module Db {
  import opened Wrappers
  import opened Seqs
  import Cfg = ConfigModel
  import Usr = UserModel
  import opened MessageModel
  import Conv = ConversationModel

  class Database {
    var users: seq<Usr.User>
    var conversations: seq<Conv.Conversation>
    var messages: seq<Message>
    var configs: seq<Cfg.ConfigRow>

    /** Primary keys unique in every table, session ids unique among users, one config row per key. */
    ghost predicate Valid()
      reads this
    {
      && Usr.WellFormed(users)
      && UniqueBy(conversations, Conv.ConversationId)
      && UniqueBy(messages, MessageId)
      && Cfg.WellFormed(configs)
    }

    constructor ()
      ensures Valid()
      ensures users == [] && conversations == [] && messages == [] && configs == []
    {
      users, conversations, messages, configs := [], [], [], [];
    }

    /** `Message.create_message(conversation_id, role, content)` at time `now`. */
    method CreateMessage(conversationId: nat, role: Role, content: string, now: int) returns (m: Message)
      requires Valid()
      modifies this`messages
      ensures Valid()
      ensures m == NewMessage(old(messages), conversationId, role, content, now)
      ensures messages == old(messages) + [m]
    {
      m := NewMessage(messages, conversationId, role, content, now);
      AppendFreshUnique(messages, m, MessageId);
      messages := messages + [m];
    }

    /** `conversations[i].update_title_from_first_message()` at time `now`. */
    method UpdateTitleFromFirstMessage(i: nat, now: int)
      requires Valid() && i < |conversations|
      modifies this`conversations
      ensures Valid()
      ensures conversations == old(conversations)[i := Conv.UpdateTitleFromFirstMessage(old(conversations)[i], messages, now)]
    {
      var c := Conv.UpdateTitleFromFirstMessage(conversations[i], messages, now);
      ReplaceSameKeyUnique(conversations, i, c, Conv.ConversationId);
      conversations := conversations[i := c];
    }

    /** `users[i].update_last_active()` at time `now`. */
    method UpdateLastActive(i: nat, now: int)
      requires Valid() && i < |users|
      modifies this`users
      ensures Valid()
      ensures users == Usr.Touch(old(users), i, now)
    {
      ReplaceSameKeyUnique(users, i, users[i].(lastActive := now), Usr.UserId);
      assert forall j :: 0 <= j < |users| ==> Usr.Touch(users, i, now)[j].sessionId == users[j].sessionId;
      users := Usr.Touch(users, i, now);
    }

    /** `User.get_or_create_by_session(session_id)` at time `now`. */
    method GetOrCreateBySession(sessionId: string, now: int) returns (u: Usr.User)
      requires Valid()
      modifies this`users
      ensures Valid()
      ensures Usr.Lookup(users, u) == Usr.GetOrCreateBySession(old(users), sessionId, now)
    {
      Usr.GetOrCreateWellFormed(users, sessionId, now);
      var found := Usr.FindBySession(users, sessionId);
      if found.Some? {
        var i := found.value;
        users := Usr.Touch(users, i, now);
        u := users[i];
      } else {
        u := Usr.NewUser(NextId(users, Usr.UserId), sessionId, "", false, now);
        users := users + [u];
      }
    }

    /** `Config.set_value(key, value, description)` at time `now`; returns the row written. */
    method SetValue(key: string, value: string, description: Option<string>, now: int) returns (row: Cfg.ConfigRow)
      requires Valid()
      modifies this`configs
      ensures Valid()
      ensures configs == Cfg.Upsert(old(configs), key, value, description, now)
      ensures row in configs && row.key == key && row.value == value
    {
      Cfg.UpsertWellFormed(configs, key, value, description, now);
      var found := Cfg.FindKey(configs, key);
      configs := Cfg.Upsert(configs, key, value, description, now);
      row := if found.Some? then configs[found.value] else configs[|configs| - 1];
    }

    /** `Config.set_openai_config(api_url, api_key, model)` at time `now`. */
    method SetOpenaiConfig(apiUrl: string, apiKey: string, model: string, now: int)
      requires Valid()
      modifies this`configs
      ensures Valid()
      ensures configs == Cfg.SetOpenaiConfig(old(configs), apiUrl, apiKey, model, now)
    {
      var _ := SetValue(Cfg.UrlKey, apiUrl, Some("OpenAI API URL"), now);
      var _ := SetValue(Cfg.KeyKey, apiKey, Some("OpenAI API Key"), now);
      var _ := SetValue(Cfg.ModelKey, model, Some("OpenAI Model Name"), now);
    }
  }
}
