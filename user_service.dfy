/**
 * The administrator's user service (app/services/user_service.py): user
 * statistics, deleting a user with everything they own, and the feed of the
 * most recently started conversations.
 */
module UserService {
  import opened Wrappers
  import opened Seqs
  import opened Sorting
  import opened Text
  import opened MessageModel
  import Usr = UserModel
  import Conv = ConversationModel
  import Db

  // ---------------------------------------------------------------------
  // Statistics
  // ---------------------------------------------------------------------

  /** `timedelta(days=7)` in the model's time unit, microseconds. */
  const Week: int := 7 * 24 * 60 * 60 * 1000000

  /** The dictionary `get_user_stats()` returns. */
  datatype UserStats = UserStats(totalUsers: nat, adminUsers: nat, regularUsers: int, activeUsers: nat)

  function IsAdmin(u: Usr.User): bool { u.isAdmin }
  function IsRegular(u: Usr.User): bool { !u.isAdmin }

  /** Active since `since`: `last_active >= since`. */
  function ActiveSince(since: int): Usr.User -> bool {
    (u: Usr.User) => u.lastActive >= since
  }

  /** `UserService.get_user_stats()` at time `now`. */
  function GetUserStats(users: seq<Usr.User>, now: int): (r: UserStats)
    ensures r.totalUsers == |users|
    ensures r.adminUsers == Count(users, IsAdmin) <= r.totalUsers
    ensures 0 <= r.regularUsers && r.regularUsers == Count(users, IsRegular)
    ensures r.activeUsers == Count(users, ActiveSince(now - Week)) <= r.totalUsers
  {
    var total := |users|;
    var admins := Count(users, IsAdmin);
    CountPartition(users, IsAdmin, IsRegular);
    UserStats(total, admins, total - admins, Count(users, ActiveSince(now - Week)))
  }

  /** As time passes without activity the active count can only fall. */
  lemma ActiveUsersFallOverTime(users: seq<Usr.User>, now1: int, now2: int)
    requires now1 <= now2
    ensures GetUserStats(users, now2).activeUsers <= GetUserStats(users, now1).activeUsers
  {
    CountMonotone(users, ActiveSince(now2 - Week), ActiveSince(now1 - Week));
  }

  /** A user just touched counts as active. */
  lemma TouchedUserActive(users: seq<Usr.User>, i: nat, now: int)
    requires i < |users|
    ensures ActiveSince(now - Week)(Usr.Touch(users, i, now)[i])
    ensures GetUserStats(Usr.Touch(users, i, now), now).activeUsers >= 1
  {
    var touched := Usr.Touch(users, i, now);
    assert touched[i] in Filter(touched, ActiveSince(now - Week));
  }

  // ---------------------------------------------------------------------
  // Deleting a user
  // ---------------------------------------------------------------------

  /** The ids of the conversations `userId` owns. */
  function OwnedConversationIds(convs: seq<Conv.Conversation>, userId: nat): (ids: set<nat>)
    ensures forall j :: 0 <= j < |convs| && convs[j].userId == userId ==> convs[j].id in ids
  {
    set j | 0 <= j < |convs| && convs[j].userId == userId :: convs[j].id
  }

  /** The conversations that do not belong to `userId`. */
  function ConversationsOfOthers(convs: seq<Conv.Conversation>, userId: nat): (r: seq<Conv.Conversation>)
    ensures forall i :: 0 <= i < |r| ==> r[i].userId != userId && r[i] in convs
    ensures forall i :: 0 <= i < |convs| && convs[i].userId != userId ==> convs[i] in r
  {
    Filter(convs, (c: Conv.Conversation) => c.userId != userId)
  }

  /** The messages outside the conversations with ids in `ids`. */
  function MessagesOutside(ms: seq<Message>, ids: set<nat>): (r: seq<Message>)
    ensures forall i :: 0 <= i < |r| ==> r[i].conversationId !in ids && r[i] in ms
    ensures forall i :: 0 <= i < |ms| && ms[i].conversationId !in ids ==> ms[i] in r
  {
    Filter(ms, (m: Message) => m.conversationId !in ids)
  }

  /** `UserService.delete_user(user_id)`: regular users only, with their conversations and those conversations' messages. */
  method DeleteUser(db: Db.Database, userId: nat) returns (deleted: bool)
    requires db.Valid()
    modifies db`users, db`conversations, db`messages
    ensures db.Valid()
    ensures var i := FindById(old(db.users), Usr.UserId, userId);
      deleted <==> i.Some? && !old(db.users)[i.value].isAdmin
    ensures !deleted ==> db.users == old(db.users) && db.conversations == old(db.conversations) && db.messages == old(db.messages)
    ensures deleted ==> var i := FindById(old(db.users), Usr.UserId, userId).value;
      && db.users == old(db.users)[..i] + old(db.users)[i + 1..]
      && db.conversations == ConversationsOfOthers(old(db.conversations), userId)
      && db.messages == MessagesOutside(old(db.messages), OwnedConversationIds(old(db.conversations), userId))
  {
    var found := FindById(db.users, Usr.UserId, userId);
    if found.None? {
      return false;
    }
    var i := found.value;
    if db.users[i].isAdmin {
      return false;
    }
    var ids := OwnedConversationIds(db.conversations, userId);
    RemoveUserWellFormed(db.users, i);
    FilterPreservesUnique(db.conversations, (c: Conv.Conversation) => c.userId != userId, Conv.ConversationId);
    FilterPreservesUnique(db.messages, (m: Message) => m.conversationId !in ids, MessageId);
    db.messages := MessagesOutside(db.messages, ids);
    db.conversations := ConversationsOfOthers(db.conversations, userId);
    db.users := db.users[..i] + db.users[i + 1..];
    return true;
  }

  lemma RemoveUserWellFormed(users: seq<Usr.User>, i: nat)
    requires Usr.WellFormed(users) && i < |users|
    ensures Usr.WellFormed(users[..i] + users[i + 1..])
  {
    RemoveAtUnique(users, i, Usr.UserId);
    var r := users[..i] + users[i + 1..];
    forall a, b | 0 <= a < b < |r| && r[a].sessionId.Some? ensures r[a].sessionId != r[b].sessionId {
      var a' := if a < i then a else a + 1;
      var b' := if b < i then b else b + 1;
      assert r[a] == users[a'] && r[b] == users[b'];
    }
  }

  /**
   * After the cascade nothing refers to the deleted user: none of the
   * remaining conversations is theirs and no remaining message belongs to one
   * of their conversations, while the conversations of others keep all their
   * messages.
   */
  lemma DeleteUserCascade(convs: seq<Conv.Conversation>, ms: seq<Message>, userId: nat, other: nat)
    requires Seqs.UniqueBy(convs, Conv.ConversationId)
    requires exists j :: 0 <= j < |convs| && convs[j].id == other && convs[j].userId != userId
    ensures forall i :: 0 <= i < |ConversationsOfOthers(convs, userId)| ==> ConversationsOfOthers(convs, userId)[i].userId != userId
    ensures var ids := OwnedConversationIds(convs, userId);
      forall i :: 0 <= i < |MessagesOutside(ms, ids)| ==> MessagesOutside(ms, ids)[i].conversationId !in ids
    ensures OfConversation(MessagesOutside(ms, OwnedConversationIds(convs, userId)), other) == OfConversation(ms, other)
  {
    var ids := OwnedConversationIds(convs, userId);
    var j :| 0 <= j < |convs| && convs[j].id == other && convs[j].userId != userId;
    forall k | 0 <= k < |convs| && convs[k].userId == userId ensures convs[k].id != other {
      assert k != j;
    }
    assert other !in ids;
    KeptConversationKeepsMessages(ms, ids, other);
  }

  lemma {:induction false} KeptConversationKeepsMessages(ms: seq<Message>, ids: set<nat>, other: nat)
    requires other !in ids
    ensures OfConversation(MessagesOutside(ms, ids), other) == OfConversation(ms, other)
  {
    if ms != [] {
      KeptConversationKeepsMessages(ms[1..], ids, other);
      var w := MessagesOutside(ms, ids);
      var rest := MessagesOutside(ms[1..], ids);
      if ms[0].conversationId !in ids {
        assert w == [ms[0]] + rest;
        assert w[0] == ms[0] && w[1..] == rest;
      } else {
        assert w == rest;
      }
    }
  }

  // ---------------------------------------------------------------------
  // Recent activity
  // ---------------------------------------------------------------------

  /** One entry of the activity feed (`'type'` is always `'conversation'`). */
  datatype Activity = Activity(user: string, title: string, time: int, conversationId: nat)

  const AnonymousPrefix := "用户_"
  /** `str(TypeError)` for `None[:8]`. */
  const NoneSliceError := "'NoneType' object is not subscriptable"

  /** `user.username or f'用户_{user.session_id[:8]}'`; a user with neither fails. */
  function UserLabel(u: Usr.User): (r: Result<string>)
    ensures u.username.Some? && u.username.value != "" ==> r == Success(u.username.value)
    ensures (u.username.None? || u.username.value == "") && u.sessionId.None? ==> r == Failure(NoneSliceError)
    ensures r.Success? && (u.username.None? || u.username.value == "") ==>
              StartsWith(r.value, AnonymousPrefix) && |r.value| <= |AnonymousPrefix| + 8
  {
    if u.username.Some? && u.username.value != "" then Success(u.username.value)
    else if u.sessionId.None? then Failure(NoneSliceError)
    else
      var shown := AnonymousPrefix + Prefix(u.sessionId.value, 8);
      assert shown[..|AnonymousPrefix|] == AnonymousPrefix;
      Success(shown)
  }

  /** A visitor created from a session id is shown by the first eight characters of it. */
  lemma VisitorLabel(id: nat, sessionId: string, now: int)
    requires sessionId != ""
    ensures UserLabel(Usr.NewUser(id, sessionId, "", false, now)) == Success(AnonymousPrefix + Prefix(sessionId, 8))
  {
  }

  function UserIdOf(users: seq<Usr.User>): Conv.Conversation -> bool {
    (c: Conv.Conversation) => FindById(users, Usr.UserId, c.userId).Some?
  }

  function NegatedCreatedAt(c: Conv.Conversation): int { -c.createdAt }
  function NegatedTime(a: Activity): int { -a.time }

  /** The query: conversations joined with their user, newest first, at most `limit` (`.limit(limit)`). */
  function RecentConversations(users: seq<Usr.User>, convs: seq<Conv.Conversation>, limit: nat): (r: seq<Conv.Conversation>)
    ensures |r| <= limit
    ensures SortedBy(r, NegatedCreatedAt)
    ensures forall i :: 0 <= i < |r| ==> r[i] in convs && FindById(users, Usr.UserId, r[i].userId).Some?
  {
    var joined := Filter(convs, UserIdOf(users));
    var sorted := SortBy(joined, NegatedCreatedAt);
    forall i | 0 <= i < |sorted| ensures sorted[i] in convs && FindById(users, Usr.UserId, sorted[i].userId).Some? {
      SortByMembers(joined, NegatedCreatedAt, sorted[i]);
      var j :| 0 <= j < |joined| && joined[j] == sorted[i];
    }
    var n := if |sorted| < limit then |sorted| else limit;
    SortedPrefix(sorted, NegatedCreatedAt, n);
    sorted[..n]
  }

  /** The activity of a conversation whose user exists. */
  function ActivityOf(users: seq<Usr.User>, c: Conv.Conversation): (r: Result<Activity>)
    requires FindById(users, Usr.UserId, c.userId).Some?
    ensures r.Success? ==> r.value.title == c.title && r.value.time == c.createdAt && r.value.conversationId == c.id
    ensures r.Failure? <==> UserLabel(users[FindById(users, Usr.UserId, c.userId).value]).Failure?
  {
    match UserLabel(users[FindById(users, Usr.UserId, c.userId).value])
    case Success(name) => Success(Activity(name, c.title, c.createdAt, c.id))
    case Failure(err) => Failure(err)
  }

  /** The activities of `recent` in order, or the first failure. */
  function Activities(users: seq<Usr.User>, recent: seq<Conv.Conversation>): (r: Result<seq<Activity>>)
    requires forall i :: 0 <= i < |recent| ==> FindById(users, Usr.UserId, recent[i].userId).Some?
    ensures r.Success? ==> |r.value| == |recent|
  {
    if recent == [] then Success([])
    else
      match ActivityOf(users, recent[0])
      case Failure(err) => Failure(err)
      case Success(a) =>
        match Activities(users, recent[1..])
        case Failure(err) => Failure(err)
        case Success(tail) => Success([a] + tail)
  }

  /** A successful feed holds, in order, the activity of each conversation. */
  lemma {:induction false} ActivitiesElements(users: seq<Usr.User>, recent: seq<Conv.Conversation>)
    requires forall i :: 0 <= i < |recent| ==> FindById(users, Usr.UserId, recent[i].userId).Some?
    ensures Activities(users, recent).Success? ==>
              forall i :: 0 <= i < |recent| ==> Success(Activities(users, recent).value[i]) == ActivityOf(users, recent[i])
  {
    if recent != [] && Activities(users, recent).Success? {
      ActivitiesElements(users, recent[1..]);
      var acts := Activities(users, recent).value;
      var tail := Activities(users, recent[1..]).value;
      assert acts == [acts[0]] + tail;
      forall i | 1 <= i < |recent| ensures Success(acts[i]) == ActivityOf(users, recent[i]) {
        assert recent[1..][i - 1] == recent[i] && tail[i - 1] == acts[i];
      }
    }
  }

  /** The feed fails exactly when some conversation's user has no label. */
  lemma {:induction false} ActivitiesFailure(users: seq<Usr.User>, recent: seq<Conv.Conversation>)
    requires forall i :: 0 <= i < |recent| ==> FindById(users, Usr.UserId, recent[i].userId).Some?
    ensures Activities(users, recent).Failure? <==> exists i :: 0 <= i < |recent| && ActivityOf(users, recent[i]).Failure?
  {
    if recent != [] {
      ActivitiesFailure(users, recent[1..]);
      if exists i :: 0 <= i < |recent[1..]| && ActivityOf(users, recent[1..][i]).Failure? {
        var k :| 0 <= k < |recent[1..]| && ActivityOf(users, recent[1..][k]).Failure?;
        assert recent[k + 1] == recent[1..][k];
      }
      if exists i :: 0 <= i < |recent| && ActivityOf(users, recent[i]).Failure? {
        var k :| 0 <= k < |recent| && ActivityOf(users, recent[k]).Failure?;
        if k > 0 {
          assert recent[1..][k - 1] == recent[k];
        }
      }
    }
  }

  /** When every conversation yields its activity, `Activities` is the sequence of them. */
  lemma {:induction false} AllActivities(users: seq<Usr.User>, recent: seq<Conv.Conversation>, acts: seq<Activity>)
    requires forall i :: 0 <= i < |recent| ==> FindById(users, Usr.UserId, recent[i].userId).Some?
    requires |acts| == |recent|
    requires forall i :: 0 <= i < |recent| ==> ActivityOf(users, recent[i]) == Success(acts[i])
    ensures Activities(users, recent) == Success(acts)
  {
    if recent != [] {
      assert forall i :: 1 <= i < |recent| ==> recent[1..][i - 1] == recent[i] && acts[1..][i - 1] == acts[i];
      AllActivities(users, recent[1..], acts[1..]);
      assert acts == [acts[0]] + acts[1..];
    }
  }

  /** The feed fails with the error of the first conversation whose user has no label. */
  lemma {:induction false} FirstFailedActivity(users: seq<Usr.User>, recent: seq<Conv.Conversation>, k: nat)
    requires forall i :: 0 <= i < |recent| ==> FindById(users, Usr.UserId, recent[i].userId).Some?
    requires k < |recent|
    requires forall i :: 0 <= i < k ==> ActivityOf(users, recent[i]).Success?
    requires ActivityOf(users, recent[k]).Failure?
    ensures Activities(users, recent) == Failure(ActivityOf(users, recent[k]).error)
  {
    if k > 0 {
      var tail := recent[1..];
      forall i | 0 <= i < |tail| ensures FindById(users, Usr.UserId, tail[i].userId).Some? {
        assert tail[i] == recent[i + 1];
      }
      forall i | 0 <= i < k - 1 ensures ActivityOf(users, tail[i]).Success? {
        assert tail[i] == recent[i + 1];
      }
      assert tail[k - 1] == recent[k];
      FirstFailedActivity(users, tail, k - 1);
      assert ActivityOf(users, recent[0]).Success?;
    }
  }

  /** The feed mirrors the query, so it is newest first as well. */
  lemma ActivitiesNewestFirst(users: seq<Usr.User>, recent: seq<Conv.Conversation>)
    requires forall i :: 0 <= i < |recent| ==> FindById(users, Usr.UserId, recent[i].userId).Some?
    requires SortedBy(recent, NegatedCreatedAt)
    requires Activities(users, recent).Success?
    ensures SortedBy(Activities(users, recent).value, NegatedTime)
  {
    var acts := Activities(users, recent).value;
    ActivitiesElements(users, recent);
    forall i, j | 0 <= i < j < |acts| ensures NegatedTime(acts[i]) <= NegatedTime(acts[j]) {
      assert NegatedCreatedAt(recent[i]) <= NegatedCreatedAt(recent[j]);
    }
  }

  /**
   * `UserService.get_recent_activities(limit)`: the append loop over the
   * query's rows, then `sorted(..., reverse=True)[:limit]`, which changes
   * nothing because the rows already come newest first.
   */
  method GetRecentActivities(users: seq<Usr.User>, convs: seq<Conv.Conversation>, limit: nat) returns (r: Result<seq<Activity>>)
    ensures r == Activities(users, RecentConversations(users, convs, limit))
    ensures r.Success? ==> |r.value| <= limit && SortedBy(r.value, NegatedTime)
  {
    var recent := RecentConversations(users, convs, limit);
    var collected := CollectActivities(users, recent);
    if collected.Failure? {
      return collected;
    }
    var activities := collected.value;
    ActivitiesNewestFirst(users, recent);
    SortSortedIdentity(activities, NegatedTime);
    var sorted := SortBy(activities, NegatedTime);
    r := Success(Prefix(sorted, limit));
  }

  /** The append loop of `get_recent_activities` over the rows of the query. */
  method CollectActivities(users: seq<Usr.User>, recent: seq<Conv.Conversation>) returns (r: Result<seq<Activity>>)
    requires forall i :: 0 <= i < |recent| ==> FindById(users, Usr.UserId, recent[i].userId).Some?
    ensures r == Activities(users, recent)
  {
    var activities: seq<Activity> := [];
    for k := 0 to |recent|
      invariant |activities| == k
      invariant forall i :: 0 <= i < k ==> ActivityOf(users, recent[i]) == Success(activities[i])
    {
      var conv := recent[k];
      var shown := UserLabel(users[FindById(users, Usr.UserId, conv.userId).value]);
      if shown.Failure? {
        FirstFailedActivity(users, recent, k);
        return Failure(shown.error);
      }
      activities := activities + [Activity(shown.value, conv.title, conv.createdAt, conv.id)];
    }
    AllActivities(users, recent, activities);
    r := Success(activities);
  }
}
