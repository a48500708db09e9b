/**
 * The `users` table (app/models/user.py): anonymous users keyed by their
 * browser session id, plus administrators with a user name.
 */
module UserModel {
  import opened Wrappers
  import opened Seqs

  /** A row of `users`; `session_id` and `username` are nullable columns. The password hash is not modelled. */
  datatype User = User(id: nat, sessionId: Option<string>, username: Option<string>, isAdmin: bool, createdAt: int, lastActive: int)

  function UserId(u: User): nat { u.id }

  /** Python truthiness of a string argument whose absence is `None` or `''`. */
  function Nonempty(s: string): (o: Option<string>)
    ensures o.Some? <==> s != ""
    ensures o.Some? ==> o.value == s
  {
    if s != "" then Some(s) else None
  }

  /**
   * The table invariant: ids are unique, and so is every session id that is
   * set (`unique=True` on a nullable column allows any number of NULLs).
   */
  ghost predicate WellFormed(users: seq<User>) {
    && UniqueBy(users, UserId)
    && forall i, j :: 0 <= i < j < |users| && users[i].sessionId.Some? ==> users[i].sessionId != users[j].sessionId
  }

  /**
   * `User(session_id, username, is_admin)` created at `now`: the session id and
   * user name are stored only when truthy, and the user is active as of `now`.
   */
  function NewUser(id: nat, sessionId: string, username: string, isAdmin: bool, now: int): (u: User)
    ensures u.id == id && u.isAdmin == isAdmin && u.lastActive == now && u.createdAt == now
    ensures u.sessionId.Some? <==> sessionId != ""
    ensures u.username.Some? <==> username != ""
    ensures u.sessionId.Some? ==> u.sessionId.value == sessionId
    ensures u.username.Some? ==> u.username.value == username
  {
    User(id, Nonempty(sessionId), Nonempty(username), isAdmin, now, now)
  }

  /** Position of the first user whose session id is `sid` (`filter_by(session_id=sid).first()`). */
  function FindBySession(users: seq<User>, sid: string): (i: Option<nat>)
    ensures i.None? <==> forall j :: 0 <= j < |users| ==> users[j].sessionId != Some(sid)
    ensures i.Some? ==> i.value < |users| && users[i.value].sessionId == Some(sid)
  {
    if users == [] then None
    else if users[0].sessionId == Some(sid) then Some(0)
    else match FindBySession(users[1..], sid)
      case None => None
      case Some(j) => Some(j + 1)
  }

  /** The table after `users[i].update_last_active()` at time `now`: only that user's `last_active` changes. */
  function Touch(users: seq<User>, i: nat, now: int): (r: seq<User>)
    requires i < |users|
    ensures |r| == |users|
    ensures r[i].lastActive == now
    ensures r[i] == users[i].(lastActive := now) && forall j :: 0 <= j < |users| && j != i ==> r[j] == users[j]
  {
    users[i := users[i].(lastActive := now)]
  }

  /** The table after `User.get_or_create_by_session(sid)` at time `now`, and the user it returns. */
  datatype Lookup = Lookup(users: seq<User>, user: User)

  function GetOrCreateBySession(users: seq<User>, sid: string, now: int): Lookup
  {
    match FindBySession(users, sid)
    case Some(i) => Lookup(Touch(users, i, now), users[i].(lastActive := now))
    case None =>
      var u := NewUser(NextId(users, UserId), sid, "", false, now);
      Lookup(users + [u], u)
  }

  /** An existing user with that session id is returned (freshly touched) and no row is created. */
  lemma GetOrCreateExisting(users: seq<User>, sid: string, now: int)
    requires FindBySession(users, sid).Some?
    ensures var r := GetOrCreateBySession(users, sid, now);
      && |r.users| == |users|
      && r.user.sessionId == Some(sid)
      && r.user in r.users
      && exists i :: 0 <= i < |users| && users[i].id == r.user.id && users[i].sessionId == Some(sid)
  {
    var i := FindBySession(users, sid).value;
    assert GetOrCreateBySession(users, sid, now).users[i] == GetOrCreateBySession(users, sid, now).user;
  }

  /** With no user for that session id, exactly one new non-admin user is appended, and it is returned. */
  lemma GetOrCreateNew(users: seq<User>, sid: string, now: int)
    requires FindBySession(users, sid).None?
    ensures var r := GetOrCreateBySession(users, sid, now);
      && r.users == users + [r.user]
      && !r.user.isAdmin && r.user.username.None?
      && r.user.sessionId == Nonempty(sid)
      && forall j :: 0 <= j < |users| ==> users[j].id != r.user.id
  {
  }

  /** The session id stays unique: the table invariant survives `get_or_create_by_session`. */
  lemma GetOrCreateWellFormed(users: seq<User>, sid: string, now: int)
    requires WellFormed(users)
    ensures WellFormed(GetOrCreateBySession(users, sid, now).users)
  {
    var r := GetOrCreateBySession(users, sid, now);
    match FindBySession(users, sid)
    case Some(i) =>
      ReplaceSameKeyUnique(users, i, r.users[i], UserId);
      assert forall j :: 0 <= j < |users| ==> r.users[j].sessionId == users[j].sessionId;
    case None =>
      AppendFreshUnique(users, r.user, UserId);
      forall i, j | 0 <= i < j < |r.users| && r.users[i].sessionId.Some?
        ensures r.users[i].sessionId != r.users[j].sessionId
      {
        if j == |users| {
          assert r.users[i] == users[i];
        }
      }
  }

  /**
   * Calling `get_or_create_by_session` twice with the same non-empty session id
   * returns the same user the second time, and the table grows by at most one row.
   */
  lemma {:induction false} GetOrCreateIdempotent(users: seq<User>, sid: string, t1: int, t2: int)
    requires sid != ""
    ensures var first := GetOrCreateBySession(users, sid, t1);
      var second := GetOrCreateBySession(first.users, sid, t2);
      && second.user.id == first.user.id
      && |second.users| == |first.users| <= |users| + 1
  {
    var first := GetOrCreateBySession(users, sid, t1);
    match FindBySession(users, sid)
    case Some(i) =>
      assert forall j :: 0 <= j < |users| ==> first.users[j].sessionId == users[j].sessionId;
      assert first.users[i].sessionId == Some(sid);
      var k := FindBySession(first.users, sid).value;
      // The same position is found again, since touching changes no session id.
      if k < i {
        assert first.users[k].sessionId == users[k].sessionId;
      } else if k > i {
        assert first.users[i].sessionId == Some(sid);
      }
      assert k == i || users[k].sessionId == Some(sid);
      FirstSessionMatch(users, sid, i, k);
      FirstSessionMatch(first.users, sid, k, i);
    case None =>
      assert first.users[|users|] == first.user && first.user.sessionId == Some(sid);
  }

  /** `FindBySession` returns the first match: no earlier position holds the session id. */
  lemma {:induction false} FirstSessionMatch(users: seq<User>, sid: string, i: nat, k: nat)
    requires FindBySession(users, sid) == Some(i)
    requires k < |users| && users[k].sessionId == Some(sid)
    ensures i <= k
  {
    if users != [] && users[0].sessionId != Some(sid) {
      assert users[1..][k - 1] == users[k];
      FirstSessionMatch(users[1..], sid, i - 1, k - 1);
    }
  }
}
