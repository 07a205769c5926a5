/**
 * Accounts: login's credential and status checks, registration under a
 * unique username, profile and status updates, password reset and the
 * guarded deletion of users.
 *
 * The password hash is an opaque credential: registering stores it and
 * login compares against it.
 */
module Auth {
  import opened Tables
  import opened Models
  import opened Store

  const UserInactive := "inactive"
  const UserDisabled := "disabled"
  /** The account name that can never be deleted. */
  const ProtectedUsername := "admin"

  predicate ValidUserStatus(s: string) { s == UserActive || s == UserInactive || s == UserDisabled }

  function UserByUsername(users: seq<User>, username: string): Option<nat>
  {
    FindFirst(users, (u: User) => u.username == username)
  }

  datatype LoginResult = LoginResult(outcome: Outcome, userId: Option<int>)

  /**
   * POST /api/auth/login: both fields are required; an unknown username and
   * a wrong password are answered alike; a known user whose status is not
   * active is refused.
   */
  function Login(users: seq<User>, username: Option<string>, password: Option<string>): (r: LoginResult)
    ensures r.outcome in {Ok, Invalid, Unauthorized, Forbidden}
    ensures r.userId.Some? <==> r.outcome == Ok
    ensures r.outcome == Invalid <==> !Truthy(username) || !Truthy(password)
    ensures r.outcome == Ok ==>
      exists k :: 0 <= k < |users| && users[k].id == r.userId.value && users[k].username == username.value
                                    && users[k].credential == password.value && users[k].status == UserActive
  {
    if !Truthy(username) || !Truthy(password) then LoginResult(Invalid, None)
    else match UserByUsername(users, username.value)
      case None => LoginResult(Unauthorized, None)
      case Some(i) =>
        if users[i].credential != password.value then LoginResult(Unauthorized, None)
        else if users[i].status != UserActive then LoginResult(Forbidden, None)
        else LoginResult(Ok, Some(users[i].id))
  }

  /**
   * With unique usernames, login succeeds exactly for an active user whose
   * username and credential match, and then names that user.
   */
  lemma LoginSucceedsExactlyForActiveMatch(users: seq<User>, username: string, password: string)
    requires UniqueUsernames(users)
    requires username != "" && password != ""
    ensures Login(users, Some(username), Some(password)).outcome == Ok <==>
      exists k :: 0 <= k < |users| && users[k].username == username && users[k].credential == password
                                    && users[k].status == UserActive
    ensures forall k :: 0 <= k < |users| && users[k].username == username ==>
      (Login(users, Some(username), Some(password)).outcome == Ok <==>
         users[k].credential == password && users[k].status == UserActive)
  {
    forall k | 0 <= k < |users| && users[k].username == username
      ensures UserByUsername(users, username) == Some(k)
    {
      var f := UserByUsername(users, username);
      assert f.Some? && users[f.value].username == username;
    }
  }

  /**
   * The refusals of a login with both fields given, under unique
   * usernames: an unknown username and a wrong password are answered alike
   * (Unauthorized), and only a user whose credential matches but who is
   * not active learns that the account is refused (Forbidden).
   */
  lemma LoginRefusals(users: seq<User>, username: string, password: string)
    requires UniqueUsernames(users)
    requires username != "" && password != ""
    ensures Login(users, Some(username), Some(password)).outcome == Unauthorized <==>
      forall k :: 0 <= k < |users| && users[k].username == username ==> users[k].credential != password
    ensures Login(users, Some(username), Some(password)).outcome == Forbidden <==>
      exists k :: 0 <= k < |users| && users[k].username == username && users[k].credential == password
                                    && users[k].status != UserActive
  {
    var f := UserByUsername(users, username);
    if f.Some? {
      forall k | 0 <= k < |users| && users[k].username == username
        ensures k == f.value
      {
        assert users[f.value].username == username;
      }
    }
  }

  /** A login refused for an inactive or disabled account is Forbidden, never a success. */
  lemma InactiveUserCannotLogin(users: seq<User>, username: string, password: string)
    requires UniqueUsernames(users)
    requires exists k :: 0 <= k < |users| && users[k].username == username && users[k].status != UserActive
    ensures Login(users, Some(username), Some(password)).outcome != Ok
  {
    if username != "" && password != "" {
      LoginSucceedsExactlyForActiveMatch(users, username, password);
    }
  }

  /** A registration request; role and status are None when absent. */
  datatype Registration = Registration(
    username: Option<string>,
    password: Option<string>,
    realName: Option<string>,
    role: Option<string>,
    status: Option<string>)

  /** The registered user: role and status default to warehouse and active, and are not validated. */
  function Registered(users: seq<User>, reg: Registration, now: int): User
    requires StrictlyIncreasing(users, UserKey) && reg.username.Some? && reg.password.Some? && reg.realName.Some?
  {
    User(NextKey(users, UserKey), reg.username.value, reg.password.value, reg.realName.value,
         if reg.role.Some? then reg.role.value else DefaultRole,
         if reg.status.Some? then reg.status.value else UserActive, now)
  }

  /**
   * POST /api/auth/register: username, password and real name are required
   * and the username must be free; then exactly one user is appended, who
   * can log in with that password unless registered with another status.
   */
  method Register(w: Warehouse, reg: Registration, now: int) returns (o: Outcome)
    requires w.Valid()
    modifies w
    ensures w.Valid()
    ensures o in {Ok, Invalid, Conflict}
    ensures o == Invalid <==> !Truthy(reg.username) || !Truthy(reg.password) || !Truthy(reg.realName)
    ensures o == Conflict <==>
      Truthy(reg.username) && Truthy(reg.password) && Truthy(reg.realName)
      && UserByUsername(old(w.users), reg.username.value).Some?
    ensures o != Ok ==> w.State() == old(w.State())
    ensures o == Ok ==>
      && w.State() == old(w.State()).(users := old(w.users) + [Registered(old(w.users), reg, now)])
      && (reg.status.None? ==> Login(w.users, reg.username, reg.password).outcome == Ok)
  {
    if !Truthy(reg.username) || !Truthy(reg.password) || !Truthy(reg.realName) {
      return Invalid;
    }
    if UserByUsername(w.users, reg.username.value).Some? {
      return Conflict;
    }
    var user := Registered(w.users, reg, now);
    ValidAfterUserAppend(w.State(), user);
    w.users := w.users + [user];
    LoginSucceedsExactlyForActiveMatch(w.users, reg.username.value, reg.password.value);
    assert w.users[|w.users| - 1] == user;
    return Ok;
  }

  /** Profile fields of an update; each is applied only when non-empty. */
  datatype UserPatch = UserPatch(
    realName: Option<string>,
    role: Option<string>,
    status: Option<string>,
    password: Option<string>)

  function PatchedUser(u: User, patch: UserPatch): User
  {
    u.(realName := if Truthy(patch.realName) then patch.realName.value else u.realName,
       role := if Truthy(patch.role) then patch.role.value else u.role,
       status := if Truthy(patch.status) then patch.status.value else u.status,
       credential := if Truthy(patch.password) then patch.password.value else u.credential)
  }

  /**
   * PUT /api/auth/users/<id>: overwrites only the fields sent non-empty;
   * the username and id never change; an unknown id changes nothing.
   */
  method UpdateUser(w: Warehouse, userId: int, patch: UserPatch) returns (o: Outcome)
    requires w.Valid()
    modifies w
    ensures w.Valid()
    ensures o in {Ok, NotFound}
    ensures o == NotFound <==> UserIndex(old(w.users), userId).None?
    ensures o != Ok ==> w.State() == old(w.State())
    ensures o == Ok ==>
      var k := UserIndex(old(w.users), userId).value;
      && w.State() == old(w.State()).(users := old(w.users)[k := PatchedUser(old(w.users)[k], patch)])
      && w.users[k].username == old(w.users)[k].username
      && (!Truthy(patch.realName) ==> w.users[k].realName == old(w.users)[k].realName)
      && (!Truthy(patch.role) ==> w.users[k].role == old(w.users)[k].role)
      && (!Truthy(patch.status) ==> w.users[k].status == old(w.users)[k].status)
      && (!Truthy(patch.password) ==> w.users[k].credential == old(w.users)[k].credential)
  {
    var found := UserIndex(w.users, userId);
    if found.None? {
      return NotFound;
    }
    var k := found.value;
    var user := PatchedUser(w.users[k], patch);
    ValidAfterUserUpdate(w.State(), k, user);
    w.users := w.users[k := user];
    return Ok;
  }

  /**
   * POST /api/auth/users/<id>/reset-password: the user's credential becomes
   * the freshly generated one (generation itself is outside the model).
   */
  method ResetPassword(w: Warehouse, userId: int, generated: string) returns (o: Outcome)
    requires w.Valid()
    modifies w
    ensures w.Valid()
    ensures o in {Ok, NotFound}
    ensures o == NotFound <==> UserIndex(old(w.users), userId).None?
    ensures o != Ok ==> w.State() == old(w.State())
    ensures o == Ok ==>
      var k := UserIndex(old(w.users), userId).value;
      w.State() == old(w.State()).(users := old(w.users)[k := old(w.users)[k].(credential := generated)])
  {
    var found := UserIndex(w.users, userId);
    if found.None? {
      return NotFound;
    }
    var k := found.value;
    var user := w.users[k].(credential := generated);
    ValidAfterUserUpdate(w.State(), k, user);
    w.users := w.users[k := user];
    return Ok;
  }

  /**
   * PUT /api/auth/users/<id>/status: only active, inactive and disabled are
   * accepted; only the status changes.
   */
  method UpdateUserStatus(w: Warehouse, userId: int, status: Option<string>) returns (o: Outcome)
    requires w.Valid()
    modifies w
    ensures w.Valid()
    ensures o in {Ok, NotFound, Invalid}
    ensures o == NotFound <==> UserIndex(old(w.users), userId).None?
    ensures o == Invalid <==> UserIndex(old(w.users), userId).Some? && !(status.Some? && ValidUserStatus(status.value))
    ensures o != Ok ==> w.State() == old(w.State())
    ensures o == Ok ==>
      var k := UserIndex(old(w.users), userId).value;
      && w.State() == old(w.State()).(users := old(w.users)[k := old(w.users)[k].(status := status.value)])
      && ValidUserStatus(w.users[k].status)
  {
    var found := UserIndex(w.users, userId);
    if found.None? {
      return NotFound;
    }
    if !(status.Some? && (status.value == UserActive || status.value == UserInactive || status.value == UserDisabled)) {
      return Invalid;
    }
    var k := found.value;
    var user := w.users[k].(status := status.value);
    ValidAfterUserUpdate(w.State(), k, user);
    w.users := w.users[k := user];
    return Ok;
  }

  /** The user is the operator of an inbound record, the applicant of an outbound one, or on a task. */
  predicate HasActivity(s: Snapshot, userId: int)
  {
    || (exists i :: 0 <= i < |s.inbounds| && s.inbounds[i].operatorId == userId)
    || (exists i :: 0 <= i < |s.outbounds| && s.outbounds[i].applicantId == userId)
    || (exists i :: 0 <= i < |s.tasks| && (s.tasks[i].assigneeId == userId || s.tasks[i].creatorId == userId))
  }

  /** Why a deletion is refused, in the order the handler tests, or Ok. */
  function DeleteUserGuard(s: Snapshot, callerId: int, userId: int): Outcome
  {
    if callerId == userId then Conflict
    else match UserIndex(s.users, userId)
      case None => NotFound
      case Some(k) =>
        if s.users[k].username == ProtectedUsername then Conflict
        else if HasActivity(s, userId) then Conflict
        else Ok
  }

  /**
   * DELETE /api/auth/users/<id>: removes exactly that user unless it is the
   * caller, unknown, the protected admin account or still has activity.
   */
  method DeleteUser(w: Warehouse, callerId: int, userId: int) returns (o: Outcome)
    requires w.Valid()
    modifies w
    ensures w.Valid()
    ensures o == DeleteUserGuard(old(w.State()), callerId, userId)
    ensures o != Ok ==> w.State() == old(w.State())
    ensures o == Ok ==>
      w.State() == old(w.State()).(users := RemoveAt(old(w.users), UserIndex(old(w.users), userId).value))
  {
    if callerId == userId {
      return Conflict;
    }
    var found := UserIndex(w.users, userId);
    if found.None? {
      return NotFound;
    }
    var k := found.value;
    if w.users[k].username == ProtectedUsername {
      return Conflict;
    }
    var inbound := FindFirst(w.inbounds, (r: InboundRecord) => r.operatorId == userId);
    var outbound := FindFirst(w.outbounds, (r: OutboundRecord) => r.applicantId == userId);
    var task := FindFirst(w.tasks, (t: DispatchTask) => t.assigneeId == userId || t.creatorId == userId);
    if inbound.Some? || outbound.Some? || task.Some? {
      assert HasActivity(w.State(), userId) by {
        if inbound.Some? {
          assert w.inbounds[inbound.value].operatorId == userId;
        } else if outbound.Some? {
          assert w.outbounds[outbound.value].applicantId == userId;
        } else {
          assert w.tasks[task.value].assigneeId == userId || w.tasks[task.value].creatorId == userId;
        }
      }
      return Conflict;
    }
    ValidAfterUserRemove(w.State(), k);
    w.users := RemoveAt(w.users, k);
    return Ok;
  }

  /** After removing row k, an id still names a user exactly when it did before and was not row k's. */
  lemma RemovedUserIsGone(users: seq<User>, k: nat, id: int)
    requires StrictlyIncreasing(users, UserKey) && k < |users|
    ensures (exists j :: 0 <= j < |users| - 1 && RemoveAt(users, k)[j].id == id) <==>
            (exists j :: 0 <= j < |users| && users[j].id == id) && id != users[k].id
  {
    var r := RemoveAt(users, k);
    if exists j :: 0 <= j < |users| && users[j].id == id && j != k {
      var j :| 0 <= j < |users| && users[j].id == id && j != k;
      if j < k { assert r[j].id == id; } else { assert r[j - 1].id == id; }
    }
    forall j | 0 <= j < |r| ensures r[j].id != users[k].id {
      if j < k { assert r[j] == users[j]; } else { assert r[j] == users[j + 1]; }
    }
  }

  /**
   * The deletion guard keeps every operator, applicant, assignee and
   * creator reference that resolved before the deletion resolving after
   * it.
   */
  lemma DeleteKeepsActivityReferences(s: Snapshot, callerId: int, userId: int, ref: int)
    requires ValidState(s) && DeleteUserGuard(s, callerId, userId) == Ok
    requires || (exists i :: 0 <= i < |s.inbounds| && s.inbounds[i].operatorId == ref)
             || (exists i :: 0 <= i < |s.outbounds| && s.outbounds[i].applicantId == ref)
             || (exists i :: 0 <= i < |s.tasks| && (s.tasks[i].assigneeId == ref || s.tasks[i].creatorId == ref))
    requires exists j :: 0 <= j < |s.users| && s.users[j].id == ref
    ensures var users' := RemoveAt(s.users, UserIndex(s.users, userId).value);
      exists j :: 0 <= j < |users'| && users'[j].id == ref
  {
    var k := UserIndex(s.users, userId).value;
    RemovedUserIsGone(s.users, k, ref);
  }
}
