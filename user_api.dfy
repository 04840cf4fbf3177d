/** The mock user table `MOCK_USERS`, its two list queries and user creation. */
module UserApi {
  import opened Wrappers
  import opened Strings
  import opened Seqs
  import opened Mock
  import opened Http

  const SUPER_ADMIN: string := "super_admin"
  const FARM_ADMIN: string := "farm_admin"
  const TECHNICIAN: string := "technician"

  /** The `UserInfo` interface. */
  datatype User = User(
    id: string, password: string, realName: string, roles: seq<string>, status: int,
    username: string, homePath: Option<string>, department: Option<string>,
    phone: Option<string>, createTime: Option<Time>)

  /** The four seeded users. */
  const MockUsers: seq<User> := [
    User("1", "123456", "系统管理员", [SUPER_ADMIN], 1, "admin", None, Some("信息技术部"), Some("13800138000"), None),
    User("2", "123456", "张大田", [FARM_ADMIN], 1, "farm_admin", None, None, Some("13800138001"), None),
    User("3", "123456", "李工", [TECHNICIAN], 1, "tech", None, None, Some("13800138002"), None),
    User("4", "123456", "王工", [TECHNICIAN], 1, "tech2", None, None, Some("13800138003"), None)]

  /** No two users share a username. */
  predicate UniqueUsernames(users: seq<User>) {
    forall i, j :: 0 <= i < j < |users| ==> users[i].username != users[j].username
  }

  lemma MockUsersUnique()
    ensures UniqueUsernames(MockUsers)
  {
  }

  /** The query string of the two list handlers; a missing parameter is `None`. */
  datatype UserQuery = UserQuery(
    username: Option<string>, realName: Option<string>, department: Option<string>,
    role: Option<string>, status: Option<string>)

  predicate Given(p: Option<string>) {
    p.Some? && p.value != ""
  }

  /** `user.username.toLowerCase().includes(String(username).toLowerCase())`. */
  predicate UsernameHit(u: User, name: string) {
    Includes(ToLower(u.username), ToLower(name))
  }

  /** `Boolean(user.status) === (Number(status) === 1)`. */
  predicate StatusHit(u: User, status: string) {
    (u.status != 0) == (ParseDecimal(status) == Some(1))
  }

  /** The username, real-name and department tests, shared by both list handlers. */
  predicate MatchesCommon(q: UserQuery, u: User) {
    (Given(q.username) ==> UsernameHit(u, q.username.value))
    && (Given(q.realName) ==> Includes(u.realName, q.realName.value))
    && (Given(q.department) ==> u.department == q.department)
  }

  /** Whether a user passes every filter of `user/list` the query switches on. */
  predicate Matches(q: UserQuery, u: User) {
    MatchesCommon(q, u)
    && (Given(q.role) ==> q.role.value in u.roles)
    && (q.status.Some? ==> StatusHit(u, q.status.value))
  }

  /** The username, real-name and department filters, in the handlers' order. */
  function FilterCommon(users: seq<User>, q: UserQuery): seq<User> {
    var a := if Given(q.username) then Filter(users, (u: User) => UsernameHit(u, q.username.value)) else users;
    var b := if Given(q.realName) then Filter(a, (u: User) => Includes(u.realName, q.realName.value)) else a;
    if Given(q.department) then Filter(b, (u: User) => u.department == q.department) else b
  }

  /** `user/list`: the common filters, then role and status. */
  function ListUsers(users: seq<User>, q: UserQuery): seq<User> {
    var c := FilterCommon(users, q);
    var d := if Given(q.role) then Filter(c, (u: User) => q.role.value in u.roles) else c;
    if q.status.Some? then Filter(d, (u: User) => StatusHit(u, q.status.value)) else d
  }

  lemma FilterCommonMember(users: seq<User>, q: UserQuery, x: User)
    ensures x in FilterCommon(users, q) <==> x in users && MatchesCommon(q, x)
  {
    var a := if Given(q.username) then Filter(users, (u: User) => UsernameHit(u, q.username.value)) else users;
    var b := if Given(q.realName) then Filter(a, (u: User) => Includes(u.realName, q.realName.value)) else a;
    if Given(q.username) { FilterMember(users, (u: User) => UsernameHit(u, q.username.value), x); }
    if Given(q.realName) { FilterMember(a, (u: User) => Includes(u.realName, q.realName.value), x); }
    if Given(q.department) { FilterMember(b, (u: User) => u.department == q.department, x); }
  }

  /** A user is listed exactly when it is in the table and passes every active filter. */
  lemma ListUsersMember(users: seq<User>, q: UserQuery, x: User)
    ensures x in ListUsers(users, q) <==> x in users && Matches(q, x)
  {
    var c := FilterCommon(users, q);
    var d := if Given(q.role) then Filter(c, (u: User) => q.role.value in u.roles) else c;
    FilterCommonMember(users, q, x);
    if Given(q.role) { FilterMember(c, (u: User) => q.role.value in u.roles, x); }
    if q.status.Some? { FilterMember(d, (u: User) => StatusHit(u, q.status.value), x); }
  }

  lemma FilterCommonSubsequence(users: seq<User>, q: UserQuery)
    ensures IsSubsequence(FilterCommon(users, q), users)
  {
    var a := if Given(q.username) then Filter(users, (u: User) => UsernameHit(u, q.username.value)) else users;
    var b := if Given(q.realName) then Filter(a, (u: User) => Includes(u.realName, q.realName.value)) else a;
    SubsequenceRefl(users);
    SubsequenceRefl(a);
    SubsequenceRefl(b);
    if Given(q.username) { FilterIsSubsequence(users, (u: User) => UsernameHit(u, q.username.value)); }
    if Given(q.realName) { FilterIsSubsequence(a, (u: User) => Includes(u.realName, q.realName.value)); }
    if Given(q.department) { FilterIsSubsequence(b, (u: User) => u.department == q.department); }
    SubsequenceTrans(b, a, users);
    SubsequenceTrans(FilterCommon(users, q), b, users);
  }

  /** The listed users keep the table's order. */
  lemma ListUsersSubsequence(users: seq<User>, q: UserQuery)
    ensures IsSubsequence(ListUsers(users, q), users)
  {
    var c := FilterCommon(users, q);
    var d := if Given(q.role) then Filter(c, (u: User) => q.role.value in u.roles) else c;
    FilterCommonSubsequence(users, q);
    SubsequenceRefl(c);
    SubsequenceRefl(d);
    if Given(q.role) { FilterIsSubsequence(c, (u: User) => q.role.value in u.roles); }
    if q.status.Some? { FilterIsSubsequence(d, (u: User) => StatusHit(u, q.status.value)); }
    SubsequenceTrans(d, c, users);
    SubsequenceTrans(ListUsers(users, q), d, users);
  }

  /** Any status other than '1' selects the disabled users: '0', '2' and the empty string alike. */
  lemma StatusSelectsDisabled(u: User, status: string)
    requires status == "0" || status == "2" || status == ""
    ensures StatusHit(u, status) <==> u.status == 0
  {
    ParseNatToString(0);
    ParseNatToString(2);
  }

  /** `status = '1'` selects the users whose status is truthy. */
  lemma StatusOneSelectsEnabled(u: User)
    ensures StatusHit(u, "1") <==> u.status != 0
  {
    ParseNatToString(1);
  }

  /** `user/list/normal`: users without the super_admin role, then the common filters. */
  function ListNormalUsers(users: seq<User>, q: UserQuery): seq<User> {
    FilterCommon(Filter(users, (u: User) => SUPER_ADMIN !in u.roles), q)
  }

  lemma ListNormalUsersMember(users: seq<User>, q: UserQuery, x: User)
    ensures x in ListNormalUsers(users, q) <==> x in users && SUPER_ADMIN !in x.roles && MatchesCommon(q, x)
  {
    FilterMember(users, (u: User) => SUPER_ADMIN !in u.roles, x);
    FilterCommonMember(Filter(users, (u: User) => SUPER_ADMIN !in u.roles), q, x);
  }

  /** No listed user has the super_admin role. */
  lemma NormalUsersExcludeSuperAdmin(users: seq<User>, q: UserQuery)
    ensures forall i :: 0 <= i < |ListNormalUsers(users, q)| ==> SUPER_ADMIN !in ListNormalUsers(users, q)[i].roles
  {
    var r := ListNormalUsers(users, q);
    forall i | 0 <= i < |r|
      ensures SUPER_ADMIN !in r[i].roles
    {
      ListNormalUsersMember(users, q, r[i]);
    }
  }

  lemma ListNormalUsersSubsequence(users: seq<User>, q: UserQuery)
    ensures IsSubsequence(ListNormalUsers(users, q), users)
  {
    var base := Filter(users, (u: User) => SUPER_ADMIN !in u.roles);
    FilterIsSubsequence(users, (u: User) => SUPER_ADMIN !in u.roles);
    FilterCommonSubsequence(base, q);
    SubsequenceTrans(ListNormalUsers(users, q), base, users);
  }

  /** The normal list reads no role and no status parameter. */
  lemma NormalUsersIgnoreRoleAndStatus(users: seq<User>, q: UserQuery, role: Option<string>, status: Option<string>)
    ensures ListNormalUsers(users, q.(role := role, status := status)) == ListNormalUsers(users, q)
  {
  }

  /** The body of `user/create`; a missing property is `None`. */
  datatype UserBody = UserBody(
    username: Option<string>, realName: Option<string>, phone: Option<string>,
    roles: Option<seq<string>>, password: Option<string>)

  const IncompleteUserMessage: string := "请填写完整的用户信息"
  const DuplicateUserMessage: string := "用户名已存在"
  const CreatedUserMessage: string := "创建用户成功"

  /** `!username || !realName || !phone || !roles?.length || !password`. */
  predicate Incomplete(b: UserBody) {
    Falsy(b.username) || Falsy(b.realName) || Falsy(b.phone) || b.roles.None? || b.roles.value == []
    || Falsy(b.password)
  }

  predicate UsernameTaken(users: seq<User>, name: string) {
    AnyMatch(users, (u: User) => u.username == name)
  }

  /** The new user: the given properties, status 1, and a creation time. */
  function NewUser(b: UserBody, uuid: string, now: Time): (u: User)
    requires !Incomplete(b)
    ensures u.username == b.username.value && u.realName == b.realName.value
    ensures u.phone == b.phone && u.roles == b.roles.value && u.password == b.password.value
    ensures u.status == 1 && u.createTime == Some(now) && u.id == uuid
  {
    User(uuid, b.password.value, b.realName.value, b.roles.value, 1, b.username.value, None, None,
      b.phone, Some(now))
  }

  /** Appending a user whose name is not taken keeps the names distinct. */
  lemma AppendKeepsUnique(users: seq<User>, u: User)
    requires UniqueUsernames(users) && !UsernameTaken(users, u.username)
    ensures UniqueUsernames(users + [u])
  {
    var r := users + [u];
    forall i, j | 0 <= i < j < |r|
      ensures r[i].username != r[j].username
    {
      if j == |users| {
        assert r[i] == users[i];
        assert !((u: User) => u.username == r[j].username)(users[i]);
      }
    }
  }

  class UserStore {
    var users: seq<User>

    /** The store as the module loads: `MOCK_USERS`. */
    constructor ()
      ensures users == MockUsers
    {
      users := MockUsers;
    }

    /** `user/create`: the guards, then one `push`. */
    method CreateUser(body: UserBody, uuid: string, now: Time) returns (reply: Reply<string>)
      modifies this
      ensures Incomplete(body) ==> reply == Rejected(IncompleteUserMessage) && users == old(users)
      ensures !Incomplete(body) && UsernameTaken(old(users), body.username.value) ==>
        reply == Rejected(DuplicateUserMessage) && users == old(users)
      ensures !Incomplete(body) && !UsernameTaken(old(users), body.username.value) ==>
        reply == Ok(CreatedUserMessage) && users == old(users) + [NewUser(body, uuid, now)]
      ensures UniqueUsernames(old(users)) ==> UniqueUsernames(users)
    {
      if Incomplete(body) {
        return Rejected(IncompleteUserMessage);
      }
      if UsernameTaken(users, body.username.value) {
        return Rejected(DuplicateUserMessage);
      }
      var u := NewUser(body, uuid, now);
      if UniqueUsernames(users) {
        AppendKeepsUnique(users, u);
      }
      users := users + [u];
      reply := Ok(CreatedUserMessage);
    }
  }
}
