/**
 * The request classifiers of the operation-logging middleware and the
 * row it writes for each request.
 */
module Logger {
  import opened Wrappers
  import opened Strings
  import opened Seqs

  datatype OperationType = QUERY | CREATE | UPDATE | DELETE | EXPORT | PROCESS | IGNORE | LOGIN | LOGOUT

  datatype OperationStatus = SUCCESS | FAIL

  /** `getOperationType`: login and logout paths first, then the HTTP verb. */
  function GetOperationType(verb: Option<string>, path: string): (t: OperationType)
    ensures Includes(path, "/login") ==> t == LOGIN
    ensures !Includes(path, "/login") && Includes(path, "/logout") ==> t == LOGOUT
    ensures !Includes(path, "/login") && !Includes(path, "/logout") ==>
      t == (if verb == Some("POST") then CREATE
            else if verb == Some("PUT") || verb == Some("PATCH") then UPDATE
            else if verb == Some("DELETE") then DELETE
            else QUERY)
    ensures t != EXPORT && t != PROCESS && t != IGNORE
  {
    if Includes(path, "/login") then LOGIN
    else if Includes(path, "/logout") then LOGOUT
    else match verb
      case Some("GET") => QUERY
      case Some("POST") => CREATE
      case Some("PUT") => UPDATE
      case Some("PATCH") => UPDATE
      case Some("DELETE") => DELETE
      case _ => QUERY
  }

  /** The `modules` table of `getModuleFromPath`, in its listed order. */
  const ModuleTable: seq<(string, string)> := [
    ("/api/user", "用户管理"), ("/api/role", "角色管理"), ("/api/permission", "权限管理"),
    ("/api/equipment", "设备管理"), ("/api/field", "田地管理"), ("/api/activity", "活动管理"),
    ("/api/alert", "告警管理"), ("/api/log", "日志管理")]

  const OtherModule: string := "其他"

  /** The first table entry whose key is a string prefix of `path`, or -1. */
  function ModuleIndex(path: string): int {
    FindIndex(ModuleTable, (e: (string, string)) => StartsWith(path, e.0))
  }

  /** No table entry carries the fallback label. */
  lemma TableLabelsAreNotOther(i: int)
    requires 0 <= i < |ModuleTable|
    ensures ModuleTable[i].1 != OtherModule
  {
  }

  /** The module label: that of the first key `path` starts with, else '其他'. */
  function ModuleOf(path: string): (lbl: string)
    ensures ModuleIndex(path) != -1 ==> lbl == ModuleTable[ModuleIndex(path)].1
    ensures lbl == OtherModule <==> forall i :: 0 <= i < |ModuleTable| ==> !StartsWith(path, ModuleTable[i].0)
  {
    var i := ModuleIndex(path);
    if i == -1 then OtherModule else TableLabelsAreNotOther(i); ModuleTable[i].1
  }

  /** The first matching entry found by a walk in table order is the one `ModuleIndex` names. */
  lemma ModuleIndexAt(path: string, k: int)
    requires 0 <= k <= |ModuleTable|
    requires forall j :: 0 <= j < k ==> !StartsWith(path, ModuleTable[j].0)
    requires k < |ModuleTable| ==> StartsWith(path, ModuleTable[k].0)
    ensures ModuleIndex(path) == (if k == |ModuleTable| then -1 else k)
  {
  }

  /** `getModuleFromPath`: walks the table in order and returns at the first prefix match. */
  method GetModuleFromPath(path: string) returns (lbl: string)
    ensures lbl == ModuleOf(path)
  {
    var k := 0;
    while k < |ModuleTable|
      invariant 0 <= k <= |ModuleTable|
      invariant forall j :: 0 <= j < k ==> !StartsWith(path, ModuleTable[j].0)
    {
      if StartsWith(path, ModuleTable[k].0) {
        ModuleIndexAt(path, k);
        return ModuleTable[k].1;
      }
      k := k + 1;
    }
    ModuleIndexAt(path, k);
    return OtherModule;
  }

  /** A key is matched as a plain string prefix, across segment boundaries. */
  lemma UserPrefixMatches(path: string)
    requires StartsWith(path, "/api/user")
    ensures ModuleOf(path) == "用户管理"
  {
  }

  /** `/api/username` is classified as user management. */
  lemma UsernamePathIsUserModule()
    ensures ModuleOf("/api/username") == "用户管理"
  {
    UserPrefixMatches("/api/username");
  }

  const KnownVerbs: set<Option<string>> := {Some("GET"), Some("POST"), Some("PUT"), Some("PATCH"), Some("DELETE")}

  /** The action word of `getOperationDescription`: `descriptions[verb] || '操作'`. */
  function Action(verb: Option<string>): (w: string)
    ensures |w| == 2
    ensures w == "操作" <==> verb !in KnownVerbs
  {
    match verb
    case Some("GET") => "查询"
    case Some("POST") => "创建"
    case Some("PUT") => "更新"
    case Some("PATCH") => "更新"
    case Some("DELETE") => "删除"
    case _ => "操作"
  }

  /** `getOperationDescription`: the action word followed by the module label. */
  function GetOperationDescription(verb: Option<string>, path: string): (d: string)
    ensures verb == Some("GET") ==> d == "查询" + ModuleOf(path)
    ensures verb == Some("POST") ==> d == "创建" + ModuleOf(path)
    ensures verb == Some("PUT") || verb == Some("PATCH") ==> d == "更新" + ModuleOf(path)
    ensures verb == Some("DELETE") ==> d == "删除" + ModuleOf(path)
    ensures verb !in KnownVerbs ==> d == "操作" + ModuleOf(path)
  {
    var w := Action(verb);
    var m := ModuleOf(path);
    w + m
  }

  /**
   * Away from login and logout paths the description's action word and the
   * operation type agree: creating, updating and deleting words go with the
   * matching types, and every other verb is recorded as a query.
   */
  lemma ActionMatchesOperationType(verb: Option<string>, path: string)
    requires !Includes(path, "/login") && !Includes(path, "/logout")
    ensures GetOperationType(verb, path) == CREATE <==> Action(verb) == "创建"
    ensures GetOperationType(verb, path) == UPDATE <==> Action(verb) == "更新"
    ensures GetOperationType(verb, path) == DELETE <==> Action(verb) == "删除"
    ensures GetOperationType(verb, path) == QUERY <==> Action(verb) == "查询" || Action(verb) == "操作"
  {
  }

  /**
   * Away from login and logout paths a description starts with 创建, 更新
   * or 删除 exactly when the operation type is CREATE, UPDATE or DELETE, and
   * it always ends with the module label.
   */
  lemma DescriptionMatchesOperationType(verb: Option<string>, path: string)
    requires !Includes(path, "/login") && !Includes(path, "/logout")
    ensures var d := GetOperationDescription(verb, path);
      (GetOperationType(verb, path) == CREATE <==> StartsWith(d, "创建"))
      && (GetOperationType(verb, path) == UPDATE <==> StartsWith(d, "更新"))
      && (GetOperationType(verb, path) == DELETE <==> StartsWith(d, "删除"))
      && |d| >= |ModuleOf(path)| && d[|d| - |ModuleOf(path)|..] == ModuleOf(path)
  {
    ActionMatchesOperationType(verb, path);
    var w := Action(verb);
    var d := GetOperationDescription(verb, path);
    assert d == w + ModuleOf(path);
    assert d[..2] == w;
    assert d[2..] == ModuleOf(path);
  }

  /** `s.split(c)[0]`: the part of `s` before the first `c`. */
  function BeforeFirst(s: string, c: char): (r: string)
    ensures |r| <= |s| && r == s[..|r|]
    ensures c !in r
    ensures |r| < |s| ==> s[|r|] == c
  {
    if s == [] then []
    else if s[0] == c then []
    else [s[0]] + BeforeFirst(s[1..], c)
  }

  /** `url?.split('?')[0] || ''`: the path the classifiers see. */
  function RequestPath(url: Option<string>): (path: string)
    ensures url.None? ==> path == ""
    ensures url.Some? ==> StartsWith(url.value, path) && '?' !in path
    ensures url.Some? && '?' !in url.value ==> path == url.value
  {
    match url
    case None => ""
    case Some(u) => BeforeFirst(u, '?')
  }

  datatype ClientInfo = ClientInfo(ip: string, browser: string, os: string)

  /** `headers[name] || fallback`. */
  function HeaderOr(headers: map<string, string>, name: string, fallback: string): string {
    if name in headers && headers[name] != "" then headers[name] else fallback
  }

  /** `getClientInfo`: header values, each with its fallback. */
  function GetClientInfo(headers: map<string, string>): (info: ClientInfo)
    ensures info.ip != "" && info.browser != "" && info.os != ""
    ensures "x-forwarded-for" in headers && headers["x-forwarded-for"] != "" ==> info.ip == headers["x-forwarded-for"]
    ensures ("x-forwarded-for" !in headers || headers["x-forwarded-for"] == "") ==>
      info.ip == HeaderOr(headers, "x-real-ip", "unknown")
    ensures info.browser == HeaderOr(headers, "user-agent", "unknown")
    ensures info.os == HeaderOr(headers, "sec-ch-ua-platform", "unknown")
  {
    ClientInfo(
      HeaderOr(headers, "x-forwarded-for", HeaderOr(headers, "x-real-ip", "unknown")),
      HeaderOr(headers, "user-agent", "unknown"),
      HeaderOr(headers, "sec-ch-ua-platform", "unknown"))
  }

  /** The payload `verifyAccessToken` yields for a valid token. */
  datatype TokenPayload = TokenPayload(username: Option<string>, id: Option<string>)

  datatype UserInfo = UserInfo(username: string, userId: Option<string>)

  /** `getUserInfo`: 'anonymous' without a token or without a username in it. */
  function GetUserInfo(token: Option<TokenPayload>): (u: UserInfo)
    ensures u.username != ""
    ensures token.None? ==> u == UserInfo("anonymous", None)
    ensures token.Some? && token.value.username.Some? && token.value.username.value != "" ==>
      u.username == token.value.username.value
    ensures token.Some? && (token.value.username.None? || token.value.username.value == "") ==>
      u.username == "anonymous"
    ensures token.Some? && token.value.id.Some? && token.value.id.value != "" ==> u.userId == token.value.id
    ensures token.Some? && (token.value.id.None? || token.value.id.value == "") ==> u.userId.None?
  {
    match token
    case None => UserInfo("anonymous", None)
    case Some(p) =>
      UserInfo(if p.username.Some? && p.username.value != "" then p.username.value else "anonymous",
        if p.id.Some? && p.id.value != "" then p.id else None)
  }

  /**
   * `requestParams`: the serialised body, read only for POST and PUT.
   * `serializedBody` stands for `JSON.stringify(await readBody(event))`.
   */
  function RequestParams(verb: Option<string>, serializedBody: string): (p: string)
    ensures p != "" ==> verb == Some("POST") || verb == Some("PUT")
    ensures verb == Some("POST") || verb == Some("PUT") ==> p == serializedBody
  {
    if verb == Some("POST") || verb == Some("PUT") then serializedBody else ""
  }

  /** The `data` of the `operationLog` row the middleware writes. */
  datatype OperationLogData = OperationLogData(
    username: string, operationType: OperationType, moduleName: string, description: string,
    requestUrl: string, requestMethod: string, requestParams: string, responseData: string,
    status: OperationStatus, ip: string, browser: string, os: string)

  /**
   * The row for one request. `responseData` is read when the row is built,
   * before the patched `res.end` can have run, so it is always ''.
   */
  function LogRow(verb: Option<string>, url: Option<string>, headers: map<string, string>,
                  token: Option<TokenPayload>, serializedBody: string): (row: OperationLogData)
    ensures row.responseData == "" && row.status == SUCCESS
    ensures row.operationType == GetOperationType(verb, RequestPath(url))
    ensures row.moduleName == ModuleOf(RequestPath(url))
    ensures row.description == Action(verb) + row.moduleName
    ensures row.requestUrl == url.GetOr("") && row.requestMethod == verb.GetOr("")
    ensures row.ip != "" && row.username != ""
  {
    var path := RequestPath(url);
    var client := GetClientInfo(headers);
    OperationLogData(GetUserInfo(token).username, GetOperationType(verb, path), ModuleOf(path),
      GetOperationDescription(verb, path), url.GetOr(""), verb.GetOr(""),
      RequestParams(verb, serializedBody), "", SUCCESS, client.ip, client.browser, client.os)
  }
}
