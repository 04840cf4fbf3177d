/** The alert list (generated in memory, filtered and paged) and alert creation. */
module AlertApi {
  import opened Wrappers
  import opened Strings
  import opened Seqs
  import opened Mock
  import opened Http

  /** 0 unhandled, 1 handled, 2 ignored. */
  const UNHANDLED: int := 0
  const HANDLED: int := 1

  datatype Alert = Alert(
    id: string, content: string, deviceName: string, level: int, status: int,
    assignee: string, createTime: Time, handleTime: Option<Time>)

  /** The random draws of one `generateMockAlert` call. */
  datatype AlertChoices = AlertChoices(
    statusRoll: nat, levelRoll: nat, contentLetters: string, nameLetters: string,
    uuid: string, assignee: string, createRoll: nat, handleRoll: nat)

  /** The severity word of the alert content, by level. */
  function Severity(level: int): string {
    if level == 0 then "轻微" else if level == 1 then "严重" else "危险"
  }

  /**
   * `generateMockAlert(index)`: status and level are drawn from 0..2, the
   * creation time from the last 30 days, and a handled alert gets a handling
   * time between its creation and now. The content and the device name draw
   * their three letters separately.
   */
  function GenerateMockAlert(index: nat, c: AlertChoices, now: Time): (a: Alert)
    ensures 0 <= a.status <= 2 && 0 <= a.level <= 2
    ensures a.handleTime.Some? <==> a.status == HANDLED
    ensures a.handleTime.Some? ==> a.createTime <= a.handleTime.value <= now
    ensures now - 30 * DayMs <= a.createTime <= now
    ensures a.deviceName == "设备" + ToUpper(c.nameLetters) + "-" + NatToString(index + 1)
    ensures a.content == "设备" + ToUpper(c.contentLetters) + "-" + NatToString(index + 1) + "发生" + Severity(a.level) + "故障"
  {
    var status := c.statusRoll % 3;
    var level := c.levelRoll % 3;
    var createTime := PickInt(now - 30 * DayMs, now, c.createRoll);
    Alert(c.uuid,
      "设备" + ToUpper(c.contentLetters) + "-" + NatToString(index + 1) + "发生" + Severity(level) + "故障",
      "设备" + ToUpper(c.nameLetters) + "-" + NatToString(index + 1),
      level, status, c.assignee, createTime,
      if status == 1 then Some(PickInt(createTime, now, c.handleRoll)) else None)
  }

  /** `mockAlerts`: one hundred generated alerts, numbered from 1. */
  function SeedAlerts(choices: seq<AlertChoices>, now: Time): (alerts: seq<Alert>)
    requires |choices| == 100
    ensures |alerts| == 100
    ensures forall i :: 0 <= i < 100 ==> alerts[i] == GenerateMockAlert(i, choices[i], now)
  {
    seq(100, i requires 0 <= i < 100 => GenerateMockAlert(i, choices[i], now))
  }

  /** The list request body; a missing key is `None`. */
  datatype AlertListBody = AlertListBody(
    page: Option<int>, pageSize: Option<int>, keyword: Option<string>,
    status: Option<int>, level: Option<int>, startTime: Option<Time>, endTime: Option<Time>)

  /** The body after destructuring with its defaults. */
  datatype AlertQuery = AlertQuery(
    page: int, pageSize: int, keyword: string, status: int, level: int,
    startTime: Option<Time>, endTime: Option<Time>)

  /** `const { page = 1, pageSize = 10, keyword = '', status = -1, level = -1, ... } = body`. */
  function QueryOf(body: AlertListBody): (q: AlertQuery)
    ensures body.page.None? ==> q.page == 1
    ensures body.pageSize.None? ==> q.pageSize == 10
    ensures body.keyword.None? ==> q.keyword == ""
    ensures body.status.None? ==> q.status == -1
    ensures body.level.None? ==> q.level == -1
  {
    AlertQuery(body.page.GetOr(1), body.pageSize.GetOr(10), body.keyword.GetOr(""),
      body.status.GetOr(-1), body.level.GetOr(-1), body.startTime, body.endTime)
  }

  predicate KeywordHit(keyword: string, a: Alert) {
    Includes(a.content, keyword) || Includes(a.deviceName, keyword)
  }

  predicate InRange(a: Alert, start: Time, end: Time) {
    start <= a.createTime <= end
  }

  /** Whether an alert passes every filter the query switches on. */
  predicate Matches(q: AlertQuery, a: Alert) {
    (q.keyword != "" ==> KeywordHit(q.keyword, a))
    && (q.status != -1 ==> a.status == q.status)
    && (q.level != -1 ==> a.level == q.level)
    && (q.startTime.Some? && q.endTime.Some? ==> InRange(a, q.startTime.value, q.endTime.value))
  }

  /** The filter chain, applied in the handler's order to a copy of the list. */
  function FilterAlerts(alerts: seq<Alert>, q: AlertQuery): seq<Alert> {
    var a := if q.keyword != "" then Filter(alerts, (x: Alert) => KeywordHit(q.keyword, x)) else alerts;
    var b := if q.status != -1 then Filter(a, (x: Alert) => x.status == q.status) else a;
    var c := if q.level != -1 then Filter(b, (x: Alert) => x.level == q.level) else b;
    if q.startTime.Some? && q.endTime.Some? then
      Filter(c, (x: Alert) => InRange(x, q.startTime.value, q.endTime.value))
    else c
  }

  /** An alert is kept exactly when it is in the list and passes every active filter. */
  lemma FilterAlertsMember(alerts: seq<Alert>, q: AlertQuery, x: Alert)
    ensures x in FilterAlerts(alerts, q) <==> x in alerts && Matches(q, x)
  {
    var a := if q.keyword != "" then Filter(alerts, (y: Alert) => KeywordHit(q.keyword, y)) else alerts;
    var b := if q.status != -1 then Filter(a, (y: Alert) => y.status == q.status) else a;
    var c := if q.level != -1 then Filter(b, (y: Alert) => y.level == q.level) else b;
    if q.keyword != "" { FilterMember(alerts, (y: Alert) => KeywordHit(q.keyword, y), x); }
    if q.status != -1 { FilterMember(a, (y: Alert) => y.status == q.status, x); }
    if q.level != -1 { FilterMember(b, (y: Alert) => y.level == q.level, x); }
    if q.startTime.Some? && q.endTime.Some? {
      FilterMember(c, (y: Alert) => InRange(y, q.startTime.value, q.endTime.value), x);
    }
  }

  /** The filtered list keeps the order of the original. */
  lemma FilterAlertsSubsequence(alerts: seq<Alert>, q: AlertQuery)
    ensures IsSubsequence(FilterAlerts(alerts, q), alerts)
  {
    var a := if q.keyword != "" then Filter(alerts, (x: Alert) => KeywordHit(q.keyword, x)) else alerts;
    var b := if q.status != -1 then Filter(a, (x: Alert) => x.status == q.status) else a;
    var c := if q.level != -1 then Filter(b, (x: Alert) => x.level == q.level) else b;
    var d := FilterAlerts(alerts, q);
    SubsequenceRefl(alerts);
    SubsequenceRefl(a);
    SubsequenceRefl(b);
    SubsequenceRefl(c);
    if q.keyword != "" { FilterIsSubsequence(alerts, (x: Alert) => KeywordHit(q.keyword, x)); }
    if q.status != -1 { FilterIsSubsequence(a, (x: Alert) => x.status == q.status); }
    if q.level != -1 { FilterIsSubsequence(b, (x: Alert) => x.level == q.level); }
    if q.startTime.Some? && q.endTime.Some? {
      FilterIsSubsequence(c, (x: Alert) => InRange(x, q.startTime.value, q.endTime.value));
    }
    SubsequenceTrans(b, a, alerts);
    SubsequenceTrans(c, b, alerts);
    SubsequenceTrans(d, c, alerts);
  }

  /** An empty keyword with every other filter off keeps the whole list. */
  lemma DefaultQueryKeepsAll(alerts: seq<Alert>, body: AlertListBody)
    requires body.keyword.None? && body.status.None? && body.level.None? && body.startTime.None?
    ensures FilterAlerts(alerts, QueryOf(body)) == alerts
  {
  }

  /** `Array.prototype.slice(start, end)`: negative ends count from the back, both are clamped. */
  function JsSlice<T>(s: seq<T>, start: int, end: int): (r: seq<T>)
    ensures |r| <= |s|
    ensures forall i :: 0 <= i < |r| ==> r[i] in s
  {
    var from := if start < 0 then (if |s| + start < 0 then 0 else |s| + start) else (if start > |s| then |s| else start);
    var to := if end < 0 then (if |s| + end < 0 then 0 else |s| + end) else (if end > |s| then |s| else end);
    if from < to then s[from..to] else []
  }

  /** `items`: the slice from `(page - 1) * pageSize` to `start + pageSize`. */
  function PageItems(filtered: seq<Alert>, page: int, pageSize: int): seq<Alert> {
    var start := (page - 1) * pageSize;
    JsSlice(filtered, start, start + pageSize)
  }

  /** For page >= 1 and pageSize >= 0 the items are the contiguous window of the filtered list. */
  lemma PageWindow(filtered: seq<Alert>, page: int, pageSize: int)
    ensures page >= 1 && pageSize >= 0 ==>
      var start := (page - 1) * pageSize;
      var items := PageItems(filtered, page, pageSize);
      |items| <= pageSize
      && (start >= |filtered| ==> items == [])
      && (start < |filtered| ==>
            items == filtered[start..if start + pageSize <= |filtered| then start + pageSize else |filtered|])
  {
    if page >= 1 && pageSize >= 0 {
      var start := (page - 1) * pageSize;
      assert start >= 0 by {
        assert page - 1 >= 0;
      }
    }
  }

  /**
   * The handler's result: the requested page of the filtered alerts. The
   * computed `total` is not passed on; the page envelope is not part of
   * this model.
   */
  function ListAlerts(alerts: seq<Alert>, body: AlertListBody): (items: seq<Alert>)
    ensures var q := QueryOf(body);
      forall i :: 0 <= i < |items| ==> items[i] in alerts && Matches(q, items[i])
    ensures var q := QueryOf(body);
      q.page >= 1 && q.pageSize >= 0 ==> |items| <= q.pageSize
  {
    var q := QueryOf(body);
    var filtered := FilterAlerts(alerts, q);
    var items := PageItems(filtered, q.page, q.pageSize);
    PageWindow(filtered, q.page, q.pageSize);
    PageItemsFromFiltered(alerts, q);
    items
  }

  /** Every alert on a page passed the filters. */
  lemma PageItemsFromFiltered(alerts: seq<Alert>, q: AlertQuery)
    ensures var items := PageItems(FilterAlerts(alerts, q), q.page, q.pageSize);
      forall i :: 0 <= i < |items| ==> items[i] in alerts && Matches(q, items[i])
  {
    var filtered := FilterAlerts(alerts, q);
    var items := PageItems(filtered, q.page, q.pageSize);
    forall i | 0 <= i < |items|
      ensures items[i] in alerts && Matches(q, items[i])
    {
      FilterAlertsMember(alerts, q, items[i]);
    }
  }

  /** The create request body; a missing key is `None`. */
  datatype AlertBody = AlertBody(
    deviceName: Option<string>, level: Option<int>, content: Option<string>, assignee: Option<string>)

  const IncompleteAlertMessage: string := "请提供完整的告警信息（设备名称、告警级别、告警内容、指派人是必填项）"

  /**
   * `alert/create`: the required-field guard, then a new unhandled alert that
   * is returned and stored nowhere. Only an undefined level is rejected.
   */
  function CreateAlert(body: AlertBody, uuid: string, now: Time): (r: Reply<Alert>)
    ensures r.Error? <==> Falsy(body.deviceName) || body.level.None? || Falsy(body.content) || Falsy(body.assignee)
    ensures r.Error? ==> r.code == 400 && r.message == IncompleteAlertMessage
    ensures !r.Rejected?
    ensures r.Ok? ==>
      (r.data.deviceName == body.deviceName.value && r.data.level == body.level.value
       && r.data.content == body.content.value && r.data.assignee == body.assignee.value
       && r.data.status == UNHANDLED && r.data.handleTime.None?
       && r.data.id == uuid && r.data.createTime == now)
  {
    if Falsy(body.deviceName) || body.level.None? || Falsy(body.content) || Falsy(body.assignee) then
      Error(400, IncompleteAlertMessage)
    else
      Ok(Alert(uuid, body.content.value, body.deviceName.value, body.level.value, UNHANDLED,
        body.assignee.value, now, None))
  }

  /** Level 0 passes the guard. */
  lemma LevelZeroAccepted(deviceName: string, content: string, assignee: string, uuid: string, now: Time)
    requires deviceName != "" && content != "" && assignee != ""
    ensures CreateAlert(AlertBody(Some(deviceName), Some(0), Some(content), Some(assignee)), uuid, now).Ok?
  {
  }
}
