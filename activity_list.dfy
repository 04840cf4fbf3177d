/** `activity/list`: the filter chain over a copy of `activityList`, then the sort. */
module ActivityList {
  import opened Wrappers
  import opened Strings
  import opened Seqs
  import opened Mock
  import opened ActivityData

  /** The query string; a missing parameter is `None`, dates arrive parsed. */
  datatype ActivityQuery = ActivityQuery(
    fieldId: Option<string>, sectionId: Option<string>, activityType: Option<string>,
    status: Option<string>, startDate: Option<Time>, endDate: Option<Time>,
    sortBy: Option<string>, sortOrder: Option<string>)

  /**
   * `if (x)` on a query string; on strings it is the same test as the
   * `x !== undefined && x !== ''` of the type and status filters.
   */
  predicate Given(p: Option<string>) {
    p.Some? && p.value != ""
  }

  /** `value === Number(param)`: `Number` of a non-numeral is NaN, which equals nothing. */
  predicate NumberEquals(value: int, param: string) {
    var n := ParseDecimal(param);
    n.Some? && n.value == value
  }

  /** Whether an activity passes every filter the query switches on. */
  predicate Matches(q: ActivityQuery, a: Activity) {
    (Given(q.fieldId) ==> a.fieldId == q.fieldId.value)
    && (Given(q.sectionId) ==> a.sectionId == q.sectionId)
    && (Given(q.activityType) ==> NumberEquals(a.activityType, q.activityType.value))
    && (Given(q.status) ==> NumberEquals(a.status, q.status.value))
    && (q.startDate.Some? && q.endDate.Some? ==> q.startDate.value <= a.startTime <= q.endDate.value)
  }

  /** `fieldId` filter, when the parameter is truthy. */
  function ByField(s: seq<Activity>, q: ActivityQuery): seq<Activity> {
    if Given(q.fieldId) then Filter(s, (x: Activity) => x.fieldId == q.fieldId.value) else s
  }

  /** `sectionId` filter, when the parameter is truthy. */
  function BySection(s: seq<Activity>, q: ActivityQuery): seq<Activity> {
    if Given(q.sectionId) then Filter(s, (x: Activity) => x.sectionId == q.sectionId) else s
  }

  /** `activityType` filter, when the parameter is neither absent nor empty. */
  function ByType(s: seq<Activity>, q: ActivityQuery): seq<Activity> {
    if Given(q.activityType) then Filter(s, (x: Activity) => NumberEquals(x.activityType, q.activityType.value)) else s
  }

  /** `status` filter, when the parameter is neither absent nor empty. */
  function ByStatus(s: seq<Activity>, q: ActivityQuery): seq<Activity> {
    if Given(q.status) then Filter(s, (x: Activity) => NumberEquals(x.status, q.status.value)) else s
  }

  /** Date-range filter on the start time, when both ends are given. */
  function ByDates(s: seq<Activity>, q: ActivityQuery): seq<Activity> {
    if q.startDate.Some? && q.endDate.Some? then
      Filter(s, (x: Activity) => q.startDate.value <= x.startTime <= q.endDate.value)
    else s
  }

  /** The filter chain, in the handler's order. */
  function FilterActivities(list: seq<Activity>, q: ActivityQuery): seq<Activity> {
    ByDates(ByStatus(ByType(BySection(ByField(list, q), q), q), q), q)
  }

  lemma ByFieldMember(s: seq<Activity>, q: ActivityQuery, x: Activity)
    ensures x in ByField(s, q) <==> x in s && (Given(q.fieldId) ==> x.fieldId == q.fieldId.value)
  {
    if Given(q.fieldId) { FilterMember(s, (y: Activity) => y.fieldId == q.fieldId.value, x); }
  }

  lemma BySectionMember(s: seq<Activity>, q: ActivityQuery, x: Activity)
    ensures x in BySection(s, q) <==> x in s && (Given(q.sectionId) ==> x.sectionId == q.sectionId)
  {
    if Given(q.sectionId) { FilterMember(s, (y: Activity) => y.sectionId == q.sectionId, x); }
  }

  lemma ByTypeMember(s: seq<Activity>, q: ActivityQuery, x: Activity)
    ensures x in ByType(s, q) <==> x in s && (Given(q.activityType) ==> NumberEquals(x.activityType, q.activityType.value))
  {
    if Given(q.activityType) { FilterMember(s, (y: Activity) => NumberEquals(y.activityType, q.activityType.value), x); }
  }

  lemma ByStatusMember(s: seq<Activity>, q: ActivityQuery, x: Activity)
    ensures x in ByStatus(s, q) <==> x in s && (Given(q.status) ==> NumberEquals(x.status, q.status.value))
  {
    if Given(q.status) { FilterMember(s, (y: Activity) => NumberEquals(y.status, q.status.value), x); }
  }

  lemma ByDatesMember(s: seq<Activity>, q: ActivityQuery, x: Activity)
    ensures x in ByDates(s, q) <==> x in s && (q.startDate.Some? && q.endDate.Some? ==> q.startDate.value <= x.startTime <= q.endDate.value)
  {
    if q.startDate.Some? && q.endDate.Some? {
      FilterMember(s, (y: Activity) => q.startDate.value <= y.startTime <= q.endDate.value, x);
    }
  }

  /** An activity is kept exactly when it is in the list and passes every active filter. */
  lemma FilterActivitiesMember(list: seq<Activity>, q: ActivityQuery, x: Activity)
    ensures x in FilterActivities(list, q) <==> x in list && Matches(q, x)
  {
    var a := ByField(list, q);
    var b := BySection(a, q);
    var c := ByType(b, q);
    var d := ByStatus(c, q);
    ByFieldMember(list, q, x);
    BySectionMember(a, q, x);
    ByTypeMember(b, q, x);
    ByStatusMember(c, q, x);
    ByDatesMember(d, q, x);
  }

  /** A type or status parameter of '0' selects exactly the activities with value 0. */
  lemma ZeroParameterSelectsZero(a: Activity)
    ensures NumberEquals(a.activityType, "0") <==> a.activityType == 0
    ensures NumberEquals(a.status, "0") <==> a.status == 0
  {
    ParseNatToString(0);
  }

  /**
   * A sortable property value: a number, a string, an array of strings held
   * as the comma-joined string the relational operators compare, or `undefined`.
   */
  datatype SortValue = Num(n: int) | Text(s: string) | Joined(s: string) | Undefined

  /** `a[sortBy]`; timestamps are compared as instants, unknown names as `undefined`. */
  function SortKey(a: Activity, field: string): SortValue {
    match field
    case "id" => Text(a.id)
    case "fieldId" => Text(a.fieldId)
    case "sectionId" => if a.sectionId.Some? then Text(a.sectionId.value) else Undefined
    case "activityType" => Num(a.activityType)
    case "title" => Text(a.title)
    case "description" => if a.description.Some? then Text(a.description.value) else Undefined
    case "startTime" => Num(a.startTime)
    case "endTime" => if a.endTime.Some? then Num(a.endTime.value) else Undefined
    case "status" => Num(a.status)
    case "executor" => if a.executor.Some? then Text(a.executor.value) else Undefined
    case "materials" => if a.materials.Some? then Joined(JoinComma(a.materials.value)) else Undefined
    case "dataSource" => if a.dataSource.Some? then Num(a.dataSource.value) else Undefined
    case "weatherInfo" => if a.weatherInfo.Some? then Text(a.weatherInfo.value) else Undefined
    case "effectDescription" => if a.effectDescription.Some? then Text(a.effectDescription.value) else Undefined
    case "images" => if a.images.Some? then Joined(JoinComma(a.images.value)) else Undefined
    case "createTime" => Num(a.createTime)
    case "updateTime" => Num(a.updateTime)
    case "remark" => if a.remark.Some? then Text(a.remark.value) else Undefined
    case _ => Undefined
  }

  /** Where a kind of value goes among the others: numbers, strings, arrays, then `undefined`. */
  function Rank(v: SortValue): nat {
    match v
    case Num(_) => 0
    case Text(_) => 1
    case Joined(_) => 2
    case Undefined => 3
  }

  /**
   * Ascending order on values: numbers by size, strings by `localeCompare`,
   * arrays by their joined strings; values of different kinds by `Rank`.
   */
  predicate ValueLe(u: SortValue, v: SortValue) {
    match (u, v)
    case (Num(m), Num(n)) => m <= n
    case (Text(s), Text(t)) => LexLe(s, t)
    case (Joined(s), Joined(t)) => LexLe(s, t)
    case _ => Rank(u) <= Rank(v)
  }

  lemma ValueLeTotal(u: SortValue, v: SortValue)
    ensures ValueLe(u, v) || ValueLe(v, u)
  {
    if (u.Text? && v.Text?) || (u.Joined? && v.Joined?) {
      LexLeTotal(u.s, v.s);
    }
  }

  lemma ValueLeTransitive(u: SortValue, v: SortValue, w: SortValue)
    requires ValueLe(u, v) && ValueLe(v, w)
    ensures ValueLe(u, w)
  {
    if (u.Text? && v.Text? && w.Text?) || (u.Joined? && v.Joined? && w.Joined?) {
      LexLeTransitive(u.s, v.s, w.s);
    }
  }

  /** `sortBy` and whether `sortOrder === 'asc'`. */
  datatype Order = Order(field: string, asc: bool)

  /** `x` may precede `y`: an ascending order compares `a` with `b`, any other order `b` with `a`. */
  predicate Le(o: Order, x: Activity, y: Activity) {
    if o.asc then ValueLe(SortKey(x, o.field), SortKey(y, o.field))
    else ValueLe(SortKey(y, o.field), SortKey(x, o.field))
  }

  lemma LeTotal(o: Order, x: Activity, y: Activity)
    ensures Le(o, x, y) || Le(o, y, x)
  {
    ValueLeTotal(SortKey(x, o.field), SortKey(y, o.field));
  }

  lemma LeTransitive(o: Order, x: Activity, y: Activity, z: Activity)
    requires Le(o, x, y) && Le(o, y, z)
    ensures Le(o, x, z)
  {
    if o.asc {
      ValueLeTransitive(SortKey(x, o.field), SortKey(y, o.field), SortKey(z, o.field));
    } else {
      ValueLeTransitive(SortKey(z, o.field), SortKey(y, o.field), SortKey(x, o.field));
    }
  }

  /** The array a `materials` or `images` sort reads, `undefined` on any other name. */
  function ArrayProperty(a: Activity, field: string): Option<seq<string>> {
    if field == "materials" then a.materials
    else if field == "images" then a.images
    else None
  }

  /** Sorting by `materials` or `images` orders two activities by their comma-joined arrays. */
  lemma ArrayKeysCompareJoined(o: Order, x: Activity, y: Activity)
    requires o.field == "materials" || o.field == "images"
    requires ArrayProperty(x, o.field).Some? && ArrayProperty(y, o.field).Some?
    ensures var s := JoinComma(ArrayProperty(x, o.field).value);
      var t := JoinComma(ArrayProperty(y, o.field).value);
      Le(o, x, y) <==> if o.asc then LexLe(s, t) else LexLe(t, s)
  {
  }

  /**
   * In an ascending sort by `materials`, an activity without materials comes
   * strictly before one whose first material is a non-empty name.
   */
  lemma NoMaterialsFirst(x: Activity, y: Activity)
    requires x.materials == Some([])
    requires y.materials.Some? && y.materials.value != [] && y.materials.value[0] != ""
    ensures Le(Order("materials", true), x, y) && !Le(Order("materials", true), y, x)
  {
    var t := JoinComma(y.materials.value);
    assert |t| > 0;
  }

  /** Each activity may precede its successor. */
  predicate Sorted(s: seq<Activity>, o: Order) {
    forall i :: 0 <= i < |s| - 1 ==> Le(o, s[i], s[i + 1])
  }

  /** Insert `x` before the first element it may precede. */
  function Insert(x: Activity, s: seq<Activity>, o: Order): (r: seq<Activity>)
    ensures |r| == |s| + 1
    ensures multiset(r) == multiset(s) + multiset{x}
    ensures r[0] == x || (s != [] && r[0] == s[0])
  {
    if s == [] then [x]
    else if Le(o, x, s[0]) then [x] + s
    else
      assert s == [s[0]] + s[1..];
      [s[0]] + Insert(x, s[1..], o)
  }

  lemma {:induction false} InsertSorted(x: Activity, s: seq<Activity>, o: Order)
    requires Sorted(s, o)
    ensures Sorted(Insert(x, s, o), o)
    decreases |s|
  {
    if s != [] && !Le(o, x, s[0]) {
      LeTotal(o, x, s[0]);
      var t := Insert(x, s[1..], o);
      InsertSorted(x, s[1..], o);
      assert Insert(x, s, o) == [s[0]] + t;
      assert Le(o, s[0], t[0]);
    }
  }

  /** The built-in sort with the handler's comparator, modelled as insertion sort. */
  function SortActivities(s: seq<Activity>, o: Order): (r: seq<Activity>)
    ensures |r| == |s|
    ensures multiset(r) == multiset(s)
  {
    if s == [] then []
    else
      assert s == [s[0]] + s[1..];
      Insert(s[0], SortActivities(s[1..], o), o)
  }

  lemma {:induction false} SortActivitiesSorted(s: seq<Activity>, o: Order)
    ensures Sorted(SortActivities(s, o), o)
    decreases |s|
  {
    if s != [] {
      SortActivitiesSorted(s[1..], o);
      InsertSorted(s[0], SortActivities(s[1..], o), o);
    }
  }

  /** Sorted by neighbours means every earlier activity may precede every later one. */
  lemma {:induction false} SortedPairwise(s: seq<Activity>, o: Order, i: int, j: int)
    requires Sorted(s, o) && 0 <= i < j < |s|
    ensures Le(o, s[i], s[j])
    decreases j - i
  {
    if j > i + 1 {
      SortedPairwise(s, o, i + 1, j);
      LeTransitive(o, s[i], s[i + 1], s[j]);
    }
  }

  /** `sortBy = 'createTime'`, `sortOrder = 'desc'`. */
  function OrderOf(q: ActivityQuery): (o: Order)
    ensures q.sortBy.None? ==> o.field == "createTime"
    ensures o.asc <==> q.sortOrder.GetOr("desc") == "asc"
  {
    Order(q.sortBy.GetOr("createTime"), q.sortOrder.GetOr("desc") == "asc")
  }

  /** The list the handler passes on: the filtered copy, sorted when `sortBy` is truthy. */
  function ListActivities(list: seq<Activity>, q: ActivityQuery): (r: seq<Activity>)
    ensures forall i :: 0 <= i < |r| ==> r[i] in list && Matches(q, r[i])
    ensures forall i :: 0 <= i < |list| && Matches(q, list[i]) ==> list[i] in r
    ensures multiset(r) == multiset(FilterActivities(list, q))
    ensures OrderOf(q).field != "" ==> Sorted(r, OrderOf(q))
    ensures OrderOf(q).field == "" ==> r == FilterActivities(list, q)
  {
    var filtered := FilterActivities(list, q);
    var o := OrderOf(q);
    var r := if o.field != "" then SortActivities(filtered, o) else filtered;
    SortActivitiesSorted(filtered, o);
    SameElements(r, filtered);
    KeptExactly(list, q, r);
    r
  }

  /** A list with the elements of the filtered list holds exactly the activities that pass. */
  lemma KeptExactly(list: seq<Activity>, q: ActivityQuery, r: seq<Activity>)
    requires forall x :: x in r <==> x in FilterActivities(list, q)
    ensures forall i :: 0 <= i < |r| ==> r[i] in list && Matches(q, r[i])
    ensures forall i :: 0 <= i < |list| && Matches(q, list[i]) ==> list[i] in r
  {
    forall i | 0 <= i < |r|
      ensures r[i] in list && Matches(q, r[i])
    {
      FilterActivitiesMember(list, q, r[i]);
    }
    forall i | 0 <= i < |list| && Matches(q, list[i])
      ensures list[i] in r
    {
      FilterActivitiesMember(list, q, list[i]);
    }
  }

  /** Sequences with the same multiset have the same elements. */
  lemma SameElements(r: seq<Activity>, s: seq<Activity>)
    requires multiset(r) == multiset(s)
    ensures forall x :: x in r <==> x in s
  {
    assert forall x :: x in r <==> x in multiset(r);
    assert forall x :: x in s <==> x in multiset(s);
  }
}
