/** `activity/statistics`: counts of the filtered activities by type, status and month. */
module ActivityStatistics {
  import opened Wrappers
  import opened Strings
  import opened Seqs
  import opened Tally
  import opened Mock
  import opened ActivityData

  /** A calendar month, as `getMonth() + 1` yields it. */
  type Month = m: int | 1 <= m <= 12 witness 1

  /** The query; dates arrive parsed. */
  datatype StatsQuery = StatsQuery(fieldId: Option<string>, startDate: Option<Time>, endDate: Option<Time>)

  predicate InQuery(q: StatsQuery, a: Activity) {
    (q.fieldId.Some? && q.fieldId.value != "" ==> a.fieldId == q.fieldId.value)
    && (q.startDate.Some? && q.endDate.Some? ==> q.startDate.value <= a.startTime <= q.endDate.value)
  }

  /** The field filter when `fieldId` is truthy, then the date range when both ends are given. */
  function FilterForStats(list: seq<Activity>, q: StatsQuery): seq<Activity> {
    var a := if q.fieldId.Some? && q.fieldId.value != "" then Filter(list, (x: Activity) => x.fieldId == q.fieldId.value) else list;
    if q.startDate.Some? && q.endDate.Some? then
      Filter(a, (x: Activity) => q.startDate.value <= x.startTime <= q.endDate.value)
    else a
  }

  lemma FilterForStatsMember(list: seq<Activity>, q: StatsQuery, x: Activity)
    ensures x in FilterForStats(list, q) <==> x in list && InQuery(q, x)
  {
    var a := if q.fieldId.Some? && q.fieldId.value != "" then Filter(list, (y: Activity) => y.fieldId == q.fieldId.value) else list;
    if q.fieldId.Some? && q.fieldId.value != "" { FilterMember(list, (y: Activity) => y.fieldId == q.fieldId.value, x); }
    if q.startDate.Some? && q.endDate.Some? {
      FilterMember(a, (y: Activity) => q.startDate.value <= y.startTime <= q.endDate.value, x);
    }
  }

  /** `month < 10 ? `0${month}` : `${month}``. */
  function MonthKey(m: Month): (k: string)
    ensures |k| == 2
    ensures ParseDecimal(k) == Some(m)
  {
    ParseNatToString(m);
    if m < 10 then
      LeadingZerosValue("0", NatToString(m));
      "0" + NatToString(m)
    else
      assert NatToString(m) == NatToString(m / 10) + [DigitChar(m % 10)];
      NatToString(m)
  }

  /** The twelve keys `byMonth` is initialised with, in order. */
  const MonthKeys: seq<string> := ["01", "02", "03", "04", "05", "06", "07", "08", "09", "10", "11", "12"]

  /** Month `m` increments the `m`-th key. */
  lemma MonthKeyListed(m: Month)
    ensures MonthKey(m) == MonthKeys[m - 1]
  {
    if m == 1 {} else if m == 2 {} else if m == 3 {} else if m == 4 {}
    else if m == 5 {} else if m == 6 {} else if m == 7 {} else if m == 8 {}
    else if m == 9 {} else if m == 10 {} else if m == 11 {} else {}
  }

  /** The type of each record, in order. */
  function TypesOf(s: seq<Activity>): seq<int> {
    Map(s, (a: Activity) => a.activityType)
  }

  /** The status of each record, in order. */
  function StatusesOf(s: seq<Activity>): seq<int> {
    Map(s, (a: Activity) => a.status)
  }

  /** The month key of each activity's start, read through the local calendar `monthOf`. */
  function MonthKeysOf(s: seq<Activity>, monthOf: Time -> Month): (ks: seq<string>)
    ensures |ks| == |s| && forall i :: 0 <= i < |s| ==> ks[i] == MonthKey(monthOf(s[i].startTime))
  {
    seq(|s|, i requires 0 <= i < |s| => MonthKey(monthOf(s[i].startTime)))
  }

  /**
   * The `byMonth` table: twelve zero entries, then one increment of the
   * month key of each activity's start.
   */
  method CountMonths(filtered: seq<Activity>, monthOf: Time -> Month) returns (byMonth: map<string, nat>)
    ensures byMonth.Keys == MonthKeySet()
    ensures forall k :: k in byMonth ==> byMonth[k] == Count(MonthKeysOf(filtered, monthOf), k)
    ensures SumAt(byMonth, MonthKeys) == |filtered|
  {
    byMonth := map[];
    var i := 0;
    while i < 12
      invariant 0 <= i <= 12
      invariant byMonth.Keys == set j | 0 <= j < i :: MonthKeys[j]
      invariant forall k :: k in byMonth ==> byMonth[k] == 0
    {
      byMonth := byMonth[MonthKeys[i] := 0];
      i := i + 1;
    }

    var n := 0;
    while n < |filtered|
      invariant 0 <= n <= |filtered|
      invariant byMonth.Keys == MonthKeySet()
      invariant forall k :: k in byMonth ==> byMonth[k] == Count(MonthKeysOf(filtered[..n], monthOf), k)
    {
      var month := monthOf(filtered[n].startTime);
      var monthKey := MonthKey(month);
      MonthKeyListed(month);
      assert monthKey in byMonth;
      byMonth := byMonth[monthKey := (if monthKey in byMonth then byMonth[monthKey] else 0) + 1];
      CountStep(filtered, n, monthOf);
      n := n + 1;
    }
    assert filtered[..n] == filtered;
    MonthSum(byMonth, filtered, monthOf);
  }

  /** The keys of the initialised table. */
  function MonthKeySet(): set<string> {
    set j | 0 <= j < 12 :: MonthKeys[j]
  }

  lemma CountStep(filtered: seq<Activity>, n: nat, monthOf: Time -> Month)
    requires n < |filtered|
    ensures forall k ::
      Count(MonthKeysOf(filtered[..n + 1], monthOf), k)
      == Count(MonthKeysOf(filtered[..n], monthOf), k) + (if k == MonthKey(monthOf(filtered[n].startTime)) then 1 else 0)
  {
    var monthKey := MonthKey(monthOf(filtered[n].startTime));
    assert MonthKeysOf(filtered[..n + 1], monthOf) == MonthKeysOf(filtered[..n], monthOf) + [monthKey];
    forall k {
      CountSnoc(MonthKeysOf(filtered[..n], monthOf), monthKey, k);
    }
  }

  lemma MonthSum(byMonth: map<string, nat>, filtered: seq<Activity>, monthOf: Time -> Month)
    requires byMonth.Keys == MonthKeySet()
    requires forall k :: k in byMonth ==> byMonth[k] == Count(MonthKeysOf(filtered, monthOf), k)
    ensures SumAt(byMonth, MonthKeys) == |filtered|
  {
    var months := MonthKeysOf(filtered, monthOf);
    forall j | 0 <= j < 12
      ensures MonthKeys[j] in byMonth && byMonth[MonthKeys[j]] == Count(months, MonthKeys[j])
    {
      assert MonthKeys[j] in MonthKeySet();
    }
    forall j | 0 <= j < |months|
      ensures months[j] in MonthKeys
    {
      MonthKeyListed(monthOf(filtered[j].startTime));
    }
    MonthKeysDistinct();
    CountTableSum(byMonth, months, MonthKeys);
  }

  lemma MonthKeysDistinct()
    ensures Distinct(MonthKeys)
  {
  }

  lemma EnumKeys()
    ensures Distinct(ActivityTypes) && Distinct(ActivityStatuses)
    ensures (set i | 0 <= i < |ActivityTypes| :: ActivityTypes[i]) == {0, 1, 2, 3, 4, 5, 99}
    ensures (set i | 0 <= i < |ActivityStatuses| :: ActivityStatuses[i]) == {0, 1, 2, 3}
  {
    var types := set i | 0 <= i < |ActivityTypes| :: ActivityTypes[i];
    assert ActivityTypes[0] in types && ActivityTypes[1] in types && ActivityTypes[2] in types;
    assert ActivityTypes[3] in types && ActivityTypes[4] in types && ActivityTypes[5] in types;
    assert ActivityTypes[6] in types;
    var statuses := set i | 0 <= i < |ActivityStatuses| :: ActivityStatuses[i];
    assert ActivityStatuses[0] in statuses && ActivityStatuses[1] in statuses;
    assert ActivityStatuses[2] in statuses && ActivityStatuses[3] in statuses;
  }

  datatype ActivityStats = ActivityStats(
    byType: map<int, nat>, byStatus: map<int, nat>, byMonth: map<string, nat>, totalCount: nat)

  /** The statistics handler: the filter, the three tables and the total. */
  method GetActivityStatistics(list: seq<Activity>, q: StatsQuery, monthOf: Time -> Month) returns (st: ActivityStats)
    ensures st.totalCount == |FilterForStats(list, q)|
    ensures st.byType.Keys == {0, 1, 2, 3, 4, 5, 99}
    ensures forall t :: t in st.byType ==> st.byType[t] == Count(TypesOf(FilterForStats(list, q)), t)
    ensures st.byStatus.Keys == {0, 1, 2, 3}
    ensures forall s :: s in st.byStatus ==> st.byStatus[s] == Count(StatusesOf(FilterForStats(list, q)), s)
    ensures st.byMonth.Keys == MonthKeySet()
    ensures forall k :: k in st.byMonth ==> st.byMonth[k] == Count(MonthKeysOf(FilterForStats(list, q), monthOf), k)
    ensures SumAt(st.byMonth, MonthKeys) == st.totalCount
    ensures SumAt(st.byType, ActivityTypes) <= st.totalCount
    ensures SumAt(st.byStatus, ActivityStatuses) <= st.totalCount
  {
    var filtered := FilterForStats(list, q);
    var byType := CountTable(TypesOf(filtered), ActivityTypes);
    var byStatus := CountTable(StatusesOf(filtered), ActivityStatuses);

    var byMonth := CountMonths(filtered, monthOf);
    st := ActivityStats(byType, byStatus, byMonth, |filtered|);
    EnumKeys();
    CountTableBound(byType, TypesOf(filtered), ActivityTypes);
    CountTableBound(byStatus, StatusesOf(filtered), ActivityStatuses);
  }
}
