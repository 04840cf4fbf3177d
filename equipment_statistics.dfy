/** `equipment/statistics`: counts of the filtered equipment and its online rate. */
module EquipmentStatistics {
  import opened Wrappers
  import opened Seqs
  import opened Tally
  import opened EquipmentData

  /** The field filter, applied only when `fieldId` is truthy. */
  function FilterForStats(list: seq<Equipment>, fieldId: Option<string>): (r: seq<Equipment>)
    ensures fieldId.None? || fieldId.value == "" ==> r == list
    ensures fieldId.Some? && fieldId.value != "" ==>
      forall i :: 0 <= i < |r| ==> r[i].fieldId == fieldId.value
  {
    if fieldId.Some? && fieldId.value != "" then Filter(list, (e: Equipment) => e.fieldId == fieldId.value)
    else list
  }

  lemma FilterForStatsMember(list: seq<Equipment>, fieldId: Option<string>, x: Equipment)
    ensures x in FilterForStats(list, fieldId) <==> x in list && (fieldId.Some? && fieldId.value != "" ==> x.fieldId == fieldId.value)
  {
    if fieldId.Some? && fieldId.value != "" {
      FilterMember(list, (e: Equipment) => e.fieldId == fieldId.value, x);
    }
  }

  datatype BatteryBucket = NoData | Low | Medium | High

  const Buckets: seq<BatteryBucket> := [NoData, Low, Medium, High]

  /** The bucket of a battery level: undefined, below 20, below 60, or the rest. */
  function Bucket(level: Option<int>): (b: BatteryBucket)
    ensures b == NoData <==> level.None?
    ensures b == Low <==> level.Some? && level.value < 20
    ensures b == Medium <==> level.Some? && 20 <= level.value < 60
    ensures b == High <==> level.Some? && level.value >= 60
  {
    if level.None? then NoData
    else if level.value < 20 then Low
    else if level.value < 60 then Medium
    else High
  }

  function BucketsOf(s: seq<Equipment>): (bs: seq<BatteryBucket>)
    ensures |bs| == |s| && forall i :: 0 <= i < |s| ==> bs[i] == Bucket(s[i].batteryLevel)
  {
    seq(|s|, i requires 0 <= i < |s| => Bucket(s[i].batteryLevel))
  }

  /** The type of each record, in order. */
  function TypesOf(s: seq<Equipment>): seq<int> {
    Map(s, (e: Equipment) => e.equipmentType)
  }

  /** The status of each record, in order. */
  function StatusesOf(s: seq<Equipment>): seq<int> {
    Map(s, (e: Equipment) => e.status)
  }

  datatype BatteryStats = BatteryStats(low: nat, medium: nat, high: nat, noData: nat)

  /** `onlineRate` as an exact quotient; the source divides in floating point. */
  datatype EquipmentStats = EquipmentStats(
    totalCount: nat, byStatus: map<int, nat>, byType: map<int, nat>,
    batteryStats: BatteryStats, onlineRate: real)

  /** The battery counters, each incremented by the `forEach` for its bucket. */
  method CountBattery(filtered: seq<Equipment>) returns (b: BatteryStats)
    ensures b.noData == Count(BucketsOf(filtered), NoData)
    ensures b.low == Count(BucketsOf(filtered), Low)
    ensures b.medium == Count(BucketsOf(filtered), Medium)
    ensures b.high == Count(BucketsOf(filtered), High)
    ensures b.noData + b.low + b.medium + b.high == |filtered|
  {
    var low, medium, high, noData := 0, 0, 0, 0;
    var n := 0;
    while n < |filtered|
      invariant 0 <= n <= |filtered|
      invariant noData == Count(BucketsOf(filtered[..n]), NoData)
      invariant low == Count(BucketsOf(filtered[..n]), Low)
      invariant medium == Count(BucketsOf(filtered[..n]), Medium)
      invariant high == Count(BucketsOf(filtered[..n]), High)
    {
      var e := filtered[n];
      assert BucketsOf(filtered[..n + 1]) == BucketsOf(filtered[..n]) + [Bucket(e.batteryLevel)];
      CountSnoc(BucketsOf(filtered[..n]), Bucket(e.batteryLevel), NoData);
      CountSnoc(BucketsOf(filtered[..n]), Bucket(e.batteryLevel), Low);
      CountSnoc(BucketsOf(filtered[..n]), Bucket(e.batteryLevel), Medium);
      CountSnoc(BucketsOf(filtered[..n]), Bucket(e.batteryLevel), High);
      if e.batteryLevel.None? {
        noData := noData + 1;
      } else if e.batteryLevel.value < 20 {
        low := low + 1;
      } else if e.batteryLevel.value < 60 {
        medium := medium + 1;
      } else {
        high := high + 1;
      }
      n := n + 1;
    }
    assert filtered[..n] == filtered;
    b := BatteryStats(low, medium, high, noData);
    BucketsPartition(BucketsOf(filtered));
  }

  /** Every equipment falls in exactly one bucket. */
  lemma {:induction false} BucketsPartition(bs: seq<BatteryBucket>)
    ensures Count(bs, NoData) + Count(bs, Low) + Count(bs, Medium) + Count(bs, High) == |bs|
    decreases |bs|
  {
    if bs != [] {
      BucketsPartition(bs[1..]);
      assert Count(bs, NoData) == (if bs[0] == NoData then 1 else 0) + Count(bs[1..], NoData);
      assert Count(bs, Low) == (if bs[0] == Low then 1 else 0) + Count(bs[1..], Low);
      assert Count(bs, Medium) == (if bs[0] == Medium then 1 else 0) + Count(bs[1..], Medium);
      assert Count(bs, High) == (if bs[0] == High then 1 else 0) + Count(bs[1..], High);
    }
  }

  lemma EnumKeys()
    ensures Distinct(EquipmentTypes) && Distinct(EquipmentStatuses)
    ensures (set i | 0 <= i < |EquipmentTypes| :: EquipmentTypes[i]) == {0, 1, 2, 3, 4, 5, 6, 99}
    ensures (set i | 0 <= i < |EquipmentStatuses| :: EquipmentStatuses[i]) == {0, 1, 2, 3}
  {
    var types := set i | 0 <= i < |EquipmentTypes| :: EquipmentTypes[i];
    assert EquipmentTypes[0] in types && EquipmentTypes[1] in types && EquipmentTypes[2] in types;
    assert EquipmentTypes[3] in types && EquipmentTypes[4] in types && EquipmentTypes[5] in types;
    assert EquipmentTypes[6] in types && EquipmentTypes[7] in types;
    var statuses := set i | 0 <= i < |EquipmentStatuses| :: EquipmentStatuses[i];
    assert EquipmentStatuses[0] in statuses && EquipmentStatuses[1] in statuses;
    assert EquipmentStatuses[2] in statuses && EquipmentStatuses[3] in statuses;
  }

  lemma QuotientAtMostOne(o: real, t: real)
    requires 0.0 <= o <= t && t > 0.0
    ensures o / t <= 1.0
  {
  }

  /**
   * `length > 0 ? (byStatus[ONLINE] || 0) / length : 0`, as an exact quotient.
   */
  function OnlineRate(online: nat, total: nat): (r: real)
    requires online <= total
    ensures total == 0 ==> r == 0.0
    ensures total > 0 ==> r * total as real == online as real
    ensures 0.0 <= r <= 1.0
  {
    if total > 0 then
      var r := online as real / total as real;
      assert r * total as real == online as real;
      QuotientAtMostOne(online as real, total as real);
      r
    else 0.0
  }

  /** The statistics handler. */
  method GetEquipmentStatistics(list: seq<Equipment>, fieldId: Option<string>) returns (st: EquipmentStats)
    ensures st.totalCount == |FilterForStats(list, fieldId)|
    ensures st.byStatus.Keys == {0, 1, 2, 3}
    ensures forall s :: s in st.byStatus ==> st.byStatus[s] == Count(StatusesOf(FilterForStats(list, fieldId)), s)
    ensures st.byType.Keys == {0, 1, 2, 3, 4, 5, 6, 99}
    ensures forall t :: t in st.byType ==> st.byType[t] == Count(TypesOf(FilterForStats(list, fieldId)), t)
    ensures SumAt(st.byStatus, EquipmentStatuses) <= st.totalCount
    ensures st.batteryStats.noData == Count(BucketsOf(FilterForStats(list, fieldId)), NoData)
    ensures st.batteryStats.low == Count(BucketsOf(FilterForStats(list, fieldId)), Low)
    ensures st.batteryStats.medium == Count(BucketsOf(FilterForStats(list, fieldId)), Medium)
    ensures st.batteryStats.high == Count(BucketsOf(FilterForStats(list, fieldId)), High)
    ensures st.batteryStats.noData + st.batteryStats.low + st.batteryStats.medium + st.batteryStats.high == st.totalCount
    ensures st.byStatus[ONLINE] <= st.totalCount
    ensures st.onlineRate == OnlineRate(st.byStatus[ONLINE], st.totalCount)
  {
    var filtered := FilterForStats(list, fieldId);
    var byStatus := CountTable(StatusesOf(filtered), EquipmentStatuses);
    var byType := CountTable(TypesOf(filtered), EquipmentTypes);
    var battery := CountBattery(filtered);
    EnumKeys();
    CountTableBound(byStatus, StatusesOf(filtered), EquipmentStatuses);
    var online := byStatus[ONLINE];
    assert online <= |filtered| by {
      assert online == Count(StatusesOf(filtered), ONLINE);
    }
    var rate := OnlineRate(online, |filtered|);
    st := EquipmentStats(|filtered|, byStatus, byType, battery, rate);
  }
}
