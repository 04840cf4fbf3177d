/**
 * The in-memory farming-activity store: the module-level `activityList`,
 * its seed generator, and the functions that read and change it.
 */
module ActivityData {
  import opened Wrappers
  import opened Strings
  import opened Seqs
  import opened Mock

  // ActivityType
  const PLANTING: int := 0
  const FERTILIZING: int := 1
  const IRRIGATION: int := 2
  const WEEDING: int := 3
  const PESTCONTROL: int := 4
  const HARVEST: int := 5
  const OTHER: int := 99

  const ActivityTypes: seq<int> := [0, 1, 2, 3, 4, 5, 99]

  // ActivityStatus
  const PLANNED: int := 0
  const INPROGRESS: int := 1
  const COMPLETED: int := 2
  const CANCELLED: int := 3

  const ActivityStatuses: seq<int> := [0, 1, 2, 3]

  // DataSource
  const DataSources: seq<int> := [0, 1, 2]

  datatype Activity = Activity(
    id: string, fieldId: string, sectionId: Option<string>, activityType: int, title: string,
    description: Option<string>, startTime: Time, endTime: Option<Time>, status: int,
    executor: Option<string>, materials: Option<seq<string>>, dataSource: Option<int>,
    weatherInfo: Option<string>, effectDescription: Option<string>, images: Option<seq<string>>,
    createTime: Time, updateTime: Time, remark: Option<string>)

  /** The argument of `addActivity`; an `id` and timestamps may come with it. */
  datatype ActivityDraft = ActivityDraft(
    id: Option<string>, fieldId: string, sectionId: Option<string>, activityType: int, title: string,
    description: Option<string>, startTime: Time, endTime: Option<Time>, status: int,
    executor: Option<string>, materials: Option<seq<string>>, dataSource: Option<int>,
    weatherInfo: Option<string>, effectDescription: Option<string>, images: Option<seq<string>>,
    createTime: Option<Time>, updateTime: Option<Time>, remark: Option<string>)

  /** The argument of `updateActivity`, and the body of a create request: any subset of the properties. */
  datatype ActivityPatch = ActivityPatch(
    id: Option<string>, fieldId: Option<string>, sectionId: Option<string>, activityType: Option<int>,
    title: Option<string>, description: Option<string>, startTime: Option<Time>, endTime: Option<Time>,
    status: Option<int>, executor: Option<string>, materials: Option<seq<string>>,
    dataSource: Option<int>, weatherInfo: Option<string>, effectDescription: Option<string>,
    images: Option<seq<string>>, createTime: Option<Time>, updateTime: Option<Time>,
    remark: Option<string>)

  /** `{ id, ...data, createTime: now, updateTime: now }`. */
  function NewActivity(data: ActivityDraft, uuid: string, now: Time): (a: Activity)
    ensures a.id == (if data.id.Some? then data.id.value else uuid)
    ensures a.createTime == now && a.updateTime == now
    ensures a.fieldId == data.fieldId && a.title == data.title && a.activityType == data.activityType
    ensures a.status == data.status && a.startTime == data.startTime
    ensures a.sectionId == data.sectionId && a.description == data.description
    ensures a.endTime == data.endTime && a.executor == data.executor
    ensures a.materials == data.materials && a.dataSource == data.dataSource
    ensures a.weatherInfo == data.weatherInfo && a.effectDescription == data.effectDescription
    ensures a.images == data.images && a.remark == data.remark
  {
    Activity(data.id.GetOr(uuid), data.fieldId, data.sectionId, data.activityType, data.title,
      data.description, data.startTime, data.endTime, data.status, data.executor, data.materials,
      data.dataSource, data.weatherInfo, data.effectDescription, data.images, now, now, data.remark)
  }

  function Override<T>(supplied: Option<T>, current: T): T {
    if supplied.Some? then supplied.value else current
  }

  function OverrideOpt<T>(supplied: Option<T>, current: Option<T>): Option<T> {
    if supplied.Some? then supplied else current
  }

  /**
   * `{ ...old, ...data, updateTime: now }`: every supplied property
   * overrides, every omitted one keeps its old value, and `updateTime`
   * is `now` whatever the patch says.
   */
  function MergeActivity(a: Activity, d: ActivityPatch, now: Time): (r: Activity)
    ensures r.updateTime == now
    ensures d.id.Some? ==> r.id == d.id.value
    ensures d.id.None? ==> r.id == a.id
    ensures d.fieldId.Some? ==> r.fieldId == d.fieldId.value
    ensures d.fieldId.None? ==> r.fieldId == a.fieldId
    ensures d.sectionId.Some? ==> r.sectionId == d.sectionId
    ensures d.sectionId.None? ==> r.sectionId == a.sectionId
    ensures d.activityType.Some? ==> r.activityType == d.activityType.value
    ensures d.activityType.None? ==> r.activityType == a.activityType
    ensures d.title.Some? ==> r.title == d.title.value
    ensures d.title.None? ==> r.title == a.title
    ensures d.description.Some? ==> r.description == d.description
    ensures d.description.None? ==> r.description == a.description
    ensures d.startTime.Some? ==> r.startTime == d.startTime.value
    ensures d.startTime.None? ==> r.startTime == a.startTime
    ensures d.endTime.Some? ==> r.endTime == d.endTime
    ensures d.endTime.None? ==> r.endTime == a.endTime
    ensures d.status.Some? ==> r.status == d.status.value
    ensures d.status.None? ==> r.status == a.status
    ensures d.executor.Some? ==> r.executor == d.executor
    ensures d.executor.None? ==> r.executor == a.executor
    ensures d.materials.Some? ==> r.materials == d.materials
    ensures d.materials.None? ==> r.materials == a.materials
    ensures d.dataSource.Some? ==> r.dataSource == d.dataSource
    ensures d.dataSource.None? ==> r.dataSource == a.dataSource
    ensures d.weatherInfo.Some? ==> r.weatherInfo == d.weatherInfo
    ensures d.weatherInfo.None? ==> r.weatherInfo == a.weatherInfo
    ensures d.effectDescription.Some? ==> r.effectDescription == d.effectDescription
    ensures d.effectDescription.None? ==> r.effectDescription == a.effectDescription
    ensures d.images.Some? ==> r.images == d.images
    ensures d.images.None? ==> r.images == a.images
    ensures d.createTime.Some? ==> r.createTime == d.createTime.value
    ensures d.createTime.None? ==> r.createTime == a.createTime
    ensures d.remark.Some? ==> r.remark == d.remark
    ensures d.remark.None? ==> r.remark == a.remark
    ensures d == ActivityPatch(None, None, None, None, None, None, None, None, None, None, None, None, None, None, None, None, None, None)
      ==> r == a.(updateTime := now)
  {
    Activity(
      Override(d.id, a.id), Override(d.fieldId, a.fieldId), OverrideOpt(d.sectionId, a.sectionId),
      Override(d.activityType, a.activityType), Override(d.title, a.title),
      OverrideOpt(d.description, a.description), Override(d.startTime, a.startTime),
      OverrideOpt(d.endTime, a.endTime), Override(d.status, a.status),
      OverrideOpt(d.executor, a.executor), OverrideOpt(d.materials, a.materials),
      OverrideOpt(d.dataSource, a.dataSource), OverrideOpt(d.weatherInfo, a.weatherInfo),
      OverrideOpt(d.effectDescription, a.effectDescription), OverrideOpt(d.images, a.images),
      Override(d.createTime, a.createTime), now, OverrideOpt(d.remark, a.remark))
  }

  /** Sending the same update twice changes nothing the first did not. */
  lemma MergeActivityIdempotent(a: Activity, d: ActivityPatch, now: Time)
    ensures MergeActivity(MergeActivity(a, d, now), d, now) == MergeActivity(a, d, now)
  {
  }

  /** `activityList.findIndex(activity => activity.id === id)`. */
  function ActivityIndex(list: seq<Activity>, id: string): int {
    FindIndex(list, (a: Activity) => a.id == id)
  }

  function NotFoundMessage(id: string): string {
    "未找到ID为" + id + "的活动"
  }

  // ---- seed generator ----

  /** The random draws of one generated activity. */
  datatype ActivityChoices = ActivityChoices(
    uuid: string, typeChoice: nat, statusChoice: nat, sourceChoice: nat, fieldChoice: nat,
    sectionChoice: nat, createAge: nat, startDelay: nat, endDelay: nat, titleChoice: nat,
    materialCount: nat, materialPicks: seq<nat>, weatherPick: nat, temperature: nat, windPick: nat,
    effectPick: nat, imageCount: nat, imagePicks: seq<nat>, description: string, executor: string,
    remark: Option<string>)

  const Crops: seq<string> := ["水稻", "小麦", "玉米", "大豆", "土豆", "花生"]

  function Title(t: int, choice: nat): string {
    if t == PLANTING then Pick(Crops, choice) + "播种"
    else if t == FERTILIZING then Pick(["氮肥", "磷肥", "钾肥", "复合肥", "有机肥"], choice) + "施肥"
    else if t == IRRIGATION then Pick(["滴灌", "喷灌", "漫灌", "沟灌"], choice) + "灌溉"
    else if t == WEEDING then Pick(["人工", "机械", "化学"], choice) + "除草"
    else if t == PESTCONTROL then Pick(["杀虫剂", "杀菌剂", "除草剂"], choice) + "喷洒"
    else if t == HARVEST then Pick(Crops, choice) + "收获"
    else Pick(["土壤检测", "农田巡查", "设备维护", "技术培训"], choice)
  }

  const Materials: seq<string> := [
    "复合肥", "氮肥", "磷肥", "钾肥", "有机肥", "杀虫剂", "杀菌剂", "除草剂",
    "水稻种子", "小麦种子", "玉米种子", "大豆种子", "灌溉设备", "收割机", "播种机", "拖拉机"]

  const Effects: seq<string> := [
    "完成良好，作物生长情况正常", "效果明显，植物长势更强", "除虫/除草效果显著",
    "灌溉均匀，土壤湿度适宜", "收成良好，产量高于预期", "施肥均匀，植物吸收良好"]

  /** The `i`-th draw from `picks`, 0 when the draws run out. */
  function Draw(picks: seq<nat>, i: nat): nat {
    if i < |picks| then picks[i] else 0
  }

  function WeatherInfo(c: ActivityChoices): string {
    Pick(["晴朗", "多云", "阴天", "小雨", "中雨", "大雨"], c.weatherPick) + ", "
      + IntToString(PickInt(10, 35, c.temperature)) + "°C, " + Pick(["微风", "无风", "大风"], c.windPick)
  }

  function ImageUrl(pick: nat): string {
    "https://picsum.photos/id/" + IntToString(PickInt(1, 1000, pick)) + "/800/600"
  }

  /** One element of the seed `activityList`, built from its random draws. */
  function GenerateActivity(c: ActivityChoices, now: Time): (a: Activity)
    ensures a.activityType in ActivityTypes && a.status in ActivityStatuses
    ensures a.fieldId in SeedFieldIds
    ensures a.sectionId.None? <==> a.fieldId == "3"
    ensures a.sectionId.Some? ==> a.sectionId.value in SeedSectionIds(a.fieldId)
    ensures a.endTime.Some? <==> a.status != PLANNED
    ensures a.weatherInfo.Some? <==> a.status != PLANNED
    ensures a.effectDescription.Some? <==> a.status == COMPLETED
    ensures a.updateTime == (if a.endTime.Some? then a.endTime.value else a.createTime)
    ensures a.createTime < a.startTime && (a.endTime.Some? ==> a.startTime < a.endTime.value)
    ensures a.materials.Some? && |a.materials.value| <= 3
    ensures a.images.Some? && |a.images.value| <= 5
  {
    var t := Pick(ActivityTypes, c.typeChoice);
    var status := Pick(ActivityStatuses, c.statusChoice);
    var fieldId := Pick(SeedFieldIds, c.fieldChoice);
    var createTime := now - PickInt(1, 90 * DayMs, c.createAge);
    var startTime := createTime + PickInt(1, 7, c.startDelay) * DayMs;
    var endTime := if status != PLANNED then Some(startTime + PickInt(1, 10, c.endDelay) * DayMs) else None;
    var updateTime := if endTime.Some? then endTime.value else createTime;
    var materials := seq(PickInt(0, 3, c.materialCount), i requires 0 <= i => Pick(Materials, Draw(c.materialPicks, i)));
    var weather := if status != PLANNED then Some(WeatherInfo(c)) else None;
    var effect := if status == COMPLETED then Some(Pick(Effects, c.effectPick)) else None;
    var images := seq(PickInt(0, 5, c.imageCount), i requires 0 <= i => ImageUrl(Draw(c.imagePicks, i)));
    Activity(c.uuid, fieldId, PickSection(fieldId, c.sectionChoice), t, Title(t, c.titleChoice),
      Some(c.description), startTime, endTime, status, Some(c.executor), Some(materials),
      Some(Pick(DataSources, c.sourceChoice)), weather, effect, Some(images),
      createTime, updateTime, c.remark)
  }

  /** The seed list: `Array.from({ length: 50 }).map(generate)`. */
  function SeedActivities(choices: seq<ActivityChoices>, now: Time): (list: seq<Activity>)
    ensures |list| == |choices|
    ensures forall i :: 0 <= i < |list| ==> list[i] == GenerateActivity(choices[i], now)
  {
    seq(|choices|, i requires 0 <= i < |choices| => GenerateActivity(choices[i], now))
  }

  class ActivityStore {
    var activities: seq<Activity>

    constructor (choices: seq<ActivityChoices>, now: Time)
      requires |choices| == 50
      ensures activities == SeedActivities(choices, now)
    {
      activities := SeedActivities(choices, now);
    }

    /** `getActivityById`: the first activity with the id, or `undefined`. */
    function GetActivityById(id: string): (r: Option<Activity>)
      reads this
      ensures r.None? <==> forall i :: 0 <= i < |activities| ==> activities[i].id != id
      ensures r.Some? ==> r.value.id == id && r.value == activities[ActivityIndex(activities, id)]
    {
      var i := ActivityIndex(activities, id);
      if i == -1 then None else Some(activities[i])
    }

    /** `addActivity`: put the new record in front (`unshift`). */
    method AddActivity(data: ActivityDraft, uuid: string, now: Time) returns (a: Activity)
      modifies this
      ensures a == NewActivity(data, uuid, now)
      ensures activities == [a] + old(activities)
    {
      a := NewActivity(data, uuid, now);
      activities := [a] + activities;
    }

    /** `updateActivity`: merge into the record in place; throws for an unknown id. */
    method UpdateActivity(id: string, data: ActivityPatch, now: Time) returns (r: Result<Activity, string>)
      modifies this
      ensures var i := ActivityIndex(old(activities), id);
        if i == -1 then r == Failure(NotFoundMessage(id)) && activities == old(activities)
        else (r == Success(MergeActivity(old(activities)[i], data, now))
              && activities == old(activities)[i := r.value])
    {
      var i := ActivityIndex(activities, id);
      if i == -1 {
        return Failure(NotFoundMessage(id));
      }
      var updated := MergeActivity(activities[i], data, now);
      activities := activities[i := updated];
      r := Success(updated);
    }

    /** `deleteActivity`: `splice` out the first activity with the id; throws for an unknown id. */
    method DeleteActivity(id: string) returns (r: Result<bool, string>)
      modifies this
      ensures var i := ActivityIndex(old(activities), id);
        if i == -1 then r == Failure(NotFoundMessage(id)) && activities == old(activities)
        else r == Success(true) && activities == RemoveAt(old(activities), i)
    {
      var i := ActivityIndex(activities, id);
      if i == -1 {
        return Failure(NotFoundMessage(id));
      }
      activities := RemoveAt(activities, i);
      r := Success(true);
    }
  }
}
