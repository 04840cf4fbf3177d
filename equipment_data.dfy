/**
 * The in-memory equipment store: the module-level `equipmentList`, its
 * seed generator, and the functions that read and change it.
 */
module EquipmentData {
  import opened Wrappers
  import opened Strings
  import opened Seqs
  import opened Mock

  // EquipmentType
  const TEMP_HUMIDITY_SENSOR: int := 0
  const SOIL_MOISTURE_SENSOR: int := 1
  const LIGHT_SENSOR: int := 2
  const CO2_SENSOR: int := 3
  const CAMERA: int := 4
  const WEATHER_STATION: int := 5
  const IRRIGATION_CONTROLLER: int := 6
  const OTHER: int := 99

  /** The numeric members of `EquipmentType`, as `Object.values` lists them. */
  const EquipmentTypes: seq<int> := [0, 1, 2, 3, 4, 5, 6, 99]

  // EquipmentStatus
  const ONLINE: int := 0
  const OFFLINE: int := 1
  const FAULT: int := 2
  const MAINTENANCE: int := 3

  const EquipmentStatuses: seq<int> := [0, 1, 2, 3]

  /** The `Equipment` interface; `location` (floating point) is not modelled. */
  datatype Equipment = Equipment(
    id: string, name: string, equipmentType: int, model: string, serialNumber: string,
    fieldId: string, sectionId: Option<string>, status: int, batteryLevel: Option<int>,
    lastReportTime: Option<Time>, installTime: Option<Time>, description: Option<string>,
    manufacturer: Option<string>, ipAddress: Option<string>, createTime: Time, updateTime: Time)

  /** The argument of `addEquipment`; an `id` and timestamps may come with it. */
  datatype EquipmentDraft = EquipmentDraft(
    id: Option<string>, name: string, equipmentType: int, model: string, serialNumber: string,
    fieldId: string, sectionId: Option<string>, status: int, batteryLevel: Option<int>,
    lastReportTime: Option<Time>, installTime: Option<Time>, description: Option<string>,
    manufacturer: Option<string>, ipAddress: Option<string>,
    createTime: Option<Time>, updateTime: Option<Time>)

  /** The argument of `updateEquipment`: any subset of the properties. */
  datatype EquipmentPatch = EquipmentPatch(
    id: Option<string>, name: Option<string>, equipmentType: Option<int>, model: Option<string>,
    serialNumber: Option<string>, fieldId: Option<string>, sectionId: Option<string>,
    status: Option<int>, batteryLevel: Option<int>, lastReportTime: Option<Time>,
    installTime: Option<Time>, description: Option<string>, manufacturer: Option<string>,
    ipAddress: Option<string>, createTime: Option<Time>, updateTime: Option<Time>)

  /** `{ id, ...data, createTime: now, updateTime: now }`. */
  function NewEquipment(data: EquipmentDraft, uuid: string, now: Time): (e: Equipment)
    ensures e.id == (if data.id.Some? then data.id.value else uuid)
    ensures e.createTime == now && e.updateTime == now
    ensures e.name == data.name && e.equipmentType == data.equipmentType && e.status == data.status
    ensures e.fieldId == data.fieldId && e.serialNumber == data.serialNumber
    ensures e.model == data.model && e.sectionId == data.sectionId
    ensures e.batteryLevel == data.batteryLevel && e.lastReportTime == data.lastReportTime
    ensures e.installTime == data.installTime && e.description == data.description
    ensures e.manufacturer == data.manufacturer && e.ipAddress == data.ipAddress
  {
    Equipment(data.id.GetOr(uuid), data.name, data.equipmentType, data.model, data.serialNumber,
      data.fieldId, data.sectionId, data.status, data.batteryLevel, data.lastReportTime,
      data.installTime, data.description, data.manufacturer, data.ipAddress, now, now)
  }

  /** A property after `{...old, ...data}`: the supplied value, else the old one. */
  function Override<T>(supplied: Option<T>, current: T): T {
    if supplied.Some? then supplied.value else current
  }

  /** An optional property after `{...old, ...data}`. */
  function OverrideOpt<T>(supplied: Option<T>, current: Option<T>): Option<T> {
    if supplied.Some? then supplied else current
  }

  /**
   * `{ ...old, ...data, updateTime: now }`: every supplied property
   * overrides, every omitted one keeps its old value, and `updateTime`
   * is `now` whatever the patch says.
   */
  function MergeEquipment(e: Equipment, data: EquipmentPatch, now: Time): (r: Equipment)
    ensures r.updateTime == now
    ensures data.id.Some? ==> r.id == data.id.value
    ensures data.id.None? ==> r.id == e.id
    ensures data.name.Some? ==> r.name == data.name.value
    ensures data.name.None? ==> r.name == e.name
    ensures data.equipmentType.Some? ==> r.equipmentType == data.equipmentType.value
    ensures data.equipmentType.None? ==> r.equipmentType == e.equipmentType
    ensures data.model.Some? ==> r.model == data.model.value
    ensures data.model.None? ==> r.model == e.model
    ensures data.serialNumber.Some? ==> r.serialNumber == data.serialNumber.value
    ensures data.serialNumber.None? ==> r.serialNumber == e.serialNumber
    ensures data.fieldId.Some? ==> r.fieldId == data.fieldId.value
    ensures data.fieldId.None? ==> r.fieldId == e.fieldId
    ensures data.sectionId.Some? ==> r.sectionId == data.sectionId
    ensures data.sectionId.None? ==> r.sectionId == e.sectionId
    ensures data.status.Some? ==> r.status == data.status.value
    ensures data.status.None? ==> r.status == e.status
    ensures data.batteryLevel.Some? ==> r.batteryLevel == data.batteryLevel
    ensures data.batteryLevel.None? ==> r.batteryLevel == e.batteryLevel
    ensures data.lastReportTime.Some? ==> r.lastReportTime == data.lastReportTime
    ensures data.lastReportTime.None? ==> r.lastReportTime == e.lastReportTime
    ensures data.installTime.Some? ==> r.installTime == data.installTime
    ensures data.installTime.None? ==> r.installTime == e.installTime
    ensures data.description.Some? ==> r.description == data.description
    ensures data.description.None? ==> r.description == e.description
    ensures data.manufacturer.Some? ==> r.manufacturer == data.manufacturer
    ensures data.manufacturer.None? ==> r.manufacturer == e.manufacturer
    ensures data.ipAddress.Some? ==> r.ipAddress == data.ipAddress
    ensures data.ipAddress.None? ==> r.ipAddress == e.ipAddress
    ensures data.createTime.Some? ==> r.createTime == data.createTime.value
    ensures data.createTime.None? ==> r.createTime == e.createTime
    ensures data == EquipmentPatch(None, None, None, None, None, None, None, None, None, None, None, None, None, None, None, None)
      ==> r == e.(updateTime := now)
  {
    Equipment(
      Override(data.id, e.id), Override(data.name, e.name),
      Override(data.equipmentType, e.equipmentType), Override(data.model, e.model),
      Override(data.serialNumber, e.serialNumber), Override(data.fieldId, e.fieldId),
      OverrideOpt(data.sectionId, e.sectionId), Override(data.status, e.status),
      OverrideOpt(data.batteryLevel, e.batteryLevel), OverrideOpt(data.lastReportTime, e.lastReportTime),
      OverrideOpt(data.installTime, e.installTime), OverrideOpt(data.description, e.description),
      OverrideOpt(data.manufacturer, e.manufacturer), OverrideOpt(data.ipAddress, e.ipAddress),
      Override(data.createTime, e.createTime), now)
  }

  /** Sending the same update twice changes nothing the first did not. */
  lemma MergeEquipmentIdempotent(e: Equipment, data: EquipmentPatch, now: Time)
    ensures MergeEquipment(MergeEquipment(e, data, now), data, now) == MergeEquipment(e, data, now)
  {
  }

  /** `equipmentList.findIndex(equipment => equipment.id === id)`. */
  function EquipmentIndex(list: seq<Equipment>, id: string): int {
    FindIndex(list, (e: Equipment) => e.id == id)
  }

  function NotFoundMessage(id: string): string {
    "未找到ID为" + id + "的设备"
  }

  // ---- seed generator ----

  /** The random draws of one generated record. */
  datatype EquipmentChoices = EquipmentChoices(
    uuid: string, typeChoice: nat, statusChoice: nat, fieldChoice: nat, sectionChoice: nat,
    installAge: nat, reportAge: nat, battery: Option<nat>, nameSuffix: string,
    modelChoice: nat, manufacturerChoice: nat, serialNumber: string,
    description: Option<string>, ipAddress: Option<string>)

  function NamePrefix(t: int): string {
    if t == TEMP_HUMIDITY_SENSOR then "温湿度传感器-"
    else if t == SOIL_MOISTURE_SENSOR then "土壤湿度传感器-"
    else if t == LIGHT_SENSOR then "光照传感器-"
    else if t == CO2_SENSOR then "CO2传感器-"
    else if t == CAMERA then "摄像头-"
    else if t == WEATHER_STATION then "气象站-"
    else if t == IRRIGATION_CONTROLLER then "灌溉控制器-"
    else "其他设备-"
  }

  /** `models[type] || models[EquipmentType.OTHER]`. */
  function ModelsFor(t: int): (ms: seq<string>)
    ensures |ms| == 5
  {
    if t == TEMP_HUMIDITY_SENSOR then ["TH-100", "TH-200", "TH-300", "SHT31", "DHT22"]
    else if t == SOIL_MOISTURE_SENSOR then ["SM-100", "SM-200", "SM-300", "EC-5", "TEROS-12"]
    else if t == LIGHT_SENSOR then ["LS-100", "LS-200", "LS-300", "TSL2591", "BH1750"]
    else if t == CO2_SENSOR then ["CO2-100", "CO2-200", "CO2-300", "MH-Z19B", "SCD30"]
    else if t == CAMERA then ["CAM-100", "CAM-200", "CAM-300", "ESP32-CAM", "Pi-CAM"]
    else if t == WEATHER_STATION then ["WS-100", "WS-200", "WS-300", "Davis-VP2", "MeteoHelix"]
    else if t == IRRIGATION_CONTROLLER then ["IC-100", "IC-200", "IC-300", "Hunter-Pro", "Rainbird"]
    else ["OT-100", "OT-200", "OT-300", "Generic-1", "Generic-2"]
  }

  const Manufacturers: seq<string> := ["智农科技", "农业物联", "田野智能", "绿色科技", "智慧农场", "科技农业", "数字农场"]

  /** One element of the seed `equipmentList`, built from its random draws. */
  function GenerateEquipment(c: EquipmentChoices, now: Time): (e: Equipment)
    ensures e.equipmentType in EquipmentTypes && e.status in EquipmentStatuses
    ensures e.fieldId in SeedFieldIds
    ensures e.sectionId.None? <==> e.fieldId == "3"
    ensures e.sectionId.Some? ==> e.sectionId.value in SeedSectionIds(e.fieldId)
    ensures e.installTime == Some(e.createTime) && e.createTime < now
    ensures e.lastReportTime == Some(e.updateTime) && e.updateTime <= now
    ensures now - e.updateTime <= (if e.status == ONLINE then DayMs else 7 * DayMs)
    ensures e.batteryLevel.Some? ==> 1 <= e.batteryLevel.value <= 100
    ensures e.model in ModelsFor(e.equipmentType)
    ensures StartsWith(e.name, NamePrefix(e.equipmentType))
    ensures e.manufacturer.Some? && e.manufacturer.value in Manufacturers
  {
    var t := Pick(EquipmentTypes, c.typeChoice);
    var status := Pick(EquipmentStatuses, c.statusChoice);
    var fieldId := Pick(SeedFieldIds, c.fieldChoice);
    var installTime := now - PickInt(1, 365 * DayMs, c.installAge);
    var lastReportTime := now - PickInt(0, if status == ONLINE then DayMs else 7 * DayMs, c.reportAge);
    var battery := if c.battery.Some? then Some(PickInt(1, 100, c.battery.value)) else None;
    var name := NamePrefix(t) + ToUpper(c.nameSuffix);
    assert (NamePrefix(t) + ToUpper(c.nameSuffix))[..|NamePrefix(t)|] == NamePrefix(t);
    Equipment(c.uuid, name, t, Pick(ModelsFor(t), c.modelChoice), ToUpper(c.serialNumber),
      fieldId, PickSection(fieldId, c.sectionChoice), status, battery, Some(lastReportTime),
      Some(installTime), c.description, Some(Pick(Manufacturers, c.manufacturerChoice)),
      c.ipAddress, installTime, lastReportTime)
  }

  /** The seed list: `Array.from({ length: 30 }).map(generate)`. */
  function SeedEquipment(choices: seq<EquipmentChoices>, now: Time): (list: seq<Equipment>)
    ensures |list| == |choices|
    ensures forall i :: 0 <= i < |list| ==> list[i] == GenerateEquipment(choices[i], now)
  {
    seq(|choices|, i requires 0 <= i < |choices| => GenerateEquipment(choices[i], now))
  }

  class EquipmentStore {
    var equipment: seq<Equipment>

    constructor (choices: seq<EquipmentChoices>, now: Time)
      requires |choices| == 30
      ensures equipment == SeedEquipment(choices, now)
    {
      equipment := SeedEquipment(choices, now);
    }

    /** `getEquipmentById`: the first record with the id, or `undefined`. */
    function GetEquipmentById(id: string): (r: Option<Equipment>)
      reads this
      ensures r.None? <==> forall i :: 0 <= i < |equipment| ==> equipment[i].id != id
      ensures r.Some? ==> r.value.id == id && r.value == equipment[EquipmentIndex(equipment, id)]
    {
      var i := EquipmentIndex(equipment, id);
      if i == -1 then None else Some(equipment[i])
    }

    /** `addEquipment`: put the new record in front (`unshift`). */
    method AddEquipment(data: EquipmentDraft, uuid: string, now: Time) returns (e: Equipment)
      modifies this
      ensures e == NewEquipment(data, uuid, now)
      ensures equipment == [e] + old(equipment)
    {
      e := NewEquipment(data, uuid, now);
      equipment := [e] + equipment;
    }

    /** `updateEquipment`: merge into the record in place; throws for an unknown id. */
    method UpdateEquipment(id: string, data: EquipmentPatch, now: Time) returns (r: Result<Equipment, string>)
      modifies this
      ensures var i := EquipmentIndex(old(equipment), id);
        if i == -1 then r == Failure(NotFoundMessage(id)) && equipment == old(equipment)
        else (r == Success(MergeEquipment(old(equipment)[i], data, now))
              && equipment == old(equipment)[i := r.value])
    {
      var i := EquipmentIndex(equipment, id);
      if i == -1 {
        return Failure(NotFoundMessage(id));
      }
      var updated := MergeEquipment(equipment[i], data, now);
      equipment := equipment[i := updated];
      r := Success(updated);
    }

    /** `deleteEquipment`: `splice` out the first record with the id; throws for an unknown id. */
    method DeleteEquipment(id: string) returns (r: Result<bool, string>)
      modifies this
      ensures var i := EquipmentIndex(old(equipment), id);
        if i == -1 then r == Failure(NotFoundMessage(id)) && equipment == old(equipment)
        else r == Success(true) && equipment == RemoveAt(old(equipment), i)
    {
      var i := EquipmentIndex(equipment, id);
      if i == -1 {
        return Failure(NotFoundMessage(id));
      }
      equipment := RemoveAt(equipment, i);
      r := Success(true);
    }
  }
}
