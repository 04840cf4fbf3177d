/** The mock-backed create and delete handlers for equipment. */
module EquipmentApi {
  import opened Wrappers
  import opened Mock
  import opened Http
  import opened Seqs
  import opened EquipmentData

  const MissingParamsMessage: string := "缺少必要参数"
  const MissingIdMessage: string := "设备ID不能为空"
  const DeleteFailedMessage: string := "删除设备失败"

  /**
   * The guard of `POST /api/equipment/create`,
   * `!name || !type || !model || !serialNumber || !fieldId || status === undefined`,
   * and the record it passes to `addEquipment`.
   */
  function CheckEquipmentBody(b: EquipmentPatch): (r: Option<EquipmentDraft>)
    ensures r.None? <==> Falsy(b.name) || FalsyNum(b.equipmentType) || Falsy(b.model)
                         || Falsy(b.serialNumber) || Falsy(b.fieldId) || b.status.None?
    ensures r.Some? ==> r.value.equipmentType != 0 && Some(r.value.status) == b.status
    ensures r.Some? ==> r.value.id == b.id && Some(r.value.serialNumber) == b.serialNumber
  {
    if Falsy(b.name) || FalsyNum(b.equipmentType) || Falsy(b.model) || Falsy(b.serialNumber)
       || Falsy(b.fieldId) || b.status.None?
    then None
    else Some(EquipmentDraft(b.id, b.name.value, b.equipmentType.value, b.model.value, b.serialNumber.value,
      b.fieldId.value, b.sectionId, b.status.value, b.batteryLevel, b.lastReportTime, b.installTime,
      b.description, b.manufacturer, b.ipAddress, b.createTime, b.updateTime))
  }

  /**
   * `type` is tested for falsiness, so a TEMP_HUMIDITY_SENSOR (type 0) is
   * rejected, while `status` is tested against `undefined`, so ONLINE (0) passes.
   */
  lemma TypeZeroRejectedStatusZeroAccepted(b: EquipmentPatch)
    requires !Falsy(b.name) && !Falsy(b.model) && !Falsy(b.serialNumber) && !Falsy(b.fieldId)
    ensures CheckEquipmentBody(b.(equipmentType := Some(TEMP_HUMIDITY_SENSOR))).None?
    ensures CheckEquipmentBody(b.(equipmentType := Some(CAMERA), status := Some(ONLINE))).Some?
  {
  }

  /**
   * `POST /api/equipment/create`. No serial-number uniqueness check is made:
   * a record whose serial number is already in the list is added all the same.
   */
  method CreateEquipment(store: EquipmentStore, body: EquipmentPatch, uuid: string, now: Time)
    returns (reply: Reply<Equipment>)
    modifies store
    ensures CheckEquipmentBody(body).None? ==>
      reply == Error(400, MissingParamsMessage) && store.equipment == old(store.equipment)
    ensures CheckEquipmentBody(body).Some? ==>
      reply == Ok(NewEquipment(CheckEquipmentBody(body).value, uuid, now))
      && store.equipment == [reply.data] + old(store.equipment)
  {
    var draft := CheckEquipmentBody(body);
    if draft.None? {
      return Error(400, MissingParamsMessage);
    }
    var e := store.AddEquipment(draft.value, uuid, now);
    reply := Ok(e);
  }

  /** The body of `DELETE /api/equipment/delete`. */
  datatype DeleteBody = DeleteBody(id: Option<string>)

  /** `DELETE /api/equipment/delete`: 400 without an id, 500 when `deleteEquipment` throws. */
  method DeleteEquipment(store: EquipmentStore, body: DeleteBody) returns (reply: Reply<bool>)
    modifies store
    ensures Falsy(body.id) ==> reply == Error(400, MissingIdMessage) && store.equipment == old(store.equipment)
    ensures !Falsy(body.id) && EquipmentIndex(old(store.equipment), body.id.value) == -1 ==>
      reply == Error(500, DeleteFailedMessage) && store.equipment == old(store.equipment)
    ensures !Falsy(body.id) && EquipmentIndex(old(store.equipment), body.id.value) != -1 ==>
      reply == Ok(true)
      && store.equipment == RemoveAt(old(store.equipment), EquipmentIndex(old(store.equipment), body.id.value))
  {
    if Falsy(body.id) {
      return Error(400, MissingIdMessage);
    }
    var result := store.DeleteEquipment(body.id.value);
    match result
    case Failure(_) => reply := Error(500, DeleteFailedMessage);
    case Success(ok) => reply := Ok(ok);
  }
}
