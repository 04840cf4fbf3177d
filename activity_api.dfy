/** The mock-backed create and delete handlers for farming activities. */
module ActivityApi {
  import opened Wrappers
  import opened Mock
  import opened Http
  import opened Seqs
  import opened ActivityData

  const IncompleteMessage: string := "请提供完整的活动信息（大田ID、活动标题、活动类型、开始时间、活动状态是必填项）"
  const MissingIdMessage: string := "缺少活动ID"
  const DeleteFailedMessage: string := "删除活动失败"

  /**
   * The guard of `POST /api/activity/create`,
   * `!fieldId || !title || activityType === undefined || !startTime || status === undefined`,
   * and the record it passes to `addActivity`.
   */
  function CheckActivityBody(b: ActivityPatch): (r: Option<ActivityDraft>)
    ensures r.None? <==> Falsy(b.fieldId) || Falsy(b.title) || b.activityType.None?
                         || b.startTime.None? || b.status.None?
    ensures r.Some? ==> Some(r.value.activityType) == b.activityType && Some(r.value.status) == b.status
    ensures r.Some? ==> r.value.id == b.id && r.value.fieldId != "" && r.value.title != ""
  {
    if Falsy(b.fieldId) || Falsy(b.title) || b.activityType.None? || b.startTime.None? || b.status.None?
    then None
    else Some(ActivityDraft(b.id, b.fieldId.value, b.sectionId, b.activityType.value, b.title.value,
      b.description, b.startTime.value, b.endTime, b.status.value, b.executor, b.materials,
      b.dataSource, b.weatherInfo, b.effectDescription, b.images, b.createTime, b.updateTime, b.remark))
  }

  /** PLANTING (0) and PLANNED (0) pass the guard: those two are only tested against `undefined`. */
  lemma ZeroTypeAndStatusAccepted(b: ActivityPatch)
    requires !Falsy(b.fieldId) && !Falsy(b.title) && b.startTime.Some?
    ensures CheckActivityBody(b.(activityType := Some(PLANTING), status := Some(PLANNED))).Some?
  {
  }

  /** `POST /api/activity/create`. */
  method CreateActivity(store: ActivityStore, body: ActivityPatch, uuid: string, now: Time)
    returns (reply: Reply<Activity>)
    modifies store
    ensures CheckActivityBody(body).None? ==>
      reply == Error(400, IncompleteMessage) && store.activities == old(store.activities)
    ensures CheckActivityBody(body).Some? ==>
      reply == Ok(NewActivity(CheckActivityBody(body).value, uuid, now))
      && store.activities == [reply.data] + old(store.activities)
  {
    var draft := CheckActivityBody(body);
    if draft.None? {
      return Error(400, IncompleteMessage);
    }
    var a := store.AddActivity(draft.value, uuid, now);
    reply := Ok(a);
  }

  /** The body of `DELETE /api/activity/delete`. */
  datatype DeleteBody = DeleteBody(id: Option<string>)

  /** `DELETE /api/activity/delete`: 400 without an id, 500 when `deleteActivity` throws. */
  method DeleteActivity(store: ActivityStore, body: DeleteBody) returns (reply: Reply<bool>)
    modifies store
    ensures Falsy(body.id) ==> reply == Error(400, MissingIdMessage) && store.activities == old(store.activities)
    ensures !Falsy(body.id) && ActivityIndex(old(store.activities), body.id.value) == -1 ==>
      reply == Error(500, DeleteFailedMessage) && store.activities == old(store.activities)
    ensures !Falsy(body.id) && ActivityIndex(old(store.activities), body.id.value) != -1 ==>
      reply == Ok(true)
      && store.activities == RemoveAt(old(store.activities), ActivityIndex(old(store.activities), body.id.value))
  {
    if Falsy(body.id) {
      return Error(400, MissingIdMessage);
    }
    var result := store.DeleteActivity(body.id.value);
    match result
    case Failure(_) => reply := Error(500, DeleteFailedMessage);
    case Success(ok) => reply := Ok(ok);
  }
}
