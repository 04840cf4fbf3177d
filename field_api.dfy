/** The mock-backed create handlers for fields and field sections. */
module FieldApi {
  import opened Wrappers
  import opened Mock
  import opened Http
  import opened FieldData

  /** The body of `POST /api/field/create`. */
  datatype FieldBody = FieldBody(
    name: Option<string>, address: Option<string>, manager: Option<string>, area: Option<int>,
    areaUnit: Option<string>, status: Option<int>, remark: Option<string>)

  /** The body of `POST /api/field/section/create`. */
  datatype SectionBody = SectionBody(
    fieldId: Option<string>, name: Option<string>, area: Option<int>, areaUnit: Option<string>,
    cropType: Option<string>, status: Option<int>, remark: Option<string>)

  const FieldIncompleteMessage: string := "请提供完整的大田信息"
  const SectionIncompleteMessage: string := "请提供完整的分区信息"
  const FieldMissingMessage: string := "大田信息不存在"

  /**
   * The guard `!name || !address || !manager || area === undefined`: the
   * record it lets through, or `None` when it answers 400.
   */
  function CheckFieldBody(b: FieldBody): (r: Option<FieldInfo>)
    ensures r.None? <==> Falsy(b.name) || Falsy(b.address) || Falsy(b.manager) || b.area.None?
    ensures r.Some? ==> r.value.name != "" && r.value.address != "" && r.value.manager != ""
    ensures r.Some? ==> Some(r.value.area) == b.area && r.value.areaUnit == b.areaUnit
  {
    if Falsy(b.name) || Falsy(b.address) || Falsy(b.manager) || b.area.None? then None
    else Some(FieldInfo(b.name.value, b.address.value, b.manager.value, b.area.value, b.areaUnit, b.status, b.remark))
  }

  /** The section guard `!fieldId || !name || area === undefined`. */
  function CheckSectionBody(b: SectionBody): (r: Option<SectionDraft>)
    ensures r.None? <==> Falsy(b.fieldId) || Falsy(b.name) || b.area.None?
    ensures r.Some? ==> Some(r.value.fieldId) == b.fieldId && r.value.fieldId != "" && r.value.info.name != ""
  {
    if Falsy(b.fieldId) || Falsy(b.name) || b.area.None? then None
    else Some(SectionDraft(b.fieldId.value,
      SectionInfo(b.name.value, b.area.value, b.areaUnit, b.cropType, b.status, b.remark)))
  }

  /** An area of 0 passes the guard: only `undefined` is rejected. */
  lemma ZeroAreaAccepted(b: FieldBody)
    requires !Falsy(b.name) && !Falsy(b.address) && !Falsy(b.manager)
    ensures CheckFieldBody(b.(area := Some(0))).Some?
  {
  }

  /** `POST /api/field/create`. */
  method CreateField(store: FieldStore, body: FieldBody, now: Time) returns (reply: Reply<Field>)
    modifies store
    ensures CheckFieldBody(body).None? ==>
      reply == Error(400, FieldIncompleteMessage) && store.fields == old(store.fields)
    ensures CheckFieldBody(body).Some? ==>
      reply == Ok(Field(NewFieldId(|old(store.fields)|), CheckFieldBody(body).value, Some(now), now, []))
      && store.fields == old(store.fields) + [reply.data]
  {
    var info := CheckFieldBody(body);
    if info.None? {
      return Error(400, FieldIncompleteMessage);
    }
    var field := store.AddField(info.value, now);
    reply := Ok(field);
  }

  /** `POST /api/field/section/create`: 400 before the parent lookup, then 404 for a missing parent. */
  method CreateSection(store: FieldStore, body: SectionBody, now: Time) returns (reply: Reply<Section>)
    modifies store
    ensures Falsy(body.fieldId) ==> reply.Error? && reply.code == 400
    ensures CheckSectionBody(body).None? ==>
      reply == Error(400, SectionIncompleteMessage) && store.fields == old(store.fields)
    ensures CheckSectionBody(body).Some? && FieldIndex(old(store.fields), body.fieldId.value) == -1 ==>
      reply == Error(404, FieldMissingMessage) && store.fields == old(store.fields)
    ensures CheckSectionBody(body).Some? && FieldIndex(old(store.fields), body.fieldId.value) != -1 ==>
      var i := FieldIndex(old(store.fields), body.fieldId.value);
      var parent := old(store.fields)[i];
      reply == Ok(Section(NewSectionId(parent.id, |parent.sections|), parent.id,
                          CheckSectionBody(body).value.info, Some(now), now))
      && store.fields == old(store.fields)[i := parent.(sections := parent.sections + [reply.data])]
  {
    var draft := CheckSectionBody(body);
    if draft.None? {
      return Error(400, SectionIncompleteMessage);
    }
    var section := store.AddFieldSection(draft.value, now);
    if section.None? {
      return Error(404, FieldMissingMessage);
    }
    reply := Ok(section.value);
  }
}
