/**
 * The in-memory field store: the module-level `fieldList`, each field
 * holding its own `sections` list, and the functions that read and change it.
 */
module FieldData {
  import opened Wrappers
  import opened Strings
  import opened Seqs
  import opened Mock

  /** The properties of a section that the store copies from the request. */
  datatype SectionInfo = SectionInfo(
    name: string, area: int, areaUnit: Option<string>, cropType: Option<string>,
    status: Option<int>, remark: Option<string>)

  datatype Section = Section(
    id: string, fieldId: string, info: SectionInfo, createTime: Option<Time>, updateTime: Time)

  /** The properties of a field that the store copies from the request. */
  datatype FieldInfo = FieldInfo(
    name: string, address: string, manager: string, area: int,
    areaUnit: Option<string>, status: Option<int>, remark: Option<string>)

  datatype Field = Field(
    id: string, info: FieldInfo, createTime: Option<Time>, updateTime: Time, sections: seq<Section>)

  /** The argument of `updateField`: a whole field record as the client sends it. */
  datatype FieldUpdate = FieldUpdate(id: string, info: FieldInfo, createTime: Option<Time>)

  /** The argument of `addFieldSection`. */
  datatype SectionDraft = SectionDraft(fieldId: string, info: SectionInfo)

  /** The argument of `updateFieldSection`. */
  datatype SectionUpdate = SectionUpdate(id: string, fieldId: string, info: SectionInfo, createTime: Option<Time>)

  /** `fieldList.findIndex(item => item.id === id)`. */
  function FieldIndex(fields: seq<Field>, id: string): int {
    FindIndex(fields, (f: Field) => f.id == id)
  }

  /** `field.sections.findIndex(item => item.id === id)`. */
  function SectionIndex(sections: seq<Section>, id: string): int {
    FindIndex(sections, (s: Section) => s.id == id)
  }

  /** The id `addField` gives: `String(fieldList.length + 1)`. */
  function NewFieldId(count: nat): (id: string)
    ensures ParseDecimal(id) == Some(count + 1)
    ensures |id| > 1 ==> id[0] != '0'
  {
    ParseNatToString(count + 1);
    NatToString(count + 1)
  }

  /**
   * The id `addFieldSection` gives: the field's id followed by
   * `String(sections.length + 1).padStart(2, '0')`.
   */
  function NewSectionId(fieldId: string, count: nat): (id: string)
    ensures StartsWith(id, fieldId)
    ensures |id| >= |fieldId| + 2
    ensures ParseDecimal(id[|fieldId|..]) == Some(count + 1)
    ensures |id| > |fieldId| + 2 ==> id[|fieldId|] != '0'
  {
    var digits := NatToString(count + 1);
    var suffix := PadStart(digits, 2, '0');
    PadNatToString(count + 1, 2);
    assert (fieldId + suffix)[|fieldId|..] == suffix;
    assert |suffix| > 2 ==> suffix == digits;
    fieldId + suffix
  }

  /** The contract of `NewFieldId` fixes its spelling: any id meeting it is that one. */
  lemma NewFieldIdSpelling(count: nat, id: string)
    requires ParseDecimal(id) == Some(count + 1)
    requires |id| > 1 ==> id[0] != '0'
    ensures id == NewFieldId(count)
  {
    CanonicalDigits(id);
  }

  /** The contract of `NewSectionId` fixes its spelling: any id meeting it is that one. */
  lemma NewSectionIdSpelling(fieldId: string, count: nat, id: string)
    requires StartsWith(id, fieldId) && |id| >= |fieldId| + 2
    requires ParseDecimal(id[|fieldId|..]) == Some(count + 1)
    requires |id| > |fieldId| + 2 ==> id[|fieldId|] != '0'
    ensures id == NewSectionId(fieldId, count)
  {
    var t := id[|fieldId|..];
    PaddedDigitsUnique(t, 2);
    assert id == fieldId + t;
  }

  /** The index of the first field holding a section with id `id`, or -1. */
  function SectionOwner(fields: seq<Field>, id: string): int {
    FindIndex(fields, (f: Field) => SectionIndex(f.sections, id) != -1)
  }

  /** Ids as the seed and `addField` alone produce them: position + 1. */
  ghost predicate PositionalIds(fields: seq<Field>) {
    forall i :: 0 <= i < |fields| ==> fields[i].id == NatToString(i + 1)
  }

  /** As long as no field is deleted, `addField` gives a fresh id and keeps ids positional. */
  lemma NewFieldIdFresh(fields: seq<Field>, f: Field)
    requires PositionalIds(fields)
    requires f.id == NewFieldId(|fields|)
    ensures FieldIndex(fields, f.id) == -1
    ensures PositionalIds(fields + [f])
  {
    forall i | 0 <= i < |fields|
      ensures fields[i].id != f.id
    {
      if fields[i].id == f.id {
        NatToStringInjective(i + 1, |fields| + 1);
      }
    }
  }

  /**
   * After deleting any field but the last from a positional list, the
   * length-derived id `addField` would give next is the id of the last
   * field, which is still in the list.
   */
  lemma FieldIdRepeatsAfterDelete(fields: seq<Field>, i: nat)
    requires PositionalIds(fields) && i + 1 < |fields|
    ensures var rest := RemoveAt(fields, i);
      NewFieldId(|rest|) == fields[|fields| - 1].id
      && FieldIndex(rest, NewFieldId(|rest|)) != -1
  {
    var rest := RemoveAt(fields, i);
    assert rest[|rest| - 1] == fields[|fields| - 1];
  }

  class FieldStore {
    var fields: seq<Field>

    constructor (initial: seq<Field>)
      ensures fields == initial
    {
      fields := initial;
    }

    /** `getFieldById`: the first field with the id, or `undefined`. */
    function GetFieldById(id: string): (r: Option<Field>)
      reads this
      ensures r.None? <==> forall i :: 0 <= i < |fields| ==> fields[i].id != id
      ensures r.Some? ==> r.value.id == id && r.value == fields[FieldIndex(fields, id)]
    {
      var i := FieldIndex(fields, id);
      if i == -1 then None else Some(fields[i])
    }

    /** `getFieldSections`: the sections of the field, `[]` for an unknown id. */
    function GetFieldSections(fieldId: string): (r: seq<Section>)
      reads this
      ensures (forall i :: 0 <= i < |fields| ==> fields[i].id != fieldId) ==> r == []
      ensures FieldIndex(fields, fieldId) >= 0 ==> r == fields[FieldIndex(fields, fieldId)].sections
    {
      match GetFieldById(fieldId)
      case Some(f) => f.sections
      case None => []
    }

    /** `addField`: append a new field with a length-derived id and no sections. */
    method AddField(info: FieldInfo, now: Time) returns (f: Field)
      modifies this
      ensures f == Field(NewFieldId(|old(fields)|), info, Some(now), now, [])
      ensures fields == old(fields) + [f]
    {
      f := Field(NewFieldId(|fields|), info, Some(now), now, []);
      fields := fields + [f];
    }

    /** `updateField`: replace the first field with the id, keeping its sections. */
    method UpdateField(input: FieldUpdate, now: Time) returns (r: Option<Field>)
      modifies this
      ensures var i := FieldIndex(old(fields), input.id);
        if i == -1 then r.None? && fields == old(fields)
        else (r == Some(Field(input.id, input.info, input.createTime, now, old(fields)[i].sections))
              && fields == old(fields)[i := r.value])
    {
      var i := FieldIndex(fields, input.id);
      if i == -1 {
        r := None;
      } else {
        var updated := Field(input.id, input.info, input.createTime, now, fields[i].sections);
        fields := fields[i := updated];
        r := Some(updated);
      }
    }

    /** `deleteField`: remove the first field with the id. */
    method DeleteField(id: string) returns (removed: bool)
      modifies this
      ensures removed <==> FieldIndex(old(fields), id) != -1
      ensures fields == if removed then RemoveAt(old(fields), FieldIndex(old(fields), id)) else old(fields)
    {
      var i := FieldIndex(fields, id);
      if i == -1 {
        removed := false;
      } else {
        fields := RemoveAt(fields, i);
        removed := true;
      }
    }

    /** `addFieldSection`: append a section to the parent field, or `null` when it is missing. */
    method AddFieldSection(input: SectionDraft, now: Time) returns (r: Option<Section>)
      modifies this
      ensures var i := FieldIndex(old(fields), input.fieldId);
        if i == -1 then r.None? && fields == old(fields)
        else
          var parent := old(fields)[i];
          r == Some(Section(NewSectionId(parent.id, |parent.sections|), input.fieldId, input.info, Some(now), now))
          && fields == old(fields)[i := parent.(sections := parent.sections + [r.value])]
    {
      var i := FieldIndex(fields, input.fieldId);
      if i == -1 {
        r := None;
      } else {
        var parent := fields[i];
        var section := Section(NewSectionId(parent.id, |parent.sections|), input.fieldId, input.info, Some(now), now);
        fields := fields[i := parent.(sections := parent.sections + [section])];
        r := Some(section);
      }
    }

    /**
     * `updateFieldSection`: replace the section with the id inside the field
     * named by `input.fieldId` only.
     */
    method UpdateFieldSection(input: SectionUpdate, now: Time) returns (r: Option<Section>)
      modifies this
      ensures var i := FieldIndex(old(fields), input.fieldId);
        var j := if i == -1 then -1 else SectionIndex(old(fields)[i].sections, input.id);
        if j == -1 then r.None? && fields == old(fields)
        else
          var parent := old(fields)[i];
          r == Some(Section(input.id, input.fieldId, input.info, input.createTime, now))
          && fields == old(fields)[i := parent.(sections := parent.sections[j := r.value])]
    {
      var i := FieldIndex(fields, input.fieldId);
      if i == -1 {
        r := None;
      } else {
        var parent := fields[i];
        var j := SectionIndex(parent.sections, input.id);
        if j == -1 {
          r := None;
        } else {
          var section := Section(input.id, input.fieldId, input.info, input.createTime, now);
          fields := fields[i := parent.(sections := parent.sections[j := section])];
          r := Some(section);
        }
      }
    }

    /**
     * `deleteFieldSection`: scan the fields in order and remove the first
     * section with the id from the first field that has one.
     */
    method DeleteFieldSection(id: string) returns (removed: bool)
      modifies this
      ensures var k := SectionOwner(old(fields), id);
        removed == (k != -1)
        && fields == if k == -1 then old(fields)
                     else old(fields)[k := old(fields)[k].(sections :=
                            RemoveAt(old(fields)[k].sections, SectionIndex(old(fields)[k].sections, id)))]
    {
      var k := 0;
      while k < |fields|
        invariant 0 <= k <= |fields|
        invariant fields == old(fields)
        invariant forall j :: 0 <= j < k ==> SectionIndex(fields[j].sections, id) == -1
      {
        var field := fields[k];
        var index := SectionIndex(field.sections, id);
        if index != -1 {
          assert SectionOwner(fields, id) == k;
          fields := fields[k := field.(sections := RemoveAt(field.sections, index))];
          return true;
        }
        k := k + 1;
      }
      removed := false;
    }
  }
}
