/**
 * Shared vocabulary of the mock stores: timestamps, and the faker choices
 * the seed generators make, taken here as parameters.
 */
module Mock {
  import opened Wrappers

  /** A timestamp in milliseconds (the ISO strings of the mock, as numbers). */
  type Time = int

  const DayMs: int := 86_400_000

  /** `faker.helpers.arrayElement(options)`, driven by an external choice. */
  function Pick<T>(options: seq<T>, choice: nat): (r: T)
    requires |options| > 0
    ensures r in options
  {
    options[choice % |options|]
  }

  /** `faker.number.int({ min, max })`, driven by an external choice. */
  function PickInt(min: int, max: int, choice: nat): (r: int)
    requires min <= max
    ensures min <= r <= max
  {
    min + choice % (max - min + 1)
  }

  /** The field ids the generators draw from. */
  const SeedFieldIds: seq<string> := ["1", "2", "3", "4", "5"]

  /** The section ids a generated record of field `fieldId` may use (the `switch (fieldId)`). */
  function SeedSectionIds(fieldId: string): seq<string> {
    match fieldId
    case "1" => ["101", "102", "103"]
    case "2" => ["201", "202"]
    case "4" => ["401", "402"]
    case "5" => ["501"]
    case _ => []
  }

  /** The `sectionId` a generator assigns: one of the field's ids, or `undefined`. */
  function PickSection(fieldId: string, choice: nat): (r: Option<string>)
    ensures r.None? <==> fieldId !in {"1", "2", "4", "5"}
    ensures r.Some? ==> r.value in SeedSectionIds(fieldId)
  {
    var ids := SeedSectionIds(fieldId);
    if ids == [] then None else Some(Pick(ids, choice))
  }
}
