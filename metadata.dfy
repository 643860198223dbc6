/**
 * The part of a Salesforce `DescribeSObjectResult` the schema code reads:
 * per field its API name, its type tag, its picklist values and its
 * reference targets.  An absent `picklistValues` or `referenceTo` is the
 * empty sequence: every use of them is guarded by a length test, under
 * which absent and empty behave alike.  Labels are not read by the core.
 */
module Metadata {
  import opened Optional

  datatype Field = Field(name: string, fieldType: string, picklistValues: seq<string>, referenceTo: seq<string>)

  /** A `picklist` with more than two values: a lookup table and an `_id` column. */
  predicate IsWidePicklist(f: Field) {
    f.fieldType == "picklist" && |f.picklistValues| > 2
  }

  /** A `picklist` or `multipicklist` with more than two values gets a lookup table. */
  predicate HasLookupTable(f: Field) {
    (f.fieldType == "picklist" || f.fieldType == "multipicklist") && |f.picklistValues| > 2
  }

  /**
   * The first reference target, when the field is a `reference`, has a target
   * and that first target is one of `allObjects`; later targets never matter.
   */
  function KnownTarget(f: Field, allObjects: seq<string>): Option<string> {
    if f.fieldType == "reference" && |f.referenceTo| > 0 && f.referenceTo[0] in allObjects
    then Some(f.referenceTo[0])
    else None
  }
}
