/** How table, column and constraint names are derived from Salesforce API names. */
module Naming {
  import opened Strings

  /** `removeSuffix`: drops one trailing `__c`, the custom-object / custom-field marker. */
  function RemoveSuffix(name: string): (r: string)
    ensures StartsWith(name, r)
    ensures EndsWith(name, "__c") ==> r + "__c" == name
    ensures !EndsWith(name, "__c") ==> r == name
  {
    if EndsWith(name, "__c") then name[..|name| - 3] else name
  }

  /** `removeSuffix(name.toLowerCase())`: the derived table or column name. */
  function DeriveName(name: string): string {
    RemoveSuffix(Lower(name))
  }

  /** `<table>_<column>`: the lookup table of an enumerated field. */
  function LookupTableName(objectName: string, fieldName: string): string {
    DeriveName(objectName) + "_" + DeriveName(fieldName)
  }

  /** Only one marker is removed, so `removeSuffix` is not idempotent. */
  lemma RemoveSuffixNotIdempotent()
    ensures RemoveSuffix("a__c__c") == "a__c"
    ensures RemoveSuffix(RemoveSuffix("a__c__c")) == "a"
  {
    assert EndsWith("a__c__c", "__c");
    assert "a__c__c"[..4] == "a__c";
    assert EndsWith("a__c", "__c");
    assert "a__c"[..1] == "a";
  }

  /** A name of word characters derives to lower-case word characters. */
  lemma DeriveNameIsLowerWord(name: string)
    requires IsWord(name)
    ensures forall k :: 0 <= k < |DeriveName(name)| ==> IsLowerWordChar(DeriveName(name)[k])
    ensures |DeriveName(name)| > 0 ==> IsLowerWord(DeriveName(name))
  {
    var low := Lower(name);
    var d := DeriveName(name);
    forall k | 0 <= k < |d| ensures IsLowerWordChar(d[k]) {
      assert d[k] == low[k] == LowerChar(name[k]);
    }
  }

  /** A lookup-table name of word-character names is made of lower-case word characters. */
  lemma LookupTableNameIsLowerWord(objectName: string, fieldName: string)
    requires IsWord(objectName) && IsWord(fieldName)
    ensures IsLowerWord(LookupTableName(objectName, fieldName))
  {
    DeriveNameIsLowerWord(objectName);
    DeriveNameIsLowerWord(fieldName);
    var a, b := DeriveName(objectName), DeriveName(fieldName);
    var t := LookupTableName(objectName, fieldName);
    forall k | 0 <= k < |t| ensures IsLowerWordChar(t[k]) {
      if k < |a| {
        assert t[k] == a[k];
      } else if k > |a| {
        assert t[k] == b[k - |a| - 1];
      }
    }
  }
}
