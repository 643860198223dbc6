/**
 * `detectCustomRelationships`: the naming rule that guesses a custom object's
 * parent.  A custom object's API name ends in `__c`; the text before its first
 * `_` is taken as the parent's name, and reported when the org has an object
 * of that name.
 */
module MetadataFetcher {
  import opened Strings

  /** The first `_`-separated piece, `objectName.split("_")[0]`. */
  function FirstPart(objectName: string): string {
    Split(objectName, '_')[0]
  }

  /**
   * The relationships reported for `objectName`: none or one, and the one
   * is a known object, free of `_`, which `objectName` starts with followed
   * by `_`.
   */
  function CustomRelationships(objectName: string, allObjects: seq<string>): (r: seq<string>)
    ensures |r| <= 1
    ensures r != [] ==> EndsWith(objectName, "__c") && r[0] in allObjects
    ensures r != [] ==> '_' !in r[0] && StartsWith(objectName, r[0] + "_")
  {
    var parts := Split(objectName, '_');
    if |parts| > 1 && EndsWith(objectName, "__c") && parts[0] in allObjects then
      FirstPartPrecedesSeparator(objectName);
      [parts[0]]
    else []
  }

  /** `detectCustomRelationships`, with its conditional `push`. */
  method DetectCustomRelationships(objectName: string, allObjects: seq<string>) returns (relationships: seq<string>)
    ensures relationships == CustomRelationships(objectName, allObjects)
  {
    relationships := [];
    var parts := Split(objectName, '_');
    if |parts| > 1 && EndsWith(objectName, "__c") {
      var potentialParent := parts[0];
      if potentialParent in allObjects {
        relationships := relationships + [potentialParent];
      }
    }
  }

  /** A name ending in `__c` holds two separators, so it splits into at least three pieces. */
  lemma CustomSuffixGivesThreeParts(objectName: string)
    requires EndsWith(objectName, "__c")
    ensures |Split(objectName, '_')| >= 3
  {
    var stem := objectName[..|objectName| - 3];
    assert objectName == stem + "__c";
    CountAppend(stem, "__c", '_');
    assert Count("__c", '_') == 2 by {
      assert "__c"[1..] == "_c";
      assert "_c"[1..] == "c";
      assert "c"[1..] == "";
    }
    SplitLength(objectName, '_');
  }

  /** In a name ending in `__c`, the first piece is followed by a separator. */
  lemma FirstPartPrecedesSeparator(objectName: string)
    requires EndsWith(objectName, "__c")
    ensures StartsWith(objectName, FirstPart(objectName) + "_")
  {
    var p := FirstPart(objectName);
    assert objectName[|objectName| - 3] == "__c"[0];
    assert |p| < |objectName| by {
      assert objectName[..|p|] == p;
    }
    assert objectName[..|p| + 1] == p + "_" by {
      assert objectName[..|p|] == p;
    }
  }

  /** The text in front of the first `_` is the first piece. */
  lemma FirstPartIsPrefix(objectName: string, p: string)
    requires '_' !in p && StartsWith(objectName, p + "_")
    ensures FirstPart(objectName) == p
  {
    var rest := objectName[|p| + 1..];
    assert objectName == p + ['_'] + rest by {
      assert objectName[..|p| + 1] == p + "_";
    }
    SplitAfterSeparator(p, '_', rest);
  }

  /**
   * The converse: a `__c` name whose text before the first `_` is a known
   * object reports exactly that object.
   */
  lemma ParentDetected(objectName: string, allObjects: seq<string>, p: string)
    requires EndsWith(objectName, "__c")
    requires '_' !in p && StartsWith(objectName, p + "_") && p in allObjects
    ensures CustomRelationships(objectName, allObjects) == [p]
  {
    FirstPartIsPrefix(objectName, p);
    CustomSuffixGivesThreeParts(objectName);
  }

  /** A name without the `__c` suffix reports nothing, whatever the org holds. */
  lemma StandardObjectHasNoParent(objectName: string, allObjects: seq<string>)
    requires !EndsWith(objectName, "__c")
    ensures CustomRelationships(objectName, allObjects) == []
  {
  }
}
