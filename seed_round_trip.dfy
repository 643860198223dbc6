/**
 * What the value scan of `getCurrentPicklistValues` recovers from a seed
 * script written by `generatePicklistDDL`.  The scan selects lines by the
 * prefix `INSERT INTO <table>` only, so it also takes the rows of every
 * lookup table whose name extends `<table>`; and the greedy `(.+)` cannot
 * capture an empty value, so empty values are never recovered.
 */
module SeedRoundTrip {
  import opened Optional
  import opened Strings
  import opened Patterns
  import opened Naming
  import opened Metadata
  import opened Picklists

  /** A value free of line terminators. */
  predicate DotChars(v: string) {
    forall k :: 0 <= k < |v| ==> IsDotChar(v[k])
  }

  /** Names of word characters and values free of line terminators. */
  predicate WellFormedFields(fields: seq<Field>) {
    forall g :: g in fields ==> IsWord(g.name) && forall k :: 0 <= k < |g.picklistValues| ==> DotChars(g.picklistValues[k])
  }

  /** Some enumerated field whose lookup table name starts with `tableName` declares `v`. */
  predicate SeededUnder(objectName: string, fields: seq<Field>, tableName: string, v: string) {
    exists g, k :: g in fields && HasLookupTable(g) && StartsWith(LookupTableName(objectName, g.name), tableName)
      && 0 <= k < |g.picklistValues| && g.picklistValues[k] == v
  }

  /** A row of the seed script, as written for some field `g` and position `k`. */
  predicate SeedRowOf(objectName: string, fields: seq<Field>, line: string) {
    exists g, k :: g in fields && HasLookupTable(g) && 0 <= k < |g.picklistValues|
      && line == InsertLine(LookupTableName(objectName, g.name), k + 1, g.picklistValues[k])
  }

  predicate LowerWordChars(t: string) {
    forall k :: 0 <= k < |t| ==> IsLowerWordChar(t[k])
  }

  // ---------------------------------------------------------------------------
  // One seed row

  lemma InsertLineNoNewline(tableName: string, id: nat, v: string)
    requires LowerWordChars(tableName) && DotChars(v)
    ensures '\n' !in InsertLine(tableName, id, v)
  {
    var d := NatToString(id);
    assert forall k :: 0 <= k < |tableName| ==> tableName[k] != '\n';
    assert '\n' !in tableName;
    assert forall k :: 0 <= k < |d| ==> d[k] != '\n';
    assert '\n' !in d;
    assert forall k :: 0 <= k < |v| ==> v[k] != '\n';
    assert '\n' !in v;
  }

  /** The part of a row after its table name. */
  function RowTail(id: nat, v: string): string {
    " (id, value) VALUES (" + NatToString(id) + ", '" + v + "');"
  }

  lemma InsertLineSplit(tableName: string, id: nat, v: string)
    ensures InsertLine(tableName, id, v) == "INSERT INTO " + (tableName + RowTail(id, v))
  {
  }

  /** A row is selected for table `t` exactly when its own table name starts with `t`. */
  lemma InsertLineSelected(rowTable: string, tableName: string, id: nat, v: string)
    requires LowerWordChars(rowTable) && LowerWordChars(tableName)
    ensures StartsWith(InsertLine(rowTable, id, v), "INSERT INTO " + tableName) <==> StartsWith(rowTable, tableName)
  {
    var line := InsertLine(rowTable, id, v);
    var head := "INSERT INTO ";
    var x := rowTable + RowTail(id, v);
    InsertLineSplit(rowTable, id, v);
    assert StartsWith(line, head + tableName) <==> StartsWith(x, tableName) by {
      if StartsWith(x, tableName) {
        assert line[..|head + tableName|] == head + x[..|tableName|];
      }
      if StartsWith(line, head + tableName) {
        assert line[|head|..][..|tableName|] == tableName;
        assert line[|head|..] == x;
      }
    }
    if |tableName| <= |rowTable| {
      assert x[..|tableName|] == rowTable[..|tableName|];
    } else {
      assert x[|rowTable|] == ' ';
      assert IsLowerWordChar(tableName[|rowTable|]);
      assert tableName[|rowTable|] != x[|rowTable|];
    }
  }

  /** No `V` before a row's `VALUES`: the row's table name is lower-case. */
  lemma NoVBeforeValues(rowTable: string)
    requires LowerWordChars(rowTable)
    ensures 'V' !in "INSERT INTO " + rowTable + " (id, value) "
  {
    assert forall k :: 0 <= k < |rowTable| ==> rowTable[k] != 'V';
    assert 'V' !in rowTable;
  }

  /** No second `V` in the tail of a row holding an empty value. */
  lemma NoVAfterValues(digits: string)
    requires IsDigitString(digits)
    ensures 'V' !in "ALUES (" + digits + ", '');"
  {
    assert forall k :: 0 <= k < |digits| ==> digits[k] != 'V';
    assert 'V' !in digits;
  }

  /** Tail of a row from its `VALUES` on. */
  function ValuesPart(id: nat, v: string): string {
    "VALUES (" + NatToString(id) + ", '" + v + "');"
  }

  lemma RowMatchesValuesPart(rowTable: string, id: nat, v: string)
    requires LowerWordChars(rowTable)
    ensures MatchValues(InsertLine(rowTable, id, v)) == MatchValues(ValuesPart(id, v))
  {
    var pre := "INSERT INTO " + rowTable + " (id, value) ";
    assert InsertLine(rowTable, id, v) == pre + ValuesPart(id, v);
    NoVBeforeValues(rowTable);
    MatchValuesAfter(pre, ValuesPart(id, v));
  }

  lemma ValuesPartMatch(id: nat, v: string)
    requires |v| > 0 && DotChars(v)
    ensures MatchValues(ValuesPart(id, v)) == Some(v)
  {
    ValuesAtInsert(id, v);
    assert ValuesPart(id, v)[0..] == ValuesPart(id, v);
  }

  /** The `VALUES` pattern captures a row's value, unless the value is empty. */
  lemma InsertLineMatch(rowTable: string, id: nat, v: string)
    requires LowerWordChars(rowTable) && DotChars(v)
    ensures MatchValues(InsertLine(rowTable, id, v)) == if v == "" then None else Some(v)
  {
    RowMatchesValuesPart(rowTable, id, v);
    if v == "" {
      assert ValuesPart(id, v) == "VALUES (" + NatToString(id) + ", '');";
      EmptyValueNoMatch(NatToString(id));
    } else {
      ValuesPartMatch(id, v);
    }
  }

  lemma EmptyValueNoMatch(digits: string)
    requires IsDigitString(digits)
    ensures MatchValues("VALUES (" + digits + ", '');") == None
  {
    var rest := "VALUES (" + digits + ", '');";
    assert ValuesFrom(rest, 0) == ValuesFrom(rest, 1) by {
      ValuesAtEmptyQuote(digits);
      assert rest[0..] == rest;
    }
    assert ValuesFrom(rest, 1) == ValuesFrom(rest, |rest| + 1) by {
      var tail := "ALUES (" + digits + ", '');";
      NoVAfterValues(digits);
      assert rest == "V" + tail;
      assert forall j :: 1 <= j < |rest| ==> rest[j] == tail[j - 1];
      ValuesSkip(rest, 1, |rest| + 1);
    }
  }

  /** What the scan makes of one row. */
  lemma RowCollects(rowTable: string, tableName: string, id: nat, v: string, w: string)
    requires LowerWordChars(rowTable) && LowerWordChars(tableName) && DotChars(v)
    ensures Collects(InsertLine(rowTable, id, v), "INSERT INTO " + tableName, w)
      <==> StartsWith(rowTable, tableName) && v != "" && w == v
  {
    InsertLineSelected(rowTable, tableName, id, v);
    InsertLineMatch(rowTable, id, v);
  }

  // ---------------------------------------------------------------------------
  // The seed script's lines

  /** Every line of the seed script is a blank separator or a row of some field. */
  lemma {:induction false} SeedLinesAreRows(objectName: string, fields: seq<Field>, line: string)
    requires line in PicklistLines(objectName, fields)
    ensures line == "" || SeedRowOf(objectName, fields, line)
    decreases |fields|
  {
    if line in FieldSeedLines(objectName, fields[0]) {
      if line != "" {
        OwnLineIsRow(objectName, fields, fields[0], line);
      }
    } else {
      assert line in PicklistLines(objectName, fields[1..]);
      SeedLinesAreRows(objectName, fields[1..], line);
      if line != "" {
        RowOfSuffix(objectName, fields, line);
      }
    }
  }

  lemma OwnLineIsRow(objectName: string, fields: seq<Field>, f: Field, line: string)
    requires f in fields && line in FieldSeedLines(objectName, f) && line != ""
    ensures SeedRowOf(objectName, fields, line)
  {
    var t := LookupTableName(objectName, f.name);
    var rows := SeedRows(t, f.picklistValues, |f.picklistValues|);
    assert line in rows;
    var k :| 0 <= k < |rows| && rows[k] == line;
    assert line == InsertLine(t, k + 1, f.picklistValues[k]);
  }

  lemma RowOfSuffix(objectName: string, fields: seq<Field>, line: string)
    requires fields != [] && SeedRowOf(objectName, fields[1..], line)
    ensures SeedRowOf(objectName, fields, line)
  {
    var g, k :| g in fields[1..] && HasLookupTable(g) && 0 <= k < |g.picklistValues|
      && line == InsertLine(LookupTableName(objectName, g.name), k + 1, g.picklistValues[k]);
    assert g in fields;
  }

  /** Every row of every enumerated field is written. */
  lemma {:induction false} RowsAreSeedLines(objectName: string, fields: seq<Field>, g: Field, k: nat)
    requires g in fields && HasLookupTable(g) && k < |g.picklistValues|
    ensures InsertLine(LookupTableName(objectName, g.name), k + 1, g.picklistValues[k]) in PicklistLines(objectName, fields)
    decreases |fields|
  {
    var line := InsertLine(LookupTableName(objectName, g.name), k + 1, g.picklistValues[k]);
    if fields[0] == g {
      var rows := SeedRows(LookupTableName(objectName, g.name), g.picklistValues, |g.picklistValues|);
      assert rows[k] == line;
      assert line in FieldSeedLines(objectName, g);
    } else {
      RowsAreSeedLines(objectName, fields[1..], g, k);
    }
  }

  /** The seed script splits back into its lines and one trailing empty piece. */
  lemma SeedScriptLines(objectName: string, fields: seq<Field>)
    requires IsWord(objectName) && WellFormedFields(fields)
    ensures Split(PicklistDdl(objectName, fields), '\n') == PicklistLines(objectName, fields) + [""]
  {
    var lines := PicklistLines(objectName, fields);
    forall i | 0 <= i < |lines| ensures '\n' !in lines[i] {
      SeedLinesAreRows(objectName, fields, lines[i]);
      if lines[i] != "" {
        var g, k :| g in fields && HasLookupTable(g) && 0 <= k < |g.picklistValues|
          && lines[i] == InsertLine(LookupTableName(objectName, g.name), k + 1, g.picklistValues[k]);
        LookupTableNameIsLowerWord(objectName, g.name);
        InsertLineNoNewline(LookupTableName(objectName, g.name), k + 1, g.picklistValues[k]);
      }
    }
    SplitUnlines(lines, "");
    assert Unlines(lines) + "" == Unlines(lines);
  }

  // ---------------------------------------------------------------------------
  // The round trip

  /**
   * Scanning a freshly written seed script for the table of `fieldName`
   * recovers exactly the non-empty values declared by the enumerated fields
   * whose lookup table name starts with that table's name: the field's own
   * values and those of every table whose name extends it.
   */
  lemma SeedScanMembership(objectName: string, fields: seq<Field>, fieldName: string, v: string)
    requires IsWord(objectName) && IsWord(fieldName) && WellFormedFields(fields)
    ensures v in CurrentPicklistValues(Some(PicklistDdl(objectName, fields)), objectName, fieldName)
      <==> v != "" && SeededUnder(objectName, fields, LookupTableName(objectName, fieldName), v)
  {
    var all := PicklistLines(objectName, fields) + [""];
    var prefix := "INSERT INTO " + LookupTableName(objectName, fieldName);
    SeedScriptLines(objectName, fields);
    ScanMembership(all, prefix, v);
    assert v in CurrentPicklistValues(Some(PicklistDdl(objectName, fields)), objectName, fieldName)
      <==> exists i :: 0 <= i < |all| && Collects(all[i], prefix, v);
    if exists i :: 0 <= i < |all| && Collects(all[i], prefix, v) {
      var i :| 0 <= i < |all| && Collects(all[i], prefix, v);
      ScanSound(objectName, fields, fieldName, all[i], v);
    }
    if v != "" && SeededUnder(objectName, fields, LookupTableName(objectName, fieldName), v) {
      ScanComplete(objectName, fields, fieldName, v);
    }
  }

  /** A value the scan collects from a line of the script was seeded under the table. */
  lemma ScanSound(objectName: string, fields: seq<Field>, fieldName: string, line: string, v: string)
    requires IsWord(objectName) && IsWord(fieldName) && WellFormedFields(fields)
    requires line in PicklistLines(objectName, fields) + [""]
    requires Collects(line, "INSERT INTO " + LookupTableName(objectName, fieldName), v)
    ensures v != "" && SeededUnder(objectName, fields, LookupTableName(objectName, fieldName), v)
  {
    var t := LookupTableName(objectName, fieldName);
    LookupTableNameIsLowerWord(objectName, fieldName);
    assert line != "";
    assert line in PicklistLines(objectName, fields);
    SeedLinesAreRows(objectName, fields, line);
    var g, k :| g in fields && HasLookupTable(g) && 0 <= k < |g.picklistValues|
      && line == InsertLine(LookupTableName(objectName, g.name), k + 1, g.picklistValues[k]);
    LookupTableNameIsLowerWord(objectName, g.name);
    RowCollects(LookupTableName(objectName, g.name), t, k + 1, g.picklistValues[k], v);
  }

  /** Every non-empty value seeded under the table is on a line the scan collects it from. */
  lemma ScanComplete(objectName: string, fields: seq<Field>, fieldName: string, v: string)
    requires IsWord(objectName) && IsWord(fieldName) && WellFormedFields(fields)
    requires v != "" && SeededUnder(objectName, fields, LookupTableName(objectName, fieldName), v)
    ensures var all := PicklistLines(objectName, fields) + [""];
      exists i :: 0 <= i < |all| && Collects(all[i], "INSERT INTO " + LookupTableName(objectName, fieldName), v)
  {
    var lines := PicklistLines(objectName, fields);
    var all := lines + [""];
    var t := LookupTableName(objectName, fieldName);
    LookupTableNameIsLowerWord(objectName, fieldName);
    var g, k :| g in fields && HasLookupTable(g) && StartsWith(LookupTableName(objectName, g.name), t)
      && 0 <= k < |g.picklistValues| && g.picklistValues[k] == v;
    var row := InsertLine(LookupTableName(objectName, g.name), k + 1, v);
    RowsAreSeedLines(objectName, fields, g, k);
    var i :| 0 <= i < |lines| && lines[i] == row;
    assert all[i] == row;
    LookupTableNameIsLowerWord(objectName, g.name);
    RowCollects(LookupTableName(objectName, g.name), t, k + 1, v, v);
  }

  /**
   * When no other enumerated field's table name extends `f`'s and `f`
   * declares no empty value, the stored baseline is `f`'s value set, and
   * `generatePicklistUpdates` run right after `generatePicklistDDL` emits
   * nothing for `f`.
   */
  lemma FreshSeedNoUpdates(objectName: string, fields: seq<Field>, f: Field)
    requires IsWord(objectName) && WellFormedFields(fields)
    requires f in fields && HasLookupTable(f) && "" !in f.picklistValues
    requires forall g :: (g in fields && HasLookupTable(g)
               && StartsWith(LookupTableName(objectName, g.name), LookupTableName(objectName, f.name))) ==> g == f
    ensures forall v :: v in CurrentPicklistValues(Some(PicklistDdl(objectName, fields)), objectName, f.name)
                        <==> v in f.picklistValues
    ensures UpdateStmts(objectName, f, Some(PicklistDdl(objectName, fields))) == []
  {
    var baseline := CurrentPicklistValues(Some(PicklistDdl(objectName, fields)), objectName, f.name);
    var t := LookupTableName(objectName, f.name);
    forall v ensures v in baseline <==> v in f.picklistValues {
      SeedScanMembership(objectName, fields, f.name, v);
      if v in f.picklistValues {
        var k :| 0 <= k < |f.picklistValues| && f.picklistValues[k] == v;
        assert StartsWith(t, t);
        assert SeededUnder(objectName, fields, t, v);
      }
    }
    SameValuesNoStmts(t, f.picklistValues, baseline);
  }

  /**
   * A table whose name extends `f`'s leaks its values into `f`'s baseline:
   * each of them that `f` does not declare is deleted from `f`'s table.
   */
  lemma PrefixCollisionDeletes(objectName: string, fields: seq<Field>, f: Field, g: Field, k: nat)
    requires IsWord(objectName) && WellFormedFields(fields) && f in fields
    requires g in fields && HasLookupTable(g) && k < |g.picklistValues|
    requires StartsWith(LookupTableName(objectName, g.name), LookupTableName(objectName, f.name))
    requires g.picklistValues[k] != "" && g.picklistValues[k] !in f.picklistValues
    ensures DeleteValue(LookupTableName(objectName, f.name), g.picklistValues[k])
      in UpdateStmts(objectName, f, Some(PicklistDdl(objectName, fields)))
  {
    var v := g.picklistValues[k];
    var t := LookupTableName(objectName, f.name);
    assert SeededUnder(objectName, fields, t, v);
    SeedScanMembership(objectName, fields, f.name, v);
    DeleteMembership(t, f.picklistValues, CurrentPicklistValues(Some(PicklistDdl(objectName, fields)), objectName, f.name), v);
  }

  /** An empty value is never recovered, so every update run inserts it again. */
  lemma EmptyValueReinserted(objectName: string, fields: seq<Field>, f: Field)
    requires IsWord(objectName) && WellFormedFields(fields) && f in fields
    requires "" in f.picklistValues
    ensures InsertValue(LookupTableName(objectName, f.name), "")
      in UpdateStmts(objectName, f, Some(PicklistDdl(objectName, fields)))
  {
    var t := LookupTableName(objectName, f.name);
    SeedScanMembership(objectName, fields, f.name, "");
    InsertMembership(t, f.picklistValues, CurrentPicklistValues(Some(PicklistDdl(objectName, fields)), objectName, f.name), "");
  }
}
