/**
 * The enumerated-value side of the schema: `generatePicklistDDL` seeds every
 * lookup table with positional ids, the line scan of `getCurrentPicklistValues`
 * reads the values back from a previously written seed script, and
 * `generatePicklistUpdates` turns the difference between the current values
 * and that baseline into `INSERT` and `DELETE` statements.
 */
module Picklists {
  import opened Optional
  import opened Strings
  import opened Patterns
  import opened Naming
  import opened Metadata

  // ---------------------------------------------------------------------------
  // generatePicklistDDL

  /** One seed row, without its line terminator. */
  function InsertLine(tableName: string, id: nat, value: string): string {
    "INSERT INTO " + tableName + " (id, value) VALUES (" + NatToString(id) + ", '" + value + "');"
  }

  /** The first `n` seed rows of a lookup table: value `k` gets id `k + 1`. */
  function SeedRows(tableName: string, values: seq<string>, n: nat): (rows: seq<string>)
    requires n <= |values|
  {
    seq(n, k requires 0 <= k < n => InsertLine(tableName, k + 1, values[k]))
  }

  /** The lines one field contributes: its seed rows and a blank line, or nothing. */
  function FieldSeedLines(objectName: string, f: Field): seq<string> {
    if HasLookupTable(f) then
      SeedRows(LookupTableName(objectName, f.name), f.picklistValues, |f.picklistValues|) + [""]
    else []
  }

  function PicklistLines(objectName: string, fields: seq<Field>): seq<string> {
    if fields == [] then [] else FieldSeedLines(objectName, fields[0]) + PicklistLines(objectName, fields[1..])
  }

  /** The seed script of `generatePicklistDDL`. */
  function PicklistDdl(objectName: string, fields: seq<Field>): string {
    Unlines(PicklistLines(objectName, fields))
  }

  lemma {:induction false} PicklistLinesAppend(objectName: string, a: seq<Field>, b: seq<Field>)
    ensures PicklistLines(objectName, a + b) == PicklistLines(objectName, a) + PicklistLines(objectName, b)
  {
    if a == [] {
      assert a + b == b;
    } else {
      assert (a + b)[0] == a[0];
      assert (a + b)[1..] == a[1..] + b;
      PicklistLinesAppend(objectName, a[1..], b);
    }
  }

  lemma PicklistLinesStep(objectName: string, fields: seq<Field>, i: nat)
    requires i < |fields|
    ensures PicklistLines(objectName, fields[..i + 1])
      == PicklistLines(objectName, fields[..i]) + FieldSeedLines(objectName, fields[i])
  {
    assert fields[..i + 1] == fields[..i] + [fields[i]];
    PicklistLinesAppend(objectName, fields[..i], [fields[i]]);
    assert PicklistLines(objectName, [fields[i]]) == FieldSeedLines(objectName, fields[i]) + PicklistLines(objectName, []);
  }

  /** The seed script lists the fields' lines in field order. */
  lemma SeedScriptInOrder(objectName: string, fields: seq<Field>, i: nat)
    requires i < |fields|
    ensures PicklistLines(objectName, fields)
      == PicklistLines(objectName, fields[..i]) + FieldSeedLines(objectName, fields[i]) + PicklistLines(objectName, fields[i + 1..])
  {
    assert fields == fields[..i + 1] + fields[i + 1..];
    PicklistLinesAppend(objectName, fields[..i + 1], fields[i + 1..]);
    PicklistLinesStep(objectName, fields, i);
  }

  /**
   * A field with two values or fewer, or that is not enumerated, contributes
   * nothing; an enumerated field with more contributes ids 1..n for its
   * values in declaration order, then a blank line.
   */
  lemma FieldSeedLinesShape(objectName: string, f: Field)
    ensures !HasLookupTable(f) ==> FieldSeedLines(objectName, f) == []
    ensures HasLookupTable(f) ==>
      var lines := FieldSeedLines(objectName, f);
      var values := f.picklistValues;
      |lines| == |values| + 1 && lines[|values|] == ""
      && forall k :: 0 <= k < |values| ==> lines[k] == InsertLine(LookupTableName(objectName, f.name), k + 1, values[k])
  {
  }

  /** `generatePicklistDDL` */
  method GeneratePicklistDdl(objectName: string, fields: seq<Field>) returns (ddl: string)
    ensures ddl == PicklistDdl(objectName, fields)
  {
    ddl := "";
    var i := 0;
    while i < |fields|
      invariant 0 <= i <= |fields|
      invariant ddl == Unlines(PicklistLines(objectName, fields[..i]))
    {
      ghost var before := ddl;
      ddl := AddSeedRows(ddl, objectName, fields[i]);
      PicklistLinesStep(objectName, fields, i);
      UnlinesAppend(PicklistLines(objectName, fields[..i]), FieldSeedLines(objectName, fields[i]));
      AppendAssoc(before, Unlines(PicklistLines(objectName, fields[..i])), Unlines(FieldSeedLines(objectName, fields[i])));
      i := i + 1;
    }
    assert fields[..i] == fields;
  }

  /** The callback of `generatePicklistDDL` for one field. */
  method AddSeedRows(ddl0: string, objectName: string, field: Field) returns (ddl: string)
    ensures ddl == ddl0 + Unlines(FieldSeedLines(objectName, field))
  {
    ddl := ddl0;
    if (field.fieldType == "picklist" || field.fieldType == "multipicklist") && |field.picklistValues| > 2 {
      var tableName := DeriveName(objectName) + "_" + DeriveName(field.name);
      var values := field.picklistValues;
      var index := 0;
      assert SeedRows(tableName, values, 0) == [];
      assert ddl == ddl0 + "";
      while index < |values|
        invariant 0 <= index <= |values|
        invariant ddl == ddl0 + Unlines(SeedRows(tableName, values, index))
      {
        ghost var before := ddl;
        ddl := ddl + ("INSERT INTO " + tableName + " (id, value) VALUES (" + NatToString(index + 1) + ", '" + values[index] + "');\n");
        SeedRowsStep(tableName, values, index);
        AppendAssoc(ddl0, Unlines(SeedRows(tableName, values, index)), InsertLine(tableName, index + 1, values[index]) + "\n");
        index := index + 1;
      }
      ghost var rows := SeedRows(tableName, values, |values|);
      ddl := ddl + "\n";
      UnlinesAppend(rows, [""]);
      assert Unlines([""]) == "\n";
      AppendAssoc(ddl0, Unlines(rows), "\n");
    } else {
      assert ddl0 + "" == ddl0;
    }
  }

  lemma SeedRowsStep(tableName: string, values: seq<string>, n: nat)
    requires n < |values|
    ensures Unlines(SeedRows(tableName, values, n + 1))
      == Unlines(SeedRows(tableName, values, n)) + (InsertLine(tableName, n + 1, values[n]) + "\n")
  {
    var row := InsertLine(tableName, n + 1, values[n]);
    assert SeedRows(tableName, values, n + 1) == SeedRows(tableName, values, n) + [row];
    UnlinesAppend(SeedRows(tableName, values, n), [row]);
    assert Unlines([row]) == row + "\n" + "";
    assert row + "\n" + "" == row + "\n";
  }

  // ---------------------------------------------------------------------------
  // The line scan of getCurrentPicklistValues

  /** The scan takes value `v` from `line`. */
  predicate Collects(line: string, prefix: string, v: string) {
    StartsWith(line, prefix) && MatchValues(line) == Some(v)
  }

  /** No value occurs twice: a JavaScript `Set` in insertion order. */
  predicate Distinct(vs: seq<string>) {
    forall i, j :: 0 <= i < j < |vs| ==> vs[i] != vs[j]
  }

  /**
   * The values collected from `lines`, in first-seen order: from every line
   * that starts with `prefix` and matches `VALUES (<digits>, '<v>')`.
   */
  function ScanValues(lines: seq<string>, prefix: string): (vs: seq<string>)
    ensures Distinct(vs)
    decreases |lines|
  {
    if lines == [] then []
    else
      var acc := ScanValues(lines[..|lines| - 1], prefix);
      var line := lines[|lines| - 1];
      if StartsWith(line, prefix) && MatchValues(line).Some? && MatchValues(line).value !in acc
      then acc + [MatchValues(line).value]
      else acc
  }

  /** A value is collected exactly when some line supplies it. */
  lemma {:induction false} ScanMembership(lines: seq<string>, prefix: string, v: string)
    ensures v in ScanValues(lines, prefix) <==> exists i :: 0 <= i < |lines| && Collects(lines[i], prefix, v)
    decreases |lines|
  {
    if lines != [] {
      var init := lines[..|lines| - 1];
      ScanMembership(init, prefix, v);
      assert forall i :: 0 <= i < |init| ==> init[i] == lines[i];
      if exists i :: 0 <= i < |lines| && Collects(lines[i], prefix, v) {
        var i :| 0 <= i < |lines| && Collects(lines[i], prefix, v);
        if i < |init| {
          assert Collects(init[i], prefix, v);
        }
      }
    }
  }

  /** The baseline table name's scan prefix. */
  function ScanPrefix(objectName: string, fieldName: string): string {
    "INSERT INTO " + LookupTableName(objectName, fieldName)
  }

  /** `getCurrentPicklistValues` from the file's content; `None` is a failed read. */
  function CurrentPicklistValues(content: Option<string>, objectName: string, fieldName: string): seq<string> {
    match content
    case None => []
    case Some(text) => ScanValues(Split(text, '\n'), ScanPrefix(objectName, fieldName))
  }

  /** A failed read leaves the baseline empty. */
  lemma NoFileNoBaseline(objectName: string, fieldName: string)
    ensures CurrentPicklistValues(None, objectName, fieldName) == []
  {
  }

  /** `getCurrentPicklistValues`: the line loop filling the set. */
  method GetCurrentPicklistValues(content: Option<string>, objectName: string, fieldName: string)
    returns (currentValues: seq<string>)
    ensures currentValues == CurrentPicklistValues(content, objectName, fieldName)
    ensures Distinct(currentValues)
  {
    currentValues := [];
    if content.Some? {
      var lines := Split(content.value, '\n');
      var tableName := DeriveName(objectName) + "_" + DeriveName(fieldName);
      var i := 0;
      while i < |lines|
        invariant 0 <= i <= |lines|
        invariant currentValues == ScanValues(lines[..i], "INSERT INTO " + tableName)
      {
        var line := lines[i];
        assert lines[..i + 1][..i] == lines[..i];
        if StartsWith(line, "INSERT INTO " + tableName) {
          var found := MatchValues(line);
          if found.Some? && found.value !in currentValues {
            currentValues := currentValues + [found.value];
          }
        }
        i := i + 1;
      }
      assert lines[..i] == lines;
    }
  }

  // ---------------------------------------------------------------------------
  // generatePicklistUpdates

  datatype PicklistStmt =
    | InsertValue(table: string, value: string)
    | DeleteValue(table: string, value: string)

  /** The current values absent from the baseline, in declaration order (repeats kept). */
  function NewValues(current: seq<string>, baseline: seq<string>): seq<string>
    decreases |current|
  {
    if current == [] then []
    else
      var init := NewValues(current[..|current| - 1], baseline);
      if current[|current| - 1] in baseline then init else init + [current[|current| - 1]]
  }

  /** The baseline values absent from the current ones, in baseline order. */
  function RemovedValues(baseline: seq<string>, current: seq<string>): seq<string>
    decreases |baseline|
  {
    NewValues(baseline, current)
  }

  function Inserts(tableName: string, vs: seq<string>): seq<PicklistStmt> {
    seq(|vs|, k requires 0 <= k < |vs| => InsertValue(tableName, vs[k]))
  }

  function Deletes(tableName: string, vs: seq<string>): seq<PicklistStmt> {
    seq(|vs|, k requires 0 <= k < |vs| => DeleteValue(tableName, vs[k]))
  }

  /** The statements of one field: inserts of new values, then deletes of removed ones. */
  function FieldStmts(tableName: string, current: seq<string>, baseline: seq<string>): seq<PicklistStmt> {
    Inserts(tableName, NewValues(current, baseline)) + Deletes(tableName, RemovedValues(baseline, current))
  }

  /** `NewValues` keeps exactly the entries not in the other list. */
  lemma {:induction false} NewValuesMembership(current: seq<string>, baseline: seq<string>, v: string)
    ensures v in NewValues(current, baseline) <==> v in current && v !in baseline
    decreases |current|
  {
    if current != [] {
      var init := current[..|current| - 1];
      NewValuesMembership(init, baseline, v);
      assert current == init + [current[|current| - 1]];
    }
  }

  /**
   * `NewValues` keeps declaration order: the new values of a concatenation
   * are those of the first part followed by those of the second.
   */
  lemma {:induction false} NewValuesAppend(a: seq<string>, b: seq<string>, baseline: seq<string>)
    ensures NewValues(a + b, baseline) == NewValues(a, baseline) + NewValues(b, baseline)
    decreases |b|
  {
    if b == [] {
      assert a + b == a;
    } else {
      var init := b[..|b| - 1];
      var last := b[|b| - 1];
      assert (a + b)[..|a + b| - 1] == a + init;
      assert (a + b)[|a + b| - 1] == last;
      NewValuesAppend(a, init, baseline);
    }
  }

  /** Inserting exactly the new values. */
  lemma InsertMembership(tableName: string, current: seq<string>, baseline: seq<string>, v: string)
    ensures InsertValue(tableName, v) in FieldStmts(tableName, current, baseline) <==> v in current && v !in baseline
  {
    NewValuesMembership(current, baseline, v);
    var ins := Inserts(tableName, NewValues(current, baseline));
    var dels := Deletes(tableName, RemovedValues(baseline, current));
    assert InsertValue(tableName, v) !in dels;
    if v in current && v !in baseline {
      var k :| 0 <= k < |NewValues(current, baseline)| && NewValues(current, baseline)[k] == v;
      assert ins[k] == InsertValue(tableName, v);
    }
  }

  /** Deleting exactly the removed values. */
  lemma DeleteMembership(tableName: string, current: seq<string>, baseline: seq<string>, v: string)
    ensures DeleteValue(tableName, v) in FieldStmts(tableName, current, baseline) <==> v in baseline && v !in current
  {
    NewValuesMembership(baseline, current, v);
    var ins := Inserts(tableName, NewValues(current, baseline));
    var dels := Deletes(tableName, RemovedValues(baseline, current));
    assert DeleteValue(tableName, v) !in ins;
    if v in baseline && v !in current {
      var k :| 0 <= k < |RemovedValues(baseline, current)| && RemovedValues(baseline, current)[k] == v;
      assert dels[k] == DeleteValue(tableName, v);
    }
  }

  /** Within a field every insert comes before every delete. */
  lemma InsertsBeforeDeletes(tableName: string, current: seq<string>, baseline: seq<string>, i: nat, j: nat)
    requires i < j < |FieldStmts(tableName, current, baseline)|
    requires FieldStmts(tableName, current, baseline)[j].InsertValue?
    ensures FieldStmts(tableName, current, baseline)[i].InsertValue?
  {
  }

  /** An unchanged value set produces no statements. */
  lemma SameValuesNoStmts(tableName: string, current: seq<string>, baseline: seq<string>)
    requires forall v :: v in current <==> v in baseline
    ensures FieldStmts(tableName, current, baseline) == []
  {
    NoNewValues(current, baseline);
    NoNewValues(baseline, current);
  }

  lemma {:induction false} NoNewValues(current: seq<string>, baseline: seq<string>)
    requires forall v :: v in current ==> v in baseline
    ensures NewValues(current, baseline) == []
    decreases |current|
  {
    if current != [] {
      var init := current[..|current| - 1];
      assert forall v :: v in init ==> v in current;
      NoNewValues(init, baseline);
      assert current[|current| - 1] in current;
    }
  }

  /** With no baseline every value is inserted, in order, and nothing is deleted. */
  lemma {:induction false} EmptyBaselineInsertsAll(tableName: string, current: seq<string>)
    ensures FieldStmts(tableName, current, []) == Inserts(tableName, current)
  {
    AllNew(current);
    assert RemovedValues([], current) == [];
  }

  lemma {:induction false} AllNew(current: seq<string>)
    ensures NewValues(current, []) == current
    decreases |current|
  {
    if current != [] {
      AllNew(current[..|current| - 1]);
      assert current == current[..|current| - 1] + [current[|current| - 1]];
    }
  }

  function InsertValueLine(tableName: string, value: string): string {
    "INSERT INTO " + tableName + " (value) VALUES ('" + value + "') ON CONFLICT (value) DO NOTHING;\n"
  }

  function DeleteValueLine(tableName: string, value: string): string {
    "DELETE FROM " + tableName + " WHERE value = '" + value + "';\n"
  }

  function RenderStmt(s: PicklistStmt): string {
    match s
    case InsertValue(t, v) => InsertValueLine(t, v)
    case DeleteValue(t, v) => DeleteValueLine(t, v)
  }

  function StmtsText(stmts: seq<PicklistStmt>): string {
    if stmts == [] then "" else RenderStmt(stmts[0]) + StmtsText(stmts[1..])
  }

  lemma {:induction false} StmtsTextAppend(a: seq<PicklistStmt>, b: seq<PicklistStmt>)
    ensures StmtsText(a + b) == StmtsText(a) + StmtsText(b)
  {
    if a == [] {
      assert a + b == b;
    } else {
      assert (a + b)[0] == a[0];
      assert (a + b)[1..] == a[1..] + b;
      StmtsTextAppend(a[1..], b);
    }
  }

  /** The statements `generatePicklistUpdates` derives for one field against the stored seed script. */
  function UpdateStmts(objectName: string, f: Field, content: Option<string>): seq<PicklistStmt> {
    FieldStmts(LookupTableName(objectName, f.name), f.picklistValues, CurrentPicklistValues(content, objectName, f.name))
  }

  /** The update script: per enumerated field with more than two values, its statements and a blank line. */
  function UpdatesText(objectName: string, fields: seq<Field>, content: Option<string>): string {
    if fields == [] then ""
    else
      (if HasLookupTable(fields[0]) then StmtsText(UpdateStmts(objectName, fields[0], content)) + "\n" else "")
      + UpdatesText(objectName, fields[1..], content)
  }

  function FieldUpdatesText(objectName: string, f: Field, content: Option<string>): string {
    if HasLookupTable(f) then StmtsText(UpdateStmts(objectName, f, content)) + "\n" else ""
  }

  lemma {:induction false} UpdatesTextAppend(objectName: string, a: seq<Field>, b: seq<Field>, content: Option<string>)
    ensures UpdatesText(objectName, a + b, content) == UpdatesText(objectName, a, content) + UpdatesText(objectName, b, content)
  {
    if a == [] {
      assert a + b == b;
    } else {
      assert (a + b)[0] == a[0];
      assert (a + b)[1..] == a[1..] + b;
      UpdatesTextAppend(objectName, a[1..], b, content);
      AppendAssoc(FieldUpdatesText(objectName, a[0], content), UpdatesText(objectName, a[1..], content),
                  UpdatesText(objectName, b, content));
    }
  }

  lemma UpdatesTextStep(objectName: string, fields: seq<Field>, i: nat, content: Option<string>)
    requires i < |fields|
    ensures UpdatesText(objectName, fields[..i + 1], content)
      == UpdatesText(objectName, fields[..i], content) + FieldUpdatesText(objectName, fields[i], content)
  {
    assert fields[..i + 1] == fields[..i] + [fields[i]];
    UpdatesTextAppend(objectName, fields[..i], [fields[i]], content);
    assert UpdatesText(objectName, [fields[i]], content)
      == FieldUpdatesText(objectName, fields[i], content) + UpdatesText(objectName, [], content);
  }

  /** `generatePicklistUpdates`, reading the stored seed script `content` once per field. */
  method GeneratePicklistUpdates(objectName: string, fields: seq<Field>, content: Option<string>)
    returns (updates: string)
    ensures updates == UpdatesText(objectName, fields, content)
  {
    updates := "";
    var i := 0;
    while i < |fields|
      invariant 0 <= i <= |fields|
      invariant updates == UpdatesText(objectName, fields[..i], content)
    {
      updates := AddFieldUpdates(updates, objectName, fields[i], content);
      UpdatesTextStep(objectName, fields, i, content);
      i := i + 1;
    }
    assert fields[..i] == fields;
  }

  /** The loop body of `generatePicklistUpdates` for one field. */
  method AddFieldUpdates(updates0: string, objectName: string, field: Field, content: Option<string>)
    returns (updates: string)
    ensures updates == updates0 + FieldUpdatesText(objectName, field, content)
  {
    updates := updates0;
    if (field.fieldType == "picklist" || field.fieldType == "multipicklist") && |field.picklistValues| > 2 {
      var tableName := DeriveName(objectName) + "_" + DeriveName(field.name);
      var currentValues := GetCurrentPicklistValues(content, objectName, field.name);
      ghost var ins := Inserts(tableName, NewValues(field.picklistValues, currentValues));
      ghost var dels := Deletes(tableName, RemovedValues(currentValues, field.picklistValues));
      updates := AddValueInserts(updates, tableName, field.picklistValues, currentValues);
      updates := AddValueDeletes(updates, tableName, field.picklistValues, currentValues);
      updates := updates + "\n";
      FieldUpdatesPieces(objectName, field, content, tableName, currentValues);
      AppendAssoc3(updates0, StmtsText(ins), StmtsText(dels), "\n");
    } else {
      assert updates0 + "" == updates0;
    }
  }

  /** The text of one enumerated field: its inserts, its deletes, a blank line. */
  lemma FieldUpdatesPieces(objectName: string, f: Field, content: Option<string>, tableName: string, currentValues: seq<string>)
    requires HasLookupTable(f)
    requires tableName == LookupTableName(objectName, f.name)
    requires currentValues == CurrentPicklistValues(content, objectName, f.name)
    ensures FieldUpdatesText(objectName, f, content)
      == StmtsText(Inserts(tableName, NewValues(f.picklistValues, currentValues)))
         + StmtsText(Deletes(tableName, RemovedValues(currentValues, f.picklistValues))) + "\n"
  {
    StmtsTextAppend(Inserts(tableName, NewValues(f.picklistValues, currentValues)),
                    Deletes(tableName, RemovedValues(currentValues, f.picklistValues)));
  }

  lemma NewValuesStep(values: seq<string>, baseline: seq<string>, i: nat)
    requires i < |values|
    ensures NewValues(values[..i + 1], baseline)
      == if values[i] in baseline then NewValues(values[..i], baseline) else NewValues(values[..i], baseline) + [values[i]]
  {
    assert values[..i + 1][..i] == values[..i];
  }

  lemma InsertsStep(tableName: string, done: seq<string>, v: string)
    ensures StmtsText(Inserts(tableName, done + [v])) == StmtsText(Inserts(tableName, done)) + InsertValueLine(tableName, v)
  {
    assert Inserts(tableName, done + [v]) == Inserts(tableName, done) + [InsertValue(tableName, v)];
    StmtsTextAppend(Inserts(tableName, done), [InsertValue(tableName, v)]);
    assert StmtsText([InsertValue(tableName, v)]) == InsertValueLine(tableName, v) + "";
  }

  lemma DeletesStep(tableName: string, done: seq<string>, v: string)
    ensures StmtsText(Deletes(tableName, done + [v])) == StmtsText(Deletes(tableName, done)) + DeleteValueLine(tableName, v)
  {
    assert Deletes(tableName, done + [v]) == Deletes(tableName, done) + [DeleteValue(tableName, v)];
    StmtsTextAppend(Deletes(tableName, done), [DeleteValue(tableName, v)]);
    assert StmtsText([DeleteValue(tableName, v)]) == DeleteValueLine(tableName, v) + "";
  }

  /** The insert loop of one field. */
  method AddValueInserts(updates0: string, tableName: string, values: seq<string>, currentValues: seq<string>)
    returns (updates: string)
    ensures updates == updates0 + StmtsText(Inserts(tableName, NewValues(values, currentValues)))
  {
    updates := updates0;
    var i := 0;
    assert values[..0] == [];
    assert updates == updates0 + "";
    while i < |values|
      invariant 0 <= i <= |values|
      invariant updates == updates0 + StmtsText(Inserts(tableName, NewValues(values[..i], currentValues)))
    {
      ghost var done := NewValues(values[..i], currentValues);
      NewValuesStep(values, currentValues, i);
      if values[i] !in currentValues {
        updates := updates + ("INSERT INTO " + tableName + " (value) VALUES ('" + values[i]
                              + "') ON CONFLICT (value) DO NOTHING;\n");
        InsertsStep(tableName, done, values[i]);
        AppendAssoc(updates0, StmtsText(Inserts(tableName, done)), InsertValueLine(tableName, values[i]));
      }
      i := i + 1;
    }
    assert values[..i] == values;
  }

  /** The delete loop of one field, over the baseline in its order. */
  method AddValueDeletes(updates0: string, tableName: string, values: seq<string>, currentValues: seq<string>)
    returns (updates: string)
    ensures updates == updates0 + StmtsText(Deletes(tableName, RemovedValues(currentValues, values)))
  {
    updates := updates0;
    var i := 0;
    assert currentValues[..0] == [];
    assert updates == updates0 + "";
    while i < |currentValues|
      invariant 0 <= i <= |currentValues|
      invariant updates == updates0 + StmtsText(Deletes(tableName, RemovedValues(currentValues[..i], values)))
    {
      var value := currentValues[i];
      ghost var done := RemovedValues(currentValues[..i], values);
      NewValuesStep(currentValues, values, i);
      if value !in values {
        updates := updates + ("DELETE FROM " + tableName + " WHERE value = '" + value + "';\n");
        DeletesStep(tableName, done, value);
        AppendAssoc(updates0, StmtsText(Deletes(tableName, done)), DeleteValueLine(tableName, value));
      }
      i := i + 1;
    }
    assert currentValues[..i] == currentValues;
  }
}
