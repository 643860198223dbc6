/**
 * The migration side: `parseCreateTableStatement` recovers a baseline table
 * from a stored `CREATE TABLE` script, and `generateAlterTableStatements`
 * compares the current fields with that baseline, emitting in three passes
 * the `ADD COLUMN` / `ALTER COLUMN ... TYPE` statements (interleaved in field
 * order), the guarded foreign-key blocks, and the `DROP COLUMN` statements.
 */
module SqlComparer {
  import opened Optional
  import opened Strings
  import opened Patterns
  import opened Naming
  import opened Metadata
  import DdlGenerator

  /** A baseline column; `colType` is `None` when the line had a single token. */
  datatype PostgresColumn = PostgresColumn(
    name: string, colType: Option<string>, isPrimaryKey: bool, isForeignKey: bool, references: Option<string>)

  datatype PostgresTable = PostgresTable(name: string, columns: seq<PostgresColumn>)

  // ---------------------------------------------------------------------------
  // parseCreateTableStatement

  /** One trimmed column line: first token the name, second token verbatim the type. */
  function ParseColumnLine(line: string): PostgresColumn {
    var parts := Split(line, ' ');
    PostgresColumn(parts[0], if |parts| > 1 then Some(parts[1]) else None,
                   Contains(line, "PRIMARY KEY"), Contains(line, "REFERENCES"), KeywordWord(line, "REFERENCES "))
  }

  /**
   * The name is the text before the first space; a captured reference is a
   * word, and a line with one is always flagged as a foreign key.
   */
  lemma ParseColumnLineShape(line: string)
    ensures var c := ParseColumnLine(line);
      && StartsWith(line, c.name) && ' ' !in c.name
      && (|c.name| < |line| ==> line[|c.name|] == ' ')
      && (c.references.Some? ==> c.isForeignKey && IsWord(c.references.value))
  {
    var references := KeywordWord(line, "REFERENCES ");
    if references.Some? {
      var j :| 0 <= j <= |line| && StartsWith(line[j..], "REFERENCES " + references.value);
      assert line[j..][..10] == "REFERENCES";
      ContainsAt(line, "REFERENCES", j);
    }
  }

  /**
   * Where the column scan from line `i` stops: the first line at or after `i`
   * that starts with `)` once trimmed, or the last line, which is never read.
   */
  function ColumnEnd(lines: seq<string>, i: nat): (e: nat)
    requires 1 <= i
    ensures i <= e && (e <= |lines| - 1 || e == i)
    decreases |lines| - i
  {
    if i >= |lines| - 1 || StartsWith(Trim(lines[i]), ")") then i
    else ColumnEnd(lines, i + 1)
  }

  /** No line the scan reads starts with `)`, and a stop before the last line is at one that does. */
  lemma {:induction false} ColumnEndFirst(lines: seq<string>, i: nat)
    requires 1 <= i
    ensures forall k :: i <= k < ColumnEnd(lines, i) ==> !StartsWith(Trim(lines[k]), ")")
    ensures ColumnEnd(lines, i) < |lines| - 1 ==> StartsWith(Trim(lines[ColumnEnd(lines, i)]), ")")
    decreases |lines| - i
  {
    if !(i >= |lines| - 1 || StartsWith(Trim(lines[i]), ")")) {
      ColumnEndFirst(lines, i + 1);
    }
  }

  /** Lines `1 .. end - 1`, trimmed and split into column records. */
  function ParseColumnLines(lines: seq<string>, end: nat): (cs: seq<PostgresColumn>)
    requires 1 <= end <= |lines| || end == 1
    ensures |cs| == end - 1
  {
    seq(end - 1, k requires 0 <= k < end - 1 => ParseColumnLine(Trim(lines[k + 1])))
  }

  /** The table `parseCreateTableStatement` builds from `sql`. */
  function ParseTable(sql: string): PostgresTable {
    var lines := Split(sql, '\n');
    var name := match KeywordWord(lines[0], "CREATE TABLE ") case Some(w) => w case None => "";
    PostgresTable(name, ParseColumnLines(lines, ColumnEnd(lines, 1)))
  }

  /**
   * The table is named by `CREATE TABLE (\w+)` on the first line, or `""`;
   * column `k` is parsed from line `k + 1`; the columns stop before the first
   * line starting with `)` and never include the last line, so there are at
   * most `|lines| - 2` of them.
   */
  lemma ParseTableShape(sql: string)
    ensures var lines := Split(sql, '\n');
      var t := ParseTable(sql);
      && (KeywordWord(lines[0], "CREATE TABLE ").Some? ==> t.name == KeywordWord(lines[0], "CREATE TABLE ").value)
      && (KeywordWord(lines[0], "CREATE TABLE ").None? ==> t.name == "")
      && |t.columns| <= (if |lines| >= 2 then |lines| - 2 else 0)
      && (forall k :: 1 <= k <= |t.columns| ==>
            t.columns[k - 1] == ParseColumnLine(Trim(lines[k])) && !StartsWith(Trim(lines[k]), ")"))
      && (1 + |t.columns| < |lines| - 1 ==> StartsWith(Trim(lines[1 + |t.columns|]), ")"))
  {
    var lines := Split(sql, '\n');
    var e := ColumnEnd(lines, 1);
    ColumnEndFirst(lines, 1);
    ParsedColumnLines(lines, e);
  }

  lemma ParsedColumnLines(lines: seq<string>, e: nat)
    requires 1 <= e <= |lines| || e == 1
    ensures forall k :: 1 <= k < e ==> ParseColumnLines(lines, e)[k - 1] == ParseColumnLine(Trim(lines[k]))
  {
  }

  /** `parseCreateTableStatement` */
  method ParseCreateTableStatement(sql: string) returns (table: PostgresTable)
    ensures table == ParseTable(sql)
  {
    var lines := Split(sql, '\n');
    var found := KeywordWord(lines[0], "CREATE TABLE ");
    var tableName := if found.Some? then found.value else "";
    var columns := ReadColumns(lines);
    table := PostgresTable(tableName, columns);
  }

  /** The indexed `for` loop over `lines[1 .. |lines| - 1]` with its `break` at the `)` line. */
  method ReadColumns(lines: seq<string>) returns (columns: seq<PostgresColumn>)
    ensures columns == ParseColumnLines(lines, ColumnEnd(lines, 1))
  {
    columns := [];
    var i := 1;
    while i < |lines| - 1
      invariant 1 <= i <= ColumnEnd(lines, 1)
      invariant ColumnEnd(lines, i) == ColumnEnd(lines, 1)
      invariant columns == ParseColumnLines(lines, i)
      decreases |lines| - i
    {
      var line := Trim(lines[i]);
      if StartsWith(line, ")") {
        break;
      }
      var column := ParseColumnLine(line);
      columns := columns + [column];
      i := i + 1;
    }
  }

  // ---------------------------------------------------------------------------
  // convertSalesforceTypeToPostgres

  /** The comparer's own copy of the type table. */
  const LocalTypeMap: map<string, string> := map[
    "string" := "TEXT", "textarea" := "TEXT", "boolean" := "BOOLEAN",
    "double" := "NUMERIC", "currency" := "NUMERIC", "date" := "DATE",
    "datetime" := "TIMESTAMP", "email" := "TEXT", "phone" := "TEXT",
    "url" := "TEXT", "reference" := "UUID"]

  /** `convertSalesforceTypeToPostgres` */
  function ConvertSalesforceTypeToPostgres(f: Field): string {
    if f.fieldType == "picklist" && |f.picklistValues| == 2 then "BOOLEAN"
    else if f.fieldType in LocalTypeMap then LocalTypeMap[f.fieldType]
    else "TEXT"
  }

  /** The two copies of the mapping agree on every field. */
  lemma TypeMapsAgree(f: Field)
    ensures ConvertSalesforceTypeToPostgres(f) == DdlGenerator.ConvertFieldType(f)
  {
    assert LocalTypeMap == DdlGenerator.TypeMap;
  }

  // ---------------------------------------------------------------------------
  // generateAlterTableStatements

  datatype AlterStmt =
    | AddColumn(table: string, column: string, colType: string, references: Option<string>)
    | AlterColumnType(table: string, column: string, colType: string)
    | AddForeignKey(table: string, constraint: string, column: string, target: string)
    | DropColumn(table: string, column: string)

  /** `columns.find(col => col.name === name)` */
  function FindColumn(columns: seq<PostgresColumn>, name: string): (r: Option<PostgresColumn>)
    ensures r.Some? ==> r.value in columns && r.value.name == name
    ensures r.None? <==> forall c :: c in columns ==> c.name != name
  {
    if columns == [] then None
    else if columns[0].name == name then Some(columns[0])
    else
      assert forall c :: c in columns ==> c == columns[0] || c in columns[1..];
      FindColumn(columns[1..], name)
  }

  /** The column found is the first one with that name. */
  lemma {:induction false} FindColumnFirst(columns: seq<PostgresColumn>, name: string, k: nat)
    requires k < |columns| && columns[k].name == name
    requires forall m :: 0 <= m < k ==> columns[m].name != name
    ensures FindColumn(columns, name) == Some(columns[k])
  {
    if k > 0 {
      FindColumnFirst(columns[1..], name, k - 1);
    }
  }

  function TargetName(f: Field, allObjects: seq<string>): Option<string> {
    match KnownTarget(f, allObjects)
    case Some(t) => Some(DeriveName(t))
    case None => None
  }

  /** The first pass for one field: add a missing column or retype a differing one. */
  function FieldAlter(tableName: string, f: Field, columns: seq<PostgresColumn>, allObjects: seq<string>): seq<AlterStmt> {
    var columnName := DeriveName(f.name);
    var sqlType := ConvertSalesforceTypeToPostgres(f);
    match FindColumn(columns, columnName)
    case None => [AddColumn(tableName, columnName, sqlType, TargetName(f, allObjects))]
    case Some(col) => if col.colType != Some(sqlType) then [AlterColumnType(tableName, columnName, sqlType)] else []
  }

  function AddAlterPass(tableName: string, fields: seq<Field>, columns: seq<PostgresColumn>, allObjects: seq<string>): seq<AlterStmt> {
    if fields == [] then []
    else FieldAlter(tableName, fields[0], columns, allObjects) + AddAlterPass(tableName, fields[1..], columns, allObjects)
  }

  /** The second pass for one field: the guarded constraint of a reference to a known object. */
  function FieldForeignKey(tableName: string, f: Field, allObjects: seq<string>): seq<AlterStmt> {
    match KnownTarget(f, allObjects)
    case Some(t) =>
      var columnName := DeriveName(f.name);
      [AddForeignKey(tableName, "fk_" + tableName + "_" + columnName, columnName, DeriveName(t))]
    case None => []
  }

  function ForeignKeyPass(tableName: string, fields: seq<Field>, allObjects: seq<string>): seq<AlterStmt> {
    if fields == [] then []
    else FieldForeignKey(tableName, fields[0], allObjects) + ForeignKeyPass(tableName, fields[1..], allObjects)
  }

  /** Some field derives to the column name `name`. */
  predicate HasField(fields: seq<Field>, name: string) {
    exists f :: f in fields && DeriveName(f.name) == name
  }

  function ColumnDrop(tableName: string, col: PostgresColumn, fields: seq<Field>): seq<AlterStmt> {
    if HasField(fields, col.name) then [] else [DropColumn(tableName, col.name)]
  }

  function DropPass(tableName: string, columns: seq<PostgresColumn>, fields: seq<Field>): seq<AlterStmt> {
    if columns == [] then []
    else ColumnDrop(tableName, columns[0], fields) + DropPass(tableName, columns[1..], fields)
  }

  /** The statements of `generateAlterTableStatements`; no baseline, no statements. */
  function AlterPlan(objectName: string, fields: seq<Field>, localTable: Option<PostgresTable>, allObjects: seq<string>): seq<AlterStmt> {
    match localTable
    case None => []
    case Some(local) =>
      var tableName := DeriveName(objectName);
      AddAlterPass(tableName, fields, local.columns, allObjects)
      + ForeignKeyPass(tableName, fields, allObjects)
      + DropPass(tableName, local.columns, fields)
  }

  // ---------------------------------------------------------------------------
  // Properties of the plan

  /** A null baseline yields the empty script. */
  lemma NoBaselineNoStatements(objectName: string, fields: seq<Field>, allObjects: seq<string>)
    ensures AlterPlan(objectName, fields, None, allObjects) == []
  {
  }

  /**
   * Per field at most one statement: `ADD COLUMN` exactly when no baseline
   * column has the derived name, `ALTER COLUMN ... TYPE` exactly when the
   * first such column's type differs from the converted type.
   */
  lemma FieldAlterShape(tableName: string, f: Field, columns: seq<PostgresColumn>, allObjects: seq<string>)
    ensures |FieldAlter(tableName, f, columns, allObjects)| <= 1
    ensures var s := FieldAlter(tableName, f, columns, allObjects);
      (|s| == 1 && s[0].AddColumn?) <==> (forall c :: c in columns ==> c.name != DeriveName(f.name))
    ensures var s := FieldAlter(tableName, f, columns, allObjects);
      (|s| == 1 && s[0].AlterColumnType?) <==>
        (FindColumn(columns, DeriveName(f.name)).Some?
         && FindColumn(columns, DeriveName(f.name)).value.colType != Some(ConvertSalesforceTypeToPostgres(f)))
    ensures forall s :: s in FieldAlter(tableName, f, columns, allObjects) ==>
      s.column == DeriveName(f.name) && s.table == tableName && s.colType == DdlGenerator.ConvertFieldType(f)
  {
    TypeMapsAgree(f);
  }

  /**
   * A picklist with more than two values is looked up under its bare name:
   * against a baseline holding only its `<col>_id` column it is added again.
   */
  lemma WidePicklistLookedUpBare(tableName: string, f: Field, columns: seq<PostgresColumn>, allObjects: seq<string>)
    requires IsWidePicklist(f)
    requires forall c :: c in columns ==> c.name != DeriveName(f.name)
    ensures FieldAlter(tableName, f, columns, allObjects) == [AddColumn(tableName, DeriveName(f.name), "TEXT", None)]
  {
  }

  /**
   * The type is the raw second token: the `,` the generator writes after a
   * column line stays part of it.
   */
  lemma TypeTokenKeepsComma(name: string, sqlType: string)
    requires ' ' !in name && ' ' !in sqlType
    ensures ParseColumnLine(name + " " + sqlType + ",").name == name
    ensures ParseColumnLine(name + " " + sqlType + ",").colType == Some(sqlType + ",")
  {
    var tail := sqlType + ",";
    assert name + " " + sqlType + "," == name + [' '] + tail;
    SplitAfterSeparator(name, ' ', tail);
    assert ' ' !in tail by {
      assert forall k :: 0 <= k < |tail| ==> tail[k] == if k < |sqlType| then sqlType[k] else ',';
    }
    SplitWithoutSeparator(tail, ' ');
  }

  /**
   * So a baseline column whose parsed type still carries that comma never
   * equals the converted type: the field is retyped even when nothing changed.
   */
  lemma CommaTypeRetyped(tableName: string, f: Field, columns: seq<PostgresColumn>, allObjects: seq<string>)
    requires FindColumn(columns, DeriveName(f.name)).Some?
    requires FindColumn(columns, DeriveName(f.name)).value.colType == Some(DdlGenerator.ConvertFieldType(f) + ",")
    ensures FieldAlter(tableName, f, columns, allObjects)
      == [AlterColumnType(tableName, DeriveName(f.name), DdlGenerator.ConvertFieldType(f))]
  {
    TypeMapsAgree(f);
    assert |DdlGenerator.ConvertFieldType(f) + ","| != |DdlGenerator.ConvertFieldType(f)|;
  }

  /** Which pass a statement belongs to. */
  function Rank(s: AlterStmt): nat {
    match s
    case AddColumn(_, _, _, _) => 0
    case AlterColumnType(_, _, _) => 0
    case AddForeignKey(_, _, _, _) => 1
    case DropColumn(_, _) => 2
  }

  predicate AllRank(stmts: seq<AlterStmt>, r: nat) {
    forall k :: 0 <= k < |stmts| ==> Rank(stmts[k]) == r
  }

  lemma {:induction false} AddAlterPassRank(tableName: string, fields: seq<Field>, columns: seq<PostgresColumn>, allObjects: seq<string>)
    ensures AllRank(AddAlterPass(tableName, fields, columns, allObjects), 0)
  {
    if fields != [] {
      AddAlterPassRank(tableName, fields[1..], columns, allObjects);
    }
  }

  lemma {:induction false} ForeignKeyPassRank(tableName: string, fields: seq<Field>, allObjects: seq<string>)
    ensures AllRank(ForeignKeyPass(tableName, fields, allObjects), 1)
  {
    if fields != [] {
      ForeignKeyPassRank(tableName, fields[1..], allObjects);
    }
  }

  lemma {:induction false} DropPassRank(tableName: string, columns: seq<PostgresColumn>, fields: seq<Field>)
    ensures AllRank(DropPass(tableName, columns, fields), 2)
  {
    if columns != [] {
      DropPassRank(tableName, columns[1..], fields);
    }
  }

  /** Every `ADD`/`ALTER` precedes every constraint block, which precedes every `DROP`. */
  lemma PlanOrdered(objectName: string, fields: seq<Field>, localTable: Option<PostgresTable>, allObjects: seq<string>)
    ensures var plan := AlterPlan(objectName, fields, localTable, allObjects);
      forall i, j :: 0 <= i < j < |plan| ==> Rank(plan[i]) <= Rank(plan[j])
  {
    if localTable.Some? {
      var tableName := DeriveName(objectName);
      var columns := localTable.value.columns;
      AddAlterPassRank(tableName, fields, columns, allObjects);
      ForeignKeyPassRank(tableName, fields, allObjects);
      DropPassRank(tableName, columns, fields);
    }
  }

  lemma {:induction false} ForeignKeyPassMembership(tableName: string, fields: seq<Field>, allObjects: seq<string>, s: AlterStmt)
    ensures s in ForeignKeyPass(tableName, fields, allObjects) <==>
      exists f :: f in fields && s in FieldForeignKey(tableName, f, allObjects)
  {
    if fields != [] {
      ForeignKeyPassMembership(tableName, fields[1..], allObjects, s);
      assert forall f :: f in fields ==> f == fields[0] || f in fields[1..];
    }
  }

  /**
   * A guarded constraint `fk_<table>_<col>` is emitted for every reference
   * field whose first target is a known object, whether or not its column
   * was already in the baseline, and for no other field.
   */
  lemma ForeignKeyEmitted(objectName: string, fields: seq<Field>, local: PostgresTable, allObjects: seq<string>, s: AlterStmt)
    ensures s in AlterPlan(objectName, fields, Some(local), allObjects) && s.AddForeignKey? <==>
      exists f :: f in fields && KnownTarget(f, allObjects).Some?
        && s == AddForeignKey(DeriveName(objectName), "fk_" + DeriveName(objectName) + "_" + DeriveName(f.name),
                              DeriveName(f.name), DeriveName(KnownTarget(f, allObjects).value))
  {
    var tableName := DeriveName(objectName);
    ForeignKeyPassMembership(tableName, fields, allObjects, s);
    AddAlterPassRank(tableName, fields, local.columns, allObjects);
    DropPassRank(tableName, local.columns, fields);
    var a := AddAlterPass(tableName, fields, local.columns, allObjects);
    var d := DropPass(tableName, local.columns, fields);
    if s.AddForeignKey? {
      assert Rank(s) == 1;
      assert s !in a;
      assert s !in d;
    }
  }

  lemma {:induction false} DropPassMembership(tableName: string, columns: seq<PostgresColumn>, fields: seq<Field>, s: AlterStmt)
    ensures s in DropPass(tableName, columns, fields) <==>
      exists c :: c in columns && !HasField(fields, c.name) && s == DropColumn(tableName, c.name)
  {
    if columns != [] {
      DropPassMembership(tableName, columns[1..], fields, s);
      assert forall c :: c in columns ==> c == columns[0] || c in columns[1..];
    }
  }

  /** `DROP COLUMN` exactly for the baseline columns that no field derives to. */
  lemma DropEmitted(objectName: string, fields: seq<Field>, local: PostgresTable, allObjects: seq<string>, s: AlterStmt)
    ensures s in AlterPlan(objectName, fields, Some(local), allObjects) && s.DropColumn? <==>
      exists c :: c in local.columns && !HasField(fields, c.name) && s == DropColumn(DeriveName(objectName), c.name)
  {
    var tableName := DeriveName(objectName);
    DropPassMembership(tableName, local.columns, fields, s);
    AddAlterPassRank(tableName, fields, local.columns, allObjects);
    ForeignKeyPassRank(tableName, fields, allObjects);
    var a := AddAlterPass(tableName, fields, local.columns, allObjects);
    var fk := ForeignKeyPass(tableName, fields, allObjects);
    if s.DropColumn? {
      assert Rank(s) == 2;
      assert s !in a;
      assert s !in fk;
    }
  }

  /** The `DROP` group keeps the baseline's column order. */
  lemma {:induction false} DropsInBaselineOrder(tableName: string, columns: seq<PostgresColumn>, fields: seq<Field>, i: nat)
    requires i < |columns|
    ensures DropPass(tableName, columns, fields)
      == DropPass(tableName, columns[..i], fields) + ColumnDrop(tableName, columns[i], fields) + DropPass(tableName, columns[i + 1..], fields)
    decreases i
  {
    if i > 0 {
      DropsInBaselineOrder(tableName, columns[1..], fields, i - 1);
      assert columns[1..][..i - 1] == columns[..i][1..];
      assert columns[1..][i - 1] == columns[i];
      assert columns[1..][i..] == columns[i + 1..];
    } else {
      assert columns[1..] == columns[i + 1..];
    }
  }

  // ---------------------------------------------------------------------------
  // Text

  function RenderAlter(s: AlterStmt): string {
    match s
    case AddColumn(t, c, ty, r) => AddColumnText(t, c, ty, r)
    case AlterColumnType(t, c, ty) => AlterColumnText(t, c, ty)
    case AddForeignKey(t, k, c, target) => ForeignKeyBlock(t, k, c, target)
    case DropColumn(t, c) => DropColumnText(t, c)
  }

  function AddColumnText(t: string, c: string, ty: string, r: Option<string>): string {
    ("ALTER TABLE " + t + " ADD COLUMN " + c + " " + ty)
    + (match r case Some(target) => " REFERENCES " + target + "(id)" case None => "")
    + ";\n"
  }

  function AlterColumnText(t: string, c: string, ty: string): string {
    "ALTER TABLE " + t + " ALTER COLUMN " + c + " TYPE " + ty + ";\n"
  }

  /** The `DO $$ ... $$` block that adds the constraint only when `pg_constraint` lacks it. */
  function ForeignKeyBlock(t: string, k: string, c: string, target: string): string {
    "DO $$\n" + "BEGIN\n"
    + ("  IF NOT EXISTS (SELECT 1 FROM pg_constraint WHERE conname = '" + k + "') THEN\n")
    + ("    ALTER TABLE " + t + " ADD CONSTRAINT " + k + " ")
    + ("FOREIGN KEY (" + c + ") REFERENCES " + target + "(id);\n")
    + "  END IF;\n" + "END $$;\n\n"
  }

  function DropColumnText(t: string, c: string): string {
    "ALTER TABLE " + t + " DROP COLUMN " + c + ";\n"
  }

  function AlterText(stmts: seq<AlterStmt>): string {
    if stmts == [] then "" else RenderAlter(stmts[0]) + AlterText(stmts[1..])
  }

  lemma {:induction false} AlterTextAppend(a: seq<AlterStmt>, b: seq<AlterStmt>)
    ensures AlterText(a + b) == AlterText(a) + AlterText(b)
  {
    if a == [] {
      assert a + b == b;
    } else {
      assert (a + b)[0] == a[0];
      assert (a + b)[1..] == a[1..] + b;
      AlterTextAppend(a[1..], b);
    }
  }

  lemma AlterTextOne(s: AlterStmt)
    ensures AlterText([s]) == RenderAlter(s)
  {
    assert [s][1..] == [];
    assert RenderAlter(s) + "" == RenderAlter(s);
  }

  /** `generateAlterTableStatements` */
  method GenerateAlterTableStatements(objectName: string, fields: seq<Field>, localTable: Option<PostgresTable>,
                                      allObjects: seq<string>) returns (sql: string)
    ensures sql == AlterText(AlterPlan(objectName, fields, localTable, allObjects))
  {
    sql := "";
    if localTable.None? {
      return;
    }
    var local := localTable.value;
    var tableName := DeriveName(objectName);
    var addAlter := AddAlterStatements(tableName, fields, local.columns, allObjects);
    var foreignKeys := ForeignKeyStatements(tableName, fields, allObjects);
    var drops := DropStatements(tableName, local.columns, fields);
    sql := sql + addAlter;
    sql := sql + foreignKeys;
    sql := sql + drops;
    assert "" + addAlter == addAlter;
    AlterPlanText(objectName, fields, local, allObjects);
  }

  /** The script is the text of the three passes, one after the other. */
  lemma AlterPlanText(objectName: string, fields: seq<Field>, local: PostgresTable, allObjects: seq<string>)
    ensures AlterText(AlterPlan(objectName, fields, Some(local), allObjects))
      == AlterText(AddAlterPass(DeriveName(objectName), fields, local.columns, allObjects))
         + AlterText(ForeignKeyPass(DeriveName(objectName), fields, allObjects))
         + AlterText(DropPass(DeriveName(objectName), local.columns, fields))
  {
    var tableName := DeriveName(objectName);
    AlterTextAppend3(AddAlterPass(tableName, fields, local.columns, allObjects),
                     ForeignKeyPass(tableName, fields, allObjects),
                     DropPass(tableName, local.columns, fields));
  }

  lemma AlterTextAppend3(a: seq<AlterStmt>, b: seq<AlterStmt>, c: seq<AlterStmt>)
    ensures AlterText(a + b + c) == AlterText(a) + AlterText(b) + AlterText(c)
  {
    AlterTextAppend(a + b, c);
    AlterTextAppend(a, b);
  }

  /** The first `forEach`: `ADD COLUMN` / `ALTER COLUMN ... TYPE` per field. */
  method AddAlterStatements(tableName: string, fields: seq<Field>, columns: seq<PostgresColumn>, allObjects: seq<string>)
    returns (sql: string)
    ensures sql == AlterText(AddAlterPass(tableName, fields, columns, allObjects))
  {
    sql := "";
    var i := 0;
    while i < |fields|
      invariant 0 <= i <= |fields|
      invariant sql == AlterText(AddAlterPass(tableName, fields[..i], columns, allObjects))
    {
      ghost var before := sql;
      sql := AddOrAlterColumn(sql, tableName, fields[i], columns, allObjects);
      AddAlterPassStep(tableName, fields, columns, allObjects, i);
      AlterTextAppend(AddAlterPass(tableName, fields[..i], columns, allObjects), FieldAlter(tableName, fields[i], columns, allObjects));
      i := i + 1;
    }
    assert fields[..i] == fields;
  }

  method AddOrAlterColumn(sql0: string, tableName: string, sfField: Field, columns: seq<PostgresColumn>, allObjects: seq<string>)
    returns (sql: string)
    ensures sql == sql0 + AlterText(FieldAlter(tableName, sfField, columns, allObjects))
  {
    sql := sql0;
    var columnName := DeriveName(sfField.name);
    var localColumn := FindColumn(columns, columnName);
    if localColumn.None? {
      sql := sql + ("ALTER TABLE " + tableName + " ADD COLUMN " + columnName + " " + ConvertSalesforceTypeToPostgres(sfField));
      ghost var clause := "";
      if sfField.fieldType == "reference" && |sfField.referenceTo| > 0 {
        var referenceObject := sfField.referenceTo[0];
        if referenceObject in allObjects {
          sql := sql + (" REFERENCES " + DeriveName(referenceObject) + "(id)");
          clause := " REFERENCES " + DeriveName(referenceObject) + "(id)";
        }
      }
      sql := sql + ";\n";
      ghost var s := AddColumn(tableName, columnName, ConvertSalesforceTypeToPostgres(sfField), TargetName(sfField, allObjects));
      assert RenderAlter(s) == ("ALTER TABLE " + tableName + " ADD COLUMN " + columnName + " " + ConvertSalesforceTypeToPostgres(sfField)) + clause + ";\n";
      AppendAssoc3(sql0, "ALTER TABLE " + tableName + " ADD COLUMN " + columnName + " " + ConvertSalesforceTypeToPostgres(sfField), clause, ";\n");
      AlterTextOne(s);
    } else if localColumn.value.colType != Some(ConvertSalesforceTypeToPostgres(sfField)) {
      var s := AlterColumnType(tableName, columnName, ConvertSalesforceTypeToPostgres(sfField));
      sql := sql + ("ALTER TABLE " + tableName + " ALTER COLUMN " + columnName + " TYPE " + ConvertSalesforceTypeToPostgres(sfField) + ";\n");
      AlterTextOne(s);
    } else {
      assert sql0 + "" == sql0;
    }
  }

  lemma AddAlterPassStep(tableName: string, fields: seq<Field>, columns: seq<PostgresColumn>, allObjects: seq<string>, i: nat)
    requires i < |fields|
    ensures AddAlterPass(tableName, fields[..i + 1], columns, allObjects)
      == AddAlterPass(tableName, fields[..i], columns, allObjects) + FieldAlter(tableName, fields[i], columns, allObjects)
  {
    AddAlterPassAppend(tableName, fields[..i], [fields[i]], columns, allObjects);
    assert fields[..i + 1] == fields[..i] + [fields[i]];
    assert AddAlterPass(tableName, [fields[i]], columns, allObjects)
      == FieldAlter(tableName, fields[i], columns, allObjects) + AddAlterPass(tableName, [], columns, allObjects);
  }

  lemma {:induction false} AddAlterPassAppend(tableName: string, a: seq<Field>, b: seq<Field>, columns: seq<PostgresColumn>, allObjects: seq<string>)
    ensures AddAlterPass(tableName, a + b, columns, allObjects)
      == AddAlterPass(tableName, a, columns, allObjects) + AddAlterPass(tableName, b, columns, allObjects)
  {
    if a == [] {
      assert a + b == b;
    } else {
      assert (a + b)[0] == a[0];
      assert (a + b)[1..] == a[1..] + b;
      AddAlterPassAppend(tableName, a[1..], b, columns, allObjects);
    }
  }

  /** The second `forEach`: the guarded constraint blocks. */
  method ForeignKeyStatements(tableName: string, fields: seq<Field>, allObjects: seq<string>) returns (sql: string)
    ensures sql == AlterText(ForeignKeyPass(tableName, fields, allObjects))
  {
    sql := "";
    var i := 0;
    while i < |fields|
      invariant 0 <= i <= |fields|
      invariant sql == AlterText(ForeignKeyPass(tableName, fields[..i], allObjects))
    {
      sql := AddForeignKeyBlock(sql, tableName, fields[i], allObjects);
      ForeignKeyPassStep(tableName, fields, allObjects, i);
      AlterTextAppend(ForeignKeyPass(tableName, fields[..i], allObjects), FieldForeignKey(tableName, fields[i], allObjects));
      i := i + 1;
    }
    assert fields[..i] == fields;
  }

  method AddForeignKeyBlock(sql0: string, tableName: string, sfField: Field, allObjects: seq<string>) returns (sql: string)
    ensures sql == sql0 + AlterText(FieldForeignKey(tableName, sfField, allObjects))
  {
    sql := sql0;
    if sfField.fieldType == "reference" && |sfField.referenceTo| > 0 {
      var referenceObject := sfField.referenceTo[0];
      if referenceObject in allObjects {
        var columnName := DeriveName(sfField.name);
        var constraintName := "fk_" + tableName + "_" + columnName;
        sql := sql + "DO $$\n";
        sql := sql + "BEGIN\n";
        sql := sql + ("  IF NOT EXISTS (SELECT 1 FROM pg_constraint WHERE conname = '" + constraintName + "') THEN\n");
        sql := sql + ("    ALTER TABLE " + tableName + " ADD CONSTRAINT " + constraintName + " ");
        sql := sql + ("FOREIGN KEY (" + columnName + ") REFERENCES " + DeriveName(referenceObject) + "(id);\n");
        sql := sql + "  END IF;\n";
        sql := sql + "END $$;\n\n";
        ghost var s := AddForeignKey(tableName, constraintName, columnName, DeriveName(referenceObject));
        AppendAssoc7(sql0, "DO $$\n", "BEGIN\n",
                     "  IF NOT EXISTS (SELECT 1 FROM pg_constraint WHERE conname = '" + constraintName + "') THEN\n",
                     "    ALTER TABLE " + tableName + " ADD CONSTRAINT " + constraintName + " ",
                     "FOREIGN KEY (" + columnName + ") REFERENCES " + DeriveName(referenceObject) + "(id);\n",
                     "  END IF;\n", "END $$;\n\n");
        AlterTextOne(s);
        return;
      }
    }
    assert sql0 + "" == sql0;
  }

  lemma ForeignKeyPassStep(tableName: string, fields: seq<Field>, allObjects: seq<string>, i: nat)
    requires i < |fields|
    ensures ForeignKeyPass(tableName, fields[..i + 1], allObjects)
      == ForeignKeyPass(tableName, fields[..i], allObjects) + FieldForeignKey(tableName, fields[i], allObjects)
  {
    ForeignKeyPassAppend(tableName, fields[..i], [fields[i]], allObjects);
    assert fields[..i + 1] == fields[..i] + [fields[i]];
    assert ForeignKeyPass(tableName, [fields[i]], allObjects)
      == FieldForeignKey(tableName, fields[i], allObjects) + ForeignKeyPass(tableName, [], allObjects);
  }

  lemma {:induction false} ForeignKeyPassAppend(tableName: string, a: seq<Field>, b: seq<Field>, allObjects: seq<string>)
    ensures ForeignKeyPass(tableName, a + b, allObjects)
      == ForeignKeyPass(tableName, a, allObjects) + ForeignKeyPass(tableName, b, allObjects)
  {
    if a == [] {
      assert a + b == b;
    } else {
      assert (a + b)[0] == a[0];
      assert (a + b)[1..] == a[1..] + b;
      ForeignKeyPassAppend(tableName, a[1..], b, allObjects);
    }
  }

  /** The third `forEach`: `DROP COLUMN` for baseline columns no field derives to. */
  method DropStatements(tableName: string, columns: seq<PostgresColumn>, fields: seq<Field>) returns (sql: string)
    ensures sql == AlterText(DropPass(tableName, columns, fields))
  {
    sql := "";
    var i := 0;
    while i < |columns|
      invariant 0 <= i <= |columns|
      invariant sql == AlterText(DropPass(tableName, columns[..i], fields))
    {
      var localColumn := columns[i];
      ghost var before := sql;
      var matched := exists f :: f in fields && DeriveName(f.name) == localColumn.name;
      if !matched {
        sql := sql + ("ALTER TABLE " + tableName + " DROP COLUMN " + localColumn.name + ";\n");
        AlterTextOne(DropColumn(tableName, localColumn.name));
      } else {
        assert before + "" == before;
      }
      DropPassStep(tableName, columns, fields, i);
      AlterTextAppend(DropPass(tableName, columns[..i], fields), ColumnDrop(tableName, localColumn, fields));
      i := i + 1;
    }
    assert columns[..i] == columns;
  }

  lemma DropPassStep(tableName: string, columns: seq<PostgresColumn>, fields: seq<Field>, i: nat)
    requires i < |columns|
    ensures DropPass(tableName, columns[..i + 1], fields)
      == DropPass(tableName, columns[..i], fields) + ColumnDrop(tableName, columns[i], fields)
  {
    DropPassAppend(tableName, columns[..i], [columns[i]], fields);
    assert columns[..i + 1] == columns[..i] + [columns[i]];
    assert DropPass(tableName, [columns[i]], fields)
      == ColumnDrop(tableName, columns[i], fields) + DropPass(tableName, [], fields);
  }

  lemma {:induction false} DropPassAppend(tableName: string, a: seq<PostgresColumn>, b: seq<PostgresColumn>, fields: seq<Field>)
    ensures DropPass(tableName, a + b, fields) == DropPass(tableName, a, fields) + DropPass(tableName, b, fields)
  {
    if a == [] {
      assert a + b == b;
    } else {
      assert (a + b)[0] == a[0];
      assert (a + b)[1..] == a[1..] + b;
      DropPassAppend(tableName, a[1..], b, fields);
    }
  }
}
