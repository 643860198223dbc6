/**
 * `generateDDL` and its type mapping: the `CREATE TABLE` script derived from
 * one object's fields.  The script is specified as the rendering of a
 * `Schema` value (`BuildSchema`): the main table with its columns in field
 * order, then per enumerated field its lookup table and either a foreign-key
 * constraint (picklist) or a junction table (multipicklist).
 */
module DdlGenerator {
  import opened Optional
  import opened Strings
  import opened Naming
  import opened Metadata

  /** `typeMap`: Salesforce field type to Postgres column type. */
  const TypeMap: map<string, string> := map[
    "string" := "TEXT", "textarea" := "TEXT", "boolean" := "BOOLEAN",
    "double" := "NUMERIC", "currency" := "NUMERIC", "date" := "DATE",
    "datetime" := "TIMESTAMP", "email" := "TEXT", "phone" := "TEXT",
    "url" := "TEXT", "reference" := "UUID"]

  /** Every type `convertFieldType` can produce. */
  const PostgresTypes: set<string> := {"TEXT", "BOOLEAN", "NUMERIC", "DATE", "TIMESTAMP", "UUID"}

  /** `convertFieldType`: a two-valued picklist is a boolean; otherwise the table, else `TEXT`. */
  function ConvertFieldType(f: Field): (t: string)
    ensures t in PostgresTypes
  {
    if f.fieldType == "picklist" && |f.picklistValues| == 2 then "BOOLEAN"
    else if f.fieldType in TypeMap then TypeMap[f.fieldType]
    else "TEXT"
  }

  /** The mapping type by type, including the types the table does not know. */
  lemma ConvertFieldTypeTable(f: Field)
    ensures f.fieldType == "picklist" && |f.picklistValues| == 2 ==> ConvertFieldType(f) == "BOOLEAN"
    ensures f.fieldType == "picklist" && |f.picklistValues| != 2 ==> ConvertFieldType(f) == "TEXT"
    ensures f.fieldType in {"string", "textarea", "email", "phone", "url", "multipicklist"} ==> ConvertFieldType(f) == "TEXT"
    ensures f.fieldType == "boolean" ==> ConvertFieldType(f) == "BOOLEAN"
    ensures f.fieldType in {"double", "currency"} ==> ConvertFieldType(f) == "NUMERIC"
    ensures f.fieldType == "date" ==> ConvertFieldType(f) == "DATE"
    ensures f.fieldType == "datetime" ==> ConvertFieldType(f) == "TIMESTAMP"
    ensures f.fieldType == "reference" ==> ConvertFieldType(f) == "UUID"
    ensures f.fieldType !in TypeMap && f.fieldType != "picklist" ==> ConvertFieldType(f) == "TEXT"
  {
  }

  // ---------------------------------------------------------------------------
  // The derived schema

  /** One column of the main table as `generateDDL` writes it. */
  datatype ColumnDef = ColumnDef(name: string, sqlType: string, primaryKey: bool, references: Option<string>)

  /** The statements written after the main table. */
  datatype AuxDdl =
    | LookupTable(name: string)
    | PicklistForeignKey(table: string, column: string, lookup: string)
    | JunctionTable(name: string, table: string, column: string, lookup: string)

  datatype Schema = Schema(name: string, columns: seq<ColumnDef>, aux: seq<AuxDdl>)

  /** The seed column `id UUID PRIMARY KEY`. */
  const IdColumn := ColumnDef("id", "UUID", true, None)

  /** The main-table column a field contributes: none, `<col>_id INTEGER`, or `<col> <type>`. */
  function ColumnFor(f: Field, allObjects: seq<string>): seq<ColumnDef> {
    var columnName := DeriveName(f.name);
    if IsWidePicklist(f) then [ColumnDef(columnName + "_id", "INTEGER", false, None)]
    else if f.fieldType == "multipicklist" then []
    else
      var target := match KnownTarget(f, allObjects)
        case Some(t) => Some(DeriveName(t))
        case None => None;
      [ColumnDef(columnName, ConvertFieldType(f), false, target)]
  }

  function FieldColumns(fields: seq<Field>, allObjects: seq<string>): seq<ColumnDef> {
    if fields == [] then [] else ColumnFor(fields[0], allObjects) + FieldColumns(fields[1..], allObjects)
  }

  /** What follows the main table for one field. */
  function AuxFor(tableName: string, f: Field): seq<AuxDdl> {
    if !HasLookupTable(f) then []
    else
      var columnName := DeriveName(f.name);
      var lookup := tableName + "_" + columnName;
      if f.fieldType == "picklist" then [LookupTable(lookup), PicklistForeignKey(tableName, columnName, lookup)]
      else [LookupTable(lookup), JunctionTable(lookup + "_junction", tableName, columnName, lookup)]
  }

  function AuxTables(tableName: string, fields: seq<Field>): seq<AuxDdl> {
    if fields == [] then [] else AuxFor(tableName, fields[0]) + AuxTables(tableName, fields[1..])
  }

  /** The schema `generateDDL` writes for `objectName`. */
  function BuildSchema(objectName: string, fields: seq<Field>, allObjects: seq<string>): (s: Schema)
    ensures s.name == DeriveName(objectName)
    ensures |s.columns| >= 1 && s.columns[0] == IdColumn
    ensures fields == [] ==> s.columns == [IdColumn] && s.aux == []
  {
    var tableName := DeriveName(objectName);
    Schema(tableName, [IdColumn] + FieldColumns(fields, allObjects), AuxTables(tableName, fields))
  }

  // ---------------------------------------------------------------------------
  // Properties of the derived schema

  /** What each field contributes to the main table. */
  lemma ColumnForShape(f: Field, allObjects: seq<string>)
    ensures IsWidePicklist(f) ==>
      ColumnFor(f, allObjects) == [ColumnDef(DeriveName(f.name) + "_id", "INTEGER", false, None)]
    ensures IsWidePicklist(f) ==> forall c :: c in ColumnFor(f, allObjects) ==> c.name != DeriveName(f.name)
    ensures f.fieldType == "multipicklist" ==> ColumnFor(f, allObjects) == []
    ensures !IsWidePicklist(f) && f.fieldType != "multipicklist" ==>
      var cs := ColumnFor(f, allObjects);
      |cs| == 1 && cs[0].name == DeriveName(f.name) && cs[0].sqlType == ConvertFieldType(f) && !cs[0].primaryKey
  {
  }

  /**
   * A column carries `REFERENCES <removeSuffix(lower(t))>(id)` exactly when the
   * field is a reference whose first target `t` is a known object.
   */
  lemma ColumnReferences(f: Field, allObjects: seq<string>, c: ColumnDef)
    requires c in ColumnFor(f, allObjects)
    ensures c.references.Some? <==>
      f.fieldType == "reference" && |f.referenceTo| > 0 && f.referenceTo[0] in allObjects
    ensures c.references.Some? ==> c.references.value == DeriveName(f.referenceTo[0])
  {
  }

  /** Targets after the first are never consulted. */
  lemma LaterTargetsIgnored(f: Field, allObjects: seq<string>, later: seq<string>)
    requires |f.referenceTo| > 0
    ensures ColumnFor(f.(referenceTo := f.referenceTo[..1] + later), allObjects) == ColumnFor(f, allObjects)
  {
    var g := f.(referenceTo := f.referenceTo[..1] + later);
    assert g.referenceTo[0] == f.referenceTo[0];
    assert KnownTarget(g, allObjects) == KnownTarget(f, allObjects);
  }

  lemma {:induction false} FieldColumnsAppend(a: seq<Field>, b: seq<Field>, allObjects: seq<string>)
    ensures FieldColumns(a + b, allObjects) == FieldColumns(a, allObjects) + FieldColumns(b, allObjects)
  {
    if a == [] {
      assert a + b == b;
    } else {
      assert (a + b)[0] == a[0];
      assert (a + b)[1..] == a[1..] + b;
      FieldColumnsAppend(a[1..], b, allObjects);
    }
  }

  lemma FieldColumnsStep(fields: seq<Field>, allObjects: seq<string>, i: nat)
    requires i < |fields|
    ensures FieldColumns(fields[..i + 1], allObjects) == FieldColumns(fields[..i], allObjects) + ColumnFor(fields[i], allObjects)
  {
    assert fields[..i + 1] == fields[..i] + [fields[i]];
    FieldColumnsAppend(fields[..i], [fields[i]], allObjects);
    assert FieldColumns([fields[i]], allObjects) == ColumnFor(fields[i], allObjects) + FieldColumns([], allObjects);
  }

  /** Columns come in field order: the i-th field's column sits between its neighbours'. */
  lemma FieldColumnsInOrder(fields: seq<Field>, allObjects: seq<string>, i: nat)
    requires i < |fields|
    ensures FieldColumns(fields, allObjects)
      == FieldColumns(fields[..i], allObjects) + ColumnFor(fields[i], allObjects) + FieldColumns(fields[i + 1..], allObjects)
  {
    assert fields == fields[..i] + [fields[i]] + fields[i + 1..];
    FieldColumnsAppend(fields[..i] + [fields[i]], fields[i + 1..], allObjects);
    FieldColumnsAppend(fields[..i], [fields[i]], allObjects);
    assert FieldColumns([fields[i]], allObjects) == ColumnFor(fields[i], allObjects) + FieldColumns([], allObjects);
  }

  /** Fields that are not multipicklists. */
  function InlineFieldCount(fields: seq<Field>): nat {
    if fields == [] then 0
    else (if fields[0].fieldType == "multipicklist" then 0 else 1) + InlineFieldCount(fields[1..])
  }

  /** The main table holds the seed column and one column per non-multipicklist field. */
  lemma {:induction false} MainColumnCount(objectName: string, fields: seq<Field>, allObjects: seq<string>)
    ensures |BuildSchema(objectName, fields, allObjects).columns| == 1 + InlineFieldCount(fields)
  {
    FieldColumnsCount(fields, allObjects);
  }

  lemma {:induction false} FieldColumnsCount(fields: seq<Field>, allObjects: seq<string>)
    ensures |FieldColumns(fields, allObjects)| == InlineFieldCount(fields)
  {
    if fields != [] {
      FieldColumnsCount(fields[1..], allObjects);
    }
  }

  /**
   * Per enumerated field with more than two values, one lookup table
   * `<table>_<col>`, followed by `fk_<table>_<col>` for a picklist or by the
   * junction table `<table>_<col>_junction` for a multipicklist; nothing for
   * any other field.
   */
  lemma AuxForShape(tableName: string, f: Field)
    ensures !HasLookupTable(f) <==> AuxFor(tableName, f) == []
    ensures IsWidePicklist(f) ==>
      var c := DeriveName(f.name);
      AuxFor(tableName, f) == [LookupTable(tableName + "_" + c), PicklistForeignKey(tableName, c, tableName + "_" + c)]
    ensures HasLookupTable(f) && f.fieldType == "multipicklist" ==>
      var c := DeriveName(f.name);
      AuxFor(tableName, f) ==
        [LookupTable(tableName + "_" + c), JunctionTable(tableName + "_" + c + "_junction", tableName, c, tableName + "_" + c)]
  {
  }

  lemma {:induction false} AuxTablesAppend(tableName: string, a: seq<Field>, b: seq<Field>)
    ensures AuxTables(tableName, a + b) == AuxTables(tableName, a) + AuxTables(tableName, b)
  {
    if a == [] {
      assert a + b == b;
    } else {
      assert (a + b)[0] == a[0];
      assert (a + b)[1..] == a[1..] + b;
      AuxTablesAppend(tableName, a[1..], b);
    }
  }

  lemma AuxTablesStep(tableName: string, fields: seq<Field>, i: nat)
    requires i < |fields|
    ensures AuxTables(tableName, fields[..i + 1]) == AuxTables(tableName, fields[..i]) + AuxFor(tableName, fields[i])
  {
    assert fields[..i + 1] == fields[..i] + [fields[i]];
    AuxTablesAppend(tableName, fields[..i], [fields[i]]);
    assert AuxTables(tableName, [fields[i]]) == AuxFor(tableName, fields[i]) + AuxTables(tableName, []);
  }

  /** The auxiliary statements come in field order. */
  lemma AuxTablesInOrder(tableName: string, fields: seq<Field>, i: nat)
    requires i < |fields|
    ensures AuxTables(tableName, fields)
      == AuxTables(tableName, fields[..i]) + AuxFor(tableName, fields[i]) + AuxTables(tableName, fields[i + 1..])
  {
    assert fields == fields[..i] + [fields[i]] + fields[i + 1..];
    AuxTablesAppend(tableName, fields[..i] + [fields[i]], fields[i + 1..]);
    AuxTablesAppend(tableName, fields[..i], [fields[i]]);
    assert AuxTables(tableName, [fields[i]]) == AuxFor(tableName, fields[i]) + AuxTables(tableName, []);
  }

  /** Lookup tables among the auxiliary statements. */
  function LookupCount(aux: seq<AuxDdl>): nat {
    if aux == [] then 0 else (if aux[0].LookupTable? then 1 else 0) + LookupCount(aux[1..])
  }

  /** Fields that get a lookup table. */
  function LookupFieldCount(fields: seq<Field>): nat {
    if fields == [] then 0 else (if HasLookupTable(fields[0]) then 1 else 0) + LookupFieldCount(fields[1..])
  }

  lemma {:induction false} LookupCountAppend(a: seq<AuxDdl>, b: seq<AuxDdl>)
    ensures LookupCount(a + b) == LookupCount(a) + LookupCount(b)
  {
    if a == [] {
      assert a + b == b;
    } else {
      assert (a + b)[0] == a[0];
      assert (a + b)[1..] == a[1..] + b;
      LookupCountAppend(a[1..], b);
    }
  }

  /** Exactly one lookup table per enumerated field with more than two values. */
  lemma {:induction false} OneLookupTablePerField(tableName: string, fields: seq<Field>)
    ensures LookupCount(AuxTables(tableName, fields)) == LookupFieldCount(fields)
  {
    if fields != [] {
      OneLookupTablePerField(tableName, fields[1..]);
      LookupCountAppend(AuxFor(tableName, fields[0]), AuxTables(tableName, fields[1..]));
      assert LookupCount(AuxFor(tableName, fields[0])) == if HasLookupTable(fields[0]) then 1 else 0;
    }
  }

  /** A two-valued picklist is a boolean column and gets no lookup table. */
  lemma TwoValuedPicklistIsBoolean(tableName: string, f: Field, allObjects: seq<string>)
    requires f.fieldType == "picklist" && |f.picklistValues| == 2
    ensures ColumnFor(f, allObjects) == [ColumnDef(DeriveName(f.name), "BOOLEAN", false, None)]
    ensures AuxFor(tableName, f) == []
  {
  }

  // ---------------------------------------------------------------------------
  // Text

  function RenderColumn(c: ColumnDef): string {
    c.name + " " + c.sqlType + (if c.primaryKey then " PRIMARY KEY" else "")
    + (match c.references case Some(r) => " REFERENCES " + r + "(id)" case None => "")
  }

  function ColumnLine(c: ColumnDef): string {
    "  " + RenderColumn(c)
  }

  /** The column lines joined by `,\n`: the text left once the last separator is sliced off. */
  function ColumnsBlock(cs: seq<ColumnDef>): string {
    if |cs| == 0 then ""
    else if |cs| == 1 then ColumnLine(cs[0])
    else ColumnLine(cs[0]) + ",\n" + ColumnsBlock(cs[1..])
  }

  /** Every column line followed by `,\n`: what the column loop appends. */
  function WithCommas(cs: seq<ColumnDef>): string {
    if cs == [] then "" else ColumnLine(cs[0]) + ",\n" + WithCommas(cs[1..])
  }

  /** One piece per statement the generator appends. */
  function RenderAux(a: AuxDdl): string {
    match a
    case LookupTable(p) =>
      ("CREATE TABLE " + p + " (\n") + "  id SERIAL PRIMARY KEY,\n" + "  value TEXT NOT NULL UNIQUE\n" + ");\n\n"
    case PicklistForeignKey(t, c, p) =>
      ("ALTER TABLE " + t + " ADD CONSTRAINT fk_" + t + "_" + c + " ")
      + ("FOREIGN KEY (" + c + "_id) REFERENCES " + p + "(id);\n\n")
    case JunctionTable(j, t, c, p) =>
      ("CREATE TABLE " + j + " (\n")
      + ("  " + t + "_id UUID REFERENCES " + t + "(id),\n")
      + ("  " + c + "_id INTEGER REFERENCES " + p + "(id),\n")
      + ("  PRIMARY KEY (" + t + "_id, " + c + "_id)\n")
      + ");\n\n"
  }

  function AuxText(aux: seq<AuxDdl>): string {
    if aux == [] then "" else RenderAux(aux[0]) + AuxText(aux[1..])
  }

  function MainHeader(tableName: string): string {
    "CREATE TABLE " + tableName + " (\n"
  }

  function RenderSchema(s: Schema): string {
    MainHeader(s.name) + ColumnsBlock(s.columns) + "\n);\n\n" + AuxText(s.aux)
  }

  lemma {:induction false} WithCommasAppend(a: seq<ColumnDef>, b: seq<ColumnDef>)
    ensures WithCommas(a + b) == WithCommas(a) + WithCommas(b)
  {
    if a == [] {
      assert a + b == b;
    } else {
      assert (a + b)[0] == a[0];
      assert (a + b)[1..] == a[1..] + b;
      WithCommasAppend(a[1..], b);
    }
  }

  /** Slicing the final `,\n` off the loop's text leaves the joined block. */
  lemma {:induction false} WithCommasIsBlock(cs: seq<ColumnDef>)
    requires |cs| > 0
    ensures WithCommas(cs) == ColumnsBlock(cs) + ",\n"
  {
    if |cs| > 1 {
      WithCommasIsBlock(cs[1..]);
    }
  }

  lemma {:induction false} AuxTextAppend(a: seq<AuxDdl>, b: seq<AuxDdl>)
    ensures AuxText(a + b) == AuxText(a) + AuxText(b)
  {
    if a == [] {
      assert a + b == b;
    } else {
      assert (a + b)[0] == a[0];
      assert (a + b)[1..] == a[1..] + b;
      AuxTextAppend(a[1..], b);
    }
  }

  // ---------------------------------------------------------------------------
  // generateDDL

  /** The ` REFERENCES <target>(id)` clause of a column, or nothing. */
  function ReferenceClause(f: Field, allObjects: seq<string>): string {
    match KnownTarget(f, allObjects)
    case Some(t) => " REFERENCES " + DeriveName(t) + "(id)"
    case None => ""
  }

  /** A single column contributes its line and a separator. */
  lemma WithCommasOne(c: ColumnDef)
    ensures WithCommas([c]) == ColumnLine(c) + ",\n"
  {
    assert [c][1..] == [];
    assert ColumnLine(c) + ",\n" + "" == ColumnLine(c) + ",\n";
  }

  /** The text a picklist with more than two values adds to the column list. */
  lemma WideColumnText(f: Field, allObjects: seq<string>)
    requires IsWidePicklist(f)
    ensures WithCommas(ColumnFor(f, allObjects)) == "  " + DeriveName(f.name) + "_id INTEGER,\n"
  {
    var c := ColumnDef(DeriveName(f.name) + "_id", "INTEGER", false, None);
    WithCommasOne(c);
    assert RenderColumn(c) == DeriveName(f.name) + "_id" + " " + "INTEGER" + "" + "";
  }

  /** The text any other non-multipicklist field adds: name, type, reference clause. */
  lemma PlainColumnText(f: Field, allObjects: seq<string>)
    requires !IsWidePicklist(f) && f.fieldType != "multipicklist"
    ensures WithCommas(ColumnFor(f, allObjects))
      == "  " + DeriveName(f.name) + " " + ConvertFieldType(f) + ReferenceClause(f, allObjects) + ",\n"
  {
    var target := match KnownTarget(f, allObjects)
      case Some(t) => Some(DeriveName(t))
      case None => None;
    var c := ColumnDef(DeriveName(f.name), ConvertFieldType(f), false, target);
    assert ColumnFor(f, allObjects) == [c];
    WithCommasOne(c);
    calc {
      ColumnLine(c);
      "  " + (DeriveName(f.name) + " " + ConvertFieldType(f) + "" + ReferenceClause(f, allObjects));
      "  " + DeriveName(f.name) + " " + ConvertFieldType(f) + ReferenceClause(f, allObjects);
    }
  }

  /** `generateDDL`: builds the script piece by piece, exactly as `BuildSchema` renders. */
  method GenerateDdl(objectName: string, fields: seq<Field>, allObjects: seq<string>) returns (ddl: string)
    ensures ddl == RenderSchema(BuildSchema(objectName, fields, allObjects))
  {
    var tableName := DeriveName(objectName);
    ddl := "CREATE TABLE " + tableName + " (\n";
    ddl := ddl + "  id UUID PRIMARY KEY,\n";
    var columns := AppendColumns(fields, allObjects);
    ddl := ddl + columns;
    ghost var withLastComma := ddl;
    ddl := ddl[..|ddl| - 2]; // the last comma and newline
    ddl := ddl + "\n);\n\n";
    var aux := AppendAuxTables(tableName, fields);
    ddl := ddl + aux;
    GeneratedText(objectName, fields, allObjects, withLastComma, aux);
  }

  /** The pieces `generateDDL` appends, the slice included, make up the rendered schema. */
  lemma GeneratedText(objectName: string, fields: seq<Field>, allObjects: seq<string>, w: string, aux: string)
    requires w == "CREATE TABLE " + DeriveName(objectName) + " (\n" + "  id UUID PRIMARY KEY,\n"
                  + WithCommas(FieldColumns(fields, allObjects))
    requires aux == AuxText(AuxTables(DeriveName(objectName), fields))
    ensures |w| >= 2 && w[..|w| - 2] + "\n);\n\n" + aux == RenderSchema(BuildSchema(objectName, fields, allObjects))
  {
    var tableName := DeriveName(objectName);
    var block := MainHeader(tableName) + ColumnsBlock([IdColumn] + FieldColumns(fields, allObjects)) + "\n);\n\n";
    calc {
      w[..|w| - 2] + "\n);\n\n" + aux;
      { MainTableSlice(tableName, FieldColumns(fields, allObjects), w); }
      block + aux;
      { RenderSchemaParts(objectName, fields, allObjects); }
      RenderSchema(BuildSchema(objectName, fields, allObjects));
    }
  }

  lemma RenderSchemaParts(objectName: string, fields: seq<Field>, allObjects: seq<string>)
    ensures var tableName := DeriveName(objectName);
      RenderSchema(BuildSchema(objectName, fields, allObjects))
      == MainHeader(tableName) + ColumnsBlock([IdColumn] + FieldColumns(fields, allObjects)) + "\n);\n\n"
         + AuxText(AuxTables(tableName, fields))
  {
  }

  lemma IdColumnText()
    ensures WithCommas([IdColumn]) == "  id UUID PRIMARY KEY,\n"
  {
    assert [IdColumn][1..] == [];
  }

  /** Cutting the loop's last `,\n` and closing the statement gives the rendered main table. */
  lemma MainTableSlice(tableName: string, cs: seq<ColumnDef>, w: string)
    requires w == "CREATE TABLE " + tableName + " (\n" + "  id UUID PRIMARY KEY,\n" + WithCommas(cs)
    ensures |w| >= 2 && w[..|w| - 2] + "\n);\n\n" == MainHeader(tableName) + ColumnsBlock([IdColumn] + cs) + "\n);\n\n"
  {
    var all := [IdColumn] + cs;
    IdColumnText();
    WithCommasAppend([IdColumn], cs);
    WithCommasIsBlock(all);
    var h := MainHeader(tableName);
    calc {
      w;
      h + "  id UUID PRIMARY KEY,\n" + WithCommas(cs);
      { AppendAssoc(h, "  id UUID PRIMARY KEY,\n", WithCommas(cs)); }
      h + WithCommas(all);
      h + (ColumnsBlock(all) + ",\n");
      { AppendAssoc(h, ColumnsBlock(all), ",\n"); }
      h + ColumnsBlock(all) + ",\n";
    }
    assert w[..|w| - 2] == h + ColumnsBlock(all);
  }

  /** The first pass of `generateDDL`: one `,\n`-terminated line per column. */
  method AppendColumns(fields: seq<Field>, allObjects: seq<string>) returns (ddl: string)
    ensures ddl == WithCommas(FieldColumns(fields, allObjects))
  {
    ddl := "";
    var i := 0;
    while i < |fields|
      invariant 0 <= i <= |fields|
      invariant ddl == WithCommas(FieldColumns(fields[..i], allObjects))
    {
      ghost var before := ddl;
      ddl := AddColumn(ddl, fields[i], allObjects);
      FieldColumnsStep(fields, allObjects, i);
      WithCommasAppend(FieldColumns(fields[..i], allObjects), ColumnFor(fields[i], allObjects));
      AppendAssoc(before, WithCommas(FieldColumns(fields[..i], allObjects)), WithCommas(ColumnFor(fields[i], allObjects)));
      i := i + 1;
    }
    assert fields[..i] == fields;
  }

  /** The first pass's callback: the column line of one field, if it has one. */
  method AddColumn(ddl0: string, field: Field, allObjects: seq<string>) returns (ddl: string)
    ensures ddl == ddl0 + WithCommas(ColumnFor(field, allObjects))
  {
    ddl := ddl0;
    var columnName := DeriveName(field.name);
    if field.fieldType == "picklist" && |field.picklistValues| > 2 {
      WideColumnText(field, allObjects);
      ddl := ddl + ("  " + columnName + "_id INTEGER,\n");
    } else if field.fieldType != "multipicklist" {
      PlainColumnText(field, allObjects);
      ddl := ddl + ("  " + columnName + " " + ConvertFieldType(field));
      ghost var clause := "";
      if field.fieldType == "reference" && |field.referenceTo| > 0 {
        var referenceObject := field.referenceTo[0];
        if referenceObject in allObjects {
          ddl := ddl + (" REFERENCES " + DeriveName(referenceObject) + "(id)");
          clause := " REFERENCES " + DeriveName(referenceObject) + "(id)";
        }
      }
      assert clause == ReferenceClause(field, allObjects);
      assert ddl == ddl0 + ("  " + columnName + " " + ConvertFieldType(field)) + clause;
      ddl := ddl + ",\n";
      AppendAssoc3(ddl0, "  " + columnName + " " + ConvertFieldType(field), clause, ",\n");
    } else {
      assert ddl0 + "" == ddl0;
    }
  }

  /** The second pass of `generateDDL`: the lookup, constraint and junction statements. */
  method AppendAuxTables(tableName: string, fields: seq<Field>) returns (ddl: string)
    ensures ddl == AuxText(AuxTables(tableName, fields))
  {
    ddl := "";
    var i := 0;
    while i < |fields|
      invariant 0 <= i <= |fields|
      invariant ddl == AuxText(AuxTables(tableName, fields[..i]))
    {
      ghost var before := ddl;
      ddl := AddAuxTables(ddl, tableName, fields[i]);
      AuxTablesStep(tableName, fields, i);
      AuxTextAppend(AuxTables(tableName, fields[..i]), AuxFor(tableName, fields[i]));
      AppendAssoc(before, AuxText(AuxTables(tableName, fields[..i])), AuxText(AuxFor(tableName, fields[i])));
      i := i + 1;
    }
    assert fields[..i] == fields;
  }

  /** The second pass's callback: the lookup table of one enumerated field and its link. */
  method AddAuxTables(ddl0: string, tableName: string, field: Field) returns (ddl: string)
    ensures ddl == ddl0 + AuxText(AuxFor(tableName, field))
  {
    ddl := ddl0;
    if (field.fieldType == "picklist" || field.fieldType == "multipicklist") && |field.picklistValues| > 2 {
      var columnName := DeriveName(field.name);
      var picklistTableName := tableName + "_" + columnName;
      ddl := ddl + ("CREATE TABLE " + picklistTableName + " (\n");
      ddl := ddl + "  id SERIAL PRIMARY KEY,\n";
      ddl := ddl + "  value TEXT NOT NULL UNIQUE\n";
      ddl := ddl + ");\n\n";
      ghost var lookupText := ddl;
      AppendAssoc4(ddl0, "CREATE TABLE " + picklistTableName + " (\n", "  id SERIAL PRIMARY KEY,\n",
                   "  value TEXT NOT NULL UNIQUE\n", ");\n\n");
      ghost var lookup := LookupTable(picklistTableName);
      assert lookupText == ddl0 + RenderAux(lookup);
      if field.fieldType == "picklist" {
        ddl := ddl + ("ALTER TABLE " + tableName + " ADD CONSTRAINT fk_" + tableName + "_" + columnName + " ");
        ddl := ddl + ("FOREIGN KEY (" + columnName + "_id) REFERENCES " + picklistTableName + "(id);\n\n");
        ghost var link := PicklistForeignKey(tableName, columnName, picklistTableName);
        assert ddl == lookupText + RenderAux(link);
        AppendAssoc(ddl0, RenderAux(lookup), RenderAux(link));
        AuxTextPair(lookup, link);
        assert AuxFor(tableName, field) == [lookup, link];
      } else if field.fieldType == "multipicklist" {
        var junctionTableName := tableName + "_" + columnName + "_junction";
        ddl := ddl + ("CREATE TABLE " + junctionTableName + " (\n");
        ddl := ddl + ("  " + tableName + "_id UUID REFERENCES " + tableName + "(id),\n");
        ddl := ddl + ("  " + columnName + "_id INTEGER REFERENCES " + picklistTableName + "(id),\n");
        ddl := ddl + ("  PRIMARY KEY (" + tableName + "_id, " + columnName + "_id)\n");
        ddl := ddl + ");\n\n";
        AppendAssoc5(lookupText, "CREATE TABLE " + junctionTableName + " (\n",
                     "  " + tableName + "_id UUID REFERENCES " + tableName + "(id),\n",
                     "  " + columnName + "_id INTEGER REFERENCES " + picklistTableName + "(id),\n",
                     "  PRIMARY KEY (" + tableName + "_id, " + columnName + "_id)\n", ");\n\n");
        ghost var link := JunctionTable(junctionTableName, tableName, columnName, picklistTableName);
        assert ddl == lookupText + RenderAux(link);
        AppendAssoc(ddl0, RenderAux(lookup), RenderAux(link));
        AuxTextPair(lookup, link);
        assert AuxFor(tableName, field) == [lookup, link];
      }
    } else {
      assert ddl0 + "" == ddl0;
    }
  }

  lemma AuxTextPair(x: AuxDdl, y: AuxDdl)
    ensures AuxText([x, y]) == RenderAux(x) + RenderAux(y)
  {
    var rx, ry := RenderAux(x), RenderAux(y);
    assert [x, y][1..] == [y];
    assert [y][1..] == [];
    assert AuxText([y]) == ry + "";
    assert ry + "" == ry;
  }
}
