# force2Postgres schema core, in Dafny

force2Postgres turns Salesforce object metadata into PostgreSQL scripts. This
project models the part that derives and diffs schemas:

- **Names and types.** Table and column names come from API names: lower-cased,
  with one trailing `__c` removed (`removeSuffix`). Field types map through a
  fixed table; a two-valued picklist becomes `BOOLEAN` and anything unknown
  becomes `TEXT`.
- **Schema script (`generateDDL`).** The `CREATE TABLE` script has an
  `id UUID PRIMARY KEY` seed column and one column per field. A picklist with
  more than two values becomes a `<col>_id INTEGER` column, and a multipicklist
  gets no column. `REFERENCES` is added when the first reference target is a
  known object. Each picklist or multipicklist with more than two values then
  gets a lookup table, followed by a foreign-key constraint (picklist) or a
  junction table (multipicklist).
- **Seed script (`generatePicklistDDL`).** It inserts every lookup table's
  values with ids 1..n.
- **Baseline readers.** The line scan of `getCurrentPicklistValues` reads the
  values back out of a stored seed script. `parseCreateTableStatement` reads a
  stored `CREATE TABLE` script back into a table of columns.
- **Differs.**
  - `generatePicklistUpdates` compares the current values with the baseline
    and emits `INSERT`s for new values, then `DELETE`s for removed ones.
  - `generateAlterTableStatements` compares the fields with a parsed baseline
    table. It emits ADD/ALTER COLUMN per field, then guarded foreign-key
    blocks, then DROP COLUMN.
- **`detectCustomRelationships`.** It guesses a custom object's parent from
  its name.

Modules, one per concern:

| module | file | contents |
|---|---|---|
| `Optional` | optional.dfy | `Option` |
| `Strings` | strings.dfy | JavaScript string operations: `startsWith`, `endsWith`, `includes`, `split`, `trim`, ASCII `toLowerCase`, decimal rendering |
| `Patterns` | patterns.dfy | recognizers for the three fixed regular expressions `CREATE TABLE (\w+)`, `REFERENCES (\w+)` and `VALUES \(\d+, '(.+)'\)` |
| `Naming` | naming.dfy | `removeSuffix` and the derived names |
| `Metadata` | metadata.dfy | the `Field` record and the field classes both generators test |
| `DdlGenerator` | ddl_generator.dfy | `typeMap`, `convertFieldType`, `generateDDL` |
| `Picklists` | picklists.dfy | `generatePicklistDDL`, the value scan, `generatePicklistUpdates` |
| `SqlComparer` | sql_comparer.dfy | `parseCreateTableStatement`, `convertSalesforceTypeToPostgres`, `generateAlterTableStatements` |
| `MetadataFetcher` | metadata_fetcher.dfy | `detectCustomRelationships` |
| `SeedRoundTrip` | seed_round_trip.dfy | what the value scan recovers from a generated seed script |
| `SchemaRoundTrip` | schema_round_trip.dfy | what the table parser recovers from a generated schema script, and what the differ then emits |

Each loop that builds a script becomes a `method` with a `while` loop:
`GenerateDdl`, `GeneratePicklistDdl`, `GetCurrentPicklistValues`,
`GeneratePicklistUpdates`, `ParseCreateTableStatement` and
`GenerateAlterTableStatements`. Each one is proved equal to a specification
function. That function describes the output as a value: a `Schema`, a sequence
of `PicklistStmt` or `AlterStmt`, or a `PostgresTable`, together with its
rendering to text where the source produces text. The lemmas state the
properties of those values.

Decisions:
- An absent `picklistValues` or `referenceTo` is modelled as the empty
  sequence. Every use in the source is guarded by a length test, so the two
  behave alike.
- A picklist entry is modelled by its `value`.
- A column's parsed type is an `Option<string>`. `None` is JavaScript's
  `undefined`, which a one-token line yields.
- The `Set` built by `getCurrentPicklistValues` is a sequence without repeats,
  in insertion order, because the deletes iterate it in that order.

## Model

| member | source | states |
|---|---|---|
| Naming.RemoveSuffix | src/ddlGenerator.ts:22-24 | the result is a prefix of the name; with a trailing `__c` it is the name minus those 3 characters, otherwise the name itself |
| Naming.RemoveSuffixNotIdempotent | src/sqlComparer.ts:18-20 | only one marker is removed: `a__c__c` becomes `a__c`, and a second application gives `a` |
| Naming.DeriveNameIsLowerWord | src/ddlGenerator.ts:47 | a name made of word characters derives to lower-case word characters |
| Naming.LookupTableNameIsLowerWord | src/ddlGenerator.ts:82-84 | the lookup-table name `<table>_<col>` of word-character names is a lower-case word |
| DdlGenerator.ConvertFieldType | src/ddlGenerator.ts:26-35 | the result is always one of TEXT, BOOLEAN, NUMERIC, DATE, TIMESTAMP, UUID |
| DdlGenerator.ConvertFieldTypeTable | src/ddlGenerator.ts:8-35 | two-valued picklist gives BOOLEAN; any other picklist, every text-like type and every type outside the table give TEXT; `boolean`, `double`/`currency`, `date`, `datetime`, `reference` give BOOLEAN, NUMERIC, DATE, TIMESTAMP, UUID |
| DdlGenerator.BuildSchema | src/ddlGenerator.ts:42-44 | the main table is named `removeSuffix(lower(objectName))`; its first column is always `id UUID PRIMARY KEY`; with no fields that is its only column and nothing follows it |
| DdlGenerator.ColumnForShape | src/ddlGenerator.ts:48-55 | a picklist with more than 2 values yields exactly `<col>_id INTEGER` and no bare `<col>`; a multipicklist yields no column; any other field yields exactly one column `<col>` of the converted type, not a primary key |
| DdlGenerator.ColumnReferences | src/ddlGenerator.ts:56-67 | a column has a `REFERENCES` target iff the field is a reference whose first target is in `allObjects`; the target is `removeSuffix(lower(referenceTo[0]))` |
| DdlGenerator.LaterTargetsIgnored | src/ddlGenerator.ts:61 | replacing every reference target after the first leaves the column unchanged |
| DdlGenerator.FieldColumnsInOrder | src/ddlGenerator.ts:46-70 | the columns are the per-field columns in field order: field `i`'s columns sit between those of the earlier and of the later fields |
| DdlGenerator.MainColumnCount | src/ddlGenerator.ts:46-73 | the main table has exactly 1 + (number of fields that are not multipicklists) columns |
| DdlGenerator.FieldColumnsCount | src/ddlGenerator.ts:46-70 | the field loop emits one column per field that is not a multipicklist |
| DdlGenerator.AuxForShape | src/ddlGenerator.ts:76-112 | a field emits nothing after the main table iff it is not a picklist/multipicklist with more than 2 values; such a picklist emits lookup table `<table>_<col>` and then constraint `fk_<table>_<col>`; such a multipicklist emits the lookup table and then junction `<table>_<col>_junction` keyed by `<table>_id`, `<col>_id` |
| DdlGenerator.AuxTablesInOrder | src/ddlGenerator.ts:76-112 | the statements after the main table follow field order |
| DdlGenerator.OneLookupTablePerField | src/ddlGenerator.ts:77-88 | exactly one lookup table is emitted per picklist/multipicklist with more than 2 values |
| DdlGenerator.TwoValuedPicklistIsBoolean | src/ddlGenerator.ts:27-33 | a two-valued picklist is a plain BOOLEAN column with no reference and no lookup table |
| DdlGenerator.WithCommasIsBlock | src/ddlGenerator.ts:68-73 | the column lines, each ending in `,\n`, minus the final two characters, are the lines joined by `,\n` |
| DdlGenerator.MainTableSlice | src/ddlGenerator.ts:43-73 | cutting the last `,\n` off the header, id line and column lines, then appending `\n);\n\n`, gives the rendered main table |
| DdlGenerator.GeneratedText | src/ddlGenerator.ts:72-114 | the header, the column lines, the slice, the closing and the statements after the main table together are the rendering of `BuildSchema` |
| DdlGenerator.GenerateDdl | src/ddlGenerator.ts:37-115 | the script built piece by piece equals the rendering of `BuildSchema(objectName, fields, allObjects)` |
| DdlGenerator.AppendColumns | src/ddlGenerator.ts:46-70 | the field loop appends exactly the `,\n`-terminated lines of the derived columns |
| DdlGenerator.AddColumn | src/ddlGenerator.ts:47-69 | one iteration appends exactly the rendered lines of that field's columns |
| DdlGenerator.AppendAuxTables | src/ddlGenerator.ts:76-112 | the second loop appends exactly the rendering of the lookup, constraint and junction statements |
| DdlGenerator.AddAuxTables | src/ddlGenerator.ts:77-111 | one iteration appends exactly the rendering of that field's statements |
| Picklists.SeedScriptInOrder | src/ddlGenerator.ts:123-141 | the seed script lists each field's lines in field order |
| Picklists.FieldSeedLinesShape | src/ddlGenerator.ts:124-139 | a field that gets no lookup table contributes nothing; one that does contributes `INSERT INTO <table>_<col> (id, value) VALUES (k+1, '<v_k>');` for its values in declaration order, then a blank line |
| Picklists.GeneratePicklistDdl | src/ddlGenerator.ts:117-144 | the script built by the loops equals the seed script `PicklistDdl` |
| Picklists.ScanValues | src/ddlGenerator.ts:165-172 | the collected values contain no repeats |
| Picklists.ScanMembership | src/ddlGenerator.ts:165-172 | a value is collected iff some line starts with `INSERT INTO <table>` and matches `VALUES (<digits>, '<v>')` capturing it |
| Picklists.NoFileNoBaseline | src/ddlGenerator.ts:173-175 | a failed read gives the empty baseline |
| Picklists.GetCurrentPicklistValues | src/ddlGenerator.ts:156-176 | the set filled by the line loop equals `CurrentPicklistValues` and has no repeats |
| Picklists.NewValuesMembership | src/ddlGenerator.ts:201-205 | a value is kept iff it is current and not in the baseline |
| Picklists.NewValuesAppend | src/ddlGenerator.ts:201-205 | the new values keep declaration order: those of a concatenation are the first part's followed by the second part's |
| Picklists.InsertMembership | src/ddlGenerator.ts:201-205 | an insert of `v` is emitted iff `v` is a current value absent from the baseline |
| Picklists.DeleteMembership | src/ddlGenerator.ts:208-215 | a delete of `v` is emitted iff `v` is in the baseline and no longer current |
| Picklists.InsertsBeforeDeletes | src/ddlGenerator.ts:200-215 | within a field every insert precedes every delete |
| Picklists.SameValuesNoStmts | src/ddlGenerator.ts:200-215 | when the baseline and the current values hold the same members, the field emits no statements |
| Picklists.EmptyBaselineInsertsAll | src/ddlGenerator.ts:200-215 | with an empty baseline every current value is inserted, in declaration order, and nothing is deleted |
| Picklists.FieldUpdatesPieces | src/ddlGenerator.ts:201-217 | one field's text is its inserts, then its deletes, then a blank line |
| Picklists.GeneratePicklistUpdates | src/ddlGenerator.ts:178-222 | the script built by the loops equals `UpdatesText`: the statements of every field with a lookup table, in field order |
| Patterns.KeywordWordHere | src/sqlComparer.ts:53 | `<kw>` followed by a word that ends at a non-word character is captured as that word |
| Patterns.KeywordWordAbsent | src/sqlComparer.ts:42 | text in which the keyword never starts matches nothing |
| Patterns.ValuesAtInsert | src/ddlGenerator.ts:167 | on `VALUES (<n>, '<v>');` with a non-empty `v` free of line terminators, the greedy capture is exactly `v`, whatever quotes `v` holds |
| Patterns.ValuesAtEmptyInsert | src/ddlGenerator.ts:167 | on `VALUES (<n>, '');` the pattern does not match there |
| SeedRoundTrip.InsertLineMatch | src/ddlGenerator.ts:165-170 | on a generated seed row the pattern captures its value, or nothing when the value is empty |
| SeedRoundTrip.RowCollects | src/ddlGenerator.ts:166-169 | the scan for table `t` takes `w` from a seed row of table `r` iff `r` starts with `t`, the row's value is non-empty and `w` is that value |
| SeedRoundTrip.SeedScriptLines | src/ddlGenerator.ts:160 | splitting a generated seed script at `\n` gives back its lines plus one empty line |
| SeedRoundTrip.SeedScanMembership | src/ddlGenerator.ts:158-172 | scanning a generated seed script for field `f` recovers `v` iff `v` is non-empty and declared by a field whose lookup-table name starts with `f`'s |
| SeedRoundTrip.ScanSound | src/ddlGenerator.ts:165-172 | every value the scan collects from a generated script was declared by a field under that name prefix, and is non-empty |
| SeedRoundTrip.ScanComplete | src/ddlGenerator.ts:165-172 | every non-empty value declared under that name prefix is collected from some line |
| SeedRoundTrip.FreshSeedNoUpdates | src/ddlGenerator.ts:178-222 | against its own freshly generated seed script, a field with no empty value and no other lookup table extending its name recovers exactly its values and emits no updates |
| SeedRoundTrip.PrefixCollisionDeletes | src/ddlGenerator.ts:208-215 | a value of another field whose lookup-table name extends this field's is deleted from this field's table |
| SeedRoundTrip.EmptyValueReinserted | src/ddlGenerator.ts:201-205 | an empty value is never recovered, so it is inserted again on every update run |
| SqlComparer.ParseColumnLineShape | src/sqlComparer.ts:49-53 | the column name is the text before the first space; a captured reference is a word, and a line with one is flagged as a foreign key |
| SqlComparer.ColumnEndFirst | src/sqlComparer.ts:45-47 | the scan stops at the first trimmed line starting with `)`, and no earlier line starts with `)` |
| SqlComparer.ParseTableShape | src/sqlComparer.ts:39-59 | the name is the `CREATE TABLE (\w+)` capture of the first line, or `""`; column k is parsed from trimmed line k+1; there are at most `lines - 2` columns; the scan stops at the first `)` line |
| SqlComparer.ParseCreateTableStatement | src/sqlComparer.ts:39-59 | the parser with its loop and `break` equals `ParseTable` |
| SqlComparer.ReadColumns | src/sqlComparer.ts:43-56 | the indexed loop pushes exactly the columns of lines 1 up to the stopping line |
| SqlComparer.TypeMapsAgree | src/sqlComparer.ts:61-85 | the second copy of the type mapping agrees with `convertFieldType` on every field, the two-valued picklist included |
| SqlComparer.FindColumn | src/sqlComparer.ts:100 | a found column is in the table and has the name; nothing is found iff no column has the name |
| SqlComparer.FindColumnFirst | src/sqlComparer.ts:100 | the search returns the first column with the name |
| SqlComparer.NoBaselineNoStatements | src/sqlComparer.ts:94-96 | with no baseline table nothing is emitted |
| SqlComparer.FieldAlterShape | src/sqlComparer.ts:98-123 | per field at most one statement; ADD COLUMN iff no baseline column has the name; ALTER COLUMN TYPE iff the first such column's type differs from the converted type; both name that column and type |
| SqlComparer.WidePicklistLookedUpBare | src/sqlComparer.ts:99-104 | a picklist with more than 2 values is looked up under its bare name, so without such a column it is added as a TEXT column, not `<col>_id` |
| SqlComparer.TypeTokenKeepsComma | src/sqlComparer.ts:49-50 | on a line `<name> <type>,` the parsed type is `<type>,`, comma included |
| SqlComparer.CommaTypeRetyped | src/sqlComparer.ts:118-122 | a baseline column whose type carries that comma is always retyped |
| SqlComparer.PlanOrdered | src/sqlComparer.ts:98-154 | all ADD/ALTER statements precede all foreign-key blocks, which precede all DROPs |
| SqlComparer.ForeignKeyEmitted | src/sqlComparer.ts:124-145 | a foreign-key block is emitted iff some reference field's first target is known, whether or not its column existed; it is named `fk_<table>_<col>` and targets `removeSuffix(lower(target))` |
| SqlComparer.DropEmitted | src/sqlComparer.ts:146-154 | a DROP COLUMN is emitted iff it names a baseline column whose name no field derives to |
| SqlComparer.DropsInBaselineOrder | src/sqlComparer.ts:146-154 | the drops follow baseline column order |
| SqlComparer.AlterPlanText | src/sqlComparer.ts:92-157 | the script is the text of the first pass, then of the second, then of the third |
| SqlComparer.GenerateAlterTableStatements | src/sqlComparer.ts:86-157 | the script built by the three loops equals the rendering of `AlterPlan` |
| SqlComparer.AddAlterStatements | src/sqlComparer.ts:98-123 | the first loop appends exactly the rendered ADD/ALTER statements |
| SqlComparer.AddOrAlterColumn | src/sqlComparer.ts:99-122 | one iteration appends exactly that field's ADD or ALTER text, or nothing |
| SqlComparer.ForeignKeyStatements | src/sqlComparer.ts:124-145 | the second loop appends exactly the rendered foreign-key blocks |
| SqlComparer.AddForeignKeyBlock | src/sqlComparer.ts:125-144 | one iteration appends exactly that field's `DO $$` block, or nothing |
| SqlComparer.DropStatements | src/sqlComparer.ts:146-154 | the third loop appends exactly the rendered DROP statements |
| SchemaRoundTrip.ParseRenderedLine | src/sqlComparer.ts:49-53 | parsing a rendered column line gives its name, its type (with a trailing comma when the column is plain and not last), its key flag and its reference target |
| SchemaRoundTrip.RenderSchemaLines | src/ddlGenerator.ts:43-73 | the rendered schema is the header line, one line per column, `);`, a blank line, then the statements after the main table |
| SchemaRoundTrip.ScanStopsAfterColumns | src/sqlComparer.ts:45-47 | on a rendered schema the parser's scan stops exactly at the `);` line after the last column |
| SchemaRoundTrip.ParseRenderedSchema | src/sqlComparer.ts:39-59 | for a well-formed schema the parser recovers the table name, the column count and each column, up to the trailing-comma type of plain non-last columns |
| SchemaRoundTrip.BuildSchemaWellFormed | src/ddlGenerator.ts:37-115 | for objects and fields with word-character names that derive to non-empty names, the generated schema is well formed |
| SchemaRoundTrip.GeneratedSchemaParses | src/sqlComparer.ts:39-59 | parsing `generateDDL`'s script gives back the derived table name, one column per generated column, `id` with type `UUID` as a primary key first, and each column as `ParsedColumn` describes: name, key flag and reference target as generated, the type as generated except that it keeps its trailing comma on a plain column that is not last |
| SchemaRoundTrip.SelfDiffRetypesBareColumn | src/sqlComparer.ts:118-122 | diffing an object against its own generated script retypes a plain column (no key, no reference, first of its name) that another column follows, because its parsed type keeps the comma |
| SchemaRoundTrip.SelfDiffDropsId | src/sqlComparer.ts:146-154 | diffing an object against its own generated script drops the `id` column unless some field derives to `id` |
| MetadataFetcher.CustomRelationships | src/metadataFetcher.ts:18-33 | at most one parent; a reported parent requires the `__c` suffix, is in `allObjects`, has no `_`, and is the text in front of the name's first `_` |
| MetadataFetcher.DetectCustomRelationships | src/metadataFetcher.ts:18-33 | the conditional `push` into the local list gives exactly `CustomRelationships` |
| MetadataFetcher.CustomSuffixGivesThreeParts | src/metadataFetcher.ts:23-25 | a name ending in `__c` splits into at least three parts, so the `parts.length > 1` test never decides |
| MetadataFetcher.FirstPartIsPrefix | src/metadataFetcher.ts:26 | `parts[0]` is the text in front of the first `_` |
| MetadataFetcher.ParentDetected | src/metadataFetcher.ts:25-29 | conversely, a `__c` name whose text before the first `_` is a known object reports exactly that object |
| MetadataFetcher.StandardObjectHasNoParent | src/metadataFetcher.ts:25 | a name without the `__c` suffix reports nothing, whatever `allObjects` holds |

## Left out

- File I/O and paths: `readLocalTableDefinition` (src/sqlComparer.ts:22-37) is left out. So are the path construction and `fs.readFile` in `getCurrentPicklistValues` (src/ddlGenerator.ts:150-159). The file's content is a parameter, `Option<string>`, where `None` is a failed read.
- Picklists.GeneratePicklistUpdates: reads the stored seed script once per enumerated field, as the source does. The content is passed once, so the model assumes the file does not change between those reads.
- The command-line program and its orchestration (src/force2postgres.ts) are not part of this model. Neither are Prettier formatting and README reset (src/fileFormatter.ts), authentication and configuration, or `fetchObjectMetadata`/`fetchAllObjects`, which are network calls.
- `generateObjectMarkdown` and `updateMainReadme`: documentation rendering and file writes.
- Strings.Lower: `toLowerCase` is modelled on ASCII letters only. Other characters are unchanged, so Unicode case mapping is not modelled.
- Patterns: general regular-expression semantics. Only the three fixed patterns are modelled, as hand-written recognizers with leftmost-match, greedy semantics.
- DdlGenerator.ConvertFieldType: the type map is a finite map. JavaScript prototype keys such as `constructor` are not modelled, and neither are values that are not strings.
- Picklist values are opaque strings. The source writes them into SQL without escaping quotes, and the model does the same, without modelling SQL quoting.
- A `Field` holds only its name, type, picklist values and reference targets. Labels and the rest of the describe result are not read by the core.
