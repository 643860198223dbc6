/**
 * What `parseCreateTableStatement` recovers from a script `generateDDL`
 * wrote: the table name, every column's name and key flags, and every
 * reference target exactly; the column type too, except that a column line
 * with no clause after its type keeps the `,` that separates it from the
 * next line.  Diffing an object against its own freshly generated script
 * therefore retypes those columns.
 */
module SchemaRoundTrip {
  import opened Optional
  import opened Strings
  import opened Patterns
  import opened Naming
  import opened Metadata
  import opened DdlGenerator
  import opened SqlComparer

  /** The characters of the generator's type names: capitals other than `F` and `Y`. */
  predicate IsTypeChar(ch: char) {
    'A' <= ch <= 'Z' && ch != 'F' && ch != 'Y'
  }

  predicate IsTypeWord(t: string) {
    |t| > 0 && forall k :: 0 <= k < |t| ==> IsTypeChar(t[k])
  }

  /** A column of lower-case word names and a capitalised type name. */
  predicate WellFormedColumn(c: ColumnDef) {
    IsLowerWord(c.name) && IsTypeWord(c.sqlType)
    && (c.references.Some? ==> IsLowerWord(c.references.value))
  }

  predicate WellFormedSchema(s: Schema) {
    IsLowerWord(s.name) && |s.columns| > 0
    && forall k :: 0 <= k < |s.columns| ==> WellFormedColumn(s.columns[k])
  }

  /** What the parser reads back from one column line. */
  function ParsedColumn(c: ColumnDef, last: bool): PostgresColumn {
    var bare := !c.primaryKey && c.references.None?;
    PostgresColumn(c.name, Some(if bare && !last then c.sqlType + "," else c.sqlType),
                   c.primaryKey, c.references.Some?, c.references)
  }

  /** A column line once trimmed: the column and, unless it is the last, a comma. */
  function RenderedLine(c: ColumnDef, last: bool): string {
    RenderColumn(c) + (if last then "" else ",")
  }

  // ---------------------------------------------------------------------------
  // Characters of the pieces

  lemma TypeWordLacks(t: string, ch: char)
    requires IsTypeWord(t) && !IsTypeChar(ch)
    ensures ch !in t
  {
  }

  lemma TypeWordEnd(t: string)
    requires IsTypeWord(t)
    ensures !IsJsSpace(t[|t| - 1])
  {
    assert IsTypeChar(t[|t| - 1]);
  }

  lemma LowerWordLacks(w: string, ch: char)
    requires IsLowerWord(w) && !IsLowerWordChar(ch)
    ensures ch !in w
  {
  }

  lemma LowerWordEnds(w: string)
    requires IsLowerWord(w)
    ensures !IsJsSpace(w[0]) && !IsJsSpace(w[|w| - 1]) && w[0] != ')'
    ensures IsWord(w)
  {
    assert IsLowerWordChar(w[0]) && IsLowerWordChar(w[|w| - 1]);
  }

  // ---------------------------------------------------------------------------
  // One column line

  /** The pieces a rendered column line is made of. */
  function KeyText(c: ColumnDef): string {
    if c.primaryKey then " PRIMARY KEY" else ""
  }

  function RefText(c: ColumnDef): string {
    match c.references case Some(r) => " REFERENCES " + r + "(id)" case None => ""
  }

  function Tail(last: bool): string {
    if last then "" else ","
  }

  /** The clauses after the type: empty exactly for a bare column, else led by a space. */
  function Clauses(c: ColumnDef): string {
    KeyText(c) + RefText(c)
  }

  lemma ClausesShape(c: ColumnDef)
    ensures Clauses(c) == "" <==> !c.primaryKey && c.references.None?
    ensures Clauses(c) == "" || Clauses(c)[0] == ' '
  {
  }

  lemma RenderedLinePieces(c: ColumnDef, last: bool)
    ensures RenderedLine(c, last) == c.name + [' '] + (c.sqlType + Clauses(c) + Tail(last))
  {
  }

  /** A name, a space, then a type followed by nothing or by a space-led clause. */
  lemma LeadingTokens(name: string, sqlType: string, more: string, tail: string)
    requires ' ' !in name && ' ' !in sqlType && ' ' !in tail
    requires more == "" || more[0] == ' '
    ensures var parts := Split(name + [' '] + (sqlType + more + tail), ' ');
      |parts| > 1 && parts[0] == name && parts[1] == if more == "" then sqlType + tail else sqlType
  {
    var rest := sqlType + more + tail;
    SplitAfterSeparator(name, ' ', rest);
    if more == "" {
      assert rest == sqlType + tail;
      SplitWithoutSeparator(rest, ' ');
    } else {
      assert rest == sqlType + [' '] + (more[1..] + tail);
      SplitAfterSeparator(sqlType, ' ', more[1..] + tail);
    }
  }

  /** The first two space-separated tokens are the name and the type, the comma included when nothing follows. */
  lemma RenderedLineTokens(c: ColumnDef, last: bool)
    requires WellFormedColumn(c)
    ensures var parts := Split(RenderedLine(c, last), ' ');
      |parts| > 1 && parts[0] == c.name && Some(parts[1]) == ParsedColumn(c, last).colType
  {
    RenderedLinePieces(c, last);
    ClausesShape(c);
    LowerWordLacks(c.name, ' ');
    TypeWordLacks(c.sqlType, ' ');
    assert ' ' !in Tail(last);
    LeadingTokens(c.name, c.sqlType, Clauses(c), Tail(last));
    assert c.sqlType + Tail(true) == c.sqlType;
  }

  // Substring searches

  lemma ContainsMiddle(pre: string, p: string, post: string)
    ensures Contains(pre + p + post, p)
  {
    var s := pre + p + post;
    assert s[|pre|..][..|p|] == p;
    ContainsAt(s, p, |pre|);
  }

  /** A keyword holding a character the text lacks never matches. */
  lemma KeywordAbsentWithoutChar(line: string, kw: string, i: nat)
    requires i < |kw| && kw[i] !in line
    ensures KeywordWord(line, kw) == None
  {
    forall j | 0 <= j <= |line| ensures !StartsWith(line[j..], kw) {
      if j + i < |line| {
        assert line[j..][i] == line[j + i];
      }
    }
    KeywordWordAbsent(line, kw);
  }

  /** Before a keyword whose third character is new there, the keyword does not start. */
  lemma NoKeywordBefore(line: string, pre: string, kw: string, tail: string)
    requires line == pre + tail && StartsWith(tail, kw)
    requires |kw| > 2 && kw[2] !in pre && kw[2] != kw[0] && kw[2] != kw[1]
    ensures forall j :: 0 <= j < |pre| ==> !StartsWith(line[j..], kw)
  {
    forall j | 0 <= j < |pre| ensures !StartsWith(line[j..], kw) {
      if j + 2 < |pre| {
        assert line[j + 2] == pre[j + 2];
      } else {
        assert line[j + 2] == tail[j + 2 - |pre|] == kw[j + 2 - |pre|];
      }
      assert line[j..][2] == line[j + 2];
    }
  }

  /**
   * A keyword whose third character appears neither earlier in the text nor
   * among its first two is matched first where it is written.
   */
  lemma KeywordAfter(line: string, pre: string, kw: string, w: string, rest: string)
    requires line == pre + (kw + w + rest)
    requires |kw| > 2 && kw[2] !in pre && kw[2] != kw[0] && kw[2] != kw[1]
    requires IsWord(w) && (|rest| == 0 || !IsWordChar(rest[0]))
    ensures KeywordWord(line, kw) == Some(w)
  {
    var tail := kw + w + rest;
    assert tail[..|kw|] == kw;
    NoKeywordBefore(line, pre, kw, tail);
    KeywordWordSkip(line, kw, 0, |pre|);
    assert line[|pre|..] == tail;
    KeywordWordHere(line, kw, |pre|, w, rest);
  }

  // ---------------------------------------------------------------------------
  // Flags and target of one column line

  lemma RenderedLineKey(c: ColumnDef, last: bool)
    requires WellFormedColumn(c)
    ensures Contains(RenderedLine(c, last), "PRIMARY KEY") == c.primaryKey
  {
    var line := RenderedLine(c, last);
    if c.primaryKey {
      assert line == (c.name + " " + c.sqlType + " ") + "PRIMARY KEY" + (RefText(c) + Tail(last));
      ContainsMiddle(c.name + " " + c.sqlType + " ", "PRIMARY KEY", RefText(c) + Tail(last));
    } else {
      assert line == c.name + " " + c.sqlType + RefText(c) + Tail(last);
      LowerWordLacks(c.name, 'Y');
      TypeWordLacks(c.sqlType, 'Y');
      if c.references.Some? {
        LowerWordLacks(c.references.value, 'Y');
      }
      assert 'Y' !in RefText(c);
      NotContainsMissingChar(line, "PRIMARY KEY", 'Y');
    }
  }

  /** The text in front of a column's `REFERENCES` clause. */
  function RefPrefix(c: ColumnDef): string {
    c.name + " " + c.sqlType + KeyText(c) + " "
  }

  lemma RefPrefixLacksF(c: ColumnDef)
    requires WellFormedColumn(c)
    ensures 'F' !in RefPrefix(c)
  {
    LowerWordLacks(c.name, 'F');
    TypeWordLacks(c.sqlType, 'F');
    assert 'F' !in KeyText(c);
  }

  lemma RefLinePieces(c: ColumnDef, last: bool)
    requires c.references.Some?
    ensures RenderedLine(c, last) == RefPrefix(c) + ("REFERENCES " + c.references.value + ("(id)" + Tail(last)))
  {
  }

  lemma RenderedLineTarget(c: ColumnDef, last: bool)
    requires WellFormedColumn(c) && c.references.Some?
    ensures Contains(RenderedLine(c, last), "REFERENCES")
    ensures KeywordWord(RenderedLine(c, last), "REFERENCES ") == c.references
  {
    var line := RenderedLine(c, last);
    var pre := RefPrefix(c);
    var r := c.references.value;
    var tail := "REFERENCES " + r + ("(id)" + Tail(last));
    RefLinePieces(c, last);
    RefPrefixLacksF(c);
    assert line[|pre|..] == tail;
    assert tail[..10] == "REFERENCES";
    ContainsAt(line, "REFERENCES", |pre|);
    LowerWordEnds(r);
    KeywordAfter(line, pre, "REFERENCES ", r, "(id)" + Tail(last));
  }

  lemma RenderedLineNoTarget(c: ColumnDef, last: bool)
    requires WellFormedColumn(c) && c.references.None?
    ensures !Contains(RenderedLine(c, last), "REFERENCES")
    ensures KeywordWord(RenderedLine(c, last), "REFERENCES ") == None
  {
    var line := RenderedLine(c, last);
    assert line == c.name + " " + c.sqlType + KeyText(c) + Tail(last);
    LowerWordLacks(c.name, 'F');
    TypeWordLacks(c.sqlType, 'F');
    assert 'F' !in KeyText(c);
    NotContainsMissingChar(line, "REFERENCES", 'F');
    KeywordAbsentWithoutChar(line, "REFERENCES ", 2);
  }

  /** One column line parses back to its column, the comma of a bare non-last column included. */
  lemma ParseRenderedLine(c: ColumnDef, last: bool)
    requires WellFormedColumn(c)
    ensures ParseColumnLine(RenderedLine(c, last)) == ParsedColumn(c, last)
  {
    RenderedLineTokens(c, last);
    RenderedLineKey(c, last);
    if c.references.Some? {
      RenderedLineTarget(c, last);
    } else {
      RenderedLineNoTarget(c, last);
    }
  }

  // ---------------------------------------------------------------------------
  // The lines of a rendered script

  /** The column lines of the main table: every one but the last ends in a comma. */
  function BlockLines(cs: seq<ColumnDef>): seq<string> {
    if |cs| == 0 then []
    else if |cs| == 1 then [ColumnLine(cs[0])]
    else [ColumnLine(cs[0]) + ","] + BlockLines(cs[1..])
  }

  function HeaderLine(tableName: string): string {
    "CREATE TABLE " + tableName + " ("
  }

  /** The main table's lines: header, columns, the closing `);` and a blank line. */
  function SchemaLines(s: Schema): seq<string> {
    [HeaderLine(s.name)] + BlockLines(s.columns) + [");", ""]
  }

  lemma {:induction false} BlockLinesText(cs: seq<ColumnDef>)
    requires |cs| > 0
    ensures ColumnsBlock(cs) + "\n" == Unlines(BlockLines(cs))
  {
    if |cs| > 1 {
      BlockLinesText(cs[1..]);
      var a := ColumnLine(cs[0]);
      var b := ColumnsBlock(cs[1..]);
      calc {
        ColumnsBlock(cs) + "\n";
        a + ",\n" + b + "\n";
        (a + ",") + "\n" + (b + "\n");
        (a + ",") + "\n" + Unlines(BlockLines(cs[1..]));
        Unlines(BlockLines(cs));
      }
    }
  }

  lemma {:induction false} BlockLinesAt(cs: seq<ColumnDef>)
    ensures |BlockLines(cs)| == |cs|
    ensures forall k :: 0 <= k < |cs| ==> BlockLines(cs)[k] == "  " + RenderedLine(cs[k], k == |cs| - 1)
  {
    if |cs| == 1 {
      assert RenderedLine(cs[0], true) == RenderColumn(cs[0]);
    } else if |cs| > 1 {
      BlockLinesAt(cs[1..]);
      assert ColumnLine(cs[0]) + "," == "  " + RenderedLine(cs[0], false);
      forall k | 1 <= k < |cs| ensures BlockLines(cs)[k] == "  " + RenderedLine(cs[k], k == |cs| - 1) {
        assert cs[1..][k - 1] == cs[k];
      }
    }
  }

  lemma RenderedLineNoNewline(c: ColumnDef, last: bool)
    requires WellFormedColumn(c)
    ensures '\n' !in "  " + RenderedLine(c, last)
  {
    LowerWordLacks(c.name, '\n');
    TypeWordLacks(c.sqlType, '\n');
    if c.references.Some? {
      LowerWordLacks(c.references.value, '\n');
    }
    assert '\n' !in KeyText(c) && '\n' !in RefText(c) && '\n' !in Tail(last);
    RenderedLinePieces(c, last);
  }

  lemma SchemaLinesNoNewline(s: Schema)
    requires WellFormedSchema(s)
    ensures forall k :: 0 <= k < |SchemaLines(s)| ==> '\n' !in SchemaLines(s)[k]
  {
    var lines := SchemaLines(s);
    var cs := s.columns;
    BlockLinesAt(cs);
    LowerWordLacks(s.name, '\n');
    forall k | 0 <= k < |lines| ensures '\n' !in lines[k] {
      if 1 <= k <= |cs| {
        assert lines[k] == BlockLines(cs)[k - 1];
        RenderedLineNoNewline(cs[k - 1], k - 1 == |cs| - 1);
      }
    }
  }

  lemma HeaderText(tableName: string)
    ensures MainHeader(tableName) == HeaderLine(tableName) + "\n"
  {
  }

  lemma ClosingText()
    ensures Unlines([");", ""]) == ");\n\n"
  {
    assert [");", ""][1..] == [""];
    assert [""][1..] == [];
  }

  lemma TextLayout(hdr: string, block: string, lines: string, aux: string)
    requires lines == block + "\n"
    ensures hdr + "\n" + block + "\n);\n\n" + aux == hdr + "\n" + lines + ");\n\n" + aux
  {
  }

  /** The script is the main table's lines followed by the text of the auxiliary statements. */
  lemma RenderSchemaLines(s: Schema)
    requires |s.columns| > 0
    ensures RenderSchema(s) == Unlines(SchemaLines(s)) + AuxText(s.aux)
  {
    var hdr := HeaderLine(s.name);
    var block := BlockLines(s.columns);
    calc {
      RenderSchema(s);
      MainHeader(s.name) + ColumnsBlock(s.columns) + "\n);\n\n" + AuxText(s.aux);
      { HeaderText(s.name); }
      hdr + "\n" + ColumnsBlock(s.columns) + "\n);\n\n" + AuxText(s.aux);
      { BlockLinesText(s.columns);
        TextLayout(hdr, ColumnsBlock(s.columns), Unlines(block), AuxText(s.aux)); }
      hdr + "\n" + Unlines(block) + ");\n\n" + AuxText(s.aux);
      { ClosingText(); assert Unlines([hdr]) == hdr + "\n"; }
      Unlines([hdr]) + Unlines(block) + Unlines([");", ""]) + AuxText(s.aux);
      { UnlinesAppend([hdr], block); UnlinesAppend([hdr] + block, [");", ""]); }
      Unlines(SchemaLines(s)) + AuxText(s.aux);
    }
  }

  /** Splitting the script at newlines: the main table's lines come first. */
  lemma SplitRenderedSchema(s: Schema)
    requires WellFormedSchema(s)
    ensures Split(RenderSchema(s), '\n') == SchemaLines(s) + Split(AuxText(s.aux), '\n')
  {
    RenderSchemaLines(s);
    SchemaLinesNoNewline(s);
    SplitUnlines(SchemaLines(s), AuxText(s.aux));
  }

  // ---------------------------------------------------------------------------
  // The scan of the parser over those lines

  lemma {:induction false} ColumnEndAt(lines: seq<string>, i: nat, e: nat)
    requires 1 <= i <= e < |lines| - 1
    requires forall j :: i <= j < e ==> !StartsWith(Trim(lines[j]), ")")
    requires StartsWith(Trim(lines[e]), ")")
    ensures ColumnEnd(lines, i) == e
    decreases e - i
  {
    if i < e {
      ColumnEndAt(lines, i + 1, e);
    }
  }

  lemma LastOf(a: string, b: string)
    requires |b| > 0
    ensures (a + b)[|a + b| - 1] == b[|b| - 1]
  {
  }

  /** The last character of a column's text: a type letter, `Y`, `)` or the comma. */
  lemma RenderedLineLast(c: ColumnDef, last: bool)
    requires WellFormedColumn(c)
    ensures var x := RenderedLine(c, last); |x| > 0 && !IsJsSpace(x[|x| - 1])
  {
    var body := c.name + " " + c.sqlType + KeyText(c);
    assert RenderColumn(c) == body + RefText(c);
    if !last {
      LastOf(RenderColumn(c), ",");
    } else {
      assert RenderedLine(c, last) == body + RefText(c);
      if c.references.Some? {
        LastOf(" REFERENCES " + c.references.value, "(id)");
        LastOf(body, RefText(c));
      } else if c.primaryKey {
        assert body + RefText(c) == c.name + " " + c.sqlType + " PRIMARY KEY";
        LastOf(c.name + " " + c.sqlType, " PRIMARY KEY");
      } else {
        assert body + RefText(c) == c.name + " " + c.sqlType;
        LastOf(c.name + " ", c.sqlType);
        TypeWordEnd(c.sqlType);
      }
    }
  }

  lemma RenderedLineEnds(c: ColumnDef, last: bool)
    requires WellFormedColumn(c)
    ensures var x := RenderedLine(c, last);
      |x| > 0 && !IsJsSpace(x[0]) && !IsJsSpace(x[|x| - 1]) && x[0] != ')'
  {
    RenderedLinePieces(c, last);
    LowerWordEnds(c.name);
    assert RenderedLine(c, last)[0] == c.name[0];
    RenderedLineLast(c, last);
  }

  /** A trimmed column line is the column's text, which does not start with `)`. */
  lemma TrimColumnLine(c: ColumnDef, last: bool)
    requires WellFormedColumn(c)
    ensures Trim("  " + RenderedLine(c, last)) == RenderedLine(c, last)
    ensures !StartsWith(RenderedLine(c, last), ")")
  {
    RenderedLineEnds(c, last);
    assert IsJsSpace(' ');
    TrimIndented("  ", RenderedLine(c, last));
  }

  lemma TrimClosing()
    ensures Trim(");") == ");" && StartsWith(");", ")")
  {
    assert !IsJsSpace(')') && !IsJsSpace(';');
    TrimIndented("", ");");
    assert "" + ");" == ");";
  }

  /** The scan reads exactly the column lines and stops at the closing `);`. */
  lemma ScanStopsAfterColumns(s: Schema, lines: seq<string>)
    requires WellFormedSchema(s)
    requires lines == Split(RenderSchema(s), '\n')
    ensures ColumnEnd(lines, 1) == |s.columns| + 1
    ensures forall k :: 1 <= k <= |s.columns| ==> Trim(lines[k]) == RenderedLine(s.columns[k - 1], k == |s.columns|)
  {
    var cs := s.columns;
    var n := |cs|;
    SplitRenderedSchema(s);
    BlockLinesAt(cs);
    assert |lines| >= n + 4;
    forall k | 1 <= k <= n
      ensures Trim(lines[k]) == RenderedLine(cs[k - 1], k == n) && !StartsWith(Trim(lines[k]), ")")
    {
      assert lines[k] == BlockLines(cs)[k - 1];
      TrimColumnLine(cs[k - 1], k - 1 == n - 1);
    }
    assert lines[n + 1] == ");";
    TrimClosing();
    ColumnEndAt(lines, 1, n + 1);
  }

  /** The name in the header line is the table name. */
  lemma HeaderName(tableName: string)
    requires IsLowerWord(tableName)
    ensures KeywordWord(HeaderLine(tableName), "CREATE TABLE ") == Some(tableName)
  {
    LowerWordEnds(tableName);
    var hdr := HeaderLine(tableName);
    assert hdr[0..] == "CREATE TABLE " + tableName + " (";
    KeywordWordHere(hdr, "CREATE TABLE ", 0, tableName, " (");
  }

  // ---------------------------------------------------------------------------
  // The round trip

  /**
   * Parsing a rendered script recovers the table name and, column by column,
   * its name, key flags and reference target; the type comes back as written,
   * with the separating comma still attached on a bare column that is not last.
   */
  lemma ParseRenderedSchema(s: Schema)
    requires WellFormedSchema(s)
    ensures var t := ParseTable(RenderSchema(s));
      && t.name == s.name && |t.columns| == |s.columns|
      && forall k :: 0 <= k < |s.columns| ==> t.columns[k] == ParsedColumn(s.columns[k], k == |s.columns| - 1)
  {
    var lines := Split(RenderSchema(s), '\n');
    var cs := s.columns;
    var t := ParseTable(RenderSchema(s));
    SplitRenderedSchema(s);
    assert lines[0] == HeaderLine(s.name);
    HeaderName(s.name);
    ScanStopsAfterColumns(s, lines);
    assert t.columns == ParseColumnLines(lines, |cs| + 1);
    forall k | 0 <= k < |cs| ensures t.columns[k] == ParsedColumn(cs[k], k == |cs| - 1) {
      assert t.columns[k] == ParseColumnLine(Trim(lines[k + 1]));
      ParseRenderedLine(cs[k], k == |cs| - 1);
    }
  }

  // ---------------------------------------------------------------------------
  // Scripts of the generator

  /** A word that does not derive to the empty name (so not `__c` alone). */
  predicate DerivableName(name: string) {
    IsWord(name) && |DeriveName(name)| > 0
  }

  /** Object, field and target names the round trip needs. */
  predicate WellFormedNames(objectName: string, fields: seq<Field>, allObjects: seq<string>) {
    DerivableName(objectName)
    && (forall f :: f in fields ==> DerivableName(f.name))
    && (forall t :: t in allObjects ==> DerivableName(t))
  }

  lemma DerivedLowerWord(name: string)
    requires DerivableName(name)
    ensures IsLowerWord(DeriveName(name))
  {
    DeriveNameIsLowerWord(name);
  }

  lemma GeneratorTypesAreTypeWords(t: string)
    requires t in PostgresTypes || t == "INTEGER"
    ensures IsTypeWord(t)
  {
  }

  lemma ColumnForWellFormed(f: Field, allObjects: seq<string>)
    requires DerivableName(f.name) && forall t :: t in allObjects ==> DerivableName(t)
    ensures forall c :: c in ColumnFor(f, allObjects) ==> WellFormedColumn(c)
  {
    var d := DeriveName(f.name);
    DerivedLowerWord(f.name);
    if IsWidePicklist(f) {
      var name := d + "_id";
      assert forall k :: 0 <= k < |name| ==> IsLowerWordChar(name[k]) by {
        forall k | 0 <= k < |name| ensures IsLowerWordChar(name[k]) {
          if k < |d| {
            assert name[k] == d[k];
          }
        }
      }
      GeneratorTypesAreTypeWords("INTEGER");
    } else if f.fieldType != "multipicklist" {
      GeneratorTypesAreTypeWords(ConvertFieldType(f));
      if KnownTarget(f, allObjects).Some? {
        DerivedLowerWord(KnownTarget(f, allObjects).value);
      }
    }
  }

  lemma {:induction false} FieldColumnsWellFormed(fields: seq<Field>, allObjects: seq<string>)
    requires forall f :: f in fields ==> DerivableName(f.name)
    requires forall t :: t in allObjects ==> DerivableName(t)
    ensures forall c :: c in FieldColumns(fields, allObjects) ==> WellFormedColumn(c)
  {
    if fields != [] {
      ColumnForWellFormed(fields[0], allObjects);
      FieldColumnsWellFormed(fields[1..], allObjects);
    }
  }

  lemma BuildSchemaWellFormed(objectName: string, fields: seq<Field>, allObjects: seq<string>)
    requires WellFormedNames(objectName, fields, allObjects)
    ensures WellFormedSchema(BuildSchema(objectName, fields, allObjects))
  {
    var s := BuildSchema(objectName, fields, allObjects);
    DerivedLowerWord(objectName);
    FieldColumnsWellFormed(fields, allObjects);
    GeneratorTypesAreTypeWords("UUID");
    forall k | 0 <= k < |s.columns| ensures WellFormedColumn(s.columns[k]) {
      if k > 0 {
        assert s.columns[k] == FieldColumns(fields, allObjects)[k - 1];
      }
    }
  }

  /**
   * `parseCreateTableStatement` over the script `generateDDL` writes for an
   * object: the derived table name, then the seed column and the field
   * columns in order, each as `ParsedColumn` describes.
   */
  lemma GeneratedSchemaParses(objectName: string, fields: seq<Field>, allObjects: seq<string>)
    requires WellFormedNames(objectName, fields, allObjects)
    ensures var cs := BuildSchema(objectName, fields, allObjects).columns;
      var t := ParseTable(RenderSchema(BuildSchema(objectName, fields, allObjects)));
      && t.name == DeriveName(objectName) && |t.columns| == |cs|
      && t.columns[0] == PostgresColumn("id", Some("UUID"), true, false, None)
      && forall k :: 0 <= k < |cs| ==> t.columns[k] == ParsedColumn(cs[k], k == |cs| - 1)
  {
    BuildSchemaWellFormed(objectName, fields, allObjects);
    ParseRenderedSchema(BuildSchema(objectName, fields, allObjects));
  }

  /** Where field `i`'s single column sits among the main table's columns. */
  lemma FieldColumnPosition(objectName: string, fields: seq<Field>, allObjects: seq<string>, i: nat)
    requires i < |fields| && !IsWidePicklist(fields[i]) && fields[i].fieldType != "multipicklist"
    requires FieldColumns(fields[i + 1..], allObjects) != []
    ensures var cs := BuildSchema(objectName, fields, allObjects).columns;
      var k := 1 + |FieldColumns(fields[..i], allObjects)|;
      && k < |cs| - 1 && cs[k] == ColumnFor(fields[i], allObjects)[0]
      && forall m :: 0 <= m < k ==> cs[m] in [IdColumn] + FieldColumns(fields[..i], allObjects)
  {
    var cs := BuildSchema(objectName, fields, allObjects).columns;
    var before := [IdColumn] + FieldColumns(fields[..i], allObjects);
    FieldColumnsInOrder(fields, allObjects, i);
    ColumnForShape(fields[i], allObjects);
    assert cs == before + ColumnFor(fields[i], allObjects) + FieldColumns(fields[i + 1..], allObjects);
    forall m | 0 <= m < |before| ensures cs[m] in before {
      assert cs[m] == before[m];
    }
  }

  /** A column whose parsed type kept the comma, found first under its name, is retyped. */
  lemma RetypedWhenCommaKept(tableName: string, f: Field, columns: seq<PostgresColumn>, k: nat, allObjects: seq<string>)
    requires k < |columns| && columns[k].name == DeriveName(f.name)
    requires columns[k].colType == Some(ConvertFieldType(f) + ",")
    requires forall m :: 0 <= m < k ==> columns[m].name != DeriveName(f.name)
    ensures FieldAlter(tableName, f, columns, allObjects)
      == [AlterColumnType(tableName, DeriveName(f.name), ConvertFieldType(f))]
  {
    FindColumnFirst(columns, DeriveName(f.name), k);
    CommaTypeRetyped(tableName, f, columns, allObjects);
  }

  /** In the parsed self-generated table, field `i`'s column is the first of its name and kept its comma. */
  lemma SelfParsedColumn(objectName: string, fields: seq<Field>, allObjects: seq<string>, i: nat)
    requires WellFormedNames(objectName, fields, allObjects)
    requires i < |fields| && !IsWidePicklist(fields[i]) && fields[i].fieldType != "multipicklist"
    requires KnownTarget(fields[i], allObjects).None?
    requires FieldColumns(fields[i + 1..], allObjects) != []
    requires forall c :: c in [IdColumn] + FieldColumns(fields[..i], allObjects) ==> c.name != DeriveName(fields[i].name)
    ensures var t := ParseTable(RenderSchema(BuildSchema(objectName, fields, allObjects)));
      var k := 1 + |FieldColumns(fields[..i], allObjects)|;
      && k < |t.columns| && t.columns[k].name == DeriveName(fields[i].name)
      && t.columns[k].colType == Some(ConvertFieldType(fields[i]) + ",")
      && forall m :: 0 <= m < k ==> t.columns[m].name != DeriveName(fields[i].name)
  {
    var cs := BuildSchema(objectName, fields, allObjects).columns;
    var k := 1 + |FieldColumns(fields[..i], allObjects)|;
    FieldColumnPosition(objectName, fields, allObjects, i);
    ColumnForShape(fields[i], allObjects);
    GeneratedSchemaParses(objectName, fields, allObjects);
  }

  /**
   * Diffing the fields against the script generated from them: a field with
   * a bare inline column (no key, no reference) that another column follows
   * reads back with type `<type>,`, so it is retyped although nothing changed.
   */
  lemma SelfDiffRetypesBareColumn(objectName: string, fields: seq<Field>, allObjects: seq<string>, i: nat)
    requires WellFormedNames(objectName, fields, allObjects)
    requires i < |fields| && !IsWidePicklist(fields[i]) && fields[i].fieldType != "multipicklist"
    requires KnownTarget(fields[i], allObjects).None?
    requires FieldColumns(fields[i + 1..], allObjects) != []
    requires forall c :: c in [IdColumn] + FieldColumns(fields[..i], allObjects) ==> c.name != DeriveName(fields[i].name)
    ensures var t := ParseTable(RenderSchema(BuildSchema(objectName, fields, allObjects)));
      FieldAlter(DeriveName(objectName), fields[i], t.columns, allObjects)
      == [AlterColumnType(DeriveName(objectName), DeriveName(fields[i].name), ConvertFieldType(fields[i]))]
  {
    var t := ParseTable(RenderSchema(BuildSchema(objectName, fields, allObjects)));
    SelfParsedColumn(objectName, fields, allObjects, i);
    RetypedWhenCommaKept(DeriveName(objectName), fields[i], t.columns, 1 + |FieldColumns(fields[..i], allObjects)|, allObjects);
  }

  /**
   * The seed column reads back as a column of its own, which no field
   * derives to unless one is named `id`: the self-diff drops it.
   */
  lemma SelfDiffDropsId(objectName: string, fields: seq<Field>, allObjects: seq<string>)
    requires WellFormedNames(objectName, fields, allObjects)
    requires forall f :: f in fields ==> DeriveName(f.name) != "id"
    ensures var t := ParseTable(RenderSchema(BuildSchema(objectName, fields, allObjects)));
      DropColumn(DeriveName(objectName), "id") in AlterPlan(objectName, fields, Some(t), allObjects)
  {
    var t := ParseTable(RenderSchema(BuildSchema(objectName, fields, allObjects)));
    GeneratedSchemaParses(objectName, fields, allObjects);
    assert t.columns[0] in t.columns;
    DropEmitted(objectName, fields, t, allObjects, DropColumn(DeriveName(objectName), "id"));
  }
}
