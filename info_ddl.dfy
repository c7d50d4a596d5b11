/**
 * The functional extractor of info_ddl.py: header, primary and foreign keys,
 * and the per-column records of `get_columns_info`.  Its header grammar is
 * narrower than the class-based one (no TEMP/TRANSIENT modifiers, only
 * backtick or bare database/schema names, no spaces around the dots) and
 * it needs `(` right after `PRIMARY KEY`.
 */
module InfoDdl {

  import opened Core
  import opened Text
  import opened DdlLex

  // ---------------------------------------------------------------------
  // get_db_schema_table
  // ---------------------------------------------------------------------

  /**
   * `(?i)create\s+(?:or\s+replace\s+)?table\s+` at `p` (no word boundary
   * before `create`): the index just past the spaces after `table`.
   */
  function CreateTableEnd(s: string, p: nat): (r: Option<nat>)
    ensures r.Some? ==> KeywordAt(s, p, "create") && p + 12 < r.value <= |s|
    ensures r.Some? ==> IsSpace(s[r.value - 1]) && (r.value == |s| || !IsSpace(s[r.value]))
  {
    if KeywordAt(s, p, "create") then
      var a := RunEnd(s, p + 6, IsSpace);
      var b := OrReplaceEnd(s, a);
      if a > p + 6 && KeywordAt(s, b, "table") then
        var c := RunEnd(s, b + 5, IsSpace);
        if c > b + 5 then Some(c) else None
      else None
    else None
  }

  /** `` `(?P<x>[^`]+)`\.|(?P<x2>\w+)\. ``: a database or schema slot, no spaces around the dot. */
  function DottedAt(s: string, p: nat): (r: Option<Segment>)
    ensures r.Some? ==> (r.value.quoting == Bare || r.value.quoting == Backticks)
    ensures r.Some? ==> p < r.value.end <= |s| && s[r.value.end - 1] == '.'
  {
    if p > |s| then None
    else
      var bt := QuotedAt(s, p, Backticks);
      if bt.Some? && bt.value.end < |s| && s[bt.value.end] == '.' then
        Some(Segment(Backticks, bt.value.text, bt.value.end + 1))
      else
        var w := BareAt(s, p);
        if w.Some? && w.value.end < |s| && s[w.value.end] == '.' then
          Some(Segment(Bare, w.value.text, w.value.end + 1))
        else None
  }

  /** `[^`\s(]`: a character the table name may hold. */
  predicate IsTableChar(c: char) {
    c != '`' && !IsSpace(c) && c != '('
  }

  /**
   * `` `?(?P<table>[^`\s(]+)`? ``: an optional backtick, then the longest
   * non-empty run of table characters.
   */
  function TableAt(s: string, p: nat): (r: Option<string>)
    ensures r.Some? ==> r.value != [] && forall i | 0 <= i < |r.value| :: IsTableChar(r.value[i])
    ensures r.Some? <==> p < |s| && (IsTableChar(s[p]) || (s[p] == '`' && p + 1 < |s| && IsTableChar(s[p + 1])))
  {
    if p >= |s| then None
    else
      var start := if s[p] == '`' then p + 1 else p;
      var e := RunEnd(s, start, IsTableChar);
      if e == start then None
      else
        assert forall i | 0 <= i < e - start :: s[start..e][i] == s[start + i];
        Some(s[start..e])
  }

  /** The whole header pattern matched at `p`. */
  function HeaderAt(s: string, p: nat): (r: Option<TableId>)
    ensures r.Some? ==> CreateTableEnd(s, p).Some? && r.value.table.Some?
    ensures r.Some? && r.value.schema.Some? ==> r.value.database.Some?
  {
    match CreateTableEnd(s, p)
    case None => None
    case Some(q) => FillSlots(s, q, DottedAt, TableAt)
  }

  /**
   * `get_db_schema_table`: the first header's database, schema and table,
   * or all absent when no header occurs anywhere.
   */
  function GetDbSchemaTable(ddl: string): (r: TableId)
    ensures r.schema.Some? ==> r.database.Some?
  {
    match FirstMatch(ddl, 0, HeaderAt)
    case None => NoTableId
    case Some((_, id)) => id
  }

  /** The table is absent exactly when no header occurs anywhere, and then so is everything else. */
  lemma NoHeaderNoTable(ddl: string)
    ensures GetDbSchemaTable(ddl).table.None? <==> forall p | 0 <= p <= |ddl| :: HeaderAt(ddl, p).None?
    ensures GetDbSchemaTable(ddl).table.None? ==> GetDbSchemaTable(ddl) == NoTableId
  {
  }

  // ---------------------------------------------------------------------
  // get_primary_keys / get_foreign_keys
  // ---------------------------------------------------------------------

  /** `primary\s+key\s*\(([^)]+)\)` at `p`: `(` may follow `KEY` only after spaces. */
  function PrimaryKeyAt(d: string, p: nat): (r: Option<Group>)
    ensures r.Some? ==> KeywordAt(d, p, "primary")
    ensures r.Some? ==> r.value.content != [] && ')' !in r.value.content
  {
    match KeyPhraseEnd(d, p, "primary")
    case None => None
    case Some(k) => GroupAt(d, RunEnd(d, k, IsSpace))
  }

  /** The primary-key columns one definition names (`re.search` on `d.strip()`). */
  function PrimaryKeysOfDef(d: string): (r: seq<string>)
    ensures r != [] <==> exists p | 0 <= p <= |Trim(d)| :: PrimaryKeyAt(Trim(d), p).Some?
  {
    match FirstMatch(Trim(d), 0, PrimaryKeyAt)
    case None => []
    case Some((_, g)) => ColumnList(g.content)
  }

  /** The primary-key list built from `defs` in order. */
  function PrimaryKeysOf(defs: seq<string>): seq<string> {
    Collect(defs, PrimaryKeysOfDef)
  }

  /** `get_primary_keys` */
  method GetPrimaryKeys(ddl: string) returns (pk: seq<string>)
    ensures pk == PrimaryKeysOf(Definitions(ddl))
  {
    pk := CollectPrimaryKeys(Definitions(ddl));
  }

  /** The loop of `get_primary_keys` over the definitions. */
  method CollectPrimaryKeys(defs: seq<string>) returns (pk: seq<string>)
    ensures pk == PrimaryKeysOf(defs)
  {
    pk := [];
    var i := 0;
    while i < |defs|
      invariant i <= |defs|
      invariant pk == PrimaryKeysOf(defs[..i])
    {
      CollectStep(defs, i, PrimaryKeysOfDef);
      var m := FirstMatch(Trim(defs[i]), 0, PrimaryKeyAt);
      if m.Some? {
        pk := AppendColumns(pk, m.value.1.content);
      }
      i := i + 1;
    }
    assert defs[..i] == defs;
  }

  /** The foreign-key entries one definition gives (`re.search` on `d.strip()`). */
  function StrippedForeignKeys(d: string): seq<ForeignKey> {
    ForeignKeysOfDef(Trim(d))
  }

  /** The foreign-key list built from `defs` in order. */
  function ForeignKeysOf(defs: seq<string>): seq<ForeignKey> {
    Collect(defs, StrippedForeignKeys)
  }

  /** `get_foreign_keys` */
  method GetForeignKeys(ddl: string) returns (fk: seq<ForeignKey>)
    ensures fk == ForeignKeysOf(Definitions(ddl))
  {
    fk := CollectForeignKeys(Definitions(ddl));
  }

  /** The loop of `get_foreign_keys` over the definitions. */
  method CollectForeignKeys(defs: seq<string>) returns (fk: seq<ForeignKey>)
    ensures fk == ForeignKeysOf(defs)
  {
    fk := [];
    var i := 0;
    while i < |defs|
      invariant i <= |defs|
      invariant fk == ForeignKeysOf(defs[..i])
    {
      CollectStep(defs, i, StrippedForeignKeys);
      var m := FirstMatch(Trim(defs[i]), 0, ForeignKeyAt);
      if m.Some? {
        var c := m.value.1;
        fk := AppendPairs(fk, ColumnList(c.locals), Unquote(Trim(c.refTable)), ColumnList(c.refs));
      }
      i := i + 1;
    }
    assert defs[..i] == defs;
  }

  // ---------------------------------------------------------------------
  // get_columns_info
  // ---------------------------------------------------------------------

  /**
   * One record of `get_columns_info`; `length` is `None` when the record has
   * no `length` key, and the foreign fields are `None` for a column that is
   * not a foreign key.
   */
  datatype ColumnInfo = ColumnInfo(
    fullyQualifiedTable: string,
    columnName: string,
    dataType: string,
    length: Option<string>,
    isKey: string,
    isForeign: string,
    foreignTable: Option<string>,
    foreignKey: Option<string>)

  /**
   * `'.'.join(parts)` where `parts` holds the database and the schema only
   * when non-empty, and always the table.
   */
  function QualifiedName(database: string, schema: string, table: string): (r: string)
  {
    Join((if database != "" then [database] else []) + (if schema != "" then [schema] else []) + [table], '.')
  }

  /** The record one definition gives, if it has both a name and a type. */
  function InfoOf(d: string, fq: string, pk: seq<string>, fk: seq<ForeignKey>): (r: Option<ColumnInfo>)
    ensures r.Some? <==> ParseColumnName(d).Some? && ParseDatatype(d).Some?
    ensures r.Some? ==> r.value.columnName == ParseColumnName(d).value && r.value.dataType == ParseDatatype(d).value
    ensures r.Some? ==> r.value.fullyQualifiedTable == fq && r.value.length == ParseLengthText(d)
    ensures r.Some? ==> (r.value.isKey == "Y" <==> r.value.columnName in pk) && r.value.isKey in {"Y", "N"}
    ensures r.Some? ==> (r.value.isForeign == "Y" <==> exists e | e in fk :: e.column == r.value.columnName)
    ensures r.Some? && r.value.isForeign == "Y" ==>
              exists i | 0 <= i < |fk| ::
                && fk[i].column == r.value.columnName
                && r.value.foreignTable == Some(fk[i].refTable) && r.value.foreignKey == Some(fk[i].refColumn)
                && forall k | 0 <= k < i :: fk[k].column != r.value.columnName
    ensures r.Some? && r.value.isForeign != "Y" ==>
              r.value.isForeign == "N" && r.value.foreignTable.None? && r.value.foreignKey.None?
  {
    match (ParseColumnName(d), ParseDatatype(d))
    case (Some(name), Some(dtype)) =>
      var isKey := if name in pk then "Y" else "N";
      (match FirstForeignKeyOf(fk, name)
       case Some(e) => Some(ColumnInfo(fq, name, dtype, ParseLengthText(d), isKey, "Y", Some(e.refTable), Some(e.refColumn)))
       case None => Some(ColumnInfo(fq, name, dtype, ParseLengthText(d), isKey, "N", None, None)))
    case _ => None
  }

  /** What one definition contributes to the records. */
  function InfoStep(fq: string, pk: seq<string>, fk: seq<ForeignKey>): string -> seq<ColumnInfo> {
    d => AsList(InfoOf(d, fq, pk, fk))
  }

  /** The records of `defs`, in definition order. */
  function InfosOf(defs: seq<string>, fq: string, pk: seq<string>, fk: seq<ForeignKey>): seq<ColumnInfo> {
    Collect(defs, InfoStep(fq, pk, fk))
  }

  /** What `get_columns_info` returns: the records, or a frame built from them. */
  datatype InfoOutput = Records(records: seq<ColumnInfo>) | Frame(rows: seq<ColumnInfo>)

  /** The fully qualified name `get_columns_info` puts in every record. */
  function StatementName(ddl: string): string {
    var id := GetDbSchemaTable(ddl);
    QualifiedName(OrEmpty(id.database), OrEmpty(id.schema), OrEmpty(id.table))
  }

  /** `x or ''` */
  function OrEmpty(x: Option<string>): string {
    match x case Some(v) => v case None => ""
  }

  /** The records of a statement. */
  function ColumnsInfo(ddl: string): seq<ColumnInfo> {
    var defs := Definitions(ddl);
    InfosOf(defs, StatementName(ddl), PrimaryKeysOf(defs), ForeignKeysOf(defs))
  }

  /** The `parts` list of `get_columns_info`, joined with dots. */
  method FullyQualified(fullMeta: TableId) returns (fq: string)
    ensures fq == QualifiedName(OrEmpty(fullMeta.database), OrEmpty(fullMeta.schema), OrEmpty(fullMeta.table))
  {
    var table := OrEmpty(fullMeta.table);
    var schema := OrEmpty(fullMeta.schema);
    var database := OrEmpty(fullMeta.database);
    var parts := [];
    if database != "" {
      parts := parts + [database];
    }
    if schema != "" {
      parts := parts + [schema];
    }
    parts := parts + [table];
    assert parts == (if database != "" then [database] else []) + (if schema != "" then [schema] else []) + [table];
    fq := Join(parts, '.');
  }

  /** The loop of `get_columns_info` over the definitions. */
  method CollectInfos(defs: seq<string>, fq: string, pk: seq<string>, fk: seq<ForeignKey>)
    returns (metadata: seq<ColumnInfo>)
    ensures metadata == InfosOf(defs, fq, pk, fk)
  {
    metadata := [];
    var i := 0;
    while i < |defs|
      invariant i <= |defs|
      invariant metadata == InfosOf(defs[..i], fq, pk, fk)
    {
      CollectStep(defs, i, InfoStep(fq, pk, fk));
      var info := InfoOf(defs[i], fq, pk, fk);
      if info.Some? {
        metadata := metadata + [info.value];
      }
      i := i + 1;
    }
    assert defs[..i] == defs;
  }

  /** `get_columns_info`; the source defaults `out` to `dataframe`, which callers here pass explicitly. */
  method GetColumnsInfo(ddl: string, out: string) returns (r: Result<InfoOutput>)
    ensures out == "dict" ==> r == Success(Records(ColumnsInfo(ddl)))
    ensures out == "dataframe" ==> r == Success(Frame(ColumnsInfo(ddl)))
    ensures out != "dict" && out != "dataframe" ==> r.Failure? && r.error.ValueError?
  {
    var fq := FullyQualified(GetDbSchemaTable(ddl));
    var defs := Definitions(ddl);
    var pk := GetPrimaryKeys(ddl);
    var fk := GetForeignKeys(ddl);
    var metadata := CollectInfos(defs, fq, pk, fk);
    if out == "dict" {
      r := Success(Records(metadata));
    } else if out == "dataframe" {
      r := Success(Frame(metadata));
    } else {
      r := Failure(ValueError("Parametro out non valido.Usare dict o dataframe"));
    }
  }

  // ---------------------------------------------------------------------
  // Properties
  // ---------------------------------------------------------------------

  /** A statement that starts with `CREATE TABLE ` has its name slots right after it. */
  lemma CreateTablePrefix(s: string)
    requires 13 < |s| && !IsSpace(s[13])
    requires forall i | 0 <= i < 13 :: s[i] == "CREATE TABLE "[i]
    ensures CreateTableEnd(s, 0) == Some(13)
  {
    assert s[0] == 'C' && s[1] == 'R' && s[2] == 'E' && s[3] == 'A' && s[4] == 'T' && s[5] == 'E' && s[6] == ' ';
    assert s[7] == 'T' && s[8] == 'A' && s[9] == 'B' && s[10] == 'L' && s[11] == 'E' && s[12] == ' ';
    assert LowerChar(s[7]) != 'o';
    RunEndExact(s, 6, 7, IsSpace);
    RunEndExact(s, 12, 13, IsSpace);
  }

  /** A bare word at `p` followed by `.` fills a slot with that word. */
  lemma DottedWord(s: string, p: nat, i: nat)
    requires p < i < |s| && s[i] == '.'
    requires forall k | p <= k < i :: IsWord(s[k])
    ensures DottedAt(s, p) == Some(Segment(Bare, s[p..i], i + 1))
  {
    var g := Segment(Bare, s[p..i], i);
    assert forall k | 0 <= k < i - p :: s[p..i][k] == s[p + k];
    assert Renders(s, p, g);
    SegmentAtReads(s, p, g);
  }

  /** A bare word at `p` not followed by `.` fills no slot. */
  lemma NoDottedWord(s: string, p: nat, e: nat)
    requires p < e <= |s| && (e == |s| || (!IsWord(s[e]) && s[e] != '.'))
    requires forall k | p <= k < e :: IsWord(s[k])
    ensures DottedAt(s, p).None?
  {
    RunEndExact(s, p, e, IsWord);
  }

  /** A run of table characters at `t` is the table name. */
  lemma TableRun(s: string, t: nat, e: nat)
    requires t < e <= |s| && (e == |s| || !IsTableChar(s[e]))
    requires forall k | t <= k < e :: IsTableChar(s[k])
    ensures TableAt(s, t) == Some(s[t..e])
  {
    RunEndExact(s, t, e, IsTableChar);
  }

  /** The header at the start of the statement is the one reported. */
  lemma FirstHeader(s: string, q: nat, id: TableId)
    requires CreateTableEnd(s, 0) == Some(q)
    requires FillSlots(s, q, DottedAt, TableAt) == Some(id)
    ensures GetDbSchemaTable(s) == id
  {
    assert HeaderAt(s, 0) == Some(id);
  }

  lemma FillThree(s: string, q: nat, i1: nat, i2: nat, e: nat)
    requires q < i1 < i2 < e <= |s|
    requires DottedAt(s, q) == Some(Segment(Bare, s[q..i1], i1 + 1))
    requires DottedAt(s, i1 + 1) == Some(Segment(Bare, s[i1 + 1..i2], i2 + 1))
    requires TableAt(s, i2 + 1) == Some(s[i2 + 1..e])
    ensures FillSlots(s, q, DottedAt, TableAt) == Some(TableId(Some(s[q..i1]), Some(s[i1 + 1..i2]), Some(s[i2 + 1..e])))
  {
    var a, b, t := Segment(Bare, s[q..i1], i1 + 1), Segment(Bare, s[i1 + 1..i2], i2 + 1), s[i2 + 1..e];
    assert a.end == i1 + 1 && b.end == i2 + 1;
    SlotsThree(s, q, DottedAt, TableAt, a, b, t);
  }

  lemma FillTwo(s: string, q: nat, i1: nat, e: nat)
    requires q < i1 < e <= |s|
    requires DottedAt(s, q) == Some(Segment(Bare, s[q..i1], i1 + 1))
    requires DottedAt(s, i1 + 1).None?
    requires TableAt(s, i1 + 1) == Some(s[i1 + 1..e])
    ensures FillSlots(s, q, DottedAt, TableAt) == Some(TableId(Some(s[q..i1]), None, Some(s[i1 + 1..e])))
  {
    var a, t := Segment(Bare, s[q..i1], i1 + 1), s[i1 + 1..e];
    assert a.end == i1 + 1;
    SlotsTwo(s, q, DottedAt, TableAt, a, t);
  }

  lemma SchemaAndTable(s: string, i1: nat, i2: nat, e: nat)
    requires i1 < i2 < e <= |s| && i1 + 1 < i2 && i2 + 1 < e
    requires s[i2] == '.'
    requires forall k | i1 < k < i2 :: IsWord(s[k])
    requires forall k | i2 < k < e :: IsTableChar(s[k])
    requires e == |s| || !IsTableChar(s[e])
    ensures DottedAt(s, i1 + 1) == Some(Segment(Bare, s[i1 + 1..i2], i2 + 1))
    ensures TableAt(s, i2 + 1) == Some(s[i2 + 1..e])
  {
    DottedWord(s, i1 + 1, i2);
    TableRun(s, i2 + 1, e);
  }

  lemma TableOnly(s: string, t: nat, e: nat)
    requires t < e <= |s| && (e == |s| || IsSpace(s[e]) || s[e] == '(')
    requires forall k | t <= k < e :: IsWord(s[k])
    ensures DottedAt(s, t).None?
    ensures TableAt(s, t) == Some(s[t..e])
  {
    NoDottedWord(s, t, e);
    TableRun(s, t, e);
  }

  lemma DbAndTable(s: string, q: nat, i1: nat, e: nat)
    requires q < i1 && i1 + 1 < e <= |s| && s[i1] == '.'
    requires forall k | q <= k < i1 :: IsWord(s[k])
    requires forall k | i1 < k < e :: IsWord(s[k])
    requires e == |s| || IsSpace(s[e]) || s[e] == '('
    ensures DottedAt(s, q) == Some(Segment(Bare, s[q..i1], i1 + 1))
    ensures DottedAt(s, i1 + 1).None?
    ensures TableAt(s, i1 + 1) == Some(s[i1 + 1..e])
  {
    DottedWord(s, q, i1);
    TableOnly(s, i1 + 1, e);
  }

  /** `db.schema.table` after the keywords gives all three parts (`warehouse.staging.users`). */
  lemma ThreePartName(s: string, q: nat, i1: nat, i2: nat, e: nat)
    requires CreateTableEnd(s, 0) == Some(q)
    requires q < i1 < i2 < e <= |s| && i1 + 1 < i2 && i2 + 1 < e
    requires s[i1] == '.' && s[i2] == '.'
    requires forall k | q <= k < i1 :: IsWord(s[k])
    requires forall k | i1 < k < i2 :: IsWord(s[k])
    requires forall k | i2 < k < e :: IsTableChar(s[k])
    requires e == |s| || !IsTableChar(s[e])
    ensures GetDbSchemaTable(s) == TableId(Some(s[q..i1]), Some(s[i1 + 1..i2]), Some(s[i2 + 1..e]))
  {
    DottedWord(s, q, i1);
    SchemaAndTable(s, i1, i2, e);
    FillThree(s, q, i1, i2, e);
    FirstHeader(s, q, TableId(Some(s[q..i1]), Some(s[i1 + 1..i2]), Some(s[i2 + 1..e])));
  }

  /**
   * `a.b` after the keywords gives database `a` and table `b`, and no
   * schema: the optional database slot is tried first.
   */
  lemma TwoPartName(s: string, q: nat, i1: nat, e: nat)
    requires CreateTableEnd(s, 0) == Some(q)
    requires q < i1 && i1 + 1 < e <= |s| && s[i1] == '.'
    requires forall k | q <= k < i1 :: IsWord(s[k])
    requires forall k | i1 < k < e :: IsWord(s[k])
    requires e == |s| || IsSpace(s[e]) || s[e] == '('
    ensures GetDbSchemaTable(s) == TableId(Some(s[q..i1]), None, Some(s[i1 + 1..e]))
  {
    DbAndTable(s, q, i1, e);
    FillTwo(s, q, i1, e);
    FirstHeader(s, q, TableId(Some(s[q..i1]), None, Some(s[i1 + 1..e])));
  }

  /**
   * `PRIMARY KEY` followed by a word before `(` (as in `PRIMARY KEY
   * CLUSTERED (id)`) is not a primary key for this extractor.
   */
  lemma WordAfterKeyIsNoPrimaryKey(d: string, p0: nat, k: nat)
    requires Trim(d) == d
    requires forall p | 0 <= p <= |d| && p != p0 :: !KeywordAt(d, p, "primary")
    requires KeyPhraseEnd(d, p0, "primary") == Some(k)
    requires RunEnd(d, k, IsSpace) < |d| && d[RunEnd(d, k, IsSpace)] != '('
    ensures PrimaryKeysOfDef(d) == []
  {
    forall p | 0 <= p <= |d| ensures PrimaryKeyAt(d, p).None? {
      if p != p0 {
        assert KeyPhraseEnd(d, p, "primary").None?;
      }
    }
  }

  /** A column name is a primary key iff some definition's primary-key clause lists it. */
  lemma PrimaryKeysMember(defs: seq<string>, x: string)
    ensures x in PrimaryKeysOf(defs) <==> exists i | 0 <= i < |defs| :: x in PrimaryKeysOfDef(defs[i])
  {
    CollectMember(defs, PrimaryKeysOfDef, x);
  }

  /**
   * Every record comes from a definition with a name and a type, and every
   * such definition gives a record.
   */
  lemma InfosOfMember(defs: seq<string>, fq: string, pk: seq<string>, fk: seq<ForeignKey>, x: ColumnInfo)
    ensures x in InfosOf(defs, fq, pk, fk) <==> exists i | 0 <= i < |defs| :: InfoOf(defs[i], fq, pk, fk) == Some(x)
  {
    CollectMember(defs, InfoStep(fq, pk, fk), x);
    assert forall i | 0 <= i < |defs| :: (x in InfoStep(fq, pk, fk)(defs[i]) <==> InfoOf(defs[i], fq, pk, fk) == Some(x));
  }

  /** Without any primary-key clause every record has `is_key` 'N'. */
  lemma {:induction false} NoPrimaryKeyNoKeyColumn(defs: seq<string>, fq: string, fk: seq<ForeignKey>)
    ensures forall x | x in InfosOf(defs, fq, [], fk) :: x.isKey == "N"
  {
    forall x | x in InfosOf(defs, fq, [], fk) ensures x.isKey == "N" {
      InfosOfMember(defs, fq, [], fk, x);
    }
  }
}
