/**
 * The class-based extractor of info_ddl_oop.py.  `DDLInfo` computes every
 * attribute once, in its constructor, from the statement; `to_dict` then
 * builds one record per column definition that has a name and a type.
 * Compared with info_ddl.py its header grammar accepts a word boundary
 * before `CREATE`, the TEMPORARY/TEMP/TRANSIENT/DYNAMIC modifiers, all
 * three quotings (backticks, double quotes, brackets) for every name part
 * and spaces around the dots; its primary-key pattern lets words such as
 * `CLUSTERED` sit between `KEY` and `(`.
 */
module InfoDdlOop {

  import opened Core
  import opened Text
  import opened DdlLex
  import InfoDdl

  // ---------------------------------------------------------------------
  // _get_db_schema_table
  // ---------------------------------------------------------------------

  /** `\s*table\s+` at `p`: the index just past the spaces after `table`. */
  function TableKeywordEnd(s: string, p: nat): (r: Option<nat>)
    ensures r.Some? ==> p + 6 <= r.value <= |s| && IsSpace(s[r.value - 1])
    ensures r.Some? ==> r.value == |s| || !IsSpace(s[r.value])
  {
    if p > |s| then None
    else
      var a := RunEnd(s, p, IsSpace);
      if KeywordAt(s, a, "table") then
        var b := RunEnd(s, a + 5, IsSpace);
        if b > a + 5 then Some(b) else None
      else None
  }

  /** The modifier `m` at `p`, then `\s*table\s+`. */
  function AfterModifier(s: string, p: nat, m: string): (r: Option<nat>)
    ensures r.Some? ==> KeywordAt(s, p, m) && r == TableKeywordEnd(s, p + |m|)
  {
    if KeywordAt(s, p, m) then TableKeywordEnd(s, p + |m|) else None
  }

  /**
   * `(?:temporary|temp|transient|dynamic)?\s*table\s+` at `p`: each
   * modifier in the pattern's order, then none.
   */
  function ModifiedTableEnd(s: string, p: nat): (r: Option<nat>)
    ensures r.Some? ==> p + 6 <= r.value <= |s|
  {
    var t1 := AfterModifier(s, p, "temporary");
    if t1.Some? then t1
    else
      var t2 := AfterModifier(s, p, "temp");
      if t2.Some? then t2
      else
        var t3 := AfterModifier(s, p, "transient");
        if t3.Some? then t3
        else
          var t4 := AfterModifier(s, p, "dynamic");
          if t4.Some? then t4 else TableKeywordEnd(s, p)
  }

  /**
   * `\bcreate\s+(?:or\s+replace\s+)?` and the modifier part at `p`: the
   * index where the name slots start.  When the `or replace` branch fails
   * the pattern retries without it.
   */
  function CreateTableEnd(s: string, p: nat): (r: Option<nat>)
    ensures r.Some? ==> WordBoundary(s, p) && KeywordAt(s, p, "create") && p + 12 < r.value <= |s|
  {
    if WordBoundary(s, p) && KeywordAt(s, p, "create") then
      var a := RunEnd(s, p + 6, IsSpace);
      if a > p + 6 then
        var viaReplace := ModifiedTableEnd(s, OrReplaceEnd(s, a));
        if viaReplace.Some? then viaReplace else ModifiedTableEnd(s, a)
      else None
    else None
  }

  /** `(?:seg)\s*\.\s*`: a database or schema slot, with spaces allowed around the dot. */
  function DotSegmentAt(s: string, p: nat): (r: Option<Segment>)
    ensures r.Some? ==> p < r.value.end <= |s| && r.value.text != []
    ensures r.Some? ==> exists a | p < a < r.value.end :: s[a] == '.'
  {
    if p > |s| then None
    else
      match SegmentAt(s, p)
      case None => None
      case Some(g) =>
        var a := RunEnd(s, g.end, IsSpace);
        if a < |s| && s[a] == '.' then Some(Segment(g.quoting, g.text, RunEnd(s, a + 1, IsSpace)))
        else None
  }

  /** The table slot: any segment, its text without delimiters. */
  function SegmentText(s: string, p: nat): (r: Option<string>)
    ensures r.Some? ==> r.value != []
  {
    if p > |s| then None
    else
      match SegmentAt(s, p)
      case None => None
      case Some(g) => Some(g.text)
  }

  /** The whole header pattern matched at `p`. */
  function HeaderAt(s: string, p: nat): (r: Option<TableId>)
    ensures r.Some? ==> CreateTableEnd(s, p).Some? && r.value.table.Some?
    ensures r.Some? && r.value.schema.Some? ==> r.value.database.Some?
  {
    match CreateTableEnd(s, p)
    case None => None
    case Some(q) => FillSlots(s, q, DotSegmentAt, SegmentText)
  }

  /**
   * `_get_db_schema_table`: the parts of the first header, the delimiters
   * of whichever quoting each part used removed; all absent without a header.
   */
  function DbSchemaTableOf(ddl: string): (r: TableId)
    ensures r.schema.Some? ==> r.database.Some?
  {
    match FirstMatch(ddl, 0, HeaderAt)
    case None => NoTableId
    case Some((_, id)) => id
  }

  // ---------------------------------------------------------------------
  // _get_primary_keys / _get_foreign_keys
  // ---------------------------------------------------------------------

  predicate IsNotOpenParen(c: char) {
    c != '('
  }

  /**
   * `primary\s+key\b[^(]*\(([^)]+)\)` at `p`: after `KEY` and a word
   * boundary, anything up to the first `(` opens the column group.
   */
  function PrimaryKeyAt(d: string, p: nat): (r: Option<Group>)
    ensures r.Some? ==> KeywordAt(d, p, "primary")
    ensures r.Some? ==> r.value.content != [] && ')' !in r.value.content
  {
    match KeyPhraseEnd(d, p, "primary")
    case None => None
    case Some(k) => if WordBoundary(d, k) then GroupAt(d, RunEnd(d, k, IsNotOpenParen)) else None
  }

  /** The primary-key columns one (already stripped) definition names. */
  function PrimaryKeysOfDef(d: string): (r: seq<string>)
    ensures r != [] <==> exists p | 0 <= p <= |d| :: PrimaryKeyAt(d, p).Some?
  {
    match FirstMatch(d, 0, PrimaryKeyAt)
    case None => []
    case Some((_, g)) => ColumnList(g.content)
  }

  function PrimaryKeysOf(defs: seq<string>): seq<string> {
    Collect(defs, PrimaryKeysOfDef)
  }

  /** `_get_primary_keys` over the definitions. */
  method CollectPrimaryKeys(defs: seq<string>) returns (pk: seq<string>)
    ensures pk == PrimaryKeysOf(defs)
  {
    pk := [];
    var i := 0;
    while i < |defs|
      invariant i <= |defs|
      invariant pk == PrimaryKeysOf(defs[..i])
    {
      CollectStep(defs, i, PrimaryKeysOfDef);
      var m := FirstMatch(defs[i], 0, PrimaryKeyAt);
      if m.Some? {
        pk := AppendColumns(pk, m.value.1.content);
      }
      i := i + 1;
    }
    assert defs[..i] == defs;
  }

  /** The foreign-key list; this extractor searches each definition as it is. */
  function ForeignKeysOf(defs: seq<string>): seq<ForeignKey> {
    Collect(defs, ForeignKeysOfDef)
  }

  /** `_get_foreign_keys` over the definitions. */
  method CollectForeignKeys(defs: seq<string>) returns (fk: seq<ForeignKey>)
    ensures fk == ForeignKeysOf(defs)
  {
    fk := [];
    var i := 0;
    while i < |defs|
      invariant i <= |defs|
      invariant fk == ForeignKeysOf(defs[..i])
    {
      CollectStep(defs, i, ForeignKeysOfDef);
      var m := FirstMatch(defs[i], 0, ForeignKeyAt);
      if m.Some? {
        var c := m.value.1;
        fk := AppendPairs(fk, ColumnList(c.locals), Unquote(Trim(c.refTable)), ColumnList(c.refs));
      }
      i := i + 1;
    }
    assert defs[..i] == defs;
  }

  // ---------------------------------------------------------------------
  // column_names
  // ---------------------------------------------------------------------

  /** What one definition adds to `column_names`: its name, if it has one. */
  function NameOf(d: string): (r: seq<string>)
  {
    AsList(ParseColumnName(d))
  }

  function ColumnNamesOf(defs: seq<string>): seq<string> {
    Collect(defs, NameOf)
  }

  /** The comprehension that builds `column_names`. */
  method CollectColumnNames(defs: seq<string>) returns (names: seq<string>)
    ensures names == ColumnNamesOf(defs)
  {
    names := [];
    var i := 0;
    while i < |defs|
      invariant i <= |defs|
      invariant names == ColumnNamesOf(defs[..i])
    {
      CollectStep(defs, i, NameOf);
      var name := ParseColumnName(defs[i]);
      if name.Some? {
        names := names + [name.value];
      }
      i := i + 1;
    }
    assert defs[..i] == defs;
  }

  // ---------------------------------------------------------------------
  // to_dict
  // ---------------------------------------------------------------------

  /** One record of `to_dict`, its keys in the order the source writes them. */
  datatype ColumnRecord = ColumnRecord(
    fullyQualifiedTable: string,
    database: string,
    schemaName: string,
    tableName: string,
    columnName: string,
    dataType: string,
    length: Scalar,
    isKey: string,
    isForeign: string,
    foreignTable: Option<string>,
    foreignKey: Option<string>)

  /** `_parse_length`: the leading digits-and-commas of the length group, or the integer 0. */
  function ParseLength(d: string): (r: Scalar)
    ensures r.Int? <==> ParseLengthText(d).None?
    ensures r.Int? ==> r.i == 0
    ensures r.Str? ==> r.s != [] && Some(r.s) == ParseLengthText(d)
  {
    match ParseLengthText(d)
    case Some(x) => Str(x)
    case None => Int(0)
  }

  /** `'.'.join(p for p in [db, sc, tb] if p)` */
  function TableName(id: TableId): string {
    JoinNonEmpty([InfoDdl.OrEmpty(id.database), InfoDdl.OrEmpty(id.schema), InfoDdl.OrEmpty(id.table)], '.')
  }

  /** The record one definition gives, if it has both a name and a type. */
  function RecordOf(d: string, id: TableId, pk: seq<string>, fk: seq<ForeignKey>): (r: Option<ColumnRecord>)
    ensures r.Some? <==> ParseColumnName(d).Some? && ParseDatatype(d).Some?
    ensures r.Some? ==> r.value.columnName == ParseColumnName(d).value && r.value.dataType == ParseDatatype(d).value
    ensures r.Some? ==> r.value.fullyQualifiedTable == TableName(id) && r.value.length == ParseLength(d)
    ensures r.Some? ==>
              && r.value.database == InfoDdl.OrEmpty(id.database)
              && r.value.schemaName == InfoDdl.OrEmpty(id.schema)
              && r.value.tableName == InfoDdl.OrEmpty(id.table)
    ensures r.Some? ==> (r.value.isKey == "Y" <==> r.value.columnName in pk) && r.value.isKey in {"Y", "N"}
    ensures r.Some? ==> (r.value.isForeign == "Y" <==> exists e | e in fk :: e.column == r.value.columnName)
    ensures r.Some? && r.value.isForeign == "Y" ==>
              exists i | 0 <= i < |fk| ::
                && fk[i].column == r.value.columnName
                && r.value.foreignTable == Some(fk[i].refTable) && r.value.foreignKey == Some(fk[i].refColumn)
                && forall k | 0 <= k < i :: fk[k].column != r.value.columnName
    ensures r.Some? && r.value.isForeign != "Y" ==>
              r.value.isForeign == "N" && r.value.foreignTable.None? && r.value.foreignKey.None?
  {
    match (ParseColumnName(d), ParseDatatype(d))
    case (Some(name), Some(dtype)) =>
      var db, sc, tb := InfoDdl.OrEmpty(id.database), InfoDdl.OrEmpty(id.schema), InfoDdl.OrEmpty(id.table);
      var isKey := if name in pk then "Y" else "N";
      (match FirstForeignKeyOf(fk, name)
       case Some(e) =>
         Some(ColumnRecord(TableName(id), db, sc, tb, name, dtype, ParseLength(d), isKey, "Y", Some(e.refTable), Some(e.refColumn)))
       case None =>
         Some(ColumnRecord(TableName(id), db, sc, tb, name, dtype, ParseLength(d), isKey, "N", None, None)))
    case _ => None
  }

  /** What one definition contributes to the records. */
  function RecordStep(id: TableId, pk: seq<string>, fk: seq<ForeignKey>): string -> seq<ColumnRecord> {
    d => AsList(RecordOf(d, id, pk, fk))
  }

  function RecordsOf(defs: seq<string>, id: TableId, pk: seq<string>, fk: seq<ForeignKey>): seq<ColumnRecord> {
    Collect(defs, RecordStep(id, pk, fk))
  }

  /** What `DDLInfo(ddl).to_dict()` returns. */
  function StatementRecords(ddl: string): seq<ColumnRecord> {
    var defs := Definitions(ddl);
    RecordsOf(defs, DbSchemaTableOf(ddl), PrimaryKeysOf(defs), ForeignKeysOf(defs))
  }

  /** The attributes `__init__` computes, in its order. */
  datatype Attributes = Attributes(dbSchemaTable: TableId, columnsBlock: string, columnDefs: seq<string>,
                                   primaryKeys: seq<string>, foreignKeys: seq<ForeignKey>, columnNames: seq<string>)

  /** The attributes of the object built from `ddl`. */
  function AttributesOf(ddl: string): (a: Attributes)
    ensures a.dbSchemaTable.schema.Some? ==> a.dbSchemaTable.database.Some?
    ensures a.columnDefs != [] && forall i | 0 <= i < |a.columnDefs| :: Trim(a.columnDefs[i]) == a.columnDefs[i]
  {
    var defs := Definitions(ddl);
    Attributes(DbSchemaTableOf(ddl), ColumnsBlock(ddl), defs, PrimaryKeysOf(defs), ForeignKeysOf(defs), ColumnNamesOf(defs))
  }

  /** The body of `__init__`: the header, the column block, its split, then the three loops. */
  method ComputeAttributes(ddl: string) returns (a: Attributes)
    ensures a == AttributesOf(ddl)
  {
    var block := ColumnsBlock(ddl);
    var defs := SplitColumnDefs(block);
    var pk := CollectPrimaryKeys(defs);
    var fk := CollectForeignKeys(defs);
    var names := CollectColumnNames(defs);
    a := Attributes(DbSchemaTableOf(ddl), block, defs, pk, fk, names);
  }

  // ---------------------------------------------------------------------
  // The class
  // ---------------------------------------------------------------------

  class DDLInfo {
    var ddl: string
    var dbSchemaTable: TableId
    var columnsBlock: string
    var columnDefs: seq<string>
    var primaryKeys: seq<string>
    var foreignKeys: seq<ForeignKey>
    var columnNames: seq<string>

    /** Every attribute is the one `__init__` derives from `ddl`. */
    ghost predicate Valid()
      reads this
    {
      Attributes(dbSchemaTable, columnsBlock, columnDefs, primaryKeys, foreignKeys, columnNames) == AttributesOf(ddl)
    }

    /** `__init__` */
    constructor (ddl: string)
      ensures this.ddl == ddl && Valid()
    {
      var a := ComputeAttributes(ddl);
      this.ddl := ddl;
      dbSchemaTable, columnsBlock, columnDefs := a.dbSchemaTable, a.columnsBlock, a.columnDefs;
      primaryKeys, foreignKeys, columnNames := a.primaryKeys, a.foreignKeys, a.columnNames;
    }

    /** `to_dict`: one record per definition with a name and a type, in order. */
    method ToDict() returns (meta: seq<ColumnRecord>)
      ensures meta == RecordsOf(columnDefs, dbSchemaTable, primaryKeys, foreignKeys)
      ensures Valid() ==> meta == StatementRecords(ddl)
    {
      meta := [];
      var i := 0;
      while i < |columnDefs|
        invariant i <= |columnDefs|
        invariant meta == RecordsOf(columnDefs[..i], dbSchemaTable, primaryKeys, foreignKeys)
      {
        CollectStep(columnDefs, i, RecordStep(dbSchemaTable, primaryKeys, foreignKeys));
        var record := RecordOf(columnDefs[i], dbSchemaTable, primaryKeys, foreignKeys);
        if record.Some? {
          meta := meta + [record.value];
        }
        i := i + 1;
      }
      assert columnDefs[..i] == columnDefs;
    }
  }

  // ---------------------------------------------------------------------
  // Properties of the header
  // ---------------------------------------------------------------------

  /** The table is absent exactly when no header occurs anywhere, and then so is everything else. */
  lemma NoHeaderNoTable(ddl: string)
    ensures DbSchemaTableOf(ddl).table.None? <==> forall p | 0 <= p <= |ddl| :: HeaderAt(ddl, p).None?
    ensures DbSchemaTableOf(ddl).table.None? ==> DbSchemaTableOf(ddl) == NoTableId
  {
  }

  /** No `table` keyword starts at `q` when `s[q]` is neither a space nor a `t`. */
  lemma NoTableKeyword(s: string, q: nat)
    requires q < |s| && !IsSpace(s[q]) && LowerChar(s[q]) != 't'
    ensures TableKeywordEnd(s, q).None?
  {
    RunEndExact(s, q, q, IsSpace);
    assert LowerChar(s[q]) != "table"[0];
  }

  /**
   * At most one modifier alternative can succeed, so the one written in the
   * statement is the one taken, whatever the pattern's order.
   */
  lemma ModifierUnique(s: string, p: nat, m: string)
    requires m in ["temporary", "temp", "transient", "dynamic", ""]
    requires KeywordAt(s, p, m) && TableKeywordEnd(s, p + |m|).Some?
    ensures ModifiedTableEnd(s, p) == TableKeywordEnd(s, p + |m|)
  {
    if m == "temporary" {
      assert AfterModifier(s, p, "temporary") == TableKeywordEnd(s, p + 9);
    } else if m == "temp" {
      TempTaken(s, p);
    } else if m == "transient" {
      TransientTaken(s, p);
    } else if m == "dynamic" {
      DynamicTaken(s, p);
    } else {
      NoModifierTaken(s, p);
    }
  }

  /** Two keywords that differ at index `k` cannot both start at `p`. */
  lemma DiffersAt(s: string, p: nat, kw: string, other: string, k: nat)
    requires KeywordAt(s, p, kw) && k < |kw| && k < |other| && kw[k] != other[k]
    ensures !KeywordAt(s, p, other)
  {
    assert LowerChar(s[p + k]) == kw[k];
  }

  lemma TempTaken(s: string, p: nat)
    requires KeywordAt(s, p, "temp") && TableKeywordEnd(s, p + 4).Some?
    ensures ModifiedTableEnd(s, p) == TableKeywordEnd(s, p + 4)
  {
    if KeywordAt(s, p, "temporary") {
      assert LowerChar(s[p + 4]) == "temporary"[4];
      NoTableKeyword(s, p + 4);
    }
    assert AfterModifier(s, p, "temporary").None?;
  }

  lemma TransientTaken(s: string, p: nat)
    requires KeywordAt(s, p, "transient") && TableKeywordEnd(s, p + 9).Some?
    ensures ModifiedTableEnd(s, p) == TableKeywordEnd(s, p + 9)
  {
    DiffersAt(s, p, "transient", "temporary", 1);
    DiffersAt(s, p, "transient", "temp", 1);
  }

  lemma DynamicTaken(s: string, p: nat)
    requires KeywordAt(s, p, "dynamic") && TableKeywordEnd(s, p + 7).Some?
    ensures ModifiedTableEnd(s, p) == TableKeywordEnd(s, p + 7)
  {
    DiffersAt(s, p, "dynamic", "temporary", 0);
    DiffersAt(s, p, "dynamic", "temp", 0);
    DiffersAt(s, p, "dynamic", "transient", 0);
  }

  lemma NoModifierTaken(s: string, p: nat)
    requires TableKeywordEnd(s, p).Some?
    ensures ModifiedTableEnd(s, p) == TableKeywordEnd(s, p)
  {
    if RunEnd(s, p, IsSpace) == p {
      assert KeywordAt(s, p, "table");
      DiffersAt(s, p, "table", "temporary", 1);
      DiffersAt(s, p, "table", "temp", 1);
      DiffersAt(s, p, "table", "transient", 1);
      DiffersAt(s, p, "table", "dynamic", 0);
    } else {
      assert IsSpace(s[p]) && !IsLetter(s[p]);
      assert !KeywordAt(s, p, "temporary") by { assert LowerChar(s[p]) != "temporary"[0]; }
      assert !KeywordAt(s, p, "temp") by { assert LowerChar(s[p]) != "temp"[0]; }
      assert !KeywordAt(s, p, "transient") by { assert LowerChar(s[p]) != "transient"[0]; }
      assert !KeywordAt(s, p, "dynamic") by { assert LowerChar(s[p]) != "dynamic"[0]; }
    }
  }

  /**
   * `CREATE [OR REPLACE] <modifier> TABLE` at the start of the statement:
   * the name slots start after the spaces that follow `TABLE`.
   */
  lemma CreateWithModifier(s: string, a: nat, m: string)
    requires m in ["temporary", "temp", "transient", "dynamic", ""]
    requires KeywordAt(s, 0, "create") && a == RunEnd(s, 6, IsSpace) && a > 6
    requires KeywordAt(s, OrReplaceEnd(s, a), m) && TableKeywordEnd(s, OrReplaceEnd(s, a) + |m|).Some?
    ensures CreateTableEnd(s, 0) == TableKeywordEnd(s, OrReplaceEnd(s, a) + |m|)
  {
    assert WordBoundary(s, 0) by {
      assert LowerChar(s[0]) == "create"[0] && IsLetter(s[0]);
    }
    ModifierUnique(s, OrReplaceEnd(s, a), m);
  }

  /** Segment `g` is followed, after optional spaces, by a dot. */
  predicate DotAfter(s: string, g: Segment) {
    g.end <= |s| && RunEnd(s, g.end, IsSpace) < |s| && s[RunEnd(s, g.end, IsSpace)] == '.'
  }

  /** Where the next name part starts: after the dot and the spaces that follow it. */
  function NextPart(s: string, g: Segment): nat
    requires DotAfter(s, g)
  {
    RunEnd(s, RunEnd(s, g.end, IsSpace) + 1, IsSpace)
  }

  lemma DottedPart(s: string, p: nat, g: Segment)
    requires Renders(s, p, g) && DotAfter(s, g)
    ensures DotSegmentAt(s, p) == Some(Segment(g.quoting, g.text, NextPart(s, g)))
    ensures SegmentText(s, p) == Some(g.text)
  {
    SegmentAtReads(s, p, g);
  }

  lemma FinalPart(s: string, p: nat, g: Segment)
    requires Renders(s, p, g) && !DotAfter(s, g)
    ensures DotSegmentAt(s, p).None?
    ensures SegmentText(s, p) == Some(g.text)
  {
    SegmentAtReads(s, p, g);
  }

  /** The header at the start of the statement is the one reported. */
  lemma FirstHeader(s: string, q: nat, id: TableId)
    requires CreateTableEnd(s, 0) == Some(q)
    requires FillSlots(s, q, DotSegmentAt, SegmentText) == Some(id)
    ensures DbSchemaTableOf(s) == id
  {
    assert HeaderAt(s, 0) == Some(id);
  }

  /**
   * `a.b.t` (each part bare, backticked, double-quoted or bracketed, spaces
   * allowed around the dots) gives all three parts without delimiters.
   */
  lemma ThreePartName(s: string, q: nat, a: Segment, b: Segment, t: Segment)
    requires CreateTableEnd(s, 0) == Some(q)
    requires Renders(s, q, a) && DotAfter(s, a)
    requires Renders(s, NextPart(s, a), b) && DotAfter(s, b)
    requires Renders(s, NextPart(s, b), t)
    ensures DbSchemaTableOf(s) == TableId(Some(a.text), Some(b.text), Some(t.text))
  {
    DottedPart(s, q, a);
    DottedPart(s, NextPart(s, a), b);
    assert SegmentText(s, NextPart(s, b)) == Some(t.text) by {
      SegmentAtReads(s, NextPart(s, b), t);
    }
    var a', b' := Segment(a.quoting, a.text, NextPart(s, a)), Segment(b.quoting, b.text, NextPart(s, b));
    SlotsThree(s, q, DotSegmentAt, SegmentText, a', b', t.text);
    FirstHeader(s, q, TableId(Some(a.text), Some(b.text), Some(t.text)));
  }

  /** `a.t` gives database `a`, no schema and table `t`: the database slot is tried first. */
  lemma TwoPartName(s: string, q: nat, a: Segment, t: Segment)
    requires CreateTableEnd(s, 0) == Some(q)
    requires Renders(s, q, a) && DotAfter(s, a)
    requires Renders(s, NextPart(s, a), t) && !DotAfter(s, t)
    ensures DbSchemaTableOf(s) == TableId(Some(a.text), None, Some(t.text))
  {
    DottedPart(s, q, a);
    FinalPart(s, NextPart(s, a), t);
    SlotsTwo(s, q, DotSegmentAt, SegmentText, Segment(a.quoting, a.text, NextPart(s, a)), t.text);
    FirstHeader(s, q, TableId(Some(a.text), None, Some(t.text)));
  }

  /** A lone name is the table, without database or schema. */
  lemma OnePartName(s: string, q: nat, t: Segment)
    requires CreateTableEnd(s, 0) == Some(q)
    requires Renders(s, q, t) && !DotAfter(s, t)
    ensures DbSchemaTableOf(s) == TableId(None, None, Some(t.text))
  {
    FinalPart(s, q, t);
    SlotsOne(s, q, DotSegmentAt, SegmentText, t.text);
    FirstHeader(s, q, TableId(None, None, Some(t.text)));
  }

  // ---------------------------------------------------------------------
  // Properties of the keys and the records
  // ---------------------------------------------------------------------

  /** `KEY` ends a word, so `\b` holds after it unless a word character follows. */
  lemma KeyEndsWord(d: string, p: nat, k: nat)
    requires KeyPhraseEnd(d, p, "primary") == Some(k)
    requires k < |d| ==> !IsWord(d[k])
    ensures WordBoundary(d, k)
  {
    assert LowerChar(d[k - 1]) == "key"[2] && IsLetter(d[k - 1]);
  }

  /**
   * Every primary-key clause info_ddl.py accepts is accepted here too, with
   * the same columns.
   */
  lemma AcceptsEveryPrimaryKey(d: string, p: nat)
    requires InfoDdl.PrimaryKeyAt(d, p).Some?
    ensures PrimaryKeyAt(d, p) == InfoDdl.PrimaryKeyAt(d, p)
  {
    var k := KeyPhraseEnd(d, p, "primary").value;
    var o := RunEnd(d, k, IsSpace);
    assert d[o] == '(';
    KeyEndsWord(d, p, k);
    RunEndExact(d, k, o, IsNotOpenParen);
  }

  /**
   * Words between `KEY` and `(` (as in `PRIMARY KEY CLUSTERED (id)`) are
   * skipped here, while info_ddl.py finds no primary key at that position.
   */
  lemma WordsBeforeColumnGroup(d: string, p: nat, k: nat, o: nat, j: nat)
    requires KeyPhraseEnd(d, p, "primary") == Some(k)
    requires k < o && o + 1 < j < |d| && !IsWord(d[k])
    requires forall i | k <= i < o :: d[i] != '('
    requires d[o] == '(' && d[j] == ')' && forall i | o < i < j :: d[i] != ')'
    ensures PrimaryKeyAt(d, p) == Some(Group(d[o + 1..j], j + 1))
    ensures RunEnd(d, k, IsSpace) < o ==> InfoDdl.PrimaryKeyAt(d, p).None?
  {
    KeyEndsWord(d, p, k);
    RunEndExact(d, k, o, IsNotOpenParen);
    GroupReads(d, o, j);
    assert PrimaryKeyAt(d, p) == GroupAt(d, o);
    if RunEnd(d, k, IsSpace) < o {
      assert d[RunEnd(d, k, IsSpace)] != '(';
    }
  }

  /**
   * On stripped definitions the two extractors build the same foreign-key
   * list: stripping again changes nothing.
   */
  lemma {:induction false} SameForeignKeys(defs: seq<string>)
    requires forall i | 0 <= i < |defs| :: Trim(defs[i]) == defs[i]
    ensures ForeignKeysOf(defs) == InfoDdl.ForeignKeysOf(defs)
  {
    if defs != [] {
      var n := |defs| - 1;
      SameForeignKeys(defs[..n]);
      assert InfoDdl.StrippedForeignKeys(defs[n]) == ForeignKeysOfDef(defs[n]);
    }
  }

  /** For every statement both extractors report the same foreign keys. */
  lemma StatementForeignKeys(ddl: string)
    ensures ForeignKeysOf(Definitions(ddl)) == InfoDdl.ForeignKeysOf(Definitions(ddl))
  {
    SameForeignKeys(Definitions(ddl));
  }

  /** A record is produced exactly for each definition that has both a name and a type. */
  lemma RecordsMember(defs: seq<string>, id: TableId, pk: seq<string>, fk: seq<ForeignKey>, x: ColumnRecord)
    ensures x in RecordsOf(defs, id, pk, fk) <==> exists i | 0 <= i < |defs| :: RecordOf(defs[i], id, pk, fk) == Some(x)
  {
    CollectMember(defs, RecordStep(id, pk, fk), x);
    assert forall i | 0 <= i < |defs| :: (x in RecordStep(id, pk, fk)(defs[i]) <==> RecordOf(defs[i], id, pk, fk) == Some(x));
  }

  /** Every record's column is one of `column_names`. */
  lemma RecordColumnsAreNamed(defs: seq<string>, id: TableId, pk: seq<string>, fk: seq<ForeignKey>)
    ensures forall x | x in RecordsOf(defs, id, pk, fk) :: x.columnName in ColumnNamesOf(defs)
  {
    forall x | x in RecordsOf(defs, id, pk, fk) ensures x.columnName in ColumnNamesOf(defs) {
      RecordsMember(defs, id, pk, fk, x);
      var i :| 0 <= i < |defs| && RecordOf(defs[i], id, pk, fk) == Some(x);
      assert x.columnName in NameOf(defs[i]);
      CollectMember(defs, NameOf, x.columnName);
    }
  }

  /**
   * With a table name the dotted name agrees with info_ddl.py's, which
   * joins the table even when empty.
   */
  lemma SameQualifiedName(id: TableId)
    requires id.table.Some? && id.table.value != ""
    ensures TableName(id) == InfoDdl.QualifiedName(InfoDdl.OrEmpty(id.database), InfoDdl.OrEmpty(id.schema), id.table.value)
  {
    var db, sc, tb := InfoDdl.OrEmpty(id.database), InfoDdl.OrEmpty(id.schema), id.table.value;
    assert [db, sc, tb][1..] == [sc, tb] && [sc, tb][1..] == [tb] && [tb][1..] == [];
    assert NonEmpty([tb]) == [tb];
    assert NonEmpty([db, sc, tb]) == (if db != "" then [db] else []) + (if sc != "" then [sc] else []) + [tb];
  }
}
