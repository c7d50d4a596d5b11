/**
 * snowflake/Snowflake_extension.py: the older `SnowflakeExtend`.  Its
 * constructor takes the extractor's records as a frame, adds the Snowflake
 * type column `ADDITIONAL_DTYPE` only when the frame is non-empty, adds the
 * length column under the label `ADDITIONAL_LENGHT` (spelled as the program
 * spells it) and forces the lengths Snowflake fixes, with the same three
 * overrides as the newer engine.
 *
 * Unlike the engine it does not refuse an empty frame or an empty index:
 * an empty frame fails only when `length` is read, and an unknown system
 * leaves every type missing.  Its type table is imported from a module that
 * is not part of this model, so it is a parameter here.
 */
module SnowflakeExtension {

  import opened Core
  import opened Text
  import opened TypeTables
  import opened Frames
  import Transformations
  import SnowflakeEngine
  import InfoDdlOop

  const DtypeLabel: string := "ADDITIONAL_DTYPE"
  const LengthLabel: string := "ADDITIONAL_LENGHT"

  /** `.str.upper().map(reverse_typemap)` of one cell: a cell that is not a string, or a key the index lacks, gives a missing value. */
  function DtypeCell(c: Cell, reverse: map<string, string>): Cell {
    match c
    case Some(Str(s)) => if Upper(s) in reverse then Some(Str(reverse[Upper(s)])) else None
    case _ => None
  }

  /**
   * The mapped type column: a row is present exactly when the source row is
   * text whose upper-cased form is a key of the index, and then it holds
   * one of the index's canonical types.
   */
  function DtypeColumn(col: seq<Cell>, reverse: map<string, string>): (r: seq<Cell>)
    ensures |r| == |col| && forall i | 0 <= i < |col| :: r[i] == DtypeCell(col[i], reverse)
    ensures forall i | 0 <= i < |col| :: r[i].Some? <==> col[i].Some? && col[i].value.Str? && Upper(col[i].value.s) in reverse
    ensures forall i | 0 <= i < |col| :: r[i].Some? ==> r[i].value.Str? && r[i].value.s in reverse.Values
  {
    seq(|col|, i requires 0 <= i < |col| => DtypeCell(col[i], reverse))
  }

  /**
   * What the constructor does to the source frame, given the index: the
   * type column when the frame is non-empty, then the length column, then
   * the overrides, which read the type column.  A missing column stops it
   * with that column's KeyError.
   */
  function Extended(t: Table, reverse: map<string, string>): (r: Result<Table>)
    requires WellFormed(t)
    ensures r.Success? ==> WellFormed(r.value) && r.value.height == t.height
    ensures r.Success? ==> "length" in t.labels
    ensures r.Failure? ==> r.error.KeyError?
  {
    if !IsEmpty(t) && "datatype" !in t.columns then Failure(KeyError("datatype"))
    else
      var d := if IsEmpty(t) then t else Put(t, DtypeLabel, DtypeColumn(t.columns["datatype"], reverse));
      if "length" !in d.columns then Failure(KeyError("length"))
      else
        var l := Put(d, LengthLabel, Transformations.LengthColumn(d.columns["length"]));
        if DtypeLabel !in l.columns then Failure(KeyError(DtypeLabel))
        else Success(SnowflakeEngine.Overrides(l, DtypeLabel, LengthLabel))
  }

  /** The constructor's steps from `self.dataframe_from_source` on, in place on that one frame. */
  method ExtendFrame(df: Frame, typemap: TypeMap, sourceDb: string) returns (r: Result<Table>)
    requires df.Valid()
    modifies df
    ensures df.Valid()
    ensures r == Extended(old(df.Snapshot()), ReverseMap(typemap, sourceDb))
    ensures r.Success? ==> df.Snapshot() == r.value
  {
    var reverse := Transformations.BuildReverseTypemap(typemap, sourceDb);
    if !IsEmpty(df.Snapshot()) {
      if "datatype" !in df.columns {
        return Failure(KeyError("datatype"));
      }
      df.Assign(DtypeLabel, DtypeColumn(df.columns["datatype"], reverse));
    }
    if "length" !in df.columns {
      return Failure(KeyError("length"));
    }
    df.Assign(LengthLabel, Transformations.LengthColumn(df.columns["length"]));
    if DtypeLabel !in df.columns {
      return Failure(KeyError(DtypeLabel));
    }
    SnowflakeEngine.ApplyOverrides(df, DtypeLabel, LengthLabel);
    r := Success(df.Snapshot());
  }

  // ---------------------------------------------------------------------
  // SnowflakeExtend
  // ---------------------------------------------------------------------

  /**
   * The older `SnowflakeExtend`: the parsed statement (the `DDLInfo` it
   * extends) and the fields its constructor sets.  The two frame fields name
   * one object.
   */
  class SnowflakeExtend {
    const info: InfoDdlOop.DDLInfo
    var dataframeFromSource: Frame
    var configConversionDict: TypeMap
    var dataframeSnw: Frame

    /** The fields hold the frame `t` converted with `typemap`. */
    ghost predicate Holds(typemap: TypeMap, t: Table)
      reads this, dataframeSnw
    {
      && dataframeFromSource == dataframeSnw
      && dataframeSnw.Valid() && dataframeSnw.Snapshot() == t
      && configConversionDict == typemap
    }

    constructor (info: InfoDdlOop.DDLInfo, df: Frame, typemap: TypeMap, t: Table)
      requires df.Valid() && df.Snapshot() == t
      ensures this.info == info && dataframeSnw == df && Holds(typemap, t)
    {
      this.info := info;
      dataframeFromSource, dataframeSnw := df, df;
      configConversionDict := typemap;
    }
  }

  /** The frame `DDLInfo(ddl).to_dataframe()` holds, converted for `source_db` with `typemap`. */
  ghost function Extension(ddl: string, sourceDb: string, typemap: TypeMap): Result<Table> {
    Extended(RecordsTable(InfoDdlOop.StatementRecords(ddl)), ReverseMap(typemap, sourceDb))
  }

  /**
   * `SnowflakeExtend(ddl, source_db)` with the imported table `typemap`:
   * parses the statement, takes its records as a frame and converts it, or
   * gives the error the constructor raises.
   */
  method Create(ddl: string, sourceDb: string, typemap: TypeMap) returns (r: Result<SnowflakeExtend>)
    ensures r.Success? <==> Extension(ddl, sourceDb, typemap).Success?
    ensures r.Failure? ==> r.error == Extension(ddl, sourceDb, typemap).error
    ensures r.Success? ==>
      && fresh(r.value) && fresh(r.value.dataframeSnw)
      && r.value.info.ddl == ddl && r.value.info.Valid()
      && r.value.Holds(typemap, Extension(ddl, sourceDb, typemap).value)
  {
    var info := new InfoDdlOop.DDLInfo(ddl);
    SnowflakeEngine.SourceOfValid(info);
    r := Extend(info, sourceDb, typemap);
  }

  /** The constructor's body once `DDLInfo.__init__` has set the attributes. */
  method Extend(info: InfoDdlOop.DDLInfo, sourceDb: string, typemap: TypeMap) returns (r: Result<SnowflakeExtend>)
    ensures var e := Extended(SnowflakeEngine.SourceTable(info), ReverseMap(typemap, sourceDb));
      && (r.Success? <==> e.Success?)
      && (r.Failure? ==> r.error == e.error)
    ensures r.Success? ==>
      && fresh(r.value) && fresh(r.value.dataframeSnw) && r.value.info == info
      && r.value.Holds(typemap, Extended(SnowflakeEngine.SourceTable(info), ReverseMap(typemap, sourceDb)).value)
  {
    var df := Frames.ToDataframe(info);
    var c := ExtendFrame(df, typemap, sourceDb);
    if c.Failure? {
      return Failure(c.error);
    }
    var e := new SnowflakeExtend(info, df, typemap, c.value);
    r := Success(e);
  }

  // ---------------------------------------------------------------------
  // What the conversion gives
  // ---------------------------------------------------------------------

  /**
   * The conversion fails only on a missing column: `datatype` in a non-empty
   * frame, then `length`, then in an empty frame the type column it never
   * added.
   */
  lemma ExtendedOutcome(t: Table, reverse: map<string, string>)
    requires WellFormed(t)
    ensures Extended(t, reverse).Success? <==>
      "length" in t.labels && (if IsEmpty(t) then DtypeLabel in t.labels else "datatype" in t.labels)
    ensures !IsEmpty(t) && "datatype" !in t.labels ==> Extended(t, reverse) == Failure(KeyError("datatype"))
    ensures (IsEmpty(t) || "datatype" in t.labels) && "length" !in t.labels ==> Extended(t, reverse) == Failure(KeyError("length"))
    ensures IsEmpty(t) && "length" in t.labels && DtypeLabel !in t.labels ==> Extended(t, reverse) == Failure(KeyError(DtypeLabel))
  {
    assert DtypeLabel != "length" && DtypeLabel != LengthLabel;
  }

  /**
   * A non-empty frame with `datatype` and `length` converts.  It gains the
   * two columns and keeps every other one and its row count; each row gets
   * its type from the index and the Snowflake length of that type.
   */
  lemma ExtendedCells(t: Table, reverse: map<string, string>)
    requires WellFormed(t) && !IsEmpty(t) && "datatype" in t.labels && "length" in t.labels
    ensures Extended(t, reverse).Success?
    ensures var o := Extended(t, reverse).value;
      && o.height == t.height
      && (forall l :: l in o.labels <==> l in t.labels || l in [DtypeLabel, LengthLabel])
      && (forall l | l in t.columns && l !in [DtypeLabel, LengthLabel] :: o.columns[l] == t.columns[l])
      && (forall i | 0 <= i < t.height ::
            var dtype := DtypeCell(t.columns["datatype"][i], reverse);
            && o.columns[DtypeLabel][i] == dtype
            && o.columns[LengthLabel][i] == SnowflakeEngine.SnowflakeLength(dtype, t.columns["length"][i]))
  {
    assert DtypeLabel != "length" && DtypeLabel != LengthLabel && LengthLabel != "length";
    var d := Put(t, DtypeLabel, DtypeColumn(t.columns["datatype"], reverse));
    var l := Put(d, LengthLabel, Transformations.LengthColumn(d.columns["length"]));
    assert d.columns["length"] == t.columns["length"];
    assert l.columns["length"] == t.columns["length"] && l.columns[DtypeLabel] == d.columns[DtypeLabel];
    SnowflakeEngine.OverridesCells(l, DtypeLabel, LengthLabel);
  }

  /** Labels the frame lacks are appended: the type column, then the length column. */
  lemma ExtendedLabels(t: Table, reverse: map<string, string>)
    requires WellFormed(t) && !IsEmpty(t) && "datatype" in t.labels && "length" in t.labels
    requires DtypeLabel !in t.labels && LengthLabel !in t.labels
    ensures Extended(t, reverse).Success?
    ensures Extended(t, reverse).value.labels == t.labels + [DtypeLabel, LengthLabel]
  {
    assert DtypeLabel != "length" && DtypeLabel != LengthLabel && LengthLabel != "length";
    var dcol := DtypeColumn(t.columns["datatype"], reverse);
    var d := Put(t, DtypeLabel, dcol);
    assert d.columns["length"] == t.columns["length"];
    var lcol := Transformations.LengthColumn(t.columns["length"]);
    var l := Put(d, LengthLabel, lcol);
    PutTwoAppends(t, DtypeLabel, dcol, LengthLabel, lcol);
    assert l.columns["length"] == t.columns["length"];
    SnowflakeEngine.OverridesCells(l, DtypeLabel, LengthLabel);
  }

  /** Neither new label is a record key. */
  lemma LabelsAreNotRecordKeys()
    ensures DtypeLabel !in RecordLabels && LengthLabel !in RecordLabels && DtypeLabel != LengthLabel
  {
  }

  /**
   * Over the records of a statement the conversion succeeds exactly when
   * there is a record; with none, the frame has no `length` column and the
   * constructor raises `KeyError('length')`, whatever the index.
   */
  lemma RecordsOutcome(records: seq<InfoDdlOop.ColumnRecord>, reverse: map<string, string>)
    ensures Extended(RecordsTable(records), reverse).Success? <==> records != []
    ensures records == [] ==> Extended(RecordsTable(records), reverse) == Failure(KeyError("length"))
  {
    RecordsTableShape(records);
    ExtendedOutcome(RecordsTable(records), reverse);
  }

  /**
   * The records' converted frame has the record keys and then the two new
   * labels, one row per record, and each row's type from the index and the
   * Snowflake length of that type.
   */
  lemma RecordsExtended(records: seq<InfoDdlOop.ColumnRecord>, reverse: map<string, string>)
    requires records != []
    ensures Extended(RecordsTable(records), reverse).Success?
    ensures var o := Extended(RecordsTable(records), reverse).value;
      && o.labels == RecordLabels + [DtypeLabel, LengthLabel]
      && o.height == |records|
      && forall i | 0 <= i < |records| ::
           var dtype := DtypeCell(Some(Str(records[i].dataType)), reverse);
           && o.columns[DtypeLabel][i] == dtype
           && o.columns[LengthLabel][i] == SnowflakeEngine.SnowflakeLength(dtype, Some(records[i].length))
  {
    var t := RecordsTable(records);
    RecordsTableShape(records);
    RecordTypesColumns(records);
    LabelsAreNotRecordKeys();
    ExtendedLabels(t, reverse);
    ExtendedCells(t, reverse);
  }

  /**
   * For the same records and a non-empty index, the older extension and the
   * engine give every row the same Snowflake type and the same length; they
   * differ only in the label of the length column.
   */
  lemma AgreesWithEngine(records: seq<InfoDdlOop.ColumnRecord>, reverse: map<string, string>)
    requires records != [] && reverse != map[]
    ensures Extended(RecordsTable(records), reverse).Success?
    ensures SnowflakeEngine.Converted(RecordsTable(records), reverse).Success?
    ensures var o := Extended(RecordsTable(records), reverse).value;
      var e := SnowflakeEngine.Converted(RecordsTable(records), reverse).value;
      && o.height == e.height == |records|
      && DtypeLabel in o.columns && LengthLabel in o.columns
      && Transformations.AdditionalDtype in e.columns && Transformations.AdditionalLength in e.columns
    ensures var o := Extended(RecordsTable(records), reverse).value;
      var e := SnowflakeEngine.Converted(RecordsTable(records), reverse).value;
      forall i | 0 <= i < |records| ::
        && o.columns[DtypeLabel][i] == e.columns[Transformations.AdditionalDtype][i]
        && o.columns[LengthLabel][i] == e.columns[Transformations.AdditionalLength][i]
  {
    RecordTypesColumns(records);
    SnowflakeEngine.ConvertedRecords(records, reverse);
    FrameAgrees(RecordsTable(records), reverse);
  }

  /** `AgreesWithEngine` for any frame whose types are all strings. */
  lemma FrameAgrees(t: Table, reverse: map<string, string>)
    requires WellFormed(t) && SnowflakeEngine.Converted(t, reverse).Success? && "datatype" in t.columns
    requires forall i | 0 <= i < t.height :: t.columns["datatype"][i].Some? && t.columns["datatype"][i].value.Str?
    ensures Extended(t, reverse).Success?
    ensures var o := Extended(t, reverse).value;
      var e := SnowflakeEngine.Converted(t, reverse).value;
      && o.height == e.height == t.height
      && DtypeLabel in o.columns && LengthLabel in o.columns
      && Transformations.AdditionalDtype in e.columns && Transformations.AdditionalLength in e.columns
      && forall i | 0 <= i < t.height ::
           && o.columns[DtypeLabel][i] == e.columns[Transformations.AdditionalDtype][i]
           && o.columns[LengthLabel][i] == e.columns[Transformations.AdditionalLength][i]
  {
    SnowflakeEngine.ConvertedOutcome(t, reverse);
    ExtendedAt(t, reverse, 0);
    EngineAt(t, reverse, 0);
    var o := Extended(t, reverse).value;
    var e := SnowflakeEngine.Converted(t, reverse).value;
    forall i | 0 <= i < t.height
      ensures o.columns[DtypeLabel][i] == e.columns[Transformations.AdditionalDtype][i]
      ensures o.columns[LengthLabel][i] == e.columns[Transformations.AdditionalLength][i]
    {
      RowAgrees(t, reverse, i);
    }
  }

  /** One row of `FrameAgrees`. */
  lemma RowAgrees(t: Table, reverse: map<string, string>, i: nat)
    requires WellFormed(t) && SnowflakeEngine.Converted(t, reverse).Success? && "datatype" in t.columns && i < t.height
    requires t.columns["datatype"][i].Some? && t.columns["datatype"][i].value.Str?
    ensures Extended(t, reverse).Success?
    ensures var o := Extended(t, reverse).value;
      var e := SnowflakeEngine.Converted(t, reverse).value;
      && DtypeLabel in o.columns && LengthLabel in o.columns && o.height == t.height
      && Transformations.AdditionalDtype in e.columns && Transformations.AdditionalLength in e.columns && e.height == t.height
      && o.columns[DtypeLabel][i] == e.columns[Transformations.AdditionalDtype][i]
      && o.columns[LengthLabel][i] == e.columns[Transformations.AdditionalLength][i]
  {
    SnowflakeEngine.ConvertedOutcome(t, reverse);
    ExtendedAt(t, reverse, i);
    EngineAt(t, reverse, i);
    var c := t.columns["datatype"][i];
    assert Transformations.AsStr(c) == c.value.s;
  }

  /** One row of `ExtendedCells`. */
  lemma ExtendedAt(t: Table, reverse: map<string, string>, i: nat)
    requires WellFormed(t) && !IsEmpty(t) && "datatype" in t.labels && "length" in t.labels && i < t.height
    ensures Extended(t, reverse).Success?
    ensures var o := Extended(t, reverse).value;
      && o.height == t.height && DtypeLabel in o.columns && LengthLabel in o.columns
      && o.columns[DtypeLabel][i] == DtypeCell(t.columns["datatype"][i], reverse)
      && o.columns[LengthLabel][i] == SnowflakeEngine.SnowflakeLength(o.columns[DtypeLabel][i], t.columns["length"][i])
  {
    ExtendedCells(t, reverse);
  }

  /** One row of the engine's `ConvertedCells`. */
  lemma EngineAt(t: Table, reverse: map<string, string>, i: nat)
    requires WellFormed(t) && SnowflakeEngine.Converted(t, reverse).Success? && i < t.height
    ensures var e := SnowflakeEngine.Converted(t, reverse).value;
      && e.height == t.height && "datatype" in t.columns && "length" in t.columns
      && Transformations.AdditionalDtype in e.columns && Transformations.AdditionalLength in e.columns
      && e.columns[Transformations.AdditionalDtype][i] == Transformations.DtypeCell(t.columns["datatype"][i], reverse)
      && e.columns[Transformations.AdditionalLength][i]
         == SnowflakeEngine.SnowflakeLength(e.columns[Transformations.AdditionalDtype][i], t.columns["length"][i])
  {
    SnowflakeEngine.ConvertedCells(t, reverse);
  }

  /**
   * With an empty index, a system the table does not list, the older
   * extension still converts: every type is missing and every length is
   * the source length when present and not 0.  The engine stops instead.
   */
  lemma EmptyIndexKeepsLengths(records: seq<InfoDdlOop.ColumnRecord>)
    requires records != []
    ensures SnowflakeEngine.Converted(RecordsTable(records), map[]) == Failure(ValueError("reverse_typemap non valido"))
    ensures Extended(RecordsTable(records), map[]).Success?
    ensures var o := Extended(RecordsTable(records), map[]).value;
      forall i | 0 <= i < |records| ::
        o.columns[DtypeLabel][i] == None && o.columns[LengthLabel][i] == Transformations.LengthCell(Some(records[i].length))
  {
    SnowflakeEngine.ConvertedRecords(records, map[]);
    UnmappedKeepsLengths(records, map[]);
  }

  /**
   * A row whose type the index lacks gets no Snowflake type, and so none of
   * the overrides: its length is the source length when present and not 0.
   */
  lemma UnmappedKeepsLengths(records: seq<InfoDdlOop.ColumnRecord>, reverse: map<string, string>)
    requires records != []
    requires forall i | 0 <= i < |records| :: Upper(records[i].dataType) !in reverse
    ensures Extended(RecordsTable(records), reverse).Success?
    ensures var o := Extended(RecordsTable(records), reverse).value;
      forall i | 0 <= i < |records| ::
        o.columns[DtypeLabel][i] == None && o.columns[LengthLabel][i] == Transformations.LengthCell(Some(records[i].length))
  {
    RecordsTableShape(records);
    RecordTypesColumns(records);
    UnmappedFrame(RecordsTable(records), reverse);
  }

  /** `UnmappedKeepsLengths` for any frame. */
  lemma UnmappedFrame(t: Table, reverse: map<string, string>)
    requires WellFormed(t) && !IsEmpty(t) && "datatype" in t.labels && "length" in t.labels
    requires forall i | 0 <= i < t.height :: DtypeCell(t.columns["datatype"][i], reverse) == None
    ensures Extended(t, reverse).Success?
    ensures var o := Extended(t, reverse).value;
      forall i | 0 <= i < t.height ::
        o.columns[DtypeLabel][i] == None && o.columns[LengthLabel][i] == Transformations.LengthCell(t.columns["length"][i])
  {
    ExtendedOutcome(t, reverse);
    forall i | 0 <= i < t.height
      ensures Extended(t, reverse).value.columns[DtypeLabel][i] == None
      ensures Extended(t, reverse).value.columns[LengthLabel][i] == Transformations.LengthCell(t.columns["length"][i])
    {
      ExtendedAt(t, reverse, i);
      SnowflakeEngine.UntypedLength(t.columns["length"][i]);
    }
  }

  /**
   * With the type table of `snowflake_conf.py` standing in for the imported
   * one, a SQL Server DATETIME, DATETIME2 or SMALLDATETIME column becomes
   * TIMESTAMP_NTZ with length 9, whatever its source length.
   */
  lemma SqlServerDatetime(records: seq<InfoDdlOop.ColumnRecord>, i: nat)
    requires i < |records| && Upper(records[i].dataType) in ["DATETIME", "DATETIME2", "SMALLDATETIME"]
    ensures Extended(RecordsTable(records), ReverseMap(SnowflakeConf, "sql_server")).Success?
    ensures var o := Extended(RecordsTable(records), ReverseMap(SnowflakeConf, "sql_server")).value;
      && DtypeLabel in o.columns && LengthLabel in o.columns && i < o.height
      && o.columns[DtypeLabel][i] == Some(Str("TIMESTAMP_NTZ")) && o.columns[LengthLabel][i] == Some(Int(9))
  {
    ConfSqlServerTimestamps(Upper(records[i].dataType));
    TimestampRow(records, ReverseMap(SnowflakeConf, "sql_server"), i);
  }

  /** A row whose type the index sends to TIMESTAMP_NTZ gets length 9. */
  lemma TimestampRow(records: seq<InfoDdlOop.ColumnRecord>, reverse: map<string, string>, i: nat)
    requires i < |records| && Upper(records[i].dataType) in reverse && reverse[Upper(records[i].dataType)] == "TIMESTAMP_NTZ"
    ensures Extended(RecordsTable(records), reverse).Success?
    ensures var o := Extended(RecordsTable(records), reverse).value;
      && DtypeLabel in o.columns && LengthLabel in o.columns && i < o.height
      && o.columns[DtypeLabel][i] == Some(Str("TIMESTAMP_NTZ")) && o.columns[LengthLabel][i] == Some(Int(9))
  {
    RecordsTableShape(records);
    RecordTypesColumns(records);
    ExtendedAt(RecordsTable(records), reverse, i);
  }
}
