/**
 * snowflake/Snowflake_extension_engine.py: `SnowflakeExtend`, which extends
 * the DDL extractor with the Snowflake conversion.  Its constructor takes the
 * extractor's records as a frame and refuses an empty one.  It then adds the
 * Snowflake type, length and upper-cased name columns, forces the lengths
 * Snowflake fixes for TIMESTAMP_NTZ, DATE and unsized NUMBER columns, and
 * lists the column names.
 *
 * The three length overrides are shared with the older extension, which
 * writes them to different column labels.
 */
module SnowflakeEngine {

  import opened Core
  import opened Text
  import opened TypeTables
  import opened Frames
  import opened Transformations
  import InfoDdlOop

  // ---------------------------------------------------------------------
  // The deterministic length overrides
  // ---------------------------------------------------------------------

  /** The three `.loc` assignments, in the order they are written. */
  datatype Rule = TimestampRule | DateRule | NumberRule

  /** Whether a row with this Snowflake type and source length is selected by the rule. */
  predicate Selects(rule: Rule, dtype: Cell, length: Cell) {
    match rule
    case TimestampRule => dtype == Some(Str("TIMESTAMP_NTZ"))
    case DateRule => dtype == Some(Str("DATE"))
    case NumberRule => dtype == Some(Str("NUMBER")) && length == Some(Int(0))
  }

  /** The length the rule writes: 9, '' and '38,0'. */
  function Forced(rule: Rule): Cell {
    match rule
    case TimestampRule => Some(Int(9))
    case DateRule => Some(Str(""))
    case NumberRule => Some(Str("38,0"))
  }

  /** The rows of `t` the rule selects, read from its type column and its source `length`. */
  function RuleMask(t: Table, dtypeKey: string, rule: Rule): (m: seq<bool>)
    requires WellFormed(t) && dtypeKey in t.columns && "length" in t.columns
    ensures |m| == t.height
  {
    seq(t.height, i requires 0 <= i < t.height => Selects(rule, t.columns[dtypeKey][i], t.columns["length"][i]))
  }

  /** One override: `df.loc[<rule's condition>, lengthKey] = <rule's value>`. */
  function ApplyRule(t: Table, dtypeKey: string, lengthKey: string, rule: Rule): (r: Table)
    requires WellFormed(t) && dtypeKey in t.columns && "length" in t.columns
    ensures WellFormed(r) && r.height == t.height && dtypeKey in r.columns && "length" in r.columns
    ensures lengthKey in r.columns && forall l :: l in r.labels <==> l in t.labels || l == lengthKey
    ensures forall l | l in t.columns && l != lengthKey :: l in r.columns && r.columns[l] == t.columns[l]
  {
    LocSet(t, RuleMask(t, dtypeKey, rule), lengthKey, Forced(rule))
  }

  /** The three overrides, TIMESTAMP_NTZ, DATE and then NUMBER. */
  function Overrides(t: Table, dtypeKey: string, lengthKey: string): (r: Table)
    requires WellFormed(t) && dtypeKey in t.columns && "length" in t.columns
    ensures WellFormed(r) && r.height == t.height
    ensures lengthKey in r.columns && forall l :: l in r.labels <==> l in t.labels || l == lengthKey
    ensures forall l | l in t.columns && l != lengthKey :: l in r.columns && r.columns[l] == t.columns[l]
  {
    var t1 := ApplyRule(t, dtypeKey, lengthKey, TimestampRule);
    var t2 := ApplyRule(t1, dtypeKey, lengthKey, DateRule);
    ApplyRule(t2, dtypeKey, lengthKey, NumberRule)
  }

  /**
   * The Snowflake length of one row, stated on its own: 9 for TIMESTAMP_NTZ,
   * '' for DATE, '38,0' for NUMBER without a source length, and otherwise
   * the source length when it is present and not 0.
   */
  function SnowflakeLength(dtype: Cell, length: Cell): (r: Cell)
    ensures r != Some(Int(0))
    ensures r.None? ==> length.None? || length == Some(Int(0))
    ensures dtype.None? ==> r == LengthCell(length)
  {
    if dtype == Some(Str("TIMESTAMP_NTZ")) then Some(Int(9))
    else if dtype == Some(Str("DATE")) then Some(Str(""))
    else if dtype == Some(Str("NUMBER")) && length == Some(Int(0)) then Some(Str("38,0"))
    else LengthCell(length)
  }

  /** A row without a Snowflake type is selected by no rule and keeps `.where(notna & != 0)` of its length. */
  lemma UntypedLength(length: Cell)
    ensures SnowflakeLength(None, length) == LengthCell(length)
    ensures forall rule :: !Selects(rule, None, length)
  {
  }

  /** No row is selected by two rules: the types they test differ. */
  lemma RulesDisjoint(r1: Rule, r2: Rule, dtype: Cell, length: Cell)
    requires Selects(r1, dtype, length) && Selects(r2, dtype, length)
    ensures r1 == r2
  {
  }

  /**
   * One override leaves the type and source-length columns alone, sets the
   * rows it selects and keeps every other cell.
   */
  lemma ApplyRuleCells(t: Table, dtypeKey: string, lengthKey: string, rule: Rule)
    requires WellFormed(t) && dtypeKey in t.columns && "length" in t.columns
    requires lengthKey != dtypeKey && lengthKey != "length"
    ensures var r := ApplyRule(t, dtypeKey, lengthKey, rule);
      && r.labels == (if lengthKey in t.labels then t.labels else t.labels + [lengthKey])
      && (forall l | l in t.columns && l != lengthKey :: r.columns[l] == t.columns[l])
      && (forall i | 0 <= i < t.height ::
            r.columns[lengthKey][i] ==
              if Selects(rule, t.columns[dtypeKey][i], t.columns["length"][i]) then Forced(rule)
              else if lengthKey in t.columns then t.columns[lengthKey][i] else None)
  {
    LocSetCells(t, RuleMask(t, dtypeKey, rule), lengthKey, Forced(rule));
  }

  /** An override leaves the columns the rules read alone, so every rule selects the same rows after it. */
  lemma RuleMaskKept(t: Table, dtypeKey: string, lengthKey: string, r1: Rule, r2: Rule)
    requires WellFormed(t) && dtypeKey in t.columns && "length" in t.columns
    requires lengthKey != dtypeKey && lengthKey != "length"
    ensures RuleMask(ApplyRule(t, dtypeKey, lengthKey, r1), dtypeKey, r2) == RuleMask(t, dtypeKey, r2)
  {
    ApplyRuleCells(t, dtypeKey, lengthKey, r1);
  }

  /**
   * Any two overrides give the same frame in either order, so the three may
   * run in any order.
   */
  lemma RulesCommute(t: Table, dtypeKey: string, lengthKey: string, r1: Rule, r2: Rule)
    requires WellFormed(t) && dtypeKey in t.columns && "length" in t.columns
    requires lengthKey != dtypeKey && lengthKey != "length"
    ensures ApplyRule(ApplyRule(t, dtypeKey, lengthKey, r1), dtypeKey, lengthKey, r2)
         == ApplyRule(ApplyRule(t, dtypeKey, lengthKey, r2), dtypeKey, lengthKey, r1)
  {
    if r1 != r2 {
      var m1, m2 := RuleMask(t, dtypeKey, r1), RuleMask(t, dtypeKey, r2);
      RuleMaskKept(t, dtypeKey, lengthKey, r1, r2);
      RuleMaskKept(t, dtypeKey, lengthKey, r2, r1);
      LocSetTwice(t, m1, Forced(r1), m2, Forced(r2), lengthKey);
      LocSetTwice(t, m2, Forced(r2), m1, Forced(r1), lengthKey);
      forall i | 0 <= i < t.height ensures !(m1[i] && m2[i]) {
        var d, n := t.columns[dtypeKey][i], t.columns["length"][i];
        assert m1[i] == Selects(r1, d, n) && m2[i] == Selects(r2, d, n);
        if Selects(r1, d, n) && Selects(r2, d, n) {
          RulesDisjoint(r1, r2, d, n);
        }
      }
      OverwriteCommute(Base(t, lengthKey), m1, Forced(r1), m2, Forced(r2));
    }
  }

  /**
   * After the overrides, each row's length is the `SnowflakeLength` of its
   * type and source length, when the column held `.where(notna & != 0)` of
   * the source length before.
   */
  lemma OverridesCells(t: Table, dtypeKey: string, lengthKey: string)
    requires WellFormed(t) && dtypeKey in t.columns && "length" in t.columns && lengthKey in t.columns
    requires lengthKey != dtypeKey && lengthKey != "length"
    requires forall i | 0 <= i < t.height :: t.columns[lengthKey][i] == LengthCell(t.columns["length"][i])
    ensures var r := Overrides(t, dtypeKey, lengthKey);
      && r.labels == t.labels
      && (forall l | l in t.columns && l != lengthKey :: r.columns[l] == t.columns[l])
      && (forall i | 0 <= i < t.height ::
            r.columns[lengthKey][i] == SnowflakeLength(t.columns[dtypeKey][i], t.columns["length"][i]))
  {
    var t1 := ApplyRule(t, dtypeKey, lengthKey, TimestampRule);
    var t2 := ApplyRule(t1, dtypeKey, lengthKey, DateRule);
    ApplyRuleCells(t, dtypeKey, lengthKey, TimestampRule);
    ApplyRuleCells(t1, dtypeKey, lengthKey, DateRule);
    ApplyRuleCells(t2, dtypeKey, lengthKey, NumberRule);
  }

  /** The overrides, in place on the frame. */
  method ApplyOverrides(df: Frame, dtypeKey: string, lengthKey: string)
    requires df.Valid() && dtypeKey in df.columns && "length" in df.columns
    modifies df
    ensures df.Valid() && df.Snapshot() == Overrides(old(df.Snapshot()), dtypeKey, lengthKey)
  {
    df.LocAssign(RuleMask(df.Snapshot(), dtypeKey, TimestampRule), lengthKey, Forced(TimestampRule));
    df.LocAssign(RuleMask(df.Snapshot(), dtypeKey, DateRule), lengthKey, Forced(DateRule));
    df.LocAssign(RuleMask(df.Snapshot(), dtypeKey, NumberRule), lengthKey, Forced(NumberRule));
  }

  // ---------------------------------------------------------------------
  // The column-name list
  // ---------------------------------------------------------------------

  predicate IsText(c: Cell) {
    c.Some? && c.value.Str?
  }

  /** The error `x.upper()` raises on a cell that is not a string. */
  function NoUpper(c: Cell): Error {
    if c.None? then AttributeError("'NoneType' object has no attribute 'upper'")
    else AttributeError("'int' object has no attribute 'upper'")
  }

  /**
   * `[x.upper() for x in cells]`: every name upper-cased in order, or the
   * error of the first cell that is not a string.
   */
  function UpperNames(cells: seq<Cell>): (r: Result<seq<string>>)
    ensures r.Success? <==> forall i | 0 <= i < |cells| :: IsText(cells[i])
    ensures r.Success? ==> |r.value| == |cells| && forall i | 0 <= i < |cells| :: r.value[i] == Upper(cells[i].value.s)
    ensures r.Failure? ==> exists j | 0 <= j < |cells| ::
      && !IsText(cells[j]) && (forall k | 0 <= k < j :: IsText(cells[k])) && r.error == NoUpper(cells[j])
  {
    if cells == [] then Success([])
    else if !IsText(cells[0]) then Failure(NoUpper(cells[0]))
    else
      var rest := UpperNames(cells[1..]);
      if rest.Failure? then
        assert forall k | 1 <= k < |cells| :: cells[k] == cells[1..][k - 1];
        Failure(rest.error)
      else
        Success([Upper(cells[0].value.s)] + rest.value)
  }

  // ---------------------------------------------------------------------
  // The conversion
  // ---------------------------------------------------------------------

  /**
   * The fields the constructor computes after the frame: the converted
   * frame, `snowfieldlist`, `snowfieldlist_upper` and `snowfields`.
   */
  datatype Conversion = Conversion(frame: Table, fieldList: seq<Cell>, fieldListUpper: seq<string>, fields: string)

  const EmptySource: Error := ValueError("DataFrame vuoto: impossibile inizializzare SnowflakeExtend")
  const EmptyConverted: Error := ValueError("DataFrame dataframe_snw: impossibile proseguire con le trasformazioni Snowflake")

  /**
   * What the constructor does to the source frame up to the overrides, given
   * the index: the emptiness check, the dtype and length columns, the check
   * on the result, the upper column and the three overrides.  The first
   * failed step's error ends it.
   */
  function Converted(t: Table, reverse: map<string, string>): (r: Result<Table>)
    requires WellFormed(t)
    ensures r.Success? ==> WellFormed(r.value) && r.value.height == t.height
    ensures IsEmpty(t) ==> r == Failure(EmptySource)
    ensures reverse == map[] ==> r.Failure?
  {
    if IsEmpty(t) then Failure(EmptySource)
    else
      var d := WithDtype(t, reverse);
      if d.Failure? then Failure(d.error)
      else
        var l := WithLength(d.value);
        if l.Failure? || IsEmpty(l.value) then Failure(if l.Failure? then l.error else EmptyConverted)
        else
          var u := WithUpper(l.value);
          if u.Failure? then Failure(u.error)
          else Success(Overrides(u.value, AdditionalDtype, AdditionalLength))
  }

  /** The name lists of the converted frame: `get_elements` of `column_name`, upper-cased and joined. */
  function Listed(o: Table): (r: Result<Conversion>)
    requires WellFormed(o)
    ensures r.Success? ==> r.value.frame == o && |r.value.fieldList| == |r.value.fieldListUpper| == o.height
    ensures r.Success? ==> "column_name" in o.labels
  {
    var names := GetElements(o, "column_name");
    if names.Failure? then Failure(names.error)
    else
      var upper := UpperNames(names.value);
      if upper.Failure? then Failure(upper.error)
      else Success(Conversion(o, names.value, upper.value, Join(upper.value, ',')))
  }

  /** The whole conversion for `source_db`, over the index of `SNOWFLAKE_TYPE_MAP`. */
  function Convert(t: Table, sourceDb: string): (r: Result<Conversion>)
    requires WellFormed(t)
    ensures r.Success? ==> WellFormed(r.value.frame) && r.value.frame.height == t.height
    ensures IsEmpty(t) ==> r == Failure(EmptySource)
  {
    var o := Converted(t, ReverseMap(SnowflakeConf, sourceDb));
    if o.Failure? then Failure(o.error) else Listed(o.value)
  }

  /**
   * The constructor's steps from `self.dataframe_from_source` on, in place
   * on that one frame: `conv_df` and `dataframe_snw` are the same object.
   */
  method ConvertFrame(df: Frame, sourceDb: string) returns (r: Result<Conversion>)
    requires df.Valid()
    modifies df
    ensures df.Valid()
    ensures r == Convert(old(df.Snapshot()), sourceDb)
    ensures r.Success? ==> df.Snapshot() == r.value.frame
  {
    if IsEmpty(df.Snapshot()) {
      return Failure(EmptySource);
    }
    var reverseTypemap := BuildReverseTypemap(SnowflakeConf, sourceDb);
    var convDf := GenerateAdditionalDtypeCols(df, reverseTypemap);
    if convDf.Failure? {
      return Failure(convDf.error);
    }
    var snw := GenerateAdditionalLengthCols(convDf.value);
    if snw.Failure? || IsEmpty(df.Snapshot()) {
      return Failure(if snw.Failure? then snw.error else EmptyConverted);
    }
    snw := GenerateAdditionalUpperCols(snw.value);
    if snw.Failure? {
      return Failure(snw.error);
    }
    ApplyOverrides(df, AdditionalDtype, AdditionalLength);
    ListedCells(df.Snapshot());
    r := Listed(df.Snapshot());
  }

  // ---------------------------------------------------------------------
  // SnowflakeExtend
  // ---------------------------------------------------------------------

  /**
   * `SnowflakeExtend`: the parsed statement (the `DDLInfo` it extends) and
   * the fields its constructor sets.  The three frame fields name one object.
   */
  class SnowflakeExtend {
    const info: InfoDdlOop.DDLInfo
    var dataframeFromSource: Frame
    var configConversionDict: TypeMap
    var convDf: Frame
    var dataframeSnw: Frame
    var snowfieldlist: seq<Cell>
    var snowfieldlistUpper: seq<string>
    var snowfields: string

    /**
     * The fields hold the conversion `c`: the three frame fields name one
     * frame whose value is `c.frame`, and the name lists are `c`'s.
     */
    ghost predicate Holds(c: Conversion)
      reads this, dataframeSnw
    {
      && dataframeFromSource == dataframeSnw && convDf == dataframeSnw
      && dataframeSnw.Valid() && dataframeSnw.Snapshot() == c.frame
      && configConversionDict == SnowflakeConf
      && snowfieldlist == c.fieldList && snowfieldlistUpper == c.fieldListUpper && snowfields == c.fields
    }

    constructor (info: InfoDdlOop.DDLInfo, df: Frame, c: Conversion)
      requires df.Valid() && df.Snapshot() == c.frame
      ensures this.info == info && dataframeSnw == df && Holds(c)
    {
      this.info := info;
      dataframeFromSource, configConversionDict := df, SnowflakeConf;
      convDf, dataframeSnw := df, df;
      snowfieldlist, snowfieldlistUpper, snowfields := c.fieldList, c.fieldListUpper, c.fields;
    }
  }

  /** The conversion of the records `DDLInfo(ddl).to_dataframe()` holds. */
  ghost function Extension(ddl: string, sourceDb: string): Result<Conversion> {
    Convert(RecordsTable(InfoDdlOop.StatementRecords(ddl)), sourceDb)
  }

  /** The frame `info.to_dataframe()` builds from the object's attributes. */
  ghost function SourceTable(info: InfoDdlOop.DDLInfo): Table
    reads info
  {
    RecordsTable(InfoDdlOop.RecordsOf(info.columnDefs, info.dbSchemaTable, info.primaryKeys, info.foreignKeys))
  }

  /** Of an object `__init__` built, the attributes give the records of its statement. */
  lemma SourceOfValid(info: InfoDdlOop.DDLInfo)
    requires info.Valid()
    ensures SourceTable(info) == RecordsTable(InfoDdlOop.StatementRecords(info.ddl))
  {
  }

  /**
   * `SnowflakeExtend(ddl, source_db)`: parses the statement, takes its records
   * as a frame and converts it, or gives the error the constructor raises.
   */
  method Create(ddl: string, sourceDb: string) returns (r: Result<SnowflakeExtend>)
    ensures r.Success? <==> Extension(ddl, sourceDb).Success?
    ensures r.Failure? ==> r.error == Extension(ddl, sourceDb).error
    ensures r.Success? ==>
      && fresh(r.value) && fresh(r.value.dataframeSnw)
      && r.value.info.ddl == ddl && r.value.info.Valid()
      && r.value.Holds(Extension(ddl, sourceDb).value)
  {
    var info := new InfoDdlOop.DDLInfo(ddl);
    SourceOfValid(info);
    r := Extend(info, sourceDb);
  }

  /** The constructor's body once `DDLInfo.__init__` has set the attributes. */
  method Extend(info: InfoDdlOop.DDLInfo, sourceDb: string) returns (r: Result<SnowflakeExtend>)
    ensures r.Success? <==> Convert(SourceTable(info), sourceDb).Success?
    ensures r.Failure? ==> r.error == Convert(SourceTable(info), sourceDb).error
    ensures r.Success? ==>
      && fresh(r.value) && fresh(r.value.dataframeSnw) && r.value.info == info
      && r.value.Holds(Convert(SourceTable(info), sourceDb).value)
  {
    var df := Frames.ToDataframe(info);
    var c := ConvertFrame(df, sourceDb);
    if c.Failure? {
      return Failure(c.error);
    }
    var e := new SnowflakeExtend(info, df, c.value);
    r := Success(e);
  }

  // ---------------------------------------------------------------------
  // What the conversion gives
  // ---------------------------------------------------------------------

  /** The frame with the three new columns, before the overrides. */
  function Prepared(t: Table, reverse: map<string, string>): (r: Table)
    requires WellFormed(t) && "datatype" in t.columns && "length" in t.columns && "column_name" in t.columns
    ensures WellFormed(r)
  {
    var d := Put(t, AdditionalDtype, DtypeColumn(t.columns["datatype"], reverse));
    var l := Put(d, AdditionalLength, LengthColumn(t.columns["length"]));
    Put(l, AdditionalUpper, UpperColumn(t.columns["column_name"]))
  }

  /**
   * The conversion succeeds exactly when the frame is non-empty, has
   * `datatype`, `length` and `column_name`, and the index is non-empty; it
   * then overrides the frame with the three new columns.
   */
  lemma ConvertedIsPrepared(t: Table, reverse: map<string, string>)
    requires WellFormed(t)
    ensures Converted(t, reverse).Success? <==>
      !IsEmpty(t) && "datatype" in t.labels && "length" in t.labels && "column_name" in t.labels && reverse != map[]
    ensures Converted(t, reverse).Success? ==>
      Converted(t, reverse).value == Overrides(Prepared(t, reverse), AdditionalDtype, AdditionalLength)
  {
    ConvertedOutcome(t, reverse);
    if Converted(t, reverse).Success? {
      ConvertedValue(t, reverse);
    }
  }

  /** The conversion's outcome, step by step. */
  lemma ConvertedOutcome(t: Table, reverse: map<string, string>)
    requires WellFormed(t)
    ensures Converted(t, reverse).Success? <==>
      !IsEmpty(t) && "datatype" in t.labels && "length" in t.labels && "column_name" in t.labels && reverse != map[]
  {
    if WithDtype(t, reverse).Success? {
      LengthStep(t, WithDtype(t, reverse).value, AdditionalDtype);
    }
  }

  /** After one new column, `generate_additional_length_cols` sees the same labels and a non-empty frame. */
  lemma LengthStep(t: Table, d: Table, key: string)
    requires WellFormed(t) && !IsEmpty(t) && Extends(t, d, key) && key != "length" && key != "column_name"
    ensures var l := WithLength(d);
      && (l.Success? <==> "length" in t.labels)
      && (l.Success? ==> !IsEmpty(l.value) && ("column_name" in l.value.labels <==> "column_name" in t.labels))
  {
    var l := WithLength(d);
    if l.Success? {
      assert key in l.value.labels;
    }
  }

  /** A successful conversion's frame, step by step. */
  lemma ConvertedValue(t: Table, reverse: map<string, string>)
    requires WellFormed(t) && Converted(t, reverse).Success?
    requires "datatype" in t.columns && "length" in t.columns && "column_name" in t.columns
    ensures Converted(t, reverse).value == Overrides(Prepared(t, reverse), AdditionalDtype, AdditionalLength)
  {
    var d := WithDtype(t, reverse);
    assert d.value == Put(t, AdditionalDtype, DtypeColumn(t.columns["datatype"], reverse));
    var l := WithLength(d.value);
    assert l.value == Put(d.value, AdditionalLength, LengthColumn(t.columns["length"]));
    var u := WithUpper(l.value);
    assert l.value.columns["column_name"] == t.columns["column_name"];
    assert u.value == Prepared(t, reverse);
  }

  /** The three new columns; every other column is kept, and new labels go last. */
  lemma PreparedCells(t: Table, reverse: map<string, string>)
    requires WellFormed(t) && "datatype" in t.columns && "length" in t.columns && "column_name" in t.columns
    ensures var p := Prepared(t, reverse);
      && p.height == t.height
      && (forall l :: l in p.labels <==> l in t.labels || l in [AdditionalDtype, AdditionalLength, AdditionalUpper])
      && (forall l | l in t.columns && l !in [AdditionalDtype, AdditionalLength, AdditionalUpper] :: p.columns[l] == t.columns[l])
      && p.columns[AdditionalDtype] == DtypeColumn(t.columns["datatype"], reverse)
      && p.columns[AdditionalLength] == LengthColumn(t.columns["length"])
      && p.columns[AdditionalUpper] == UpperColumn(t.columns["column_name"])
  {
  }

  /** Labels the frame lacks are appended in the order the columns are made. */
  lemma PreparedLabels(t: Table, reverse: map<string, string>)
    requires WellFormed(t) && "datatype" in t.columns && "length" in t.columns && "column_name" in t.columns
    requires AdditionalDtype !in t.labels && AdditionalLength !in t.labels && AdditionalUpper !in t.labels
    ensures Prepared(t, reverse).labels == t.labels + [AdditionalDtype, AdditionalLength, AdditionalUpper]
  {
    NewLabels();
    PutThreeAppends(t, AdditionalDtype, DtypeColumn(t.columns["datatype"], reverse),
                    AdditionalLength, LengthColumn(t.columns["length"]),
                    AdditionalUpper, UpperColumn(t.columns["column_name"]));
  }

  /**
   * A successful conversion had a non-empty frame with `datatype`, `length`
   * and `column_name` and a non-empty index.  It adds the three columns,
   * keeps every other column, and gives each row its Snowflake type, its
   * `SnowflakeLength` and its upper-cased name.
   */
  lemma ConvertedCells(t: Table, reverse: map<string, string>)
    requires WellFormed(t) && Converted(t, reverse).Success?
    ensures var o := Converted(t, reverse).value;
      && !IsEmpty(t) && reverse != map[]
      && "datatype" in t.labels && "length" in t.labels && "column_name" in t.labels
      && o.height == t.height
      && (forall l :: l in o.labels <==> l in t.labels || l in [AdditionalDtype, AdditionalLength, AdditionalUpper])
      && (forall l | l in t.columns && l !in [AdditionalDtype, AdditionalLength, AdditionalUpper] :: o.columns[l] == t.columns[l])
      && (forall i | 0 <= i < t.height ::
            var dtype := DtypeCell(t.columns["datatype"][i], reverse);
            && o.columns[AdditionalDtype][i] == dtype
            && o.columns[AdditionalLength][i] == SnowflakeLength(dtype, t.columns["length"][i])
            && o.columns[AdditionalUpper][i] == UpperCell(t.columns["column_name"][i]))
  {
    ConvertedIsPrepared(t, reverse);
    OverriddenCells(t, reverse);
  }

  /** `ConvertedCells` for the overridden frame itself. */
  lemma OverriddenCells(t: Table, reverse: map<string, string>)
    requires WellFormed(t) && "datatype" in t.columns && "length" in t.columns && "column_name" in t.columns
    ensures var o := Overrides(Prepared(t, reverse), AdditionalDtype, AdditionalLength);
      && o.height == t.height
      && (forall l :: l in o.labels <==> l in t.labels || l in [AdditionalDtype, AdditionalLength, AdditionalUpper])
      && (forall l | l in t.columns && l !in [AdditionalDtype, AdditionalLength, AdditionalUpper] :: o.columns[l] == t.columns[l])
      && (forall i | 0 <= i < t.height ::
            var dtype := DtypeCell(t.columns["datatype"][i], reverse);
            && o.columns[AdditionalDtype][i] == dtype
            && o.columns[AdditionalLength][i] == SnowflakeLength(dtype, t.columns["length"][i])
            && o.columns[AdditionalUpper][i] == UpperCell(t.columns["column_name"][i]))
  {
    NewLabels();
    PreparedCells(t, reverse);
    var p := Prepared(t, reverse);
    assert p.columns["datatype"] == t.columns["datatype"] && p.columns["length"] == t.columns["length"];
    assert forall i | 0 <= i < p.height :: p.columns[AdditionalLength][i] == LengthCell(p.columns["length"][i]);
    OverridesCells(p, AdditionalDtype, AdditionalLength);
    var o := Overrides(p, AdditionalDtype, AdditionalLength);
    forall l | l in t.columns && l !in [AdditionalDtype, AdditionalLength, AdditionalUpper]
      ensures o.columns[l] == t.columns[l]
    {
      assert o.columns[l] == p.columns[l];
    }
    forall i | 0 <= i < t.height
      ensures o.columns[AdditionalDtype][i] == DtypeCell(t.columns["datatype"][i], reverse)
      ensures o.columns[AdditionalLength][i] == SnowflakeLength(DtypeCell(t.columns["datatype"][i], reverse), t.columns["length"][i])
      ensures o.columns[AdditionalUpper][i] == UpperCell(t.columns["column_name"][i])
    {
      assert o.columns[AdditionalDtype] == p.columns[AdditionalDtype];
      assert o.columns[AdditionalUpper] == p.columns[AdditionalUpper];
    }
  }

  /**
   * Over the records of a statement: no records gives the constructor's
   * ValueError, an empty index gives `reverse_typemap non valido`, and
   * otherwise the frame converts.
   */
  lemma ConvertedRecords(records: seq<InfoDdlOop.ColumnRecord>, reverse: map<string, string>)
    ensures var r := Converted(RecordsTable(records), reverse);
      && (r.Success? <==> records != [] && reverse != map[])
      && (records == [] ==> r == Failure(EmptySource))
      && (records != [] && reverse == map[] ==> r == Failure(ValueError("reverse_typemap non valido")))
  {
    RecordsTableShape(records);
    ConvertedIsPrepared(RecordsTable(records), reverse);
  }

  /** A converted frame that lacked the three labels has them last, in the order they were assigned. */
  lemma ConvertedLabels(t: Table, reverse: map<string, string>)
    requires WellFormed(t) && Converted(t, reverse).Success?
    requires AdditionalDtype !in t.labels && AdditionalLength !in t.labels && AdditionalUpper !in t.labels
    ensures Converted(t, reverse).value.labels == t.labels + [AdditionalDtype, AdditionalLength, AdditionalUpper]
  {
    ConvertedIsPrepared(t, reverse);
    PreparedLabels(t, reverse);
    PreparedCells(t, reverse);
    var p := Prepared(t, reverse);
    assert forall i | 0 <= i < p.height :: p.columns[AdditionalLength][i] == LengthCell(p.columns["length"][i]) by {
      NewLabels();
    }
    OverridesCells(p, AdditionalDtype, AdditionalLength);
  }

  /** The records' converted frame has the record keys, then the three new labels. */
  lemma ConvertedRecordLabels(records: seq<InfoDdlOop.ColumnRecord>, reverse: map<string, string>)
    requires records != [] && reverse != map[]
    ensures Converted(RecordsTable(records), reverse).Success?
    ensures Converted(RecordsTable(records), reverse).value.labels == RecordLabels + [AdditionalDtype, AdditionalLength, AdditionalUpper]
  {
    RecordsTableShape(records);
    ConvertedRecords(records, reverse);
    NewLabelsAreNotRecordKeys();
    ConvertedLabels(RecordsTable(records), reverse);
  }

  /**
   * The name lists succeed exactly when the frame is non-empty and every
   * `column_name` is a string; they are that column and its upper-cased
   * strings, joined by commas.
   */
  lemma ListedCells(o: Table)
    requires WellFormed(o)
    ensures Listed(o).Success? <==>
      !IsEmpty(o) && "column_name" in o.labels && forall i | 0 <= i < o.height :: IsText(o.columns["column_name"][i])
    ensures Listed(o).Success? ==>
      var c := Listed(o).value;
      && c.frame == o
      && c.fieldList == o.columns["column_name"]
      && |c.fieldListUpper| == o.height
      && (forall i | 0 <= i < o.height :: c.fieldListUpper[i] == Upper(o.columns["column_name"][i].value.s))
      && c.fields == Join(c.fieldListUpper, ',')
  {
  }

  /**
   * Over the records of a statement, the whole conversion fails as the frame
   * conversion does: no records, or an empty index.
   */
  lemma ConvertRecords(records: seq<InfoDdlOop.ColumnRecord>, sourceDb: string)
    ensures var r := Convert(RecordsTable(records), sourceDb);
      && (r.Success? <==> records != [] && ReverseMap(SnowflakeConf, sourceDb) != map[])
      && (records == [] ==> r == Failure(EmptySource))
      && (records != [] && ReverseMap(SnowflakeConf, sourceDb) == map[] ==> r == Failure(ValueError("reverse_typemap non valido")))
  {
    var t := RecordsTable(records);
    var reverse := ReverseMap(SnowflakeConf, sourceDb);
    ConvertedRecords(records, reverse);
    if records != [] && reverse != map[] {
      RecordColumnNames(records, sourceDb);
    }
  }

  /**
   * Over the records of a statement with columns and a non-empty index, the
   * conversion keeps one row per record, the record keys and then the three
   * new labels, and lists the records' column names and their upper-cased
   * forms.
   */
  lemma RecordColumnNames(records: seq<InfoDdlOop.ColumnRecord>, sourceDb: string)
    requires records != [] && ReverseMap(SnowflakeConf, sourceDb) != map[]
    ensures Convert(RecordsTable(records), sourceDb).Success?
    ensures var c := Convert(RecordsTable(records), sourceDb).value;
      && c.frame.labels == RecordLabels + [AdditionalDtype, AdditionalLength, AdditionalUpper]
      && c.frame.height == |records|
      && |c.fieldList| == |records| && |c.fieldListUpper| == |records|
      && forall i | 0 <= i < |records| ::
           && c.fieldList[i] == Some(Str(records[i].columnName))
           && c.fieldListUpper[i] == Upper(records[i].columnName)
  {
    RecordNames(records, ReverseMap(SnowflakeConf, sourceDb));
  }

  /** `RecordColumnNames` for any non-empty index. */
  lemma RecordNames(records: seq<InfoDdlOop.ColumnRecord>, reverse: map<string, string>)
    requires records != [] && reverse != map[]
    ensures Converted(RecordsTable(records), reverse).Success?
    ensures Listed(Converted(RecordsTable(records), reverse).value).Success?
    ensures var c := Listed(Converted(RecordsTable(records), reverse).value).value;
      && c.frame.labels == RecordLabels + [AdditionalDtype, AdditionalLength, AdditionalUpper]
      && c.frame.height == |records|
      && |c.fieldList| == |records| && |c.fieldListUpper| == |records|
      && forall i | 0 <= i < |records| ::
           && c.fieldList[i] == Some(Str(records[i].columnName))
           && c.fieldListUpper[i] == Upper(records[i].columnName)
  {
    ConvertedNameColumn(records, reverse);
    var o := Converted(RecordsTable(records), reverse).value;
    ConvertedRecordLabels(records, reverse);
    ListedNames(o, records);
  }

  /** The records' converted frame keeps their `column_name` column. */
  lemma ConvertedNameColumn(records: seq<InfoDdlOop.ColumnRecord>, reverse: map<string, string>)
    requires records != [] && reverse != map[]
    ensures Converted(RecordsTable(records), reverse).Success?
    ensures var o := Converted(RecordsTable(records), reverse).value;
      && o.height == |records| && "column_name" in o.columns
      && forall i | 0 <= i < |records| :: o.columns["column_name"][i] == Some(Str(records[i].columnName))
  {
    var t := RecordsTable(records);
    RecordNamesColumn(records);
    ConvertedRecords(records, reverse);
    ConvertedCells(t, reverse);
    NewLabels();
    assert Converted(t, reverse).value.columns["column_name"] == t.columns["column_name"];
  }

  /** The name lists of a frame whose `column_name` column holds the records' names. */
  lemma ListedNames(o: Table, records: seq<InfoDdlOop.ColumnRecord>)
    requires WellFormed(o) && o.labels != [] && o.height == |records| > 0 && "column_name" in o.columns
    requires forall i | 0 <= i < |records| :: o.columns["column_name"][i] == Some(Str(records[i].columnName))
    ensures Listed(o).Success?
    ensures var c := Listed(o).value;
      && c.frame == o
      && |c.fieldList| == |records| && |c.fieldListUpper| == |records|
      && forall i | 0 <= i < |records| ::
           && c.fieldList[i] == Some(Str(records[i].columnName))
           && c.fieldListUpper[i] == Upper(records[i].columnName)
  {
    ListedCells(o);
  }

  /** `.upper()` leaves the comma alone and makes no new one. */
  lemma UpperKeepsComma(s: string)
    ensures ',' in Upper(s) <==> ',' in s
  {
    if ',' in Upper(s) {
      var j :| 0 <= j < |s| && Upper(s)[j] == ',';
      assert !IsLetter(UpperChar(s[j]));
    }
    if ',' in s {
      var j :| 0 <= j < |s| && s[j] == ',';
      assert Upper(s)[j] == ',';
    }
  }

  /**
   * `snowfields.split(',')` gives back `snowfieldlist_upper` when no column
   * name holds a comma.
   */
  lemma FieldsSplit(o: Table)
    requires WellFormed(o) && Listed(o).Success?
    requires forall i | 0 <= i < |Listed(o).value.fieldList| :: ',' !in AsStr(Listed(o).value.fieldList[i])
    ensures Split(Listed(o).value.fields, ',') == Listed(o).value.fieldListUpper
  {
    var c := Listed(o).value;
    ListedCells(o);
    forall i | 0 <= i < |c.fieldListUpper| ensures ',' !in c.fieldListUpper[i] {
      UpperKeepsComma(c.fieldList[i].value.s);
    }
    SplitJoin(c.fieldListUpper, ',');
  }

  /** Every system `AVAL_MAP_SNOW` offers has a non-empty index, so a statement with columns converts. */
  lemma AcceptedSystemConverts(records: seq<InfoDdlOop.ColumnRecord>, sourceDb: string)
    requires records != [] && sourceDb in AvalMapSnow[0].1
    ensures Convert(RecordsTable(records), sourceDb).Success?
  {
    AvalSystemsListed(sourceDb);
    var i :| 0 <= i < |SnowflakeConf| && sourceDb in KeysOf(SnowflakeConf[i].1) && TokensFor(SnowflakeConf[i].1, sourceDb) != [];
    var k := Upper(TokensFor(SnowflakeConf[i].1, sourceDb)[0]);
    assert k in Keys(SnowflakeConf[i].1, sourceDb);
    ReverseMapDomain(SnowflakeConf, sourceDb, k);
    ConvertRecords(records, sourceDb);
  }

  /** A system no entry lists gives an empty index, and the conversion stops with its ValueError. */
  lemma UnknownSystemRejected(records: seq<InfoDdlOop.ColumnRecord>, sourceDb: string)
    requires records != []
    requires forall i | 0 <= i < |SnowflakeConf| :: sourceDb !in KeysOf(SnowflakeConf[i].1)
    ensures Convert(RecordsTable(records), sourceDb) == Failure(ValueError("reverse_typemap non valido"))
  {
    UnknownSystem(SnowflakeConf, sourceDb);
    ConvertRecords(records, sourceDb);
  }
}
