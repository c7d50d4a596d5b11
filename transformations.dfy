/**
 * common_trx/transformations.py: the reverse type index, the three builders
 * that add a derived column to a frame in place, and the column read
 * `get_elements`.
 *
 * Each builder checks its input in a fixed order and raises on the first
 * failed check, leaving the frame untouched.  Otherwise it assigns one new
 * column and returns the same frame object.
 */
module Transformations {

  import opened Core
  import opened Text
  import opened TypeTables
  import opened Frames

  /**
   * The labels `config.add_field_dtype`, `config.add_field_length` and
   * `config.add_field_upper` of the configuration module, which is not part
   * of this model: fixed stand-ins, distinct from every record key.
   */
  const AdditionalDtype: string := "ADDITIONAL_DTYPE"
  const AdditionalLength: string := "ADDITIONAL_LENGTH"
  const AdditionalUpper: string := "ADDITIONAL_UPPER"

  /** The three labels differ from each other and from the record keys the builders read. */
  lemma NewLabels()
    ensures AdditionalDtype != AdditionalLength && AdditionalDtype != AdditionalUpper && AdditionalLength != AdditionalUpper
    ensures forall l | l in ["datatype", "length", "column_name"] :: l !in [AdditionalDtype, AdditionalLength, AdditionalUpper]
  {
    assert AdditionalLength[11] != AdditionalUpper[11];
  }

  /** No record key is one of the three labels. */
  lemma NewLabelsAreNotRecordKeys()
    ensures forall l | l in RecordLabels :: l !in [AdditionalDtype, AdditionalLength, AdditionalUpper]
  {
  }

  // ---------------------------------------------------------------------
  // build_reverse_typemap
  // ---------------------------------------------------------------------

  /**
   * `build_reverse_typemap`: for every canonical type in table order that
   * lists `sourceSystem`, write `reverse[t.upper()] = canonical` for each of
   * its tokens `t`.
   */
  method BuildReverseTypemap(typemap: TypeMap, sourceSystem: string) returns (reverse: map<string, string>)
    ensures reverse == ReverseMap(typemap, sourceSystem)
  {
    reverse := map[];
    var i := 0;
    while i < |typemap|
      invariant i <= |typemap|
      invariant reverse == ReverseMap(typemap[..i], sourceSystem)
    {
      var targetType, systems := typemap[i].0, typemap[i].1;
      assert typemap[..i + 1][..i] == typemap[..i];
      if sourceSystem !in KeysOf(systems) {
        TokensForMissing(systems, sourceSystem);
        i := i + 1;
        continue;
      }
      var srcTypes := TokensFor(systems, sourceSystem);
      var k := 0;
      while k < |srcTypes|
        invariant k <= |srcTypes|
        invariant reverse == Assign(ReverseMap(typemap[..i], sourceSystem), srcTypes[..k], targetType)
      {
        assert srcTypes[..k + 1][..k] == srcTypes[..k];
        reverse := reverse[Upper(srcTypes[k]) := targetType];
        k := k + 1;
      }
      assert srcTypes[..k] == srcTypes;
      i := i + 1;
    }
    assert typemap[..i] == typemap;
  }

  // ---------------------------------------------------------------------
  // The cell transformations
  // ---------------------------------------------------------------------

  /** `astype(str)` of one cell; the missing value is written "None". */
  function AsStr(c: Cell): string {
    match c
    case None => "None"
    case Some(Str(s)) => s
    case Some(Int(n)) => IntToString(n)
  }

  /** `.astype(str).str.upper().map(reverse_typemap)` of one cell: missing when the key is absent. */
  function DtypeCell(c: Cell, reverse: map<string, string>): Cell {
    var k := Upper(AsStr(c));
    if k in reverse then Some(Str(reverse[k])) else None
  }

  /** `.where(notna() & (x != 0))` of one cell. */
  function LengthCell(c: Cell): Cell {
    if c.Some? && c != Some(Int(0)) then c else None
  }

  /** `.str.upper()` of one cell: a string is upper-cased, anything else is missing. */
  function UpperCell(c: Cell): Cell {
    match c
    case Some(Str(s)) => Some(Str(Upper(s)))
    case _ => None
  }

  /**
   * The mapped type column: a row is missing exactly when its upper-cased
   * text is not a key of the index, and otherwise holds one of the index's
   * canonical types.
   */
  function DtypeColumn(col: seq<Cell>, reverse: map<string, string>): (r: seq<Cell>)
    ensures |r| == |col| && forall i | 0 <= i < |col| :: r[i] == DtypeCell(col[i], reverse)
    ensures forall i | 0 <= i < |col| :: r[i].None? <==> Upper(AsStr(col[i])) !in reverse
    ensures forall i | 0 <= i < |col| :: r[i].Some? ==> r[i].value.Str? && r[i].value.s in reverse.Values
  {
    seq(|col|, i requires 0 <= i < |col| => DtypeCell(col[i], reverse))
  }

  /**
   * The cleaned length column: no row holds the integer 0, a present row is
   * the source row unchanged, and a row is missing exactly when the source
   * row is missing or 0.
   */
  function LengthColumn(col: seq<Cell>): (r: seq<Cell>)
    ensures |r| == |col| && forall i | 0 <= i < |col| :: r[i] == LengthCell(col[i])
    ensures forall i | 0 <= i < |col| :: r[i] != Some(Int(0))
    ensures forall i | 0 <= i < |col| :: r[i].Some? ==> r[i] == col[i]
    ensures forall i | 0 <= i < |col| :: r[i].None? <==> col[i].None? || col[i] == Some(Int(0))
  {
    seq(|col|, i requires 0 <= i < |col| => LengthCell(col[i]))
  }

  /**
   * The upper-cased name column: a row is present exactly when the source
   * row is text, and then it is text that upper-casing leaves unchanged.
   */
  function UpperColumn(col: seq<Cell>): (r: seq<Cell>)
    ensures |r| == |col| && forall i | 0 <= i < |col| :: r[i] == UpperCell(col[i])
    ensures forall i | 0 <= i < |col| :: r[i].Some? <==> col[i].Some? && col[i].value.Str?
    ensures forall i | 0 <= i < |col| :: r[i].Some? ==> r[i].value.Str? && Upper(r[i].value.s) == r[i].value.s
  {
    seq(|col|, i requires 0 <= i < |col| => UpperCell(col[i]))
  }

  /** `t` gained column `key` and nothing else changed. */
  ghost predicate Extends(t: Table, r: Table, key: string) {
    && WellFormed(r) && r.height == t.height && key in r.columns
    && t.labels <= r.labels && (forall l :: l in r.labels <==> l in t.labels || l == key)
    && forall l | l in t.columns && l != key :: l in r.columns && r.columns[l] == t.columns[l]
  }

  // ---------------------------------------------------------------------
  // generate_additional_dtype_cols
  // ---------------------------------------------------------------------

  /**
   * What `generate_additional_dtype_cols` does to a frame's value: ValueError
   * on an empty frame, then KeyError without a `datatype` column, then
   * ValueError on an empty index; otherwise every row gets the canonical
   * type its upper-cased `datatype` names, or a missing value.
   */
  function WithDtype(t: Table, reverse: map<string, string>): (r: Result<Table>)
    requires WellFormed(t)
    ensures r.Failure? <==> IsEmpty(t) || "datatype" !in t.labels || reverse == map[]
    ensures IsEmpty(t) ==> r == Failure(ValueError("DataFrame vuoto: impossibile generare ADDITIONAL_DTYPE"))
    ensures !IsEmpty(t) && "datatype" !in t.labels ==> r == Failure(KeyError("Colonna 'datatype' non presente nel DataFrame"))
    ensures !IsEmpty(t) && "datatype" in t.labels && reverse == map[] ==> r == Failure(ValueError("reverse_typemap non valido"))
    ensures r.Success? ==> Extends(t, r.value, AdditionalDtype)
    ensures r.Success? ==> forall i | 0 <= i < t.height ::
      var k := Upper(AsStr(t.columns["datatype"][i]));
      && (r.value.columns[AdditionalDtype][i].Some? <==> k in reverse)
      && (k in reverse ==> r.value.columns[AdditionalDtype][i] == Some(Str(reverse[k])))
  {
    if IsEmpty(t) then Failure(ValueError("DataFrame vuoto: impossibile generare ADDITIONAL_DTYPE"))
    else if "datatype" !in t.columns then Failure(KeyError("Colonna 'datatype' non presente nel DataFrame"))
    else if reverse == map[] then Failure(ValueError("reverse_typemap non valido"))
    else Success(Put(t, AdditionalDtype, DtypeColumn(t.columns["datatype"], reverse)))
  }

  /** `generate_additional_dtype_cols(df_source, reverse_typemap)`: adds the column in place and returns the same frame. */
  method GenerateAdditionalDtypeCols(dfSource: Frame, reverseTypemap: map<string, string>) returns (r: Result<Frame>)
    requires dfSource.Valid()
    modifies dfSource
    ensures dfSource.Valid()
    ensures var spec := WithDtype(old(dfSource.Snapshot()), reverseTypemap);
      && (spec.Success? ==> r == Success(dfSource) && dfSource.Snapshot() == spec.value)
      && (spec.Failure? ==> r == Failure(spec.error) && dfSource.Snapshot() == old(dfSource.Snapshot()))
  {
    if IsEmpty(dfSource.Snapshot()) {
      return Failure(ValueError("DataFrame vuoto: impossibile generare ADDITIONAL_DTYPE"));
    }
    if "datatype" !in dfSource.columns {
      return Failure(KeyError("Colonna 'datatype' non presente nel DataFrame"));
    }
    if reverseTypemap == map[] {
      return Failure(ValueError("reverse_typemap non valido"));
    }
    dfSource.Assign(AdditionalDtype, DtypeColumn(dfSource.columns["datatype"], reverseTypemap));
    r := Success(dfSource);
  }

  /**
   * Over the index of a type table, every type the new column holds is a
   * canonical type of the table that lists the row's upper-cased `datatype`
   * for the system.  A row whose type no entry lists is missing, never a
   * placeholder.
   */
  lemma DtypeIsCanonical(t: Table, tm: TypeMap, sys: string, i: nat)
    requires WellFormed(t) && WithDtype(t, ReverseMap(tm, sys)).Success? && i < t.height
    ensures var k := Upper(AsStr(t.columns["datatype"][i]));
            var c := WithDtype(t, ReverseMap(tm, sys)).value.columns[AdditionalDtype][i];
      && (c.None? <==> forall j | 0 <= j < |tm| :: k !in Keys(tm[j].1, sys))
      && (c.Some? ==> exists j | 0 <= j < |tm| :: c == Some(Str(tm[j].0)) && ListedLast(tm, sys, j, k))
  {
    var k := Upper(AsStr(t.columns["datatype"][i]));
    ReverseMapDomain(tm, sys, k);
    if k in ReverseMap(tm, sys) {
      ReverseMapValue(tm, sys, k);
    }
  }

  // ---------------------------------------------------------------------
  // generate_additional_length_cols
  // ---------------------------------------------------------------------

  /**
   * What `generate_additional_length_cols` does to a frame's value: ValueError
   * on an empty frame, then KeyError without a `length` column; otherwise
   * each row keeps its `length` when it is present and not the integer 0,
   * and is missing otherwise.
   */
  function WithLength(t: Table): (r: Result<Table>)
    requires WellFormed(t)
    ensures r.Failure? <==> IsEmpty(t) || "length" !in t.labels
    ensures IsEmpty(t) ==> r == Failure(ValueError("DataFrame vuoto: impossibile generare ADDITIONAL_LENGTH"))
    ensures !IsEmpty(t) && "length" !in t.labels ==> r == Failure(KeyError("Colonna 'length' non presente nel DataFrame"))
    ensures r.Success? ==> Extends(t, r.value, AdditionalLength)
    ensures r.Success? ==> forall i | 0 <= i < t.height ::
      var c := t.columns["length"][i];
      && (r.value.columns[AdditionalLength][i].None? <==> c.None? || c == Some(Int(0)))
      && (r.value.columns[AdditionalLength][i].Some? ==> r.value.columns[AdditionalLength][i] == c)
  {
    if IsEmpty(t) then Failure(ValueError("DataFrame vuoto: impossibile generare ADDITIONAL_LENGTH"))
    else if "length" !in t.columns then Failure(KeyError("Colonna 'length' non presente nel DataFrame"))
    else Success(Put(t, AdditionalLength, LengthColumn(t.columns["length"])))
  }

  /** `generate_additional_length_cols(df)`: adds the column in place and returns the same frame. */
  method GenerateAdditionalLengthCols(df: Frame) returns (r: Result<Frame>)
    requires df.Valid()
    modifies df
    ensures df.Valid()
    ensures var spec := WithLength(old(df.Snapshot()));
      && (spec.Success? ==> r == Success(df) && df.Snapshot() == spec.value)
      && (spec.Failure? ==> r == Failure(spec.error) && df.Snapshot() == old(df.Snapshot()))
  {
    if IsEmpty(df.Snapshot()) {
      return Failure(ValueError("DataFrame vuoto: impossibile generare ADDITIONAL_LENGTH"));
    }
    if "length" !in df.columns {
      return Failure(KeyError("Colonna 'length' non presente nel DataFrame"));
    }
    df.Assign(AdditionalLength, LengthColumn(df.columns["length"]));
    r := Success(df);
  }

  // ---------------------------------------------------------------------
  // generate_additional_upper_cols
  // ---------------------------------------------------------------------

  /**
   * What `generate_additional_upper_cols` does to a frame's value: ValueError
   * on an empty frame, then KeyError without a `column_name` column;
   * otherwise each row gets its name upper-cased.
   */
  function WithUpper(t: Table): (r: Result<Table>)
    requires WellFormed(t)
    ensures r.Failure? <==> IsEmpty(t) || "column_name" !in t.labels
    ensures IsEmpty(t) ==> r == Failure(ValueError("DataFrame vuoto: impossibile generare UPPER"))
    ensures !IsEmpty(t) && "column_name" !in t.labels ==> r == Failure(KeyError("Colonna 'column_name' non presente nel DataFrame"))
    ensures r.Success? ==> Extends(t, r.value, AdditionalUpper)
    ensures r.Success? ==> forall i | 0 <= i < t.height ::
      match t.columns["column_name"][i]
      case Some(Str(s)) => r.value.columns[AdditionalUpper][i] == Some(Str(Upper(s)))
      case _ => r.value.columns[AdditionalUpper][i].None?
  {
    if IsEmpty(t) then Failure(ValueError("DataFrame vuoto: impossibile generare UPPER"))
    else if "column_name" !in t.columns then Failure(KeyError("Colonna 'column_name' non presente nel DataFrame"))
    else Success(Put(t, AdditionalUpper, UpperColumn(t.columns["column_name"])))
  }

  /** `generate_additional_upper_cols(df)`: adds the column in place and returns the same frame. */
  method GenerateAdditionalUpperCols(df: Frame) returns (r: Result<Frame>)
    requires df.Valid()
    modifies df
    ensures df.Valid()
    ensures var spec := WithUpper(old(df.Snapshot()));
      && (spec.Success? ==> r == Success(df) && df.Snapshot() == spec.value)
      && (spec.Failure? ==> r == Failure(spec.error) && df.Snapshot() == old(df.Snapshot()))
  {
    if IsEmpty(df.Snapshot()) {
      return Failure(ValueError("DataFrame vuoto: impossibile generare UPPER"));
    }
    if "column_name" !in df.columns {
      return Failure(KeyError("Colonna 'column_name' non presente nel DataFrame"));
    }
    df.Assign(AdditionalUpper, UpperColumn(df.columns["column_name"]));
    r := Success(df);
  }

  /** The upper-cased names are already upper case: building the column again from them changes nothing. */
  lemma UpperColumnIdempotent(col: seq<Cell>)
    ensures UpperColumn(UpperColumn(col)) == UpperColumn(col)
  {
    forall i | 0 <= i < |col| ensures UpperCell(UpperCell(col[i])) == UpperCell(col[i]) {
      if col[i].Some? && col[i].value.Str? {
        UpperIdempotent(col[i].value.s);
      }
    }
  }

  // ---------------------------------------------------------------------
  // get_elements
  // ---------------------------------------------------------------------

  /** `get_elements(df, field)`: the column's cells in row order; ValueError on an empty frame or a missing column. */
  function GetElements(t: Table, field: string): (r: Result<seq<Cell>>)
    requires WellFormed(t)
    ensures r.Success? <==> !IsEmpty(t) && field in t.labels
    ensures IsEmpty(t) ==> r == Failure(ValueError("DataFrame vuoto"))
    ensures !IsEmpty(t) && field !in t.labels ==> r == Failure(ValueError("Colonna non presente nel DataFrame"))
    ensures r.Success? ==> |r.value| == t.height && forall i | 0 <= i < t.height :: r.value[i] == t.columns[field][i]
  {
    if IsEmpty(t) then Failure(ValueError("DataFrame vuoto"))
    else if field !in t.columns then Failure(ValueError("Colonna non presente nel DataFrame"))
    else Success(t.columns[field])
  }
}
