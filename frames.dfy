/**
 * The part of a pandas DataFrame the pipeline relies on.  A frame has named
 * columns of equal length, and each cell is an optional scalar (`None` stands
 * for pandas' missing value).  The pipeline uses three operations on it:
 * column assignment `df[key] = col`, masked assignment
 * `df.loc[mask, key] = v`, and `DDLInfo.to_dataframe`.
 *
 * `Table` is the value of a frame.  `Frame` is the mutable object the
 * pipeline passes around and changes in place.
 */
module Frames {

  import opened Core
  import InfoDdlOop

  /** Column labels in order, the row count, and each label's cells. */
  datatype Table = Table(labels: seq<string>, height: nat, columns: map<string, seq<Cell>>)

  /** No label occurs twice. */
  predicate Distinct(xs: seq<string>) {
    xs == [] || (xs[|xs| - 1] !in xs[..|xs| - 1] && Distinct(xs[..|xs| - 1]))
  }

  /** Labels are unique, they are exactly the columns, and every column has one cell per row. */
  ghost predicate WellFormed(t: Table) {
    && Distinct(t.labels)
    && (forall l :: l in t.columns <==> l in t.labels)
    && (forall l | l in t.columns :: |t.columns[l]| == t.height)
  }

  /** `df.empty`: no rows or no columns. */
  predicate IsEmpty(t: Table) {
    t.height == 0 || t.labels == []
  }

  /** `df[key]`: the column, or `KeyError(key)`. */
  function Get(t: Table, key: string): (r: Result<seq<Cell>>)
    requires WellFormed(t)
    ensures r.Success? <==> key in t.labels
    ensures r.Success? ==> |r.value| == t.height
    ensures r.Failure? ==> r.error == KeyError(key)
  {
    if key in t.columns then Success(t.columns[key]) else Failure(KeyError(key))
  }

  /**
   * `df[key] = col`: an existing column is replaced where it stands, a new
   * label is appended after the others.
   */
  function Put(t: Table, key: string, col: seq<Cell>): (r: Table)
    requires WellFormed(t) && |col| == t.height
    ensures WellFormed(r) && r.height == t.height
    ensures key in r.columns && r.columns[key] == col
    ensures forall l | l in t.columns && l != key :: l in r.columns && r.columns[l] == t.columns[l]
    ensures t.labels <= r.labels && forall l :: l in r.labels <==> l in t.labels || l == key
  {
    if key in t.labels then Table(t.labels, t.height, t.columns[key := col])
    else
      assert (t.labels + [key])[..|t.labels|] == t.labels;
      Table(t.labels + [key], t.height, t.columns[key := col])
  }

  /** A new label goes after the others. */
  lemma PutAppends(t: Table, key: string, col: seq<Cell>)
    requires WellFormed(t) && |col| == t.height && key !in t.labels
    ensures Put(t, key, col).labels == t.labels + [key]
  {
  }

  /** Two new labels go after the others, in the order they are assigned. */
  lemma PutTwoAppends(t: Table, k1: string, c1: seq<Cell>, k2: string, c2: seq<Cell>)
    requires WellFormed(t) && |c1| == t.height && |c2| == t.height
    requires k1 !in t.labels && k2 !in t.labels && k1 != k2
    ensures Put(Put(t, k1, c1), k2, c2).labels == t.labels + [k1, k2]
  {
    var t1 := Put(t, k1, c1);
    PutAppends(t, k1, c1);
    PutAppends(t1, k2, c2);
    assert t.labels + [k1] + [k2] == t.labels + [k1, k2];
  }

  /** New labels go after the others, in the order they are assigned. */
  lemma PutThreeAppends(t: Table, k1: string, c1: seq<Cell>, k2: string, c2: seq<Cell>, k3: string, c3: seq<Cell>)
    requires WellFormed(t) && |c1| == t.height && |c2| == t.height && |c3| == t.height
    requires k1 !in t.labels && k2 !in t.labels && k3 !in t.labels && k1 != k2 && k1 != k3 && k2 != k3
    ensures Put(Put(Put(t, k1, c1), k2, c2), k3, c3).labels == t.labels + [k1, k2, k3]
  {
    var t1 := Put(t, k1, c1);
    PutAppends(t, k1, c1);
    var t2 := Put(t1, k2, c2);
    PutAppends(t1, k2, c2);
    PutAppends(t2, k3, c3);
    AppendThree(t.labels, k1, k2, k3);
  }

  lemma AppendThree(s: seq<string>, a: string, b: string, c: string)
    ensures s + [a] + [b] + [c] == s + [a, b, c]
  {
  }

  /** A column of `n` missing values. */
  function Missing(n: nat): (r: seq<Cell>)
  {
    seq(n, _ => None)
  }

  /** `col` with every cell the mask selects set to `v`. */
  function Overwrite(col: seq<Cell>, mask: seq<bool>, v: Cell): (r: seq<Cell>)
    requires |mask| == |col|
  {
    seq(|col|, i requires 0 <= i < |col| => if mask[i] then v else col[i])
  }

  /** `df.loc[mask, key] = v`.  A label the frame lacks starts as a column of missing values. */
  function LocSet(t: Table, mask: seq<bool>, key: string, v: Cell): (r: Table)
    requires WellFormed(t) && |mask| == t.height
    ensures WellFormed(r) && r.height == t.height && key in r.columns
    ensures forall l | l in t.columns && l != key :: l in r.columns && r.columns[l] == t.columns[l]
    ensures t.labels <= r.labels && forall l :: l in r.labels <==> l in t.labels || l == key
  {
    Put(t, key, Overwrite(Base(t, key), mask, v))
  }

  /** The column a masked assignment starts from: the present one, or missing values. */
  function Base(t: Table, key: string): (r: seq<Cell>)
    requires WellFormed(t)
    ensures |r| == t.height
  {
    if key in t.columns then t.columns[key] else Missing(t.height)
  }

  /** Two masked assignments to one column are one assignment of the twice-overwritten column. */
  lemma LocSetTwice(t: Table, m1: seq<bool>, v1: Cell, m2: seq<bool>, v2: Cell, key: string)
    requires WellFormed(t) && |m1| == t.height && |m2| == t.height
    ensures LocSet(LocSet(t, m1, key, v1), m2, key, v2) == Put(t, key, Overwrite(Overwrite(Base(t, key), m1, v1), m2, v2))
  {
    var t1 := LocSet(t, m1, key, v1);
    assert Base(t1, key) == Overwrite(Base(t, key), m1, v1);
    assert t1.columns[key := Overwrite(Base(t1, key), m2, v2)] == t.columns[key := Overwrite(Base(t1, key), m2, v2)];
  }

  /**
   * After `df.loc[mask, key] = v`, the selected rows hold `v` and the others
   * keep their value, or are missing if the column is new.
   */
  lemma LocSetCells(t: Table, mask: seq<bool>, key: string, v: Cell)
    requires WellFormed(t) && |mask| == t.height
    ensures var r := LocSet(t, mask, key, v);
      && (forall i | 0 <= i < t.height && mask[i] :: r.columns[key][i] == v)
      && (forall i | 0 <= i < t.height && !mask[i] ::
            r.columns[key][i] == if key in t.columns then t.columns[key][i] else None)
  {
  }

  /** Two masked assignments to the same column with disjoint masks can run in either order. */
  lemma OverwriteCommute(col: seq<Cell>, m1: seq<bool>, v1: Cell, m2: seq<bool>, v2: Cell)
    requires |m1| == |col| && |m2| == |col|
    requires forall i | 0 <= i < |col| :: !(m1[i] && m2[i])
    ensures Overwrite(Overwrite(col, m1, v1), m2, v2) == Overwrite(Overwrite(col, m2, v2), m1, v1)
  {
  }

  /** Repeating a masked assignment changes nothing. */
  lemma OverwriteIdempotent(col: seq<Cell>, m: seq<bool>, v: Cell)
    requires |m| == |col|
    ensures Overwrite(Overwrite(col, m, v), m, v) == Overwrite(col, m, v)
  {
  }

  // ---------------------------------------------------------------------
  // The mutable frame
  // ---------------------------------------------------------------------

  class Frame {
    var labels: seq<string>
    var height: nat
    var columns: map<string, seq<Cell>>

    /** The value the frame holds now. */
    function Snapshot(): Table
      reads this
    {
      Table(labels, height, columns)
    }

    ghost predicate Valid()
      reads this
    {
      WellFormed(Snapshot())
    }

    /** `pd.DataFrame(...)` over columns already built. */
    constructor (t: Table)
      requires WellFormed(t)
      ensures Snapshot() == t && Valid()
    {
      labels, height, columns := t.labels, t.height, t.columns;
    }

    /** `df[key] = col`, in place. */
    method Assign(key: string, col: seq<Cell>)
      requires Valid() && |col| == height
      modifies this
      ensures Valid() && Snapshot() == Put(old(Snapshot()), key, col)
    {
      if key !in labels {
        labels := labels + [key];
      }
      columns := columns[key := col];
    }

    /** `df.loc[mask, key] = v`, in place. */
    method LocAssign(mask: seq<bool>, key: string, v: Cell)
      requires Valid() && |mask| == height
      modifies this
      ensures Valid() && Snapshot() == LocSet(old(Snapshot()), mask, key, v)
    {
      Assign(key, Overwrite(Base(Snapshot(), key), mask, v));
    }
  }

  // ---------------------------------------------------------------------
  // DDLInfo.to_dataframe
  // ---------------------------------------------------------------------

  /** The keys of a `to_dict` record, in the order the record is written. */
  const RecordLabels: seq<string> := [
    "fully_qualified_table", "database", "schema_name", "table_name", "column_name",
    "datatype", "length", "is_key", "is_foreign", "foreign_table", "foreign_key"]

  function OptionCell(o: Option<string>): Cell {
    match o
    case Some(s) => Some(Str(s))
    case None => None
  }

  /** The value a record holds under one of its keys. */
  function Field(r: InfoDdlOop.ColumnRecord, key: string): Cell {
    if key == "fully_qualified_table" then Some(Str(r.fullyQualifiedTable))
    else if key == "database" then Some(Str(r.database))
    else if key == "schema_name" then Some(Str(r.schemaName))
    else if key == "table_name" then Some(Str(r.tableName))
    else if key == "column_name" then Some(Str(r.columnName))
    else if key == "datatype" then Some(Str(r.dataType))
    else if key == "length" then Some(r.length)
    else if key == "is_key" then Some(Str(r.isKey))
    else if key == "is_foreign" then Some(Str(r.isForeign))
    else if key == "foreign_table" then OptionCell(r.foreignTable)
    else OptionCell(r.foreignKey)
  }

  /** Labels that differ pairwise are distinct. */
  lemma {:induction false} DistinctByIndex(xs: seq<string>)
    requires forall i, j | 0 <= i < j < |xs| :: xs[i] != xs[j]
    ensures Distinct(xs)
  {
    if xs != [] {
      var n := |xs| - 1;
      DistinctByIndex(xs[..n]);
      forall k | 0 <= k < n ensures xs[..n][k] != xs[n] {
      }
    }
  }

  lemma RecordLabelsDistinct()
    ensures Distinct(RecordLabels)
  {
    DistinctByIndex(RecordLabels);
  }

  /**
   * `pd.DataFrame(data)[data[0].keys()]`, or `pd.DataFrame()` when there are no
   * records: a frame with no columns at all.
   */
  function RecordsTable(records: seq<InfoDdlOop.ColumnRecord>): (t: Table)
    ensures WellFormed(t) && t.height == |records|
    ensures records == [] <==> IsEmpty(t)
  {
    if records == [] then Table([], 0, map[])
    else
      RecordLabelsDistinct();
      Table(RecordLabels, |records|,
            map l | l in RecordLabels :: seq(|records|, i requires 0 <= i < |records| => Field(records[i], l)))
  }

  /**
   * The records' frame is empty exactly when there are no records; otherwise
   * it has one row per record, the record keys as labels in order, and each
   * cell holds its record's value under the cell's label.
   */
  lemma RecordsTableShape(records: seq<InfoDdlOop.ColumnRecord>)
    ensures var t := RecordsTable(records);
      && (records == [] <==> IsEmpty(t))
      && (records == [] ==> t.labels == [] && t.height == 0)
      && (records != [] ==> t.labels == RecordLabels && t.height == |records|)
      && (records != [] ==>
            forall l, i | l in RecordLabels && 0 <= i < |records| :: t.columns[l][i] == Field(records[i], l))
  {
  }

  /** The records' `column_name` column holds each record's column name. */
  lemma RecordNamesColumn(records: seq<InfoDdlOop.ColumnRecord>)
    requires records != []
    ensures var t := RecordsTable(records);
      && t.height == |records| && "column_name" in t.columns
      && forall i | 0 <= i < |records| :: t.columns["column_name"][i] == Some(Str(records[i].columnName))
  {
    var t := RecordsTable(records);
    assert Field(records[0], "column_name") == Some(Str(records[0].columnName));
    forall i | 0 <= i < |records| ensures t.columns["column_name"][i] == Some(Str(records[i].columnName)) {
      assert Field(records[i], "column_name") == Some(Str(records[i].columnName));
    }
  }

  /** The records' `datatype` and `length` columns hold each record's type and length. */
  lemma RecordTypesColumns(records: seq<InfoDdlOop.ColumnRecord>)
    requires records != []
    ensures var t := RecordsTable(records);
      && t.height == |records| && "datatype" in t.columns && "length" in t.columns
      && forall i | 0 <= i < |records| ::
           t.columns["datatype"][i] == Some(Str(records[i].dataType)) && t.columns["length"][i] == Some(records[i].length)
  {
    var t := RecordsTable(records);
    forall i | 0 <= i < |records|
      ensures t.columns["datatype"][i] == Some(Str(records[i].dataType)) && t.columns["length"][i] == Some(records[i].length)
    {
      assert Field(records[i], "datatype") == Some(Str(records[i].dataType));
      assert Field(records[i], "length") == Some(records[i].length);
    }
  }

  /** `DDLInfo.to_dataframe()`: the records of `to_dict`, as a new frame. */
  method ToDataframe(info: InfoDdlOop.DDLInfo) returns (df: Frame)
    ensures fresh(df) && df.Valid()
    ensures df.Snapshot() == RecordsTable(InfoDdlOop.RecordsOf(info.columnDefs, info.dbSchemaTable, info.primaryKeys, info.foreignKeys))
    ensures info.Valid() ==> df.Snapshot() == RecordsTable(InfoDdlOop.StatementRecords(info.ddl))
  {
    var data := info.ToDict();
    df := new Frame(RecordsTable(data));
  }
}
