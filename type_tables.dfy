/**
 * The static type tables and the reverse index built over them.
 *
 * A table maps each canonical Snowflake type to, per source system, the list
 * of source type tokens it absorbs.  Python dicts keep insertion order and
 * that order decides which entry wins when a token is listed twice, so a
 * table is an ordered sequence of pairs here.
 */
module TypeTables {

  import opened Core
  import opened Text

  /** `{system: [token, ...], ...}` of one canonical type. */
  type SystemLists = seq<(string, seq<string>)>

  /** `{canonical_type: {system: [token, ...]}, ...}` */
  type TypeMap = seq<(string, SystemLists)>

  // ---------------------------------------------------------------------
  // The tables
  // ---------------------------------------------------------------------

  /** `SNOWFLAKE_TYPE_MAP` of the Snowflake configuration module. */
  const SnowflakeConf: TypeMap := [
    ("TIMESTAMP_NTZ", [
      ("oracle", ["TIMESTAMP"]),
      ("sql_server", ["DATETIME", "DATETIME2", "SMALLDATETIME"]),
      ("snowflake", ["TIMESTAMP_NTZ"])]),
    ("TIMESTAMP_TZ", [
      ("oracle", ["TIMESTAMP WITH TIME ZONE"]),
      ("sql_server", ["DATETIMEOFFSET"]),
      ("snowflake", ["TIMESTAMP_TZ"])]),
    ("DATE", [
      ("oracle", ["DATE"]),
      ("sql_server", ["DATE"]),
      ("snowflake", ["DATE"])]),
    ("TIME", [
      ("oracle", ["TIME"]),
      ("sql_server", ["TIME"])]),
    ("NUMBER", [
      ("oracle", ["NUMBER", "INTEGER", "FLOAT"]),
      ("sql_server", ["INT", "SMALLINT", "BINARY", "BIGINT", "DECIMAL", "NUMERIC", "BIT", "TINYINT", "FLOAT", "MONEY", "REAL", "SMALLMONEY"]),
      ("snowflake", ["NUMBER"])]),
    ("VARCHAR", [
      ("oracle", ["VARCHAR", "CHAR", "NVARCHAR", "NVARCHAR2"]),
      ("sql_server", ["VARCHAR", "CHAR", "NVARCHAR", "NVARCHAR2", "NCHAR", "TEXT"]),
      ("snowflake", ["VARCHAR"])]),
    ("VARIANT", [
      ("oracle", ["VARIANT", "BLOB", "CLOB"]),
      ("sql_server", ["VARIANT", "BLOB", "VARBINARY", "IMAGE", "XML", "SQL", "GEOMETRY", "GEOGRAPHY", "HIERARCHYID"]),
      ("snowflake", ["VARIANT"])])
  ]

  /** `AVAL_MAP_SNOW`: the source systems a Snowflake target accepts. */
  const AvalMapSnow: seq<(string, seq<string>)> := [
    ("snowflake", ["oracle", "sql_server", "snowflake"])
  ]

  /** `SNOWFLAKE_TYPE_MAP` of the shared configuration, whose SQL Server key is `sqlserver`. */
  const DatatypeMap: TypeMap := [
    ("TIMESTAMP_NTZ", [
      ("oracle", ["TIMESTAMP"]),
      ("sqlserver", ["DATETIME", "DATETIME2", "SMALLDATETIME"]),
      ("snowflake", ["TIMESTAMP_NTZ"])]),
    ("TIMESTAMP_TZ", [
      ("oracle", ["TIMESTAMP WITH TIME ZONE"]),
      ("sqlserver", ["DATETIMEOFFSET"]),
      ("snowflake", ["TIMESTAMP_TZ"])]),
    ("DATE", [
      ("oracle", ["DATE"]),
      ("sqlserver", ["DATE"]),
      ("snowflake", ["DATE"])]),
    ("NUMBER", [
      ("oracle", ["NUMBER", "INTEGER", "FLOAT"]),
      ("sqlserver", ["INT", "SNALLINT", "BINARY", "BIGINT", "DECIMAL", "NUMERIC"]),
      ("snowflake", ["NUMBER"])]),
    ("VARCHAR", [
      ("oracle", ["VARCHAR", "CHAR", "NVARCHAR", "NVARCHAR2"]),
      ("sqlserver", ["VARCHAR", "CHAR", "NVARCHAR", "NVARCHAR2"]),
      ("snowflake", ["VARCHAR", "CHAR"])]),
    ("VARIANT", [
      ("oracle", ["VARIANT", "BLOB", "CLOB"]),
      ("sqlserver", ["VARIANT", "BLOB"]),
      ("snowflake", ["VARIANT"])])
  ]

  // ---------------------------------------------------------------------
  // Reading a table
  // ---------------------------------------------------------------------

  /** The keys of a dict, in order. */
  function KeysOf<V>(ps: seq<(string, V)>): (r: seq<string>)
    ensures |r| == |ps| && forall k | 0 <= k < |ps| :: r[k] == ps[k].0
  {
    seq(|ps|, k requires 0 <= k < |ps| => ps[k].0)
  }

  /** `systems[sys]` when `sys in systems`, else the empty list. */
  function TokensFor(systems: SystemLists, sys: string): (r: seq<string>)
  {
    if systems == [] then []
    else if systems[0].0 == sys then systems[0].1
    else
      var r := TokensFor(systems[1..], sys);
      r
  }

  /** A system the dict does not hold lists nothing. */
  lemma {:induction false} TokensForMissing(systems: SystemLists, sys: string)
    requires sys !in KeysOf(systems)
    ensures TokensFor(systems, sys) == []
  {
    if systems != [] {
      assert systems[0].0 == KeysOf(systems)[0];
      assert KeysOf(systems[1..]) == KeysOf(systems)[1..];
      TokensForMissing(systems[1..], sys);
    }
  }

  /** `col` holds the token lists of source system `sys`, one per canonical type, in table order. */
  predicate Listing(tm: TypeMap, sys: string, col: seq<seq<string>>) {
    |col| == |tm| && forall i | 0 <= i < |tm| :: TokensFor(tm[i].1, sys) == col[i]
  }

  /** The upper-cased tokens, as the reverse index stores them. */
  function UpperAll(ts: seq<string>): (r: seq<string>)
    ensures |r| == |ts| && forall k | 0 <= k < |ts| :: r[k] == Upper(ts[k])
  {
    seq(|ts|, k requires 0 <= k < |ts| => Upper(ts[k]))
  }

  /** No lower-case letter from position `k` on. */
  predicate UpperCaseFrom(s: string, k: nat)
    decreases |s| - k
  {
    k >= |s| || (!('a' <= s[k] <= 'z') && UpperCaseFrom(s, k + 1))
  }

  predicate UpperCase(s: string) {
    UpperCaseFrom(s, 0)
  }

  lemma {:induction false} UpperCaseIntro(s: string, k: nat)
    requires forall j | k <= j < |s| :: !('a' <= s[j] <= 'z')
    ensures UpperCaseFrom(s, k)
    decreases |s| - k
  {
    if k < |s| {
      UpperCaseIntro(s, k + 1);
    }
  }

  /** `upper()` leaves a string without lower-case letters as it is. */
  lemma UpperOfUpperCase(s: string)
    requires UpperCase(s)
    ensures Upper(s) == s
  {
    forall k | 0 <= k < |s| ensures Upper(s)[k] == s[k] {
      UpperCaseAt(s, 0, k);
    }
  }

  lemma {:induction false} UpperCaseAt(s: string, j: nat, k: nat)
    requires UpperCaseFrom(s, j) && j <= k < |s|
    ensures !('a' <= s[k] <= 'z')
    decreases k - j
  {
    if j < k {
      UpperCaseAt(s, j + 1, k);
    }
  }

  /** Every token of every row of `col` is upper case. */
  predicate UpperCaseColumn(col: seq<seq<string>>) {
    forall i, t | 0 <= i < |col| && t in col[i] :: UpperCase(t)
  }

  /** The reverse-index keys one canonical type contributes for `sys`. */
  function Keys(systems: SystemLists, sys: string): seq<string>
  {
    UpperAll(TokensFor(systems, sys))
  }

  /** No two columns of `col` share a token: a token is listed under one canonical type at most. */
  predicate Apart(col: seq<seq<string>>) {
    forall i | 0 <= i < |col| :: ApartFrom(col, i)
  }

  /** Row `i` shares no token with a later row. */
  predicate ApartFrom(col: seq<seq<string>>, i: nat)
    requires i < |col|
  {
    forall j, t | i < j < |col| && t in col[i] :: t !in col[j]
  }

  /** No reverse-index key is contributed by two canonical types. */
  predicate NoCollision(tm: TypeMap, sys: string) {
    forall i, j, k | 0 <= i < j < |tm| && k in Keys(tm[i].1, sys) :: k !in Keys(tm[j].1, sys)
  }

  // ---------------------------------------------------------------------
  // The reverse index
  // ---------------------------------------------------------------------

  /** `reverse[t.upper()] = c` for every `t` of `ts`, in order. */
  function Assign(m: map<string, string>, ts: seq<string>, c: string): (r: map<string, string>)
    ensures forall k | k in r :: k in m || r[k] == c
  {
    if ts == [] then m else Assign(m, ts[..|ts| - 1], c)[Upper(ts[|ts| - 1]) := c]
  }

  /** After the assignments, a key is present iff it was or some token names it, and those map to `c`. */
  lemma {:induction false} AssignAt(m: map<string, string>, ts: seq<string>, c: string, k: string)
    ensures k in Assign(m, ts, c) <==> k in m || k in UpperAll(ts)
    ensures k in Assign(m, ts, c) ==> Assign(m, ts, c)[k] == if k in UpperAll(ts) then c else m[k]
  {
    if ts != [] {
      AssignAt(m, ts[..|ts| - 1], c, k);
      assert UpperAll(ts) == UpperAll(ts[..|ts| - 1]) + [Upper(ts[|ts| - 1])];
    }
  }

  /**
   * The dict `build_reverse_typemap(tm, sys)` returns: the entries of `tm`
   * are visited in order and every token of `sys` overwrites its key.
   */
  function ReverseMap(tm: TypeMap, sys: string): (r: map<string, string>)
    ensures forall k {:trigger r[k]} | k in r :: r[k] in KeysOf(tm)
  {
    if tm == [] then map[]
    else
      var prev := ReverseMap(tm[..|tm| - 1], sys);
      var last := tm[|tm| - 1];
      LastEntryValues(tm, prev, TokensFor(last.1, sys));
      Assign(prev, TokensFor(last.1, sys), last.0)
  }

  /** Assignments of a value of `vs` keep every value in `vs`. */
  lemma AssignValues(m: map<string, string>, ts: seq<string>, c: string, vs: seq<string>)
    requires c in vs && forall k | k in m :: m[k] in vs
    ensures forall k | k in Assign(m, ts, c) :: Assign(m, ts, c)[k] in vs
  {
  }

  /** Writing the last entry's type over an index whose values come from the earlier entries keeps every value a canonical type. */
  lemma LastEntryValues(tm: TypeMap, prev: map<string, string>, ts: seq<string>)
    requires tm != [] && forall k {:trigger prev[k]} | k in prev :: prev[k] in KeysOf(tm[..|tm| - 1])
    ensures forall k {:trigger Assign(prev, ts, tm[|tm| - 1].0)[k]} | k in Assign(prev, ts, tm[|tm| - 1].0) ::
      Assign(prev, ts, tm[|tm| - 1].0)[k] in KeysOf(tm)
  {
    KeysOfPrefix(tm, |tm| - 1);
    assert KeysOf(tm)[|tm| - 1] == tm[|tm| - 1].0;
    AssignValues(prev, ts, tm[|tm| - 1].0, KeysOf(tm));
  }

  /** Every canonical type of a prefix of the table is one of the table's. */
  lemma KeysOfPrefix<V>(ps: seq<(string, V)>, n: nat)
    requires n <= |ps|
    ensures forall c | c in KeysOf(ps[..n]) :: c in KeysOf(ps)
  {
    forall c | c in KeysOf(ps[..n]) ensures c in KeysOf(ps) {
      var j :| 0 <= j < n && KeysOf(ps[..n])[j] == c;
      assert KeysOf(ps)[j] == c;
    }
  }

  /** One more entry: its keys overwrite, every other key keeps its value. */
  lemma ReverseMapSnoc(tm: TypeMap, sys: string, k: string)
    requires tm != []
    ensures var r := ReverseMap(tm, sys); var p := ReverseMap(tm[..|tm| - 1], sys);
      && (k in r <==> k in p || k in Keys(tm[|tm| - 1].1, sys))
      && (k in r ==> r[k] == if k in Keys(tm[|tm| - 1].1, sys) then tm[|tm| - 1].0 else p[k])
  {
    AssignAt(ReverseMap(tm[..|tm| - 1], sys), TokensFor(tm[|tm| - 1].1, sys), tm[|tm| - 1].0, k);
  }

  /** A key of the reverse index is a key some canonical type contributes, and only such a key is. */
  lemma {:induction false} ReverseMapDomain(tm: TypeMap, sys: string, k: string)
    ensures k in ReverseMap(tm, sys) <==> exists i | 0 <= i < |tm| :: k in Keys(tm[i].1, sys)
  {
    if tm != [] {
      var last := |tm| - 1;
      var init := tm[..last];
      ReverseMapDomain(init, sys, k);
      ReverseMapSnoc(tm, sys, k);
      if k in ReverseMap(init, sys) {
        var i :| 0 <= i < |init| && k in Keys(init[i].1, sys);
        assert init[i] == tm[i];
        assert k in Keys(tm[i].1, sys);
      } else if k in Keys(tm[last].1, sys) {
        assert 0 <= last < |tm|;
      }
      if exists i | 0 <= i < |tm| :: k in Keys(tm[i].1, sys) {
        var i :| 0 <= i < |tm| && k in Keys(tm[i].1, sys);
        if i < last {
          assert init[i] == tm[i];
          assert k in Keys(init[i].1, sys);
        }
      }
    }
  }

  /** Entry `i` lists `k` and no later entry does. */
  predicate ListedLast(tm: TypeMap, sys: string, i: nat, k: string)
    requires i < |tm|
  {
    k in Keys(tm[i].1, sys) && forall j | i < j < |tm| :: k !in Keys(tm[j].1, sys)
  }

  /**
   * Last write wins: a key listed by canonical type `i` and by no later one
   * maps to the canonical type of `i`.
   */
  lemma {:induction false} ReverseMapLastWins(tm: TypeMap, sys: string, i: nat, k: string)
    requires i < |tm| && ListedLast(tm, sys, i, k)
    ensures k in ReverseMap(tm, sys) && ReverseMap(tm, sys)[k] == tm[i].0
  {
    var init := tm[..|tm| - 1];
    if i < |tm| - 1 {
      assert init[i] == tm[i];
      forall j | i < j < |init| ensures k !in Keys(init[j].1, sys) {
        assert init[j] == tm[j];
      }
      ReverseMapLastWins(init, sys, i, k);
    }
    ReverseMapSnoc(tm, sys, k);
  }

  /** The value of every key is the canonical type of the last entry listing it. */
  lemma {:induction false} ReverseMapValue(tm: TypeMap, sys: string, k: string)
    requires k in ReverseMap(tm, sys)
    ensures exists i | 0 <= i < |tm| :: ListedLast(tm, sys, i, k) && ReverseMap(tm, sys)[k] == tm[i].0
  {
    var last := |tm| - 1;
    ReverseMapSnoc(tm, sys, k);
    if k in Keys(tm[last].1, sys) {
      assert ListedLast(tm, sys, last, k);
    } else {
      var init := tm[..last];
      ReverseMapValue(init, sys, k);
      var i :| 0 <= i < |init| && ListedLast(init, sys, i, k) && ReverseMap(init, sys)[k] == init[i].0;
      assert init[i] == tm[i];
      forall j | i < j < |tm| ensures k !in Keys(tm[j].1, sys) {
        if j < last {
          assert init[j] == tm[j];
        }
      }
      assert ListedLast(tm, sys, i, k);
    }
  }

  /** A system no canonical type lists gives the empty index. */
  lemma {:induction false} UnknownSystem(tm: TypeMap, sys: string)
    requires forall i | 0 <= i < |tm| :: sys !in KeysOf(tm[i].1)
    ensures ReverseMap(tm, sys) == map[]
  {
    if tm != [] {
      UnknownSystem(tm[..|tm| - 1], sys);
      TokensForMissing(tm[|tm| - 1].1, sys);
    }
  }

  /**
   * Without collisions the index does not depend on the order of the
   * entries: a key maps to `c` exactly when some entry for `c` lists it.
   */
  lemma ReverseMapOrderFree(tm: TypeMap, sys: string, k: string, c: string)
    requires NoCollision(tm, sys)
    ensures (k in ReverseMap(tm, sys) && ReverseMap(tm, sys)[k] == c)
        <==> exists i | 0 <= i < |tm| :: tm[i].0 == c && k in Keys(tm[i].1, sys)
  {
    if exists i | 0 <= i < |tm| :: tm[i].0 == c && k in Keys(tm[i].1, sys) {
      var i :| 0 <= i < |tm| && tm[i].0 == c && k in Keys(tm[i].1, sys);
      assert ListedLast(tm, sys, i, k);
      ReverseMapLastWins(tm, sys, i, k);
    }
    if k in ReverseMap(tm, sys) {
      ReverseMapValue(tm, sys, k);
    }
  }

  /** Upper-case tokens are their own keys. */
  lemma KeysOfUpperCase(systems: SystemLists, sys: string)
    requires forall t | t in TokensFor(systems, sys) :: UpperCase(t)
    ensures Keys(systems, sys) == TokensFor(systems, sys)
  {
    var ts := TokensFor(systems, sys);
    forall k | 0 <= k < |ts| ensures Upper(ts[k]) == ts[k] {
      UpperOfUpperCase(ts[k]);
    }
  }

  /** A column whose rows share no token and whose tokens are upper case gives an index without collisions. */
  lemma NoCollisionOfColumn(tm: TypeMap, sys: string, col: seq<seq<string>>)
    requires Listing(tm, sys, col) && Apart(col) && UpperCaseColumn(col)
    ensures NoCollision(tm, sys)
  {
    forall i | 0 <= i < |tm| ensures Keys(tm[i].1, sys) == col[i] {
      KeysOfUpperCase(tm[i].1, sys);
    }
    forall i, j, k | 0 <= i < j < |tm| && k in Keys(tm[i].1, sys) ensures k !in Keys(tm[j].1, sys) {
      assert ApartFrom(col, i);
    }
  }

  /** A token no row of an upper-case column lists is not a key of the index. */
  lemma UnlistedAbsent(tm: TypeMap, sys: string, col: seq<seq<string>>, t: string)
    requires Listing(tm, sys, col) && UpperCaseColumn(col)
    requires forall i | 0 <= i < |col| :: t !in col[i]
    ensures t !in ReverseMap(tm, sys)
  {
    forall i | 0 <= i < |tm| ensures t !in Keys(tm[i].1, sys) {
      KeysOfUpperCase(tm[i].1, sys);
    }
    ReverseMapDomain(tm, sys, t);
  }

  /** Without collisions, an upper-case token listed by entry `i` maps to that entry's type. */
  lemma ListedMapsTo(tm: TypeMap, sys: string, i: nat, t: string)
    requires NoCollision(tm, sys) && i < |tm|
    requires t in TokensFor(tm[i].1, sys) && UpperCase(t)
    ensures t in ReverseMap(tm, sys) && ReverseMap(tm, sys)[t] == tm[i].0
  {
    var ts := TokensFor(tm[i].1, sys);
    var k :| 0 <= k < |ts| && ts[k] == t;
    UpperOfUpperCase(t);
    assert Keys(tm[i].1, sys)[k] == t;
    ReverseMapOrderFree(tm, sys, t, tm[i].0);
  }

  // ---------------------------------------------------------------------
  // The columns of SNOWFLAKE_TYPE_MAP
  // ---------------------------------------------------------------------

  const ConfOracle: seq<seq<string>> := [
    ["TIMESTAMP"], ["TIMESTAMP WITH TIME ZONE"], ["DATE"], ["TIME"], ["NUMBER", "INTEGER", "FLOAT"],
    ["VARCHAR", "CHAR", "NVARCHAR", "NVARCHAR2"], ["VARIANT", "BLOB", "CLOB"]]

  const ConfSqlServer: seq<seq<string>> := [
    ["DATETIME", "DATETIME2", "SMALLDATETIME"], ["DATETIMEOFFSET"], ["DATE"], ["TIME"],
    ["INT", "SMALLINT", "BINARY", "BIGINT", "DECIMAL", "NUMERIC", "BIT", "TINYINT", "FLOAT", "MONEY", "REAL", "SMALLMONEY"],
    ["VARCHAR", "CHAR", "NVARCHAR", "NVARCHAR2", "NCHAR", "TEXT"],
    ["VARIANT", "BLOB", "VARBINARY", "IMAGE", "XML", "SQL", "GEOMETRY", "GEOGRAPHY", "HIERARCHYID"]]

  const ConfSnowflake: seq<seq<string>> := [
    ["TIMESTAMP_NTZ"], ["TIMESTAMP_TZ"], ["DATE"], [], ["NUMBER"], ["VARCHAR"], ["VARIANT"]]

  lemma ConfListingOracle() ensures Listing(SnowflakeConf, "oracle", ConfOracle) {
    forall i | 0 <= i < |SnowflakeConf| ensures TokensFor(SnowflakeConf[i].1, "oracle") == ConfOracle[i] {
      if i == 0 { } else if i == 1 { } else if i == 2 { } else if i == 3 { }
      else if i == 4 { } else if i == 5 { } else { }
    }
  }

  lemma ConfListingSqlServer() ensures Listing(SnowflakeConf, "sql_server", ConfSqlServer) {
    forall i | 0 <= i < |SnowflakeConf| ensures TokensFor(SnowflakeConf[i].1, "sql_server") == ConfSqlServer[i] {
      if i == 0 { } else if i == 1 { } else if i == 2 { } else if i == 3 { }
      else if i == 4 { } else if i == 5 { } else { }
    }
  }

  lemma ConfListingSnowflake() ensures Listing(SnowflakeConf, "snowflake", ConfSnowflake) {
    forall i | 0 <= i < |SnowflakeConf| ensures TokensFor(SnowflakeConf[i].1, "snowflake") == ConfSnowflake[i] {
      if i == 0 { } else if i == 1 { } else if i == 2 { } else if i == 3 { }
      else if i == 4 { } else if i == 5 { } else { }
    }
  }

  lemma ConfSqlServerApart0() ensures ApartFrom(ConfSqlServer, 0) {}
  lemma ConfSqlServerApart1() ensures ApartFrom(ConfSqlServer, 1) {}
  lemma ConfSqlServerApart2() ensures ApartFrom(ConfSqlServer, 2) {}
  lemma ConfSqlServerApart3() ensures ApartFrom(ConfSqlServer, 3) {}
  lemma ConfSqlServerApart45() ensures forall t | t in ConfSqlServer[4] :: t !in ConfSqlServer[5] {}
  lemma ConfSqlServerApart46() ensures forall t | t in ConfSqlServer[4] :: t !in ConfSqlServer[6] {}
  lemma ConfSqlServerApart56() ensures forall t | t in ConfSqlServer[5] :: t !in ConfSqlServer[6] {}

  lemma ConfSqlServerApart() ensures Apart(ConfSqlServer) {
    ConfSqlServerApart0();
    ConfSqlServerApart1();
    ConfSqlServerApart2();
    ConfSqlServerApart3();
    ConfSqlServerApart45();
    ConfSqlServerApart46();
    ConfSqlServerApart56();
  }

  lemma ConfSqlServerUpper0() ensures forall i, t | 0 <= i < 4 && t in ConfSqlServer[i] :: UpperCase(t) {}
  lemma ConfSqlServerUpper4() ensures forall t | t in ConfSqlServer[4] :: UpperCase(t) {}
  lemma ConfSqlServerUpper5() ensures forall t | t in ConfSqlServer[5] :: UpperCase(t) {}
  lemma ConfSqlServerUpper6() ensures forall t | t in ConfSqlServer[6] :: UpperCase(t) {}

  lemma ConfSqlServerUpper() ensures UpperCaseColumn(ConfSqlServer) {
    ConfSqlServerUpper0();
    ConfSqlServerUpper4();
    ConfSqlServerUpper5();
    ConfSqlServerUpper6();
  }

  /** The one Oracle token holding spaces. */
  lemma SpacedTokenUpper() ensures UpperCase("TIMESTAMP WITH TIME ZONE") {
    UpperCaseIntro("TIMESTAMP WITH TIME ZONE", 0);
  }

  lemma ConfOracleUpper0() ensures forall i, t | 0 <= i < 4 && i != 1 && t in ConfOracle[i] :: UpperCase(t) {}
  lemma ConfOracleUpper4() ensures forall i, t | 4 <= i < 7 && t in ConfOracle[i] :: UpperCase(t) {}

  lemma ConfOracleUpper() ensures UpperCaseColumn(ConfOracle) {
    SpacedTokenUpper();
    ConfOracleUpper0();
    ConfOracleUpper4();
    assert ConfOracle[1] == ["TIMESTAMP WITH TIME ZONE"];
  }

  lemma ConfOracleApart() ensures Apart(ConfOracle) {}
  lemma ConfSnowflakeApart() ensures Apart(ConfSnowflake) {}
  lemma ConfSnowflakeUpper() ensures UpperCaseColumn(ConfSnowflake) {}

  lemma ConfOracleNoCollision() ensures NoCollision(SnowflakeConf, "oracle") {
    ConfListingOracle();
    ConfOracleApart();
    ConfOracleUpper();
    NoCollisionOfColumn(SnowflakeConf, "oracle", ConfOracle);
  }

  lemma ConfSqlServerNoCollision() ensures NoCollision(SnowflakeConf, "sql_server") {
    ConfListingSqlServer();
    ConfSqlServerApart();
    ConfSqlServerUpper();
    NoCollisionOfColumn(SnowflakeConf, "sql_server", ConfSqlServer);
  }

  lemma ConfSnowflakeNoCollision() ensures NoCollision(SnowflakeConf, "snowflake") {
    ConfListingSnowflake();
    ConfSnowflakeApart();
    ConfSnowflakeUpper();
    NoCollisionOfColumn(SnowflakeConf, "snowflake", ConfSnowflake);
  }

  /** For each system a Snowflake target accepts, no token is listed under two canonical types. */
  lemma ConfNoCollision(sys: string)
    requires sys in AvalMapSnow[0].1
    ensures NoCollision(SnowflakeConf, sys)
  {
    if sys == "oracle" {
      ConfOracleNoCollision();
    } else if sys == "sql_server" {
      ConfSqlServerNoCollision();
    } else {
      ConfSnowflakeNoCollision();
    }
  }

  /** Every system `AVAL_MAP_SNOW` offers has token lists in the table. */
  lemma AvalSystemsListed(sys: string)
    requires sys in AvalMapSnow[0].1
    ensures exists i | 0 <= i < |SnowflakeConf| :: sys in KeysOf(SnowflakeConf[i].1) && TokensFor(SnowflakeConf[i].1, sys) != []
  {
    assert KeysOf(SnowflakeConf[0].1) == ["oracle", "sql_server", "snowflake"];
    if sys == "oracle" {
      assert TokensFor(SnowflakeConf[0].1, sys) == ["TIMESTAMP"];
    } else if sys == "sql_server" {
      assert TokensFor(SnowflakeConf[0].1, sys) == ["DATETIME", "DATETIME2", "SMALLDATETIME"];
    } else {
      assert TokensFor(SnowflakeConf[0].1, sys) == ["TIMESTAMP_NTZ"];
    }
  }

  /** Under `sql_server`, the three SQL Server date-time types become TIMESTAMP_NTZ. */
  lemma ConfSqlServerTimestamps(t: string)
    requires t in ["DATETIME", "DATETIME2", "SMALLDATETIME"]
    ensures var r := ReverseMap(SnowflakeConf, "sql_server"); t in r && r[t] == "TIMESTAMP_NTZ"
  {
    ConfSqlServerNoCollision();
    ConfListingSqlServer();
    assert TokensFor(SnowflakeConf[0].1, "sql_server") == ConfSqlServer[0];
    ConfSqlServerUpper0();
    ListedMapsTo(SnowflakeConf, "sql_server", 0, t);
  }

  /** FLOAT is a NUMBER for Oracle and for SQL Server, and so are BIT and MONEY for SQL Server. */
  lemma ConfNumbers(sys: string, t: string)
    requires (sys == "oracle" && t == "FLOAT") || (sys == "sql_server" && t in ["FLOAT", "BIT", "MONEY"])
    ensures var r := ReverseMap(SnowflakeConf, sys); t in r && r[t] == "NUMBER"
  {
    if sys == "oracle" {
      ConfOracleNoCollision();
      ConfListingOracle();
      assert TokensFor(SnowflakeConf[4].1, sys) == ConfOracle[4];
      ConfOracleUpper4();
    } else {
      ConfSqlServerNoCollision();
      ConfListingSqlServer();
      assert TokensFor(SnowflakeConf[4].1, sys) == ConfSqlServer[4];
      ConfSqlServerUpper4();
    }
    ListedMapsTo(SnowflakeConf, sys, 4, t);
  }

  /** TIME has Oracle and SQL Server tokens but no Snowflake one, so the Snowflake index lacks it. */
  lemma ConfTimeNotSnowflake()
    ensures SnowflakeConf[3].0 == "TIME" && KeysOf(SnowflakeConf[3].1) == ["oracle", "sql_server"]
    ensures "TIME" !in ReverseMap(SnowflakeConf, "snowflake")
  {
    var e := SnowflakeConf[3];
    assert e == ("TIME", [("oracle", ["TIME"]), ("sql_server", ["TIME"])]);
    assert KeysOf(e.1) == ["oracle", "sql_server"];
    ConfTimeUnlisted();
  }

  lemma ConfTimeUnlisted() ensures "TIME" !in ReverseMap(SnowflakeConf, "snowflake") {
    ConfListingSnowflake();
    ConfSnowflakeUpper();
    ConfSnowflakeNoTime();
    UnlistedAbsent(SnowflakeConf, "snowflake", ConfSnowflake, "TIME");
  }

  lemma ConfSnowflakeNoTime() ensures forall i | 0 <= i < |ConfSnowflake| :: "TIME" !in ConfSnowflake[i] {}

  /**
   * The Oracle token `TIMESTAMP WITH TIME ZONE` holds spaces, so no
   * letters-only type token (nor its upper-case form) ever equals it.
   */
  lemma SpacedTokenUnreachable(token: string)
    requires AllLetters(token)
    ensures "TIMESTAMP WITH TIME ZONE" in TokensFor(SnowflakeConf[1].1, "oracle")
    ensures Upper(token) != "TIMESTAMP WITH TIME ZONE"
  {
    assert TokensFor(SnowflakeConf[1].1, "oracle") == ["TIMESTAMP WITH TIME ZONE"];
    if |token| == |"TIMESTAMP WITH TIME ZONE"| {
      assert IsLetter(token[9]);
      assert Upper(token)[9] != "TIMESTAMP WITH TIME ZONE"[9];
    }
  }

  // ---------------------------------------------------------------------
  // The columns of the shared SNOWFLAKE_TYPE_MAP
  // ---------------------------------------------------------------------

  const MapOracle: seq<seq<string>> := [
    ["TIMESTAMP"], ["TIMESTAMP WITH TIME ZONE"], ["DATE"], ["NUMBER", "INTEGER", "FLOAT"],
    ["VARCHAR", "CHAR", "NVARCHAR", "NVARCHAR2"], ["VARIANT", "BLOB", "CLOB"]]

  const MapSqlServer: seq<seq<string>> := [
    ["DATETIME", "DATETIME2", "SMALLDATETIME"], ["DATETIMEOFFSET"], ["DATE"],
    ["INT", "SNALLINT", "BINARY", "BIGINT", "DECIMAL", "NUMERIC"],
    ["VARCHAR", "CHAR", "NVARCHAR", "NVARCHAR2"], ["VARIANT", "BLOB"]]

  const MapSnowflake: seq<seq<string>> := [
    ["TIMESTAMP_NTZ"], ["TIMESTAMP_TZ"], ["DATE"], ["NUMBER"], ["VARCHAR", "CHAR"], ["VARIANT"]]

  const MapUnderscored: seq<seq<string>> := [[], [], [], [], [], []]

  lemma MapListingOracle() ensures Listing(DatatypeMap, "oracle", MapOracle) {
    forall i | 0 <= i < |DatatypeMap| ensures TokensFor(DatatypeMap[i].1, "oracle") == MapOracle[i] {
      if i == 0 { } else if i == 1 { } else if i == 2 { } else if i == 3 { }
      else if i == 4 { } else { }
    }
  }

  lemma MapListingSqlServer() ensures Listing(DatatypeMap, "sqlserver", MapSqlServer) {
    forall i | 0 <= i < |DatatypeMap| ensures TokensFor(DatatypeMap[i].1, "sqlserver") == MapSqlServer[i] {
      if i == 0 { } else if i == 1 { } else if i == 2 { } else if i == 3 { }
      else if i == 4 { } else { }
    }
  }

  lemma MapListingSnowflake() ensures Listing(DatatypeMap, "snowflake", MapSnowflake) {
    forall i | 0 <= i < |DatatypeMap| ensures TokensFor(DatatypeMap[i].1, "snowflake") == MapSnowflake[i] {
      if i == 0 { } else if i == 1 { } else if i == 2 { } else if i == 3 { }
      else if i == 4 { } else { }
    }
  }

  lemma MapListingUnderscored() ensures Listing(DatatypeMap, "sql_server", MapUnderscored) {
    forall i | 0 <= i < |DatatypeMap| ensures TokensFor(DatatypeMap[i].1, "sql_server") == MapUnderscored[i] {
      if i == 0 { } else if i == 1 { } else if i == 2 { } else if i == 3 { }
      else if i == 4 { } else { }
    }
  }

  lemma MapOracleUpper0() ensures forall i, t | 0 <= i < 3 && i != 1 && t in MapOracle[i] :: UpperCase(t) {}
  lemma MapOracleUpper3() ensures forall i, t | 3 <= i < 6 && t in MapOracle[i] :: UpperCase(t) {}

  lemma MapOracleUpper() ensures UpperCaseColumn(MapOracle) {
    SpacedTokenUpper();
    MapOracleUpper0();
    MapOracleUpper3();
    assert MapOracle[1] == ["TIMESTAMP WITH TIME ZONE"];
  }

  lemma MapOracleApart() ensures Apart(MapOracle) {}
  lemma MapSqlServerApart() ensures Apart(MapSqlServer) {}
  lemma MapSnowflakeApart() ensures Apart(MapSnowflake) {}
  lemma MapSqlServerUpper0() ensures forall i, t | 0 <= i < 3 && t in MapSqlServer[i] :: UpperCase(t) {}
  lemma MapSqlServerUpper3() ensures forall t | t in MapSqlServer[3] :: UpperCase(t) {}
  lemma MapSqlServerUpper4() ensures forall i, t | 4 <= i < 6 && t in MapSqlServer[i] :: UpperCase(t) {}

  lemma MapSqlServerUpper() ensures UpperCaseColumn(MapSqlServer) {
    MapSqlServerUpper0();
    MapSqlServerUpper3();
    MapSqlServerUpper4();
  }
  lemma MapSnowflakeUpper() ensures UpperCaseColumn(MapSnowflake) {}

  lemma MapOracleNoCollision() ensures NoCollision(DatatypeMap, "oracle") {
    MapListingOracle();
    MapOracleApart();
    MapOracleUpper();
    NoCollisionOfColumn(DatatypeMap, "oracle", MapOracle);
  }

  lemma MapSqlServerNoCollision() ensures NoCollision(DatatypeMap, "sqlserver") {
    MapListingSqlServer();
    MapSqlServerApart();
    MapSqlServerUpper();
    NoCollisionOfColumn(DatatypeMap, "sqlserver", MapSqlServer);
  }

  lemma MapSnowflakeNoCollision() ensures NoCollision(DatatypeMap, "snowflake") {
    MapListingSnowflake();
    MapSnowflakeApart();
    MapSnowflakeUpper();
    NoCollisionOfColumn(DatatypeMap, "snowflake", MapSnowflake);
  }

  /** Within each system of the shared table no token is listed under two canonical types. */
  lemma MapNoCollision(sys: string)
    requires sys in ["oracle", "sqlserver", "snowflake"]
    ensures NoCollision(DatatypeMap, sys)
  {
    if sys == "oracle" {
      MapOracleNoCollision();
    } else if sys == "sqlserver" {
      MapSqlServerNoCollision();
    } else {
      MapSnowflakeNoCollision();
    }
  }

  /** The shared table spells SQL Server `sqlserver`: under `sql_server` its index is empty. */
  lemma MapUnderscoredEmpty()
    ensures ReverseMap(DatatypeMap, "sql_server") == map[]
  {
    MapListingUnderscored();
    EmptyListingEmpty(DatatypeMap, "sql_server", MapUnderscored);
  }

  /** When no entry lists a token for `sys`, the index of `sys` is empty. */
  lemma EmptyListingEmpty(tm: TypeMap, sys: string, col: seq<seq<string>>)
    requires Listing(tm, sys, col) && forall i | 0 <= i < |col| :: col[i] == []
    ensures ReverseMap(tm, sys) == map[]
  {
    forall k ensures k !in ReverseMap(tm, sys) {
      ReverseMapDomain(tm, sys, k);
      forall i | 0 <= i < |tm| ensures k !in Keys(tm[i].1, sys) {
        assert TokensFor(tm[i].1, sys) == col[i];
      }
    }
  }

  /** Under `sqlserver`, DATETIME2 becomes TIMESTAMP_NTZ. */
  lemma MapDatetime2()
    ensures var r := ReverseMap(DatatypeMap, "sqlserver"); "DATETIME2" in r && r["DATETIME2"] == "TIMESTAMP_NTZ"
  {
    MapSqlServerNoCollision();
    MapListingSqlServer();
    assert TokensFor(DatatypeMap[0].1, "sqlserver") == MapSqlServer[0];
    MapSqlServerUpper();
    ListedMapsTo(DatatypeMap, "sqlserver", 0, "DATETIME2");
  }

  /** The Snowflake CHAR becomes VARCHAR. */
  lemma MapSnowflakeChar()
    ensures var r := ReverseMap(DatatypeMap, "snowflake"); "CHAR" in r && r["CHAR"] == "VARCHAR"
  {
    MapSnowflakeNoCollision();
    MapListingSnowflake();
    assert TokensFor(DatatypeMap[4].1, "snowflake") == MapSnowflake[4];
    MapSnowflakeUpper();
    ListedMapsTo(DatatypeMap, "snowflake", 4, "CHAR");
  }

  /** SMALLINT is not mapped under `sqlserver`: the list spells it SNALLINT, which is what becomes NUMBER. */
  lemma MapSmallint()
    ensures var r := ReverseMap(DatatypeMap, "sqlserver"); "SMALLINT" !in r && "SNALLINT" in r && r["SNALLINT"] == "NUMBER"
  {
    MapSnallint();
    MapSmallintAbsent();
  }

  lemma MapSnallint() ensures var r := ReverseMap(DatatypeMap, "sqlserver"); "SNALLINT" in r && r["SNALLINT"] == "NUMBER" {
    MapSqlServerNoCollision();
    MapListingSqlServer();
    assert TokensFor(DatatypeMap[3].1, "sqlserver") == MapSqlServer[3];
    MapSqlServerUpper();
    ListedMapsTo(DatatypeMap, "sqlserver", 3, "SNALLINT");
  }

  lemma MapSmallintAbsent() ensures "SMALLINT" !in ReverseMap(DatatypeMap, "sqlserver") {
    MapListingSqlServer();
    MapSqlServerUpper();
    MapSqlServerNoSmallint();
    UnlistedAbsent(DatatypeMap, "sqlserver", MapSqlServer, "SMALLINT");
  }

  lemma MapSqlServerNoSmallint() ensures forall i | 0 <= i < |MapSqlServer| :: "SMALLINT" !in MapSqlServer[i] {}
}
