/**
 * The front end's type lookup: a source type of a source system is mapped
 * to the canonical Snowflake type whose list for that system names it, by a
 * scan of the shared table in insertion order that stops at the first hit.
 * Unlike the reverse index, where the last listing wins, the scan lets the
 * first listing win; the two agree whenever no token is listed twice.
 */
module FrontEnd {

  import opened Core
  import opened Text
  import opened TypeTables

  /** What the lookup answers when no list names the type. */
  const Unmapped := "UNMAPPED"

  /** Entry `i` lists `t` for `sys` and no earlier entry does. */
  predicate FirstAt(tm: TypeMap, sys: string, t: string, i: nat)
    requires i < |tm|
  {
    t in TokensFor(tm[i].1, sys) && forall j | 0 <= j < i :: t !in TokensFor(tm[j].1, sys)
  }

  /** No entry lists `t` for `sys`. */
  predicate Unlisted(tm: TypeMap, sys: string, t: string) {
    forall i | 0 <= i < |tm| :: t !in TokensFor(tm[i].1, sys)
  }

  /** The canonical type of the first entry listing `t` for `sys`, else `UNMAPPED`. */
  function FirstMatch(tm: TypeMap, sys: string, t: string): (r: string)
    ensures r in KeysOf(tm) || r == Unmapped
  {
    if tm == [] then Unmapped
    else if t in TokensFor(tm[0].1, sys) then tm[0].0
    else FirstMatch(tm[1..], sys, t)
  }

  /** `map_to_target_type(source_type, source_system)` over the shared table. */
  function TargetType(sourceType: string, sourceSystem: string): (r: string)
    ensures r in KeysOf(DatatypeMap) || r == Unmapped
  {
    FirstMatch(DatatypeMap, Lower(sourceSystem), Upper(sourceType))
  }

  /**
   * The scan: for each entry, if the system has a list there and the list
   * holds the token, answer that entry's canonical type.
   */
  method FirstListing(tm: TypeMap, sys: string, t: string) returns (r: string)
    ensures r == FirstMatch(tm, sys, t)
  {
    var i := 0;
    while i < |tm|
      invariant 0 <= i <= |tm|
      invariant FirstMatch(tm[i..], sys, t) == FirstMatch(tm, sys, t)
    {
      assert tm[i..][1..] == tm[i + 1..];
      if sys in KeysOf(tm[i].1) {
        if t in TokensFor(tm[i].1, sys) {
          return tm[i].0;
        }
      } else {
        TokensForMissing(tm[i].1, sys);
      }
      i := i + 1;
    }
    return Unmapped;
  }

  /** The system name is lower-cased and the type upper-cased before the scan. */
  method MapToTargetType(sourceType: string, sourceSystem: string) returns (r: string)
    ensures r == TargetType(sourceType, sourceSystem)
  {
    var system := Lower(sourceSystem);
    var token := Upper(sourceType);
    r := FirstListing(DatatypeMap, system, token);
  }

  /**
   * The scan answers the canonical type of the first entry listing the
   * token, and `UNMAPPED` exactly when no entry lists it.
   */
  lemma {:induction false} FirstMatchSpec(tm: TypeMap, sys: string, t: string)
    ensures var r := FirstMatch(tm, sys, t);
      || (exists i | 0 <= i < |tm| :: FirstAt(tm, sys, t, i) && r == tm[i].0)
      || (Unlisted(tm, sys, t) && r == Unmapped)
  {
    if tm != [] && t !in TokensFor(tm[0].1, sys) {
      var rest := tm[1..];
      FirstMatchSpec(rest, sys, t);
      if exists i | 0 <= i < |rest| :: FirstAt(rest, sys, t, i) && FirstMatch(rest, sys, t) == rest[i].0 {
        var i :| 0 <= i < |rest| && FirstAt(rest, sys, t, i) && FirstMatch(rest, sys, t) == rest[i].0;
        forall j | 0 <= j < i + 1 ensures t !in TokensFor(tm[j].1, sys) {
          if j > 0 {
            assert tm[j] == rest[j - 1];
          }
        }
        assert FirstAt(tm, sys, t, i + 1);
      } else {
        forall j | 0 <= j < |tm| ensures t !in TokensFor(tm[j].1, sys) {
          if j > 0 {
            assert tm[j] == rest[j - 1];
          }
        }
      }
    } else if tm != [] {
      assert FirstAt(tm, sys, t, 0);
    }
  }

  /** The first listing decides: whatever later entries list, the answer is entry `i`'s type. */
  lemma FirstMatchAt(tm: TypeMap, sys: string, t: string, i: nat)
    requires i < |tm| && FirstAt(tm, sys, t, i)
    ensures FirstMatch(tm, sys, t) == tm[i].0
  {
    FirstMatchSpec(tm, sys, t);
    if exists k | 0 <= k < |tm| :: FirstAt(tm, sys, t, k) && FirstMatch(tm, sys, t) == tm[k].0 {
      var k :| 0 <= k < |tm| && FirstAt(tm, sys, t, k) && FirstMatch(tm, sys, t) == tm[k].0;
      assert k == i;
    }
  }

  /**
   * When the canonical types differ from `UNMAPPED`, the answer is
   * `UNMAPPED` exactly when no entry lists the token.
   */
  lemma UnmappedIffUnlisted(tm: TypeMap, sys: string, t: string)
    requires Unmapped !in KeysOf(tm)
    ensures FirstMatch(tm, sys, t) == Unmapped <==> Unlisted(tm, sys, t)
  {
    FirstMatchSpec(tm, sys, t);
    if exists i | 0 <= i < |tm| :: FirstAt(tm, sys, t, i) && FirstMatch(tm, sys, t) == tm[i].0 {
      var i :| 0 <= i < |tm| && FirstAt(tm, sys, t, i) && FirstMatch(tm, sys, t) == tm[i].0;
      assert KeysOf(tm)[i] == tm[i].0;
      assert t in TokensFor(tm[i].1, sys);
    }
  }

  /**
   * For an upper-case column without collisions the scan and the reverse
   * index agree: the answer is the index's value, or `UNMAPPED` for a
   * token the index does not hold.
   */
  lemma AgreesWithReverse(tm: TypeMap, sys: string, col: seq<seq<string>>, t: string)
    requires Listing(tm, sys, col) && UpperCaseColumn(col) && NoCollision(tm, sys)
    ensures FirstMatch(tm, sys, t) == if t in ReverseMap(tm, sys) then ReverseMap(tm, sys)[t] else Unmapped
  {
    FirstMatchSpec(tm, sys, t);
    if exists i | 0 <= i < |tm| :: FirstAt(tm, sys, t, i) && FirstMatch(tm, sys, t) == tm[i].0 {
      var i :| 0 <= i < |tm| && FirstAt(tm, sys, t, i) && FirstMatch(tm, sys, t) == tm[i].0;
      assert t in col[i];
      ListedMapsTo(tm, sys, i, t);
    } else {
      forall i | 0 <= i < |col| ensures t !in col[i] {
        assert TokensFor(tm[i].1, sys) == col[i];
      }
      UnlistedAbsent(tm, sys, col, t);
    }
  }

  /**
   * When a token is listed first by entry `i` and last by a
   * later entry `j`, the scan answers `i`'s type while the reverse index
   * holds `j`'s.
   */
  lemma FirstAgainstLast(tm: TypeMap, sys: string, t: string, i: nat, j: nat)
    requires i < j < |tm| && FirstAt(tm, sys, t, i) && ListedLast(tm, sys, j, t)
    ensures FirstMatch(tm, sys, t) == tm[i].0
    ensures t in ReverseMap(tm, sys) && ReverseMap(tm, sys)[t] == tm[j].0
  {
    FirstMatchAt(tm, sys, t, i);
    ReverseMapLastWins(tm, sys, j, t);
  }

  /** Neither the case of the type nor that of the system changes the answer. */
  lemma CaseInsensitive(sourceType: string, sourceSystem: string)
    ensures TargetType(Lower(sourceType), Upper(sourceSystem)) == TargetType(sourceType, sourceSystem)
  {
    UpperOfLower(sourceType);
    LowerOfUpper(sourceSystem);
  }

  /** The column of the shared table for a system it spells. */
  lemma MapColumn(sys: string) returns (col: seq<seq<string>>)
    requires sys in ["oracle", "sqlserver", "snowflake"]
    ensures Listing(DatatypeMap, sys, col) && UpperCaseColumn(col)
  {
    if sys == "oracle" {
      MapListingOracle();
      MapOracleUpper();
      col := MapOracle;
    } else if sys == "sqlserver" {
      MapListingSqlServer();
      MapSqlServerUpper();
      col := MapSqlServer;
    } else {
      MapListingSnowflake();
      MapSnowflakeUpper();
      col := MapSnowflake;
    }
  }

  /**
   * For the three systems the shared table spells, the lookup answers
   * what the reverse index of that system holds, or `UNMAPPED`.
   */
  lemma TargetTypeAgrees(sourceType: string, sourceSystem: string)
    requires Lower(sourceSystem) in ["oracle", "sqlserver", "snowflake"]
    ensures var r := ReverseMap(DatatypeMap, Lower(sourceSystem));
      TargetType(sourceType, sourceSystem) == if Upper(sourceType) in r then r[Upper(sourceType)] else Unmapped
  {
    var sys := Lower(sourceSystem);
    var col := MapColumn(sys);
    MapNoCollision(sys);
    AgreesWithReverse(DatatypeMap, sys, col, Upper(sourceType));
  }

  /** Spelled `sql_server`, SQL Server finds no list in the shared table: every type is `UNMAPPED`. */
  lemma UnderscoredUnmapped(sourceType: string, sourceSystem: string)
    requires Lower(sourceSystem) == "sql_server"
    ensures TargetType(sourceType, sourceSystem) == Unmapped
  {
    MapListingUnderscored();
    EmptyListingUnmapped(DatatypeMap, "sql_server", MapUnderscored, Upper(sourceType));
  }

  /** A system whose every list is empty gets `UNMAPPED` for every token. */
  lemma EmptyListingUnmapped(tm: TypeMap, sys: string, col: seq<seq<string>>, t: string)
    requires Listing(tm, sys, col) && forall i | 0 <= i < |col| :: col[i] == []
    ensures FirstMatch(tm, sys, t) == Unmapped
  {
    FirstMatchSpec(tm, sys, t);
    forall i | 0 <= i < |tm| ensures t !in TokensFor(tm[i].1, sys) {
      assert TokensFor(tm[i].1, sys) == col[i];
    }
  }

  /** SQL Server's `datetime2`, in any case, becomes TIMESTAMP_NTZ. */
  lemma SqlServerDatetime2(sourceType: string, sourceSystem: string)
    requires Upper(sourceType) == "DATETIME2" && Lower(sourceSystem) == "sqlserver"
    ensures TargetType(sourceType, sourceSystem) == "TIMESTAMP_NTZ"
  {
    TargetTypeAgrees(sourceType, sourceSystem);
    MapDatetime2();
  }

  /** SQL Server's `smallint` is `UNMAPPED`: the table lists SNALLINT in its place. */
  lemma SqlServerSmallint(sourceType: string, sourceSystem: string)
    requires Upper(sourceType) == "SMALLINT" && Lower(sourceSystem) == "sqlserver"
    ensures TargetType(sourceType, sourceSystem) == Unmapped
  {
    TargetTypeAgrees(sourceType, sourceSystem);
    MapSmallintAbsent();
  }
}
