/**
 * Scanners for the regular expressions that both DDL extractors share
 * (info_ddl.py and info_ddl_oop.py use the same patterns for these).
 * Each scanner decides the language its pattern accepts at one position,
 * with the priority order of the pattern's alternatives and greedy
 * quantifiers; the contracts state that language.
 */
module DdlLex {

  import opened Core
  import opened Text

  // ---------------------------------------------------------------------
  // Identifier segments
  // ---------------------------------------------------------------------

  /** How an identifier is written: bare `\w+`, or between a pair of delimiters. */
  datatype Quoting = Bare | Backticks | DoubleQuotes | Brackets

  /** A scanned identifier: how it was quoted, its text without delimiters, and the index just past it. */
  datatype Segment = Segment(quoting: Quoting, text: string, end: nat)

  function Opening(q: Quoting): char
    requires q != Bare
  {
    match q
    case Backticks => '`'
    case DoubleQuotes => '"'
    case Brackets => '['
  }

  function Closing(q: Quoting): char
    requires q != Bare
  {
    match q
    case Backticks => '`'
    case DoubleQuotes => '"'
    case Brackets => ']'
  }

  /** The source text of an identifier written with quoting `q`. */
  function Quote(q: Quoting, text: string): string
  {
    if q == Bare then text else [Opening(q)] + text + [Closing(q)]
  }

  /** The identifiers the patterns accept: `\w+`, `` `[^`]+` ``, `"[^"]+"` and `\[[^\]]+\]`. */
  predicate ValidSegment(q: Quoting, text: string) {
    && text != []
    && (q == Bare ==> forall i | 0 <= i < |text| :: IsWord(text[i]))
    && (q != Bare ==> Closing(q) !in text)
  }

  /**
   * `s[p..g.end]` is identifier `g` as written, and a bare identifier is not
   * followed by another word character (the `\w+` run is maximal).
   */
  predicate Renders(s: string, p: nat, g: Segment) {
    && p <= g.end <= |s|
    && s[p..g.end] == Quote(g.quoting, g.text)
    && ValidSegment(g.quoting, g.text)
    && (g.quoting == Bare ==> g.end == |s| || !IsWord(s[g.end]))
  }

  /** `\w+` at `p`. */
  function BareAt(s: string, p: nat): (r: Option<Segment>)
    requires p <= |s|
    ensures r.Some? <==> p < |s| && IsWord(s[p])
    ensures r.Some? ==> r.value.quoting == Bare && p < r.value.end <= |s| && r.value.text == s[p..r.value.end]
    ensures r.Some? ==> forall k | p <= k < r.value.end :: IsWord(s[k])
    ensures r.Some? ==> r.value.end == |s| || !IsWord(s[r.value.end])
  {
    var q := RunEnd(s, p, IsWord);
    if q == p then None else Some(Segment(Bare, s[p..q], q))
  }

  lemma BareRenders(s: string, p: nat)
    requires p <= |s| && BareAt(s, p).Some?
    ensures Renders(s, p, BareAt(s, p).value)
  {
    var g := BareAt(s, p).value;
    assert forall i | 0 <= i < |g.text| :: g.text[i] == s[p + i];
  }

  /** `open [^close]+ close` at `p`. */
  function QuotedAt(s: string, p: nat, q: Quoting): (r: Option<Segment>)
    requires p <= |s| && q != Bare
    ensures r.Some? <==>
              p + 1 < |s| && s[p] == Opening(q) && s[p + 1] != Closing(q) && Closing(q) in s[p + 1..]
    ensures r.Some? ==> r.value.quoting == q && p + 2 < r.value.end <= |s| && r.value.text == s[p + 1..r.value.end - 1]
    ensures r.Some? ==> s[r.value.end - 1] == Closing(q) && forall k | p + 1 <= k < r.value.end - 1 :: s[k] != Closing(q)
  {
    if p + 1 < |s| && s[p] == Opening(q) then
      var e := RunEnd(s, p + 1, c => c != Closing(q));
      assert Closing(q) in s[p + 1..] <==> e < |s| by {
        if e < |s| { assert s[p + 1..][e - (p + 1)] == Closing(q); }
        if Closing(q) in s[p + 1..] {
          var k :| 0 <= k < |s[p + 1..]| && s[p + 1..][k] == Closing(q);
          assert s[p + 1 + k] == Closing(q);
        }
      }
      if e > p + 1 && e < |s| then Some(Segment(q, s[p + 1..e], e + 1)) else None
    else
      None
  }

  lemma QuotedRenders(s: string, p: nat, q: Quoting)
    requires p <= |s| && q != Bare && QuotedAt(s, p, q).Some?
    ensures Renders(s, p, QuotedAt(s, p, q).value)
  {
    var g := QuotedAt(s, p, q).value;
    assert Closing(q) !in g.text by {
      assert forall i | 0 <= i < |g.text| :: g.text[i] == s[p + 1 + i];
    }
    assert s[p..g.end] == [s[p]] + s[p + 1..g.end - 1] + [s[g.end - 1]];
  }

  /** `` `[^`]+`|"[^"]+"|\w+ ``: a column name token. */
  function NameAt(s: string, p: nat): (r: Option<Segment>)
    requires p <= |s|
    ensures r.Some? ==> p < r.value.end <= |s|
    ensures r.Some? ==> r.value.quoting != Brackets && Renders(s, p, r.value)
  {
    var bt := QuotedAt(s, p, Backticks);
    if bt.Some? then QuotedRenders(s, p, Backticks); bt
    else
      var dq := QuotedAt(s, p, DoubleQuotes);
      if dq.Some? then QuotedRenders(s, p, DoubleQuotes); dq
      else if BareAt(s, p).Some? then BareRenders(s, p); BareAt(s, p)
      else None
  }

  /** `` `[^`]+`|"[^"]+"|\[[^\]]+\]|\w+ ``: a segment of a qualified table name. */
  function SegmentAt(s: string, p: nat): (r: Option<Segment>)
    requires p <= |s|
    ensures r.Some? ==> p < r.value.end <= |s|
    ensures r.Some? ==> Renders(s, p, r.value)
  {
    var bt := QuotedAt(s, p, Backticks);
    if bt.Some? then QuotedRenders(s, p, Backticks); bt
    else
      var dq := QuotedAt(s, p, DoubleQuotes);
      if dq.Some? then QuotedRenders(s, p, DoubleQuotes); dq
      else
        var sq := QuotedAt(s, p, Brackets);
        if sq.Some? then QuotedRenders(s, p, Brackets); sq
        else if BareAt(s, p).Some? then BareRenders(s, p); BareAt(s, p)
        else None
  }

  /** Whatever identifier is written at `p`, the scanner reads exactly that identifier. */
  lemma SegmentAtReads(s: string, p: nat, g: Segment)
    requires Renders(s, p, g)
    ensures SegmentAt(s, p) == Some(g)
    ensures g.quoting != Brackets ==> NameAt(s, p) == Some(g)
  {
    if g.quoting == Bare {
      assert s[p] == s[p..g.end][0] == g.text[0];
      BareRun(s, p, g);
      assert QuotedAt(s, p, Backticks).None? && QuotedAt(s, p, DoubleQuotes).None?;
      assert QuotedAt(s, p, Brackets).None?;
    } else {
      QuotedReads(s, p, g);
      if g.quoting != Backticks {
        assert QuotedAt(s, p, Backticks).None?;
      }
      if g.quoting == Brackets {
        assert QuotedAt(s, p, DoubleQuotes).None?;
      }
    }
  }

  /** A quoted identifier written at `p` is read by the scanner for its quoting. */
  lemma QuotedReads(s: string, p: nat, g: Segment)
    requires Renders(s, p, g) && g.quoting != Bare
    ensures s[p] == Opening(g.quoting)
    ensures QuotedAt(s, p, g.quoting) == Some(g)
  {
    var w := Quote(g.quoting, g.text);
    var o, c := Opening(g.quoting), Closing(g.quoting);
    assert s[p..g.end] == w == [o] + g.text + [c];
    assert s[p] == o;
    assert s[g.end - 1] == c;
    forall i | p + 1 <= i < g.end - 1 ensures s[i] == g.text[i - (p + 1)] != c {
    }
    assert s[p + 1..g.end - 1] == g.text;
    QuotedExact(s, p, g.quoting, g.end - 1);
  }

  /** An opening delimiter at `p` whose first closing one is at `e > p + 1` delimits `s[p + 1..e]`. */
  lemma QuotedExact(s: string, p: nat, q: Quoting, e: nat)
    requires q != Bare && p + 1 < e < |s|
    requires s[p] == Opening(q) && s[e] == Closing(q)
    requires forall i | p + 1 <= i < e :: s[i] != Closing(q)
    ensures QuotedAt(s, p, q) == Some(Segment(q, s[p + 1..e], e + 1))
  {
    assert s[p + 1..][e - (p + 1)] == Closing(q);
    RunEndExact(s, p + 1, e, x => x != Closing(q));
  }

  lemma BareRun(s: string, p: nat, g: Segment)
    requires Renders(s, p, g) && g.quoting == Bare
    ensures RunEnd(s, p, IsWord) == g.end
  {
    forall i | p <= i < g.end ensures IsWord(s[i]) {
      assert s[i] == g.text[i - p];
    }
    RunEndExact(s, p, g.end, IsWord);
  }

  // ---------------------------------------------------------------------
  // `\(([^)]+)\)`
  // ---------------------------------------------------------------------

  /** A parenthesised group: its content and the index just past `)`. */
  datatype Group = Group(content: string, end: nat)

  /** `\(([^)]+)\)` at `o`: a `(`, a non-empty run without `)`, then `)`. */
  function GroupAt(s: string, o: nat): (r: Option<Group>)
    requires o <= |s|
    ensures r.Some? <==> o + 1 < |s| && s[o] == '(' && s[o + 1] != ')' && ')' in s[o + 1..]
    ensures r.Some? ==> o + 3 <= r.value.end <= |s| && s[r.value.end - 1] == ')'
    ensures r.Some? ==> r.value.content == s[o + 1..r.value.end - 1]
    ensures r.Some? ==> r.value.content != [] && ')' !in r.value.content
  {
    match QuotedAtParen(s, o)
    case None => None
    case Some(e) => Some(Group(s[o + 1..e], e + 1))
  }

  /** The index of the `)` that closes a `\(([^)]+)\)` group opened at `o`. */
  function QuotedAtParen(s: string, o: nat): (r: Option<nat>)
    requires o <= |s|
    ensures r.Some? <==> o + 1 < |s| && s[o] == '(' && s[o + 1] != ')' && ')' in s[o + 1..]
    ensures r.Some? ==> o + 1 < r.value < |s| && s[r.value] == ')'
    ensures r.Some? ==> ')' !in s[o + 1..r.value]
  {
    if o + 1 < |s| && s[o] == '(' then
      var e := RunEnd(s, o + 1, c => c != ')');
      assert ')' in s[o + 1..] <==> e < |s| by {
        if e < |s| { assert s[o + 1..][e - (o + 1)] == ')'; }
        if ')' in s[o + 1..] {
          var k :| 0 <= k < |s[o + 1..]| && s[o + 1..][k] == ')';
          assert s[o + 1 + k] == ')';
        }
      }
      if e > o + 1 && e < |s| then Some(e) else None
    else
      None
  }

  // ---------------------------------------------------------------------
  // Keywords
  // ---------------------------------------------------------------------

  /** `first\s+key` at `p` (case-insensitive): the index just past `key`. */
  function KeyPhraseEnd(s: string, p: nat, first: string): (r: Option<nat>)
    ensures r.Some? ==> p + |first| + 3 < r.value <= |s|
    ensures r.Some? ==> KeywordAt(s, p, first) && KeywordAt(s, r.value - 3, "key")
    ensures r.Some? ==> Every(s[p + |first|..r.value - 3], IsSpace)
  {
    if KeywordAt(s, p, first) then
      var q := RunEnd(s, p + |first|, IsSpace);
      if q > p + |first| && KeywordAt(s, q, "key") then Some(q + 3) else None
    else
      None
  }

  /** `(?:or\s+replace\s+)?` at `p`: the index after it when present, else `p`. */
  function OrReplaceEnd(s: string, p: nat): (r: nat)
    ensures r != p ==> KeywordAt(s, p, "or") && p + 11 <= r <= |s| && IsSpace(s[r - 1])
    ensures r != p ==> r == |s| || !IsSpace(s[r])
  {
    if KeywordAt(s, p, "or") then
      var a := RunEnd(s, p + 2, IsSpace);
      if a > p + 2 && KeywordAt(s, a, "replace") then
        var b := RunEnd(s, a + 7, IsSpace);
        if b > a + 7 then b else p
      else p
    else p
  }

  /**
   * `(?i)^(constraint|primary\s+key|foreign\s+key|unique|check)\b`:
   * the definition starts with a constraint keyword as a whole word.
   */
  predicate ConstraintLed(d: string) {
    || (KeywordAt(d, 0, "constraint") && WordBoundary(d, 10))
    || (var k := KeyPhraseEnd(d, 0, "primary"); k.Some? && WordBoundary(d, k.value))
    || (var k := KeyPhraseEnd(d, 0, "foreign"); k.Some? && WordBoundary(d, k.value))
    || (KeywordAt(d, 0, "unique") && WordBoundary(d, 6))
    || (KeywordAt(d, 0, "check") && WordBoundary(d, 5))
  }

  // ---------------------------------------------------------------------
  // Qualified table names
  // ---------------------------------------------------------------------

  /** Database, schema and table of a header; all absent when no header was found. */
  datatype TableId = TableId(database: Option<string>, schema: Option<string>, table: Option<string>)

  const NoTableId := TableId(None, None, None)

  /**
   * `(?:prefix)?(?:prefix)?last`: two optional `name.` slots, each tried
   * before being skipped, then the table name.  `Prefix` reads one `name.`
   * slot and `Last` the table name.
   */
  function FillSlots(s: string, q: nat, Prefix: (string, nat) -> Option<Segment>,
                     Last: (string, nat) -> Option<string>): (r: Option<TableId>)
    ensures r.Some? ==> r.value.table.Some?
    ensures r.Some? && r.value.schema.Some? ==> r.value.database.Some?
  {
    var viaDatabase :=
      match Prefix(s, q)
      case Some(db) => SchemaThenTable(s, db.end, Some(db.text), Prefix, Last)
      case None => None;
    if viaDatabase.Some? then viaDatabase
    else
      SchemaThenTable(s, q, None, Prefix, Last)
  }

  /** The schema slot (tried, then skipped) and the table name after `q`. */
  function SchemaThenTable(s: string, q: nat, db: Option<string>, Prefix: (string, nat) -> Option<Segment>,
                           Last: (string, nat) -> Option<string>): (r: Option<TableId>)
    ensures r.Some? ==> r.value.database == db && r.value.table.Some?
    ensures r.None? <==> Last(s, q).None? && (Prefix(s, q).None? || Last(s, Prefix(s, q).value.end).None?)
    ensures r.Some? && r.value.schema.None? ==> r.value.table == Last(s, q)
  {
    var viaSchema :=
      match Prefix(s, q)
      case Some(sc) =>
        (match Last(s, sc.end)
         case Some(t) => Some(TableId(db, Some(sc.text), Some(t)))
         case None => None)
      case None => None;
    if viaSchema.Some? then viaSchema
    else
      match Last(s, q)
      case Some(t) => Some(TableId(db, None, Some(t)))
      case None => None
  }

  /** Both optional slots filled: `a.b.t`. */
  lemma SlotsThree(s: string, q: nat, Prefix: (string, nat) -> Option<Segment>,
                   Last: (string, nat) -> Option<string>, a: Segment, b: Segment, t: string)
    requires Prefix(s, q) == Some(a) && Prefix(s, a.end) == Some(b) && Last(s, b.end) == Some(t)
    ensures FillSlots(s, q, Prefix, Last) == Some(TableId(Some(a.text), Some(b.text), Some(t)))
  {
  }

  /** Only the first slot filled: `a.t` gives a database and no schema. */
  lemma SlotsTwo(s: string, q: nat, Prefix: (string, nat) -> Option<Segment>,
                 Last: (string, nat) -> Option<string>, a: Segment, t: string)
    requires Prefix(s, q) == Some(a) && Prefix(s, a.end).None? && Last(s, a.end) == Some(t)
    ensures FillSlots(s, q, Prefix, Last) == Some(TableId(Some(a.text), None, Some(t)))
  {
  }

  /** No slot filled: a lone table name. */
  lemma SlotsOne(s: string, q: nat, Prefix: (string, nat) -> Option<Segment>,
                 Last: (string, nat) -> Option<string>, t: string)
    requires Prefix(s, q).None? && Last(s, q) == Some(t)
    ensures FillSlots(s, q, Prefix, Last) == Some(TableId(None, None, Some(t)))
  {
  }

  // ---------------------------------------------------------------------
  // Per-definition collection
  // ---------------------------------------------------------------------

  /**
   * The list a loop over `defs` builds by appending what `f` gives for each
   * definition, in order.
   */
  function Collect<T>(defs: seq<string>, f: string -> seq<T>): (r: seq<T>)
  {
    if defs == [] then [] else Collect(defs[..|defs| - 1], f) + f(defs[|defs| - 1])
  }

  /** Collecting over consecutive blocks concatenates the results, in order. */
  lemma {:induction false} CollectAppend<T>(a: seq<string>, b: seq<string>, f: string -> seq<T>)
    ensures Collect(a + b, f) == Collect(a, f) + Collect(b, f)
    decreases |b|
  {
    if b == [] {
      assert a + b == a;
    } else {
      var n := |b| - 1;
      assert (a + b)[..|a + b| - 1] == a + b[..n];
      CollectAppend(a, b[..n], f);
    }
  }

  /** An item is collected iff some definition gives it. */
  lemma {:induction false} CollectMember<T>(defs: seq<string>, f: string -> seq<T>, x: T)
    ensures x in Collect(defs, f) <==> exists i | 0 <= i < |defs| :: x in f(defs[i])
  {
    if defs != [] {
      var n := |defs| - 1;
      CollectMember(defs[..n], f, x);
      if x in Collect(defs, f) && x !in f(defs[n]) {
        var i :| 0 <= i < n && x in f(defs[..n][i]);
        assert defs[..n][i] == defs[i];
      }
      if exists i | 0 <= i < |defs| :: x in f(defs[i]) {
        var i :| 0 <= i < |defs| && x in f(defs[i]);
        if i < n { assert defs[..n][i] == defs[i]; }
      }
    }
  }

  /** One step of the loop: collecting one more definition appends what it gives. */
  lemma CollectStep<T>(defs: seq<string>, i: nat, f: string -> seq<T>)
    requires i < |defs|
    ensures Collect(defs[..i + 1], f) == Collect(defs[..i], f) + f(defs[i])
  {
    assert defs[..i + 1][..i] == defs[..i];
  }

  /** `[x]` for a present value, `[]` for an absent one. */
  function AsList<T>(x: Option<T>): (r: seq<T>)
    ensures x.None? ==> r == []
    ensures x.Some? ==> r == [x.value]
  {
    match x case Some(v) => [v] case None => []
  }

  // ---------------------------------------------------------------------
  // Generic leftmost search (`re.search`)
  // ---------------------------------------------------------------------

  /**
   * The leftmost position at or after `p` where `At` matches, with its
   * result: what `re.search` returns for a pattern whose match at one start
   * position is decided by `At`.
   */
  function FirstMatch<T>(s: string, p: nat, At: (string, nat) -> Option<T>): (r: Option<(nat, T)>)
    ensures r.Some? ==> p <= r.value.0 <= |s| && At(s, r.value.0) == Some(r.value.1)
    ensures r.Some? ==> forall k | p <= k < r.value.0 :: At(s, k).None?
    ensures r.None? ==> forall k | p <= k <= |s| :: At(s, k).None?
    decreases |s| + 1 - p
  {
    if p > |s| then None
    else match At(s, p)
      case Some(v) => Some((p, v))
      case None => FirstMatch(s, p + 1, At)
  }

  // ---------------------------------------------------------------------
  // The column block and its split
  // ---------------------------------------------------------------------

  /**
   * `re.search(r"\((.*)\)", ddl, re.DOTALL)`: the text between the first `(`
   * and the last `)` of the whole input, or "" when no `)` follows the first `(`.
   */
  function ColumnsBlock(s: string): (r: string)
    ensures (exists i, j | 0 <= i < j < |s| :: s[i] == '(' && s[j] == ')') ==>
              exists i, j | 0 <= i < j < |s| ::
                && s[i] == '(' && (forall k | 0 <= k < i :: s[k] != '(')
                && s[j] == ')' && (forall k | j < k < |s| :: s[k] != ')')
                && r == s[i + 1..j]
    ensures !(exists i, j | 0 <= i < j < |s| :: s[i] == '(' && s[j] == ')') ==> r == ""
  {
    match (IndexFrom(s, 0, '('), LastIndex(s, ')'))
    case (Some(i), Some(j)) =>
      if i < j then s[i + 1..j]
      else
        assert forall a, b | 0 <= a < b < |s| && s[a] == '(' :: s[b] != ')' by {
          forall a, b | 0 <= a < b < |s| && s[a] == '(' ensures s[b] != ')' {
            assert i <= a;
          }
        }
        ""
    case _ => ""
  }

  /** The body between a header without `(` and a trailer without `)` is the column block. */
  lemma ColumnsBlockOfStatement(head: string, body: string, tail: string)
    requires '(' !in head && ')' !in tail
    ensures ColumnsBlock(head + "(" + body + ")" + tail) == body
  {
    var s := head + "(" + body + ")" + tail;
    var i, j := |head|, |head| + 1 + |body|;
    assert s[i] == '(' && s[j] == ')';
    assert forall k | 0 <= k < i :: s[k] == head[k];
    assert forall k | j < k < |s| :: s[k] == tail[k - j - 1];
    assert IndexFrom(s, 0, '(') == Some(i);
    assert LastIndex(s, ')') == Some(j);
    assert s[i + 1..j] == body;
  }

  /** The first `(` or `)` at or after `p`, if any. */
  function NextParen(s: string, p: nat): (r: Option<char>)
    requires p <= |s|
    ensures r.Some? ==> IsParen(r.value)
    ensures r.Some? ==> exists k | p <= k < |s| :: s[k] == r.value && forall m | p <= m < k :: !IsParen(s[m])
    ensures r.None? ==> forall k | p <= k < |s| :: !IsParen(s[k])
  {
    var k := RunEnd(s, p, c => !IsParen(c));
    if k == |s| then None else Some(s[k])
  }

  /**
   * `,(?![^()]*\))`: a comma splits the block unless the next parenthesis
   * character after it is `)`.
   */
  predicate IsSeparator(s: string, k: nat) {
    k < |s| && s[k] == ',' && NextParen(s, k + 1) != Some(')')
  }

  /** The number of separators at or after `p`. */
  function SeparatorCount(s: string, p: nat): nat
    requires p <= |s|
    decreases |s| - p
  {
    if p == |s| then 0 else (if IsSeparator(s, p) then 1 else 0) + SeparatorCount(s, p + 1)
  }

  /** The first separator at or after `p`, or `|s|`. */
  function NextSeparator(s: string, p: nat): (k: nat)
    requires p <= |s|
    ensures p <= k <= |s|
    ensures k < |s| ==> IsSeparator(s, k)
    ensures forall m | p <= m < k :: !IsSeparator(s, m)
    ensures SeparatorCount(s, p) == SeparatorCount(s, k)
    decreases |s| - p
  {
    if p == |s| || IsSeparator(s, p) then p else NextSeparator(s, p + 1)
  }

  /**
   * `re.split(r",(?![^()]*\))", s[p..])`: the raw pieces between separators.
   * The count, the join and the breaks together fix the split: the pieces
   * break at the separators of `s` and nowhere else, so the comma of
   * `DECIMAL(10,2)` stays inside its piece.
   */
  function SplitFrom(s: string, p: nat): (r: seq<string>)
    requires p <= |s|
    ensures |r| == SeparatorCount(s, p) + 1
    ensures Join(r, ',') == s[p..]
    ensures BreaksAtSeparators(s, p, r)
    decreases |s| - p
  {
    var k := NextSeparator(s, p);
    if k == |s| then
      [s[p..]]
    else
      var rest := SplitFrom(s, k + 1);
      SplitFromStep(s, p, k, rest);
      [s[p..k]] + rest
  }

  /** The piece before the separator at `k`, put ahead of the split after it, splits `s[p..]`. */
  lemma SplitFromStep(s: string, p: nat, k: nat, rest: seq<string>)
    requires p <= k < |s| && IsSeparator(s, k) && SeparatorCount(s, p) == SeparatorCount(s, k)
    requires |rest| == SeparatorCount(s, k + 1) + 1 && Join(rest, ',') == s[k + 1..]
    requires BreaksAtSeparators(s, k + 1, rest)
    ensures |[s[p..k]] + rest| == SeparatorCount(s, p) + 1
    ensures Join([s[p..k]] + rest, ',') == s[p..]
    ensures BreaksAtSeparators(s, p, [s[p..k]] + rest)
  {
    assert s[p..] == s[p..k] + [','] + s[k + 1..];
    DropCons(s[p..k], rest);
    SplitPointsStep(s, p, k, rest, [s[p..k]] + rest);
  }

  /**
   * The offset, in the comma join of `r`, just past piece `i`: where the
   * separator after that piece sits.
   */
  function PieceEnd(r: seq<string>, i: nat): nat
    requires i < |r|
  {
    if i == 0 then |r[0]| else |r[0]| + 1 + PieceEnd(r[1..], i - 1)
  }

  /**
   * Read as pieces of `s[p..]`, `r` breaks only at separators: the comma
   * after each piece but the last is a separator of `s`.
   */
  predicate BreaksAtSeparators(s: string, p: nat, r: seq<string>) {
    forall i | 0 <= i < |r| - 1 :: IsSeparator(s, p + PieceEnd(r, i))
  }

  /** Dropping the head of a one-piece prefix gives back the rest. */
  lemma DropCons(x: string, rest: seq<string>)
    ensures ([x] + rest)[1..] == rest
  {
  }

  /**
   * Putting the piece before the separator at `k` in front of the pieces
   * after it keeps every piece boundary on a separator.
   */
  lemma SplitPointsStep(s: string, p: nat, k: nat, rest: seq<string>, r: seq<string>)
    requires p <= k < |s| && IsSeparator(s, k)
    requires |r| == |rest| + 1 && r[0] == s[p..k] && r[1..] == rest
    requires BreaksAtSeparators(s, k + 1, rest)
    ensures BreaksAtSeparators(s, p, r)
  {
    forall i | 0 <= i < |r| - 1 ensures IsSeparator(s, p + PieceEnd(r, i)) {
      if i == 0 {
        assert p + PieceEnd(r, i) == k;
      } else {
        assert p + PieceEnd(r, i) == k + 1 + PieceEnd(rest, i - 1);
      }
    }
  }

  /**
   * With a single separator at `k`, the split gives the text before it and
   * the text after it: in `a,b),c` only the second comma separates, so the
   * pieces are `a,b)` and `c`.
   */
  lemma SplitAtOnlySeparator(s: string, k: nat)
    requires IsSeparator(s, k)
    requires forall m | 0 <= m < |s| && m != k :: !IsSeparator(s, m)
    ensures SplitFrom(s, 0) == [s[..k], s[k + 1..]]
  {
    FirstSeparator(s, 0, k);
    SplitFromCons(s, 0, k);
    FirstSeparator(s, k + 1, |s|);
    SplitFromLast(s, k + 1);
    assert s[0..k] == s[..k];
  }

  /** `NextSeparator` finds `k` when `k` is the first separator at or after `p` (or `|s|` when there is none). */
  lemma FirstSeparator(s: string, p: nat, k: nat)
    requires p <= k <= |s|
    requires k < |s| ==> IsSeparator(s, k)
    requires forall m | p <= m < k :: !IsSeparator(s, m)
    ensures NextSeparator(s, p) == k
  {
  }

  /** Past a separator at `k`, the split is the piece before it followed by the split after it. */
  lemma SplitFromCons(s: string, p: nat, k: nat)
    requires p <= k < |s| && NextSeparator(s, p) == k
    ensures SplitFrom(s, p) == [s[p..k]] + SplitFrom(s, k + 1)
  {
  }

  /** With no separator left, the split is the rest of the text. */
  lemma SplitFromLast(s: string, p: nat)
    requires p <= |s| && NextSeparator(s, p) == |s|
    ensures SplitFrom(s, p) == [s[p..]]
  {
  }

  /**
   * `[p.strip() for p in re.split(r",(?![^()]*\))", block)]`
   * (`split_column_defs`, identical in both extractors).
   */
  function SplitColumnDefs(block: string): (r: seq<string>)
    ensures |r| == SeparatorCount(block, 0) + 1
    ensures forall i | 0 <= i < |r| :: r[i] == Trim(SplitFrom(block, 0)[i])
    ensures SeparatorCount(block, 0) == 0 ==> r == [Trim(block)]
  {
    var raw := SplitFrom(block, 0);
    seq(|raw|, i requires 0 <= i < |raw| => Trim(raw[i]))
  }

  /**
   * The split column definitions of a statement: at least one (an empty
   * block gives one empty definition), each already stripped.
   */
  function Definitions(ddl: string): (r: seq<string>)
    ensures r != []
    ensures forall i | 0 <= i < |r| :: Trim(r[i]) == r[i]
  {
    TrimmedStayTrimmed(SplitFrom(ColumnsBlock(ddl), 0));
    SplitColumnDefs(ColumnsBlock(ddl))
  }

  /** Stripping a stripped piece changes nothing. */
  lemma TrimmedStayTrimmed(pieces: seq<string>)
    ensures forall i | 0 <= i < |pieces| :: Trim(Trim(pieces[i])) == Trim(pieces[i])
  {
    forall i | 0 <= i < |pieces| ensures Trim(Trim(pieces[i])) == Trim(pieces[i]) {
      StripByIdempotent(pieces[i], IsSpace);
    }
  }

  /**
   * A comma inside a group whose `)` comes before any `(` (the comma of
   * `DECIMAL(10,2)`) does not split the block.
   */
  lemma CommaBeforeCloseIsNotSeparator(s: string, k: nat, m: nat)
    requires k < m < |s| && s[k] == ',' && s[m] == ')'
    requires forall i | k < i < m :: !IsParen(s[i])
    ensures !IsSeparator(s, k)
  {
    RunEndExact(s, k + 1, m, c => !IsParen(c));
  }

  /**
   * A comma whose next parenthesis character is `(` splits the block even
   * when it sits inside a group, as in `CHECK (x IN (1, f(2)))`.
   */
  lemma CommaBeforeOpenIsSeparator(s: string, k: nat, m: nat)
    requires k < m < |s| && s[k] == ',' && s[m] == '('
    requires forall i | k < i < m :: !IsParen(s[i])
    ensures IsSeparator(s, k)
  {
    RunEndExact(s, k + 1, m, c => !IsParen(c));
  }

  // ---------------------------------------------------------------------
  // Column definitions
  // ---------------------------------------------------------------------

  /**
   * `_parse_column_name` / `parse_column_name`: nothing for a definition led
   * by a constraint keyword, otherwise the leading name without delimiters.
   */
  function ParseColumnName(d: string): (r: Option<string>)
    ensures ConstraintLed(d) ==> r.None?
    ensures r.Some? ==> exists g: Segment :: g.quoting != Brackets && Renders(d, 0, g) && g.text == r.value
  {
    if ConstraintLed(d) then None
    else match NameAt(d, 0)
      case None => None
      case Some(g) => Some(g.text)
  }

  /** A definition that starts with a name not led by a constraint keyword yields that name. */
  lemma ParseColumnNameReads(d: string, g: Segment)
    requires !ConstraintLed(d) && g.quoting != Brackets && Renders(d, 0, g)
    ensures ParseColumnName(d) == Some(g.text)
  {
    SegmentAtReads(d, 0, g);
  }

  /** `\s+(?P<type>[A-Za-z]+)` after the leading name: the type token. */
  function TypeTokenAt(d: string): (r: Option<Segment>)
    ensures r.Some? ==> |r.value.text| <= r.value.end <= |d| && r.value.text != [] && AllLetters(r.value.text)
    ensures r.Some? ==> r.value.text == d[r.value.end - |r.value.text|..r.value.end]
    ensures r.Some? ==> r.value.end == |d| || !IsLetter(d[r.value.end])
  {
    match NameAt(d, 0)
    case None => None
    case Some(n) =>
      var q := RunEnd(d, n.end, IsSpace);
      var e := RunEnd(d, q, IsLetter);
      if q == n.end || e == q then None
      else
        assert AllLetters(d[q..e]) by {
          assert forall i | 0 <= i < e - q :: d[q..e][i] == d[q + i];
        }
        Some(Segment(Bare, d[q..e], e))
  }

  /** `_parse_datatype` / `parse_datatype`: the letters-only run after the name. */
  function ParseDatatype(d: string): (r: Option<string>)
    ensures r.Some? ==> r.value != [] && AllLetters(r.value)
  {
    match TypeTokenAt(d)
    case None => None
    case Some(t) => Some(t.text)
  }

  predicate IsLengthChar(c: char) {
    IsDigit(c) || c == ','
  }

  /**
   * The length pattern `\s+[A-Za-z]+\(([^)]+)\)` after the name, then
   * `^[\d,]+` on the stripped group content: the leading run of digits and
   * commas, or nothing.
   */
  function ParseLengthText(d: string): (r: Option<string>)
    ensures r.Some? ==> r.value != [] && forall i | 0 <= i < |r.value| :: IsLengthChar(r.value[i])
    ensures r.Some? ==> ParseDatatype(d).Some?
  {
    match TypeTokenAt(d)
    case None => None
    case Some(t) =>
      match GroupAt(d, t.end)
      case None => None
      case Some(g) => LeadingLength(g.content)
  }

  /** `re.match(r"^[\d,]+", content.strip())`: the leading digit-and-comma run, if any. */
  function LeadingLength(content: string): (r: Option<string>)
    ensures r.Some? ==> r.value != [] && forall i | 0 <= i < |r.value| :: IsLengthChar(r.value[i])
  {
    var c := Trim(content);
    var k := RunEnd(c, 0, IsLengthChar);
    if k == 0 then None else Some(c[..k])
  }

  /**
   * After a name read at 0 and a run of spaces, the type is the whole letter
   * run that follows and nothing after it (`DATETIME2(3)` gives DATETIME).
   */
  lemma TypeTokenReads(d: string, g: Segment, q: nat, e: nat)
    requires g.quoting != Brackets && Renders(d, 0, g)
    requires g.end < q < e <= |d|
    requires forall i | g.end <= i < q :: IsSpace(d[i])
    requires forall i | q <= i < e :: IsLetter(d[i])
    requires e == |d| || !IsLetter(d[e])
    ensures TypeTokenAt(d) == Some(Segment(Bare, d[q..e], e))
    ensures ParseDatatype(d) == Some(d[q..e])
    ensures ParseLengthText(d).Some? ==> e < |d| && d[e] == '('
  {
    SegmentAtReads(d, 0, g);
    RunEndExact(d, g.end, q, IsSpace);
    RunEndExact(d, q, e, IsLetter);
  }

  /** Stripping spaces from a text that starts with a non-space run keeps that run in front. */
  lemma TrimKeepsLead(x: string, k: nat)
    requires 0 < k <= |x| && forall i | 0 <= i < k :: !IsSpace(x[i])
    ensures k <= |Trim(x)| && Trim(x)[..k] == x[..k]
    ensures k < |Trim(x)| ==> Trim(x)[k] == x[k]
  {
    assert RunEnd(x, 0, IsSpace) == 0;
    StripByShape(x, IsSpace);
    var r := Trim(x);
    assert r == x[0..|r|];
    assert !IsSpace(x[k - 1]);
  }

  /** A group that opens at `o` and first closes at `j` captures `s[o + 1..j]`. */
  lemma GroupReads(s: string, o: nat, j: nat)
    requires o + 1 < j < |s| && s[o] == '(' && s[j] == ')'
    requires forall i | o < i < j :: s[i] != ')'
    ensures GroupAt(s, o) == Some(Group(s[o + 1..j], j + 1))
  {
    assert s[o + 1..][j - (o + 1)] == ')';
    var e := QuotedAtParen(s, o).value;
    assert e == j;
  }

  /** The leading digit-and-comma run of the stripped text, when the text starts with it. */
  lemma LeadingLengthRun(x: string, k: nat)
    requires 0 < k <= |x|
    requires forall i | 0 <= i < k :: IsLengthChar(x[i])
    requires k == |x| || !IsLengthChar(x[k])
    ensures LeadingLength(x) == Some(x[..k])
  {
    TrimKeepsLead(x, k);
    var c := Trim(x);
    assert forall i | 0 <= i < k :: c[i] == c[..k][i];
    RunEndExact(c, 0, k, IsLengthChar);
  }

  /**
   * When `(` follows the type letters at `e` and the group closes at `j`, the
   * length is the leading digit-and-comma run `d[e + 1..k]` of the group
   * (`VARCHAR(255 char)` gives "255", `DECIMAL(10,2)` gives "10,2").
   */
  lemma LengthReads(d: string, e: nat, j: nat, k: nat)
    requires TypeTokenAt(d).Some? && TypeTokenAt(d).value.end == e
    requires e + 1 < k <= j < |d| && d[e] == '(' && d[j] == ')'
    requires forall i | e < i < j :: d[i] != ')'
    requires forall i | e < i < k :: IsLengthChar(d[i])
    requires k == j || !IsLengthChar(d[k])
    ensures ParseLengthText(d) == Some(d[e + 1..k])
  {
    GroupReads(d, e, j);
    GroupLength(d, e, j, k);
  }

  /**
   * What `^[\d,]+` finds in the stripped content: nothing exactly when the
   * stripped content is empty or starts with anything but a digit or a comma
   * (`MAX`, `char 10`), and otherwise the longest such prefix.
   */
  lemma LeadingLengthSpec(content: string)
    ensures var c := Trim(content); var r := LeadingLength(content);
      && (r.None? <==> c == [] || !IsLengthChar(c[0]))
      && (r.Some? ==> r.value <= c && (|r.value| == |c| || !IsLengthChar(c[|r.value|])))
  {
    var c := Trim(content);
    var k := RunEnd(c, 0, IsLengthChar);
    if k > 0 {
      assert c[..k] <= c;
    }
  }

  /**
   * When `(` follows the type letters at `e` and the group closes at the
   * first `)` after it, the length is what `^[\d,]+` finds in the group
   * content once stripped, so spaces inside the parentheses do not matter.
   */
  lemma LengthOfGroup(d: string, e: nat, j: nat)
    requires TypeTokenAt(d).Some? && TypeTokenAt(d).value.end == e
    requires e + 1 < j < |d| && d[e] == '(' && d[j] == ')'
    requires forall i | e < i < j :: d[i] != ')'
    ensures ParseLengthText(d) == LeadingLength(d[e + 1..j])
  {
    GroupReads(d, e, j);
  }

  /**
   * A group whose stripped content does not start with a digit or a comma
   * (`VARCHAR(MAX)`, `CHAR( )`) gives no length.
   */
  lemma NoLeadingDigitsNoLength(d: string, e: nat, j: nat)
    requires TypeTokenAt(d).Some? && TypeTokenAt(d).value.end == e
    requires e + 1 < j < |d| && d[e] == '(' && d[j] == ')'
    requires forall i | e < i < j :: d[i] != ')'
    requires var c := Trim(d[e + 1..j]); c == [] || !IsLengthChar(c[0])
    ensures ParseLengthText(d) == None
  {
    LengthOfGroup(d, e, j);
    LeadingLengthSpec(d[e + 1..j]);
  }

  lemma GroupLength(d: string, e: nat, j: nat, k: nat)
    requires e + 1 < k <= j < |d|
    requires forall i | e < i < k :: IsLengthChar(d[i])
    requires k == j || !IsLengthChar(d[k])
    ensures LeadingLength(d[e + 1..j]) == Some(d[e + 1..k])
  {
    var x := d[e + 1..j];
    assert forall i | 0 <= i < |x| :: x[i] == d[e + 1 + i];
    LeadingLengthRun(x, k - (e + 1));
    assert x[..k - (e + 1)] == d[e + 1..k];
  }

  // ---------------------------------------------------------------------
  // FOREIGN KEY
  // ---------------------------------------------------------------------

  /** The three groups of the foreign-key pattern, as captured. */
  datatype ForeignKeyClause = ForeignKeyClause(locals: string, refTable: string, refs: string)

  /** One entry of the foreign-key list. */
  datatype ForeignKey = ForeignKey(column: string, refTable: string, refColumn: string)

  /**
   * `foreign\s+key\s*\(([^)]+)\)\s+references\s+([^\s(]+)\s*\(([^)]+)\)`
   * matched at `p` (case-insensitive).  The optional `constraint\s+\w+\s+`
   * prefix of the source pattern only moves where the match starts, never
   * what the groups capture, so the scan starts at `foreign`.
   */
  function ForeignKeyAt(d: string, p: nat): (r: Option<ForeignKeyClause>)
    ensures r.Some? ==> r.value.locals != [] && r.value.refs != [] && r.value.refTable != []
    ensures r.Some? ==> ')' !in r.value.locals && ')' !in r.value.refs
    ensures r.Some? ==> Every(r.value.refTable, IsRefTableChar)
  {
    match KeyPhraseEnd(d, p, "foreign")
    case None => None
    case Some(k) =>
      match GroupAt(d, RunEnd(d, k, IsSpace))
      case None => None
      case Some(g1) =>
        match ReferencesAt(d, g1.end)
        case None => None
        case Some(ref) =>
          match GroupAt(d, ref.next)
          case None => None
          case Some(g2) => Some(ForeignKeyClause(g1.content, ref.table, g2.content))
  }

  /** `[^\s(]` */
  predicate IsRefTableChar(c: char) {
    !IsSpace(c) && c != '('
  }

  /**
   * The referenced table as `([^\s(]+)` captures it: the text `d[start..end]`,
   * and `next`, the index after the spaces that follow it.
   */
  datatype Reference = Reference(table: string, start: nat, end: nat, next: nat)

  /**
   * `\s+references\s+([^\s(]+)\s*` at `p`.  The table is the whole run of
   * characters that are neither spaces nor `(`: a space stands before it and
   * no table character after it, so dots and quotes inside the name
   * (`warehouse.staging.roles`) are kept.
   */
  function ReferencesAt(d: string, p: nat): (r: Option<Reference>)
    ensures r.Some? ==> p + 11 < r.value.start < r.value.end <= r.value.next <= |d|
    ensures r.Some? ==> r.value.table == d[r.value.start..r.value.end]
    ensures r.Some? ==> IsSpace(d[r.value.start - 1])
    ensures r.Some? ==> Every(r.value.table, IsRefTableChar)
    ensures r.Some? ==> r.value.end == |d| || !IsRefTableChar(d[r.value.end])
    ensures r.Some? ==> Every(d[r.value.end..r.value.next], IsSpace)
    ensures r.Some? ==> r.value.next == |d| || !IsSpace(d[r.value.next])
  {
    if p > |d| then None
    else
      var r1 := RunEnd(d, p, IsSpace);
      if r1 == p || !KeywordAt(d, r1, "references") then None
      else
        var r2 := RunEnd(d, r1 + 10, IsSpace);
        var t := RunEnd(d, r2, IsRefTableChar);
        if r2 == r1 + 10 || t == r2 then None
        else
          assert !IsSpace(d[r2]);
          Some(Reference(d[r2..t], r2, t, RunEnd(d, t, IsSpace)))
  }

  /**
   * With spaces from `p` to `r1`, `references` at `r1`, spaces up to `r2`
   * and the table run from `r2` to `t`, the captured table is `d[r2..t]`.
   */
  lemma ReferencesReads(d: string, p: nat, r1: nat, r2: nat, t: nat)
    requires p < r1 <= |d| && forall i | p <= i < r1 :: IsSpace(d[i])
    requires KeywordAt(d, r1, "references")
    requires r1 + 10 < r2 <= |d| && forall i | r1 + 10 <= i < r2 :: IsSpace(d[i])
    requires r2 < t <= |d| && forall i | r2 <= i < t :: IsRefTableChar(d[i])
    requires t == |d| || !IsRefTableChar(d[t])
    ensures ReferencesAt(d, p) == Some(Reference(d[r2..t], r2, t, RunEnd(d, t, IsSpace)))
  {
    assert LowerChar(d[r1 + 0]) == "references"[0];
    RunEndExact(d, p, r1, IsSpace);
    RunEndExact(d, r1 + 10, r2, IsSpace);
    RunEndExact(d, r2, t, IsRefTableChar);
  }

  /** `first`, spaces up to `q` and `key` at `q` end the phrase at `q + 3`. */
  lemma KeyPhraseReads(d: string, p: nat, first: string, q: nat)
    requires KeywordAt(d, p, first)
    requires p + |first| < q <= |d| && forall i | p + |first| <= i < q :: IsSpace(d[i])
    requires KeywordAt(d, q, "key")
    ensures KeyPhraseEnd(d, p, first) == Some(q + 3)
  {
    assert LowerChar(d[q + 0]) == "key"[0];
    RunEndExact(d, p + |first|, q, IsSpace);
  }

  /**
   * `foreign\s+key\s*\(([^)]+)\)` laid out in `d`: `foreign` at `p`, spaces,
   * `key` at `q`, spaces, then a group opening at `o` and closing at `j`.
   */
  predicate ForeignKeyHead(d: string, p: nat, q: nat, o: nat, j: nat) {
    && KeywordAt(d, p, "foreign")
    && p + 7 < q <= |d| && Every(d[p + 7..q], IsSpace)
    && KeywordAt(d, q, "key")
    && q + 3 <= o < |d| && Every(d[q + 3..o], IsSpace)
    && o + 1 < j < |d| && d[o] == '(' && d[j] == ')' && ')' !in d[o + 1..j]
  }

  /**
   * `\s+references\s+([^\s(]+)\s*\(([^)]+)\)` laid out in `d` after the
   * group that closes at `j`: spaces, `references` at `r1`, spaces, the
   * table run `r2..t`, spaces, then a group opening at `o2` and closing at `j2`.
   */
  predicate ReferencesTail(d: string, j: nat, r1: nat, r2: nat, t: nat, o2: nat, j2: nat) {
    && j + 1 < r1 <= |d| && Every(d[j + 1..r1], IsSpace)
    && KeywordAt(d, r1, "references")
    && r1 + 10 < r2 < t <= o2 < |d| && Every(d[r1 + 10..r2], IsSpace)
    && Every(d[r2..t], IsRefTableChar) && Every(d[t..o2], IsSpace)
    && o2 + 1 < j2 < |d| && d[o2] == '(' && d[j2] == ')' && ')' !in d[o2 + 1..j2]
  }

  /**
   * A clause `foreign key (L) references T (R)` laid out at these positions
   * captures exactly `L`, `T` and `R`.
   */
  lemma ForeignKeyClauseReads(d: string, p: nat, q: nat, o: nat, j: nat, r1: nat, r2: nat, t: nat, o2: nat, j2: nat)
    requires ForeignKeyHead(d, p, q, o, j) && ReferencesTail(d, j, r1, r2, t, o2, j2)
    ensures ForeignKeyAt(d, p) == Some(ForeignKeyClause(d[o + 1..j], d[r2..t], d[o2 + 1..j2]))
  {
    var g1 := ForeignKeyFront(d, p, q, o, j);
    var ref := ForeignKeyBack(d, j, r1, r2, t, o2, j2);
    var g2 := ReferencedGroup(d, j, r1, r2, t, o2, j2);
    ForeignKeyAtOf(d, p, q, o, j, o2, g1, ref, g2);
    assert ForeignKeyClause(g1.content, ref.table, g2.content) == ForeignKeyClause(d[o + 1..j], d[r2..t], d[o2 + 1..j2]);
  }

  /** The head laid out at these positions: what the scanners of `foreign key (L)` read. */
  lemma ForeignKeyFront(d: string, p: nat, q: nat, o: nat, j: nat) returns (g1: Group)
    requires ForeignKeyHead(d, p, q, o, j)
    ensures KeyPhraseEnd(d, p, "foreign") == Some(q + 3)
    ensures RunEnd(d, q + 3, IsSpace) == o
    ensures GroupAt(d, o) == Some(g1)
    ensures g1.end == j + 1 && g1.content == d[o + 1..j]
  {
    assert KeyPhraseEnd(d, p, "foreign") == Some(q + 3) by {
      EveryAt(d, p + 7, q, IsSpace);
      KeyPhraseReads(d, p, "foreign", q);
    }
    assert RunEnd(d, q + 3, IsSpace) == o by {
      EveryAt(d, q + 3, o, IsSpace);
      RunEndExact(d, q + 3, o, IsSpace);
    }
    assert GroupAt(d, o) == Some(Group(d[o + 1..j], j + 1)) by {
      MissingAt(d, o + 1, j, ')');
      GroupReads(d, o, j);
    }
    g1 := Group(d[o + 1..j], j + 1);
  }

  /** The tail laid out at these positions: what the scanner of `references T` reads. */
  lemma ForeignKeyBack(d: string, j: nat, r1: nat, r2: nat, t: nat, o2: nat, j2: nat) returns (ref: Reference)
    requires ReferencesTail(d, j, r1, r2, t, o2, j2)
    ensures ReferencesAt(d, j + 1) == Some(ref) && ref.next == o2 && ref.table == d[r2..t]
  {
    EveryAt(d, j + 1, r1, IsSpace);
    EveryAt(d, r1 + 10, r2, IsSpace);
    EveryAt(d, r2, t, IsRefTableChar);
    EveryAt(d, t, o2, IsSpace);
    assert !IsRefTableChar(d[t]) by {
      if t < o2 { assert IsSpace(d[t]); }
    }
    ReferencesReads(d, j + 1, r1, r2, t);
    RunEndExact(d, t, o2, IsSpace);
    ref := Reference(d[r2..t], r2, t, o2);
  }

  /** The referenced group of a laid-out tail: exactly the text between its parentheses. */
  lemma ReferencedGroup(d: string, j: nat, r1: nat, r2: nat, t: nat, o2: nat, j2: nat) returns (g2: Group)
    requires ReferencesTail(d, j, r1, r2, t, o2, j2)
    ensures GroupAt(d, o2) == Some(g2) && g2.content == d[o2 + 1..j2]
  {
    MissingAt(d, o2 + 1, j2, ')');
    GroupReads(d, o2, j2);
    g2 := Group(d[o2 + 1..j2], j2 + 1);
  }

  /** The clause at `p`, from what each of its scanners reads. */
  lemma ForeignKeyAtOf(d: string, p: nat, q: nat, o: nat, j: nat, o2: nat, g1: Group, ref: Reference, g2: Group)
    requires KeyPhraseEnd(d, p, "foreign") == Some(q + 3) && q + 3 <= |d| && RunEnd(d, q + 3, IsSpace) == o
    requires GroupAt(d, o) == Some(g1) && g1.end == j + 1
    requires ReferencesAt(d, j + 1) == Some(ref) && ref.next == o2
    requires GroupAt(d, o2) == Some(g2)
    ensures ForeignKeyAt(d, p) == Some(ForeignKeyClause(g1.content, ref.table, g2.content))
  {
  }

  /**
   * The entries of a definition whose first foreign-key clause starts at
   * `p`: its local and referenced columns, split at commas and stripped of
   * spaces and quotes, zipped with the stripped and unquoted table, as
   * info_ddl_oop.py:85-98 builds them.
   */
  lemma ForeignKeyReads(d: string, p: nat, q: nat, o: nat, j: nat, r1: nat, r2: nat, t: nat, o2: nat, j2: nat)
    requires forall x | 0 <= x < p :: ForeignKeyAt(d, x).None?
    requires ForeignKeyHead(d, p, q, o, j) && ReferencesTail(d, j, r1, r2, t, o2, j2)
    ensures ForeignKeysOfDef(d) == Zip(ColumnList(d[o + 1..j]), Unquote(Trim(d[r2..t])), ColumnList(d[o2 + 1..j2]))
  {
    ForeignKeyClauseReads(d, p, q, o, j, r1, r2, t, o2, j2);
    var m := FirstMatch(d, 0, ForeignKeyAt);
    assert m.Some? && m.value.0 == p;
  }

  /**
   * A one-column clause `FOREIGN KEY(col) REFERENCES table(col)` gives
   * exactly one entry, with the column on both sides and the table as
   * written: its dots and inner characters are kept.
   */
  lemma ForeignKeyOneColumn(col: string, table: string)
    requires col != [] && Every(col, IsWord)
    requires table != [] && Every(table, IsRefTableChar) && !IsQuote(table[0]) && !IsQuote(table[|table| - 1])
    ensures ForeignKeysOfDef(OneColumnClause(col, table)) == [ForeignKey(col, table, col)]
  {
    OneColumnSlices(col, table);
    OneColumnReads(OneColumnClause(col, table), col, table);
  }

  /** The text of the one-column clause `FOREIGN KEY(col) REFERENCES table(col)`. */
  function OneColumnClause(col: string, table: string): string {
    "FOREIGN KEY(" + col + ") REFERENCES " + table + "(" + col + ")"
  }

  /** `ForeignKeyOneColumn` on any definition laid out as the one-column clause. */
  lemma OneColumnReads(d: string, col: string, table: string)
    requires col != [] && Every(col, IsWord) && OneColumnPieces(d, col, table)
    requires table != [] && Every(table, IsRefTableChar) && !IsQuote(table[0]) && !IsQuote(table[|table| - 1])
    ensures ForeignKeysOfDef(d) == [ForeignKey(col, table, col)]
  {
    var j := 12 + |col|;
    var t := 25 + |col| + |table|;
    OneColumnHead(d, col, table);
    OneColumnTail(d, col, table);
    OneColumnCaptures(d, col, table, j, t);
    OneColumnEntry(col, table);
  }

  /** A word column and an unquoted table zip into one entry, kept as written. */
  lemma OneColumnEntry(col: string, table: string)
    requires col != [] && Every(col, IsWord)
    requires table != [] && Every(table, IsRefTableChar) && !IsQuote(table[0]) && !IsQuote(table[|table| - 1])
    ensures Zip(ColumnList(col), Unquote(Trim(table)), ColumnList(col)) == [ForeignKey(col, table, col)]
  {
    WordIsPlain(col);
    ColumnListJoin([col]);
    StripKeeps(table, IsSpace);
    StripKeeps(table, IsQuote);
  }

  /** The captures of a laid-out one-column clause are its column, its table and its column again. */
  lemma OneColumnCaptures(d: string, col: string, table: string, j: nat, t: nat)
    requires ForeignKeyHead(d, 0, 8, 11, j) && ReferencesTail(d, j, j + 2, j + 13, t, t, t + 1 + |col|)
    requires d[12..j] == col && d[j + 13..t] == table && d[t + 1..t + 1 + |col|] == col
    ensures ForeignKeysOfDef(d) == Zip(ColumnList(col), Unquote(Trim(table)), ColumnList(col))
  {
    ForeignKeyReads(d, 0, 8, 11, j, j + 2, j + 13, t, t, t + 1 + |col|);
  }

  /** The pieces a one-column clause is made of, read back as slices of it. */
  predicate OneColumnPieces(d: string, col: string, table: string) {
    var j := 12 + |col|;
    var t := 25 + |col| + |table|;
    && |d| == t + 2 + |col|
    && d[0..7] == "FOREIGN" && d[7..8] == " " && d[8..11] == "KEY" && d[11] == '('
    && d[12..j] == col && d[j] == ')'
    && d[j + 1..j + 2] == " " && d[j + 2..j + 12] == "REFERENCES" && d[j + 12..j + 13] == " "
    && d[j + 13..t] == table && d[t] == '(' && d[t + 1..t + 1 + |col|] == col && d[t + 1 + |col|] == ')'
  }

  /** The concatenated one-column clause has the pieces it was built from. */
  lemma OneColumnSlices(col: string, table: string)
    ensures OneColumnPieces(OneColumnClause(col, table), col, table)
  {
    OneColumnFront(col, table);
    OneColumnMiddle(col, table);
    OneColumnBack(col, table);
  }

  /** `FOREIGN`, the space, `KEY` and the opening parenthesis of the local group. */
  lemma OneColumnFront(col: string, table: string)
    ensures var d := OneColumnClause(col, table);
      && |d| == 27 + 2 * |col| + |table|
      && d[0..7] == "FOREIGN" && d[7..8] == " " && d[8..11] == "KEY" && d[11] == '('
  {
    var d := OneColumnClause(col, table);
    assert d[0..7] == "FOREIGN";
    assert d[7..8] == " ";
    assert d[8..11] == "KEY";
  }

  /** The local column, its closing parenthesis and the spaced `REFERENCES` keyword. */
  lemma OneColumnMiddle(col: string, table: string)
    ensures var d := OneColumnClause(col, table);
      var j := 12 + |col|;
      && d[12..j] == col && d[j] == ')'
      && d[j + 1..j + 2] == " " && d[j + 2..j + 12] == "REFERENCES" && d[j + 12..j + 13] == " "
  {
    var d := OneColumnClause(col, table);
    var j := 12 + |col|;
    assert d[12..j] == col;
    assert d[j + 1..j + 2] == " ";
    assert d[j + 2..j + 12] == "REFERENCES";
    assert d[j + 12..j + 13] == " ";
  }

  /** The table and the parenthesised referenced column. */
  lemma OneColumnBack(col: string, table: string)
    ensures var d := OneColumnClause(col, table);
      var t := 25 + |col| + |table|;
      && d[t - |table|..t] == table && d[t] == '(' && d[t + 1..t + 1 + |col|] == col && d[t + 1 + |col|] == ')'
  {
    var d := OneColumnClause(col, table);
    var t := 25 + |col| + |table|;
    assert d[t - |table|..t] == table;
    assert d[t + 1..t + 1 + |col|] == col;
  }

  /** Where the keywords and the local group stand in a one-column clause. */
  lemma OneColumnHead(d: string, col: string, table: string)
    requires col != [] && Every(col, IsWord) && OneColumnPieces(d, col, table)
    ensures ForeignKeyHead(d, 0, 8, 11, 12 + |col|)
  {
    assert KeywordAt("FOREIGN", 0, "foreign") && KeywordAt("KEY", 0, "key");
    KeywordOfSlice(d, 0, "FOREIGN", "foreign");
    KeywordOfSlice(d, 8, "KEY", "key");
    EveryAt(col, 0, |col|, IsWord);
  }

  /** Where the `REFERENCES` keyword, the table and the referenced group stand in a one-column clause. */
  lemma OneColumnTail(d: string, col: string, table: string)
    requires col != [] && Every(col, IsWord) && OneColumnPieces(d, col, table)
    requires table != [] && Every(table, IsRefTableChar)
    ensures ReferencesTail(d, 12 + |col|, 14 + |col|, 25 + |col|, 25 + |col| + |table|, 25 + |col| + |table|, 26 + 2 * |col| + |table|)
  {
    var j := 12 + |col|;
    assert KeywordAt("REFERENCES", 0, "references");
    KeywordOfSlice(d, j + 2, "REFERENCES", "references");
    EveryAt(col, 0, |col|, IsWord);
  }

  /**
   * `FOREIGN KEY(role_id) REFERENCES warehouse.staging.roles(role_id)`
   * gives one entry whose table keeps its dots.
   */
  lemma ForeignKeyRoles()
    ensures ForeignKeysOfDef(OneColumnClause("role_id", "warehouse.staging.roles")) == [ForeignKey("role_id", "warehouse.staging.roles", "role_id")]
  {
    ForeignKeyOneColumn("role_id", "warehouse.staging.roles");
  }

  /** `c.strip().strip('`"')` for every comma-separated entry of a captured list. */
  function ColumnList(captured: string): (r: seq<string>)
    ensures |r| == |Split(captured, ',')|
    ensures forall i | 0 <= i < |r| :: r[i] == Unquote(Trim(Split(captured, ',')[i]))
  {
    var parts := Split(captured, ',');
    seq(|parts|, i requires 0 <= i < |parts| => Unquote(Trim(parts[i])))
  }

  /** A list entry the two strips leave as it is: no comma, and no space or quote at either end. */
  predicate PlainEntry(x: string) {
    && ',' !in x
    && (x != [] ==> !IsSpace(x[0]) && !IsSpace(x[|x| - 1]) && !IsQuote(x[0]) && !IsQuote(x[|x| - 1]))
  }

  /** A run of word characters is an entry the strips keep. */
  lemma WordIsPlain(x: string)
    requires Every(x, IsWord)
    ensures PlainEntry(x)
  {
  }

  /** `strip` keeps a string that neither starts nor ends with a stripped character. */
  lemma StripKeeps(x: string, P: char -> bool)
    requires x != [] ==> !P(x[0]) && !P(x[|x| - 1])
    ensures StripBy(x, P) == x
  {
    if x != [] {
      assert RunEnd(x, 0, P) == 0;
      assert RunStart(x, |x|, P) == |x|;
    }
  }

  /** Reading back a comma-joined list of plain entries gives the entries, in order. */
  lemma ColumnListJoin(xs: seq<string>)
    requires |xs| >= 1 && forall i | 0 <= i < |xs| :: PlainEntry(xs[i])
    ensures ColumnList(Join(xs, ',')) == xs
  {
    SplitJoin(xs, ',');
    forall i | 0 <= i < |xs| ensures Unquote(Trim(xs[i])) == xs[i] {
      StripKeeps(xs[i], IsSpace);
      StripKeeps(xs[i], IsQuote);
    }
  }

  /** `zip(local_cols, ref_cols)`, one entry per positional pair. */
  function Zip(locals: seq<string>, refTable: string, refs: seq<string>): (r: seq<ForeignKey>)
    ensures |r| == if |locals| < |refs| then |locals| else |refs|
    ensures forall i | 0 <= i < |r| :: r[i] == ForeignKey(locals[i], refTable, refs[i])
  {
    if locals == [] || refs == [] then []
    else [ForeignKey(locals[0], refTable, refs[0])] + Zip(locals[1..], refTable, refs[1..])
  }

  /** The foreign-key entries one definition contributes (none when the pattern does not match). */
  function ForeignKeysOfDef(d: string): (r: seq<ForeignKey>)
    ensures r != [] <==> exists p | 0 <= p <= |d| :: ForeignKeyAt(d, p).Some?
    ensures forall i | 0 <= i < |r| :: r[i].refTable == r[0].refTable
  {
    match FirstMatch(d, 0, ForeignKeyAt)
    case None => []
    case Some((_, c)) => Zip(ColumnList(c.locals), Unquote(Trim(c.refTable)), ColumnList(c.refs))
  }

  /**
   * A `FOREIGN KEY (...)` clause with no `REFERENCES` keyword anywhere in
   * the definition contributes no entry.
   */
  lemma NoReferencesNoForeignKey(d: string)
    requires forall p | 0 <= p <= |d| :: !KeywordAt(d, p, "references")
    ensures ForeignKeysOfDef(d) == []
  {
    forall p | 0 <= p <= |d| ensures ForeignKeyAt(d, p).None? {
      match KeyPhraseEnd(d, p, "foreign")
      case None =>
      case Some(k) =>
        match GroupAt(d, RunEnd(d, k, IsSpace))
        case None =>
        case Some(g1) =>
          var q := g1.end;
          if q <= |d| {
            var r1 := RunEnd(d, q, IsSpace);
            assert !KeywordAt(d, r1, "references");
          }
          assert ReferencesAt(d, q).None?;
    }
  }

  // ---------------------------------------------------------------------
  // Loops both extractors share
  // ---------------------------------------------------------------------

  /** `for col in columns.split(','): pk_columns.append(col.strip().strip('`"'))` */
  method AppendColumns(acc: seq<string>, columns: string) returns (r: seq<string>)
    ensures r == acc + ColumnList(columns)
  {
    var parts := Split(columns, ',');
    ghost var list := ColumnList(columns);
    assert |list| == |parts|;
    r := acc;
    var j := 0;
    while j < |parts|
      invariant j <= |parts|
      invariant r == acc + list[..j]
    {
      var col := Unquote(Trim(parts[j]));
      assert col == list[j];
      assert list[..j + 1] == list[..j] + [col];
      r := r + [col];
      j := j + 1;
    }
    assert list[..j] == list;
  }

  /** `for l, r in zip(local_cols, ref_cols): fk_constraints.append(...)` */
  method AppendPairs(acc: seq<ForeignKey>, locals: seq<string>, refTable: string, refs: seq<string>)
    returns (r: seq<ForeignKey>)
    ensures r == acc + Zip(locals, refTable, refs)
  {
    var pairs := Zip(locals, refTable, refs);
    r := acc;
    var j := 0;
    while j < |locals| && j < |refs|
      invariant j <= |pairs|
      invariant r == acc + pairs[..j]
    {
      assert pairs[..j + 1] == pairs[..j] + [ForeignKey(locals[j], refTable, refs[j])];
      r := r + [ForeignKey(locals[j], refTable, refs[j])];
      j := j + 1;
    }
    assert pairs[..j] == pairs;
  }

  /** `next((e for e in fk if e['column'] == name), None)` */
  function FirstForeignKeyOf(fk: seq<ForeignKey>, name: string): (r: Option<ForeignKey>)
    ensures r.Some? ==> r.value in fk && r.value.column == name
    ensures r.Some? ==> exists i | 0 <= i < |fk| :: fk[i] == r.value && forall k | 0 <= k < i :: fk[k].column != name
    ensures r.None? <==> forall i | 0 <= i < |fk| :: fk[i].column != name
  {
    if fk == [] then None
    else if fk[0].column == name then
      assert fk[0] == fk[0];
      Some(fk[0])
    else
      var r := FirstForeignKeyOf(fk[1..], name);
      assert forall k | 1 <= k < |fk| :: fk[k] == fk[1..][k - 1];
      r
  }
}
