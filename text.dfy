/**
 * Character classes and the handful of Python `str` operations the pipeline
 * uses: case mapping, `strip`, `split` on one character and `join`.
 * Character classes and case mapping are the ASCII parts of Python's
 * Unicode-aware ones.
 */
module Text {

  import opened Core

  /** `\s` of Python's `re`, which is also what `str.strip()` removes (ASCII part). */
  predicate IsSpace(c: char) {
    c == ' ' || '\t' <= c <= '\r' || '\U{1C}' <= c <= '\U{1F}'
  }

  /** `[A-Za-z]` */
  predicate IsLetter(c: char) {
    'A' <= c <= 'Z' || 'a' <= c <= 'z'
  }

  /** `\d` (ASCII part). */
  predicate IsDigit(c: char) {
    '0' <= c <= '9'
  }

  /** `\w` (ASCII part). */
  predicate IsWord(c: char) {
    IsLetter(c) || IsDigit(c) || c == '_'
  }

  predicate IsParen(c: char) {
    c == '(' || c == ')'
  }

  /** The two quote characters `strip('`"')` removes. */
  predicate IsQuote(c: char) {
    c == '`' || c == '"'
  }

  predicate AllLetters(s: string) {
    forall i | 0 <= i < |s| :: IsLetter(s[i])
  }

  /** Every character of `s` is in the class `P`. */
  predicate Every(s: string, P: char -> bool) {
    forall i | 0 <= i < |s| :: P(s[i])
  }

  /** `Every` over the slice `s[a..b]`, read position by position in `s`. */
  lemma EveryAt(s: string, a: nat, b: nat, P: char -> bool)
    requires a <= b <= |s| && Every(s[a..b], P)
    ensures forall i | a <= i < b :: P(s[i])
  {
    forall i | a <= i < b ensures P(s[i]) {
      assert s[a..b][i - a] == s[i];
    }
  }

  /** A character missing from the slice `s[a..b]` is missing at each of its positions. */
  lemma MissingAt(s: string, a: nat, b: nat, c: char)
    requires a <= b <= |s| && c !in s[a..b]
    ensures forall i | a <= i < b :: s[i] != c
  {
    forall i | a <= i < b ensures s[i] != c {
      assert s[a..b][i - a] == s[i];
    }
  }

  // ---------------------------------------------------------------------
  // Case mapping
  // ---------------------------------------------------------------------

  function UpperChar(c: char): (r: char)
    ensures !('a' <= r <= 'z')
    ensures IsLetter(r) <==> IsLetter(c)
    ensures !IsLetter(c) ==> r == c
    ensures 'A' <= c <= 'Z' ==> r == c
  {
    if 'a' <= c <= 'z' then (c as int - 32) as char else c
  }

  function LowerChar(c: char): (r: char)
    ensures !('A' <= r <= 'Z')
    ensures IsLetter(r) <==> IsLetter(c)
    ensures !IsLetter(c) ==> r == c
    ensures 'a' <= c <= 'z' ==> r == c
  {
    if 'A' <= c <= 'Z' then (c as int + 32) as char else c
  }

  /** `str.upper()` restricted to ASCII: only `a`-`z` change, one character for one. */
  function Upper(s: string): (r: string)
    ensures |r| == |s|
    ensures forall i | 0 <= i < |s| :: r[i] == UpperChar(s[i])
  {
    if s == [] then [] else [UpperChar(s[0])] + Upper(s[1..])
  }

  /** `str.lower()` restricted to ASCII: only `A`-`Z` change, one character for one. */
  function Lower(s: string): (r: string)
    ensures |r| == |s|
    ensures forall i | 0 <= i < |s| :: r[i] == LowerChar(s[i])
  {
    if s == [] then [] else [LowerChar(s[0])] + Lower(s[1..])
  }

  lemma UpperIdempotent(s: string)
    ensures Upper(Upper(s)) == Upper(s)
  {
    assert forall i | 0 <= i < |s| :: UpperChar(UpperChar(s[i])) == UpperChar(s[i]);
  }

  /** Lower-casing forgets an earlier upper-casing. */
  lemma LowerOfUpper(s: string)
    ensures Lower(Upper(s)) == Lower(s)
  {
    assert forall i | 0 <= i < |s| :: LowerChar(UpperChar(s[i])) == LowerChar(s[i]);
  }

  /** Upper-casing forgets an earlier lower-casing. */
  lemma UpperOfLower(s: string)
    ensures Upper(Lower(s)) == Upper(s)
  {
    assert forall i | 0 <= i < |s| :: UpperChar(LowerChar(s[i])) == UpperChar(s[i]);
  }

  /** Upper-casing keeps every character that is not a letter where it was. */
  lemma UpperKeepsNonLetters(s: string, i: int)
    requires 0 <= i < |s| && !IsLetter(s[i])
    ensures Upper(s)[i] == s[i]
  {
  }

  /**
   * Case-insensitive match of the keyword `kw` (written in lower case) at
   * position `p`, as `(?i)` makes `re` do it.
   */
  predicate KeywordAt(s: string, p: nat, kw: string) {
    p + |kw| <= |s| && forall k | 0 <= k < |kw| :: LowerChar(s[p + k]) == kw[k]
  }

  /** A keyword read from a stretch of `s` that equals a word spelling it. */
  lemma KeywordOfSlice(s: string, p: nat, w: string, kw: string)
    requires p + |w| <= |s| && s[p..p + |w|] == w && KeywordAt(w, 0, kw)
    ensures KeywordAt(s, p, kw)
  {
    forall k | 0 <= k < |kw| ensures LowerChar(s[p + k]) == kw[k] {
      assert w[k] == s[p + k];
    }
  }

  /** `\b` at position `p`: exactly one of the two neighbours is a word character. */
  predicate WordBoundary(s: string, p: nat) {
    (0 < p <= |s| && IsWord(s[p - 1])) != (p < |s| && IsWord(s[p]))
  }

  // ---------------------------------------------------------------------
  // Runs and strip
  // ---------------------------------------------------------------------

  /** The end of the longest run of characters satisfying `P` that starts at `p`. */
  function RunEnd(s: string, p: nat, P: char -> bool): (q: nat)
    requires p <= |s|
    ensures p <= q <= |s|
    ensures forall k | p <= k < q :: P(s[k])
    ensures q == |s| || !P(s[q])
    decreases |s| - p
  {
    if p == |s| || !P(s[p]) then p else RunEnd(s, p + 1, P)
  }

  /** A run that is followed by a character outside the class ends there. */
  lemma RunEndExact(s: string, p: nat, q: nat, P: char -> bool)
    requires p <= q <= |s|
    requires forall i | p <= i < q :: P(s[i])
    requires q == |s| || !P(s[q])
    ensures RunEnd(s, p, P) == q
    decreases q - p
  {
    if p < q { RunEndExact(s, p + 1, q, P); }
  }

  /** The start of the longest run of characters satisfying `P` that ends at `q`. */
  function RunStart(s: string, q: nat, P: char -> bool): (p: nat)
    requires q <= |s|
    ensures p <= q
    ensures forall k | p <= k < q :: P(s[k])
    ensures p == 0 || !P(s[p - 1])
  {
    if q == 0 || !P(s[q - 1]) then q else RunStart(s, q - 1, P)
  }

  /**
   * `str.strip(chars)`: drop the longest prefix and the longest suffix made of
   * characters satisfying `P`.
   */
  function StripBy(s: string, P: char -> bool): (r: string)
  {
    var a := RunEnd(s, 0, P);
    var b := RunStart(s, |s|, P);
    if b <= a then [] else s[a..b]
  }

  /**
   * What `strip` keeps: nothing when every character satisfies `P`, else the
   * slice between the leading and the trailing run, which starts and ends
   * with a character outside the class.
   */
  lemma StripByShape(s: string, P: char -> bool)
    ensures var r := StripBy(s, P);
      && (r == [] <==> forall i | 0 <= i < |s| :: P(s[i]))
      && (r != [] ==> !P(r[0]) && !P(r[|r| - 1]))
      && RunEnd(s, 0, P) + |r| <= |s|
      && r == s[RunEnd(s, 0, P)..RunEnd(s, 0, P) + |r|]
      && (forall i | RunEnd(s, 0, P) + |r| <= i < |s| :: P(s[i]))
  {
    var a := RunEnd(s, 0, P);
    var b := RunStart(s, |s|, P);
    if b <= a {
      assert a == |s| by {
        if a < |s| { assert false; }
      }
      EveryAt(s, 0, a, P);
    } else {
      assert s[a..a + (b - a)] == s[a..b];
    }
  }

  /** `str.strip()` */
  function Trim(s: string): (r: string)
  {
    StripBy(s, IsSpace)
  }

  /** `str.strip('`"')` */
  function Unquote(s: string): (r: string)
  {
    StripBy(s, IsQuote)
  }

  lemma StripByIdempotent(s: string, P: char -> bool)
    ensures StripBy(StripBy(s, P), P) == StripBy(s, P)
  {
    var r := StripBy(s, P);
    StripByShape(s, P);
    if r != [] {
      StripByShape(r, P);
      assert RunEnd(r, 0, P) == 0;
      assert RunStart(r, |r|, P) == |r|;
    }
  }

  // ---------------------------------------------------------------------
  // Searching
  // ---------------------------------------------------------------------

  /** The first index at or after `p` holding `c`, if any. */
  function IndexFrom(s: string, p: nat, c: char): (r: Option<nat>)
    requires p <= |s|
    ensures r.Some? ==> p <= r.value < |s| && s[r.value] == c
    ensures r.Some? ==> forall k | p <= k < r.value :: s[k] != c
    ensures r.None? ==> forall k | p <= k < |s| :: s[k] != c
  {
    var q := RunEnd(s, p, x => x != c);
    if q == |s| then None else Some(q)
  }

  /** The last index holding `c`, if any. */
  function LastIndex(s: string, c: char): (r: Option<nat>)
    ensures r.Some? ==> r.value < |s| && s[r.value] == c
    ensures r.Some? ==> forall k | r.value < k < |s| :: s[k] != c
    ensures r.None? ==> forall k | 0 <= k < |s| :: s[k] != c
  {
    var q := RunStart(s, |s|, x => x != c);
    if q == 0 then None else Some(q - 1)
  }

  // ---------------------------------------------------------------------
  // split / join
  // ---------------------------------------------------------------------

  /** `sep.join(xs)` for a one-character separator. */
  function Join(xs: seq<string>, sep: char): string
  {
    if xs == [] then "" else if |xs| == 1 then xs[0] else xs[0] + [sep] + Join(xs[1..], sep)
  }

  /** `s.split(sep)` for a one-character separator: the pieces between the separators. */
  function Split(s: string, sep: char): (r: seq<string>)
    ensures |r| >= 1
    ensures forall i | 0 <= i < |r| :: sep !in r[i]
    decreases |s|
  {
    var k := RunEnd(s, 0, c => c != sep);
    if k == |s| then
      assert forall i | 0 <= i < |s| :: s[i] != sep;
      [s]
    else
      var rest := Split(s[k + 1..], sep);
      assert sep !in s[..k] by {
        assert forall i | 0 <= i < k :: s[..k][i] != sep;
      }
      [s[..k]] + rest
  }

  /** Joining the pieces back with the separator gives the original string. */
  lemma {:induction false} JoinSplit(s: string, sep: char)
    ensures Join(Split(s, sep), sep) == s
    decreases |s|
  {
    var k := RunEnd(s, 0, c => c != sep);
    if k == |s| {
      assert s[..k] == s;
    } else {
      var rest := Split(s[k + 1..], sep);
      assert Split(s, sep) == [s[..k]] + rest;
      assert ([s[..k]] + rest)[1..] == rest;
      JoinSplit(s[k + 1..], sep);
      assert Join(Split(s, sep), sep) == s[..k] + [sep] + Join(rest, sep);
      assert s == s[..k] + [sep] + s[k + 1..];
    }
  }

  /** Splitting undoes joining when no piece holds the separator. */
  lemma {:induction false} SplitJoin(xs: seq<string>, sep: char)
    requires |xs| >= 1
    requires forall i | 0 <= i < |xs| :: sep !in xs[i]
    ensures Split(Join(xs, sep), sep) == xs
  {
    var s := Join(xs, sep);
    var k := RunEnd(s, 0, c => c != sep);
    assert forall i | 0 <= i < |xs[0]| :: s[i] == xs[0][i] && s[i] != sep by {
      if |xs| > 1 {
        assert s == xs[0] + [sep] + Join(xs[1..], sep);
      }
    }
    if |xs| == 1 {
      assert s == xs[0];
    } else {
      var tail := Join(xs[1..], sep);
      assert s == xs[0] + [sep] + tail;
      assert s[|xs[0]|] == sep;
      RunEndExact(s, 0, |xs[0]|, c => c != sep);
      assert s[..k] == xs[0];
      assert s[k + 1..] == tail;
      SplitJoin(xs[1..], sep);
      assert Split(s, sep) == [xs[0]] + xs[1..];
    }
  }

  /** `'.'.join(p for p in parts if p)`: the non-empty parts, joined. */
  function JoinNonEmpty(parts: seq<string>, sep: char): (r: string)
  {
    Join(NonEmpty(parts), sep)
  }

  function NonEmpty(parts: seq<string>): (r: seq<string>)
    ensures forall i | 0 <= i < |r| :: r[i] != []
    ensures forall x :: x in r <==> x in parts && x != []
    ensures |r| <= |parts|
  {
    if parts == [] then []
    else if parts[0] == [] then NonEmpty(parts[1..])
    else [parts[0]] + NonEmpty(parts[1..])
  }

  // ---------------------------------------------------------------------
  // str() of an integer
  // ---------------------------------------------------------------------

  function DigitChar(d: nat): (c: char)
    requires d < 10
    ensures IsDigit(c)
  {
    ('0' as int + d) as char
  }

  /** The decimal digits of `n`. */
  function NatToString(n: nat): (r: string)
    ensures |r| >= 1
    ensures forall i | 0 <= i < |r| :: IsDigit(r[i])
  {
    if n < 10 then [DigitChar(n)] else NatToString(n / 10) + [DigitChar(n % 10)]
  }

  /** `str(n)` for a Python `int`. */
  function IntToString(n: int): (r: string)
    ensures |r| >= 1
    ensures n >= 0 ==> forall i | 0 <= i < |r| :: IsDigit(r[i])
    ensures n < 0 ==> r[0] == '-'
  {
    if n >= 0 then NatToString(n) else "-" + NatToString(-n)
  }
}
