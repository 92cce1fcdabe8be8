/**
 * The parts of Python's `str` behaviour the pipeline relies on, restricted to ASCII:
 * `isspace`, `strip`, `find`/`rfind`, `lower`, `join`, `splitlines`, `str(int)` and `int(str)`.
 */
module PyStrings {
  import opened Wrappers

  /** The ASCII characters for which `str.isspace()` (and the regular-expression class `\s`) holds. */
  const Whitespace: set<char> := {' ', '\t', '\n', '\U{0B}', '\U{0C}', '\r', '\U{1C}', '\U{1D}', '\U{1E}', '\U{1F}'}

  predicate IsSpace(c: char) { c in Whitespace }

  predicate IsDigit(c: char) { '0' <= c <= '9' }

  /** `s.lstrip(chars)`: drops the longest prefix made of characters of `cs`. */
  function LStrip(s: string, cs: set<char>): (r: string)
    ensures |r| <= |s| && r == s[|s| - |r|..]
    ensures r != [] ==> r[0] !in cs
    ensures forall k :: 0 <= k < |s| - |r| ==> s[k] in cs
    decreases |s|
  {
    if s != [] && s[0] in cs then LStrip(s[1..], cs) else s
  }

  /** `s.rstrip(chars)`: drops the longest suffix made of characters of `cs`. */
  function RStrip(s: string, cs: set<char>): (r: string)
    ensures |r| <= |s| && r == s[..|r|]
    ensures r != [] ==> r[|r| - 1] !in cs
    ensures forall k :: |r| <= k < |s| ==> s[k] in cs
    decreases |s|
  {
    if s != [] && s[|s| - 1] in cs then RStrip(s[..|s| - 1], cs) else s
  }

  /** `s.strip(chars)` */
  function StripChars(s: string, cs: set<char>): string {
    RStrip(LStrip(s, cs), cs)
  }

  /** `s.strip()` */
  function Strip(s: string): string {
    StripChars(s, Whitespace)
  }

  /** Neither end of `s` is a character of `cs`. */
  predicate StrippedOf(s: string, cs: set<char>) {
    s == [] || (s[0] !in cs && s[|s| - 1] !in cs)
  }

  predicate Stripped(s: string) { StrippedOf(s, Whitespace) }

  lemma LStripOfStripped(s: string, cs: set<char>)
    requires s == [] || s[0] !in cs
    ensures LStrip(s, cs) == s
  {
  }

  lemma RStripOfStripped(s: string, cs: set<char>)
    requires s == [] || s[|s| - 1] !in cs
    ensures RStrip(s, cs) == s
  {
  }

  /** The result of `strip` has no stripped character at either end, and is an infix of the input. */
  lemma StripCharsProps(s: string, cs: set<char>)
    ensures StrippedOf(StripChars(s, cs), cs)
    ensures exists a, b :: 0 <= a <= b <= |s| && StripChars(s, cs) == s[a..b]
  {
    var l := LStrip(s, cs);
    var r := RStrip(l, cs);
    if r != [] {
      assert r[0] == l[0];
    }
    var a := |s| - |l|;
    assert r == s[a..a + |r|];
  }

  /** `strip` is idempotent; and it leaves an already-stripped string alone. */
  lemma StripCharsIdempotent(s: string, cs: set<char>)
    ensures StripChars(StripChars(s, cs), cs) == StripChars(s, cs)
  {
    StripCharsProps(s, cs);
    StrippedIsFixed(StripChars(s, cs), cs);
  }

  lemma StrippedIsFixed(s: string, cs: set<char>)
    requires StrippedOf(s, cs)
    ensures StripChars(s, cs) == s
  {
    LStripOfStripped(s, cs);
    RStripOfStripped(s, cs);
  }

  /** `strip()` yields the empty string exactly when every character is whitespace. */
  lemma StripEmptyIff(s: string, cs: set<char>)
    ensures StripChars(s, cs) == [] <==> forall k :: 0 <= k < |s| ==> s[k] in cs
  {
    var l := LStrip(s, cs);
    if l != [] {
      assert l[0] == s[|s| - |l|] && l[0] !in cs;
    }
  }

  /** ASCII `str.lower()` on one character. */
  function Lower(c: char): (r: char)
    ensures 'A' <= c <= 'Z' ==> 'a' <= r <= 'z'
    ensures !('A' <= c <= 'Z') ==> r == c
  {
    if 'A' <= c <= 'Z' then (c as int + 32) as char else c
  }

  function LowerStr(s: string): (r: string)
    ensures |r| == |s| && forall k :: 0 <= k < |s| ==> r[k] == Lower(s[k])
  {
    seq(|s|, k requires 0 <= k < |s| => Lower(s[k]))
  }

  /** `pat` occurs in `s` at `k`; with `ci`, letters are compared case-insensitively. */
  predicate MatchesAt(s: string, pat: string, k: nat, ci: bool) {
    k + |pat| <= |s| &&
    forall m :: 0 <= m < |pat| ==>
      (if ci then Lower(s[k + m]) == Lower(pat[m]) else s[k + m] == pat[m])
  }

  /** The first index at or after `from` where `pat` occurs (`s.find(pat, from)`, or a regex literal search). */
  function FindFrom(s: string, pat: string, from: nat, ci: bool): (r: Option<nat>)
    ensures r.Some? ==> from <= r.value && MatchesAt(s, pat, r.value, ci)
    ensures r.Some? ==> forall k :: from <= k < r.value ==> !MatchesAt(s, pat, k, ci)
    ensures r.None? ==> forall k :: from <= k ==> !MatchesAt(s, pat, k, ci)
    decreases |s| - from
  {
    if from + |pat| > |s| then None
    else if MatchesAt(s, pat, from, ci) then Some(from)
    else FindFrom(s, pat, from + 1, ci)
  }

  /** A literal copy of `pat` at `k` is a match, whatever the case sensitivity. */
  lemma MatchesLiteral(s: string, pat: string, k: nat, ci: bool)
    requires k + |pat| <= |s| && s[k..k + |pat|] == pat
    ensures MatchesAt(s, pat, k, ci)
  {
    forall m | 0 <= m < |pat| ensures s[k + m] == pat[m] {
      assert s[k..k + |pat|][m] == s[k + m];
    }
  }

  /** The search finds `q` when `q` matches and nothing between `from` and `q` does. */
  lemma FindFromIs(s: string, pat: string, from: nat, q: nat, ci: bool)
    requires from <= q && MatchesAt(s, pat, q, ci)
    requires forall k :: from <= k < q ==> !MatchesAt(s, pat, k, ci)
    ensures FindFrom(s, pat, from, ci) == Some(q)
  {
    var r := FindFrom(s, pat, from, ci);
    assert r.Some?;
    assert !(r.value < q);
  }

  /** `s.rfind(c)`: the last index holding `c`. */
  function RFindChar(s: string, c: char): (r: Option<nat>)
    ensures r.Some? ==> r.value < |s| && s[r.value] == c
    ensures r.Some? ==> forall k :: r.value < k < |s| ==> s[k] != c
    ensures r.None? ==> forall k :: 0 <= k < |s| ==> s[k] != c
  {
    if s == [] then None
    else if s[|s| - 1] == c then Some(|s| - 1)
    else RFindChar(s[..|s| - 1], c)
  }

  /** `s.find(c)` for a single character. */
  function FindChar(s: string, c: char): (r: Option<nat>)
    ensures r.Some? ==> r.value < |s| && s[r.value] == c
    ensures r.Some? ==> forall k :: 0 <= k < r.value ==> s[k] != c
    ensures r.None? ==> forall k :: 0 <= k < |s| ==> s[k] != c
  {
    if s == [] then None
    else if s[0] == c then Some(0)
    else
      var r := FindChar(s[1..], c);
      if r.Some? then Some(r.value + 1) else None
  }

  lemma FindCharIs(s: string, c: char, q: nat)
    requires q < |s| && s[q] == c && forall k :: 0 <= k < q ==> s[k] != c
    ensures FindChar(s, c) == Some(q)
  {
    var r := FindChar(s, c);
    assert r.Some?;
    assert !(r.value < q);
  }

  lemma RFindCharIs(s: string, c: char, q: nat)
    requires q < |s| && s[q] == c && forall k :: q < k < |s| ==> s[k] != c
    ensures RFindChar(s, c) == Some(q)
  {
    var r := RFindChar(s, c);
    assert r.Some?;
    assert !(r.value > q);
  }

  /** `sep.join(parts)` */
  function Join(sep: string, parts: seq<string>): string {
    if |parts| == 0 then ""
    else if |parts| == 1 then parts[0]
    else Join(sep, parts[..|parts| - 1]) + sep + parts[|parts| - 1]
  }

  lemma JoinFirst(sep: string, parts: seq<string>)
    requires |parts| > 0
    ensures |Join(sep, parts)| >= |parts[0]| && Join(sep, parts)[..|parts[0]|] == parts[0]
  {
    if |parts| > 1 {
      JoinFirst(sep, parts[..|parts| - 1]);
    }
  }

  /** Decimal digits of a natural number, most significant first (`str(n)` for `n >= 0`). */
  function NatToString(n: nat): (r: string)
    ensures |r| > 0 && forall k :: 0 <= k < |r| ==> IsDigit(r[k])
  {
    if n < 10 then [('0' as int + n) as char]
    else NatToString(n / 10) + [('0' as int + n % 10) as char]
  }

  /** `str(n)` for any integer. */
  function IntToString(n: int): string {
    if n < 0 then "-" + NatToString(-n) else NatToString(n)
  }

  /** The value of a string of decimal digits. */
  function DigitsValue(ds: string): nat
    requires forall k :: 0 <= k < |ds| ==> IsDigit(ds[k])
  {
    if ds == [] then 0
    else
      assert IsDigit(ds[|ds| - 1]);
      DigitsValue(ds[..|ds| - 1]) * 10 + (ds[|ds| - 1] as int - '0' as int)
  }

  predicate AllDigits(s: string) {
    forall k :: 0 <= k < |s| ==> IsDigit(s[k])
  }

  /** `int(s)` for a string: surrounding whitespace, an optional sign, then one or more ASCII digits. */
  function ParseInt(s: string): (r: Option<int>)
    ensures r.Some? ==> Strip(s) != []
  {
    var t := Strip(s);
    if t == [] then None
    else
      var neg := t[0] == '-';
      var body := if t[0] == '-' || t[0] == '+' then t[1..] else t;
      if body != [] && AllDigits(body) then
        Some(if neg then -(DigitsValue(body) as int) else DigitsValue(body))
      else None
  }

  lemma {:induction false} DigitsOfNat(n: nat)
    ensures DigitsValue(NatToString(n)) == n
  {
    if n >= 10 {
      var s := NatToString(n);
      assert s[..|s| - 1] == NatToString(n / 10);
      DigitsOfNat(n / 10);
    }
  }

  /** `int(str(n)) == n`. */
  lemma ParseIntOfIntToString(n: int)
    ensures ParseInt(IntToString(n)) == Some(n)
  {
    var s := IntToString(n);
    var d := NatToString(if n < 0 then -n else n);
    assert Stripped(s) by {
      assert s[|s| - 1] == d[|d| - 1];
    }
    StrippedIsFixed(s, Whitespace);
    DigitsOfNat(if n < 0 then -n else n);
    if n < 0 {
      assert s[1..] == d;
    }
  }

  /** ASCII line boundaries recognised by `str.splitlines()`. */
  predicate IsLineBreak(c: char) {
    c == '\n' || c == '\r' || c == '\U{0B}' || c == '\U{0C}' || c == '\U{1C}' || c == '\U{1D}' || c == '\U{1E}'
  }

  /** Index of the first line break in `s`, or `|s|`. */
  function LineEnd(s: string): (k: nat)
    ensures k <= |s| && (k < |s| ==> IsLineBreak(s[k]))
    ensures forall m :: 0 <= m < k ==> !IsLineBreak(s[m])
  {
    if s == [] || IsLineBreak(s[0]) then 0 else 1 + LineEnd(s[1..])
  }

  /** `s.splitlines()`: `\r\n` counts as one boundary, and a final boundary adds no empty line. */
  function SplitLines(s: string): (lines: seq<string>)
    ensures forall i, m :: 0 <= i < |lines| && 0 <= m < |lines[i]| ==> !IsLineBreak(lines[i][m])
    decreases |s|
  {
    if s == [] then []
    else
      var k := LineEnd(s);
      if k == |s| then [s]
      else
        var skip := if s[k] == '\r' && k + 1 < |s| && s[k + 1] == '\n' then 2 else 1;
        [s[..k]] + SplitLines(s[k + skip..])
  }
}
