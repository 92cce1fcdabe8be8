/**
 * The table of contents of the current version (app.py): the numbered-lines fallback
 * `_try_heuristic_toc`, the local fallback `_synthesize_toc`, and the unwrap, sanitise, pad, sort,
 * rebalance and renumber steps of `node_toc`.
 */
module Toc {
  import opened Wrappers
  import opened PyStrings
  import opened JsonModel
  import opened Sorting
  import opened Pages
  import opened Oracle
  import opened Extract

  // ---------------------------------------------------------------------------------------------
  // The numbered-line matcher

  predicate IsPunct(c: char) { c == '.' || c == ')' || c == ':' || c == '-' }

  /** The end of the run of characters satisfying `p` that starts at `k`. */
  function SkipWhile(s: string, k: nat, p: char -> bool): (r: nat)
    requires k <= |s|
    ensures k <= r <= |s|
    ensures forall m :: k <= m < r ==> p(s[m])
    ensures r < |s| ==> !p(s[r])
    decreases |s| - k
  {
    if k < |s| && p(s[k]) then SkipWhile(s, k + 1, p) else k
  }

  /** The run ends at `j` when everything from `k` up to `j` satisfies `p` and `s[j]` does not. */
  lemma {:induction false} SkipWhileIs(s: string, k: nat, j: nat, p: char -> bool)
    requires k <= j <= |s|
    requires forall m :: k <= m < j ==> p(s[m])
    requires j < |s| ==> !p(s[j])
    ensures SkipWhile(s, k, p) == j
    decreases j - k
  {
    if k < j {
      assert p(s[k]);
      SkipWhileIs(s, k + 1, j, p);
    }
  }

  /** Whether `ln` begins with "chapter" in any letter case. */
  predicate ChapterWord(ln: string) {
    MatchesAt(ln, "chapter", 0, true)
  }

  lemma NoChapterWord(ln: string)
    requires ln != [] && IsDigit(ln[0])
    ensures !ChapterWord(ln)
  {
    assert Lower(ln[0]) == ln[0];
    assert Lower("chapter"[0]) == 'c';
  }

  lemma ChapterWordOf(ln: string)
    requires |ln| >= 7 && ln[..7] == "Chapter"
    ensures ChapterWord(ln)
  {
    forall m | 0 <= m < 7 ensures Lower(ln[m]) == Lower("chapter"[m]) {
      assert ln[m] == ln[..7][m];
    }
  }

  /** The regular expression `(?i)^(?:chapter\s*)?(\d+)[\.\):\-]*\s+(.*)$` on one line: the value of
      the digits and the text after the separator. The optional word can only be skipped at a
      position where no digit can follow, so it is taken whenever it is there. */
  function MatchTocLine(ln: string): Option<(nat, string)> {
    MatchNumber(ln[if ChapterWord(ln) then SkipWhile(ln, 7, IsSpace) else 0..])
  }

  /** The rest of the expression, `(\d+)[\.\):\-]*\s+(.*)$`, at the start of `r`. */
  function MatchNumber(r: string): Option<(nat, string)> {
    var q := SkipWhile(r, 0, IsDigit);
    if q == 0 then None
    else
      var t := SkipWhile(r, q, IsPunct);
      var u := SkipWhile(r, t, IsSpace);
      if u == t then None
      else Some((DigitsValue(r[..q]), r[u..]))
  }

  /** A match's number is the value of a run of digits in the line. */
  lemma MatchTocLineDigits(ln: string)
    ensures var r := MatchTocLine(ln);
      r.Some? ==> exists p: nat, q: nat ::
        p < q <= |ln| && (forall m :: p <= m < q ==> IsDigit(ln[m])) && r.value.0 == DigitsValue(ln[p..q])
  {
    var p := if ChapterWord(ln) then SkipWhile(ln, 7, IsSpace) else 0;
    var r := ln[p..];
    var q := SkipWhile(r, 0, IsDigit);
    if MatchTocLine(ln).Some? {
      assert r[..q] == ln[p..p + q];
      assert forall m :: p <= m < p + q ==> IsDigit(ln[m]) by {
        assert forall m :: 0 <= m < q ==> IsDigit(r[m]);
        assert forall m :: p <= m < p + q ==> ln[m] == r[m - p];
      }
    }
  }

  /** The matcher on a text cut into its groups: number digits up to `q`, punctuation up to `t`,
      blanks up to `u`, then the title. */
  lemma MatchSegments(r: string, q: nat, t: nat, u: nat)
    requires 0 < q <= t < u <= |r|
    requires forall m :: 0 <= m < q ==> IsDigit(r[m])
    requires forall m :: q <= m < t ==> IsPunct(r[m])
    requires forall m :: t <= m < u ==> IsSpace(r[m])
    requires q < |r| ==> !IsDigit(r[q])
    requires t < |r| ==> !IsPunct(r[t])
    requires u < |r| ==> !IsSpace(r[u])
    ensures MatchNumber(r) == Some((DigitsValue(r[..q]), r[u..]))
  {
    SkipWhileIs(r, 0, q, IsDigit);
    SkipWhileIs(r, q, t, IsPunct);
    SkipWhileIs(r, t, u, IsSpace);
  }

  /** A line made of a number, separator punctuation, blanks and a title is read back as that number
      and title. */
  lemma MatchNumberedLine(n: nat, punct: string, blanks: string, title: string)
    requires forall m :: 0 <= m < |punct| ==> IsPunct(punct[m])
    requires blanks != [] && forall m :: 0 <= m < |blanks| ==> IsSpace(blanks[m])
    requires title == [] || !IsSpace(title[0])
    ensures MatchTocLine(NatToString(n) + punct + blanks + title) == Some((n, title))
  {
    var d := NatToString(n);
    var ln := d + punct + blanks + title;
    var q, t, u := |d|, |d| + |punct|, |d| + |punct| + |blanks|;
    assert ln[..q] == d && ln[q..t] == punct && ln[t..u] == blanks && ln[u..] == title;
    assert ln[0] == d[0];
    NoChapterWord(ln);
    Segment(ln, 0, q, IsDigit);
    Segment(ln, q, t, IsPunct);
    Segment(ln, t, u, IsSpace);
    assert u < |ln| ==> ln[u] == title[0];
    MatchSegments(ln, q, t, u);
    assert ln[0..] == ln;
    DigitsOfNat(n);
  }

  /** A slice whose characters all satisfy `p`, read through the whole string. */
  lemma Segment(ln: string, a: nat, b: nat, p: char -> bool)
    requires a <= b <= |ln|
    requires forall m :: 0 <= m < b - a ==> p(ln[a..b][m])
    ensures forall m :: a <= m < b ==> p(ln[m])
  {
    forall m | a <= m < b ensures p(ln[m]) {
      assert ln[m] == ln[a..b][m - a];
    }
  }

  /** The same with a leading "Chapter" and blanks before the number. */
  lemma MatchChapterLine(gap: string, n: nat, punct: string, blanks: string, title: string)
    requires forall m :: 0 <= m < |gap| ==> IsSpace(gap[m])
    requires forall m :: 0 <= m < |punct| ==> IsPunct(punct[m])
    requires blanks != [] && forall m :: 0 <= m < |blanks| ==> IsSpace(blanks[m])
    requires title == [] || !IsSpace(title[0])
    ensures MatchTocLine("Chapter" + gap + NatToString(n) + punct + blanks + title) == Some((n, title))
  {
    var d := NatToString(n);
    var rest := d + punct + blanks + title;
    var ln := "Chapter" + gap + d + punct + blanks + title;
    var p := 7 + |gap|;
    assert ln[p..] == rest;
    assert ChapterWord(ln) by {
      assert ln[..7] == "Chapter";
      ChapterWordOf(ln);
    }
    assert SkipWhile(ln, 7, IsSpace) == p by {
      assert ln[7..p] == gap;
      Segment(ln, 7, p, IsSpace);
      assert ln[p] == d[0];
      SkipWhileIs(ln, 7, p, IsSpace);
    }
    assert MatchTocLine(rest) == MatchNumber(rest) by {
      assert rest[0] == d[0];
      NoChapterWord(rest);
      assert rest[0..] == rest;
    }
    MatchNumberedLine(n, punct, blanks, title);
  }

  /** A number must be followed, after any punctuation, by at least one blank. */
  lemma NoBlankNoMatch(n: nat, punct: string, title: string)
    requires forall m :: 0 <= m < |punct| ==> IsPunct(punct[m])
    requires title == [] || !(IsSpace(title[0]) || IsPunct(title[0]) || IsDigit(title[0]))
    ensures MatchTocLine(NatToString(n) + punct + title).None?
  {
    var d := NatToString(n);
    var ln := d + punct + title;
    assert ln[0] == d[0];
    NoChapterWord(ln);
    assert ln[0..] == ln;
    var q, t := |d|, |d| + |punct|;
    assert forall m :: 0 <= m < q ==> ln[m] == d[m];
    assert forall m :: q <= m < t ==> ln[m] == punct[m - q];
    SkipWhileIs(ln, 0, q, IsDigit);
    SkipWhileIs(ln, q, t, IsPunct);
    SkipWhileIs(ln, t, t, IsSpace);
  }

  const TitleTrim: set<char> := {' ', '-', ':'}

  /** `m.group(2).strip(" -:").strip()` */
  function HeuristicTitle(g: string): (r: string)
    ensures Stripped(r)
  {
    StripCharsProps(StripChars(g, TitleTrim), Whitespace);
    Strip(StripChars(g, TitleTrim))
  }

  /** The match on a line of the reply, once stripped; blank lines are skipped. */
  function LineMatch(line: string): Option<(nat, string)> {
    var ln := Strip(line);
    if ln == "" then None else MatchTocLine(ln)
  }

  /** A match is accepted with its title when the title is not empty once trimmed. */
  function Accept(m: Option<(nat, string)>): (r: seq<(int, string)>)
    ensures |r| <= 1
    ensures forall i :: 0 <= i < |r| ==> r[i].1 != "" && Stripped(r[i].1)
  {
    if m.None? then []
    else
      var title := HeuristicTitle(m.value.1);
      if title == "" then [] else [(m.value.0 as int, title)]
  }

  /** What one line of the reply contributes: its number and title when it matches with a title. */
  function LineItem(line: string): (r: seq<(int, string)>)
    ensures |r| <= 1
    ensures forall i :: 0 <= i < |r| ==> r[i].1 != "" && Stripped(r[i].1)
  {
    Accept(LineMatch(line))
  }

  /** The `items` list: the accepted lines' numbers and titles, in order. */
  function LineItems(lines: seq<string>): (r: seq<(int, string)>)
    ensures forall i :: 0 <= i < |r| ==> r[i].1 != "" && Stripped(r[i].1)
  {
    if lines == [] then [] else LineItems(lines[..|lines| - 1]) + LineItem(lines[|lines| - 1])
  }

  function Numbers(items: seq<(int, string)>): set<int> {
    set i | 0 <= i < |items| :: items[i].0
  }

  /** The first item carrying number `n`. */
  function FirstWith(items: seq<(int, string)>, n: int): (r: Option<(int, string)>)
    ensures r.None? <==> n !in Numbers(items)
    ensures r.Some? ==> r.value in items && r.value.0 == n
  {
    if items == [] then None
    else
      var init := items[..|items| - 1];
      var f := FirstWith(init, n);
      assert Numbers(items) == Numbers(init) + {items[|items| - 1].0};
      if f.Some? then f
      else if items[|items| - 1].0 == n then Some(items[|items| - 1])
      else None
  }

  /** The `uniq` list: the first item for each number, in order. */
  function Dedup(items: seq<(int, string)>): (r: seq<(int, string)>)
    ensures |r| <= |items|
    ensures forall i :: 0 <= i < |r| ==> r[i] in items
  {
    if items == [] then []
    else
      var d := Dedup(items[..|items| - 1]);
      var it := items[|items| - 1];
      if it.0 in Numbers(d) then d else d + [it]
  }

  lemma NumbersAppend(items: seq<(int, string)>, it: (int, string))
    ensures Numbers(items + [it]) == Numbers(items) + {it.0}
  {
    assert forall i :: 0 <= i < |items| ==> (items + [it])[i] == items[i];
    assert (items + [it])[|items|] == it;
  }

  /** Deduplication keeps one item per number, the first one, and loses no number. */
  lemma {:induction false} DedupProps(items: seq<(int, string)>)
    ensures var r := Dedup(items);
      && (forall i, j :: 0 <= i < j < |r| ==> r[i].0 != r[j].0)
      && Numbers(r) == Numbers(items)
      && (forall i :: 0 <= i < |r| ==> FirstWith(items, r[i].0) == Some(r[i]))
    decreases |items|
  {
    if items != [] {
      var init := items[..|items| - 1];
      var it := items[|items| - 1];
      var d := Dedup(init);
      DedupProps(init);
      NumbersAppend(init, it);
      assert items == init + [it];
      if it.0 !in Numbers(d) {
        NumbersAppend(d, it);
        var r := d + [it];
        forall i, j | 0 <= i < j < |r| ensures r[i].0 != r[j].0 {
          if j == |d| {
            assert r[i] == d[i];
            assert d[i].0 in Numbers(d);
          }
        }
      }
    }
  }

  // ---------------------------------------------------------------------------------------------
  // TOC entries and rebalancing

  /** A TOC entry `{"number": n, "title": t, "target_pages": p}`. */
  datatype Entry = Entry(number: int, title: string, pages: int)

  /** The entry as a dict, keys in that order. */
  function TocEntry(n: int, title: string, pages: int): Fields {
    [("number", JInt(n)), ("title", JStr(title)), ("target_pages", JInt(pages))]
  }

  function ToFields(e: Entry): Fields {
    TocEntry(e.number, e.title, e.pages)
  }

  function EntryNumber(e: Entry): int { e.number }

  lemma TocEntryGet(n: int, title: string, pages: int)
    ensures Get(TocEntry(n, title, pages), "number") == Some(JInt(n))
    ensures Get(TocEntry(n, title, pages), "title") == Some(JStr(title))
    ensures Get(TocEntry(n, title, pages), "target_pages") == Some(JInt(pages))
    ensures Keys(TocEntry(n, title, pages)) == ["number", "title", "target_pages"]
  {
    var e := TocEntry(n, title, pages);
    var e1, e2 := [e[1], e[2]], [e[2]];
    assert e == [e[0]] + e1 && e1 == [e[1]] + e2;
    assert Get(e, "title") == Some(JStr(title)) by {
      GetCons(e[0], e1, "title");
      GetCons(e[1], e2, "title");
    }
    assert Get(e, "target_pages") == Some(JInt(pages)) by {
      GetCons(e[0], e1, "target_pages");
      GetCons(e[1], e2, "target_pages");
      GetCons(e[2], [], "target_pages");
    }
    assert Keys(e) == ["number", "title", "target_pages"] by {
      GetCons(e[0], e1, "title");
      GetCons(e[1], e2, "title");
      GetCons(e[2], [], "title");
    }
  }

  /** Writing `target_pages` or `number` into an entry. */
  lemma TocEntrySet(n: int, title: string, pages: int, v: int)
    ensures Set(TocEntry(n, title, pages), "target_pages", JInt(v)) == TocEntry(n, title, v)
    ensures Set(TocEntry(n, title, pages), "number", JInt(v)) == TocEntry(v, title, pages)
  {
    var e := TocEntry(n, title, pages);
    assert e[1..][1..] == [("target_pages", JInt(pages))];
    assert Set(e[1..][1..], "target_pages", JInt(v)) == [("target_pages", JInt(v))];
    assert Set(e[1..], "target_pages", JInt(v)) == [e[1]] + [("target_pages", JInt(v))];
  }

  /** The chapters as dicts. */
  function ToFieldsAll(es: seq<Entry>): (r: seq<Fields>)
    ensures |r| == |es| && forall i :: 0 <= i < |es| ==> r[i] == ToFields(es[i])
  {
    seq(|es|, i requires 0 <= i < |es| => ToFields(es[i]))
  }

  /** The clamped page counts `rebalance_pages` starts from. */
  function Clamped(es: seq<Entry>): (r: seq<int>)
    ensures |r| == |es| && AllAtLeast(r, 1)
    ensures forall i :: 0 <= i < |es| ==> r[i] == Max1(es[i].pages)
  {
    seq(|es|, i requires 0 <= i < |es| => Max1(es[i].pages))
  }

  lemma {:induction false} ClampedCountsOfEntries(es: seq<Entry>)
    ensures ClampedCounts(ToFieldsAll(es), 10) == Ok(Clamped(es))
    decreases |es|
  {
    if es != [] {
      var init := es[..|es| - 1];
      assert ToFieldsAll(es)[..|es| - 1] == ToFieldsAll(init);
      ClampedCountsOfEntries(init);
      var e := es[|es| - 1];
      assert ToFieldsAll(es)[|es| - 1] == TocEntry(e.number, e.title, e.pages);
      assert GetDefault(TocEntry(e.number, e.title, e.pages), "target_pages", JInt(10)) == JInt(e.pages) by {
        TocEntryGet(e.number, e.title, e.pages);
      }
      assert Clamped(es) == Clamped(init) + [Max1(e.pages)];
    }
  }

  /** `rebalance_pages` on entries: same chapters, same order, new page counts. */
  function RebalanceEntries(es: seq<Entry>, total: int): (r: seq<Entry>)
    ensures |r| == |es|
    ensures forall i :: 0 <= i < |es| ==> r[i].number == es[i].number && r[i].title == es[i].title && r[i].pages >= 1
  {
    var pages := RebalanceCounts(Clamped(es), total);
    seq(|es|, i requires 0 <= i < |es| => Entry(es[i].number, es[i].title, pages[i]))
  }

  /** The entry form agrees with `rebalance_pages` on the dicts, which cannot fail on them. */
  lemma RebalanceEntriesAgree(es: seq<Entry>, total: int)
    ensures RebalancePages(ToFieldsAll(es), total) == Ok(ToFieldsAll(RebalanceEntries(es, total)))
  {
    ClampedCountsOfEntries(es);
    var pages := RebalanceCounts(Clamped(es), total);
    var r := RebalanceEntries(es, total);
    forall i | 0 <= i < |es| ensures SetPages(ToFieldsAll(es), pages)[i] == ToFieldsAll(r)[i] {
      TocEntrySet(es[i].number, es[i].title, es[i].pages, pages[i]);
    }
    assert SetPages(ToFieldsAll(es), pages) == ToFieldsAll(r);
  }

  function PagesOf(es: seq<Entry>): (r: seq<int>)
    ensures |r| == |es| && forall i :: 0 <= i < |es| ==> r[i] == es[i].pages
  {
    seq(|es|, i requires 0 <= i < |es| => es[i].pages)
  }

  /** Entries that all ask for the same number of pages share out a total of at least one page per
      chapter exactly. */
  lemma RebalanceEntriesExact(es: seq<Entry>, total: int)
    requires |es| >= 1 && total >= |es|
    requires forall i :: 0 <= i < |es| ==> es[i].pages == es[0].pages
    ensures Sum(PagesOf(RebalanceEntries(es, total))) == total
  {
    var raw := Clamped(es);
    RebalanceUniformExact(raw, total);
    assert PagesOf(RebalanceEntries(es, total)) == RebalanceCounts(raw, total);
  }

  // ---------------------------------------------------------------------------------------------
  // `_try_heuristic_toc`

  function WithTenPages(items: seq<(int, string)>): (r: seq<Entry>)
    ensures |r| == |items| && forall i :: 0 <= i < |items| ==> r[i] == Entry(items[i].0, items[i].1, 10)
  {
    seq(|items|, i requires 0 <= i < |items| => Entry(items[i].0, items[i].1, 10))
  }

  /** The deduplicated accepted lines of a reply. */
  function Uniq(lines: string): seq<(int, string)> {
    Dedup(LineItems(SplitLines(lines)))
  }

  /** `_try_heuristic_toc`: the deduplicated numbered lines, each given 10 pages, sorted by number
      and rebalanced; nothing unless there are at least six distinct numbers. */
  function HeuristicToc(lines: string, total: int): seq<Entry> {
    var uniq := Uniq(lines);
    if |uniq| >= 6 then RebalanceEntries(SortBy(WithTenPages(uniq), EntryNumber), total) else []
  }

  /** The heuristic reading keeps the first line for each number and loses no number. */
  lemma UniqProps(lines: string)
    ensures var items, uniq := LineItems(SplitLines(lines)), Uniq(lines);
      && (forall i, j :: 0 <= i < j < |uniq| ==> uniq[i].0 != uniq[j].0)
      && Numbers(uniq) == Numbers(items)
      && (forall i :: 0 <= i < |uniq| ==> FirstWith(items, uniq[i].0) == Some(uniq[i]))
      && (forall i :: 0 <= i < |uniq| ==> uniq[i].1 != "" && Stripped(uniq[i].1))
  {
    DedupProps(LineItems(SplitLines(lines)));
  }

  /** The heuristic TOC is empty exactly when fewer than six distinct numbers were read. */
  lemma HeuristicTocEmpty(lines: string, total: int)
    ensures HeuristicToc(lines, total) == [] <==> |Uniq(lines)| < 6
  {
  }

  /** Otherwise it holds one entry per distinct number, sorted by number, each with a stripped
      non-empty title and at least one page; the pages add up to the total when there is at least one
      page per chapter. */
  lemma HeuristicTocProps(lines: string, total: int)
    requires |Uniq(lines)| >= 6
    ensures var uniq, r := Uniq(lines), HeuristicToc(lines, total);
      && |r| == |uniq|
      && SortedBy(r, EntryNumber)
      && multiset(MapSeq(r, Head)) == multiset(uniq)
      && (forall i :: 0 <= i < |r| ==> r[i].pages >= 1 && r[i].title != "" && Stripped(r[i].title))
      && (total >= |r| ==> Sum(PagesOf(r)) == total)
  {
    var uniq := Uniq(lines);
    assert forall i :: 0 <= i < |uniq| ==> uniq[i].1 != "" && Stripped(uniq[i].1) by {
      UniqProps(lines);
    }
    assert HeuristicToc(lines, total) == RebalanceEntries(SortBy(WithTenPages(uniq), EntryNumber), total);
    TenPagesBalanced(uniq, total);
  }

  lemma TenPagesBalanced(uniq: seq<(int, string)>, total: int)
    requires forall i :: 0 <= i < |uniq| ==> uniq[i].1 != "" && Stripped(uniq[i].1)
    ensures var r := RebalanceEntries(SortBy(WithTenPages(uniq), EntryNumber), total);
      && |r| == |uniq|
      && SortedBy(r, EntryNumber)
      && multiset(MapSeq(r, Head)) == multiset(uniq)
      && (forall i :: 0 <= i < |r| ==> r[i].pages >= 1 && r[i].title != "" && Stripped(r[i].title))
      && (|r| >= 1 && total >= |r| ==> Sum(PagesOf(r)) == total)
  {
    var sorted := SortBy(WithTenPages(uniq), EntryNumber);
    var r := RebalanceEntries(sorted, total);
    assert SortedBy(sorted, EntryNumber) && multiset(MapSeq(sorted, Head)) == multiset(uniq)
      && forall i :: 0 <= i < |sorted| ==> sorted[i].title != "" && Stripped(sorted[i].title) && sorted[i].pages == 10
    by {
      SortedTenPages(uniq);
    }
    assert multiset(MapSeq(r, Head)) == multiset(uniq) by {
      RebalanceHeads(sorted, total);
    }
    assert SortedBy(r, EntryNumber) by {
      SortedEntries(sorted, r);
    }
    forall i | 0 <= i < |r| ensures r[i].pages >= 1 && r[i].title != "" && Stripped(r[i].title) {
      assert r[i].title == sorted[i].title;
    }
    if |r| >= 1 && total >= |r| {
      RebalanceEntriesExact(sorted, total);
    }
  }

  lemma RebalanceHeads(es: seq<Entry>, total: int)
    ensures MapSeq(RebalanceEntries(es, total), Head) == MapSeq(es, Head)
  {
    var r := RebalanceEntries(es, total);
    assert forall i :: 0 <= i < |es| ==> MapSeq(r, Head)[i] == MapSeq(es, Head)[i];
  }

  /** Sorting the ten-page entries keeps them a permutation, with their titles and ten pages each. */
  lemma SortedTenPages(uniq: seq<(int, string)>)
    requires forall i :: 0 <= i < |uniq| ==> uniq[i].1 != "" && Stripped(uniq[i].1)
    ensures var sorted := SortBy(WithTenPages(uniq), EntryNumber);
      && SortedBy(sorted, EntryNumber)
      && multiset(MapSeq(sorted, Head)) == multiset(uniq)
      && (forall i :: 0 <= i < |sorted| ==> sorted[i].title != "" && Stripped(sorted[i].title) && sorted[i].pages == 10)
  {
    var es := WithTenPages(uniq);
    var sorted := SortBy(es, EntryNumber);
    SortByProps(es, EntryNumber);
    assert uniq == MapSeq(es, Head);
    MultisetMap(sorted, es, Head);
    forall i | 0 <= i < |sorted| ensures sorted[i].title != "" && Stripped(sorted[i].title) && sorted[i].pages == 10 {
      assert sorted[i] in multiset(es);
      var j :| 0 <= j < |es| && es[j] == sorted[i];
    }
  }

  /** An entry's number and title. */
  function Head(e: Entry): (int, string) { (e.number, e.title) }

  lemma SortedEntries(sorted: seq<Entry>, r: seq<Entry>)
    requires SortedBy(sorted, EntryNumber) && |r| == |sorted|
    requires forall i :: 0 <= i < |r| ==> r[i].number == sorted[i].number
    ensures SortedBy(r, EntryNumber)
  {
    assert forall i, j :: 0 <= i < j < |r| ==> EntryNumber(r[i]) <= EntryNumber(r[j]) by {
      forall i, j | 0 <= i < j < |r| ensures EntryNumber(r[i]) <= EntryNumber(r[j]) {
        assert EntryNumber(sorted[i]) <= EntryNumber(sorted[j]);
      }
    }
  }

  function MapSeq<T, U>(s: seq<T>, f: T -> U): (r: seq<U>)
    ensures |r| == |s| && forall i :: 0 <= i < |s| ==> r[i] == f(s[i])
  {
    seq(|s|, i requires 0 <= i < |s| => f(s[i]))
  }

  /** Mapping a permutation gives a permutation. */
  lemma {:induction false} MultisetMap<T, U>(s: seq<T>, t: seq<T>, f: T -> U)
    requires multiset(s) == multiset(t)
    ensures multiset(MapSeq(s, f)) == multiset(MapSeq(t, f))
    decreases |s|
  {
    if s == [] {
      assert |t| == |multiset(t)| == 0;
    } else {
      var j := PickLast(s, t);
      var s', t' := s[..|s| - 1], t[..j] + t[j + 1..];
      assert multiset(s') == multiset(t') by {
        assert s == s' + [s[|s| - 1]];
        MultisetRemove(t, j);
      }
      MultisetMap(s', t', f);
      MultisetMapStep(s, t, j, f);
    }
  }

  /** The inductive step of `MultisetMap`: the last element of `s` is `t[j]`. */
  lemma MultisetMapStep<T, U>(s: seq<T>, t: seq<T>, j: nat, f: T -> U)
    requires s != [] && j < |t| && t[j] == s[|s| - 1]
    requires multiset(MapSeq(s[..|s| - 1], f)) == multiset(MapSeq(t[..j] + t[j + 1..], f))
    ensures multiset(MapSeq(s, f)) == multiset(MapSeq(t, f))
  {
    var s' := s[..|s| - 1];
    assert MapSeq(s, f) == MapSeq(s', f) + [f(t[j])];
    MultisetMapRemove(t, j, f);
  }

  /** Where the last element of `s` sits in its permutation `t`. */
  lemma PickLast<T>(s: seq<T>, t: seq<T>) returns (j: nat)
    requires s != [] && multiset(s) == multiset(t)
    ensures j < |t| && t[j] == s[|s| - 1]
  {
    assert s[|s| - 1] in multiset(s);
    j :| 0 <= j < |t| && t[j] == s[|s| - 1];
  }

  /** Taking out one element takes its image out of the mapped multiset. */
  lemma MultisetMapRemove<T, U>(t: seq<T>, j: nat, f: T -> U)
    requires j < |t|
    ensures multiset(MapSeq(t[..j] + t[j + 1..], f)) + multiset{f(t[j])} == multiset(MapSeq(t, f))
  {
    var mt := MapSeq(t, f);
    MapRemove(t, j, f);
    MultisetRemove(mt, j);
    assert mt[j] == f(t[j]);
  }

  lemma MapRemove<T, U>(t: seq<T>, j: nat, f: T -> U)
    requires j < |t|
    ensures MapSeq(t[..j] + t[j + 1..], f) == MapSeq(t, f)[..j] + MapSeq(t, f)[j + 1..]
  {
    var t' := t[..j] + t[j + 1..];
    var mt := MapSeq(t, f);
    var a, b := MapSeq(t', f), mt[..j] + mt[j + 1..];
    assert |a| == |b|;
    forall k | 0 <= k < |a| ensures a[k] == b[k] {
      if k < j {
        assert t'[k] == t[k];
      } else {
        assert t'[k] == t[k + 1];
      }
    }
  }

  lemma MultisetRemove<T>(t: seq<T>, j: nat)
    requires j < |t|
    ensures multiset(t[..j] + t[j + 1..]) == multiset(t) - multiset{t[j]}
  {
    assert t == t[..j] + [t[j]] + t[j + 1..];
  }

  /** `_try_heuristic_toc` with its loops as in the source: `items`, then `uniq` with the `seen`
      set, then ten pages for each entry before sorting and rebalancing. */
  method TryHeuristicToc(lines: string, total: int) returns (toc: seq<Fields>)
    ensures toc == ToFieldsAll(HeuristicToc(lines, total))
  {
    var items := CollectLineItems(SplitLines(lines));
    var uniq := DedupLoop(items);
    if |uniq| >= 6 {
      var withPages := TenPagesLoop(uniq);
      var sorted := SortBy(withPages, EntryNumber);
      var r := RebalancePagesMethod(ToFieldsAll(sorted), total);
      RebalanceEntriesAgree(sorted, total);
      toc := r.value;
    } else {
      toc := [];
    }
  }

  /** The third loop of `_try_heuristic_toc`: every entry starts with ten pages. */
  method TenPagesLoop(uniq: seq<(int, string)>) returns (withPages: seq<Entry>)
    ensures withPages == WithTenPages(uniq)
  {
    withPages := [];
    var j := 0;
    while j < |uniq|
      invariant 0 <= j <= |uniq|
      invariant withPages == WithTenPages(uniq)[..j]
    {
      withPages := withPages + [Entry(uniq[j].0, uniq[j].1, 10)];
      j := j + 1;
    }
  }

  /** The first loop of `_try_heuristic_toc`, building `items`. */
  method CollectLineItems(ls: seq<string>) returns (items: seq<(int, string)>)
    ensures items == LineItems(ls)
  {
    items := [];
    var i := 0;
    while i < |ls|
      invariant 0 <= i <= |ls|
      invariant items == LineItems(ls[..i])
    {
      assert ls[..i + 1][..i] == ls[..i];
      assert LineItems(ls[..i + 1]) == LineItems(ls[..i]) + LineItem(ls[i]);
      items := items + LineItem(ls[i]);
      i := i + 1;
    }
    assert ls[..i] == ls;
  }

  /** The second loop of `_try_heuristic_toc`, keeping the first item per number via `seen`. */
  method DedupLoop(items: seq<(int, string)>) returns (uniq: seq<(int, string)>)
    ensures uniq == Dedup(items)
  {
    uniq := [];
    var seen: set<int> := {};
    var k := 0;
    while k < |items|
      invariant 0 <= k <= |items|
      invariant uniq == Dedup(items[..k]) && seen == Numbers(uniq)
    {
      var it := items[k];
      if it.0 !in seen {
        NumbersAppend(uniq, it);
        seen := seen + {it.0};
        uniq := uniq + [it];
      }
      assert items[..k + 1][..k] == items[..k];
      k := k + 1;
    }
    assert items[..k] == items;
  }

  // ---------------------------------------------------------------------------------------------
  // `_synthesize_toc`

  function SynthBase(seed: string, chapters: nat): (r: seq<Entry>)
    ensures |r| == chapters
    ensures forall i :: 0 <= i < chapters ==> r[i] == Entry(i + 1, seed + ": Part " + IntToString(i + 1), 10)
  {
    seq(chapters, i requires 0 <= i < chapters => Entry(i + 1, seed + ": Part " + IntToString(i + 1), 10))
  }

  /** `_synthesize_toc`: `chapters` entries "<title>: Part i", ten pages each, rebalanced. The
      specification must be a dict, since its title is read with `.get`. */
  function SynthesizeToc(spec: Json, total: int, chapters: nat): (r: Result<seq<Entry>>)
    ensures r.Ok? <==> spec.JObj?
  {
    var seed :- DictGet(spec, "title", JStr("Chapter"));
    Ok(RebalanceEntries(SynthBase(PyStr(seed), chapters), total))
  }

  /** The synthesised TOC numbers its parts 1..n after the book's title (or "Chapter"), gives each at
      least one page, and shares out the total exactly when there is a page per chapter. */
  lemma SynthesizeTocProps(fs: Fields, total: int, chapters: nat)
    ensures var r := SynthesizeToc(JObj(fs), total, chapters).value;
      var seed := PyStr(GetDefault(fs, "title", JStr("Chapter")));
      && |r| == chapters
      && (forall i :: 0 <= i < chapters ==>
            r[i].number == i + 1 && r[i].title == seed + ": Part " + IntToString(i + 1) && r[i].pages >= 1)
      && (chapters >= 1 && total >= chapters ==> Sum(PagesOf(r)) == total)
  {
    var seed := PyStr(GetDefault(fs, "title", JStr("Chapter")));
    if chapters >= 1 && total >= chapters {
      RebalanceEntriesExact(SynthBase(seed, chapters), total);
    }
  }

  // ---------------------------------------------------------------------------------------------
  // `node_toc`: sanitise, pad, sort, rebalance, renumber

  /** What one reply item contributes to `fixed`: a dict with an `int()`-able number and a non-blank
      string title; `target_pages` defaults to 10 when missing, null or not `int()`-able. */
  function SanitizeItem(ch: Json): (r: seq<Entry>)
    ensures |r| <= 1
    ensures forall i :: 0 <= i < |r| ==> r[i].title != "" && Stripped(r[i].title)
  {
    if !ch.JObj? then []
    else
      var num := PyInt(Lookup(ch.fields, "number"));
      var title := Lookup(ch.fields, "title");
      var pages := Lookup(ch.fields, "target_pages");
      if num.None? || !title.JStr? || Strip(title.s) == "" then []
      else
        StripCharsProps(title.s, Whitespace);
        [Entry(num.value, Strip(title.s), if pages.JNull? then 10 else PyInt(pages).GetOr(10))]
  }

  function Sanitize(toc: seq<Json>): (r: seq<Entry>)
    ensures |r| <= |toc|
    ensures forall i :: 0 <= i < |r| ==> r[i].title != "" && Stripped(r[i].title)
  {
    if toc == [] then [] else Sanitize(toc[..|toc| - 1]) + SanitizeItem(toc[|toc| - 1])
  }

  /** `max([c["number"] for c in fixed] + [0])` */
  function MaxNumber(fixed: seq<Entry>): (m: int)
    ensures m >= 0 && forall i :: 0 <= i < |fixed| ==> fixed[i].number <= m
  {
    if fixed == [] then 0
    else
      var m := MaxNumber(fixed[..|fixed| - 1]);
      var n := fixed[|fixed| - 1].number;
      if n > m then n else m
  }

  function ChapterTitle(n: int): string {
    "Chapter " + IntToString(n)
  }

  lemma ChapterTitleStripped(n: int)
    ensures ChapterTitle(n) != "" && Stripped(ChapterTitle(n))
  {
    var t := ChapterTitle(n);
    var d := NatToString(if n < 0 then -n else n);
    assert t[|t| - 1] == d[|d| - 1];
  }

  function Padding(start: int, need: nat): (r: seq<Entry>)
    ensures |r| == need
    ensures forall i :: 0 <= i < need ==> r[i] == Entry(start + i, ChapterTitle(start + i), 10)
  {
    seq(need, i requires 0 <= i < need => Entry(start + i, ChapterTitle(start + i), 10))
  }

  /** Fewer than six entries are padded with "Chapter n" entries numbered above every existing one. */
  function Pad(fixed: seq<Entry>): (r: seq<Entry>)
    ensures |r| == if |fixed| < 6 then 6 else |fixed|
    ensures r[..|fixed|] == fixed
    ensures forall i, j :: 0 <= i < |fixed| <= j < |r| ==> r[i].number < r[j].number
  {
    if |fixed| < 6 then
      var r := fixed + Padding(MaxNumber(fixed) + 1, 6 - |fixed|);
      assert r[..|fixed|] == fixed;
      r
    else fixed
  }

  lemma PadTitles(fixed: seq<Entry>)
    requires forall i :: 0 <= i < |fixed| ==> fixed[i].title != "" && Stripped(fixed[i].title)
    ensures forall i :: 0 <= i < |Pad(fixed)| ==> Pad(fixed)[i].title != "" && Stripped(Pad(fixed)[i].title)
  {
    var r := Pad(fixed);
    forall i | 0 <= i < |r| ensures r[i].title != "" && Stripped(r[i].title) {
      if i < |fixed| {
        assert r[i] == r[..|fixed|][i];
      } else {
        ChapterTitleStripped(r[i].number);
      }
    }
  }

  /** `for idx, ch in enumerate(fixed, start=1): ch["number"] = idx` */
  function Renumber(es: seq<Entry>): (r: seq<Entry>)
    ensures |r| == |es|
    ensures forall i :: 0 <= i < |es| ==> r[i] == Entry(i + 1, es[i].title, es[i].pages)
  {
    seq(|es|, i requires 0 <= i < |es| => Entry(i + 1, es[i].title, es[i].pages))
  }

  /** The entries of `node_toc` after padding and before renumbering. */
  function Arranged(toc: seq<Json>, total: int): seq<Entry> {
    RebalanceEntries(SortBy(Pad(Sanitize(toc)), EntryNumber), total)
  }

  /** The TOC `node_toc` builds from a list of candidate entries. */
  function BuildToc(toc: seq<Json>, total: int): seq<Entry> {
    Renumber(Arranged(toc, total))
  }

  function Title(e: Entry): string { e.title }

  /** At least six entries numbered 1..n in list order, each with a stripped non-blank title and at
      least one page. */
  ghost predicate WellFormedToc(toc: seq<Entry>) {
    && |toc| >= 6
    && forall i :: 0 <= i < |toc| ==> toc[i].number == i + 1 && toc[i].pages >= 1 && toc[i].title != "" && Stripped(toc[i].title)
  }

  /** `node_toc` always ends with at least six entries numbered 1..n in order, each with a stripped
      non-blank title and at least one page. */
  lemma BuildTocProps(toc: seq<Json>, total: int)
    ensures |BuildToc(toc, total)| == if |Sanitize(toc)| < 6 then 6 else |Sanitize(toc)|
    ensures WellFormedToc(BuildToc(toc, total))
  {
    var fixed := Sanitize(toc);
    PadTitles(fixed);
    PaddedBuilt(Pad(fixed), total);
  }

  lemma PaddedBuilt(padded: seq<Entry>, total: int)
    requires forall i :: 0 <= i < |padded| ==> padded[i].title != "" && Stripped(padded[i].title)
    ensures var r := Renumber(RebalanceEntries(SortBy(padded, EntryNumber), total));
      |r| == |padded| && (|padded| >= 6 ==> WellFormedToc(r))
  {
    ArrangedTitles(padded, total);
    RenumberProps(RebalanceEntries(SortBy(padded, EntryNumber), total));
  }

  lemma RenumberProps(arranged: seq<Entry>)
    requires forall i :: 0 <= i < |arranged| ==> arranged[i].pages >= 1 && arranged[i].title != "" && Stripped(arranged[i].title)
    ensures var r := Renumber(arranged);
      forall i :: 0 <= i < |r| ==> r[i].number == i + 1 && r[i].pages >= 1 && r[i].title != "" && Stripped(r[i].title)
  {
  }

  lemma ArrangedTitles(padded: seq<Entry>, total: int)
    requires forall i :: 0 <= i < |padded| ==> padded[i].title != "" && Stripped(padded[i].title)
    ensures var a := RebalanceEntries(SortBy(padded, EntryNumber), total);
      |a| == |padded| && forall i :: 0 <= i < |a| ==> a[i].pages >= 1 && a[i].title != "" && Stripped(a[i].title)
  {
    SortedTitles(padded);
  }

  /** The titles are those of the sanitised reply plus the padding, ordered by their original numbers. */
  lemma BuildTocTitles(toc: seq<Json>, total: int)
    ensures var padded := Pad(Sanitize(toc)); var sorted := SortBy(padded, EntryNumber);
      && SortedBy(sorted, EntryNumber)
      && MapSeq(BuildToc(toc, total), Title) == MapSeq(sorted, Title)
      && multiset(MapSeq(BuildToc(toc, total), Title)) == multiset(MapSeq(padded, Title))
  {
    var padded := Pad(Sanitize(toc));
    var sorted := SortBy(padded, EntryNumber);
    SortByProps(padded, EntryNumber);
    var r := BuildToc(toc, total);
    var arranged := RebalanceEntries(sorted, total);
    assert r == Renumber(arranged);
    assert MapSeq(r, Title) == MapSeq(sorted, Title) by {
      forall i | 0 <= i < |r| ensures MapSeq(r, Title)[i] == MapSeq(sorted, Title)[i] {
        assert r[i].title == arranged[i].title == sorted[i].title;
      }
    }
    MultisetMap(sorted, padded, Title);
  }

  lemma SortedTitles(padded: seq<Entry>)
    requires forall i :: 0 <= i < |padded| ==> padded[i].title != "" && Stripped(padded[i].title)
    ensures var sorted := SortBy(padded, EntryNumber);
      forall i :: 0 <= i < |sorted| ==> sorted[i].title != "" && Stripped(sorted[i].title)
  {
    var sorted := SortBy(padded, EntryNumber);
    SortByProps(padded, EntryNumber);
    forall i | 0 <= i < |sorted| ensures sorted[i].title != "" && Stripped(sorted[i].title) {
      assert sorted[i] in multiset(padded);
      var j :| 0 <= j < |padded| && padded[j] == sorted[i];
    }
  }

  /** The same TOC built with the source's loops over the reply's dicts. */
  method BuildTocLoop(toc: seq<Json>, total: int) returns (fixed: seq<Fields>)
    ensures fixed == ToFieldsAll(BuildToc(toc, total))
  {
    var entries := SanitizeLoop(toc);
    entries := PadLoop(entries);
    var sorted := SortBy(entries, EntryNumber);
    var r := RebalancePagesMethod(ToFieldsAll(sorted), total);
    RebalanceEntriesAgree(sorted, total);
    fixed := RenumberLoop(r.value, RebalanceEntries(sorted, total));
  }

  /** The renumbering loop of `node_toc`, on the dicts. */
  method RenumberLoop(balanced: seq<Fields>, ghost arranged: seq<Entry>) returns (fixed: seq<Fields>)
    requires balanced == ToFieldsAll(arranged)
    ensures fixed == ToFieldsAll(Renumber(arranged))
  {
    fixed := [];
    var idx := 0;
    while idx < |balanced|
      invariant 0 <= idx <= |balanced|
      invariant fixed == ToFieldsAll(Renumber(arranged))[..idx]
    {
      ghost var e := arranged[idx];
      TocEntrySet(e.number, e.title, e.pages, idx + 1);
      fixed := fixed + [Set(balanced[idx], "number", JInt(idx + 1))];
      idx := idx + 1;
    }
  }

  /** The coerce-and-sanitise loop of `node_toc`. */
  method SanitizeLoop(toc: seq<Json>) returns (entries: seq<Entry>)
    ensures entries == Sanitize(toc)
  {
    entries := [];
    var i := 0;
    while i < |toc|
      invariant 0 <= i <= |toc|
      invariant entries == Sanitize(toc[..i])
    {
      entries := SanitizeOne(entries, toc[i]);
      assert toc[..i + 1][..i] == toc[..i];
      i := i + 1;
    }
    assert toc[..i] == toc;
  }

  /** One pass of that loop. */
  method SanitizeOne(entries0: seq<Entry>, ch: Json) returns (entries: seq<Entry>)
    ensures entries == entries0 + SanitizeItem(ch)
  {
    entries := entries0;
    if ch.JObj? {
      var num := PyInt(Lookup(ch.fields, "number"));
      var title := Lookup(ch.fields, "title");
      var pages := Lookup(ch.fields, "target_pages");
      if num.Some? && title.JStr? && Strip(title.s) != "" {
        var p := if pages.JNull? then None else PyInt(pages);
        entries := entries + [Entry(num.value, Strip(title.s), if p.Some? then p.value else 10)];
      }
    }
  }

  /** The padding loop of `node_toc`. */
  method PadLoop(fixed: seq<Entry>) returns (entries: seq<Entry>)
    ensures entries == Pad(fixed)
  {
    entries := fixed;
    if |entries| < 6 {
      var need := 6 - |entries|;
      var start := MaxNumber(entries) + 1;
      var k := 0;
      while k < need
        invariant 0 <= k <= need
        invariant entries == fixed + Padding(start, need)[..k]
      {
        entries := entries + [Entry(start + k, ChapterTitle(start + k), 10)];
        assert Padding(start, need)[..k + 1] == Padding(start, need)[..k] + [Padding(start, need)[k]];
        k := k + 1;
      }
      assert Padding(start, need)[..need] == Padding(start, need);
    }
  }

  // ---------------------------------------------------------------------------------------------
  // `node_toc`: the model calls and the fallbacks

  const WrapperKeys: seq<string> := ["toc", "chapters", "table_of_contents", "items"]

  /** The value under the first of `keys` that holds a list; the dict itself when there is none. */
  function UnwrapFrom(fs: Fields, keys: seq<string>): (r: Json)
    ensures r == JObj(fs) || exists i :: 0 <= i < |keys| && Get(fs, keys[i]) == Some(r) && r.JArr?
  {
    if keys == [] then JObj(fs)
    else
      var v := Get(fs, keys[0]);
      if v.Some? && v.value.JArr? then v.value else UnwrapFrom(fs, keys[1..])
  }

  /** `{"toc": [...]}` and the like are unwrapped; any other reply is left as it is. */
  function Unwrap(obj: Json): Json {
    if obj.JObj? then UnwrapFrom(obj.fields, WrapperKeys) else obj
  }

  /** The value under `k` is a list. */
  predicate ListAt(fs: Fields, k: string) {
    var v := Get(fs, k);
    v.Some? && v.value.JArr?
  }

  /** A dict is replaced by the list under the first wrapper key that holds one, and stays a dict
      when no wrapper key holds a list. */
  lemma {:induction false} UnwrapFromFirst(fs: Fields, keys: seq<string>, i: nat)
    requires i <= |keys|
    requires forall j :: 0 <= j < i ==> !ListAt(fs, keys[j])
    requires i < |keys| ==> ListAt(fs, keys[i])
    ensures UnwrapFrom(fs, keys) == if i < |keys| then Get(fs, keys[i]).value else JObj(fs)
  {
    if keys != [] && i > 0 {
      assert !ListAt(fs, keys[0]);
      forall j | 0 <= j < i - 1 ensures !ListAt(fs, keys[1..][j]) {
        assert keys[1..][j] == keys[j + 1];
      }
      UnwrapFromFirst(fs, keys[1..], i - 1);
    }
  }

  lemma UnwrapList(items: seq<Json>)
    ensures Unwrap(JArr(items)) == JArr(items)
  {
  }

  /** The entries as the dicts `node_toc` iterates over. */
  function Objects(es: seq<Entry>): (r: seq<Json>)
    ensures |r| == |es| && forall i :: 0 <= i < |es| ==> r[i] == JObj(ToFields(es[i]))
  {
    seq(|es|, i requires 0 <= i < |es| => JObj(ToFields(es[i])))
  }

  /** Entries with stripped non-blank titles come through the sanitising loop unchanged. */
  lemma {:induction false} SanitizeObjects(es: seq<Entry>)
    requires forall i :: 0 <= i < |es| ==> es[i].title != "" && Stripped(es[i].title)
    ensures Sanitize(Objects(es)) == es
  {
    if es != [] {
      var init, last := es[..|es| - 1], es[|es| - 1];
      assert es == init + [last];
      var o := Objects(es);
      assert o[..|o| - 1] == Objects(init);
      assert o[|o| - 1] == JObj(ToFields(last));
      assert Sanitize(o) == Sanitize(Objects(init)) + SanitizeItem(JObj(ToFields(last)));
      SanitizeObjects(init);
      SanitizeEntry(last);
    }
  }

  lemma SanitizeEntry(e: Entry)
    requires e.title != "" && Stripped(e.title)
    ensures SanitizeItem(JObj(ToFields(e))) == [e]
  {
    TocEntryGet(e.number, e.title, e.pages);
    StrippedIsFixed(e.title, Whitespace);
    assert Strip(e.title) == e.title;
  }

  const TocSystem: string :=
    "Design a Table of Contents for a practical, non-repetitive book.\n"
    + "Return ONLY JSON: an array of objects with fields: number (int), title (string), target_pages (int).\n"
    + "No prose, no markdown, no explanations."

  const LinesSystem: string := "List the chapters as numbered lines only."

  function TocUser(spec: Json, total: int): string {
    "Book spec: " + Dumps(spec, true) + "\nTotal pages: " + IntToString(total) + "\n"
    + "Aim for 8\U{2013}14 chapters. target_pages should roughly sum to the total pages."
  }

  /** Where the candidate entries come from when the reply is not a list: the numbered lines of a
      second reply, else ten synthesised chapters. */
  function FallbackToc(spec: Json, total: int, lines: string): Result<seq<Entry>> {
    var h := HeuristicToc(lines, total);
    if h != [] then Ok(h) else SynthesizeToc(spec, total, 10)
  }

  /** `node_toc` on the spec and page total, with the model's replies: the TOC and the model after
      the calls. */
  function NodeToc(spec: Json, total: int, llm: Llm<Request>, dec: Decoder): Result<(seq<Entry>, Llm<Request>)> {
    var user := TocUser(spec, total);
    var (obj, l1) :- CallLlmJsonLenient(llm, dec, TocSystem, user);
    TocFromReply(spec, total, user, obj, l1)
  }

  /** What `node_toc` does with the parsed reply `obj`. */
  function TocFromReply(spec: Json, total: int, user: string, obj: Json, llm: Llm<Request>): Result<(seq<Entry>, Llm<Request>)> {
    var o := Unwrap(obj);
    if o.JArr? then Ok((BuildToc(o.items, total), llm)) else TocFromLines(spec, total, user, llm)
  }

  /** The numbered-lines request and the fallbacks, when the reply holds no list. */
  function TocFromLines(spec: Json, total: int, user: string, llm: Llm<Request>): Result<(seq<Entry>, Llm<Request>)> {
    var (lines, l2) :- Invoke(llm, Request(LinesSystem, user));
    var toc :- FallbackToc(spec, total, lines);
    Ok((BuildToc(Objects(toc), total), l2))
  }

  /** Whatever the replies, a TOC that comes back has at least six entries numbered 1..n in order,
      each with a stripped non-blank title and at least one page. */
  lemma NodeTocProps(spec: Json, total: int, llm: Llm<Request>, dec: Decoder)
    ensures var r := NodeToc(spec, total, llm, dec);
      r.Ok? ==> WellFormedToc(r.value.0)
  {
    var user := TocUser(spec, total);
    var first := CallLlmJsonLenient(llm, dec, TocSystem, user);
    if first.Ok? {
      TocFromReplyProps(spec, total, user, first.value.0, first.value.1);
    }
  }

  lemma TocFromReplyProps(spec: Json, total: int, user: string, obj: Json, llm: Llm<Request>)
    ensures var r := TocFromReply(spec, total, user, obj, llm);
      r.Ok? ==> WellFormedToc(r.value.0)
  {
    var o := Unwrap(obj);
    if o.JArr? {
      BuildTocProps(o.items, total);
    } else {
      TocFromLinesProps(spec, total, user, llm);
    }
  }

  lemma TocFromLinesProps(spec: Json, total: int, user: string, llm: Llm<Request>)
    ensures var r := TocFromLines(spec, total, user, llm);
      r.Ok? ==> WellFormedToc(r.value.0)
  {
    if llm.replies != [] {
      var toc := FallbackToc(spec, total, llm.replies[0]);
      if toc.Ok? {
        BuildTocProps(Objects(toc.value), total);
      }
    }
  }

  /** With a dict spec the fallbacks cannot fail: `node_toc` fails only when a model call does
      (no reply left, or neither the reply nor its repair parses). */
  lemma NodeTocFailsOnlyInCalls(fs: Fields, total: int, llm: Llm<Request>, dec: Decoder)
    ensures var r := NodeToc(JObj(fs), total, llm, dec);
      var first := CallLlmJsonLenient(llm, dec, TocSystem, TocUser(JObj(fs), total));
      r.Err? <==> first.Err? || (!Unwrap(first.value.0).JArr? && first.value.1.replies == [])
  {
  }

  /** The numbered-lines fallback goes through the sanitising loop unchanged. */
  lemma HeuristicTocSanitized(lines: string, total: int)
    ensures Sanitize(Objects(HeuristicToc(lines, total))) == HeuristicToc(lines, total)
  {
    if |Uniq(lines)| >= 6 {
      HeuristicTocProps(lines, total);
    }
    SanitizeObjects(HeuristicToc(lines, total));
  }
}
