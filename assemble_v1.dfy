/**
 * The Markdown text `node_assemble` of the earlier version (appv1.py) builds: a title line, an
 * optional subtitle, an "About this book" section with the audience and optional goals, a plain
 * table of contents, and every draft under a "Chapter n: title" heading. The parts are joined by
 * newlines, the whole is stripped, and one newline is put back at the end.
 */
module AssembleV1 {
  import opened Wrappers
  import opened PyStrings
  import opened JsonModel
  import opened Book
  import opened Collect

  /** The parts before the goals: title, optional subtitle, and the audience. */
  function HeadParts(title: Json, subtitle: Json, audience: Json): (r: seq<string>)
    ensures |r| == if Truthy(subtitle) then 5 else 4
    ensures r[0] == "# " + PyStr(title) + "\n"
    ensures Truthy(subtitle) ==> r[1] == "*" + PyStr(subtitle) + "*\n"
    ensures r[|r| - 3] == "\n"
    ensures r[|r| - 2] == "## About this book\n"
    ensures r[|r| - 1] == "**Audience:** " + PyStr(audience) + "\n\n"
  {
    ["# " + PyStr(title) + "\n"] + (if Truthy(subtitle) then ["*" + PyStr(subtitle) + "*\n"] else [])
    + ["\n", "## About this book\n", "**Audience:** " + PyStr(audience) + "\n\n"]
  }

  /** One line per goal. */
  function GoalLines(gs: seq<Json>): (r: seq<string>)
    ensures |r| == |gs| && forall i :: 0 <= i < |gs| ==> r[i] == "- " + PyStr(gs[i])
  {
    seq(|gs|, i requires 0 <= i < |gs| => "- " + PyStr(gs[i]))
  }

  /** The goals block, present only when `spec.get("goals")` is truthy; it must then be iterable. */
  function GoalParts(goals: Json): Result<seq<string>> {
    if Truthy(goals) then
      var gs :- Iter(goals);
      Ok(["**Goals:**\n"] + GoalLines(gs) + ["\n"])
    else Ok([])
  }

  /** `f"{num}. {title} ({pages} pages)"` with each field read by `.get` (None when missing). */
  function TocLineV1(ch: Fields): string {
    PyStr(GetDefault(ch, "number", JNull)) + ". " + PyStr(GetDefault(ch, "title", JNull))
    + " (" + PyStr(GetDefault(ch, "target_pages", JNull)) + " pages)"
  }

  /** One turn of the TOC loop: `ch.get` needs a dict. */
  function TocStep(ch: Json): Result<seq<string>> {
    var fs :- AsDict(ch);
    Ok([TocLineV1(fs)])
  }

  /** A TOC entry gives its line exactly when it is a dict. */
  lemma TocStepIs(ch: Json)
    ensures TocStep(ch).Ok? <==> ch.JObj?
    ensures TocStep(ch).Ok? ==> TocStep(ch).value == [TocLineV1(ch.fields)]
  {
  }

  function ChapterHeading(num: int, title: Json): string {
    "\n\n## Chapter " + IntToString(num) + ": " + PyStr(title) + "\n\n"
  }

  /** One turn of the drafts loop: the heading and the stripped text; `md.strip()` needs a string. */
  function ChapterPartsV1(d: Json): Result<seq<string>> {
    var fs :- AsDict(d);
    var num :- ToInt(GetDefault(fs, "number", JInt(0)));
    var title := GetDefault(fs, "title", JStr("Chapter " + IntToString(num)));
    match GetDefault(fs, "markdown", JStr(""))
    case JStr(md) => Ok([ChapterHeading(num, title), Strip(md)])
    case _ => Err(AttributeError("strip"))
  }

  /** A draft gives its heading and its stripped text exactly when it is a dict whose number converts
      with `int()` and whose `markdown` (default "") is a string. */
  lemma ChapterPartsV1Is(d: Json)
    ensures ChapterPartsV1(d).Ok? <==>
      && d.JObj? && PyInt(GetDefault(d.fields, "number", JInt(0))).Some?
      && GetDefault(d.fields, "markdown", JStr("")).JStr?
    ensures ChapterPartsV1(d).Ok? ==>
      var num := PyInt(GetDefault(d.fields, "number", JInt(0))).value;
      ChapterPartsV1(d).value == [ChapterHeading(num, GetDefault(d.fields, "title", JStr("Chapter " + IntToString(num)))),
                                  Strip(GetDefault(d.fields, "markdown", JStr("")).s)]
  {
  }

  /** The parts up to the TOC heading: the head, the goals block and "## Table of Contents". */
  function HeadOf(state: Fields): Result<seq<string>> {
    var spec := GetDefault(state, "spec", JObj([]));
    var fs :- AsDict(spec);
    var title := GetDefault(fs, "title", JStr("Untitled Book"));
    var subtitle := GetDefault(fs, "subtitle", JNull);
    var audience := GetDefault(fs, "audience", JStr("General readers"));
    var goalParts :- GoalParts(GetDefault(fs, "goals", JNull));
    var head := HeadParts(title, subtitle, audience);
    assert (head + goalParts + ["## Table of Contents\n"])[..|head|] == head;
    Ok(head + goalParts + ["## Table of Contents\n"])
  }

  /** The head starts with the title line and has "## About this book" after the optional
      subtitle; `spec` must be a dict. */
  lemma HeadOfIs(state: Fields)
    requires HeadOf(state).Ok?
    ensures var spec := GetDefault(state, "spec", JObj([]));
      var head := HeadOf(state).value;
      && spec.JObj?
      && |head| >= 4 && head[0] == "# " + PyStr(GetDefault(spec.fields, "title", JStr("Untitled Book"))) + "\n"
      && head[if Truthy(GetDefault(spec.fields, "subtitle", JNull)) then 3 else 2] == "## About this book\n"
  {
  }

  /** The parts of the book, in the order the source appends them. */
  function PartsV1(state: Fields): Result<seq<string>> {
    var head :- HeadOf(state);
    var toc :- Iter(GetDefault(state, "toc", JArr([])));
    var withToc :- CollectFrom(toc, TocStep, head);
    var ds :- Iter(GetDefault(state, "drafts", JArr([])));
    CollectFrom(ds, ChapterPartsV1, withToc + ["\n"])
  }

  /** `"\n".join(parts).strip() + "\n"` */
  function MarkdownV1(state: Fields): Result<string> {
    var parts :- PartsV1(state);
    Ok(Strip(Join("\n", parts)) + "\n")
  }

  /** `node_assemble` of the earlier version, merged into the state. */
  function NodeAssembleV1(state: Fields): Result<Fields> {
    var md :- MarkdownV1(state);
    Ok(Set(state, "book_markdown", JStr(md)))
  }

  /** The three loops as the source writes them, appending to one list of parts. */
  method NodeAssembleV1Loop(state: Fields) returns (r: Result<Fields>)
    ensures r == NodeAssembleV1(state)
  {
    var head := HeadOf(state);
    if head.Err? {
      return Err(head.error);
    }
    var parts := head.value;
    var toc := Iter(GetDefault(state, "toc", JArr([])));
    if toc.Err? {
      return Err(toc.error);
    }
    var t := 0;
    while t < |toc.value|
      invariant 0 <= t <= |toc.value|
      invariant CollectFrom(toc.value[t..], TocStep, parts) == CollectFrom(toc.value, TocStep, head.value)
    {
      var ch := toc.value[t];
      if !ch.JObj? {
        return Err(AttributeError("get"));
      }
      assert toc.value[t..][1..] == toc.value[t + 1..];
      parts := parts + [TocLineV1(ch.fields)];
      t := t + 1;
    }
    assert toc.value[t..] == [];
    parts := parts + ["\n"];
    var ds := Iter(GetDefault(state, "drafts", JArr([])));
    if ds.Err? {
      return Err(ds.error);
    }
    var k := 0;
    ghost var start := parts;
    while k < |ds.value|
      invariant 0 <= k <= |ds.value|
      invariant CollectFrom(ds.value[k..], ChapterPartsV1, parts) == CollectFrom(ds.value, ChapterPartsV1, start)
    {
      var p := ChapterPartsV1(ds.value[k]);
      if p.Err? {
        return Err(p.error);
      }
      assert ds.value[k..][1..] == ds.value[k + 1..];
      parts := parts + p.value;
      k := k + 1;
    }
    assert ds.value[k..] == [];
    return Ok(Set(state, "book_markdown", JStr(Strip(Join("\n", parts)) + "\n")));
  }

  /** Where part `k` sits in `sep.join(parts)`; a later part sits after the first part and a separator. */
  lemma {:induction false} JoinAt(sep: string, parts: seq<string>, k: nat) returns (o: nat)
    requires k < |parts|
    ensures o + |parts[k]| <= |Join(sep, parts)| && Join(sep, parts)[o..o + |parts[k]|] == parts[k]
    ensures k > 0 ==> o >= |parts[0]| + |sep|
    decreases |parts|
  {
    var j := Join(sep, parts);
    if |parts| == 1 {
      o := 0;
    } else {
      var init := parts[..|parts| - 1];
      JoinFirst(sep, init);
      assert j == Join(sep, init) + sep + parts[|parts| - 1];
      if k == |parts| - 1 {
        o := |Join(sep, init)| + |sep|;
        assert j[o..] == parts[k];
      } else {
        o := JoinAt(sep, init, k);
        assert init[k] == parts[k] && init[0] == parts[0];
        assert j[..|Join(sep, init)|] == Join(sep, init);
      }
    }
  }

  /** A part with a non-blank first character somewhere after the first part protects the first
      part from `strip`, and `strip` leaves a non-blank last character. */
  lemma StripKeepsHead(j: string, head: string, o: nat)
    requires |head| <= o < |j| && j[..|head|] == head && head != [] && !IsSpace(head[0]) && !IsSpace(j[o])
    ensures var s := Strip(j);
      && |s| > |head| && s[..|head|] == head && !IsSpace(s[|s| - 1])
  {
    LStripOfStripped(j, Whitespace);
    assert j[0] == head[0];
    var s := RStrip(j, Whitespace);
    assert o < |s|;
    assert s[..|head|] == j[..|s|][..|head|];
  }

  /** Joining parts with newlines, stripping and adding one newline keeps the first part at the
      start when it and a later part begin with a non-blank character, and ends the text with
      exactly one newline. */
  lemma JoinedEnds(parts: seq<string>, k: nat, first: string, md: string)
    requires 0 < k < |parts| && parts[0] == first && first != [] && !IsSpace(first[0])
    requires parts[k] != [] && !IsSpace(parts[k][0])
    requires md == Strip(Join("\n", parts)) + "\n"
    ensures |md| > |first| && md[..|first|] == first && md[|md| - 1] == '\n' && !IsSpace(md[|md| - 2])
  {
    var j := Join("\n", parts);
    JoinFirst("\n", parts);
    var o := JoinAt("\n", parts, k);
    assert j[o] == parts[k][0];
    StripKeepsHead(j, first, o);
    var s := Strip(j);
    assert md[..|first|] == s[..|first|];
  }

  /** Both the title line and the "About this book" heading begin with '#', which is not blank. */
  lemma HeadingsStart(title: string)
    ensures ("# " + title + "\n")[0] == '#' && "## About this book\n"[0] == '#' && !IsSpace('#')
  {
  }

  /** The earlier `book_markdown` starts with the title line `"# " + title` (title defaulting to
      "Untitled Book") and ends with exactly one newline: its last character is a newline and the
      one before it is not whitespace. */
  lemma MarkdownV1Ends(state: Fields)
    requires MarkdownV1(state).Ok?
    ensures var md := MarkdownV1(state).value;
      var spec := GetDefault(state, "spec", JObj([]));
      var first := "# " + PyStr(GetDefault(spec.fields, "title", JStr("Untitled Book"))) + "\n";
      && spec.JObj?
      && |md| > |first| && md[..|first|] == first
      && md[|md| - 1] == '\n' && !IsSpace(md[|md| - 2])
  {
    MarkdownV1Is(state);
    PartsV1Is(state);
    HeadOfIs(state);
    var md := MarkdownV1(state).value;
    var spec := GetDefault(state, "spec", JObj([]));
    var title := PyStr(GetDefault(spec.fields, "title", JStr("Untitled Book")));
    var first := "# " + title + "\n";
    HeadingsStart(title);
    var head := HeadOf(state).value;
    var toc := PyIter(GetDefault(state, "toc", JArr([]))).value;
    var ds := PyIter(GetDefault(state, "drafts", JArr([]))).value;
    var parts := PartsV1(state).value;
    TailHead(head, toc, ds, ["\n"]);
    var k := if Truthy(GetDefault(spec.fields, "subtitle", JNull)) then 3 else 2;
    assert parts[0] == head[0] && parts[k] == head[k] by {
      assert parts[..|head|][0] == parts[0] && parts[..|head|][k] == parts[k];
    }
    JoinedEnds(parts, k, first, md);
  }

  /** The earlier `node_assemble` sets `book_markdown` and no other key. */
  lemma NodeAssembleV1OnlyMarkdown(state: Fields)
    ensures var r := NodeAssembleV1(state);
      && (r.Ok? <==> MarkdownV1(state).Ok?)
      && (r.Ok? ==> Get(r.value, "book_markdown") == Some(JStr(MarkdownV1(state).value))
                    && forall k :: k != "book_markdown" ==> Get(r.value, k) == Get(state, k))
  {
    if MarkdownV1(state).Ok? {
      var v := JStr(MarkdownV1(state).value);
      SetGet(state, "book_markdown", v, "book_markdown");
      SetLeavesOthers(state, "book_markdown", v);
    }
  }

  /** The parts start with the heading parts, and the blank line follows the table of contents. */
  lemma TailHead(head: seq<string>, toc: seq<Json>, ds: seq<Json>, mid: seq<string>)
    requires CollectFrom(toc, TocStep, head).Ok?
    requires CollectFrom(ds, ChapterPartsV1, CollectFrom(toc, TocStep, head).value + mid).Ok?
    ensures var r := CollectFrom(ds, ChapterPartsV1, CollectFrom(toc, TocStep, head).value + mid).value;
      var b := |head| + |toc|;
      b + |mid| <= |r| && r[..|head|] == head && r[b..b + |mid|] == mid
  {
    TocWidth();
    CollectLength(toc, TocStep, head, 1);
    ChainEnds(toc, TocStep, ds, ChapterPartsV1, head, mid);
  }

  /** After the heading parts comes one table-of-contents line per entry, in order. */
  lemma TailToc(head: seq<string>, toc: seq<Json>, ds: seq<Json>, mid: seq<string>)
    requires CollectFrom(toc, TocStep, head).Ok?
    requires CollectFrom(ds, ChapterPartsV1, CollectFrom(toc, TocStep, head).value + mid).Ok?
    ensures var r := CollectFrom(ds, ChapterPartsV1, CollectFrom(toc, TocStep, head).value + mid).value;
      forall i :: 0 <= i < |toc| ==>
        TocStep(toc[i]).Ok? && |head| + i + 1 <= |r| && r[|head| + i..|head| + i + 1] == [TocLineV1(toc[i].fields)]
  {
    TocWidth();
    ChainFirst(toc, TocStep, ds, ChapterPartsV1, head, mid);
    forall i | 0 <= i < |toc| ensures TocStep(toc[i]).Ok? && TocStep(toc[i]).value == [TocLineV1(toc[i].fields)] {
      TocStepIs(toc[i]);
    }
  }

  /** After the blank line come two parts per chapter draft, in order, and nothing else. */
  lemma TailChapters(head: seq<string>, toc: seq<Json>, ds: seq<Json>, mid: seq<string>)
    requires CollectFrom(toc, TocStep, head).Ok?
    requires CollectFrom(ds, ChapterPartsV1, CollectFrom(toc, TocStep, head).value + mid).Ok?
    ensures var r := CollectFrom(ds, ChapterPartsV1, CollectFrom(toc, TocStep, head).value + mid).value;
      var b := |head| + |toc| + |mid|;
      && |r| == b + 2 * |ds|
      && forall i :: 0 <= i < |ds| ==>
           ChapterPartsV1(ds[i]).Ok? && b + 2 * i + 2 <= |r| && r[b + 2 * i..b + 2 * i + 2] == ChapterPartsV1(ds[i]).value
  {
    TocWidth();
    ChapterWidth();
    ChainSecond(toc, TocStep, ds, ChapterPartsV1, head, mid);
  }

  lemma TocWidth()
    ensures forall x :: TocStep(x).Ok? ==> |TocStep(x).value| == 1
  {
    forall x | TocStep(x).Ok? ensures |TocStep(x).value| == 1 {
      TocStepIs(x);
    }
  }

  lemma ChapterWidth()
    ensures forall x :: ChapterPartsV1(x).Ok? ==> |ChapterPartsV1(x).value| == 2
  {
    forall x | ChapterPartsV1(x).Ok? ensures |ChapterPartsV1(x).value| == 2 {
      ChapterPartsV1Is(x);
    }
  }

  lemma MarkdownV1Is(state: Fields)
    requires MarkdownV1(state).Ok?
    ensures PartsV1(state).Ok? && MarkdownV1(state).value == Strip(Join("\n", PartsV1(state).value)) + "\n"
  {
  }

  /** The parts are the head followed by what the two loops add. */
  lemma PartsV1Is(state: Fields)
    requires PartsV1(state).Ok?
    ensures HeadOf(state).Ok? && PyIter(GetDefault(state, "toc", JArr([]))).Some?
    ensures PyIter(GetDefault(state, "drafts", JArr([]))).Some?
    ensures var toc := PyIter(GetDefault(state, "toc", JArr([]))).value;
      var ds := PyIter(GetDefault(state, "drafts", JArr([]))).value;
      && CollectFrom(toc, TocStep, HeadOf(state).value).Ok?
      && CollectFrom(ds, ChapterPartsV1, CollectFrom(toc, TocStep, HeadOf(state).value).value + ["\n"]).Ok?
      && PartsV1(state).value == CollectFrom(ds, ChapterPartsV1, CollectFrom(toc, TocStep, HeadOf(state).value).value + ["\n"]).value
  {
  }
}
