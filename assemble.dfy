/**
 * The Markdown text `node_assemble` of the current version (app.py) builds: the title line, an
 * optional subtitle, a table of contents that links to an anchor per chapter, and the chapters
 * under their anchored headings. The lines are joined by newlines.
 */
module Assemble {
  import opened Wrappers
  import opened PyStrings
  import opened JsonModel

  /** What a draft contributes: its number and title as printed, and its text. */
  datatype Shown = Shown(num: string, title: string, text: string)

  /** `d.get("number", "")` and `d.get("title", f"Chapter {num}")` as an f-string shows them; the text
      must be a string for `"\n".join`, else TypeError. */
  function ShowDraft(d: Fields): (r: Result<Shown>)
    ensures r.Ok? <==> GetDefault(d, "text", JStr("")).JStr?
  {
    var num := PyStr(GetDefault(d, "number", JStr("")));
    var title := PyStr(GetDefault(d, "title", JStr("Chapter " + num)));
    match GetDefault(d, "text", JStr(""))
    case JStr(t) => Ok(Shown(num, title, t))
    case _ => Err(TypeError("sequence item: expected str instance"))
  }

  /** Every draft must be a dict (`d.get`, in the first loop), then every text a string. */
  function ShowAll(ds: seq<Json>): (r: Result<seq<Shown>>)
    ensures r.Ok? ==> |r.value| == |ds|
    decreases |ds|
  {
    if ds == [] then Ok([])
    else
      var _ :- if forall i :: 0 <= i < |ds| ==> ds[i].JObj? then Ok(()) else Err(AttributeError("get"));
      var first :- ShowDraft(ds[0].fields);
      var rest :- ShowAll(ds[1..]);
      Ok([first] + rest)
  }

  /** What the walk needs: every draft a dict, and every text (default "") a string. */
  predicate Showable(ds: seq<Json>) {
    && (forall i :: 0 <= i < |ds| ==> ds[i].JObj?)
    && (forall i :: 0 <= i < |ds| ==> GetDefault(ds[i].fields, "text", JStr("")).JStr?)
  }

  /** The walk succeeds iff the drafts are showable, shows draft i at position i, and raises
      AttributeError (from the first loop's `d.get`) before any TypeError of the join. */
  lemma {:induction false} ShowAllIs(ds: seq<Json>)
    ensures ShowAll(ds).Ok? <==> Showable(ds)
    ensures ShowAll(ds).Ok? ==> forall i :: 0 <= i < |ds| ==> ShowAll(ds).value[i] == ShowDraft(ds[i].fields).value
    ensures (exists i :: 0 <= i < |ds| && !ds[i].JObj?) ==> ShowAll(ds) == Err(AttributeError("get"))
    decreases |ds|
  {
    if ds != [] {
      ShowAllIs(ds[1..]);
      assert forall i :: 0 < i < |ds| ==> ds[1..][i - 1] == ds[i];
      if Showable(ds) {
        assert Showable(ds[1..]);
        assert ShowAll(ds) == Ok([ShowDraft(ds[0].fields).value] + ShowAll(ds[1..]).value);
      }
    }
  }

  function TocLine(s: Shown): string {
    "- [" + s.num + ". " + s.title + "](#ch" + s.num + ")"
  }

  function Heading(s: Shown): string {
    "## <a id=\"ch" + s.num + "\"></a>" + s.num + ". " + s.title + "\n"
  }

  const Rule: string := "\n---\n"

  function Header(title: Json, subtitle: Json): (h: seq<string>)
    ensures |h| == if Truthy(subtitle) then 4 else 3
    ensures h[0] == "# " + PyStr(title)
    ensures Truthy(subtitle) ==> h[1] == "_" + PyStr(subtitle) + "_"
    ensures h[|h| - 2] == Rule && h[|h| - 1] == "## Table of Contents"
  {
    ["# " + PyStr(title)] + (if Truthy(subtitle) then ["_" + PyStr(subtitle) + "_"] else [])
    + [Rule, "## Table of Contents"]
  }

  function TocLines(ss: seq<Shown>): (r: seq<string>)
    ensures |r| == |ss| && forall i :: 0 <= i < |ss| ==> r[i] == TocLine(ss[i])
  {
    seq(|ss|, i requires 0 <= i < |ss| => TocLine(ss[i]))
  }

  /** The chapters: for each draft its heading, its text and a blank line. */
  function Chapters(ss: seq<Shown>): (r: seq<string>)
    ensures |r| == 3 * |ss|
    decreases |ss|
  {
    if ss == [] then [] else [Heading(ss[0]), ss[0].text, "\n"] + Chapters(ss[1..])
  }

  function Lines(title: Json, subtitle: Json, ss: seq<Shown>): seq<string> {
    Header(title, subtitle) + TocLines(ss) + [Rule] + Chapters(ss)
  }

  /** The Markdown of the book, from `spec.get("title", "Book")`, `spec.get("subtitle")` and the drafts. */
  function Markdown(state: Fields): Result<string> {
    var spec := GetDefault(state, "spec", JObj([]));
    var title :- DictGet(spec, "title", JStr("Book"));
    var subtitle :- DictGet(spec, "subtitle", JNull);
    var ds :- Iter(GetDefault(state, "drafts", JArr([])));
    var ss :- ShowAll(ds);
    Ok(Join("\n", Lines(title, subtitle, ss)))
  }

  /** `node_assemble`'s state change: the Markdown under `book_markdown`. */
  function NodeAssemble(state: Fields): Result<Fields> {
    var md :- Markdown(state);
    Ok(Set(state, "book_markdown", JStr(md)))
  }

  lemma {:induction false} ChaptersAt(ss: seq<Shown>, i: nat)
    requires i < |ss|
    ensures Chapters(ss)[3 * i] == Heading(ss[i])
    ensures Chapters(ss)[3 * i + 1] == ss[i].text
    ensures Chapters(ss)[3 * i + 2] == "\n"
    decreases i
  {
    if i > 0 {
      ChaptersAt(ss[1..], i - 1);
      assert Chapters(ss)[3..] == Chapters(ss[1..]);
    }
  }

  /** The layout: the header lines, one TOC line per draft linking to `#ch<number>`, a rule, then
      per draft its heading with the anchor `ch<number>`, its text and a blank line. */
  lemma LinesLayout(title: Json, subtitle: Json, ss: seq<Shown>, i: nat)
    requires i < |ss|
    ensures var ls := Lines(title, subtitle, ss);
      var h := |Header(title, subtitle)|;
      && |ls| == h + 4 * |ss| + 1
      && ls[0] == "# " + PyStr(title)
      && ls[h + i] == TocLine(ss[i])
      && ls[h + |ss|] == Rule
      && ls[h + |ss| + 1 + 3 * i] == Heading(ss[i])
      && ls[h + |ss| + 2 + 3 * i] == ss[i].text
  {
    ChaptersAt(ss, i);
    var hd, tl, ch := Header(title, subtitle), TocLines(ss), Chapters(ss);
    var front := hd + tl + [Rule];
    assert Lines(title, subtitle, ss) == front + ch;
    assert front[0] == hd[0] && front[|hd| + i] == tl[i] && front[|hd| + |ss|] == Rule;
  }

  /** `book_markdown` joins the lines of the stored drafts, which are all showable. */
  lemma MarkdownIs(state: Fields)
    requires Markdown(state).Ok?
    ensures var spec := GetDefault(state, "spec", JObj([])).fields;
      var ds := PyIter(GetDefault(state, "drafts", JArr([]))).value;
      && Showable(ds) && ShowAll(ds).Ok?
      && Markdown(state).value
         == Join("\n", Lines(GetDefault(spec, "title", JStr("Book")), GetDefault(spec, "subtitle", JNull), ShowAll(ds).value))
  {
    ShowAllIs(PyIter(GetDefault(state, "drafts", JArr([]))).value);
  }

  /** TOC line i, heading i and text i carry the number, title and text of draft i. */
  lemma DraftLines(title: Json, subtitle: Json, ds: seq<Json>, i: nat)
    requires Showable(ds) && i < |ds|
    ensures ShowAll(ds).Ok?
    ensures var ls := Lines(title, subtitle, ShowAll(ds).value);
      var h := |Header(title, subtitle)|;
      var s := ShowDraft(ds[i].fields).value;
      && |ls| == h + 4 * |ds| + 1
      && ls[h + i] == TocLine(s)
      && ls[h + |ds|] == Rule
      && ls[h + |ds| + 1 + 3 * i] == Heading(s)
      && ls[h + |ds| + 2 + 3 * i] == s.text
  {
    ShowAllIs(ds);
    LinesLayout(title, subtitle, ShowAll(ds).value, i);
  }

  lemma JoinLast(sep: string, parts: seq<string>)
    requires |parts| > 0
    ensures |Join(sep, parts)| >= |parts[|parts| - 1]|
    ensures Join(sep, parts)[|Join(sep, parts)| - |parts[|parts| - 1]|..] == parts[|parts| - 1]
  {
  }

  /** The text starts with the title line and ends with a newline. */
  lemma MarkdownEnds(state: Fields)
    requires Markdown(state).Ok?
    ensures var md := Markdown(state).value;
      var spec := GetDefault(state, "spec", JObj([])).fields;
      var first := "# " + PyStr(GetDefault(spec, "title", JStr("Book")));
      && |md| > |first| && md[..|first|] == first && md[|md| - 1] == '\n'
  {
    var spec := GetDefault(state, "spec", JObj([]));
    var title := GetDefault(spec.fields, "title", JStr("Book"));
    var subtitle := GetDefault(spec.fields, "subtitle", JNull);
    var ss := ShowAll(PyIter(GetDefault(state, "drafts", JArr([]))).value).value;
    var ls := Lines(title, subtitle, ss);
    assert Markdown(state).value == Join("\n", ls);
    JoinFirst("\n", ls);
    JoinLast("\n", ls);
    var last := ls[|ls| - 1];
    if ss == [] {
      assert last == Rule;
    } else {
      ChaptersAt(ss, |ss| - 1);
      assert last == "\n";
    }
    JoinLonger(ls);
  }

  lemma JoinLonger(ls: seq<string>)
    requires |ls| >= 2
    ensures |Join("\n", ls)| > |ls[0]| + |ls[|ls| - 1]|
  {
    if |ls| > 2 {
      JoinLonger(ls[..|ls| - 1]);
    }
  }

  /** `node_assemble` sets `book_markdown` and no other key. */
  lemma NodeAssembleOnlyMarkdown(state: Fields)
    ensures var r := NodeAssemble(state);
      && (r.Ok? <==> Markdown(state).Ok?)
      && (r.Ok? ==> Get(r.value, "book_markdown") == Some(JStr(Markdown(state).value))
                    && forall k :: k != "book_markdown" ==> Get(r.value, k) == Get(state, k))
  {
    if Markdown(state).Ok? {
      var v := JStr(Markdown(state).value);
      SetGet(state, "book_markdown", v, "book_markdown");
      forall k | k != "book_markdown"
        ensures Get(Set(state, "book_markdown", v), k) == Get(state, k)
      {
        SetGet(state, "book_markdown", v, k);
      }
    }
  }
}
