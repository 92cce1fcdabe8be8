/**
 * The table-of-contents and plan stages of the earlier version (appv1.py). A node of that version
 * returns only the key it produces (`{"toc": chapters}`); the graph merges it into the state, which
 * is modelled by `Set`. Every model call goes through the retry loop `call_llm_json`.
 */
module StagesV1 {
  import opened Wrappers
  import opened JsonModel
  import opened Sorting
  import opened Pages
  import opened Oracle
  import opened ExtractV1
  import opened PagesV1

  /** The number of retries `call_llm_json` is called with (its default). */
  const MaxRetries: int := 2

  // ---------------------------------------------------------------------------------------------
  // node_toc

  const TocSystemV1: string :=
    "Design a detailed, logical table of contents for a ~200-page book. "
    + "Include ~12\U{2013}18 chapters. For each chapter provide: number, title, summary, target_pages."

  /** `json.dumps(schema, indent=2)` of the TOC schema. */
  const TocSchemaV1: string :=
    "{\n  \"chapters\": [\n    {\n      \"number\": \"integer\",\n      \"title\": \"string\",\n"
    + "      \"summary\": \"string\",\n      \"target_pages\": \"integer\"\n    }\n  ]\n}"

  function TocUserV1(spec: Json, pagesTotal: Json): string {
    "Spec: " + Dumps(spec, true) + "\nPages total: " + PyStr(pagesTotal) + "\n"
    + "Ensure the sum of target_pages is close to the total."
  }

  const NoChapters: string := "Model did not return a valid chapters list"

  /** The sort key `int(c.get("number", 0))` of every chapter, in list order, with its dict. */
  function Numbered(cs: seq<Json>): (r: Result<seq<(int, Fields)>>)
    ensures r.Ok? <==> forall i :: 0 <= i < |cs| ==> cs[i].JObj? && PyInt(GetDefault(cs[i].fields, "number", JInt(0))).Some?
    ensures r.Ok? ==> |r.value| == |cs|
    ensures r.Ok? ==> forall i :: 0 <= i < |cs| ==>
      cs[i] == JObj(r.value[i].1) && PyInt(GetDefault(r.value[i].1, "number", JInt(0))) == Some(r.value[i].0)
    decreases |cs|
  {
    if cs == [] then Ok([])
    else
      var fs :- AsDict(cs[0]);
      var n :- ToInt(GetDefault(fs, "number", JInt(0)));
      var rest :- Numbered(cs[1..]);
      Ok([(n, fs)] + rest)
  }

  function NumberKey(p: (int, Fields)): int { p.0 }

  function Objs(fss: seq<Fields>): (r: seq<Json>)
    ensures |r| == |fss| && forall i :: 0 <= i < |fss| ==> r[i] == JObj(fss[i])
  {
    seq(|fss|, i requires 0 <= i < |fss| => JObj(fss[i]))
  }

  predicate NonEmptyList(j: Json) { j.JArr? && j.items != [] }

  /** What `node_toc` does with the decoded reply: `toc.get("chapters", [])`, the check that it is a
      non-empty list, the sort by number and the rebalance to `pages_total` (an int is assumed). */
  function ChaptersOfReply(reply: Json, pagesTotal: Json): (r: Result<seq<Fields>>)
    ensures r.Ok? ==> |r.value| > 0
  {
    var chapters :- DictGet(reply, "chapters", JArr([]));
    var _ :- Need(NonEmptyList(chapters), ValueError(NoChapters));
    var numbered :- Numbered(chapters.items);
    var sorted := SortBy(numbered, NumberKey);
    var total :- if pagesTotal.JInt? then Ok(pagesTotal.n) else Err(TypeError("pages_total"));
    RebalancePagesV1(Values(sorted), total)
  }

  /** `node_toc` of the earlier version, merged into the state. */
  function NodeTocV1(state: Fields, llm: Llm<string>, loads: string -> Option<Json>): Result<(Fields, Llm<string>)> {
    var spec :- Field(state, "spec");
    var pt :- Field(state, "pages_total");
    match CallLlmJsonV1(llm, loads, TocSystemV1, TocUserV1(spec, pt), TocSchemaV1, MaxRetries)
    case Err(e) => Err(e)
    case Ok((reply, l1)) =>
      match ChaptersOfReply(reply, pt)
      case Err(e) => Err(e)
      case Ok(chapters) => Ok((Set(state, "toc", JArr(Objs(chapters))), l1))
  }

  /** The chapter number as the sort key reads it (0 where it cannot be read). */
  function NumberOf(fs: Fields): int {
    match PyInt(GetDefault(fs, "number", JInt(0)))
    case Some(n) => n
    case None => 0
  }

  /** The page count stored under `target_pages` (0 where it is not an int). */
  function PagesOf(fs: Fields): int {
    match Get(fs, "target_pages")
    case Some(JInt(n)) => n
    case _ => 0
  }

  function PagesList(fss: seq<Fields>): (r: seq<int>)
    ensures |r| == |fss| && forall i :: 0 <= i < |fss| ==> r[i] == PagesOf(fss[i])
  {
    seq(|fss|, i requires 0 <= i < |fss| => PagesOf(fss[i]))
  }

  /** A TOC as the earlier version promises it: chapters in non-decreasing number order, each with an
      int `target_pages` of at least 1, summing to `total`. */
  ghost predicate BalancedTocV1(fss: seq<Fields>, total: int) {
    && (forall i :: 0 <= i < |fss| ==> Get(fss[i], "target_pages") == Some(JInt(PagesOf(fss[i]))))
    && AllAtLeast(PagesList(fss), 1)
    && Sum(PagesList(fss)) == total
    && (forall i, j :: 0 <= i < j < |fss| ==> NumberOf(fss[i]) <= NumberOf(fss[j]))
  }

  /** Replacing `target_pages` keeps the number the sort read. */
  lemma SetPagesKeepsNumber(fs: Fields, n: int, p: int)
    requires PyInt(GetDefault(fs, "number", JInt(0))) == Some(n)
    ensures NumberOf(Set(fs, "target_pages", JInt(p))) == n
    ensures PagesOf(Set(fs, "target_pages", JInt(p))) == p
    ensures Get(Set(fs, "target_pages", JInt(p)), "target_pages") == Some(JInt(p))
  {
    SetGet(fs, "target_pages", JInt(p), "number");
    SetGet(fs, "target_pages", JInt(p), "target_pages");
  }

  /** The sorted chapters keep, each, the number the sort key read. */
  lemma SortedNumbers(cs: seq<Json>)
    requires Numbered(cs).Ok?
    ensures var sorted := SortBy(Numbered(cs).value, NumberKey);
      && SortedBy(sorted, NumberKey)
      && |sorted| == |cs|
      && forall i :: 0 <= i < |sorted| ==> PyInt(GetDefault(sorted[i].1, "number", JInt(0))) == Some(sorted[i].0)
  {
    var numbered := Numbered(cs).value;
    var sorted := SortBy(numbered, NumberKey);
    SortByProps(numbered, NumberKey);
    assert |sorted| == |multiset(sorted)| == |multiset(numbered)| == |numbered|;
    forall i | 0 <= i < |sorted|
      ensures PyInt(GetDefault(sorted[i].1, "number", JInt(0))) == Some(sorted[i].0)
    {
      assert sorted[i] in multiset(numbered);
      var j :| 0 <= j < |numbered| && numbered[j] == sorted[i];
    }
  }

  /** Chapter `i` gets page count `i` and keeps its number. */
  lemma SetPagesEach(sorted: seq<(int, Fields)>, pages: seq<int>)
    requires forall i :: 0 <= i < |sorted| ==> PyInt(GetDefault(sorted[i].1, "number", JInt(0))) == Some(sorted[i].0)
    requires |pages| == |sorted|
    ensures var out := SetPages(Values(sorted), pages);
      && |out| == |sorted|
      && forall i :: 0 <= i < |out| ==>
           Get(out[i], "target_pages") == Some(JInt(PagesOf(out[i]))) && PagesOf(out[i]) == pages[i]
           && NumberOf(out[i]) == sorted[i].0
  {
    var dicts := Values(sorted);
    var out := SetPages(dicts, pages);
    forall i | 0 <= i < |out|
      ensures Get(out[i], "target_pages") == Some(JInt(PagesOf(out[i])))
      ensures PagesOf(out[i]) == pages[i] && NumberOf(out[i]) == sorted[i].0
    {
      SetPagesKeepsNumber(dicts[i], sorted[i].0, pages[i]);
    }
  }

  /** Page counts written over chapters sorted by number give a balanced TOC. */
  lemma SetPagesBalanced(sorted: seq<(int, Fields)>, pages: seq<int>, total: int)
    requires SortedBy(sorted, NumberKey)
    requires forall i :: 0 <= i < |sorted| ==> PyInt(GetDefault(sorted[i].1, "number", JInt(0))) == Some(sorted[i].0)
    requires |pages| == |sorted| && AllAtLeast(pages, 1) && Sum(pages) == total
    ensures BalancedTocV1(SetPages(Values(sorted), pages), total)
  {
    var out := SetPages(Values(sorted), pages);
    SetPagesEach(sorted, pages);
    forall i, j | 0 <= i < j < |out| ensures NumberOf(out[i]) <= NumberOf(out[j]) {
      assert NumberKey(sorted[i]) <= NumberKey(sorted[j]);
    }
    BalancedOf(out, pages, total);
  }

  lemma BalancedOf(out: seq<Fields>, pages: seq<int>, total: int)
    requires |out| == |pages| && AllAtLeast(pages, 1) && Sum(pages) == total
    requires forall i :: 0 <= i < |out| ==> Get(out[i], "target_pages") == Some(JInt(PagesOf(out[i]))) && PagesOf(out[i]) == pages[i]
    requires forall i, j :: 0 <= i < j < |out| ==> NumberOf(out[i]) <= NumberOf(out[j])
    ensures BalancedTocV1(out, total)
  {
    assert PagesList(out) == pages;
  }

  /** The rebalanced chapters are the sorted ones, in the same order, with page counts of at least
      1 that sum exactly to the total. */
  lemma ChaptersOfReplyBalanced(reply: Json, pagesTotal: Json)
    requires ChaptersOfReply(reply, pagesTotal).Ok?
    ensures pagesTotal.JInt? && BalancedTocV1(ChaptersOfReply(reply, pagesTotal).value, pagesTotal.n)
  {
    var chapters := GetDefault(reply.fields, "chapters", JArr([]));
    var numbered := Numbered(chapters.items).value;
    var sorted := SortBy(numbered, NumberKey);
    SortedNumbers(chapters.items);
    var dicts := Values(sorted);
    var raw := ClampedCounts(dicts, 1).value;
    var pages := RebalanceCountsV1(raw, pagesTotal.n).value;
    assert ChaptersOfReply(reply, pagesTotal).value == SetPages(dicts, pages);
    SetPagesBalanced(sorted, pages, pagesTotal.n);
  }

  /** The earlier `node_toc` fails unless the reply is a dict whose `chapters` is a non-empty list;
      when it succeeds, the TOC it stores has the reply's chapter count, sorted by number and
      rebalanced to exactly `pages_total`. */
  lemma NodeTocV1Props(state: Fields, llm: Llm<string>, loads: string -> Option<Json>)
    requires HasKey(state, "spec") && HasKey(state, "pages_total")
    requires var spec := Lookup(state, "spec"); var pt := Lookup(state, "pages_total");
      CallLlmJsonV1(llm, loads, TocSystemV1, TocUserV1(spec, pt), TocSchemaV1, MaxRetries).Ok?
    ensures var spec := Lookup(state, "spec"); var pt := Lookup(state, "pages_total");
      var (reply, l1) := CallLlmJsonV1(llm, loads, TocSystemV1, TocUserV1(spec, pt), TocSchemaV1, MaxRetries).value;
      var r := NodeTocV1(state, llm, loads);
      && (!reply.JObj? ==> r == Err(AttributeError("get")))
      && (reply.JObj? && !NonEmptyList(GetDefault(reply.fields, "chapters", JArr([]))) ==> r == Err(ValueError(NoChapters)))
      && (r.Ok? ==> && r.value.1 == l1
                    && Get(r.value.0, "toc") == Some(JArr(Objs(ChaptersOfReply(reply, pt).value)))
                    && |ChaptersOfReply(reply, pt).value| == |GetDefault(reply.fields, "chapters", JArr([])).items| > 0
                    && pt.JInt? && BalancedTocV1(ChaptersOfReply(reply, pt).value, pt.n))
  {
    var spec := Lookup(state, "spec");
    var pt := Lookup(state, "pages_total");
    var (reply, l1) := CallLlmJsonV1(llm, loads, TocSystemV1, TocUserV1(spec, pt), TocSchemaV1, MaxRetries).value;
    var r := NodeTocV1(state, llm, loads);
    if r.Ok? {
      var out := ChaptersOfReply(reply, pt).value;
      ChaptersOfReplyBalanced(reply, pt);
      SetGet(state, "toc", JArr(Objs(out)), "toc");
      var chapters := GetDefault(reply.fields, "chapters", JArr([]));
      SortedNumbers(chapters.items);
    }
  }

  // ---------------------------------------------------------------------------------------------
  // node_plan

  const PlanSystemV1: string :=
    "Create a chapter plan. Include: objectives (3\U{2013}5), section_outline (5\U{2013}8 sections\n"
    + "with brief bullets), key_concepts, case_studies (optional), image_prompts (0\U{2013}3)."

  /** `json.dumps(schema, indent=2)` of the plan schema. */
  const PlanSchemaV1: string :=
    "{\n  \"number\": \"integer\",\n  \"title\": \"string\",\n  \"objectives\": [\n    \"string\"\n  ],\n"
    + "  \"section_outline\": [\n    {\n      \"heading\": \"string\",\n      \"bullets\": [\n        \"string\"\n"
    + "      ]\n    }\n  ],\n  \"key_concepts\": [\n    \"string\"\n  ],\n  \"case_studies\": [\n    \"string\"\n  ],\n"
    + "  \"image_prompts\": [\n    {\n      \"purpose\": \"string\",\n      \"prompt\": \"string\"\n    }\n  ]\n}"

  function PlanUserV1(spec: Json, ch: Json, wpp: Json): string {
    "Book spec: " + Dumps(spec, true) + "\nChapter: " + Dumps(ch, true) + "\nWords per page: " + PyStr(wpp) + "\n"
    + "Keep the plan concrete and non\U{2011}repetitive."
  }

  /** What one plan promises about its entry: the number stored is the entry's number (the plan's
      own only where the entry has none), and the entry's title replaces the plan's. */
  ghost predicate PlanOfEntry(p: (int, Fields), ch: Json) {
    && ch.JObj?
    && Get(p.1, "number") == Some(JInt(p.0))
    && (HasKey(ch.fields, "number") ==> PyInt(Lookup(ch.fields, "number")) == Some(p.0))
    && (HasKey(ch.fields, "title") ==> Get(p.1, "title") == Get(ch.fields, "title"))
  }

  /** `plan["number"] = int(ch.get("number", plan.get("number", 0)))` and
      `plan["title"] = ch.get("title", plan.get("title", "Untitled"))`; the number is returned
      beside the plan dict. */
  function FixPlanV1(ch: Json, plan: Json): (r: Result<(int, Fields)>)
    ensures r.Ok? ==> PlanOfEntry(r.value, ch)
  {
    var cf :- AsDict(ch);
    var pf :- AsDict(plan);
    var n :- ToInt(GetDefault(cf, "number", GetDefault(pf, "number", JInt(0))));
    var p1 := Set(pf, "number", JInt(n));
    var title := GetDefault(cf, "title", GetDefault(p1, "title", JStr("Untitled")));
    var p2 := Set(p1, "title", title);
    assert Get(p2, "number") == Some(JInt(n)) by {
      SetGet(pf, "number", JInt(n), "number");
      SetGet(p1, "title", title, "number");
    }
    assert Get(p2, "title") == Some(title) by {
      SetGet(p1, "title", title, "title");
    }
    Ok((n, p2))
  }

  /** One turn of `node_plan`'s loop: the request for the entry, then the plan fixed up from it. */
  function PlanOneV1(state: Fields, ch: Json, llm: Llm<string>, loads: string -> Option<Json>)
    : (r: Result<((int, Fields), Llm<string>)>)
    ensures r.Ok? ==> PlanOfEntry(r.value.0, ch)
  {
    var spec :- Field(state, "spec");
    var wpp :- Field(state, "words_per_page");
    match CallLlmJsonV1(llm, loads, PlanSystemV1, PlanUserV1(spec, ch, wpp), PlanSchemaV1, MaxRetries)
    case Err(e) => Err(e)
    case Ok((plan, l1)) =>
      match FixPlanV1(ch, plan)
      case Err(e) => Err(e)
      case Ok(p) => Ok((p, l1))
  }

  /** The plans of the entries `chs`, appended to `acc` in TOC order. */
  function PlanFrom(state: Fields, chs: seq<Json>, loads: string -> Option<Json>, acc: seq<(int, Fields)>, llm: Llm<string>)
    : (r: Result<(seq<(int, Fields)>, Llm<string>)>)
    ensures r.Ok? ==> |acc| <= |r.value.0| && r.value.0[..|acc|] == acc && EntriesOk(r.value.0[|acc|..], chs)
    decreases |chs|
  {
    if chs == [] then
      assert acc[|acc|..] == [];
      Ok((acc, llm))
    else
      var (p, l1) :- PlanOneV1(state, chs[0], llm, loads);
      var r := PlanFrom(state, chs[1..], loads, acc + [p], l1);
      if r.Ok? then PlanFromStep(acc, p, chs, r.value.0); r else r
  }

  /** One more plan in front keeps the promise of `PlanFrom`. */
  lemma PlanFromStep(acc: seq<(int, Fields)>, p: (int, Fields), chs: seq<Json>, ps: seq<(int, Fields)>)
    requires chs != [] && PlanOfEntry(p, chs[0])
    requires |acc + [p]| <= |ps| && ps[..|acc + [p]|] == acc + [p] && EntriesOk(ps[|acc + [p]|..], chs[1..])
    ensures |acc| <= |ps| && ps[..|acc|] == acc && EntriesOk(ps[|acc|..], chs)
  {
    assert ps[|acc|] == ps[..|acc| + 1][|acc|] == (acc + [p])[|acc|] == p;
    assert ps[..|acc|] == ps[..|acc| + 1][..|acc|];
    assert ps[|acc|..][1..] == ps[|acc| + 1..];
  }

  function PlansJsonV1(ps: seq<(int, Fields)>): (j: Json)
    ensures j.JArr? && |j.items| == |ps| && forall i :: 0 <= i < |ps| ==> j.items[i] == JObj(ps[i].1)
  {
    JArr(seq(|ps|, i requires 0 <= i < |ps| => JObj(ps[i].1)))
  }

  /** `node_plan` of the earlier version: one plan per entry of `state["toc"]`, sorted by number
      (the key `int(p.get("number", 0))` is the number just stored), merged under `plans`. */
  function NodePlanV1(state: Fields, llm: Llm<string>, loads: string -> Option<Json>): Result<(Fields, Llm<string>)> {
    var toc :- Field(state, "toc");
    var chs :- Iter(toc);
    var (ps, l1) :- PlanFrom(state, chs, loads, [], llm);
    Ok((Set(state, "plans", PlansJsonV1(SortBy(ps, NumberKey))), l1))
  }

  /** `node_plan`'s loop as the source writes it: append each plan, then sort the list. */
  method NodePlanV1Loop(state: Fields, llm: Llm<string>, loads: string -> Option<Json>)
    returns (r: Result<(Fields, Llm<string>)>)
    ensures r == NodePlanV1(state, llm, loads)
  {
    var toc := Field(state, "toc");
    if toc.Err? {
      return Err(toc.error);
    }
    var it := Iter(toc.value);
    if it.Err? {
      return Err(it.error);
    }
    var chs := it.value;
    var plans: seq<(int, Fields)> := [];
    var cur := llm;
    var i := 0;
    while i < |chs|
      invariant 0 <= i <= |chs|
      invariant PlanFrom(state, chs[i..], loads, plans, cur) == PlanFrom(state, chs, loads, [], llm)
    {
      var one := PlanOneV1(state, chs[i], cur, loads);
      if one.Err? {
        return Err(one.error);
      }
      assert chs[i..][1..] == chs[i + 1..];
      plans := plans + [one.value.0];
      cur := one.value.1;
      i := i + 1;
    }
    plans := SortBy(plans, NumberKey);
    return Ok((Set(state, "plans", PlansJsonV1(plans)), cur));
  }

  /** The plans `ps` are, entry by entry and in order, plans of the entries `chs`. */
  ghost predicate EntriesOk(ps: seq<(int, Fields)>, chs: seq<Json>)
    decreases |chs|
  {
    && |ps| == |chs|
    && (chs != [] ==> PlanOfEntry(ps[0], chs[0]) && EntriesOk(ps[1..], chs[1..]))
  }

  lemma {:induction false} EntriesOkAt(ps: seq<(int, Fields)>, chs: seq<Json>, i: nat)
    requires EntriesOk(ps, chs) && i < |chs|
    ensures PlanOfEntry(ps[i], chs[i])
    decreases i
  {
    if i > 0 {
      EntriesOkAt(ps[1..], chs[1..], i - 1);
    }
  }

  /** The plans of the TOC entries come out one per entry, in TOC order. */
  lemma PlanFromEntries(state: Fields, chs: seq<Json>, loads: string -> Option<Json>, llm: Llm<string>)
    requires PlanFrom(state, chs, loads, [], llm).Ok?
    ensures var ps := PlanFrom(state, chs, loads, [], llm).value.0;
      |ps| == |chs| && forall i :: 0 <= i < |chs| ==> PlanOfEntry(ps[i], chs[i])
  {
    var ps := PlanFrom(state, chs, loads, [], llm).value.0;
    assert ps[0..] == ps;
    forall i | 0 <= i < |chs| ensures PlanOfEntry(ps[i], chs[i]) {
      EntriesOkAt(ps, chs, i);
    }
  }

  /** Sorting the plans by the number they carry keeps every plan and its stored number. */
  lemma SortedPlans(ps: seq<(int, Fields)>)
    requires forall i :: 0 <= i < |ps| ==> Get(ps[i].1, "number") == Some(JInt(ps[i].0))
    ensures var sorted := SortBy(ps, NumberKey);
      && multiset(sorted) == multiset(ps) && SortedBy(sorted, NumberKey)
      && (forall i :: 0 <= i < |sorted| ==> Get(sorted[i].1, "number") == Some(JInt(sorted[i].0)))
  {
    var sorted := SortBy(ps, NumberKey);
    SortByProps(ps, NumberKey);
    forall i | 0 <= i < |sorted| ensures Get(sorted[i].1, "number") == Some(JInt(sorted[i].0)) {
      assert sorted[i] in multiset(ps);
      var j :| 0 <= j < |ps| && ps[j] == sorted[i];
    }
  }

  /** The earlier `node_plan` stores one plan per TOC entry, each carrying the entry's number and
      title, as a permutation of the plans in TOC order sorted by that number. */
  lemma NodePlanV1Props(state: Fields, llm: Llm<string>, loads: string -> Option<Json>)
    requires NodePlanV1(state, llm, loads).Ok?
    ensures var chs := PyIter(Lookup(state, "toc")).value;
      && PlanFrom(state, chs, loads, [], llm).Ok?
      && var ps := PlanFrom(state, chs, loads, [], llm).value.0;
      && var sorted := SortBy(ps, NumberKey);
      && |ps| == |chs|
      && (forall i :: 0 <= i < |chs| ==> PlanOfEntry(ps[i], chs[i]))
      && multiset(sorted) == multiset(ps) && SortedBy(sorted, NumberKey)
      && (forall i :: 0 <= i < |sorted| ==> Get(sorted[i].1, "number") == Some(JInt(sorted[i].0)))
      && Get(NodePlanV1(state, llm, loads).value.0, "plans") == Some(PlansJsonV1(sorted))
  {
    var chs := PyIter(Lookup(state, "toc")).value;
    var ps := PlanFrom(state, chs, loads, [], llm).value.0;
    PlanFromEntries(state, chs, loads, llm);
    SortedPlans(ps);
    SetGet(state, "plans", PlansJsonV1(SortBy(ps, NumberKey)), "plans");
  }
}
