/**
 * The first three stages of the current version (app.py) as transitions of the book state, the
 * dict every stage receives and returns: `node_spec` adds the normalised specification,
 * `node_toc` the table of contents and `node_plan` one plan per TOC entry. Each returns
 * `{**state, key: value}`: the other keys are left as they were.
 */
module Stages {
  import opened Wrappers
  import opened PyStrings
  import opened JsonModel
  import opened Oracle
  import opened Extract
  import opened Normalize
  import opened Toc
  import opened Threaded

  /** The dict a reply stands for: the reply itself, the first element of a list that starts with a
      dict, or `{}`. */
  function ReplyObject(raw: Json): Fields {
    if raw.JObj? then raw.fields
    else if raw.JArr? && raw.items != [] && raw.items[0].JObj? then raw.items[0].fields
    else []
  }

  /** `{**state, k: v}` leaves every other key as it was and adds `k` at the end when new. */
  lemma SetOthers(state: Fields, k: string, v: Json)
    ensures Get(Set(state, k, v), k) == Some(v)
    ensures forall k' :: k' != k ==> Get(Set(state, k, v), k') == Get(state, k')
    ensures Keys(Set(state, k, v)) == if HasKey(state, k) then Keys(state) else Keys(state) + [k]
  {
    SetGet(state, k, v, k);
    forall k' | k' != k
      ensures Get(Set(state, k, v), k') == Get(state, k')
    {
      SetGet(state, k, v, k');
    }
    SetKeys(state, k, v);
  }

  // ---------------------------------------------------------------------------------------------
  // node_spec

  const SpecSystem: string :=
    "Turn a short problem statement into a complete book specification. "
    + "Capture title, subtitle, audience, tone, goals/outcomes, constraints."

  function SpecUser(problem: Json, pages: Json, wpp: Json): string {
    "Problem: " + PyStr(problem) + "\nTotal pages: " + PyStr(pages) + "\nWords per page: " + PyStr(wpp)
    + "\nReturn ONLY a JSON object. Avoid explanations."
  }

  /** `node_spec`: one lenient JSON call, the reply coerced to a dict and normalised. */
  function NodeSpec(state: Fields, llm: Llm<Request>, dec: Decoder): Result<(Fields, Llm<Request>)> {
    var problem :- Field(state, "problem");
    var pages :- Field(state, "pages_total");
    var wpp :- Field(state, "words_per_page");
    var (raw, l1) :- CallLlmJsonLenient(llm, dec, SpecSystem, SpecUser(problem, pages, wpp));
    Ok((Set(state, "spec", JObj(NormalizeSpec(ReplyObject(raw)))), l1))
  }

  /** `node_spec` fails only on a missing input key or a failed model call; it then sets `spec` to
      the normalised reply, which always has `goals`, and changes no other key. */
  lemma NodeSpecProps(state: Fields, llm: Llm<Request>, dec: Decoder)
    ensures var r := NodeSpec(state, llm, dec);
      r.Ok? <==> && HasKey(state, "problem") && HasKey(state, "pages_total") && HasKey(state, "words_per_page")
                 && CallLlmJsonLenient(llm, dec, SpecSystem, SpecUser(Lookup(state, "problem"),
                      Lookup(state, "pages_total"), Lookup(state, "words_per_page"))).Ok?
    ensures var r := NodeSpec(state, llm, dec);
      r.Ok? ==>
        var call := CallLlmJsonLenient(llm, dec, SpecSystem, SpecUser(Lookup(state, "problem"),
                      Lookup(state, "pages_total"), Lookup(state, "words_per_page")));
        && r.value.1 == call.value.1
        && Get(r.value.0, "spec") == Some(JObj(NormalizeSpec(ReplyObject(call.value.0))))
        && HasKey(NormalizeSpec(ReplyObject(call.value.0)), "goals")
        && (forall k :: k != "spec" ==> Get(r.value.0, k) == Get(state, k))
  {
    var r := NodeSpec(state, llm, dec);
    if r.Ok? {
      var call := CallLlmJsonLenient(llm, dec, SpecSystem, SpecUser(Lookup(state, "problem"),
                    Lookup(state, "pages_total"), Lookup(state, "words_per_page")));
      var spec := NormalizeSpec(ReplyObject(call.value.0));
      assert r.value.0 == Set(state, "spec", JObj(spec));
      SetOthers(state, "spec", JObj(spec));
      NormalizeSpecKeys(ReplyObject(call.value.0), "goals");
    }
  }

  /** A list reply whose first element is a dict is read as that dict; any other non-dict reply as
      the empty dict. */
  lemma ReplyObjectShapes(fs: Fields, rest: seq<Json>, other: Json)
    ensures ReplyObject(JArr([JObj(fs)] + rest)) == fs
    ensures !other.JObj? && !(other.JArr? && other.items != [] && other.items[0].JObj?) ==> ReplyObject(other) == []
  {
  }

  // ---------------------------------------------------------------------------------------------
  // node_toc

  /** The TOC as the list of dicts stored under `toc`. */
  function TocJson(toc: seq<Entry>): (j: Json)
    ensures j.JArr? && |j.items| == |toc|
    ensures forall i :: 0 <= i < |toc| ==> j.items[i] == JObj(ToFields(toc[i]))
  {
    JArr(seq(|toc|, i requires 0 <= i < |toc| => JObj(ToFields(toc[i]))))
  }

  /** `node_toc` as a stage: `spec` and `pages_total` are read from the state (the latter as an int),
      and the TOC goes under `toc`. */
  function NodeTocStage(state: Fields, llm: Llm<Request>, dec: Decoder): Result<(Fields, Llm<Request>)> {
    var spec :- Field(state, "spec");
    var pages :- Field(state, "pages_total");
    var total :- if pages.JInt? then Ok(pages.n) else Err(TypeError("pages_total"));
    var (toc, l1) :- NodeToc(spec, total, llm, dec);
    Ok((Set(state, "toc", TocJson(toc)), l1))
  }

  /** After `node_toc` the state holds a TOC of at least six dicts `{number, title, target_pages}`
      numbered 1..n in order, with stripped non-blank titles and at least one page each; no other key
      changes. */
  lemma NodeTocStageProps(state: Fields, llm: Llm<Request>, dec: Decoder)
    ensures var r := NodeTocStage(state, llm, dec);
      r.Ok? ==>
        && HasKey(state, "spec") && Lookup(state, "pages_total").JInt?
        && (forall k :: k != "toc" ==> Get(r.value.0, k) == Get(state, k))
        && exists toc: seq<Entry> ::
             && Get(r.value.0, "toc") == Some(TocJson(toc))
             && WellFormedToc(toc)
  {
    var r := NodeTocStage(state, llm, dec);
    if r.Ok? {
      var spec, total := Lookup(state, "spec"), Lookup(state, "pages_total").n;
      var toc := NodeToc(spec, total, llm, dec).value.0;
      NodeTocProps(spec, total, llm, dec);
      assert r.value.0 == Set(state, "toc", TocJson(toc));
      SetOthers(state, "toc", TocJson(toc));
    }
  }

  // ---------------------------------------------------------------------------------------------
  // node_plan

  const PlanSystem: string :=
    "Create a concrete chapter plan.\n"
    + "Return ONLY JSON with fields: number(int), title(str), "
    + "objectives(list[str]), key_ideas(list[str]), image_prompts(list[{purpose, prompt}])."

  function PlanUser(spec: Json, ch: Json, wpp: Json): string {
    "Book spec: " + Dumps(spec, true) + "\nChapter: " + Dumps(ch, true) + "\nWords per page: " + PyStr(wpp)
    + "\nBe specific and avoid repetition."
  }

  /** One pass of the loop in `node_plan`: the request for entry `ch`, the reply coerced to a dict,
      and `normalize_plan` with the entry as fallback. */
  function PlanOne(state: Fields, ch: Json, llm: Llm<Request>, dec: Decoder): Result<(Plan, Llm<Request>)> {
    var spec :- Field(state, "spec");
    var wpp :- Field(state, "words_per_page");
    var (raw, l1) :- CallLlmJsonLenient(llm, dec, PlanSystem, PlanUser(spec, ch, wpp));
    var fallback :- AsDict(ch);
    var plan :- NormalizePlan(ReplyObject(raw), fallback);
    Ok((plan, l1))
  }

  /** One pass of the loop as a step of the walk over the entries. */
  function PlanStep(state: Fields, dec: Decoder): (Json, Llm<Request>) -> Result<(Plan, Llm<Request>)> {
    (ch: Json, l: Llm<Request>) => PlanOne(state, ch, l, dec)
  }

  /** The loop of `node_plan` over the entries, in order. */
  function PlanAll(state: Fields, chs: seq<Json>, llm: Llm<Request>, dec: Decoder): Result<(seq<Plan>, Llm<Request>)> {
    Each(PlanStep(state, dec), chs, llm)
  }

  function PlansJson(ps: seq<Plan>): (j: Json)
    ensures j.JArr? && |j.items| == |ps|
    ensures forall i :: 0 <= i < |ps| ==> j.items[i] == PlanJson(ps[i])
  {
    JArr(seq(|ps|, i requires 0 <= i < |ps| => PlanJson(ps[i])))
  }

  /** `node_plan`: a plan for every entry of `state.get("toc", [])`, under `plans`. */
  function NodePlan(state: Fields, llm: Llm<Request>, dec: Decoder): Result<(Fields, Llm<Request>)> {
    var chs :- Iter(GetDefault(state, "toc", JArr([])));
    var (plans, l1) :- PlanAll(state, chs, llm, dec);
    Ok((Set(state, "plans", PlansJson(plans)), l1))
  }

  /** What ties a plan to its TOC entry: the entry is a dict, and the plan is `normalize_plan` of
      some parsed reply, coerced to a dict, with the entry as fallback. */
  ghost predicate PlanOfEntry(ch: Json, p: Plan) {
    && ch.JObj?
    && exists reply: Json :: NormalizePlan(ReplyObject(reply), ch.fields) == Ok(p)
  }

  /** One pass of the loop is `normalize_plan` of the lenient call's value, with the entry as
      fallback, and leaves the oracle where the call left it. */
  lemma PlanOneIs(state: Fields, ch: Json, llm: Llm<Request>, dec: Decoder)
    ensures var r := PlanOne(state, ch, llm, dec);
      var call := CallLlmJsonLenient(llm, dec, PlanSystem,
                                     PlanUser(Lookup(state, "spec"), ch, Lookup(state, "words_per_page")));
      r.Ok? ==> && call.Ok? && ch.JObj?
                && r.value == (NormalizePlan(ReplyObject(call.value.0), ch.fields).value, call.value.1)
  {
  }

  /** One entry's plan: it belongs to the entry, its title is stripped, and the stage asks once, or
      twice when the reply needs repair. */
  lemma PlanOneProps(state: Fields, ch: Json, llm: Llm<Request>, dec: Decoder)
    ensures var r := PlanOne(state, ch, llm, dec);
      r.Ok? ==> && PlanOfEntry(ch, r.value.0) && Stripped(r.value.0.title)
                && (Answered(llm, r.value.1, 1) || Answered(llm, r.value.1, 2))
  {
    var r := PlanOne(state, ch, llm, dec);
    if r.Ok? {
      var spec, wpp := Lookup(state, "spec"), Lookup(state, "words_per_page");
      PlanOneIs(state, ch, llm, dec);
      var call := CallLlmJsonLenient(llm, dec, PlanSystem, PlanUser(spec, ch, wpp));
      assert NormalizePlan(ReplyObject(call.value.0), ch.fields) == Ok(r.value.0);
      LenientAtMostOneRepair(llm, dec, PlanSystem, PlanUser(spec, ch, wpp));
    }
  }

  /** One plan per entry, plan i belonging to entry i with its title stripped; each plan makes one
      request, or two when its reply needs repair. */
  lemma PlanAllProps(state: Fields, chs: seq<Json>, llm: Llm<Request>, dec: Decoder)
    ensures var r := PlanAll(state, chs, llm, dec);
      r.Ok? ==>
        && |r.value.0| == |chs|
        && (forall i :: 0 <= i < |chs| ==> PlanOfEntry(chs[i], r.value.0[i]) && Stripped(r.value.0[i].title))
        && exists k :: |chs| <= k <= 2 * |chs| && Answered(llm, r.value.1, k)
  {
    forall ch, l | PlanStep(state, dec)(ch, l).Ok?
      ensures PlanOfEntry(ch, PlanStep(state, dec)(ch, l).value.0) && Stripped(PlanStep(state, dec)(ch, l).value.0.title)
      ensures Answered(l, PlanStep(state, dec)(ch, l).value.1, 1) || Answered(l, PlanStep(state, dec)(ch, l).value.1, 2)
    {
      PlanOneProps(state, ch, l, dec);
    }
    EachAsks(PlanStep(state, dec), (ch: Json, p: Plan) => PlanOfEntry(ch, p) && Stripped(p.title), chs, llm);
  }

  /** `node_plan` over an empty or missing TOC sends no request and needs neither `spec` nor
      `words_per_page`. */
  lemma NodePlanEmptyToc(state: Fields, llm: Llm<Request>, dec: Decoder)
    requires !HasKey(state, "toc") || Lookup(state, "toc") == JArr([])
    ensures NodePlan(state, llm, dec) == Ok((Set(state, "plans", JArr([])), llm))
  {
    assert PlansJson([]) == JArr([]);
  }

  /** `node_plan` sets `plans` to one normalised plan per TOC entry, plan i belonging to entry i,
      and leaves every other key as it was. */
  lemma NodePlanProps(state: Fields, llm: Llm<Request>, dec: Decoder)
    ensures var r := NodePlan(state, llm, dec);
      r.Ok? ==>
        && PyIter(GetDefault(state, "toc", JArr([]))).Some?
        && (forall k :: k != "plans" ==> Get(r.value.0, k) == Get(state, k))
        && exists ps: seq<Plan> ::
             && Get(r.value.0, "plans") == Some(PlansJson(ps))
             && |ps| == |PyIter(GetDefault(state, "toc", JArr([]))).value|
             && forall i :: 0 <= i < |ps| ==>
                  PlanOfEntry(PyIter(GetDefault(state, "toc", JArr([]))).value[i], ps[i]) && Stripped(ps[i].title)
  {
    var r := NodePlan(state, llm, dec);
    if r.Ok? {
      var chs := PyIter(GetDefault(state, "toc", JArr([]))).value;
      var ps := PlanAll(state, chs, llm, dec).value.0;
      PlanAllProps(state, chs, llm, dec);
      assert r.value.0 == Set(state, "plans", PlansJson(ps));
      SetOthers(state, "plans", PlansJson(ps));
    }
  }
}
