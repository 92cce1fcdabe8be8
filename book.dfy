/**
 * The draft stage of the current version (app.py): `node_draft` asks for one chapter text per
 * selected TOC entry and sorts the drafts by number.
 */
module Book {
  import opened Wrappers
  import opened PyStrings
  import opened JsonModel
  import opened Sorting
  import opened Pages
  import opened Oracle
  import opened Extract
  import opened Threaded

  // ---------------------------------------------------------------------------------------------
  // node_draft

  datatype Draft = Draft(number: int, title: Json, text: string)

  function DraftNumber(d: Draft): int { d.number }

  function DraftJson(d: Draft): Json {
    JObj([("number", JInt(d.number)), ("title", d.title), ("text", JStr(d.text))])
  }

  function DraftsJson(ds: seq<Draft>): (j: Json)
    ensures j.JArr? && |j.items| == |ds|
    ensures forall i :: 0 <= i < |ds| ==> j.items[i] == DraftJson(ds[i])
  {
    JArr(seq(|ds|, i requires 0 <= i < |ds| => DraftJson(ds[i])))
  }

  /** `{int(p.get("number", i + 1)): p for i, p in enumerate(plans)}`: a later plan with the same
      number replaces an earlier one. */
  function PlanMap(plans: seq<Json>): Result<map<int, Json>>
    decreases |plans|
  {
    if plans == [] then Ok(map[])
    else
      var m :- PlanMap(plans[..|plans| - 1]);
      var p := plans[|plans| - 1];
      var fs :- AsDict(p);
      var n :- ToInt(GetDefault(fs, "number", JInt(|plans|)));
      Ok(m[n := p])
  }

  /** A plan whose number no later plan repeats is the one found under that number. */
  lemma {:induction false} PlanMapFinds(plans: seq<Json>, i: nat)
    requires PlanMap(plans).Ok? && i < |plans|
    requires plans[i].JObj? && PyInt(GetDefault(plans[i].fields, "number", JInt(i + 1))).Some?
    requires var n := PyInt(GetDefault(plans[i].fields, "number", JInt(i + 1))).value;
      forall j :: i < j < |plans| ==> plans[j].JObj? && PyInt(GetDefault(plans[j].fields, "number", JInt(j + 1))) != Some(n)
    ensures var n := PyInt(GetDefault(plans[i].fields, "number", JInt(i + 1))).value;
      n in PlanMap(plans).value && PlanMap(plans).value[n] == plans[i]
    decreases |plans|
  {
    var last := |plans| - 1;
    if i < last {
      var init := plans[..last];
      assert init[i] == plans[i];
      forall j | i < j < |init|
        ensures init[j].JObj? && PyInt(GetDefault(init[j].fields, "number", JInt(j + 1))) != Some(PyInt(GetDefault(plans[i].fields, "number", JInt(i + 1))).value)
      {
        assert init[j] == plans[j];
      }
      PlanMapFinds(init, i);
    }
  }

  /** `len(x)`, TypeError for values without a length. */
  function Len(j: Json): (r: Result<nat>)
    ensures j.JArr? ==> r == Ok(|j.items|)
  {
    match j
    case JArr(xs) => Ok(|xs|)
    case JStr(s) => Ok(|s|)
    case JObj(fs) => Ok(|fs|)
    case _ => Err(TypeError("len()"))
  }

  function Min(a: int, b: int): int { if a < b then a else b }

  /** `x[:n]`: lists and strings (as one-character strings); TypeError otherwise, a dict included. */
  function Prefix(j: Json, n: nat): (r: Result<seq<Json>>)
    ensures j.JArr? ==> r == Ok(j.items[..Min(n, |j.items|)])
    ensures j.JObj? ==> r.Err?
  {
    match j
    case JArr(xs) => Ok(xs[..Min(n, |xs|)])
    case JStr(s) => Ok(seq(Min(n, |s|), i requires 0 <= i < Min(n, |s|) => JStr([s[i]])))
    case _ => Err(TypeError("not subscriptable"))
  }

  /** `sample_chapters` if it is a positive int, else the length of the TOC. */
  function Limit(sample: Option<int>, len: nat): (r: nat)
    ensures r > 0 || len == 0
  {
    if sample.Some? && sample.value > 0 then sample.value else len
  }

  const DraftSystem: string :=
    "Draft a coherent, non-repetitive chapter that follows the plan and meets the word budget."

  const DraftClosing: string := "\nWrite in clear, engaging prose. Do not exceed the target by more than 5%."

  function DraftUser(spec: Json, plan: Json, words: int): string {
    "Spec: " + Dumps(spec, true) + "\nChapter plan: " + Dumps(plan, true) + "\nTarget words: " + IntToString(words)
    + DraftClosing
  }

  /** The word budget: `words_needed(pages, state["words_per_page"])` for a positive page count
      (an int words-per-page is assumed), else 1200. */
  function TargetWords(state: Fields, pages: int): (r: Result<int>)
    ensures pages <= 0 ==> r == Ok(1200)
    ensures pages > 0 ==> (r.Ok? <==> HasKey(state, "words_per_page") && Lookup(state, "words_per_page").JInt?)
    ensures pages > 0 && r.Ok? ==> r.value == WordsNeeded(pages, Lookup(state, "words_per_page").n) && r.value >= 100
  {
    if pages > 0 then
      var wpp :- Field(state, "words_per_page");
      var w :- if wpp.JInt? then Ok(wpp.n) else Err(TypeError("words_per_page"));
      Ok(WordsNeeded(pages, w))
    else Ok(1200)
  }

  /** What `draft_one(ch)` reads before its request: the entry's number and title, and the request. */
  datatype Job = Job(number: int, title: Json, request: Request)

  /** `ch.get("title", f"Chapter {num}")` */
  function EntryTitle(fs: Fields, num: int): Json {
    GetDefault(fs, "title", JStr("Chapter " + IntToString(num)))
  }

  function DraftJob(state: Fields, plans: map<int, Json>, ch: Json): (r: Result<Job>)
    ensures r.Ok? ==> && ch.JObj? && PyInt(GetDefault(ch.fields, "number", JInt(0))) == Some(r.value.number)
                      && r.value.title == EntryTitle(ch.fields, r.value.number)
  {
    var fs :- AsDict(ch);
    var num :- ToInt(GetDefault(fs, "number", JInt(0)));
    var title := EntryTitle(fs, num);
    var pages :- ToInt(GetDefault(fs, "target_pages", JInt(10)));
    var words :- TargetWords(state, pages);
    var plan := if num in plans then plans[num] else JObj([]);
    var spec :- Field(state, "spec");
    Ok(Job(num, title, Request(DraftSystem, DraftUser(spec, plan, words))))
  }

  /** `draft_one(ch)`: one text request for the entry. */
  function DraftOne(state: Fields, plans: map<int, Json>, ch: Json, llm: Llm<Request>): (r: Result<(Draft, Llm<Request>)>)
    ensures r.Ok? ==> && ch.JObj? && PyInt(GetDefault(ch.fields, "number", JInt(0))) == Some(r.value.0.number)
                      && r.value.0.title == EntryTitle(ch.fields, r.value.0.number)
                      && llm.replies != [] && r.value.0.text == llm.replies[0]
                      && r.value.1.replies == llm.replies[1..] && |r.value.1.sent| == |llm.sent| + 1
                      && r.value.1.sent[..|llm.sent|] == llm.sent
  {
    var job :- DraftJob(state, plans, ch);
    var (text, l1) :- Invoke(llm, job.request);
    assert l1.sent[..|llm.sent|] == llm.sent;
    Ok((Draft(job.number, job.title, text), l1))
  }

  /** `draft_one` as a step of the loop over the selected entries. */
  function DraftStep(state: Fields, plans: map<int, Json>): (Json, Llm<Request>) -> Result<(Draft, Llm<Request>)> {
    (ch: Json, l: Llm<Request>) => DraftOne(state, plans, ch, l)
  }

  /** The drafts of the selected entries in TOC order. */
  function DraftAll(state: Fields, plans: map<int, Json>, chs: seq<Json>, llm: Llm<Request>): Result<(seq<Draft>, Llm<Request>)> {
    Each(DraftStep(state, plans), chs, llm)
  }

  /** What `node_draft` reads before its requests: the plans by number, and the entries to draft
      (`chapters[:limit]`), after checking `max_workers`. */
  function Selection(state: Fields, sample: Option<int>): (r: Result<(map<int, Json>, seq<Json>)>)
    ensures r.Ok? ==>
      && HasKey(state, "toc") && HasKey(state, "plans")
      && PyInt(GetDefault(state, "max_workers", JInt(4))).Some?
      && PyInt(GetDefault(state, "max_workers", JInt(4))).value > 0
      && (Lookup(state, "toc").JArr? ==>
            var items := Lookup(state, "toc").items;
            r.value.1 == items[..Min(Limit(sample, |items|), |items|)])
    ensures HasKey(state, "toc") && Lookup(state, "toc").JObj? ==> r.Err?
  {
    var chapters :- Field(state, "toc");
    var plans :- Field(state, "plans");
    var ps :- Iter(plans);
    var m :- PlanMap(ps);
    var len :- if sample.Some? && sample.value > 0 then Ok(0) else Len(chapters);
    var limit := Limit(sample, len);
    var workers :- ToInt(GetDefault(state, "max_workers", JInt(4)));
    var _ :- Need(workers > 0, ValueError("max_workers must be greater than 0"));
    var chs :- Prefix(chapters, limit);
    Ok((m, chs))
  }

  /** `node_draft`: the first `limit` entries are drafted (as one worker after another), the drafts
      sorted by number and stored under `drafts`. */
  function NodeDraft(state: Fields, llm: Llm<Request>, sample: Option<int>): Result<(Fields, Llm<Request>)> {
    var (m, chs) :- Selection(state, sample);
    var (ds, l1) :- DraftAll(state, m, chs, llm);
    Ok((Set(state, "drafts", DraftsJson(SortBy(ds, DraftNumber))), l1))
  }

  /** The draft of entry `ch` as the reply `reply` makes it. */
  predicate DraftOfEntry(d: Draft, ch: Json, reply: string) {
    && ch.JObj?
    && PyInt(GetDefault(ch.fields, "number", JInt(0))) == Some(d.number)
    && d.title == EntryTitle(ch.fields, d.number)
    && d.text == reply
  }

  /** A draft that completes answers one request, and its draft is the entry's with that reply. */
  lemma DraftStepAnswers(state: Fields, plans: map<int, Json>)
    ensures forall ch, l :: DraftStep(state, plans)(ch, l).Ok? ==>
      l.replies != [] && Answered(l, DraftStep(state, plans)(ch, l).value.1, 1)
      && DraftOfEntry(DraftStep(state, plans)(ch, l).value.0, ch, l.replies[0])
  {
  }

  /** Each selected entry gets one draft, numbered and titled as the entry, whose text is the next
      reply; one request per draft. */
  lemma DraftAllProps(state: Fields, plans: map<int, Json>, chs: seq<Json>, llm: Llm<Request>)
    ensures var r := DraftAll(state, plans, chs, llm);
      r.Ok? ==>
        && |r.value.0| == |chs| && Answered(llm, r.value.1, |chs|)
        && forall i :: 0 <= i < |chs| ==>
             && chs[i].JObj?
             && PyInt(GetDefault(chs[i].fields, "number", JInt(0))) == Some(r.value.0[i].number)
             && r.value.0[i].title == EntryTitle(chs[i].fields, r.value.0[i].number)
             && r.value.0[i].text == llm.replies[i]
  {
    DraftStepAnswers(state, plans);
    EachAnswers(DraftStep(state, plans), (ch: Json, reply: string, d: Draft) => DraftOfEntry(d, ch, reply), chs, llm);
  }

  /** `after` holds under `drafts` the drafts `ds` sorted by number, and draft `i` is the draft of
      entry `i` with reply `i`. */
  ghost predicate DraftsStored(after: Fields, chs: seq<Json>, replies: seq<string>, ds: seq<Draft>) {
    && Get(after, "drafts") == Some(DraftsJson(SortBy(ds, DraftNumber)))
    && SortedBy(SortBy(ds, DraftNumber), DraftNumber)
    && multiset(SortBy(ds, DraftNumber)) == multiset(ds)
    && |ds| == |chs| <= |replies|
    && forall i :: 0 <= i < |chs| ==> DraftOfEntry(ds[i], chs[i], replies[i])
  }

  /** `node_draft` stores `min(limit, len(toc))` drafts sorted by number: the drafts of the first
      `limit` entries, draft `i` numbered as entry `i` and holding reply `i`, in number order, one
      request each; every other key is left as it was. */
  lemma NodeDraftProps(state: Fields, llm: Llm<Request>, sample: Option<int>)
    ensures var r := NodeDraft(state, llm, sample);
      r.Ok? ==>
        && HasKey(state, "toc") && HasKey(state, "plans")
        && PyInt(GetDefault(state, "max_workers", JInt(4))).value > 0
        && (forall k :: k != "drafts" ==> Get(r.value.0, k) == Get(state, k))
        && Selection(state, sample).Ok?
        && var chs := Selection(state, sample).value.1;
           && Answered(llm, r.value.1, |chs|)
           && (Lookup(state, "toc").JArr? ==>
                 |chs| == Min(Limit(sample, |Lookup(state, "toc").items|), |Lookup(state, "toc").items|))
           && exists ds: seq<Draft> :: DraftsStored(r.value.0, chs, llm.replies, ds)
  {
    var r := NodeDraft(state, llm, sample);
    if r.Ok? {
      var (m, chs) := Selection(state, sample).value;
      var (ds, l1) := DraftAll(state, m, chs, llm).value;
      assert r.value == (Set(state, "drafts", DraftsJson(SortBy(ds, DraftNumber))), l1);
      StoredDrafts(state, m, chs, llm);
    }
  }

  /** The drafts of the selected entries, stored sorted; every other key is left as it was. */
  lemma StoredDrafts(state: Fields, plans: map<int, Json>, chs: seq<Json>, llm: Llm<Request>)
    requires DraftAll(state, plans, chs, llm).Ok?
    ensures var (ds, l1) := DraftAll(state, plans, chs, llm).value;
      var after := Set(state, "drafts", DraftsJson(SortBy(ds, DraftNumber)));
      && Answered(llm, l1, |chs|)
      && DraftsStored(after, chs, llm.replies, ds)
      && forall k :: k != "drafts" ==> Get(after, k) == Get(state, k)
  {
    var (ds, l1) := DraftAll(state, plans, chs, llm).value;
    var sorted := SortBy(ds, DraftNumber);
    DraftAllProps(state, plans, chs, llm);
    SortByProps(ds, DraftNumber);
    SetGet(state, "drafts", DraftsJson(sorted), "drafts");
    SetLeavesOthers(state, "drafts", DraftsJson(sorted));
  }

  lemma SetLeavesOthers(state: Fields, k: string, v: Json)
    ensures forall k' :: k' != k ==> Get(Set(state, k, v), k') == Get(state, k')
  {
    forall k' | k' != k
      ensures Get(Set(state, k, v), k') == Get(state, k')
    {
      SetGet(state, k, v, k');
    }
  }
}
