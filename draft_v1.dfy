/**
 * The draft stage of the earlier version (appv1.py): `node_draft` asks, one chapter after another,
 * for the text of every selected TOC entry with a single plain-text request, and stores the drafts
 * sorted by number under `drafts` (the text under the key `markdown`).
 */
module DraftV1 {
  import opened Wrappers
  import opened PyStrings
  import opened JsonModel
  import opened Sorting
  import opened Oracle
  import opened Book

  const DraftSystemV1: string :=
    "Write a polished, well\U{2011}structured chapter in Markdown. Use H2 for the chapter title,\n"
    + "H3 for sections, short paragraphs, lists, call\U{2011}out tips, and concise examples.\n"
    + "Avoid fluff and repetition. Maintain consistent tone from the spec."

  const DraftClosingV1: string := ".\nEnd with a short summary and 3 reflective questions."

  function DraftUserV1(spec: Json, num: int, title: Json, objectives: Json, outline: Json, words: int): string {
    "Book spec: " + Dumps(spec, true) + "\nChapter number: " + IntToString(num) + "\nTitle: " + PyStr(title)
    + "\nObjectives: " + Dumps(objectives, true) + "\nSection outline: " + Dumps(outline, true)
    + "\nTarget words (approx): " + IntToString(words) + DraftClosingV1
  }

  /** `call_llm_text`: instructions and request in one prompt. */
  function TextPrompt(system: string, user: string): string {
    system + "\n\nUser:\n" + user
  }

  /** What one turn of the loop reads before its request: the entry's number and title, and the
      prompt built from the entry, its plan (`{}` when none has its number) and the spec. */
  function DraftJobV1(state: Fields, plans: map<int, Json>, ch: Json): (r: Result<(int, Json, string)>)
    ensures r.Ok? ==> && ch.JObj? && PyInt(GetDefault(ch.fields, "number", JInt(0))) == Some(r.value.0)
                      && r.value.1 == EntryTitle(ch.fields, r.value.0)
  {
    var fs :- AsDict(ch);
    var num :- ToInt(GetDefault(fs, "number", JInt(0)));
    var title := EntryTitle(fs, num);
    var pages :- ToInt(GetDefault(fs, "target_pages", JInt(10)));
    var words :- TargetWords(state, pages);
    var plan :- AsDict(if num in plans then plans[num] else JObj([]));
    var outline := GetDefault(plan, "section_outline", JArr([]));
    var objectives := GetDefault(plan, "objectives", JArr([]));
    var spec :- Field(state, "spec");
    Ok((num, title, TextPrompt(DraftSystemV1, DraftUserV1(spec, num, title, objectives, outline, words))))
  }

  /** One turn of the loop: one request, whose reply is the chapter text. */
  function DraftOneV1(state: Fields, plans: map<int, Json>, ch: Json, llm: Llm<string>)
    : (r: Result<(Draft, Llm<string>)>)
    ensures r.Ok? ==> && llm.replies != [] && DraftOfEntry(r.value.0, ch, llm.replies[0])
                      && Answered(llm, r.value.1, 1)
  {
    var (num, title, prompt) :- DraftJobV1(state, plans, ch);
    var (text, l1) :- Invoke(llm, prompt);
    assert l1.sent[..|llm.sent|] == llm.sent;
    Ok((Draft(num, title, text), l1))
  }

  /** The drafts `ds` are, one by one and in order, drafts of the entries `chs` made by the replies
      `replies`. */
  ghost predicate DraftsOfEntries(ds: seq<Draft>, chs: seq<Json>, replies: seq<string>)
    decreases |chs|
  {
    && |ds| == |chs| <= |replies|
    && (chs != [] ==> DraftOfEntry(ds[0], chs[0], replies[0]) && DraftsOfEntries(ds[1..], chs[1..], replies[1..]))
  }

  /** The drafts of the entries `chs`, appended to `acc` in TOC order, one request per entry. */
  function DraftsFromV1(state: Fields, plans: map<int, Json>, chs: seq<Json>, acc: seq<Draft>, llm: Llm<string>)
    : (r: Result<(seq<Draft>, Llm<string>)>)
    ensures r.Ok? ==> && |acc| <= |r.value.0| && r.value.0[..|acc|] == acc
                      && DraftsOfEntries(r.value.0[|acc|..], chs, llm.replies)
                      && Answered(llm, r.value.1, |chs|)
    decreases |chs|
  {
    if chs == [] then
      assert acc[|acc|..] == [];
      AnsweredNone(llm);
      Ok((acc, llm))
    else
      var (d, l1) :- DraftOneV1(state, plans, chs[0], llm);
      var r := DraftsFromV1(state, plans, chs[1..], acc + [d], l1);
      if r.Ok? then DraftsFromStep(acc, d, chs, llm, l1, r.value); r else r
  }

  /** One more draft in front keeps the promise of `DraftsFromV1`. */
  lemma DraftsFromStep(acc: seq<Draft>, d: Draft, chs: seq<Json>, llm: Llm<string>, l1: Llm<string>,
                       res: (seq<Draft>, Llm<string>))
    requires chs != [] && llm.replies != [] && DraftOfEntry(d, chs[0], llm.replies[0]) && Answered(llm, l1, 1)
    requires var ds := res.0;
      && |acc + [d]| <= |ds| && ds[..|acc + [d]|] == acc + [d]
      && DraftsOfEntries(ds[|acc + [d]|..], chs[1..], l1.replies)
      && Answered(l1, res.1, |chs[1..]|)
    ensures var ds := res.0;
      && |acc| <= |ds| && ds[..|acc|] == acc
      && DraftsOfEntries(ds[|acc|..], chs, llm.replies)
      && Answered(llm, res.1, |chs|)
  {
    var ds := res.0;
    assert ds[|acc|] == ds[..|acc| + 1][|acc|] == (acc + [d])[|acc|] == d;
    assert ds[..|acc|] == ds[..|acc| + 1][..|acc|];
    assert ds[|acc|..][1..] == ds[|acc| + 1..];
    assert l1.replies == llm.replies[1..];
    AnsweredTrans(llm, l1, res.1, 1, |chs[1..]|);
  }

  function DraftJsonV1(d: Draft): Json {
    JObj([("number", JInt(d.number)), ("title", d.title), ("markdown", JStr(d.text))])
  }

  function DraftsJsonV1(ds: seq<Draft>): (j: Json)
    ensures j.JArr? && |j.items| == |ds| && forall i :: 0 <= i < |ds| ==> j.items[i] == DraftJsonV1(ds[i])
  {
    JArr(seq(|ds|, i requires 0 <= i < |ds| => DraftJsonV1(ds[i])))
  }

  /** What the earlier `node_draft` reads before its requests: `state["toc"]`, the plans by number,
      and `chapters[:limit]`. */
  function SelectionV1(state: Fields, sample: Option<int>): (r: Result<(map<int, Json>, seq<Json>)>)
    ensures r.Ok? ==>
      && HasKey(state, "toc") && HasKey(state, "plans")
      && (Lookup(state, "toc").JArr? ==>
            var items := Lookup(state, "toc").items;
            r.value.1 == items[..Min(Limit(sample, |items|), |items|)])
  {
    var chapters :- Field(state, "toc");
    var plans :- Field(state, "plans");
    var ps :- Iter(plans);
    var m :- PlanMap(ps);
    var len :- if sample.Some? && sample.value > 0 then Ok(0) else Len(chapters);
    var chs :- Prefix(chapters, Limit(sample, len));
    Ok((m, chs))
  }

  /** `node_draft` of the earlier version, merged into the state. */
  function NodeDraftV1(state: Fields, llm: Llm<string>, sample: Option<int>): Result<(Fields, Llm<string>)> {
    var (m, chs) :- SelectionV1(state, sample);
    var (ds, l1) :- DraftsFromV1(state, m, chs, [], llm);
    Ok((Set(state, "drafts", DraftsJsonV1(SortBy(ds, DraftNumber))), l1))
  }

  /** The loop as the source writes it: append one draft per entry, then sort the list. */
  method NodeDraftV1Loop(state: Fields, llm: Llm<string>, sample: Option<int>) returns (r: Result<(Fields, Llm<string>)>)
    ensures r == NodeDraftV1(state, llm, sample)
  {
    var sel := SelectionV1(state, sample);
    if sel.Err? {
      return Err(sel.error);
    }
    var (m, chs) := sel.value;
    var drafts: seq<Draft> := [];
    var cur := llm;
    var i := 0;
    while i < |chs|
      invariant 0 <= i <= |chs|
      invariant DraftsFromV1(state, m, chs[i..], drafts, cur) == DraftsFromV1(state, m, chs, [], llm)
    {
      var one := DraftOneV1(state, m, chs[i], cur);
      if one.Err? {
        return Err(one.error);
      }
      assert chs[i..][1..] == chs[i + 1..];
      drafts := drafts + [one.value.0];
      cur := one.value.1;
      i := i + 1;
    }
    drafts := SortBy(drafts, DraftNumber);
    return Ok((Set(state, "drafts", DraftsJsonV1(drafts)), cur));
  }

  lemma {:induction false} DraftsOfEntriesAt(ds: seq<Draft>, chs: seq<Json>, replies: seq<string>, i: nat)
    requires DraftsOfEntries(ds, chs, replies) && i < |chs|
    ensures i < |replies| && DraftOfEntry(ds[i], chs[i], replies[i])
    decreases i
  {
    if i > 0 {
      DraftsOfEntriesAt(ds[1..], chs[1..], replies[1..], i - 1);
    }
  }

  /** From an empty start, draft `i` is numbered as entry `i` and holds reply `i`: one request per entry. */
  lemma DraftsFromV1Entries(state: Fields, plans: map<int, Json>, chs: seq<Json>, llm: Llm<string>)
    requires DraftsFromV1(state, plans, chs, [], llm).Ok?
    ensures var (ds, l1) := DraftsFromV1(state, plans, chs, [], llm).value;
      && |ds| == |chs| && Answered(llm, l1, |chs|)
      && forall i :: 0 <= i < |chs| ==> i < |llm.replies| && DraftOfEntry(ds[i], chs[i], llm.replies[i])
  {
    var ds := DraftsFromV1(state, plans, chs, [], llm).value.0;
    assert ds[0..] == ds;
    forall i | 0 <= i < |chs| ensures i < |llm.replies| && DraftOfEntry(ds[i], chs[i], llm.replies[i]) {
      DraftsOfEntriesAt(ds, chs, llm.replies, i);
    }
  }

  /** The earlier `node_draft` stores `min(limit, len(toc))` drafts, sorted by number: a permutation
      of the drafts of the selected entries in TOC order, draft `i` numbered as entry `i` and
      holding reply `i`; one request per draft, and no other key changes. */
  lemma NodeDraftV1Props(state: Fields, llm: Llm<string>, sample: Option<int>)
    requires NodeDraftV1(state, llm, sample).Ok?
    ensures var (m, chs) := SelectionV1(state, sample).value;
      && DraftsFromV1(state, m, chs, [], llm).Ok?
      && var (ds, l1) := DraftsFromV1(state, m, chs, [], llm).value;
      && var r := NodeDraftV1(state, llm, sample).value;
      && |ds| == |chs| && r.1 == l1 && Answered(llm, l1, |chs|)
      && (forall i :: 0 <= i < |chs| ==> i < |llm.replies| && DraftOfEntry(ds[i], chs[i], llm.replies[i]))
      && Get(r.0, "drafts") == Some(DraftsJsonV1(SortBy(ds, DraftNumber)))
      && SortedBy(SortBy(ds, DraftNumber), DraftNumber) && multiset(SortBy(ds, DraftNumber)) == multiset(ds)
      && (Lookup(state, "toc").JArr? ==>
            |ds| == Min(Limit(sample, |Lookup(state, "toc").items|), |Lookup(state, "toc").items|))
      && (forall k :: k != "drafts" ==> Get(r.0, k) == Get(state, k))
  {
    var (m, chs) := SelectionV1(state, sample).value;
    var (ds, l1) := DraftsFromV1(state, m, chs, [], llm).value;
    DraftsFromV1Entries(state, m, chs, llm);
    var sorted := SortBy(ds, DraftNumber);
    SortByProps(ds, DraftNumber);
    SetGet(state, "drafts", DraftsJsonV1(sorted), "drafts");
    SetLeavesOthers(state, "drafts", DraftsJsonV1(sorted));
  }
}
