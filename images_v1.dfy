/**
 * The image stage of the earlier version (appv1.py): `node_images` walks the plans and the TOC
 * side by side, collects every image prompt tagged with its chapter, then keeps, in order, the
 * first entry per (chapter, stripped prompt) among those whose stripped prompt is non-empty.
 */
module ImagesV1 {
  import opened Wrappers
  import opened PyStrings
  import opened JsonModel
  import opened Book
  import opened Dedupe

  /** One collected entry, before the uniqueness pass; fields keep whatever the plan held. */
  datatype Gathered = Gathered(chapter: int, title: Json, purpose: Json, prompt: Json)

  function GatheredJson(x: Gathered): Json {
    JObj([("chapter", JInt(x.chapter)), ("chapter_title", x.title), ("purpose", x.purpose), ("prompt", x.prompt)])
  }

  function GatheredsJson(xs: seq<Gathered>): (j: Json)
    ensures j.JArr? && |j.items| == |xs|
    ensures forall i :: 0 <= i < |xs| ==> j.items[i] == GatheredJson(xs[i])
  {
    JArr(seq(|xs|, i requires 0 <= i < |xs| => GatheredJson(xs[i])))
  }

  /** `zip(a, b)`: pairs up to the shorter length. */
  function Zip(a: seq<Json>, b: seq<Json>): (r: seq<(Json, Json)>)
    ensures |r| == Min(|a|, |b|)
    ensures forall i :: 0 <= i < |r| ==> r[i] == (a[i], b[i])
  {
    seq(Min(|a|, |b|), i requires 0 <= i < Min(|a|, |b|) => (a[i], b[i]))
  }

  /** The entry one image-prompt item gives (its `.get` calls need a dict). */
  function ItemOf(num: int, title: Json, item: Json): Gathered {
    var f := if item.JObj? then item.fields else [];
    Gathered(num, title, GetDefault(f, "purpose", JStr("illustration")), GetDefault(f, "prompt", JStr("")))
  }

  /** The inner loop over one plan's items, appending to `acc`. */
  function ItemsFrom(num: int, title: Json, items: seq<Json>, acc: seq<Gathered>): Result<seq<Gathered>>
    decreases |items|
  {
    if items == [] then Ok(acc)
    else
      var _ :- AsDict(items[0]);
      ItemsFrom(num, title, items[1..], acc + [ItemOf(num, title, items[0])])
  }

  /** The entries of the items, one per item. */
  function ItemsOf(num: int, title: Json, items: seq<Json>): (r: seq<Gathered>)
    ensures |r| == |items| && forall i :: 0 <= i < |items| ==> r[i] == ItemOf(num, title, items[i])
  {
    seq(|items|, i requires 0 <= i < |items| => ItemOf(num, title, items[i]))
  }

  lemma ItemsOfCons(num: int, title: Json, items: seq<Json>)
    requires items != []
    ensures ItemsOf(num, title, items) == [ItemOf(num, title, items[0])] + ItemsOf(num, title, items[1..])
  {
    assert ItemsOf(num, title, items)[1..] == ItemsOf(num, title, items[1..]);
  }

  /** The inner loop appends one entry per item, each with the pair's chapter and title, and fails
      exactly when some item is not a dict. */
  lemma {:induction false} ItemsFromIs(num: int, title: Json, items: seq<Json>, acc: seq<Gathered>)
    ensures ItemsFrom(num, title, items, acc) ==
      if forall i :: 0 <= i < |items| ==> items[i].JObj? then Ok(acc + ItemsOf(num, title, items))
      else Err(AttributeError("get"))
    decreases |items|
  {
    if items != [] {
      ItemsFromIs(num, title, items[1..], acc + [ItemOf(num, title, items[0])]);
      ItemsOfCons(num, title, items);
      assert acc + [ItemOf(num, title, items[0])] + ItemsOf(num, title, items[1..]) == acc + ItemsOf(num, title, items);
      assert (forall i :: 0 <= i < |items| ==> items[i].JObj?) <==>
             items[0].JObj? && forall i :: 0 <= i < |items[1..]| ==> items[1..][i].JObj?;
    } else {
      assert acc + ItemsOf(num, title, items) == acc;
    }
  }

  /** The number of a (plan, TOC entry) pair: `int(ch.get("number", plan.get("number", 0)))`. */
  function PairNumber(plan: Fields, ch: Fields): Json {
    GetDefault(ch, "number", GetDefault(plan, "number", JInt(0)))
  }

  function PairTitle(plan: Fields, ch: Fields): Json {
    GetDefault(ch, "title", GetDefault(plan, "title", JStr("Untitled")))
  }

  /** `plan.get("image_prompts", []) or []`: a falsy value walks as the empty list. */
  function ImagePromptsOf(plan: Fields): Json {
    var ips := GetDefault(plan, "image_prompts", JArr([]));
    if Truthy(ips) then ips else JArr([])
  }

  /** One turn of the outer loop: the entries of one (plan, TOC entry) pair. */
  function PairItems(pair: (Json, Json)): (r: Result<seq<Gathered>>)
    ensures r.Ok? ==>
      && pair.0.JObj? && pair.1.JObj?
      && PyInt(PairNumber(pair.0.fields, pair.1.fields)).Some?
      && forall x :: x in r.value ==>
           x.chapter == PyInt(PairNumber(pair.0.fields, pair.1.fields)).value
           && x.title == PairTitle(pair.0.fields, pair.1.fields)
  {
    var ch :- AsDict(pair.1);
    var plan :- AsDict(pair.0);
    var num :- ToInt(PairNumber(plan, ch));
    var title := PairTitle(plan, ch);
    var items :- Iter(ImagePromptsOf(plan));
    ItemsFromIs(num, title, items, []);
    ItemsFrom(num, title, items, [])
  }

  /** The outer loop, appending to `acc`. */
  function GatherFrom(pairs: seq<(Json, Json)>, acc: seq<Gathered>): (r: Result<seq<Gathered>>)
    ensures r.Ok? ==> |acc| <= |r.value| && r.value[..|acc|] == acc
    decreases |pairs|
  {
    if pairs == [] then Ok(acc)
    else
      var xs :- PairItems(pairs[0]);
      var r := GatherFrom(pairs[1..], acc + xs);
      if r.Ok? then assert r.value[..|acc|] == r.value[..|acc + xs|][..|acc|]; r else r
  }

  /** `(p["chapter"], p["prompt"].strip())`: only a string prompt has `.strip`. */
  function PromptKey(p: Gathered): (r: Option<(int, string)>)
    ensures r.Some? <==> p.prompt.JStr?
    ensures r.Some? ==> r.value == (p.chapter, Strip(p.prompt.s))
  {
    if p.prompt.JStr? then Some((p.chapter, Strip(p.prompt.s))) else None
  }

  /** The key the uniqueness pass compares, where there is one. */
  function Key(x: Gathered): (int, string) {
    (x.chapter, if x.prompt.JStr? then Strip(x.prompt.s) else "")
  }

  /** A key counts when its stripped prompt is non-empty. */
  predicate Counts(k: (int, string)) { k.1 != "" }

  /** The uniqueness pass; the error is the AttributeError of a prompt that is not a string. */
  function Unique(ps: seq<Gathered>): Result<seq<Gathered>> {
    match Pass(ps, PromptKey, Counts, {}, [])
    case Some(kept) => Ok(kept)
    case None => Err(AttributeError("strip"))
  }

  /** `node_images` of the earlier version, merged into the state. */
  function NodeImagesV1(state: Fields): Result<Fields> {
    var plans :- Iter(GetDefault(state, "plans", JArr([])));
    var toc :- Iter(GetDefault(state, "toc", JArr([])));
    var prompts :- GatherFrom(Zip(plans, toc), []);
    var uniq :- Unique(prompts);
    Ok(Set(state, "image_prompts", GatheredsJson(uniq)))
  }

  /** The two loops as the source writes them, the second one with its `seen` set. */
  method NodeImagesV1Loop(state: Fields) returns (r: Result<Fields>)
    ensures r == NodeImagesV1(state)
  {
    var plans := Iter(GetDefault(state, "plans", JArr([])));
    var toc := Iter(GetDefault(state, "toc", JArr([])));
    if plans.Err? || toc.Err? {
      return if plans.Err? then Err(plans.error) else Err(toc.error);
    }
    var pairs := Zip(plans.value, toc.value);
    var prompts: seq<Gathered> := [];
    var i := 0;
    while i < |pairs|
      invariant 0 <= i <= |pairs|
      invariant GatherFrom(pairs[i..], prompts) == GatherFrom(pairs, [])
    {
      var xs := PairItems(pairs[i]);
      if xs.Err? {
        return Err(xs.error);
      }
      assert pairs[i..][1..] == pairs[i + 1..];
      prompts := prompts + xs.value;
      i := i + 1;
    }
    assert pairs[|pairs|..] == [];
    var seen: set<(int, string)> := {};
    var uniq: seq<Gathered> := [];
    var j := 0;
    while j < |prompts|
      invariant 0 <= j <= |prompts|
      invariant Pass(prompts[j..], PromptKey, Counts, seen, uniq) == Pass(prompts, PromptKey, Counts, {}, [])
    {
      var p := prompts[j];
      if !p.prompt.JStr? {
        return Err(AttributeError("strip"));
      }
      var s := Strip(p.prompt.s);
      assert prompts[j..][1..] == prompts[j + 1..];
      if (p.chapter, s) !in seen && s != "" {
        seen := seen + {(p.chapter, s)};
        uniq := uniq + [p];
      }
      j := j + 1;
    }
    assert prompts[|prompts|..] == [];
    return Ok(Set(state, "image_prompts", GatheredsJson(uniq)));
  }

  /** The uniqueness pass succeeds exactly when every prompt is a string; it keeps entries of its
      input, each with a non-empty stripped prompt and the first of its (chapter, stripped prompt)
      key, with pairwise distinct keys, and every usable key is represented. */
  lemma UniqueProps(ps: seq<Gathered>)
    ensures Unique(ps).Ok? <==> forall k :: 0 <= k < |ps| ==> ps[k].prompt.JStr?
    ensures Unique(ps).Ok? ==>
      var uniq := Unique(ps).value;
      && uniq == Firsts(ps, Key, Counts)
      && (forall x :: x in uniq ==> x in ps && Key(x).1 != "")
      && (forall a, b :: 0 <= a < b < |uniq| ==> Key(uniq[a]) != Key(uniq[b]))
      && (forall i :: 0 <= i < |ps| && FirstOfKey(ps, Key, Counts, i) ==> ps[i] in uniq)
      && (forall i :: 0 <= i < |ps| && Key(ps[i]).1 != "" ==> exists x :: x in uniq && Key(x) == Key(ps[i]))
  {
    PassIsFirsts(ps, PromptKey, Key, Counts);
    var uniq := Firsts(ps, Key, Counts);
    FirstsProps(ps, Key, Counts);
    forall i | 0 <= i < |ps| && Key(ps[i]).1 != "" ensures exists x :: x in uniq && Key(x) == Key(ps[i]) {
      FirstsCover(ps, Key, Counts, i);
    }
  }

  /** The earlier `node_images` stores the uniqueness pass over the zipped walk under
      `image_prompts`, and changes no other key. */
  lemma NodeImagesV1Props(state: Fields)
    requires NodeImagesV1(state).Ok?
    ensures var plans := PyIter(GetDefault(state, "plans", JArr([]))).value;
      var toc := PyIter(GetDefault(state, "toc", JArr([]))).value;
      && GatherFrom(Zip(plans, toc), []).Ok?
      && var ps := GatherFrom(Zip(plans, toc), []).value;
      && Unique(ps).Ok?
      && Get(NodeImagesV1(state).value, "image_prompts") == Some(GatheredsJson(Unique(ps).value))
      && (forall k :: k != "image_prompts" ==> Get(NodeImagesV1(state).value, k) == Get(state, k))
  {
    var plans := PyIter(GetDefault(state, "plans", JArr([]))).value;
    var toc := PyIter(GetDefault(state, "toc", JArr([]))).value;
    var ps := GatherFrom(Zip(plans, toc), []).value;
    var v := GatheredsJson(Unique(ps).value);
    SetGet(state, "image_prompts", v, "image_prompts");
    SetLeavesOthers(state, "image_prompts", v);
  }

  /** The walk stops at the shorter of the plans and the TOC: extra plans are never read. */
  lemma ZipStopsAtShorter(plans: seq<Json>, toc: seq<Json>, extra: seq<Json>)
    requires |toc| <= |plans|
    ensures Zip(plans + extra, toc) == Zip(plans, toc)
  {
  }
}
