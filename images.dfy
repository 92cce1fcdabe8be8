/**
 * The image stage of the current version (app.py): `node_images` collects the usable image
 * prompts of all plans, each tagged with its chapter number.
 */
module Images {
  import opened Wrappers
  import opened PyStrings
  import opened JsonModel
  import opened Normalize

  /** One entry of `image_prompts`. */
  datatype ImageJob = ImageJob(chapter: int, purpose: string, prompt: string)

  function ImageJobJson(x: ImageJob): Json {
    JObj([("chapter", JInt(x.chapter)), ("purpose", JStr(x.purpose)), ("prompt", JStr(x.prompt))])
  }

  function ImagesJson(xs: seq<ImageJob>): (j: Json)
    ensures j.JArr? && |j.items| == |xs|
    ensures forall i :: 0 <= i < |xs| ==> j.items[i] == ImageJobJson(xs[i])
  {
    JArr(seq(|xs|, i requires 0 <= i < |xs| => ImageJobJson(xs[i])))
  }

  /** Both purpose and prompt are non-blank and have no surrounding whitespace. */
  ghost predicate UsableJobs(xs: seq<ImageJob>) {
    forall i :: 0 <= i < |xs| ==> xs[i].purpose != "" && xs[i].prompt != "" && Stripped(xs[i].purpose) && Stripped(xs[i].prompt)
  }

  /** One `ip` of plan `plan`: kept, with the plan's number, when its stripped purpose and prompt
      are both non-empty. */
  function PromptOf(plan: Fields, ip: Json): (r: Result<seq<ImageJob>>)
    ensures r.Ok? ==> |r.value| <= 1 && UsableJobs(r.value)
  {
    var f :- AsDict(ip);
    var purpose := Strip(PyStr(GetDefault(f, "purpose", JStr(""))));
    var prompt := Strip(PyStr(GetDefault(f, "prompt", JStr(""))));
    StripCharsProps(PyStr(GetDefault(f, "purpose", JStr(""))), Whitespace);
    StripCharsProps(PyStr(GetDefault(f, "prompt", JStr(""))), Whitespace);
    if purpose != "" && prompt != "" then
      var n :- ToInt(GetDefault(plan, "number", JInt(0)));
      Ok([ImageJob(n, purpose, prompt)])
    else Ok([])
  }

  /** The inner loop over one plan's `image_prompts`. */
  function PromptsOf(plan: Fields, ips: seq<Json>): (r: Result<seq<ImageJob>>)
    ensures r.Ok? ==> |r.value| <= |ips| && UsableJobs(r.value)
    decreases |ips|
  {
    if ips == [] then Ok([])
    else
      var first :- PromptOf(plan, ips[0]);
      var rest :- PromptsOf(plan, ips[1..]);
      Ok(first + rest)
  }

  function PlanPrompts(p: Json): (r: Result<seq<ImageJob>>)
    ensures r.Ok? ==> UsableJobs(r.value)
  {
    var plan :- AsDict(p);
    var ips :- Iter(GetDefault(plan, "image_prompts", JArr([])));
    PromptsOf(plan, ips)
  }

  /** The outer loop over the plans. */
  function AllPrompts(ps: seq<Json>): (r: Result<seq<ImageJob>>)
    ensures r.Ok? ==> UsableJobs(r.value)
    decreases |ps|
  {
    if ps == [] then Ok([])
    else
      var first :- PlanPrompts(ps[0]);
      var rest :- AllPrompts(ps[1..]);
      Ok(first + rest)
  }

  /** `node_images`: every usable image prompt of every plan, tagged with the plan's number, under
      `image_prompts`. */
  function NodeImages(state: Fields): Result<Fields> {
    var ps :- Iter(GetDefault(state, "plans", JArr([])));
    var jobs :- AllPrompts(ps);
    Ok(Set(state, "image_prompts", ImagesJson(jobs)))
  }

  /** The prompts a normalised plan contributes: those with a non-blank purpose and prompt. */
  function KeptPrompts(n: int, ips: seq<ImagePrompt>): seq<ImageJob>
    decreases |ips|
  {
    if ips == [] then []
    else (if ips[0].purpose != "" && ips[0].prompt != "" then [ImageJob(n, ips[0].purpose, ips[0].prompt)] else [])
         + KeptPrompts(n, ips[1..])
  }

  function PlansPrompts(ps: seq<Plan>): seq<ImageJob>
    decreases |ps|
  {
    if ps == [] then [] else KeptPrompts(ps[0].number, ps[0].imagePrompts) + PlansPrompts(ps[1..])
  }

  lemma PromptOfPrompt(plan: Fields, n: int, ip: ImagePrompt)
    requires Get(plan, "number") == Some(JInt(n)) && Stripped(ip.purpose) && Stripped(ip.prompt)
    ensures PromptOf(plan, ImagePromptJson(ip)) ==
      Ok(if ip.purpose != "" && ip.prompt != "" then [ImageJob(n, ip.purpose, ip.prompt)] else [])
  {
    PromptFieldsOf(ip);
    assert ToInt(GetDefault(plan, "number", JInt(0))) == Ok(n);
  }

  /** The stripped purpose and prompt that `PromptOf` reads back from a normalised prompt. */
  lemma PromptFieldsOf(ip: ImagePrompt)
    requires Stripped(ip.purpose) && Stripped(ip.prompt)
    ensures var f := ImagePromptJson(ip).fields;
      && Strip(PyStr(GetDefault(f, "purpose", JStr("")))) == ip.purpose
      && Strip(PyStr(GetDefault(f, "prompt", JStr("")))) == ip.prompt
  {
    var f := ImagePromptJson(ip).fields;
    assert GetDefault(f, "purpose", JStr("")) == JStr(ip.purpose);
    assert GetDefault(f, "prompt", JStr("")) == JStr(ip.prompt) by {
      assert f == [f[0]] + [f[1]];
      GetCons(f[0], [f[1]], "prompt");
    }
    StrippedIsFixed(ip.purpose, Whitespace);
    StrippedIsFixed(ip.prompt, Whitespace);
  }

  lemma {:induction false} PromptsOfPlan(plan: Fields, n: int, ips: seq<ImagePrompt>)
    requires Get(plan, "number") == Some(JInt(n)) && PromptsStripped(ips)
    ensures PromptsOf(plan, PromptsJson(ips)) == Ok(KeptPrompts(n, ips))
    decreases |ips|
  {
    if ips != [] {
      var js := PromptsJson(ips);
      assert js[0] == ImagePromptJson(ips[0]);
      assert js[1..] == PromptsJson(ips[1..]);
      PromptOfPrompt(plan, n, ips[0]);
      PromptsOfPlan(plan, n, ips[1..]);
    }
  }

  lemma PlanPromptsOfPlan(p: Plan)
    requires PromptsStripped(p.imagePrompts)
    ensures PlanPrompts(PlanJson(p)) == Ok(KeptPrompts(p.number, p.imagePrompts))
  {
    PlanJsonGet(p);
    PromptsOfPlan(PlanJson(p).fields, p.number, p.imagePrompts);
  }

  /** The number and the prompts that `node_images` reads back from a stored plan. */
  lemma PlanJsonGet(p: Plan)
    ensures var fs := PlanJson(p).fields;
      && Get(fs, "number") == Some(JInt(p.number))
      && GetDefault(fs, "image_prompts", JArr([])) == JArr(PromptsJson(p.imagePrompts))
  {
    var fs := PlanJson(p).fields;
    assert fs[4] == ("image_prompts", JArr(PromptsJson(p.imagePrompts)));
    assert Get(fs, "number") == Some(JInt(p.number));
    assert Get(fs, "image_prompts") == Some(JArr(PromptsJson(p.imagePrompts))) by {
      assert fs == [fs[0]] + fs[1..] && fs[1..] == [fs[1]] + fs[2..] && fs[2..] == [fs[2]] + fs[3..];
      assert fs[3..] == [fs[3]] + fs[4..];
      GetCons(fs[0], fs[1..], "image_prompts");
      GetCons(fs[1], fs[2..], "image_prompts");
      GetCons(fs[2], fs[3..], "image_prompts");
      GetCons(fs[3], fs[4..], "image_prompts");
    }
  }

  /** On the plans `node_plan` stores, `node_images` never fails and keeps, in plan order, exactly the
      prompts whose purpose and prompt are non-blank, each tagged with its plan's number. */
  lemma {:induction false} AllPromptsOfPlans(ps: seq<Plan>)
    requires forall i :: 0 <= i < |ps| ==> PromptsStripped(ps[i].imagePrompts)
    ensures AllPrompts(seq(|ps|, i requires 0 <= i < |ps| => PlanJson(ps[i]))) == Ok(PlansPrompts(ps))
    decreases |ps|
  {
    if ps != [] {
      var js := seq(|ps|, i requires 0 <= i < |ps| => PlanJson(ps[i]));
      assert js[0] == PlanJson(ps[0]);
      assert js[1..] == seq(|ps[1..]|, i requires 0 <= i < |ps[1..]| => PlanJson(ps[1..][i]));
      PlanPromptsOfPlan(ps[0]);
      AllPromptsOfPlans(ps[1..]);
    }
  }

  /** `node_images` over normalised plans, as a stage. */
  lemma NodeImagesOfPlans(state: Fields, ps: seq<Plan>)
    requires Get(state, "plans") == Some(JArr(seq(|ps|, i requires 0 <= i < |ps| => PlanJson(ps[i]))))
    requires forall i :: 0 <= i < |ps| ==> PromptsStripped(ps[i].imagePrompts)
    ensures NodeImages(state) == Ok(Set(state, "image_prompts", ImagesJson(PlansPrompts(ps))))
  {
    AllPromptsOfPlans(ps);
  }
}
