/**
 * `build_graph`: the six stages run in the fixed order spec, toc, plan, draft, images, assemble.
 * Each stage wrapper either reloads its checkpoint (with `resume`, when the file exists) or runs
 * its node on the backend the router picks and saves the node's output as the checkpoint; with
 * `dry_run` the last three stages pass the state through. The checkpoint files are a map from
 * stage to the stored value.
 */
module Pipeline {
  import opened Wrappers
  import opened PyStrings
  import opened JsonModel
  import opened Oracle
  import opened Extract
  import opened Router
  import opened Stages
  import opened Book
  import opened Images
  import opened Assemble

  datatype StageTag = SpecStage | TocStage | PlanStage | DraftStage | ImagesStage | AssembleStage

  const Order: seq<StageTag> := [SpecStage, TocStage, PlanStage, DraftStage, ImagesStage, AssembleStage]

  /** The name the stage passes to `for_node`. */
  function NodeName(t: StageTag): string {
    match t
    case SpecStage => "spec"
    case TocStage => "toc"
    case PlanStage => "plan"
    case DraftStage => "draft"
    case ImagesStage => "images"
    case AssembleStage => "assemble"
  }

  /** The stages that ask for the heavy route. */
  predicate Heavy(t: StageTag) {
    t == DraftStage || t == AssembleStage
  }

  /** The state key a stage fills, and that its checkpoint restores. */
  function StateKey(t: StageTag): string {
    match t
    case SpecStage => "spec"
    case TocStage => "toc"
    case PlanStage => "plans"
    case DraftStage => "drafts"
    case ImagesStage => "image_prompts"
    case AssembleStage => "book_markdown"
  }

  /** The stages that `dry_run` skips. */
  predicate DrySkipped(t: StageTag) {
    t == DraftStage || t == ImagesStage || t == AssembleStage
  }

  /** The command-line flags; without `args` both are off. */
  datatype Flags = Flags(resume: bool, dryRun: bool)

  /** What the stages read besides the state: the JSON decoder and `sample_chapters`. */
  datatype Config = Config(dec: Decoder, sample: Option<int>)

  /** The pipeline's state, its checkpoint files and the two model backends. */
  datatype World = World(state: Fields, store: map<StageTag, Json>, ollama: Llm<Request>, gemini: Llm<Request>)

  /** A stage's node, run on a backend. */
  type NodeFn = (StageTag, Fields, Llm<Request>) -> Result<(Fields, Llm<Request>)>

  /** The stage's node, run on `llm`; the images and assemble nodes make no model call. */
  function RunNode(t: StageTag, state: Fields, llm: Llm<Request>, cfg: Config): Result<(Fields, Llm<Request>)> {
    match t
    case SpecStage => NodeSpec(state, llm, cfg.dec)
    case TocStage => NodeTocStage(state, llm, cfg.dec)
    case PlanStage => NodePlan(state, llm, cfg.dec)
    case DraftStage => NodeDraft(state, llm, cfg.sample)
    case ImagesStage =>
      var s :- NodeImages(state);
      Ok((s, llm))
    case AssembleStage =>
      var s :- NodeAssemble(state);
      Ok((s, llm))
  }

  /** What a fresh stage writes to its checkpoint: `new_state[key]`, except that the images stage
      writes `new_state.get("image_prompts", [])`, and the assemble node writes `book.md` itself. */
  function Saved(t: StageTag, s: Fields): (r: Result<Json>)
    ensures t == ImagesStage ==> r == Ok(GetDefault(s, "image_prompts", JArr([])))
    ensures t != ImagesStage ==> (r.Ok? <==> HasKey(s, StateKey(t)))
    ensures r.Ok? && t != ImagesStage ==> Get(s, StateKey(t)) == Some(r.value)
  {
    if t == ImagesStage then Ok(GetDefault(s, "image_prompts", JArr([])))
    else Field(s, StateKey(t))
  }

  /** The six nodes of the book, with the decoder and `sample_chapters` bound. */
  function Nodes(cfg: Config): NodeFn {
    (t, state, llm) => RunNode(t, state, llm, cfg)
  }

  /** A checkpoint is reloaded when `resume` is set and the file exists. */
  predicate Resumes(t: StageTag, flags: Flags, w: World) {
    flags.resume && t in w.store
  }

  /** One stage wrapper. */
  function Stage(t: StageTag, flags: Flags, node: NodeFn, w: World): Result<World> {
    if flags.dryRun && DrySkipped(t) then Ok(w)
    else if Resumes(t, flags, w) then Ok(w.(state := Set(w.state, StateKey(t), w.store[t])))
    else
      var route := ForNode(NodeName(t), Heavy(t));
      var (s, l1) :- node(t, w.state, if route.backend == Ollama then w.ollama else w.gemini);
      var saved :- Saved(t, s);
      var w1 := if route.backend == Ollama then w.(ollama := l1) else w.(gemini := l1);
      Ok(w1.(state := s, store := w.store[t := saved]))
  }

  /** The stages in turn, stopping at the first that raises. */
  function Run(ts: seq<StageTag>, flags: Flags, node: NodeFn, w: World): Result<World>
    decreases |ts|
  {
    if ts == [] then Ok(w)
    else
      var w1 :- Stage(ts[0], flags, node, w);
      Run(ts[1..], flags, node, w1)
  }

  /** The compiled graph, walked edge by edge from the entry point; the book's own nodes are
      `Nodes(cfg)`. */
  method RunGraph(flags: Flags, node: NodeFn, w: World) returns (r: Result<World>)
    ensures r == Run(Order, flags, node, w)
  {
    var cur := w;
    var i := 0;
    while i < |Order|
      invariant 0 <= i <= |Order|
      invariant Run(Order[i..], flags, node, cur) == Run(Order, flags, node, w)
    {
      var next := Stage(Order[i], flags, node, cur);
      if next.Err? {
        return next;
      }
      assert Order[i..][1..] == Order[i + 1..];
      cur := next.value;
      i := i + 1;
    }
    assert Order[i..] == [];
    return Ok(cur);
  }

  /** The stages the router sends to Ollama are spec, toc and images; the others go to Gemini. */
  lemma StageRoutes(t: StageTag)
    ensures ForNode(NodeName(t), Heavy(t)).backend == Ollama <==> (t == SpecStage || t == TocStage || t == ImagesStage)
  {
    ForNodeOllama(NodeName(t), Heavy(t));
    var n := NodeName(t);
    LowerLowercase(n);
  }

  /** The stage names are already lower case. */
  lemma LowerLowercase(n: string)
    requires forall k :: 0 <= k < |n| ==> !('A' <= n[k] <= 'Z')
    ensures LowerStr(n) == n
  {
  }

  /** One stage: with `dry_run` a skipped stage changes nothing; a reloaded checkpoint goes into
      the state verbatim, with no model call and no save; a fresh stage runs its node on the routed
      backend, leaves the other backend alone, and saves what the node put under its key. */
  lemma StageProps(t: StageTag, flags: Flags, node: NodeFn, w: World)
    ensures flags.dryRun && DrySkipped(t) ==> Stage(t, flags, node, w) == Ok(w)
    ensures !(flags.dryRun && DrySkipped(t)) && Resumes(t, flags, w) ==>
      var r := Stage(t, flags, node, w);
      && r.Ok? && r.value.store == w.store && r.value.ollama == w.ollama && r.value.gemini == w.gemini
      && Get(r.value.state, StateKey(t)) == Some(w.store[t])
      && forall k :: k != StateKey(t) ==> Get(r.value.state, k) == Get(w.state, k)
    ensures !(flags.dryRun && DrySkipped(t)) && !Resumes(t, flags, w) ==>
      var light := t == SpecStage || t == TocStage || t == ImagesStage;
      var r := Stage(t, flags, node, w);
      var n := node(t, w.state, if light then w.ollama else w.gemini);
      && (r.Ok? <==> n.Ok? && Saved(t, n.value.0).Ok?)
      && (r.Ok? ==>
            && r.value.state == n.value.0
            && r.value.store == w.store[t := Saved(t, n.value.0).value]
            && (if light then r.value.ollama == n.value.1 && r.value.gemini == w.gemini
                else r.value.gemini == n.value.1 && r.value.ollama == w.ollama))
  {
    StageRoutes(t);
    if !(flags.dryRun && DrySkipped(t)) && Resumes(t, flags, w) {
      SetGet(w.state, StateKey(t), w.store[t], StateKey(t));
      SetLeavesOthers(w.state, StateKey(t), w.store[t]);
    }
  }

  /** The stages write distinct keys. */
  lemma StateKeyInjective(a: StageTag, b: StageTag)
    ensures StateKey(a) == StateKey(b) ==> a == b
  {
  }

  /** Resuming with every stage's checkpoint present makes no model call and saves nothing: each
      stage's key holds its checkpoint verbatim and every other key keeps its value. */
  lemma {:induction false} RunResumed(ts: seq<StageTag>, flags: Flags, node: NodeFn, w: World)
    requires flags.resume && !flags.dryRun
    requires forall t :: t in ts ==> t in w.store
    ensures var r := Run(ts, flags, node, w);
      && r.Ok? && r.value.store == w.store && r.value.ollama == w.ollama && r.value.gemini == w.gemini
      && (forall t :: t in ts ==> Get(r.value.state, StateKey(t)) == Some(w.store[t]))
      && (forall k :: (forall t :: t in ts ==> StateKey(t) != k) ==> Get(r.value.state, k) == Get(w.state, k))
    decreases |ts|
  {
    if ts != [] {
      var t := ts[0];
      StageProps(t, flags, node, w);
      var w1 := Stage(t, flags, node, w).value;
      assert forall u :: u in ts[1..] ==> u in ts;
      RunResumed(ts[1..], flags, node, w1);
      var r := Run(ts, flags, node, w).value;
      assert r == Run(ts[1..], flags, node, w1).value;
      forall u | u in ts ensures Get(r.state, StateKey(u)) == Some(w.store[u]) {
        if u !in ts[1..] {
          assert u == t;
          forall v | v in ts[1..] ensures StateKey(v) != StateKey(t) {
            StateKeyInjective(v, t);
          }
        }
      }
      forall k | forall u :: u in ts ==> StateKey(u) != k
        ensures Get(r.state, k) == Get(w.state, k)
      {
        assert t in ts;
      }
    }
  }

  /** Every stage that runs, fresh or resumed, leaves its checkpoint behind, and no checkpoint is
      ever removed. */
  lemma {:induction false} RunCheckpoints(ts: seq<StageTag>, flags: Flags, node: NodeFn, w: World)
    requires Run(ts, flags, node, w).Ok?
    ensures var r := Run(ts, flags, node, w).value;
      && w.store.Keys <= r.store.Keys
      && forall t :: t in ts && !(flags.dryRun && DrySkipped(t)) ==> t in r.store
    decreases |ts|
  {
    if ts != [] {
      var t := ts[0];
      StageProps(t, flags, node, w);
      var w1 := Stage(t, flags, node, w).value;
      RunCheckpoints(ts[1..], flags, node, w1);
      assert w.store.Keys <= w1.store.Keys;
      assert !(flags.dryRun && DrySkipped(t)) ==> t in w1.store;
      assert forall u :: u in ts ==> u == t || u in ts[1..];
    }
  }

  /** With `dry_run` the graph stops mattering after the plan stage. */
  lemma RunDry(flags: Flags, node: NodeFn, w: World)
    requires flags.dryRun
    ensures Run(Order, flags, node, w) == Run(Order[..3], flags, node, w)
  {
    var tail := [DraftStage, ImagesStage, AssembleStage];
    DryTail(tail, flags, node, Order[..3], w);
    assert Order == Order[..3] + tail;
  }

  /** Skipped stages after `pre` leave its outcome as it is. */
  lemma {:induction false} DryTail(tail: seq<StageTag>, flags: Flags, node: NodeFn, pre: seq<StageTag>, w: World)
    requires flags.dryRun && forall t :: t in tail ==> DrySkipped(t)
    ensures Run(pre + tail, flags, node, w) == Run(pre, flags, node, w)
    decreases |pre| + |tail|
  {
    if pre == [] {
      assert pre + tail == tail;
      DrySkippedRun(tail, flags, node, w);
    } else {
      assert (pre + tail)[0] == pre[0] && (pre + tail)[1..] == pre[1..] + tail;
      var s := Stage(pre[0], flags, node, w);
      if s.Ok? {
        DryTail(tail, flags, node, pre[1..], s.value);
      }
    }
  }

  lemma {:induction false} DrySkippedRun(tail: seq<StageTag>, flags: Flags, node: NodeFn, w: World)
    requires flags.dryRun && forall t :: t in tail ==> DrySkipped(t)
    ensures Run(tail, flags, node, w) == Ok(w)
    decreases |tail|
  {
    if tail != [] {
      assert tail[0] in tail;
      assert forall t :: t in tail[1..] ==> t in tail;
      DrySkippedRun(tail[1..], flags, node, w);
    }
  }
}
