/**
 * `LLMRouter.for_node`: the light stages (spec, toc, images) go to the local Ollama model without
 * a temperature, everything else, and anything marked heavy, to Gemini with a temperature.
 */
module Router {
  import opened Wrappers
  import opened PyStrings

  datatype Backend = Ollama | Gemini

  /** The backend and the temperature passed with it, in tenths (0.7 is 7); None for Ollama. */
  datatype Route = Route(backend: Backend, temperature: Option<int>)

  const LightNodes: set<string> := {"spec", "toc", "images"}

  /** The node name is lower-cased before the lookup. */
  function ForNode(node: string, heavy: bool): (r: Route)
    ensures r.backend == Ollama <==> r.temperature.None?
    ensures heavy ==> r == Route(Gemini, Some(7))
    ensures !heavy && r.backend == Gemini ==> r.temperature == Some(6)
  {
    if LowerStr(node) in LightNodes && !heavy then Route(Ollama, None)
    else Route(Gemini, Some(if heavy then 7 else 6))
  }

  lemma LowerTwice(s: string)
    ensures LowerStr(LowerStr(s)) == LowerStr(s)
  {
    var l := LowerStr(s);
    forall k | 0 <= k < |s| ensures LowerStr(l)[k] == l[k] {
      assert Lower(Lower(s[k])) == Lower(s[k]);
    }
  }

  /** Routing ignores the case of the node name. */
  lemma ForNodeIgnoresCase(node: string, heavy: bool)
    ensures ForNode(node, heavy) == ForNode(LowerStr(node), heavy)
  {
    LowerTwice(node);
  }

  /** A name routes to Ollama exactly when heavy is off and the name is, ignoring case, one of the
      light stages. */
  lemma ForNodeOllama(node: string, heavy: bool)
    ensures ForNode(node, heavy).backend == Ollama <==>
      !heavy && (LowerStr(node) == "spec" || LowerStr(node) == "toc" || LowerStr(node) == "images")
  {
  }
}
