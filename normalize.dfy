/**
 * The normalisers of the current version (app.py) that coerce a model's JSON into the shape later
 * stages read: the book specification (`normalize_spec` and its `_coerce_*` helpers) and the chapter
 * plan (`normalize_plan` with `_as_list_str` and `_normalize_image_prompts`).
 */
module Normalize {
  import opened Wrappers
  import opened PyStrings
  import opened JsonModel

  /** `[x for x in xs if x]` */
  function Truthies(xs: seq<Json>): (r: seq<Json>)
    ensures |r| <= |xs|
    ensures forall i :: 0 <= i < |r| ==> Truthy(r[i]) && r[i] in xs
    ensures forall x :: x in xs && Truthy(x) ==> x in r
  {
    if xs == [] then []
    else Truthies(xs[..|xs| - 1]) + (if Truthy(xs[|xs| - 1]) then [xs[|xs| - 1]] else [])
  }

  /** `[str(x).strip() for x in xs]` */
  function StrStripAll(xs: seq<Json>): (r: seq<string>)
    ensures |r| == |xs| && forall i :: 0 <= i < |xs| ==> r[i] == Strip(PyStr(xs[i]))
  {
    seq(|xs|, i requires 0 <= i < |xs| => Strip(PyStr(xs[i])))
  }

  /** `[x for x in out if x]` */
  function NonEmpty(out: seq<string>): (r: seq<string>)
    ensures forall i :: 0 <= i < |r| ==> r[i] != "" && r[i] in out
    ensures forall s :: s in out && s != "" ==> s in r
  {
    if out == [] then []
    else NonEmpty(out[..|out| - 1]) + (if out[|out| - 1] != "" then [out[|out| - 1]] else [])
  }

  const EnDash: string := " – "

  /** `" – ".join(str(v).strip() for v in d.values() if v)`, or nothing when no value is truthy. */
  function JoinedValues(fs: Fields): (r: seq<string>)
    ensures |r| <= 1
    ensures r != [] <==> exists v :: v in Values(fs) && Truthy(v)
  {
    var vals := StrStripAll(Truthies(Values(fs)));
    if vals != [] then [Join(EnDash, vals)] else []
  }

  // ---------------------------------------------------------------------------------------------
  // The specification record

  /** `_coerce_audience`: one string for whatever shape the audience came in. */
  function CoerceAudience(aud: Json): (r: string)
    ensures aud.JStr? ==> r == Strip(aud.s) && Stripped(r)
    ensures aud.JArr? ==> r == Join("; ", StrsOf(Truthies(aud.items)))
    ensures !(aud.JStr? || aud.JObj? || aud.JArr?) ==> r == PyStr(aud)
  {
    match aud
    case JStr(s) =>
      StripCharsProps(s, Whitespace);
      Strip(s)
    case JObj(fs) =>
      var parts := AudienceParts(fs);
      if parts != [] then Join("; ", parts) else Dumps(aud, false)
    case JArr(xs) => Join("; ", StrsOf(Truthies(xs)))
    case _ => PyStr(aud)
  }

  /** The labelled parts of a dict audience. */
  function AudienceParts(fs: Fields): seq<string> {
    var primary := Lookup(fs, "primary");
    var secondary := Lookup(fs, "secondary");
    (if Truthy(primary) then ["Primary: " + PyStr(primary)] else [])
      + (if Truthy(secondary) then ["Secondary: " + PyStr(secondary)] else [])
  }

  /** `[str(x) for x in xs]` */
  function StrsOf(xs: seq<Json>): (r: seq<string>)
    ensures |r| == |xs| && forall i :: 0 <= i < |xs| ==> r[i] == PyStr(xs[i])
  {
    seq(|xs|, i requires 0 <= i < |xs| => PyStr(xs[i]))
  }

  /** A dict audience reads "Primary: …; Secondary: …" from whichever of the two is set, and is
      dumped as JSON when neither is. */
  lemma AudienceOfDict(fs: Fields)
    ensures var p, s := Lookup(fs, "primary"), Lookup(fs, "secondary");
      CoerceAudience(JObj(fs)) ==
        if Truthy(p) && Truthy(s) then "Primary: " + PyStr(p) + "; " + "Secondary: " + PyStr(s)
        else if Truthy(p) then "Primary: " + PyStr(p)
        else if Truthy(s) then "Secondary: " + PyStr(s)
        else Dumps(JObj(fs), false)
  {
    var p, s := Lookup(fs, "primary"), Lookup(fs, "secondary");
    var parts := AudienceParts(fs);
    if Truthy(p) && Truthy(s) {
      assert parts == ["Primary: " + PyStr(p), "Secondary: " + PyStr(s)];
      assert parts[..1] == ["Primary: " + PyStr(p)];
      assert Join("; ", parts) == "Primary: " + PyStr(p) + "; " + "Secondary: " + PyStr(s);
    } else if Truthy(p) {
      assert parts == ["Primary: " + PyStr(p)];
    } else if Truthy(s) {
      assert parts == ["Secondary: " + PyStr(s)];
    } else {
      assert parts == [];
    }
  }

  /** A string audience is coerced once and for all. */
  lemma AudienceStringIdempotent(s: string)
    ensures CoerceAudience(JStr(CoerceAudience(JStr(s)))) == CoerceAudience(JStr(s))
  {
    StripCharsIdempotent(s, Whitespace);
  }

  /** What one item of a constraints list appends to the output. */
  function ConstraintItem(c: Json): (r: seq<string>)
    ensures |r| <= 1
    ensures c.JStr? ==> r == (if Strip(c.s) != "" then [Strip(c.s)] else [])
    ensures !(c.JStr? || c.JObj?) ==> r == []
  {
    match c
    case JStr(s) => if Strip(s) != "" then [Strip(s)] else []
    case JObj(fs) =>
      var named := Lookup(fs, "constraint");
      if Truthy(named) then [Strip(PyStr(named))] else JoinedValues(fs)
    case _ => []
  }

  /** The items' contributions, in order. */
  function Gather(items: seq<Json>, item: Json -> seq<string>): (r: seq<string>)
    ensures forall i :: 0 <= i < |items| ==> forall s :: s in item(items[i]) ==> s in r
  {
    if items == [] then []
    else
      var r := Gather(items[..|items| - 1], item) + item(items[|items| - 1]);
      assert forall i :: 0 <= i < |items| - 1 ==> items[i] == items[..|items| - 1][i];
      r
  }

  lemma GatherStep(items: seq<Json>, i: nat, item: Json -> seq<string>)
    requires i < |items|
    ensures Gather(items[..i + 1], item) == Gather(items[..i], item) + item(items[i])
  {
    assert items[..i + 1][..i] == items[..i];
  }

  /** `_coerce_constraints`: a list of non-empty strings from a list (of strings and dicts) or one string. */
  function CoerceConstraints(cons: Json): (r: seq<string>)
    ensures forall i :: 0 <= i < |r| ==> r[i] != ""
    ensures cons.JStr? ==> r == (if Strip(cons.s) != "" then [Strip(cons.s)] else [])
    ensures cons.JArr? ==> forall i :: 0 <= i < |cons.items| && cons.items[i].JStr? && Strip(cons.items[i].s) != "" ==>
      Strip(cons.items[i].s) in r
    ensures !(cons.JArr? || cons.JStr?) ==> r == []
  {
    match cons
    case JArr(items) =>
      var out := Gather(items, ConstraintItem);
      assert forall i :: 0 <= i < |items| && items[i].JStr? && Strip(items[i].s) != "" ==>
        Strip(items[i].s) in ConstraintItem(items[i]);
      NonEmpty(out)
    case JStr(s) =>
      NonEmptySingle(Strip(s));
      NonEmpty([Strip(s)])
    case _ => []
  }

  lemma NonEmptySingle(x: string)
    ensures NonEmpty([x]) == if x != "" then [x] else []
  {
    assert [x][..0] == [];
  }

  /** One turn of the `_coerce_constraints` loop: what it appends for item `c`. */
  method ConstraintItemStep(c: Json) returns (piece: seq<string>)
    ensures piece == ConstraintItem(c)
  {
    piece := [];
    if c.JStr? {
      var s := Strip(c.s);
      if s != "" {
        piece := [s];
      }
    } else if c.JObj? {
      var named := Lookup(c.fields, "constraint");
      if Truthy(named) {
        piece := [Strip(PyStr(named))];
      } else {
        piece := JoinedValues(c.fields);
      }
      assert piece == ConstraintItem(JObj(c.fields));
    }
  }

  /** `_coerce_constraints` with its append loop as in the source. */
  method CoerceConstraintsLoop(cons: Json) returns (r: seq<string>)
    ensures r == CoerceConstraints(cons)
  {
    var out: seq<string> := [];
    if cons.JArr? {
      var items := cons.items;
      var i := 0;
      while i < |items|
        invariant 0 <= i <= |items|
        invariant out == Gather(items[..i], ConstraintItem)
      {
        var piece := ConstraintItemStep(items[i]);
        GatherStep(items, i, ConstraintItem);
        out := out + piece;
        i := i + 1;
      }
      assert items[..i] == items;
    } else if cons.JStr? {
      out := [Strip(cons.s)];
      NonEmptySingle(Strip(cons.s));
    }
    r := NonEmpty(out);
  }

  /** A list of already stripped, non-empty strings comes back unchanged. */
  lemma {:induction false} ConstraintsFixedPoint(ss: seq<string>)
    requires forall i :: 0 <= i < |ss| ==> ss[i] != "" && Stripped(ss[i])
    ensures CoerceConstraints(StrList(ss)) == ss
  {
    GatherStrings(ss);
    NonEmptyOfNonEmpty(ss);
  }

  lemma {:induction false} GatherStrings(ss: seq<string>)
    requires forall i :: 0 <= i < |ss| ==> ss[i] != "" && Stripped(ss[i])
    ensures Gather(StrList(ss).items, ConstraintItem) == ss
    decreases |ss|
  {
    if ss != [] {
      var init := ss[..|ss| - 1];
      assert StrList(ss).items[..|ss| - 1] == StrList(init).items;
      GatherStrings(init);
      StrippedIsFixed(ss[|ss| - 1], Whitespace);
    }
  }

  lemma {:induction false} NonEmptyOfNonEmpty(ss: seq<string>)
    requires forall i :: 0 <= i < |ss| ==> ss[i] != ""
    ensures NonEmpty(ss) == ss
    decreases |ss|
  {
    if ss != [] {
      NonEmptyOfNonEmpty(ss[..|ss| - 1]);
    }
  }

  predicate AllStrs(xs: seq<Json>) {
    forall i :: 0 <= i < |xs| ==> xs[i].JStr?
  }

  /** `[g.strip() for g in goals if g and isinstance(g, str)]` */
  function StrippedNonEmptyStrs(xs: seq<Json>): (r: seq<string>)
    ensures |r| <= |xs|
  {
    if xs == [] then []
    else
      var x := xs[|xs| - 1];
      StrippedNonEmptyStrs(xs[..|xs| - 1]) + (if x.JStr? && x.s != "" then [Strip(x.s)] else [])
  }

  /** `[str(it["goal"]).strip() for it in items if isinstance(it, dict) and it.get("goal")]` */
  function GoalsOfOutcomes(items: seq<Json>): (r: seq<string>)
    ensures |r| <= |items|
  {
    if items == [] then []
    else
      var it := items[|items| - 1];
      GoalsOfOutcomes(items[..|items| - 1])
        + (if it.JObj? && Truthy(Lookup(it.fields, "goal")) then [Strip(PyStr(Lookup(it.fields, "goal")))] else [])
  }

  /** `_coerce_goals`: the first of `goals` (a list of strings), `goals_outcomes` (dicts with a
      `goal`) and `objectives` (anything truthy) that yields something. */
  function CoerceGoals(spec: Fields): (r: seq<string>)
    ensures var g := Lookup(spec, "goals");
      g.JArr? && AllStrs(g.items) ==> r == StrippedNonEmptyStrs(g.items)
  {
    var g := Lookup(spec, "goals");
    var go := Lookup(spec, "goals_outcomes");
    var ob := Lookup(spec, "objectives");
    if g.JArr? && AllStrs(g.items) then StrippedNonEmptyStrs(g.items)
    else if go.JArr? && GoalsOfOutcomes(go.items) != [] then GoalsOfOutcomes(go.items)
    else if ob.JArr? && StrStripAll(Truthies(ob.items)) != [] then StrStripAll(Truthies(ob.items))
    else []
  }

  /** The goals are read from `goals`, `goals_outcomes` and `objectives` only. */
  lemma CoerceGoalsReads(a: Fields, b: Fields)
    requires Get(a, "goals") == Get(b, "goals")
    requires Get(a, "goals_outcomes") == Get(b, "goals_outcomes")
    requires Get(a, "objectives") == Get(b, "objectives")
    ensures CoerceGoals(a) == CoerceGoals(b)
  {
    assert Lookup(a, "goals") == Lookup(b, "goals");
    assert Lookup(a, "goals_outcomes") == Lookup(b, "goals_outcomes");
    assert Lookup(a, "objectives") == Lookup(b, "objectives");
  }

  /** `if isinstance(spec.get(k), str): spec[k] = spec[k].strip()` */
  function StripField(spec: Fields, k: string): (r: Fields)
    ensures Keys(r) == Keys(spec)
    ensures forall k' :: k' != k ==> Get(r, k') == Get(spec, k')
    ensures Get(r, k) == if Lookup(spec, k).JStr? then Some(JStr(Strip(Lookup(spec, k).s))) else Get(spec, k)
  {
    if Lookup(spec, k).JStr? then
      SetKeys(spec, k, JStr(Strip(Lookup(spec, k).s)));
      assert forall k' :: Get(Set(spec, k, JStr(Strip(Lookup(spec, k).s))), k') ==
                          if k' == k then Some(JStr(Strip(Lookup(spec, k).s))) else Get(spec, k') by {
        forall k' ensures Get(Set(spec, k, JStr(Strip(Lookup(spec, k).s))), k') ==
                          if k' == k then Some(JStr(Strip(Lookup(spec, k).s))) else Get(spec, k') {
          SetGet(spec, k, JStr(Strip(Lookup(spec, k).s)), k');
        }
      }
      Set(spec, k, JStr(Strip(Lookup(spec, k).s)))
    else spec
  }

  /** `if k in spec: spec[k] = v` */
  function SetIfPresent(spec: Fields, k: string, v: Json): (r: Fields)
    ensures Keys(r) == Keys(spec)
    ensures forall k' :: k' != k ==> Get(r, k') == Get(spec, k')
    ensures Get(r, k) == if HasKey(spec, k) then Some(v) else None
  {
    if HasKey(spec, k) then
      SetKeys(spec, k, v);
      SetGet(spec, k, v, k);
      assert forall k' :: k' != k ==> Get(Set(spec, k, v), k') == Get(spec, k') by {
        forall k' | k' != k ensures Get(Set(spec, k, v), k') == Get(spec, k') {
          SetGet(spec, k, v, k');
        }
      }
      Set(spec, k, v)
    else spec
  }

  /** `spec.setdefault(k, v)` (or an unconditional `spec[k] = v` when `force` holds). */
  function SetField(spec: Fields, k: string, v: Json, force: bool): (r: Fields)
    ensures Keys(r) == if HasKey(spec, k) then Keys(spec) else Keys(spec) + [k]
    ensures forall k' :: k' != k ==> Get(r, k') == Get(spec, k')
    ensures Get(r, k) == if force || !HasKey(spec, k) then Some(v) else Get(spec, k)
  {
    if force || !HasKey(spec, k) then
      SetKeys(spec, k, v);
      SetGet(spec, k, v, k);
      assert forall k' :: k' != k ==> Get(Set(spec, k, v), k') == Get(spec, k') by {
        forall k' | k' != k ensures Get(Set(spec, k, v), k') == Get(spec, k') {
          SetGet(spec, k, v, k');
        }
      }
      Set(spec, k, v)
    else spec
  }

  /** The audience after coercion, if the key is present. */
  function AudienceValue(spec: Fields): Json {
    JStr(CoerceAudience(Lookup(spec, "audience")))
  }

  function ConstraintsValue(spec: Fields): Json {
    StrList(CoerceConstraints(Lookup(spec, "constraints")))
  }

  /** `normalize_spec`: a copy of the record with its known fields coerced, in the order the source
      applies them; unknown keys are kept. */
  function NormalizeSpec(raw: Fields): Fields {
    var s1 := StripField(raw, "title");
    var s2 := SetIfPresent(s1, "audience", AudienceValue(s1));
    var goals := CoerceGoals(s2);
    var s3 := if goals != [] then SetField(s2, "goals", StrList(goals), true) else s2;
    var s4 := SetIfPresent(s3, "constraints", ConstraintsValue(s3));
    var s5 := StripField(s4, "tone");
    var s6 := StripField(s5, "subtitle");
    SetField(s6, "goals", JArr([]), false)
  }

  const SpecFields: set<string> := {"title", "audience", "goals", "constraints", "tone", "subtitle"}

  /** The keys keep their order; `goals` is added at the end when it was missing. Keys the
      normaliser does not know are left as they were. */
  lemma NormalizeSpecKeys(raw: Fields, k: string)
    ensures Keys(NormalizeSpec(raw)) == if HasKey(raw, "goals") then Keys(raw) else Keys(raw) + ["goals"]
    ensures HasKey(NormalizeSpec(raw), "goals")
    ensures k !in SpecFields ==> Get(NormalizeSpec(raw), k) == Get(raw, k)
  {
    var s1 := StripField(raw, "title");
    var s2 := SetIfPresent(s1, "audience", AudienceValue(s1));
    var goals := CoerceGoals(s2);
    var s3 := if goals != [] then SetField(s2, "goals", StrList(goals), true) else s2;
    var s4 := SetIfPresent(s3, "constraints", ConstraintsValue(s3));
    var s5 := StripField(s4, "tone");
    var s6 := StripField(s5, "subtitle");
    var r := SetField(s6, "goals", JArr([]), false);
    assert NormalizeSpec(raw) == r;
    assert Keys(s2) == Keys(raw);
    assert Keys(s6) == Keys(s3);
    assert Keys(r) == if HasKey(raw, "goals") then Keys(raw) else Keys(raw) + ["goals"];
    assert "goals" in Keys(raw) + ["goals"];
  }

  /** `title`, `tone` and `subtitle` are stripped when they are strings and otherwise kept. */
  lemma NormalizeSpecStripsText(raw: Fields)
    ensures Get(NormalizeSpec(raw), "title") ==
      if Lookup(raw, "title").JStr? then Some(JStr(Strip(Lookup(raw, "title").s))) else Get(raw, "title")
    ensures Get(NormalizeSpec(raw), "tone") ==
      if Lookup(raw, "tone").JStr? then Some(JStr(Strip(Lookup(raw, "tone").s))) else Get(raw, "tone")
    ensures Get(NormalizeSpec(raw), "subtitle") ==
      if Lookup(raw, "subtitle").JStr? then Some(JStr(Strip(Lookup(raw, "subtitle").s))) else Get(raw, "subtitle")
  {
    var s1 := StripField(raw, "title");
    var s2 := SetIfPresent(s1, "audience", AudienceValue(s1));
    var goals := CoerceGoals(s2);
    var s3 := if goals != [] then SetField(s2, "goals", StrList(goals), true) else s2;
    var s4 := SetIfPresent(s3, "constraints", ConstraintsValue(s3));
    TailStripsText(s4);
    HeadKeepsText(raw);
  }

  /** The first four steps strip `title` and keep `tone` and `subtitle`. */
  lemma HeadKeepsText(raw: Fields)
    ensures var s1 := StripField(raw, "title");
      var s2 := SetIfPresent(s1, "audience", AudienceValue(s1));
      var goals := CoerceGoals(s2);
      var s3 := if goals != [] then SetField(s2, "goals", StrList(goals), true) else s2;
      var s4 := SetIfPresent(s3, "constraints", ConstraintsValue(s3));
      && Get(s4, "tone") == Get(raw, "tone") && Get(s4, "subtitle") == Get(raw, "subtitle")
      && Get(s4, "title") == Get(s1, "title")
  {
  }

  /** The last three steps strip `tone` and `subtitle` and keep `title`. */
  lemma TailStripsText(s4: Fields)
    ensures var s5 := StripField(s4, "tone");
      var r := SetField(StripField(s5, "subtitle"), "goals", JArr([]), false);
      && Get(r, "title") == Get(s4, "title")
      && Get(r, "tone") == Get(s5, "tone")
      && Get(r, "subtitle") == Get(StripField(s5, "subtitle"), "subtitle")
      && Get(s5, "subtitle") == Get(s4, "subtitle")
  {
  }

  /** `audience`, when present, becomes its coerced string; it is never added. */
  lemma NormalizeSpecAudience(raw: Fields)
    ensures Get(NormalizeSpec(raw), "audience") ==
      if HasKey(raw, "audience") then Some(JStr(CoerceAudience(Lookup(raw, "audience")))) else None
  {
    var s1 := StripField(raw, "title");
    var s2 := SetIfPresent(s1, "audience", AudienceValue(s1));
    var goals := CoerceGoals(s2);
    var s3 := if goals != [] then SetField(s2, "goals", StrList(goals), true) else s2;
    var s4 := SetIfPresent(s3, "constraints", ConstraintsValue(s3));
    var s5 := StripField(s4, "tone");
    var s6 := StripField(s5, "subtitle");
    var r := SetField(s6, "goals", JArr([]), false);
    assert NormalizeSpec(raw) == r;
    assert Get(s1, "audience") == Get(raw, "audience");
    assert Keys(s1) == Keys(raw);
    assert Get(r, "audience") == Get(s2, "audience");
  }

  /** `constraints`, when present, becomes a list of non-empty strings; it is never added. */
  lemma NormalizeSpecConstraints(raw: Fields)
    ensures HasKey(raw, "constraints") ==> exists cs ::
      Get(NormalizeSpec(raw), "constraints") == Some(StrList(cs)) && forall i :: 0 <= i < |cs| ==> cs[i] != ""
    ensures !HasKey(raw, "constraints") ==> !HasKey(NormalizeSpec(raw), "constraints")
  {
    var s1 := StripField(raw, "title");
    var s2 := SetIfPresent(s1, "audience", AudienceValue(s1));
    var goals := CoerceGoals(s2);
    var s3 := if goals != [] then SetField(s2, "goals", StrList(goals), true) else s2;
    var s4 := SetIfPresent(s3, "constraints", ConstraintsValue(s3));
    var s5 := StripField(s4, "tone");
    var s6 := StripField(s5, "subtitle");
    var r := SetField(s6, "goals", JArr([]), false);
    assert NormalizeSpec(raw) == r;
    assert Keys(s3) == Keys(raw) || Keys(s3) == Keys(raw) + ["goals"];
    assert HasKey(s3, "constraints") == HasKey(raw, "constraints");
    assert Get(r, "constraints") == Get(s4, "constraints");
    if HasKey(raw, "constraints") {
      var cs := CoerceConstraints(Lookup(s3, "constraints"));
      assert Get(r, "constraints") == Some(StrList(cs));
    }
  }

  /** `goals` becomes the coerced goals when there are any, and otherwise keeps its value or
      defaults to the empty list. */
  lemma NormalizeSpecGoals(raw: Fields)
    ensures Get(NormalizeSpec(raw), "goals") ==
      if CoerceGoals(raw) != [] then Some(StrList(CoerceGoals(raw)))
      else if HasKey(raw, "goals") then Get(raw, "goals")
      else Some(JArr([]))
  {
    var s1 := StripField(raw, "title");
    var s2 := SetIfPresent(s1, "audience", AudienceValue(s1));
    HeadKeepsGoals(raw);
    var goals := CoerceGoals(s2);
    var s3 := if goals != [] then SetField(s2, "goals", StrList(goals), true) else s2;
    GoalsStep(s2);
    TailKeepsGoals(s3);
  }

  /** Stripping the title and coercing the audience leave the goals' sources alone. */
  lemma HeadKeepsGoals(raw: Fields)
    ensures var s1 := StripField(raw, "title");
      var s2 := SetIfPresent(s1, "audience", AudienceValue(s1));
      && Get(s2, "goals") == Get(raw, "goals")
      && HasKey(s2, "goals") == HasKey(raw, "goals")
      && CoerceGoals(s2) == CoerceGoals(raw)
  {
    var s1 := StripField(raw, "title");
    var s2 := SetIfPresent(s1, "audience", AudienceValue(s1));
    CoerceGoalsReads(s2, raw);
    assert Keys(s2) == Keys(raw);
  }

  lemma GoalsStep(s2: Fields)
    ensures var goals := CoerceGoals(s2);
      var s3 := if goals != [] then SetField(s2, "goals", StrList(goals), true) else s2;
      && Get(s3, "goals") == (if goals != [] then Some(StrList(goals)) else Get(s2, "goals"))
      && (goals != [] ==> HasKey(s3, "goals"))
      && (goals == [] ==> s3 == s2)
  {
  }

  lemma TailKeepsGoals(s3: Fields)
    ensures var s4 := SetIfPresent(s3, "constraints", ConstraintsValue(s3));
      var s5 := StripField(s4, "tone");
      var s6 := StripField(s5, "subtitle");
      Get(SetField(s6, "goals", JArr([]), false), "goals") ==
        if HasKey(s3, "goals") then Get(s3, "goals") else Some(JArr([]))
  {
  }

  /** Normalising twice is not the same as normalising once: a list audience is joined without
      stripping, and only the second pass strips it (for instance `{"audience": ["a "]}`). */
  lemma NormalizeSpecNotIdempotent(raw: Fields, s: string)
    requires Get(raw, "audience") == Some(JArr([JStr(s)]))
    requires s != "" && !Stripped(s)
    ensures NormalizeSpec(NormalizeSpec(raw)) != NormalizeSpec(raw)
  {
    var once := NormalizeSpec(raw);
    var twice := NormalizeSpec(once);
    AudienceOfSingleton(s);
    NormalizeSpecAudience(raw);
    assert Get(once, "audience") == Some(JStr(s));
    NormalizeSpecAudience(once);
    StripCharsProps(s, Whitespace);
    assert Get(twice, "audience") == Some(JStr(Strip(s)));
    assert Strip(s) != s;
  }

  lemma AudienceOfSingleton(s: string)
    requires s != ""
    ensures CoerceAudience(JArr([JStr(s)])) == s
  {
    assert Truthies([JStr(s)]) == [JStr(s)] by {
      assert [JStr(s)][..0] == [];
    }
    assert StrsOf([JStr(s)]) == [s];
  }

  lemma {:induction false} NoGoalsFromStrings(items: seq<Json>)
    requires AllStrs(items)
    ensures GoalsOfOutcomes(items) == []
    decreases |items|
  {
    if items != [] {
      NoGoalsFromStrings(items[..|items| - 1]);
    }
  }

  /** A reply whose `goals_outcomes` holds plain strings, with no `goals` or `objectives`, ends up
      with an empty goals list; `audience` and `constraints` are not added when missing. */
  lemma NormalizeSpecOutcomeStrings(raw: Fields)
    requires !HasKey(raw, "goals") && !HasKey(raw, "objectives")
    requires Lookup(raw, "goals_outcomes").JArr? && AllStrs(Lookup(raw, "goals_outcomes").items)
    ensures Get(NormalizeSpec(raw), "goals") == Some(JArr([]))
    ensures HasKey(NormalizeSpec(raw), "audience") == HasKey(raw, "audience")
    ensures HasKey(NormalizeSpec(raw), "constraints") == HasKey(raw, "constraints")
  {
    NoGoalsFromStrings(Lookup(raw, "goals_outcomes").items);
    assert CoerceGoals(raw) == [];
    NormalizeSpecGoals(raw);
    NormalizeSpecAudience(raw);
    NormalizeSpecConstraints(raw);
  }

  // ---------------------------------------------------------------------------------------------
  // The chapter plan

  /** What one list item contributes to `_as_list_str`. */
  function ListStrItem(it: Json): (r: seq<string>)
    ensures |r| <= 1
    ensures it.JStr? ==> r == (if Strip(it.s) != "" then [Strip(it.s)] else [])
  {
    match it
    case JStr(s) => if Strip(s) != "" then [Strip(s)] else []
    case JObj(fs) => JoinedValues(fs)
    case _ => if Strip(PyStr(it)) != "" then [Strip(PyStr(it))] else []
  }

  /** `_as_list_str`: a list of strings from nothing, a string, a list, or anything `str()` accepts. */
  function AsListStr(x: Json): (r: seq<string>)
    ensures x.JNull? ==> r == []
    ensures x.JStr? ==> r == (if Strip(x.s) != "" then [Strip(x.s)] else [])
    ensures x.JArr? ==> r == Gather(x.items, ListStrItem)
  {
    match x
    case JNull => []
    case JStr(s) => if Strip(s) != "" then [Strip(s)] else []
    case JArr(items) => Gather(items, ListStrItem)
    case _ => if Strip(PyStr(x)) != "" then [Strip(PyStr(x))] else []
  }

  /** `_as_list_str` with its append loop as in the source. */
  method AsListStrLoop(x: Json) returns (r: seq<string>)
    ensures r == AsListStr(x)
  {
    if x.JNull? {
      return [];
    }
    if x.JStr? {
      var s := Strip(x.s);
      return if s != "" then [s] else [];
    }
    if x.JArr? {
      var out: seq<string> := [];
      var items := x.items;
      var i := 0;
      while i < |items|
        invariant 0 <= i <= |items|
        invariant out == Gather(items[..i], ListStrItem)
      {
        var it := items[i];
        if it.JStr? {
          var s := Strip(it.s);
          if s != "" {
            out := out + [s];
          }
        } else if it.JObj? {
          var vals := StrStripAll(Truthies(Values(it.fields)));
          if vals != [] {
            out := out + [Join(EnDash, vals)];
          }
        } else {
          var s := Strip(PyStr(it));
          if s != "" {
            out := out + [s];
          }
        }
        assert items[..i + 1][..i] == items[..i];
        i := i + 1;
      }
      assert items[..i] == items;
      return out;
    }
    var s := Strip(PyStr(x));
    return if s != "" then [s] else [];
  }

  /** The non-empty stripped strings of a list of strings, in order. */
  function StrippedNonBlank(ss: seq<string>): (r: seq<string>)
    ensures forall i :: 0 <= i < |r| ==> r[i] != "" && Stripped(r[i])
  {
    if ss == [] then []
    else
      var s := ss[|ss| - 1];
      StripCharsProps(s, Whitespace);
      StrippedNonBlank(ss[..|ss| - 1]) + (if Strip(s) != "" then [Strip(s)] else [])
  }

  /** On a list of strings `_as_list_str` keeps the non-blank ones, stripped, in order; so applying
      it to its own output changes nothing. */
  lemma {:induction false} AsListStrOfStrings(ss: seq<string>)
    ensures AsListStr(StrList(ss)) == StrippedNonBlank(ss)
    decreases |ss|
  {
    if ss != [] {
      var init := ss[..|ss| - 1];
      assert StrList(ss).items[..|ss| - 1] == StrList(init).items;
      AsListStrOfStrings(init);
    }
  }

  lemma {:induction false} StrippedNonBlankFixed(ss: seq<string>)
    requires forall i :: 0 <= i < |ss| ==> ss[i] != "" && Stripped(ss[i])
    ensures StrippedNonBlank(ss) == ss
    decreases |ss|
  {
    if ss != [] {
      StrippedNonBlankFixed(ss[..|ss| - 1]);
      StrippedIsFixed(ss[|ss| - 1], Whitespace);
    }
  }

  lemma AsListStrIdempotent(ss: seq<string>)
    ensures AsListStr(StrList(AsListStr(StrList(ss)))) == AsListStr(StrList(ss))
  {
    AsListStrOfStrings(ss);
    AsListStrOfStrings(StrippedNonBlank(ss));
    StrippedNonBlankFixed(StrippedNonBlank(ss));
  }

  datatype ImagePrompt = ImagePrompt(purpose: string, prompt: string)

  function ImagePromptJson(p: ImagePrompt): Json {
    JObj([("purpose", JStr(p.purpose)), ("prompt", JStr(p.prompt))])
  }

  const Illustration: string := "illustration"

  /** Every purpose and prompt has no surrounding whitespace. */
  ghost predicate PromptsStripped(ps: seq<ImagePrompt>) {
    forall i :: 0 <= i < |ps| ==> Stripped(ps[i].purpose) && Stripped(ps[i].prompt)
  }

  lemma IllustrationStripped()
    ensures Stripped(Illustration)
  {
    assert Illustration[0] == 'i' && Illustration[|Illustration| - 1] == 'n';
  }

  /** A string prompt: kept, with the default purpose, when it is not blank. */
  function StrPrompt(s: string): (r: seq<ImagePrompt>)
    ensures r == (if Strip(s) != "" then [ImagePrompt(Illustration, Strip(s))] else [])
    ensures PromptsStripped(r)
  {
    IllustrationStripped();
    StripCharsProps(s, Whitespace);
    if Strip(s) != "" then [ImagePrompt(Illustration, Strip(s))] else []
  }

  /** A single dict in place of the list. */
  function DictPrompt(fs: Fields): (r: seq<ImagePrompt>)
    ensures |r| <= 1 && PromptsStripped(r)
  {
    IllustrationStripped();
    StripCharsProps(PyStr(SinglePrompt(fs)), Whitespace);
    if Truthy(SinglePrompt(fs)) then [ImagePrompt(Illustration, Strip(PyStr(SinglePrompt(fs))))] else []
  }

  /** What one list item contributes to `_normalize_image_prompts`. */
  function ImagePromptItem(it: Json): (r: seq<ImagePrompt>)
    ensures |r| <= 1
    ensures it.JStr? ==> r == (if Strip(it.s) != "" then [ImagePrompt(Illustration, Strip(it.s))] else [])
    ensures !(it.JStr? || it.JObj?) ==> r == []
    ensures PromptsStripped(r)
  {
    match it
    case JStr(s) => StrPrompt(s)
    case JObj(fs) => DictItemPrompt(fs)
    case _ => []
  }

  /** A dict item: kept, with its stripped purpose and prompt, when it has a prompt. */
  function DictItemPrompt(fs: Fields): (r: seq<ImagePrompt>)
    ensures |r| <= 1 && PromptsStripped(r)
  {
    if Truthy(ItemPrompt(fs)) then [StrippedPrompt(PyStr(ItemPurpose(fs)), PyStr(ItemPrompt(fs)))] else []
  }

  /** `{"purpose": str(purpose).strip(), "prompt": str(prompt).strip()}` */
  function StrippedPrompt(purpose: string, prompt: string): (r: ImagePrompt)
    ensures Stripped(r.purpose) && Stripped(r.prompt)
  {
    StripCharsProps(purpose, Whitespace);
    StripCharsProps(prompt, Whitespace);
    ImagePrompt(Strip(purpose), Strip(prompt))
  }

  /** `it.get("prompt") or it.get("image") or it.get("text") or it.get("caption")` */
  function ItemPrompt(fs: Fields): Json {
    OrChain([Lookup(fs, "prompt"), Lookup(fs, "image"), Lookup(fs, "text"), Lookup(fs, "caption")])
  }

  /** `it.get("purpose") or it.get("role") or "illustration"` */
  function ItemPurpose(fs: Fields): Json {
    OrChain([Lookup(fs, "purpose"), Lookup(fs, "role"), JStr(Illustration)])
  }

  lemma GatherPromptsStep(items: seq<Json>, i: nat)
    requires i < |items|
    ensures GatherPrompts(items[..i + 1]) == GatherPrompts(items[..i]) + ImagePromptItem(items[i])
  {
    assert items[..i + 1][..i] == items[..i];
  }

  function GatherPrompts(items: seq<Json>): (r: seq<ImagePrompt>)
    ensures |r| <= |items|
    ensures PromptsStripped(r)
  {
    if items == [] then [] else GatherPrompts(items[..|items| - 1]) + ImagePromptItem(items[|items| - 1])
  }

  /** `_normalize_image_prompts`: purpose/prompt pairs from a string, a list of strings and dicts,
      or a single dict. */
  function NormalizeImagePrompts(x: Json): (r: seq<ImagePrompt>)
    ensures x.JArr? ==> |r| <= |x.items|
    ensures x.JStr? ==> r == (if Strip(x.s) != "" then [ImagePrompt(Illustration, Strip(x.s))] else [])
    ensures !(x.JStr? || x.JArr? || x.JObj?) ==> r == []
    ensures PromptsStripped(r)
  {
    match x
    case JStr(s) => StrPrompt(s)
    case JArr(items) => GatherPrompts(items)
    case JObj(fs) => DictPrompt(fs)
    case _ => []
  }

  /** `x.get("prompt") or x.get("caption") or x.get("text")` for a single dict */
  function SinglePrompt(fs: Fields): Json {
    OrChain([Lookup(fs, "prompt"), Lookup(fs, "caption"), Lookup(fs, "text")])
  }

  /** `_normalize_image_prompts` with its append loop as in the source. */
  method NormalizeImagePromptsLoop(x: Json) returns (out: seq<ImagePrompt>)
    ensures out == NormalizeImagePrompts(x)
  {
    out := [];
    if x.JNull? {
      return;
    }
    if x.JStr? {
      var s := Strip(x.s);
      if s != "" {
        out := out + [ImagePrompt(Illustration, s)];
      }
      return;
    }
    if x.JArr? {
      var items := x.items;
      var i := 0;
      while i < |items|
        invariant 0 <= i <= |items|
        invariant out == GatherPrompts(items[..i])
      {
        out := AppendImagePrompt(out, items[i]);
        GatherPromptsStep(items, i);
        i := i + 1;
      }
      assert items[..i] == items;
    } else if x.JObj? {
      var prompt := SinglePrompt(x.fields);
      if Truthy(prompt) {
        out := out + [ImagePrompt(Illustration, Strip(PyStr(prompt)))];
      }
    }
  }

  /** One pass of the loop in `_normalize_image_prompts`: a string item, or a dict item with a prompt,
      appends one entry; anything else is skipped. */
  method AppendImagePrompt(out0: seq<ImagePrompt>, it: Json) returns (out: seq<ImagePrompt>)
    ensures out == out0 + ImagePromptItem(it)
  {
    out := out0;
    if it.JStr? {
      var s := Strip(it.s);
      if s != "" {
        out := out + [ImagePrompt(Illustration, s)];
      }
    } else if it.JObj? {
      var prompt := ItemPrompt(it.fields);
      var purpose := ItemPurpose(it.fields);
      DictItem(it.fields);
      if Truthy(prompt) {
        out := out + [ImagePrompt(Strip(PyStr(purpose)), Strip(PyStr(prompt)))];
      }
    }
  }

  /** A dict item without any of `prompt`, `image`, `text` or `caption` set is dropped. */
  lemma ImagePromptDropped(fs: Fields)
    ensures ImagePromptItem(JObj(fs)) == [] <==>
      !(Truthy(Lookup(fs, "prompt")) || Truthy(Lookup(fs, "image")) || Truthy(Lookup(fs, "text")) || Truthy(Lookup(fs, "caption")))
  {
    var ps := [Lookup(fs, "prompt"), Lookup(fs, "image"), Lookup(fs, "text"), Lookup(fs, "caption")];
    assert ps[0] == Lookup(fs, "prompt") && ps[1] == Lookup(fs, "image");
    assert ps[2] == Lookup(fs, "text") && ps[3] == Lookup(fs, "caption");
    assert ItemPrompt(fs) == OrChain(ps);
    DictItem(fs);
  }

  /** A dict item with a prompt but without `purpose` or `role` is an illustration. */
  lemma ImagePromptDefaultPurpose(fs: Fields)
    requires Truthy(ItemPrompt(fs))
    requires !Truthy(Lookup(fs, "purpose")) && !Truthy(Lookup(fs, "role"))
    ensures ImagePromptItem(JObj(fs)) == [ImagePrompt(Illustration, Strip(PyStr(ItemPrompt(fs))))]
  {
    OrChainFallback(Lookup(fs, "purpose"), Lookup(fs, "role"), JStr(Illustration));
    assert ItemPurpose(fs) == JStr(Illustration);
    IllustrationStripped();
    StrippedIsFixed(Illustration, Whitespace);
    DictItem(fs);
  }

  lemma DictItem(fs: Fields)
    ensures ImagePromptItem(JObj(fs)) ==
      if Truthy(ItemPrompt(fs)) then [ImagePrompt(Strip(PyStr(ItemPurpose(fs))), Strip(PyStr(ItemPrompt(fs))))] else []
  {
  }

  lemma OrChainFallback(a: Json, b: Json, c: Json)
    requires !Truthy(a) && !Truthy(b)
    ensures OrChain([a, b, c]) == c
  {
    assert [a, b, c][1..] == [b, c];
    assert [b, c][1..] == [c];
  }

  /** A normalised chapter plan. */
  datatype Plan = Plan(number: int, title: string, objectives: seq<string>, keyIdeas: seq<string>,
                       imagePrompts: seq<ImagePrompt>)

  const PlanKeys: seq<string> := ["number", "title", "objectives", "key_ideas", "image_prompts"]

  function PromptsJson(ips: seq<ImagePrompt>): (js: seq<Json>)
    ensures |js| == |ips| && forall i :: 0 <= i < |ips| ==> js[i] == ImagePromptJson(ips[i])
  {
    seq(|ips|, i requires 0 <= i < |ips| => ImagePromptJson(ips[i]))
  }

  /** The plan as the dict `normalize_plan` builds, keys in insertion order. */
  function PlanJson(p: Plan): (j: Json)
    ensures j.JObj? && Keys(j.fields) == PlanKeys
  {
    var fs := [("number", JInt(p.number)), ("title", JStr(p.title)), ("objectives", StrList(p.objectives)),
               ("key_ideas", StrList(p.keyIdeas)),
               ("image_prompts", JArr(PromptsJson(p.imagePrompts)))];
    assert Keys(fs) == PlanKeys;
    JObj(fs)
  }

  /** `normalize_plan`: the number from the reply or the TOC entry (an `int()` failure on the entry's
      own number propagates), the first truthy title, and the three coerced lists. */
  function NormalizePlan(raw: Fields, ch: Fields): (r: Result<Plan>)
    ensures r.Ok? ==> Stripped(r.value.title) && PromptsStripped(r.value.imagePrompts)
    ensures r.Ok? && PyInt(GetDefault(raw, "number", GetDefault(ch, "number", JInt(0)))).Some? ==>
      r.value.number == PyInt(GetDefault(raw, "number", GetDefault(ch, "number", JInt(0)))).value
    ensures r.Err? <==> PyInt(GetDefault(raw, "number", GetDefault(ch, "number", JInt(0)))).None?
                         && PyInt(GetDefault(ch, "number", JInt(0))).None?
  {
    var first := PyInt(GetDefault(raw, "number", GetDefault(ch, "number", JInt(0))));
    var number :- if first.Some? then Ok(first.value)
                  else match PyInt(GetDefault(ch, "number", JInt(0)))
                       case Some(n) => Ok(n)
                       case None => Err(ValueError("int() of number"));
    var title := OrChain([Lookup(raw, "title"), Lookup(ch, "title"), JStr("Chapter " + IntToString(number))]);
    StripCharsProps(PyStr(title), Whitespace);
    Ok(Plan(number, Strip(PyStr(title)),
            AsListStr(OrChain([Lookup(raw, "objectives"), Lookup(raw, "goals"), Lookup(raw, "aims")])),
            AsListStr(OrChain([Lookup(raw, "key_ideas"), Lookup(raw, "key points"), Lookup(raw, "bullets")])),
            NormalizeImagePrompts(OrChain([Lookup(raw, "image_prompts"), Lookup(raw, "images")]))))
  }

  /** A plan reply without a usable title takes the TOC entry's, and without that "Chapter n". */
  lemma NormalizePlanTitle(raw: Fields, ch: Fields)
    requires NormalizePlan(raw, ch).Ok?
    ensures var p := NormalizePlan(raw, ch).value;
      && (Truthy(Lookup(raw, "title")) ==> p.title == Strip(PyStr(Lookup(raw, "title"))))
      && (!Truthy(Lookup(raw, "title")) && Truthy(Lookup(ch, "title")) ==> p.title == Strip(PyStr(Lookup(ch, "title"))))
      && (!Truthy(Lookup(raw, "title")) && !Truthy(Lookup(ch, "title")) ==> p.title == Strip("Chapter " + IntToString(p.number)))
  {
    var p := NormalizePlan(raw, ch).value;
    var ts := [Lookup(raw, "title"), Lookup(ch, "title"), JStr("Chapter " + IntToString(p.number))];
    assert OrChain(ts) == if Truthy(ts[0]) then ts[0] else OrChain(ts[1..]);
    assert OrChain(ts[1..]) == if Truthy(ts[1]) then ts[1] else OrChain(ts[2..]);
    assert ts[2..] == [JStr("Chapter " + IntToString(p.number))];
  }
}
