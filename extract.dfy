/**
 * Structured-output extraction of the current version (app.py): pulling a JSON candidate out of a
 * chatty model reply, decoding the first JSON value in it, and the lenient call that asks the model
 * once to repair a reply that does not decode.
 */
module Extract {
  import opened Wrappers
  import opened PyStrings
  import opened JsonModel
  import opened Oracle

  /** One chat request of the current version: a system message and a user message. */
  datatype Request = Request(system: string, user: string)

  const FenceOpen: string := "```json"
  const FenceClose: string := "```"

  /** The text between the first "```json" and the first "```" after it; with `ci` the opener's
      letters match in any case. */
  function FenceBody(text: string, ci: bool): (r: Option<string>)
    ensures r.Some? <==> exists p: nat :: MatchesAt(text, FenceOpen, p, ci) && FindFrom(text, FenceClose, p + 7, false).Some?
  {
    match FindFrom(text, FenceOpen, 0, ci)
    case None => None
    case Some(p) =>
      match FindFrom(text, FenceClose, p + 7, false)
      case None =>
        assert forall p': nat :: MatchesAt(text, FenceOpen, p', ci) ==> FindFrom(text, FenceClose, p' + 7, false).None? by {
          forall p': nat | MatchesAt(text, FenceOpen, p', ci)
            ensures FindFrom(text, FenceClose, p' + 7, false).None?
          {
            assert p <= p';
          }
        }
        None
      case Some(c) => Some(text[p + 7..c])
  }

  /** The group `(.*?)` of the fence pattern: the lazy group between the two greedy `\s*` runs is the
      body without leading and trailing whitespace. */
  function FenceGroup(body: string): string {
    Strip(body)
  }

  /** Some `open` character stands before some `close` character. */
  ghost predicate HasPair(text: string, open: char, close: char) {
    exists i, j :: 0 <= i < j < |text| && text[i] == open && text[j] == close
  }

  /** When some `open` precedes some `close`, the first `open` precedes the last `close`. */
  lemma PairFound(text: string, open: char, close: char)
    ensures HasPair(text, open, close) ==>
      && FindChar(text, open).Some? && RFindChar(text, close).Some?
      && FindChar(text, open).value < RFindChar(text, close).value
  {
    if HasPair(text, open, close) {
      var a, b :| 0 <= a < b < |text| && text[a] == open && text[b] == close;
    }
  }

  /** `text[text.find(open) : text.rfind(close) + 1]` when both exist in that order. */
  function Span(text: string, open: char, close: char): (r: Option<string>)
    ensures r.Some? <==> HasPair(text, open, close)
    ensures r.Some? ==> |r.value| >= 2 && r.value[0] == open && r.value[|r.value| - 1] == close
  {
    PairFound(text, open, close);
    var i := FindChar(text, open);
    var j := RFindChar(text, close);
    if i.Some? && j.Some? && j.value > i.value then Some(text[i.value..j.value + 1])
    else None
  }

  /** `extract_json`: the stripped body of the first ```json fence; else the first-`{`-to-last-`}`
      span; else the first-`[`-to-last-`]` span; else ValueError. */
  function ExtractJson(text: string): (r: Result<string>)
    ensures r.Err? <==> FenceBody(text, true).None? && !HasPair(text, '{', '}') && !HasPair(text, '[', ']')
    ensures FenceBody(text, true).Some? ==> r == Ok(Strip(FenceBody(text, true).value))
    ensures FenceBody(text, true).None? && HasPair(text, '{', '}') ==> r == Ok(Strip(Span(text, '{', '}').value))
    ensures FenceBody(text, true).None? && !HasPair(text, '{', '}') && HasPair(text, '[', ']') ==>
      r == Ok(Strip(Span(text, '[', ']').value))
  {
    match FenceBody(text, true)
    case Some(body) =>
      StripCharsIdempotent(body, Whitespace);
      Ok(Strip(FenceGroup(body)))
    case None =>
      var braces := Span(text, '{', '}');
      if braces.Some? then Ok(Strip(braces.value))
      else
        var brackets := Span(text, '[', ']');
        if brackets.Some? then Ok(Strip(brackets.value))
        else Err(ValueError("No JSON found in model output"))
  }

  /** No occurrence of the fence opener can start at a position whose character is not a backtick. */
  lemma NoOpenerWithoutBacktick(text: string, k: nat, ci: bool)
    requires k < |text| && text[k] != '`'
    ensures !MatchesAt(text, FenceOpen, k, ci)
  {
    assert FenceOpen[0] == '`';
    assert Lower('`') == '`';
  }

  /** A text without backticks holds no fence. */
  lemma NoFenceWithoutBacktick(text: string, ci: bool)
    requires '`' !in text
    ensures FenceBody(text, ci).None?
  {
    forall k | 0 <= k < |text| ensures !MatchesAt(text, FenceOpen, k, ci) {
      NoOpenerWithoutBacktick(text, k, ci);
    }
  }

  /** The first opener follows a prefix without backticks. */
  lemma OpenerAt(text: string, p: nat)
    requires p + 7 <= |text| && text[p..p + 7] == FenceOpen && '`' !in text[..p]
    ensures FindFrom(text, FenceOpen, 0, true) == Some(p)
  {
    forall k | 0 <= k < p ensures !MatchesAt(text, FenceOpen, k, true) {
      assert text[k] == text[..p][k];
      NoOpenerWithoutBacktick(text, k, true);
    }
    MatchesLiteral(text, FenceOpen, p, true);
    FindFromIs(text, FenceOpen, 0, p, true);
  }

  /** The first closer at or after `q` ends a backtick-free stretch. */
  lemma CloserAt(text: string, q: nat, c: nat)
    requires q <= c && c + 3 <= |text| && '`' !in text[q..c] && text[c..c + 3] == FenceClose
    ensures FindFrom(text, FenceClose, q, false) == Some(c)
  {
    forall k | q <= k < c ensures !MatchesAt(text, FenceClose, k, false) {
      assert text[k] == text[q..c][k - q];
      assert FenceClose[0] == '`';
    }
    MatchesLiteral(text, FenceClose, c, false);
    FindFromIs(text, FenceClose, q, c, false);
  }

  /** A reply holding one fenced block and no other backtick before or inside it: the block's body,
      stripped, and nothing of the surrounding prose. */
  lemma ExtractSingleFence(text: string, p: nat, c: nat)
    requires p + 7 <= c && c + 3 <= |text|
    requires text[p..p + 7] == FenceOpen && text[c..c + 3] == FenceClose
    requires '`' !in text[..p] && '`' !in text[p + 7..c]
    ensures ExtractJson(text) == Ok(Strip(text[p + 7..c]))
  {
    OpenerAt(text, p);
    CloserAt(text, p + 7, c);
    FenceBodyAt(text, p, c);
  }

  /** The fence body once the opener and the closer after it are found. */
  lemma FenceBodyAt(text: string, p: nat, c: nat)
    requires FindFrom(text, FenceOpen, 0, true) == Some(p)
    requires FindFrom(text, FenceClose, p + 7, false) == Some(c)
    ensures FenceBody(text, true) == Some(text[p + 7..c])
  {
  }

  /** `Span` of a first `open` at `i` and a last `close` at `j > i`. */
  lemma SpanIs(text: string, open: char, close: char, i: nat, j: nat)
    requires i < j < |text| && text[i] == open && text[j] == close
    requires forall k :: 0 <= k < i ==> text[k] != open
    requires forall k :: j < k < |text| ==> text[k] != close
    ensures Span(text, open, close) == Some(text[i..j + 1])
  {
    FindCharIs(text, open, i);
    RFindCharIs(text, close, j);
  }

  /** A JSON object with prose before and after it: the span from the first `{` to the last `}` is
      returned and the trailing text dropped, so "Extra data" never reaches the decoder. */
  lemma ExtractDropsTrailingText(text: string, i: nat, j: nat)
    requires i < j < |text| && text[i] == '{' && text[j] == '}' && '`' !in text
    requires forall k :: 0 <= k < i ==> text[k] != '{'
    requires forall k :: j < k < |text| ==> text[k] != '}'
    ensures ExtractJson(text) == Ok(text[i..j + 1])
  {
    NoFenceWithoutBacktick(text, true);
    SpanIs(text, '{', '}', i, j);
    StrippedIsFixed(text[i..j + 1], Whitespace);
  }

  /** A bare array of objects yields the span from its first `{` to its last `}`, not the array. */
  lemma ExtractBareArrayOfObjects(inner: string)
    requires |inner| >= 2 && inner[0] == '{' && inner[|inner| - 1] == '}' && '`' !in inner
    ensures ExtractJson("[" + inner + "]") == Ok(inner)
  {
    var text := "[" + inner + "]";
    assert '`' !in text;
    assert text[1..|inner| + 1] == inner;
    ExtractDropsTrailingText(text, 1, |inner|);
  }

  /** The index of the first `{` or `[`. */
  function FirstOpen(s: string): (r: Option<nat>)
    ensures r.Some? ==> r.value < |s| && s[r.value] in {'{', '['}
    ensures r.Some? ==> forall k :: 0 <= k < r.value ==> s[k] !in {'{', '['}
    ensures r.None? ==> forall k :: 0 <= k < |s| ==> s[k] !in {'{', '['}
  {
    if s == [] then None
    else if s[0] in {'{', '['} then Some(0)
    else
      var r := FirstOpen(s[1..]);
      if r.Some? then Some(r.value + 1) else None
  }

  /** The noise-skipping loop of `parse_first_json`. */
  method SkipNoise(s: string) returns (i: nat)
    ensures i <= |s|
    ensures i < |s| <==> FirstOpen(s).Some?
    ensures i < |s| ==> i == FirstOpen(s).value
  {
    i := 0;
    while i < |s| && s[i] !in {'{', '['}
      invariant i <= |s|
      invariant forall k :: 0 <= k < i ==> s[k] !in {'{', '['}
    {
      i := i + 1;
    }
  }

  /** `parse_first_json`: decode the first JSON value starting at the first `{` or `[`, ignoring any
      text after it; raises when there is no such character or the decoder fails. */
  function ParseFirstJson(s: string, dec: Decoder): (r: Result<(Json, nat)>)
    ensures FirstOpen(s).None? ==> r.Err?
    ensures r.Ok? <==> FirstOpen(s).Some? && dec.rawDecode(s, FirstOpen(s).value).Some?
    ensures r.Ok? ==> FirstOpen(s).Some? && dec.rawDecode(s, FirstOpen(s).value) == Some(r.value)
  {
    match FirstOpen(s)
    case None => Err(JsonDecodeError("No JSON start"))
    case Some(i) =>
      match dec.rawDecode(s, i)
      case None => Err(JsonDecodeError("raw_decode"))
      case Some(v) => Ok(v)
  }

  const ConvertSystem: string :=
    "You are a JSON converter. Convert the user's content to STRICT JSON ONLY. No prose, no code fences."

  /** The text handed to the decoder: the extracted candidate, or the whole reply when extraction raised. */
  function Candidate(raw: string): string {
    match ExtractJson(raw)
    case Ok(c) => c
    case Err(_) => raw
  }

  /** `call_llm_json_lenient`: one request, one extract/parse; on failure one repair request that
      carries the original reply, and one more extract/parse whose failure propagates. */
  function CallLlmJsonLenient(llm: Llm<Request>, dec: Decoder, system: string, user: string): Result<(Json, Llm<Request>)> {
    var (raw, l1) :- Invoke(llm, Request(system, user));
    match ParseFirstJson(Candidate(raw), dec)
    case Ok(v) => Ok((v.0, l1))
    case Err(_) =>
      var (repaired, l2) :- Invoke(l1, Request(ConvertSystem, raw));
      var v :- ParseFirstJson(Candidate(repaired), dec);
      Ok((v.0, l2))
  }

  /** At most one repair request is made, it carries the original reply (not the extracted
      candidate), and it is made only when the first reply does not decode. */
  lemma LenientAtMostOneRepair(llm: Llm<Request>, dec: Decoder, system: string, user: string)
    ensures var r := CallLlmJsonLenient(llm, dec, system, user);
      r.Ok? ==>
        var after := r.value.1;
        var n := |llm.sent|;
        && (Answered(llm, after, 1) || Answered(llm, after, 2))
        && after.sent[n] == Request(system, user)
        && (Answered(llm, after, 1) <==> ParseFirstJson(Candidate(llm.replies[0]), dec).Ok?)
        && (Answered(llm, after, 2) ==> after.sent[n + 1] == Request(ConvertSystem, llm.replies[0]))
  {
    var r := CallLlmJsonLenient(llm, dec, system, user);
    if r.Ok? && llm.replies != [] {
      var raw := llm.replies[0];
      var l1 := Llm(llm.replies[1..], llm.sent + [Request(system, user)]);
      assert l1.sent[..|llm.sent|] == llm.sent;
      if ParseFirstJson(Candidate(raw), dec).Err? {
        var l2 := Llm(l1.replies[1..], l1.sent + [Request(ConvertSystem, raw)]);
        assert r.value.1 == l2;
        assert l2.sent[..|llm.sent|] == llm.sent;
        assert llm.replies[2..] == l1.replies[1..];
      }
    }
  }

  /** The call succeeds exactly when a reply is left and its candidate decodes, or a second reply is
      left and the repaired candidate decodes; the value returned is the first JSON value of the
      first reply's candidate when that decodes, else that of the repaired reply's candidate. */
  lemma LenientResult(llm: Llm<Request>, dec: Decoder, system: string, user: string)
    ensures CallLlmJsonLenient(llm, dec, system, user).Ok? <==>
      && llm.replies != []
      && (|| ParseFirstJson(Candidate(llm.replies[0]), dec).Ok?
          || (|llm.replies| >= 2 && ParseFirstJson(Candidate(llm.replies[1]), dec).Ok?))
    ensures var r := CallLlmJsonLenient(llm, dec, system, user);
      r.Ok? ==>
        var first := ParseFirstJson(Candidate(llm.replies[0]), dec);
        if first.Ok? then r.value.0 == first.value.0
        else
          && |llm.replies| >= 2
          && ParseFirstJson(Candidate(llm.replies[1]), dec).Ok?
          && r.value.0 == ParseFirstJson(Candidate(llm.replies[1]), dec).value.0
  {
  }
}
