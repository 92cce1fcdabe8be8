/**
 * Structured-output extraction of the earlier version (appv1.py): a case-sensitive fence, an
 * unstripped brace span, the whole stripped reply as a last resort, and a call that retries with a
 * "nudge" prompt until the reply decodes or the attempts run out.
 */
module ExtractV1 {
  import opened Wrappers
  import opened PyStrings
  import opened JsonModel
  import opened Oracle
  import Extract

  /** `extract_json` of the earlier version: it never raises. */
  function ExtractJsonV1(text: string): (r: string)
    ensures Extract.FenceBody(text, false).Some? ==> r == Strip(Extract.FenceBody(text, false).value)
    ensures Extract.FenceBody(text, false).None? && Extract.HasPair(text, '{', '}') ==>
      r == Extract.Span(text, '{', '}').value
    ensures Extract.FenceBody(text, false).None? && !Extract.HasPair(text, '{', '}') ==> r == Strip(text)
  {
    match Extract.FenceBody(text, false)
    case Some(body) =>
      StripCharsIdempotent(body, Whitespace);
      Strip(Extract.FenceGroup(body))
    case None =>
      match Extract.Span(text, '{', '}')
      case Some(span) => span
      case None => Strip(text)
  }

  /** A reply that is a bare object with prose around it and no backtick: the span itself, with
      the surrounding prose dropped but nothing stripped inside it. */
  lemma ExtractV1Span(text: string, i: nat, j: nat)
    requires i < j < |text| && text[i] == '{' && text[j] == '}' && '`' !in text
    requires forall k :: 0 <= k < i ==> text[k] != '{'
    requires forall k :: j < k < |text| ==> text[k] != '}'
    ensures ExtractJsonV1(text) == text[i..j + 1]
  {
    Extract.NoFenceWithoutBacktick(text, false);
    Extract.SpanIs(text, '{', '}', i, j);
  }

  /** The first prompt: instructions, the schema hint and the user request in one message. */
  function FirstPrompt(system: string, schemaHint: string, user: string): string {
    "You are a precise JSON generator. " + system + "\n\n"
    + "Return ONLY valid JSON matching this schema (no commentary, no code fences).\n\nSchema hint:\n"
    + schemaHint + "\n\n" + "User request:\n" + user
  }

  /** The prompt of every attempt after a failed one. */
  function Nudge(user: string): string {
    "Return ONLY STRICT JSON. Do not include any text outside JSON.\n\n"
    + "User request (repeat):\n" + user + "\n\nFormat again per schema."
  }

  const FailMsg: string := "Failed to parse JSON from model after retries"

  /** `len(range(max_retries + 1))` */
  function AttemptCount(maxRetries: int): (n: nat)
    ensures n == if maxRetries < 0 then 0 else maxRetries + 1
  {
    if maxRetries + 1 > 0 then maxRetries + 1 else 0
  }

  /** What the retry loop makes of one reply: `json.loads(extract_json(raw))`, None when it raises. */
  function ReplyParser(loads: string -> Option<Json>): string -> Option<Json> {
    raw => loads(ExtractJsonV1(raw))
  }

  /** What `n` remaining attempts of the retry loop produce, starting from `prompt`, for a reply
      parser `parse`. */
  function JsonAttempts(llm: Llm<string>, parse: string -> Option<Json>, prompt: string, user: string, n: nat)
    : Result<(Json, Llm<string>)>
    decreases n
  {
    if n == 0 then Err(ValueError(FailMsg))
    else
      var (raw, l1) :- Invoke(llm, prompt);
      match parse(raw)
      case Some(v) => Ok((v, l1))
      case None => JsonAttempts(l1, parse, Nudge(user), user, n - 1)
  }

  /** `call_llm_json` of the earlier version. */
  function CallLlmJsonV1(llm: Llm<string>, loads: string -> Option<Json>, system: string, user: string,
                         schemaHint: string, maxRetries: int): Result<(Json, Llm<string>)>
  {
    JsonAttempts(llm, ReplyParser(loads), FirstPrompt(system, schemaHint, user), user, AttemptCount(maxRetries))
  }

  /** The retry loop as the source writes it. */
  method CallLlmJsonV1Loop(llm: Llm<string>, loads: string -> Option<Json>, system: string, user: string,
                           schemaHint: string, maxRetries: int) returns (r: Result<(Json, Llm<string>)>)
    ensures r == CallLlmJsonV1(llm, loads, system, user, schemaHint, maxRetries)
  {
    var prompt := FirstPrompt(system, schemaHint, user);
    var n := AttemptCount(maxRetries);
    var cur := llm;
    var k := 0;
    while k < n
      invariant 0 <= k <= n
      invariant JsonAttempts(cur, ReplyParser(loads), prompt, user, n - k) == CallLlmJsonV1(llm, loads, system, user, schemaHint, maxRetries)
    {
      var inv := Invoke(cur, prompt);
      if inv.Err? {
        return Err(inv.error);
      }
      var raw := inv.value.0;
      var parsed := loads(ExtractJsonV1(raw));
      if parsed.Some? {
        return Ok((parsed.value, inv.value.1));
      }
      cur := inv.value.1;
      prompt := Nudge(user);
      k := k + 1;
    }
    return Err(ValueError(FailMsg));
  }

  /** `[x] * k` */
  function Repeat<T>(x: T, k: nat): (r: seq<T>)
    ensures |r| == k && forall i :: 0 <= i < k ==> r[i] == x
  {
    if k == 0 then [] else [x] + Repeat(x, k - 1)
  }

  /** Reply `m` of the backend does not decode after extraction. */
  ghost predicate Fails(llm: Llm<string>, parse: string -> Option<Json>, m: nat) {
    m < |llm.replies| && parse(llm.replies[m]).None?
  }

  /** The attempt loop succeeds on its `k`-th request with `res`. */
  ghost predicate SucceedsAt(llm: Llm<string>, parse: string -> Option<Json>, prompt: string, user: string,
                             k: nat, res: (Json, Llm<string>)) {
    && k >= 1
    && Answered(llm, res.1, k)
    && parse(llm.replies[k - 1]) == Some(res.0)
    && (forall m :: 0 <= m < k - 1 ==> Fails(llm, parse, m))
    && res.1.sent == llm.sent + [prompt] + Repeat(Nudge(user), k - 1)
  }

  /** One turn of the attempt loop. */
  lemma JsonAttemptsStep(llm: Llm<string>, parse: string -> Option<Json>, prompt: string, user: string, n: nat)
    requires n > 0 && llm.replies != []
    ensures var l1 := Llm(llm.replies[1..], llm.sent + [prompt]);
      JsonAttempts(llm, parse, prompt, user, n) ==
        match parse(llm.replies[0])
        case Some(v) => Ok((v, l1))
        case None => JsonAttempts(l1, parse, Nudge(user), user, n - 1)
  {
  }

  /** One more failed request in front of a success. */
  lemma SucceedsLater(llm: Llm<string>, parse: string -> Option<Json>, prompt: string, user: string,
                      k': nat, res: (Json, Llm<string>))
    requires llm.replies != [] && Fails(llm, parse, 0)
    requires SucceedsAt(Llm(llm.replies[1..], llm.sent + [prompt]), parse, Nudge(user), user, k', res)
    ensures SucceedsAt(llm, parse, prompt, user, k' + 1, res)
  {
    var l1 := Llm(llm.replies[1..], llm.sent + [prompt]);
    var k := k' + 1;
    assert llm.replies[k..] == l1.replies[k'..];
    assert res.1.sent[..|llm.sent|] == llm.sent;
    assert Answered(llm, res.1, k);
    assert llm.replies[k - 1] == l1.replies[k' - 1];
    forall m | 0 <= m < k - 1 ensures Fails(llm, parse, m) {
      if m > 0 {
        assert Fails(l1, parse, m - 1);
        assert llm.replies[m] == l1.replies[m - 1];
      }
    }
    assert Repeat(Nudge(user), k - 1) == [Nudge(user)] + Repeat(Nudge(user), k' - 1);
  }

  /** A success is the first reply that decodes, after k - 1 failures, and the prompts sent were the
      first prompt once and then the nudge. */
  lemma {:induction false} JsonAttemptsOk(llm: Llm<string>, parse: string -> Option<Json>, prompt: string, user: string, n: nat)
    ensures var r := JsonAttempts(llm, parse, prompt, user, n);
      r.Ok? ==> exists k: nat :: k <= n && SucceedsAt(llm, parse, prompt, user, k, r.value)
    decreases n
  {
    var r := JsonAttempts(llm, parse, prompt, user, n);
    if n > 0 && r.Ok? {
      JsonAttemptsStep(llm, parse, prompt, user, n);
      var l1 := Llm(llm.replies[1..], llm.sent + [prompt]);
      if parse(llm.replies[0]).Some? {
        assert l1.sent[..|llm.sent|] == llm.sent;
        assert SucceedsAt(llm, parse, prompt, user, 1, r.value);
      } else {
        JsonAttemptsOk(l1, parse, Nudge(user), user, n - 1);
        var k': nat :| k' <= n - 1 && SucceedsAt(l1, parse, Nudge(user), user, k', r.value);
        SucceedsLater(llm, parse, prompt, user, k', r.value);
      }
    }
  }

  /** A failure is either the backend running dry before any reply decoded, or exactly `n` replies
      none of which decoded. */
  lemma {:induction false} JsonAttemptsErr(llm: Llm<string>, parse: string -> Option<Json>, prompt: string, user: string, n: nat)
    ensures var r := JsonAttempts(llm, parse, prompt, user, n);
      r.Err? <==> forall m :: 0 <= m < n && m < |llm.replies| ==> Fails(llm, parse, m)
    ensures var r := JsonAttempts(llm, parse, prompt, user, n);
      r.Err? ==> r.error == (if |llm.replies| < n then BackendError else ValueError(FailMsg))
    decreases n
  {
    if n > 0 && llm.replies != [] {
      JsonAttemptsStep(llm, parse, prompt, user, n);
      var l1 := Llm(llm.replies[1..], llm.sent + [prompt]);
      JsonAttemptsErr(l1, parse, Nudge(user), user, n - 1);
      if parse(llm.replies[0]).None? {
        forall m | 0 < m < |llm.replies| ensures Fails(llm, parse, m) <==> Fails(l1, parse, m - 1) {
          assert l1.replies[m - 1] == llm.replies[m];
        }
        assert Fails(llm, parse, 0);
        if forall m :: 0 <= m < n - 1 && m < |l1.replies| ==> Fails(l1, parse, m) {
          forall m | 0 <= m < n && m < |llm.replies| ensures Fails(llm, parse, m) {
            if m > 0 { assert Fails(l1, parse, m - 1); }
          }
        } else {
          var m' :| 0 <= m' < n - 1 && m' < |l1.replies| && !Fails(l1, parse, m');
          assert !Fails(llm, parse, m' + 1);
        }
      } else {
        assert !Fails(llm, parse, 0);
      }
    }
  }
}
