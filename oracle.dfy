/**
 * The model backends, reduced to an oracle: a model call sends a request and receives the next
 * reply of a fixed sequence. The value records every request sent, so that properties can speak
 * about how often, and with what, the backend was called.
 */
module Oracle {
  import opened Wrappers

  datatype Llm<Q> = Llm(replies: seq<string>, sent: seq<Q>)

  /** `llm.invoke(q)`: the next reply; BackendError when the backend has none left. */
  function Invoke<Q>(llm: Llm<Q>, q: Q): (r: Result<(string, Llm<Q>)>)
    ensures r.Ok? <==> llm.replies != []
    ensures r.Ok? ==> r.value.0 == llm.replies[0]
    ensures r.Ok? ==> r.value.1 == Llm(llm.replies[1..], llm.sent + [q])
    ensures r.Err? ==> r.error == BackendError
  {
    if llm.replies == [] then Err(BackendError)
    else Ok((llm.replies[0], Llm(llm.replies[1..], llm.sent + [q])))
  }

  /** `after` is `before` having answered exactly `k` more requests. */
  predicate Answered<Q(==)>(before: Llm<Q>, after: Llm<Q>, k: nat) {
    && k <= |before.replies|
    && after.replies == before.replies[k..]
    && |after.sent| == |before.sent| + k
    && after.sent[..|before.sent|] == before.sent
  }

  /** Answering `k1` and then `k2` requests is answering `k1 + k2`. */
  lemma AnsweredTrans<Q>(a: Llm<Q>, b: Llm<Q>, c: Llm<Q>, k1: nat, k2: nat)
    requires Answered(a, b, k1) && Answered(b, c, k2)
    ensures Answered(a, c, k1 + k2)
  {
    assert a.replies[k1..][k2..] == a.replies[k1 + k2..];
    assert c.sent[..|b.sent|][..|a.sent|] == c.sent[..|a.sent|];
  }

  lemma AnsweredNone<Q>(a: Llm<Q>)
    ensures Answered(a, a, 0)
  {
    assert a.replies[0..] == a.replies && a.sent[..|a.sent|] == a.sent;
  }
}
