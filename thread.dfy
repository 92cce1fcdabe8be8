/**
 * A loop that runs one step per element, each step getting the state the previous one left
 * (the oracle a request was sent to), and stops at the first element that raises:
 * `for x in xs: d, s = one(x, s); out.append(d)`.
 */
module Threaded {
  import opened Wrappers
  import opened Oracle

  function Each<T, D, S>(one: (T, S) -> Result<(D, S)>, xs: seq<T>, s: S): Result<(seq<D>, S)>
    decreases |xs|
  {
    if xs == [] then Ok(([], s))
    else
      var (d, s1) :- one(xs[0], s);
      var (ds, s2) :- Each(one, xs[1..], s1);
      Ok(([d] + ds, s2))
  }

  /** `Ok` with `ds` put in front of the outputs, or the error. */
  function Prepend<D, S>(ds: seq<D>, r: Result<(seq<D>, S)>): Result<(seq<D>, S)> {
    match r
    case Ok(v) => Ok((ds + v.0, v.1))
    case Err(e) => Err(e)
  }

  lemma EachStep<T, D, S>(one: (T, S) -> Result<(D, S)>, xs: seq<T>, i: nat, cur: S, ds: seq<D>)
    requires i < |xs|
    ensures Prepend(ds, Each(one, xs[i..], cur)) ==
      if one(xs[i], cur).Err? then Err(one(xs[i], cur).error)
      else Prepend(ds + [one(xs[i], cur).value.0], Each(one, xs[i + 1..], one(xs[i], cur).value.1))
  {
    assert xs[i..][1..] == xs[i + 1..];
    var o := one(xs[i], cur);
    if o.Ok? {
      var rest := Each(one, xs[i + 1..], o.value.1);
      if rest.Ok? {
        assert ds + ([o.value.0] + rest.value.0) == (ds + [o.value.0]) + rest.value.0;
      }
    }
  }

  /** The loop, one element at a time. */
  method EachLoop<T, D, S>(one: (T, S) -> Result<(D, S)>, xs: seq<T>, s: S) returns (r: Result<(seq<D>, S)>)
    ensures r == Each(one, xs, s)
  {
    var out: seq<D> := [];
    var cur := s;
    var i := 0;
    assert xs[0..] == xs;
    var all := Each(one, xs, s);
    assert all.Ok? ==> [] + all.value.0 == all.value.0;
    while i < |xs|
      invariant 0 <= i <= |xs|
      invariant Prepend(out, Each(one, xs[i..], cur)) == Each(one, xs, s)
    {
      EachStep(one, xs, i, cur, out);
      var o := one(xs[i], cur);
      if o.Err? {
        return Err(o.error);
      }
      out := out + [o.value.0];
      cur := o.value.1;
      i := i + 1;
    }
    assert xs[i..] == [];
    assert out + [] == out;
    r := Ok((out, cur));
  }

  /** A walk that completes gives one output per element. */
  lemma {:induction false} EachLength<T, D, S>(one: (T, S) -> Result<(D, S)>, xs: seq<T>, s: S)
    ensures Each(one, xs, s).Ok? ==> |Each(one, xs, s).value.0| == |xs|
    decreases |xs|
  {
    if xs != [] && one(xs[0], s).Ok? {
      EachLength(one, xs[1..], one(xs[0], s).value.1);
    }
  }

  /** When every step that completes answers exactly one request and gives an output that is
      `good` for its element and its reply, output `i` is good for element `i` and reply `i`, and
      the walk answers one request per element. */
  lemma {:induction false} EachAnswers<T, D, Q>(one: (T, Llm<Q>) -> Result<(D, Llm<Q>)>, good: (T, string, D) -> bool,
                                                    xs: seq<T>, llm: Llm<Q>)
    requires forall x, l :: one(x, l).Ok? ==>
      l.replies != [] && Answered(l, one(x, l).value.1, 1) && good(x, l.replies[0], one(x, l).value.0)
    ensures var r := Each(one, xs, llm);
      r.Ok? ==>
        && |r.value.0| == |xs| && Answered(llm, r.value.1, |xs|)
        && forall i :: 0 <= i < |xs| ==> i < |llm.replies| && good(xs[i], llm.replies[i], r.value.0[i])
    decreases |xs|
  {
    var r := Each(one, xs, llm);
    if r.Ok? {
      if xs == [] {
        AnsweredNone(llm);
      } else {
        var (d, l1) := one(xs[0], llm).value;
        var (ds, l2) := Each(one, xs[1..], l1).value;
        assert r.value == ([d] + ds, l2);
        EachAnswers(one, good, xs[1..], l1);
        AnsweredTrans(llm, l1, l2, 1, |xs| - 1);
        forall i | 0 < i < |xs| ensures i < |llm.replies| && good(xs[i], llm.replies[i], r.value.0[i]) {
          assert r.value.0[i] == ds[i - 1] && xs[i] == xs[1..][i - 1];
          assert llm.replies[i] == l1.replies[i - 1];
        }
      }
    }
  }

  /** When every step that completes gives an output that is `good` for its element and answers
      one request or two, every output is good for its element and the walk answers between one
      and two requests per element. */
  lemma {:induction false} EachAsks<T, D, Q>(one: (T, Llm<Q>) -> Result<(D, Llm<Q>)>, good: (T, D) -> bool,
                                             xs: seq<T>, llm: Llm<Q>)
    requires forall x, l :: one(x, l).Ok? ==>
      good(x, one(x, l).value.0) && (Answered(l, one(x, l).value.1, 1) || Answered(l, one(x, l).value.1, 2))
    ensures var r := Each(one, xs, llm);
      r.Ok? ==>
        && |r.value.0| == |xs|
        && (forall i :: 0 <= i < |xs| ==> good(xs[i], r.value.0[i]))
        && exists k :: |xs| <= k <= 2 * |xs| && Answered(llm, r.value.1, k)
    decreases |xs|
  {
    var r := Each(one, xs, llm);
    if r.Ok? {
      if xs == [] {
        AnsweredNone(llm);
      } else {
        var (d, l1) := one(xs[0], llm).value;
        var (ds, l2) := Each(one, xs[1..], l1).value;
        assert r.value == ([d] + ds, l2);
        EachAsks(one, good, xs[1..], l1);
        var k1: nat :| (k1 == 1 || k1 == 2) && Answered(llm, l1, k1);
        var k2: nat :| |xs[1..]| <= k2 <= 2 * |xs[1..]| && Answered(l1, l2, k2);
        AnsweredTrans(llm, l1, l2, k1, k2);
        assert |xs| <= k1 + k2 <= 2 * |xs|;
        forall i | 0 < i < |xs| ensures good(xs[i], r.value.0[i]) {
          assert r.value.0[i] == ds[i - 1] && xs[i] == xs[1..][i - 1];
        }
      }
    }
  }
}
