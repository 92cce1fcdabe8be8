/**
 * A loop that walks a list and appends what each element gives to an accumulated list, stopping
 * at the first element that raises: `for x in xs: acc.extend(step(x))`.
 */
module Collect {
  import opened Wrappers

  function CollectFrom<T, U>(xs: seq<T>, step: T -> Result<seq<U>>, acc: seq<U>): (r: Result<seq<U>>)
    ensures r.Ok? ==> |acc| <= |r.value| && r.value[..|acc|] == acc
    decreases |xs|
  {
    if xs == [] then Ok(acc)
    else
      match step(xs[0])
      case Err(e) => Err(e)
      case Ok(p) =>
        var r := CollectFrom(xs[1..], step, acc + p);
        if r.Ok? then assert r.value[..|acc|] == r.value[..|acc + p|][..|acc|]; r else r
  }

  /** The loop completes exactly when no element raises; otherwise it raises what the first
      raising element raises. */
  lemma {:induction false} CollectOk<T, U>(xs: seq<T>, step: T -> Result<seq<U>>, acc: seq<U>)
    ensures CollectFrom(xs, step, acc).Ok? <==> forall i :: 0 <= i < |xs| ==> step(xs[i]).Ok?
    ensures CollectFrom(xs, step, acc).Err? ==>
      exists i :: 0 <= i < |xs| && step(xs[i]).Err? && CollectFrom(xs, step, acc).error == step(xs[i]).error
                  && forall j :: 0 <= j < i ==> step(xs[j]).Ok?
    decreases |xs|
  {
    if xs != [] && step(xs[0]).Ok? {
      var p := step(xs[0]).value;
      CollectOk(xs[1..], step, acc + p);
      assert forall i :: 0 < i < |xs| ==> xs[1..][i - 1] == xs[i];
      if CollectFrom(xs, step, acc).Err? {
        var i :| 0 <= i < |xs[1..]| && step(xs[1..][i]).Err? && CollectFrom(xs[1..], step, acc + p).error == step(xs[1..][i]).error
                 && forall j :: 0 <= j < i ==> step(xs[1..][j]).Ok?;
        assert xs[i + 1] == xs[1..][i];
        forall j | 0 <= j < i + 1 ensures step(xs[j]).Ok? {
          if j > 0 {
            assert xs[j] == xs[1..][j - 1];
          }
        }
      }
    }
  }

  /** When every element gives `n` parts, element `i` gives parts `n * i` to `n * i + n` after `acc`. */
  lemma {:induction false} CollectAt<T, U>(xs: seq<T>, step: T -> Result<seq<U>>, acc: seq<U>, n: nat, i: nat)
    requires forall x :: step(x).Ok? ==> |step(x).value| == n
    requires CollectFrom(xs, step, acc).Ok? && i < |xs|
    ensures step(xs[i]).Ok?
    ensures var r := CollectFrom(xs, step, acc).value;
      |acc| + n * i + n <= |r| && r[|acc| + n * i..|acc| + n * i + n] == step(xs[i]).value
    decreases i
  {
    var p := step(xs[0]).value;
    var r := CollectFrom(xs, step, acc).value;
    assert r == CollectFrom(xs[1..], step, acc + p).value;
    if i == 0 {
      assert r[..|acc + p|] == acc + p;
      assert r[|acc|..|acc| + n] == r[..|acc + p|][|acc|..];
    } else {
      CollectAt(xs[1..], step, acc + p, n, i - 1);
      assert xs[1..][i - 1] == xs[i];
      assert |acc + p| + n * (i - 1) == |acc| + n * i;
    }
  }

  /** When every element gives `n` parts, the loop gives `n` parts per element. */
  lemma {:induction false} CollectLength<T, U>(xs: seq<T>, step: T -> Result<seq<U>>, acc: seq<U>, n: nat)
    requires forall x :: step(x).Ok? ==> |step(x).value| == n
    requires CollectFrom(xs, step, acc).Ok?
    ensures |CollectFrom(xs, step, acc).value| == |acc| + n * |xs|
    decreases |xs|
  {
    if xs != [] {
      var p := step(xs[0]).value;
      CollectLength(xs[1..], step, acc + p, n);
      assert |acc + p| + n * (|xs| - 1) == |acc| + n * |xs|;
    }
  }

  /** When every element gives `n` parts, the result is `acc` followed by each element's parts in turn. */
  lemma CollectLayout<T, U>(xs: seq<T>, step: T -> Result<seq<U>>, acc: seq<U>, n: nat)
    requires forall x :: step(x).Ok? ==> |step(x).value| == n
    requires CollectFrom(xs, step, acc).Ok?
    ensures var r := CollectFrom(xs, step, acc).value;
      && |r| == |acc| + n * |xs| && r[..|acc|] == acc
      && forall i :: 0 <= i < |xs| ==>
           step(xs[i]).Ok? && |acc| + n * i + n <= |r| && r[|acc| + n * i..|acc| + n * i + n] == step(xs[i]).value
  {
    CollectLength(xs, step, acc, n);
    forall i | 0 <= i < |xs|
      ensures var r := CollectFrom(xs, step, acc).value;
        step(xs[i]).Ok? && |acc| + n * i + n <= |r| && r[|acc| + n * i..|acc| + n * i + n] == step(xs[i]).value
    {
      CollectAt(xs, step, acc, n, i);
    }
  }

  /** After both loops, the result still starts with `head`, and `mid` follows the first loop's parts. */
  lemma ChainEnds<T, V, U>(xs: seq<T>, f: T -> Result<seq<U>>, ys: seq<V>, g: V -> Result<seq<U>>,
                           head: seq<U>, mid: seq<U>)
    requires CollectFrom(xs, f, head).Ok?
    requires CollectFrom(ys, g, CollectFrom(xs, f, head).value + mid).Ok?
    ensures var w := CollectFrom(xs, f, head).value;
      var r := CollectFrom(ys, g, w + mid).value;
      r[..|head|] == head && r[|w|..|w| + |mid|] == mid
  {
    var w := CollectFrom(xs, f, head).value;
    AfterPrefix(CollectFrom(ys, g, w + mid).value, w, mid, head);
  }

  /** After both loops, the first loop's parts, one per element, still follow `head`. */
  lemma ChainFirst<T, V, U>(xs: seq<T>, f: T -> Result<seq<U>>, ys: seq<V>, g: V -> Result<seq<U>>,
                            head: seq<U>, mid: seq<U>)
    requires forall x :: f(x).Ok? ==> |f(x).value| == 1
    requires CollectFrom(xs, f, head).Ok?
    requires CollectFrom(ys, g, CollectFrom(xs, f, head).value + mid).Ok?
    ensures var r := CollectFrom(ys, g, CollectFrom(xs, f, head).value + mid).value;
      forall i :: 0 <= i < |xs| ==> f(xs[i]).Ok? && |head| + i + 1 <= |r| && r[|head| + i..|head| + i + 1] == f(xs[i]).value
  {
    var w := CollectFrom(xs, f, head).value;
    var r := CollectFrom(ys, g, w + mid).value;
    CollectLayout(xs, f, head, 1);
    AfterPrefix(r, w, mid, head);
    KeepSlices(xs, f, r, w, |head|);
  }

  /** Slices of `w` that hold each element's one part are slices of anything starting with `w`. */
  lemma KeepSlices<T, U>(xs: seq<T>, f: T -> Result<seq<U>>, r: seq<U>, w: seq<U>, base: nat)
    requires |w| <= |r| && r[..|w|] == w
    requires forall i :: 0 <= i < |xs| ==> f(xs[i]).Ok? && base + i + 1 <= |w| && w[base + i..base + i + 1] == f(xs[i]).value
    ensures forall i :: 0 <= i < |xs| ==> f(xs[i]).Ok? && base + i + 1 <= |r| && r[base + i..base + i + 1] == f(xs[i]).value
  {
    forall i | 0 <= i < |xs| ensures f(xs[i]).Ok? && base + i + 1 <= |r| && r[base + i..base + i + 1] == f(xs[i]).value {
      assert f(xs[i]).Ok? && base + i + 1 <= |w| && w[base + i..base + i + 1] == f(xs[i]).value;
      PrefixSlice(r, w, base + i, base + i + 1);
    }
  }

  /** After both loops, `head`, the first loop's parts and `mid` are followed by two parts per
      element of the second list, in order, and nothing else. */
  lemma ChainSecond<T, V, U>(xs: seq<T>, f: T -> Result<seq<U>>, ys: seq<V>, g: V -> Result<seq<U>>,
                             head: seq<U>, mid: seq<U>)
    requires forall x :: f(x).Ok? ==> |f(x).value| == 1
    requires forall y :: g(y).Ok? ==> |g(y).value| == 2
    requires CollectFrom(xs, f, head).Ok?
    requires CollectFrom(ys, g, CollectFrom(xs, f, head).value + mid).Ok?
    ensures var r := CollectFrom(ys, g, CollectFrom(xs, f, head).value + mid).value;
      var b := |head| + |xs| + |mid|;
      && |r| == b + 2 * |ys|
      && forall i :: 0 <= i < |ys| ==> g(ys[i]).Ok? && b + 2 * i + 2 <= |r| && r[b + 2 * i..b + 2 * i + 2] == g(ys[i]).value
  {
    CollectLength(xs, f, head, 1);
    CollectLayout(ys, g, CollectFrom(xs, f, head).value + mid, 2);
  }

  /** A sequence that starts with `w + mid`, where `w` starts with `head`, starts with `w`, has
      `mid` right after it, and starts with `head`. */
  lemma AfterPrefix<U>(r: seq<U>, w: seq<U>, mid: seq<U>, head: seq<U>)
    requires |w + mid| <= |r| && r[..|w + mid|] == w + mid && |head| <= |w| && w[..|head|] == head
    ensures r[..|w|] == w && r[|w|..|w| + |mid|] == mid && r[..|head|] == head
  {
    PrefixSlice(r, w + mid, 0, |w|);
    PrefixSlice(r, w + mid, |w|, |w| + |mid|);
    assert (w + mid)[..|w|] == w && (w + mid)[|w|..] == mid;
    PrefixSlice(r, w, 0, |head|);
  }

  /** A prefix equal to `p` has the same slices as `p`. */
  lemma PrefixSlice<U>(r: seq<U>, p: seq<U>, a: nat, b: nat)
    requires |p| <= |r| && r[..|p|] == p && a <= b <= |p|
    ensures r[a..b] == p[a..b]
  {
    forall k | 0 <= k < b - a ensures r[a..b][k] == p[a..b][k] {
      assert r[a + k] == r[..|p|][a + k];
    }
  }
}
