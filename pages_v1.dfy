/**
 * `rebalance_pages` of the earlier version (appv1.py): the same scaling, followed by a drift loop
 * with no bound on its turns. The loop ends with an exact total when the total is at least the
 * number of chapters, and never ends otherwise.
 */
module PagesV1 {
  import opened Wrappers
  import opened JsonModel
  import opened Pages

  /** `(i + 1) % n` of an index `k == i % n`. */
  function Succ(k: nat, n: nat): (r: nat)
    requires k < n
    ensures r < n
  {
    if k + 1 == n then 0 else k + 1
  }

  /** Euclidean division has only one quotient and remainder. */
  lemma ModUnique(x: int, n: int, q: int, r: int)
    requires n > 0 && 0 <= r < n && x == q * n + r
    ensures x % n == r
  {
    var q0, r0 := x / n, x % n;
    assert q * n - q0 * n == (q - q0) * n;
    MulSign(q - q0, n);
    MulSign(q0 - q, n);
    assert (q0 - q) * n == -((q - q0) * n);
  }

  lemma ModSucc(i: nat, n: nat)
    requires n > 0
    ensures (i + 1) % n == Succ(i % n, n)
  {
    var q, r := i / n, i % n;
    if r + 1 == n {
      assert i + 1 == (q + 1) * n + 0;
      ModUnique(i + 1, n, q + 1, 0);
    } else {
      ModUnique(i + 1, n, q, r + 1);
    }
  }

  /** The index `d` places after `k`, going round. */
  function Cyc(x: nat, n: nat): nat
    requires x < 2 * n
  {
    if x >= n then x - n else x
  }

  /** How many places after `k`, from `d` on, the next entry above 1 lies; `|s|` when there is none. */
  function GapFrom(s: seq<int>, k: nat, d: nat): (g: nat)
    requires k < |s| && d <= |s|
    ensures d <= g <= |s|
    decreases |s| - d
  {
    if d == |s| then |s|
    else if s[Cyc(k + d, |s|)] > 1 then d
    else GapFrom(s, k, d + 1)
  }

  function Gap(s: seq<int>, k: nat): nat
    requires k < |s|
  {
    GapFrom(s, k, 0)
  }

  /** The entry `j`, above 1, lies at most `Dist(k, j)` places after `k`. */
  lemma {:induction false} GapFromBound(s: seq<int>, k: nat, d: nat, j: nat)
    requires k < |s| && j < |s| && s[j] > 1
    requires d <= (if j >= k then j - k else j + |s| - k)
    ensures GapFrom(s, k, d) <= (if j >= k then j - k else j + |s| - k)
    decreases |s| - d
  {
    var dist := if j >= k then j - k else j + |s| - k;
    if d < dist && s[Cyc(k + d, |s|)] <= 1 {
      GapFromBound(s, k, d + 1, j);
    }
  }

  /** Entries of at least 1 that add up to more than their number include one above 1. */
  lemma {:induction false} SomeAboveOne(s: seq<int>)
    requires AllAtLeast(s, 1) && Sum(s) > |s|
    ensures exists j :: 0 <= j < |s| && s[j] > 1
    decreases |s|
  {
    if s[|s| - 1] <= 1 {
      SomeAboveOne(s[..|s| - 1]);
      var j :| 0 <= j < |s| - 1 && s[..|s| - 1][j] > 1;
      assert s[j] > 1;
    }
  }

  /** When some entry is above 1, the next one is fewer than `|s|` places away. */
  lemma GapBelowLength(s: seq<int>, k: nat)
    requires k < |s| && AllAtLeast(s, 1) && Sum(s) > |s|
    ensures Gap(s, k) < |s|
  {
    SomeAboveOne(s);
    var j :| 0 <= j < |s| && s[j] > 1;
    GapFromBound(s, k, 0, j);
  }

  /** Skipping an entry of 1 brings the next entry above 1 one place closer. */
  lemma {:induction false} GapFromShift(s: seq<int>, k: nat, d: nat)
    requires k < |s| && d + 1 <= |s|
    ensures GapFrom(s, k, d + 1) < |s| ==> GapFrom(s, Succ(k, |s|), d) == GapFrom(s, k, d + 1) - 1
    decreases |s| - d
  {
    var n := |s|;
    if d + 1 < n {
      assert Cyc(Succ(k, n) + d, n) == Cyc(k + d + 1, n);
      if d + 2 <= n {
        GapFromShift(s, k, d + 1);
      }
    }
  }

  lemma GapShift(s: seq<int>, k: nat)
    requires k < |s| && s[k] <= 1 && Gap(s, k) < |s|
    ensures Gap(s, Succ(k, |s|)) == Gap(s, k) - 1
  {
    assert Cyc(k, |s|) == k;
    GapFromShift(s, k, 0);
  }

  /** Turns left before the loop ends: the shortfall, or the excess weighted by a pass plus the
      distance to the next entry that can give a page. */
  function Measure(s: seq<int>, diff: int, k: nat): nat
    requires k < |s|
  {
    if diff >= 0 then diff else (-diff) * (|s| + 1) + Gap(s, k)
  }

  lemma MulStep(a: int, n: nat)
    requires a >= 1
    ensures a * (n + 1) == (a - 1) * (n + 1) + n + 1
    ensures (a - 1) * (n + 1) >= 0
  {
    MulNonNeg(a - 1, n + 1);
  }

  /** A page taken from an entry above 1 moves the loop a whole pass closer to its end. */
  lemma MeasureDecreasesOnTake(s: seq<int>, diff: int, k: nat)
    requires k < |s| && AllAtLeast(s, 1) && Sum(s) + diff >= |s| && diff < 0 && s[k] > 1
    ensures var st := DriftStep(s, diff, k);
      Measure(st.0, st.1, Succ(k, |s|)) < Measure(s, diff, k)
  {
    var st := DriftStep(s, diff, k);
    var n := |s|;
    assert st.1 == diff + 1 && |st.0| == n;
    if st.1 < 0 {
      SumAtLeastLength(st.0);
      GapBelowLength(st.0, Succ(k, n));
      PassCloser(-diff, n, Gap(st.0, Succ(k, n)), Gap(s, k));
    }
  }

  /** One unit of excess fewer outweighs any distance shorter than a pass. */
  lemma PassCloser(a: int, n: nat, g1: int, g0: int)
    requires a >= 1 && 0 <= g1 < n && g0 >= 0
    ensures (a - 1) * (n + 1) + g1 < a * (n + 1) + g0
  {
    MulStep(a, n);
  }

  /** Every turn of the loop, with a total no smaller than the number of entries, brings its end
      closer. */
  lemma MeasureDecreases(s: seq<int>, diff: int, k: nat)
    requires k < |s| && AllAtLeast(s, 1) && Sum(s) + diff >= |s| && diff != 0
    ensures var st := DriftStep(s, diff, k);
      Measure(st.0, st.1, Succ(k, |s|)) < Measure(s, diff, k)
  {
    if diff < 0 {
      if s[k] > 1 {
        MeasureDecreasesOnTake(s, diff, k);
      } else {
        GapBelowLength(s, k);
        GapShift(s, k);
      }
    }
  }

  /** `while diff != 0` from index `k`, for a total no smaller than the number of entries. */
  function V1Drift(s: seq<int>, diff: int, k: nat): (r: seq<int>)
    requires k < |s| && AllAtLeast(s, 1) && Sum(s) + diff >= |s|
    ensures |r| == |s| && AllAtLeast(r, 1) && Sum(r) == Sum(s) + diff
    decreases Measure(s, diff, k)
  {
    if diff == 0 then s
    else
      var st := DriftStep(s, diff, k);
      MeasureDecreases(s, diff, k);
      V1Drift(st.0, st.1, Succ(k, |s|))
  }

  /** The loop body run `m` times from index `k`, whatever the loop condition says. */
  function Iterate(s: seq<int>, diff: int, k: nat, m: nat): (r: (seq<int>, int))
    requires k < |s|
    ensures |r.0| == |s|
    decreases m
  {
    if m == 0 then (s, diff)
    else
      var st := DriftStep(s, diff, k);
      Iterate(st.0, st.1, Succ(k, |s|), m - 1)
  }

  /** With a total below the number of entries the drift stays negative after any number of turns,
      so `while diff != 0` never exits. */
  lemma {:induction false} DriftNeverCloses(s: seq<int>, diff: int, k: nat, m: nat)
    requires k < |s| && AllAtLeast(s, 1) && Sum(s) + diff < |s|
    ensures Iterate(s, diff, k, m).1 < 0
    decreases m
  {
    SumAtLeastLength(s);
    if m > 0 {
      var st := DriftStep(s, diff, k);
      DriftNeverCloses(st.0, st.1, Succ(k, |s|), m - 1);
    }
  }

  /** The scaled counts and the drift the loop starts from. */
  function Start(raw: seq<int>, total: int): (st: (seq<int>, int))
    requires Sum(raw) > 0
    ensures |st.0| == |raw| && AllAtLeast(st.0, 1) && Sum(st.0) + st.1 == total
  {
    var scaled := Scale(raw, total, Sum(raw));
    (scaled, total - Sum(scaled))
  }

  /** The exact-rational start on a tie: 7 * 29 / 14 is 14.5, which rounds to the even 14, and the
      drift loop then gives the missing page to the first entry. */
  lemma StartExactTie()
    ensures Start([7, 7], 29) == ([14, 14], 1)
    ensures RebalanceCountsV1([7, 7], 29) == Ok([15, 14])
  {
    assert Sum([7, 7]) == 14 by {
      assert [7, 7][..1] == [7] && [7][..0] == [];
    }
    assert RoundHalfEven(7 * 29, 14) == 14;
    assert Scale([7, 7], 29, 14) == [14, 14];
    assert Sum([14, 14]) == 28 by {
      assert [14, 14][..1] == [14] && [14][..0] == [];
    }
    assert [14, 14][0 := 15] == [15, 14];
    assert DriftStep([14, 14], 1, 0) == ([15, 14], 0);
  }

  /** `rebalance_pages` of the earlier version on the clamped counts: an empty list divides by
      zero, a total below the number of entries hangs, anything else ends on the exact total. */
  function RebalanceCountsV1(raw: seq<int>, total: int): (r: Result<seq<int>>)
    requires AllAtLeast(raw, 1)
    ensures r.Ok? ==> |r.value| == |raw| && AllAtLeast(r.value, 1) && Sum(r.value) == total
    ensures r.Err? <==> raw == [] || total < |raw|
    ensures raw == [] ==> r == Err(ZeroDivisionError)
    ensures raw != [] && total < |raw| ==> r == Err(Diverges)
  {
    SumAtLeastLength(raw);
    if Sum(raw) <= 0 then Err(ZeroDivisionError)
    else if total < |raw| then Err(Diverges)
    else
      var st := Start(raw, total);
      Ok(V1Drift(st.0, st.1, 0))
  }

  /** The sum of the clamped counts is positive exactly when there is one, so the even-split branch
      of the source is reached only by the empty list, where `divmod` divides by zero. */
  lemma EvenSplitOnlyForEmpty(raw: seq<int>)
    requires AllAtLeast(raw, 1)
    ensures Sum(raw) <= 0 <==> raw == []
  {
    SumAtLeastLength(raw);
  }

  /** Where the model reports a hang, the source's loop indeed never exits: after any number `m` of
      turns from the start the drift is still not zero. */
  lemma RebalanceV1Hangs(raw: seq<int>, total: int, m: nat)
    requires AllAtLeast(raw, 1)
    requires RebalanceCountsV1(raw, total) == Err(Diverges)
    ensures Iterate(Start(raw, total).0, Start(raw, total).1, 0, m).1 != 0
  {
    SumAtLeastLength(raw);
    var st := Start(raw, total);
    DriftNeverCloses(st.0, st.1, 0, m);
  }

  /** `rebalance_pages(chapters, pages_total)` of the earlier version. */
  function RebalancePagesV1(chapters: seq<Fields>, total: int): (r: Result<seq<Fields>>)
    ensures r.Ok? ==> |r.value| == |chapters|
  {
    var raw :- ClampedCounts(chapters, 1);
    var pages :- RebalanceCountsV1(raw, total);
    Ok(SetPages(chapters, pages))
  }

  /** The unbounded drift loop as the source writes it, run where it terminates. */
  method V1DriftLoop(scaled0: seq<int>, diff0: int) returns (scaled: seq<int>)
    requires |scaled0| > 0 && AllAtLeast(scaled0, 1) && Sum(scaled0) + diff0 >= |scaled0|
    ensures scaled == V1Drift(scaled0, diff0, 0)
  {
    scaled := scaled0;
    var diff := diff0;
    var n := |scaled0|;
    var i: nat := 0;
    while diff != 0 && |scaled| > 0
      invariant |scaled| == n && AllAtLeast(scaled, 1) && Sum(scaled) + diff >= n
      invariant V1Drift(scaled, diff, i % n) == V1Drift(scaled0, diff0, 0)
      decreases Measure(scaled, diff, i % n)
    {
      var idx := i % |scaled|;
      MeasureDecreases(scaled, diff, idx);
      ghost var next := DriftStep(scaled, diff, idx);
      if diff > 0 {
        scaled := scaled[idx := scaled[idx] + 1];
        diff := diff - 1;
      } else {
        if scaled[idx] > 1 {
          scaled := scaled[idx := scaled[idx] - 1];
          diff := diff + 1;
        }
      }
      assert (scaled, diff) == next;
      ModSucc(i, n);
      i := i + 1;
    }
  }

  /** `rebalance_pages` of the earlier version with its loop run as in the source. */
  method RebalancePagesV1Method(chapters: seq<Fields>, total: int) returns (r: Result<seq<Fields>>)
    ensures r == RebalancePagesV1(chapters, total)
  {
    var counts := ClampedCounts(chapters, 1);
    if counts.Err? {
      return Err(counts.error);
    }
    var raw := counts.value;
    SumAtLeastLength(raw);
    if Sum(raw) <= 0 {
      return Err(ZeroDivisionError);
    }
    if total < |raw| {
      return Err(Diverges);
    }
    var st := Start(raw, total);
    var pages := V1DriftLoop(st.0, st.1);
    return Ok(SetPages(chapters, pages));
  }
}
