/**
 * Page arithmetic of the current version (app.py): `words_needed`, Python's `round`, and
 * `rebalance_pages`, which scales every chapter's `target_pages` towards a book total and then
 * corrects rounding drift one page at a time for at most two passes over the chapters.
 */
module Pages {
  import opened Wrappers
  import opened JsonModel

  /** `max(100, int(pages * wpp))` */
  function WordsNeeded(pages: int, wpp: int): (r: int)
    ensures r >= 100 && r >= pages * wpp
    ensures r == 100 || r == pages * wpp
  {
    if pages * wpp > 100 then pages * wpp else 100
  }

  /** Python's `round(num / den)`: the nearest integer, ties to the even one. */
  function RoundHalfEven(num: int, den: int): (r: int)
    requires den > 0
    ensures 2 * Abs(num - r * den) <= den
    ensures 2 * Abs(num - r * den) == den ==> r % 2 == 0
  {
    var q := num / den;
    var rem := num % den;
    assert num - q * den == rem;
    if 2 * rem < den then q
    else if 2 * rem > den then q + 1
    else if q % 2 == 0 then q
    else q + 1
  }

  function Abs(x: int): nat { if x < 0 then -x else x }

  /** Multiplying by a positive number keeps the sign. */
  lemma MulSign(x: int, w: int)
    requires w > 0
    ensures x > 0 <==> x * w > 0
    ensures x < 0 <==> x * w < 0
    ensures x >= 1 ==> x * w >= w
  {
    if x >= 1 {
      assert x * w == (x - 1) * w + w;
      MulNonNeg(x - 1, w);
    }
    if x < 0 {
      MulNonNeg(-x, w);
      assert (-x) * w == -(x * w);
    }
    if x > 0 {
      MulNonNeg(x - 1, w);
      assert x * w == (x - 1) * w + w;
    }
  }

  lemma MulNonNeg(x: int, w: int)
    requires x >= 0 && w >= 0
    ensures x * w >= 0
  {
  }

  /** `r` is nearest to `num / den`, ties broken to the even one. */
  ghost predicate Nearest(num: int, den: int, r: int) {
    && 2 * Abs(num - r * den) <= den
    && (2 * Abs(num - r * den) == den ==> r % 2 == 0)
  }

  lemma {:induction false} NearestUnique(num: int, den: int, r: int, r': int)
    requires den > 0 && Nearest(num, den, r) && Nearest(num, den, r')
    ensures r == r'
  {
    var d := r' - r;
    var e, e' := num - r * den, num - r' * den;
    assert e - e' == d * den by {
      assert r' * den - r * den == (r' - r) * den;
    }
    MulSign(d, den);
    MulSign(-d, den);
    assert (-d) * den == -(d * den);
    assert -1 <= d <= 1;
    assert d * den == if d == 1 then den else if d == -1 then -den else 0;
  }

  /** Only one integer is nearest to `num / den` with ties broken to even, so `RoundHalfEven` is it. */
  lemma RoundHalfEvenUnique(num: int, den: int, r': int)
    requires den > 0
    requires 2 * Abs(num - r' * den) <= den
    requires 2 * Abs(num - r' * den) == den ==> r' % 2 == 0
    ensures r' == RoundHalfEven(num, den)
  {
    NearestUnique(num, den, RoundHalfEven(num, den), r');
  }

  /** The integer nearest to `num / den` is nearest to `(num * w) / (den * w)`. */
  lemma NearestScaled(num: int, den: int, w: int, r: int)
    requires den > 0 && w > 0 && Nearest(num, den, r)
    ensures Nearest(num * w, den * w, r)
  {
    var e := num - r * den;
    MulSubDistrib(num, r * den, w);
    MulAssoc(r, den, w);
    AbsMul(e, w);
    var g := den - 2 * Abs(e);
    MulSubDistrib(den, 2 * Abs(e), w);
    MulAssoc(2, Abs(e), w);
    MulSign(g, w);
  }

  lemma MulSubDistrib(a: int, b: int, w: int)
    ensures (a - b) * w == a * w - b * w
  {
  }

  lemma MulAssoc(a: int, b: int, w: int)
    ensures (a * b) * w == a * (b * w)
  {
  }

  lemma AbsMul(e: int, w: int)
    requires w > 0
    ensures Abs(e * w) == Abs(e) * w
  {
    MulSign(e, w);
    if e < 0 { assert (-e) * w == -(e * w); }
  }

  /** Scaling numerator and denominator alike does not change the rounding. */
  lemma RoundHalfEvenScale(num: int, den: int, w: int)
    requires den > 0 && w > 0
    ensures RoundHalfEven(num * w, den * w) == RoundHalfEven(num, den)
  {
    var r := RoundHalfEven(num, den);
    NearestScaled(num, den, w, r);
    RoundHalfEvenUnique(num * w, den * w, r);
  }

  /** The nearest integer to a quotient of at least 1 is at least 1. */
  lemma RoundHalfEvenAtLeastOne(num: int, den: int)
    requires den > 0 && num >= den
    ensures RoundHalfEven(num, den) >= 1
  {
    var r := RoundHalfEven(num, den);
    MulSign(r, den);
  }

  function Sum(s: seq<int>): int {
    if s == [] then 0 else Sum(s[..|s| - 1]) + s[|s| - 1]
  }

  ghost predicate AllAtLeast(s: seq<int>, lo: int) {
    forall i :: 0 <= i < |s| ==> s[i] >= lo
  }

  /** Changing one entry by `d` changes the sum by `d`. */
  lemma {:induction false} SumUpdate(s: seq<int>, i: nat, v: int)
    requires i < |s|
    ensures Sum(s[i := v]) == Sum(s) - s[i] + v
    decreases |s|
  {
    var t := s[i := v];
    if i < |s| - 1 {
      assert t[..|t| - 1] == s[..|s| - 1][i := v];
      SumUpdate(s[..|s| - 1], i, v);
    } else {
      assert t[..|t| - 1] == s[..|s| - 1];
    }
  }

  /** A sequence of `n` copies of `q` sums to `n * q`. */
  lemma {:induction false} SumConst(s: seq<int>, q: int)
    requires forall i :: 0 <= i < |s| ==> s[i] == q
    ensures Sum(s) == |s| * q
    decreases |s|
  {
    if s != [] {
      SumConst(s[..|s| - 1], q);
    }
  }

  /** Entries of at least 1 sum to at least the length. */
  lemma {:induction false} SumAtLeastLength(s: seq<int>)
    requires AllAtLeast(s, 1)
    ensures Sum(s) >= |s|
    decreases |s|
  {
    if s != [] {
      SumAtLeastLength(s[..|s| - 1]);
    }
  }

  /** One turn of the drift loop at index `idx`: add a page while short, remove one from an entry
      above 1 while over. */
  function DriftStep(s: seq<int>, diff: int, idx: nat): (r: (seq<int>, int))
    requires idx < |s|
    ensures |r.0| == |s|
    ensures Sum(r.0) + r.1 == Sum(s) + diff
    ensures AllAtLeast(s, 1) ==> AllAtLeast(r.0, 1)
  {
    SumUpdate(s, idx, s[idx] + 1);
    SumUpdate(s, idx, s[idx] - 1);
    if diff > 0 then (s[idx := s[idx] + 1], diff - 1)
    else if s[idx] > 1 then (s[idx := s[idx] - 1], diff + 1)
    else (s, diff)
  }

  /** The bounded loop `while diff != 0 and i < limit`, from counter `i`, returning the final
      entries and the drift left over. */
  function FixDrift(s: seq<int>, diff: int, i: nat, limit: nat): (r: (seq<int>, int))
    requires |s| > 0
    ensures |r.0| == |s|
    ensures Sum(r.0) + r.1 == Sum(s) + diff
    ensures AllAtLeast(s, 1) ==> AllAtLeast(r.0, 1)
    decreases limit - i
  {
    if diff == 0 || i >= limit then (s, diff)
    else
      var st := DriftStep(s, diff, i % |s|);
      FixDrift(st.0, st.1, i + 1, limit)
  }

  /** The drift loop as the source writes it. */
  method FixDriftLoop(scaled0: seq<int>, diff0: int) returns (scaled: seq<int>, diff: int)
    requires |scaled0| > 0
    ensures (scaled, diff) == FixDrift(scaled0, diff0, 0, 2 * |scaled0|)
  {
    scaled, diff := scaled0, diff0;
    var i := 0;
    while diff != 0 && i < |scaled| * 2
      invariant |scaled| == |scaled0| && 0 <= i
      invariant FixDrift(scaled, diff, i, 2 * |scaled0|) == FixDrift(scaled0, diff0, 0, 2 * |scaled0|)
      decreases 2 * |scaled0| - i
    {
      var idx := i % |scaled|;
      if diff > 0 {
        scaled := scaled[idx := scaled[idx] + 1];
        diff := diff - 1;
      } else {
        if scaled[idx] > 1 {
          scaled := scaled[idx := scaled[idx] - 1];
          diff := diff + 1;
        }
      }
      i := i + 1;
    }
  }

  /** A shortfall no larger than the remaining turns is fully made up. */
  lemma {:induction false} PositiveDriftCloses(s: seq<int>, diff: int, i: nat, limit: nat)
    requires |s| > 0 && 0 <= diff && i + diff <= limit
    ensures FixDrift(s, diff, i, limit).1 == 0
    decreases limit - i
  {
    if diff != 0 && i < limit {
      var st := DriftStep(s, diff, i % |s|);
      PositiveDriftCloses(st.0, st.1, i + 1, limit);
    }
  }

  /** An excess no larger than the entries left in this pass, all of which are at least 2, is fully
      removed. */
  lemma {:induction false} NegativeDriftCloses(s: seq<int>, diff: int, i: nat, limit: nat)
    requires |s| > 0 && diff <= 0 && i - diff <= |s| <= limit
    requires forall j :: i <= j < |s| ==> s[j] >= 2
    ensures FixDrift(s, diff, i, limit).1 == 0
    decreases limit - i
  {
    if diff != 0 && i < limit {
      assert i < |s| && i % |s| == i;
      var st := DriftStep(s, diff, i);
      assert st == (s[i := s[i] - 1], diff + 1);
      NegativeDriftCloses(st.0, st.1, i + 1, limit);
    }
  }

  /** `max(1, round(x * total / s))` for every entry. */
  function Scale(raw: seq<int>, total: int, s: int): (r: seq<int>)
    requires s > 0
    ensures |r| == |raw| && AllAtLeast(r, 1)
    ensures forall i :: 0 <= i < |raw| ==> r[i] == Max1(RoundHalfEven(raw[i] * total, s))
  {
    seq(|raw|, i requires 0 <= i < |raw| => Max1(RoundHalfEven(raw[i] * total, s)))
  }

  function Max1(x: int): int { if x > 1 then x else 1 }

  /** `rebalance_pages` on the clamped page counts: kept as they are when they already sum to the
      total, otherwise scaled and corrected by the bounded drift loop. */
  function RebalanceCounts(raw: seq<int>, total: int): (r: seq<int>)
    requires AllAtLeast(raw, 1)
    ensures |r| == |raw| && AllAtLeast(r, 1)
    ensures Sum(raw) == total ==> r == raw
  {
    if raw == [] then []
    else
      SumAtLeastLength(raw);
      var s := Sum(raw);
      if s == total then raw
      else
        var scaled := Scale(raw, total, s);
        FixDrift(scaled, total - Sum(scaled), 0, 2 * |raw|).0
  }

  /** Chapters of equal weight all scale to the rounded per-chapter share. */
  lemma UniformScale(raw: seq<int>, total: int)
    requires AllAtLeast(raw, 1) && |raw| >= 1
    requires forall i :: 0 <= i < |raw| ==> raw[i] == raw[0]
    ensures Sum(raw) == |raw| * raw[0]
    ensures forall i :: 0 <= i < |raw| ==>
      Scale(raw, total, Sum(raw))[i] == Max1(RoundHalfEven(total, |raw|))
  {
    var n, w := |raw|, raw[0];
    SumConst(raw, w);
    RoundHalfEvenScale(total, n, w);
    assert w * total == total * w && n * w == |raw| * raw[0];
  }

  /** Pages spread over chapters of equal weight (as the TOC builders create them) add up to the
      total exactly when the total is at least the number of chapters. */
  lemma RebalanceUniformExact(raw: seq<int>, total: int)
    requires AllAtLeast(raw, 1) && |raw| >= 1 && total >= |raw|
    requires forall i :: 0 <= i < |raw| ==> raw[i] == raw[0]
    ensures Sum(RebalanceCounts(raw, total)) == total
  {
    var n := |raw|;
    UniformScale(raw, total);
    var s := Sum(raw);
    if s != total {
      var q := RoundHalfEven(total, n);
      RoundHalfEvenAtLeastOne(total, n);
      UniformDriftCloses(Scale(raw, total, s), q, total);
    }
  }

  /** Equal counts `q`, each the rounded share of the total, are corrected to the total within
      the two passes. */
  lemma UniformDriftCloses(scaled: seq<int>, q: int, total: int)
    requires |scaled| >= 1 && total >= |scaled| && q >= 1
    requires forall i :: 0 <= i < |scaled| ==> scaled[i] == q
    requires 2 * Abs(total - q * |scaled|) <= |scaled|
    ensures FixDrift(scaled, total - Sum(scaled), 0, 2 * |scaled|).1 == 0
  {
    var n := |scaled|;
    SumConst(scaled, q);
    var diff := total - q * n;
    if diff >= 0 {
      PositiveDriftCloses(scaled, diff, 0, 2 * n);
    } else {
      MulPred(q, n);
      MulSign(q - 1, n);
      NegativeDriftCloses(scaled, diff, 0, 2 * n);
    }
  }

  lemma MulPred(q: int, n: int)
    ensures (q - 1) * n == q * n - n
  {
  }

  /** The counts 1, 1, 1, 1, 1000 scaled to a total of 10 are 1, 1, 1, 1, 10. */
  lemma ScaleExample()
    ensures Sum([1, 1, 1, 1, 1000]) == 1004
    ensures Scale([1, 1, 1, 1, 1000], 10, 1004) == [1, 1, 1, 1, 10]
  {
    SumFourOnes(1000);
    assert RoundHalfEven(10, 1004) == 0;
    assert RoundHalfEven(10000, 1004) == 10;
  }

  /** The drift loop on 1, 1, 1, 1, 10 with four pages too many stops after ten turns at 1, 1, 1, 1, 8. */
  lemma DriftExample()
    ensures FixDrift([1, 1, 1, 1, 10], -4, 0, 10) == ([1, 1, 1, 1, 8], -2)
  {
    var ones := [1, 1, 1, 1];
    var s10, s9, s8 := ones + [10], ones + [9], ones + [8];
    assert s10[4 := 9] == s9 && s9[4 := 8] == s8;
    assert s10 == [1, 1, 1, 1, 10] && s8 == [1, 1, 1, 1, 8];
    assert FixDrift(s8, -2, 10, 10) == (s8, -2);
    assert FixDrift(s9, -3, 5, 10) == FixDrift(s8, -2, 10, 10) by {
      assert DriftStep(s9, -3, 9 % 5) == (s8, -2);
      assert FixDrift(s9, -3, 9, 10) == FixDrift(s8, -2, 10, 10);
      assert FixDrift(s9, -3, 8, 10) == FixDrift(s9, -3, 9, 10);
      assert FixDrift(s9, -3, 7, 10) == FixDrift(s9, -3, 8, 10);
      assert FixDrift(s9, -3, 6, 10) == FixDrift(s9, -3, 7, 10);
    }
    assert FixDrift(s10, -4, 0, 10) == FixDrift(s9, -3, 5, 10) by {
      assert DriftStep(s10, -4, 4 % 5) == (s9, -3);
      assert FixDrift(s10, -4, 4, 10) == FixDrift(s9, -3, 5, 10);
      assert FixDrift(s10, -4, 3, 10) == FixDrift(s10, -4, 4, 10);
      assert FixDrift(s10, -4, 2, 10) == FixDrift(s10, -4, 3, 10);
      assert FixDrift(s10, -4, 1, 10) == FixDrift(s10, -4, 2, 10);
    }
  }

  /** The bound of two passes can stop the correction early: five chapters of 1, 1, 1, 1 and 1000
      pages rebalanced to 10 pages end at 1, 1, 1, 1 and 8, which add up to 12. */
  lemma RebalanceCanMissTotal()
    ensures var r := RebalanceCounts([1, 1, 1, 1, 1000], 10); r == [1, 1, 1, 1, 8] && Sum(r) == 12
  {
    ScaleExample();
    SumFourOnes(10);
    DriftExample();
    SumFourOnes(8);
  }

  lemma SumFourOnes(x: int)
    ensures Sum([1, 1, 1, 1, x]) == 4 + x
  {
    var s := [1, 1, 1, 1, x];
    assert s[..4] == [1, 1, 1, 1];
    SumConst(s[..4], 1);
  }

  /** `max(1, int(ch.get("target_pages", default)))` for every chapter; `int()` may raise. */
  function ClampedCounts(chapters: seq<Fields>, default: int): (r: Result<seq<int>>)
    ensures r.Ok? ==> |r.value| == |chapters| && AllAtLeast(r.value, 1)
    ensures r.Ok? <==> forall i :: 0 <= i < |chapters| ==>
      PyInt(GetDefault(chapters[i], "target_pages", JInt(default))).Some?
  {
    if chapters == [] then Ok([])
    else
      var init :- ClampedCounts(chapters[..|chapters| - 1], default);
      var p := PyInt(GetDefault(chapters[|chapters| - 1], "target_pages", JInt(default)));
      if p.None? then Err(ValueError("int() of target_pages"))
      else Ok(init + [Max1(p.value)])
  }

  /** `for c, p in zip(chapters, pages): c["target_pages"] = p` */
  function SetPages(chapters: seq<Fields>, pages: seq<int>): (r: seq<Fields>)
    requires |pages| == |chapters|
    ensures |r| == |chapters|
    ensures forall i :: 0 <= i < |chapters| ==> r[i] == Set(chapters[i], "target_pages", JInt(pages[i]))
  {
    seq(|chapters|, i requires 0 <= i < |chapters| => Set(chapters[i], "target_pages", JInt(pages[i])))
  }

  /** `rebalance_pages(chapters, total_pages)` of the current version. */
  function RebalancePages(chapters: seq<Fields>, total: int): (r: Result<seq<Fields>>)
    ensures chapters == [] ==> r == Ok([])
    ensures r.Ok? ==> |r.value| == |chapters|
  {
    if chapters == [] then Ok([])
    else
      var raw :- ClampedCounts(chapters, 10);
      Ok(SetPages(chapters, RebalanceCounts(raw, total)))
  }

  /** `rebalance_pages` with its drift loop run as in the source. */
  method RebalancePagesMethod(chapters: seq<Fields>, total: int) returns (r: Result<seq<Fields>>)
    ensures r == RebalancePages(chapters, total)
  {
    if chapters == [] {
      return Ok([]);
    }
    var counts := ClampedCounts(chapters, 10);
    if counts.Err? {
      return Err(counts.error);
    }
    var raw := counts.value;
    SumAtLeastLength(raw);
    var s := Sum(raw);
    if s == total {
      return Ok(SetPages(chapters, raw));
    }
    var scaled := Scale(raw, total, s);
    var fixed, _ := FixDriftLoop(scaled, total - Sum(scaled));
    return Ok(SetPages(chapters, fixed));
  }

  /** Rebalancing keeps the chapters and their order, writes only `target_pages`, and gives every
      chapter at least one page; counts that already add up to the total are kept as clamped. */
  lemma RebalancePagesTouchesOnlyPages(chapters: seq<Fields>, total: int, i: nat, k: string)
    requires i < |chapters|
    ensures var r := RebalancePages(chapters, total);
      r.Ok? ==>
        && (k != "target_pages" ==> Get(r.value[i], k) == Get(chapters[i], k))
        && Get(r.value[i], "target_pages").Some?
        && Get(r.value[i], "target_pages").value.JInt?
        && Get(r.value[i], "target_pages").value.n >= 1
        && Keys(r.value[i]) == (if HasKey(chapters[i], "target_pages") then Keys(chapters[i]) else Keys(chapters[i]) + ["target_pages"])
    ensures var r := RebalancePages(chapters, total);
      r.Ok? && Sum(ClampedCounts(chapters, 10).value) == total ==>
        Get(r.value[i], "target_pages") == Some(JInt(ClampedCounts(chapters, 10).value[i]))
  {
    var r := RebalancePages(chapters, total);
    if r.Ok? {
      var raw := ClampedCounts(chapters, 10).value;
      var pages := RebalanceCounts(raw, total);
      assert r.value[i] == Set(chapters[i], "target_pages", JInt(pages[i]));
      SetGet(chapters[i], "target_pages", JInt(pages[i]), k);
      SetGet(chapters[i], "target_pages", JInt(pages[i]), "target_pages");
      SetKeys(chapters[i], "target_pages", JInt(pages[i]));
    }
  }
}
