/**
 * Keeping the first entry per key, in order, among the entries whose key counts: the reference
 * definition of a uniqueness pass driven by a `seen` set.
 */
module Dedupe {
  import opened Wrappers

  /** The pass itself: `keyOf` computes an entry's key, or fails (None); `seen` holds the keys kept
      so far and `kept` the entries kept so far. An entry is kept when its key counts and is new. */
  function Pass<T, K>(ps: seq<T>, keyOf: T -> Option<K>, counts: K -> bool, seen: set<K>, kept: seq<T>): Option<seq<T>>
    decreases |ps|
  {
    if ps == [] then Some(kept)
    else
      match keyOf(ps[0])
      case None => None
      case Some(k) =>
        if k !in seen && counts(k) then Pass(ps[1..], keyOf, counts, seen + {k}, kept + [ps[0]])
        else Pass(ps[1..], keyOf, counts, seen, kept)
  }

  /** Entry `i` counts and no earlier entry has its key. */
  ghost predicate FirstOfKey<T, K>(ps: seq<T>, key: T -> K, counts: K -> bool, i: nat)
    requires i < |ps|
  {
    counts(key(ps[i])) && forall j :: 0 <= j < i ==> key(ps[j]) != key(ps[i])
  }

  /** The entries that are first of their key, in input order. */
  ghost function Firsts<T, K>(ps: seq<T>, key: T -> K, counts: K -> bool): seq<T>
    decreases |ps|
  {
    if ps == [] then []
    else Firsts(ps[..|ps| - 1], key, counts) + (if FirstOfKey(ps, key, counts, |ps| - 1) then [ps[|ps| - 1]] else [])
  }

  /** The keys that count among the entries. */
  ghost function Seen<T, K>(ps: seq<T>, key: T -> K, counts: K -> bool): set<K>
    decreases |ps|
  {
    if ps == [] then {}
    else Seen(ps[..|ps| - 1], key, counts) + (if counts(key(ps[|ps| - 1])) then {key(ps[|ps| - 1])} else {})
  }

  lemma {:induction false} SeenIs<T, K>(ps: seq<T>, key: T -> K, counts: K -> bool, k: K)
    requires counts(k)
    ensures k in Seen(ps, key, counts) <==> exists j :: 0 <= j < |ps| && key(ps[j]) == k
    decreases |ps|
  {
    if ps != [] {
      var init := ps[..|ps| - 1];
      SeenIs(init, key, counts, k);
      if exists j :: 0 <= j < |init| && key(init[j]) == k {
        var j :| 0 <= j < |init| && key(init[j]) == k;
        assert ps[j] == init[j];
      }
      if exists j :: 0 <= j < |ps| && key(ps[j]) == k {
        var j :| 0 <= j < |ps| && key(ps[j]) == k;
        if j < |init| {
          assert init[j] == ps[j];
        }
      }
    }
  }

  /** One more entry is kept exactly when its key counts and has not been seen, and then its key
      joins the seen ones. */
  lemma FirstsStep<T, K>(ps: seq<T>, key: T -> K, counts: K -> bool, i: nat)
    requires i < |ps|
    ensures var k := key(ps[i]);
      && ((k !in Seen(ps[..i], key, counts) && counts(k)) <==> FirstOfKey(ps, key, counts, i))
      && Firsts(ps[..i + 1], key, counts) == Firsts(ps[..i], key, counts) + (if FirstOfKey(ps, key, counts, i) then [ps[i]] else [])
      && Seen(ps[..i + 1], key, counts) ==
           if k !in Seen(ps[..i], key, counts) && counts(k) then Seen(ps[..i], key, counts) + {k} else Seen(ps[..i], key, counts)
  {
    var k := key(ps[i]);
    var pre := ps[..i + 1];
    assert pre[..i] == ps[..i];
    assert pre[i] == ps[i];
    if counts(k) {
      SeenIs(ps[..i], key, counts, k);
      if exists j :: 0 <= j < i && key(ps[j]) == k {
        var j :| 0 <= j < i && key(ps[j]) == k;
        assert ps[..i][j] == ps[j];
      }
      if exists j :: 0 <= j < |ps[..i]| && key(ps[..i][j]) == k {
        var j :| 0 <= j < |ps[..i]| && key(ps[..i][j]) == k;
        assert ps[..i][j] == ps[j];
      }
    }
    assert forall j :: 0 <= j < i ==> pre[j] == ps[j];
    assert FirstOfKey(pre, key, counts, i) == FirstOfKey(ps, key, counts, i);
  }

  /** What is kept: entries of the input whose keys count, pairwise distinct keys, and every entry
      that is first of its key. */
  lemma {:induction false} FirstsProps<T, K>(ps: seq<T>, key: T -> K, counts: K -> bool)
    ensures forall x :: x in Firsts(ps, key, counts) ==> x in ps && counts(key(x))
    ensures forall a, b :: 0 <= a < b < |Firsts(ps, key, counts)| ==>
              key(Firsts(ps, key, counts)[a]) != key(Firsts(ps, key, counts)[b])
    ensures forall i :: 0 <= i < |ps| && FirstOfKey(ps, key, counts, i) ==> ps[i] in Firsts(ps, key, counts)
    decreases |ps|
  {
    if ps != [] {
      var init := ps[..|ps| - 1];
      var last := ps[|ps| - 1];
      FirstsProps(init, key, counts);
      var f := Firsts(init, key, counts);
      assert forall x :: x in init ==> x in ps;
      var g := Firsts(ps, key, counts);
      assert g == f + (if FirstOfKey(ps, key, counts, |ps| - 1) then [last] else []);
      forall a, b | 0 <= a < b < |g| ensures key(g[a]) != key(g[b]) {
        assert g[a] == f[a];
        if b < |f| {
          assert g[b] == f[b];
        } else {
          assert FirstOfKey(ps, key, counts, |ps| - 1) && g[b] == last;
          assert f[a] in init;
          var j :| 0 <= j < |init| && init[j] == f[a];
          assert ps[j] == init[j];
          assert key(ps[j]) != key(last);
        }
      }
      forall i | 0 <= i < |ps| && FirstOfKey(ps, key, counts, i) ensures ps[i] in Firsts(ps, key, counts) {
        if i < |init| {
          assert init[i] == ps[i];
          assert forall j :: 0 <= j < i ==> init[j] == ps[j];
          assert FirstOfKey(init, key, counts, i);
        }
      }
    }
  }

  /** Every entry whose key counts has its key among the kept ones. */
  lemma {:induction false} FirstsCover<T, K>(ps: seq<T>, key: T -> K, counts: K -> bool, i: nat)
    requires i < |ps| && counts(key(ps[i]))
    ensures exists x :: x in Firsts(ps, key, counts) && key(x) == key(ps[i])
    decreases i
  {
    FirstsProps(ps, key, counts);
    if !FirstOfKey(ps, key, counts, i) {
      var j :| 0 <= j < i && key(ps[j]) == key(ps[i]);
      FirstsCover(ps, key, counts, j);
    }
  }

  /** From any point of the input, the pass carries on as the reference definition does. */
  lemma {:induction false} PassFrom<T, K>(ps: seq<T>, keyOf: T -> Option<K>, key: T -> K, counts: K -> bool, i: nat)
    requires forall x :: keyOf(x).Some? ==> keyOf(x).value == key(x)
    requires i <= |ps|
    ensures Pass(ps[i..], keyOf, counts, Seen(ps[..i], key, counts), Firsts(ps[..i], key, counts)) ==
      if forall j :: i <= j < |ps| ==> keyOf(ps[j]).Some? then Some(Firsts(ps, key, counts)) else None
    decreases |ps| - i
  {
    if i == |ps| {
      assert ps[..i] == ps;
    } else {
      assert ps[i..][0] == ps[i];
      assert ps[i..][1..] == ps[i + 1..];
      if keyOf(ps[i]).Some? {
        var k := key(ps[i]);
        assert keyOf(ps[i]) == Some(k);
        FirstsStep(ps, key, counts, i);
        PassFrom(ps, keyOf, key, counts, i + 1);
        var seen, kept := Seen(ps[..i], key, counts), Firsts(ps[..i], key, counts);
        if k !in seen && counts(k) {
          assert Pass(ps[i..], keyOf, counts, seen, kept) == Pass(ps[i + 1..], keyOf, counts, seen + {k}, kept + [ps[i]]);
        } else {
          assert Pass(ps[i..], keyOf, counts, seen, kept) == Pass(ps[i + 1..], keyOf, counts, seen, kept);
          assert kept + [] == kept;
        }
      }
    }
  }

  /** The pass keeps exactly the entries that are first of their key, in order, and fails exactly
      when some entry has no key. */
  lemma PassIsFirsts<T, K>(ps: seq<T>, keyOf: T -> Option<K>, key: T -> K, counts: K -> bool)
    requires forall x :: keyOf(x).Some? ==> keyOf(x).value == key(x)
    ensures Pass(ps, keyOf, counts, {}, []) ==
      if forall j :: 0 <= j < |ps| ==> keyOf(ps[j]).Some? then Some(Firsts(ps, key, counts)) else None
  {
    assert ps[0..] == ps && ps[..0] == [];
    PassFrom(ps, keyOf, key, counts, 0);
  }
}
