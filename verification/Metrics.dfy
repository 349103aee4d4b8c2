/**
  The discounted cumulative gain of benchmarks/persian/metrics.py, for any positive and strictly
  decreasing gain in place of 1 / log2(rank + 1).
 */
module Metrics {
  import opened Prelude
  import opened Ordering

  /** The gain of a relevant document by rank, counted from 1. */
  type Gain = nat -> real

  ghost predicate Decreasing(gain: Gain) {
    && (forall i: nat :: gain(i) > 0.0)
    && forall i: nat, j: nat :: i < j ==> gain(j) < gain(i)
  }

  // ----- Specification

  /** The gains of the relevant documents among the first ones of the ranking. */
  function Dcg(relevant: set<string>, ranked: seq<string>, gain: Gain): real {
    if ranked == [] then 0.0
    else
      var n := |ranked| - 1;
      Dcg(relevant, ranked[..n], gain) + if ranked[n] in relevant then gain(n + 1) else 0.0
  }

  function IdealDcg(hits: nat, gain: Gain): real {
    if hits == 0 then 0.0 else IdealDcg(hits - 1, gain) + gain(hits)
  }

  function Smaller(a: int, b: int): int {
    if a <= b then a else b
  }

  function Ndcg(relevant: set<string>, ranked: seq<string>, k: int, gain: Gain): real {
    var idealHits := Smaller(|relevant|, k);
    if idealHits == 0 then 0.0
    else
      var idcg := if idealHits < 0 then 0.0 else IdealDcg(idealHits, gain);
      if idcg > 0.0 then Dcg(relevant, Prefix(ranked, k), gain) / idcg else 0.0
  }

  // ----- The algorithm

  method DcgAtK(relevant: set<string>, ranked: seq<string>, k: int, gain: Gain) returns (score: real)
    ensures score == Dcg(relevant, Prefix(ranked, k), gain)
  {
    score := 0.0;
    var top := Prefix(ranked, k);
    for i := 0 to |top|
      invariant score == Dcg(relevant, top[..i], gain)
    {
      assert top[..i + 1][..i] == top[..i];
      if top[i] in relevant {
        score := score + gain(i + 1);
      }
    }
    assert top[..|top|] == top;
  }

  method NdcgAtK(relevant: set<string>, ranked: seq<string>, k: int, gain: Gain) returns (score: real)
    ensures score == Ndcg(relevant, ranked, k, gain)
  {
    var dcg := DcgAtK(relevant, ranked, k, gain);
    var idealHits := Smaller(|relevant|, k);
    if idealHits == 0 {
      return 0.0;
    }
    var idcg := 0.0;
    var i := 1;
    while i < idealHits + 1
      invariant 1 <= i && (idealHits < 0 ==> idcg == 0.0)
                && (idealHits >= 0 ==> i <= idealHits + 1 && idcg == IdealDcg(i - 1, gain))
    {
      idcg := idcg + gain(i);
      i := i + 1;
    }
    return if idcg > 0.0 then dcg / idcg else 0.0;
  }

  // ----- Main result

  function Hits(relevant: set<string>, ranked: seq<string>): set<string> {
    set d | d in ranked && d in relevant
  }

  ghost predicate Distinct(ranked: seq<string>) {
    forall i, j :: 0 <= i < j < |ranked| ==> ranked[i] != ranked[j]
  }

  lemma {:induction false} IdealGrows(a: nat, b: nat, gain: Gain)
    requires Decreasing(gain) && a <= b
    ensures 0.0 <= IdealDcg(a, gain) <= IdealDcg(b, gain)
    ensures a < b ==> IdealDcg(a, gain) < IdealDcg(b, gain)
  {
    if a < b {
      IdealGrows(a, b - 1, gain);
    } else if b > 0 {
      IdealGrows(a - 1, b - 1, gain);
    }
  }

  /** The first `h` documents of the ranking are relevant. */
  predicate RelevantFirst(relevant: set<string>, ranked: seq<string>, h: nat) {
    h <= |ranked| && forall i :: 0 <= i < h ==> ranked[i] in relevant
  }

  /**
    With `h` relevant documents, the gain is at most the ideal one for `h`, and reaches it
    exactly when they come first.
   */
  lemma {:induction false} DcgIsAtMostIdeal(relevant: set<string>, ranked: seq<string>, gain: Gain)
    requires Decreasing(gain) && Distinct(ranked)
    ensures AtMostIdeal(relevant, ranked, gain)
  {
    if ranked == [] {
      assert Hits(relevant, ranked) == {};
    } else {
      var n := |ranked| - 1;
      DcgIsAtMostIdeal(relevant, ranked[..n], gain);
      if ranked[n] in relevant {
        RelevantLast(relevant, ranked, gain);
      } else {
        IrrelevantLast(relevant, ranked, gain);
      }
    }
  }

  /** What `DcgIsAtMostIdeal` says. */
  ghost predicate AtMostIdeal(relevant: set<string>, ranked: seq<string>, gain: Gain) {
    var h := |Hits(relevant, ranked)|;
    && h <= |ranked| && 0.0 <= Dcg(relevant, ranked, gain) <= IdealDcg(h, gain)
    && (Dcg(relevant, ranked, gain) == IdealDcg(h, gain) <==> RelevantFirst(relevant, ranked, h))
  }

  lemma RelevantLast(relevant: set<string>, ranked: seq<string>, gain: Gain)
    requires Decreasing(gain) && Distinct(ranked) && ranked != [] && ranked[|ranked| - 1] in relevant
    requires AtMostIdeal(relevant, ranked[..|ranked| - 1], gain)
    ensures AtMostIdeal(relevant, ranked, gain)
  {
    var n := |ranked| - 1;
    var init, d := ranked[..n], ranked[n];
    var h := |Hits(relevant, init)|;
    LastHitAdds(relevant, ranked, gain);
    assert IdealDcg(h + 1, gain) == IdealDcg(h, gain) + gain(h + 1);
    hide Hits, Dcg, IdealDcg, Distinct;
    assert gain(n + 1) > 0.0 && gain(n + 1) <= gain(h + 1) && (h < n ==> gain(n + 1) < gain(h + 1));
    if h == n {
      assert RelevantFirst(relevant, init, n) <==> RelevantFirst(relevant, ranked, n + 1);
    } else if RelevantFirst(relevant, ranked, h + 1) {
      assert forall i :: 0 <= i < h ==> init[i] == ranked[i];
      FirstAndMore(relevant, ranked, h);
    }
  }

  lemma LastHitAdds(relevant: set<string>, ranked: seq<string>, gain: Gain)
    requires Distinct(ranked) && ranked != [] && ranked[|ranked| - 1] in relevant
    ensures var n := |ranked| - 1;
            && |Hits(relevant, ranked)| == |Hits(relevant, ranked[..n])| + 1
            && Dcg(relevant, ranked, gain) == Dcg(relevant, ranked[..n], gain) + gain(n + 1)
  {
    var n := |ranked| - 1;
    assert ranked[n] !in ranked[..n];
    assert Hits(relevant, ranked) == Hits(relevant, ranked[..n]) + {ranked[n]};
  }

  /** When the first `h + 1` documents are relevant there are more than `h` hits before the last. */
  lemma FirstAndMore(relevant: set<string>, ranked: seq<string>, h: nat)
    requires Distinct(ranked) && h + 1 < |ranked| && RelevantFirst(relevant, ranked, h + 1)
    ensures |Hits(relevant, ranked[..|ranked| - 1])| > h
  {
    FirstAreHits(relevant, ranked[..|ranked| - 1], h + 1);
  }

  lemma IrrelevantLast(relevant: set<string>, ranked: seq<string>, gain: Gain)
    requires Decreasing(gain) && Distinct(ranked) && ranked != [] && ranked[|ranked| - 1] !in relevant
    requires AtMostIdeal(relevant, ranked[..|ranked| - 1], gain)
    ensures AtMostIdeal(relevant, ranked, gain)
  {
    var n := |ranked| - 1;
    var init := ranked[..n];
    assert Hits(relevant, ranked) == Hits(relevant, init);
    hide Hits;
    assert forall i :: 0 <= i < |Hits(relevant, init)| ==> init[i] == ranked[i];
  }

  lemma HitsAreFew(relevant: set<string>, top: seq<string>)
    requires Distinct(top)
    ensures |Hits(relevant, top)| <= |relevant|
  {
    assert Hits(relevant, top) <= relevant;
    SubsetSize(Hits(relevant, top), relevant);
  }

  lemma QuotientBounds(a: real, b: real)
    requires 0.0 <= a <= b && b > 0.0
    ensures 0.0 <= a / b <= 1.0 && (a / b == 1.0 <==> a == b)
  {
    var q := a / b;
    assert q * b == a;
  }

  /**
    For a ranking without duplicates the normalized gain lies between 0 and 1; it is 1 exactly
    when as many relevant documents as there could be fill the first ranks.
   */
  lemma NdcgIsNormalized(relevant: set<string>, ranked: seq<string>, k: int, gain: Gain)
    requires Decreasing(gain) && Distinct(ranked)
    ensures 0.0 <= Ndcg(relevant, ranked, k, gain) <= 1.0
    ensures var m := Smaller(|relevant|, k);
            m > 0 ==> (Ndcg(relevant, ranked, k, gain) == 1.0 <==> RelevantFirst(relevant, ranked, m))
  {
    var m := Smaller(|relevant|, k);
    if m > 0 {
      var top := Prefix(ranked, k);
      var h := |Hits(relevant, top)|;
      DcgIsAtMostIdeal(relevant, top, gain);
      HitsAreFew(relevant, top);
      IdealGrows(0, m, gain);
      IdealGrows(h, m, gain);
      QuotientBounds(Dcg(relevant, top, gain), IdealDcg(m, gain));
      if RelevantFirst(relevant, ranked, m) {
        FirstAreHits(relevant, top, m);
      }
    }
  }

  lemma FirstAreHits(relevant: set<string>, top: seq<string>, m: nat)
    requires Distinct(top) && m <= |top| && forall i :: 0 <= i < m ==> top[i] in relevant
    ensures |Hits(relevant, top)| >= m
  {
    DistinctSize(top[..m]);
    var front := set d | d in top[..m];
    assert front <= Hits(relevant, top);
    SubsetSize(front, Hits(relevant, top));
  }

  lemma {:induction false} DistinctSize(s: seq<string>)
    requires Distinct(s)
    ensures |set d | d in s| == |s|
  {
    if s != [] {
      var n := |s| - 1;
      DistinctSize(s[..n]);
      assert (set d | d in s) == (set d | d in s[..n]) + {s[n]};
    }
  }

  /**
    The normalized gain is the quotient of the gains by the greatest possible: multiplied with
    the sum of the first gains, as many as relevant documents can be ranked, it gives the sum
    of the gains of the relevant documents at their ranks.
   */
  lemma NdcgIsQuotient(relevant: set<string>, ranked: seq<string>, k: nat, gain: Gain)
    requires Decreasing(gain)
    ensures var top := if k < |ranked| then ranked[..k] else ranked;
            var m := if |relevant| < k then |relevant| else k;
            && (m > 0 ==>
                  Ndcg(relevant, ranked, k, gain) * Sum(m, gain, (i: nat) => true)
                  == Sum(|top|, gain, (i: nat) => 0 < i <= |top| && top[i - 1] in relevant))
            && (m == 0 ==> Ndcg(relevant, ranked, k, gain) == 0.0)
  {
    var top := Prefix(ranked, k);
    var m := Smaller(|relevant|, k);
    IdealGrows(0, m, gain);
    IdealIsSum(m, gain);
    DcgIsSum(relevant, top, gain);
    if m > 0 {
      var dcg, idcg := Dcg(relevant, top, gain), IdealDcg(m, gain);
      assert dcg / idcg * idcg == dcg;
    }
  }

  /** The gains of the ranks up to `n` that satisfy `p`. */
  function Sum(n: nat, gain: Gain, p: nat -> bool): real {
    if n == 0 then 0.0 else Sum(n - 1, gain, p) + if p(n) then gain(n) else 0.0
  }

  lemma {:induction false} SumAgrees(n: nat, gain: Gain, p: nat -> bool, q: nat -> bool)
    requires forall i :: 0 < i <= n ==> p(i) == q(i)
    ensures Sum(n, gain, p) == Sum(n, gain, q)
  {
    if n > 0 {
      SumAgrees(n - 1, gain, p, q);
    }
  }

  lemma {:induction false} IdealIsSum(n: nat, gain: Gain)
    ensures IdealDcg(n, gain) == Sum(n, gain, (i: nat) => true)
  {
    if n > 0 {
      IdealIsSum(n - 1, gain);
    }
  }

  lemma {:induction false} DcgIsSum(relevant: set<string>, top: seq<string>, gain: Gain)
    ensures Dcg(relevant, top, gain) == Sum(|top|, gain, (i: nat) => 0 < i <= |top| && top[i - 1] in relevant)
  {
    if top != [] {
      var n := |top| - 1;
      DcgIsSum(relevant, top[..n], gain);
      SumAgrees(n, gain, (i: nat) => 0 < i <= |top[..n]| && top[..n][i - 1] in relevant,
                (i: nat) => 0 < i <= |top| && top[i - 1] in relevant);
    }
  }
}
