/** Ranking metrics (apps/agent-worker/eval/framework/metrics.py, _ndcg and _reciprocal_rank).

    The discount 1 / log2(index + 1) is any positive, strictly decreasing function of the 1-based index. */
module Ranking {
  import opened Wrappers

  datatype RankedChunk = RankedChunk(chunkId: string, rank: nat, score: real)

  ghost predicate IsDiscount(g: int -> real) {
    && (forall i :: i >= 1 ==> g(i) > 0.0)
    && (forall i, j :: 1 <= i < j ==> g(j) < g(i))
  }

  function Min(a: nat, b: nat): nat {
    if a < b then a else b
  }

  /** The gains of `ranking` when its first element has 1-based index `off + 1`. */
  function Gains(g: int -> real, positives: set<string>, ranking: seq<RankedChunk>, off: nat): real {
    if ranking == [] then 0.0
    else (if ranking[0].chunkId in positives then g(off + 1) else 0.0) + Gains(g, positives, ranking[1..], off + 1)
  }

  function Ideal(g: int -> real, count: nat): real {
    if count == 0 then 0.0 else Ideal(g, count - 1) + g(count)
  }

  function Ndcg(g: int -> real, ranking: seq<RankedChunk>, positives: set<string>, cutoff: nat): real {
    var ideal := Ideal(g, Min(|positives|, cutoff));
    if ideal == 0.0 then 0.0 else Gains(g, positives, ranking[..Min(cutoff, |ranking|)], 0) / ideal
  }

  function FirstHit(ranking: seq<RankedChunk>, positives: set<string>): Option<nat> {
    if ranking == [] then None
    else if ranking[0].chunkId in positives then Some(0)
    else match FirstHit(ranking[1..], positives)
      case None => None
      case Some(i) => Some(i + 1)
  }

  function ReciprocalRank(ranking: seq<RankedChunk>, positives: set<string>): real {
    match FirstHit(ranking, positives)
    case None => 0.0
    case Some(i) => 1.0 / (i + 1) as real
  }

  // ----- how many places hold a positive chunk

  function Hits(positives: set<string>, ranking: seq<RankedChunk>): nat {
    if ranking == [] then 0
    else Hits(positives, ranking[..|ranking| - 1]) + if ranking[|ranking| - 1].chunkId in positives then 1 else 0
  }

  predicate DistinctChunks(ranking: seq<RankedChunk>) {
    forall i, j :: 0 <= i < j < |ranking| ==> ranking[i].chunkId != ranking[j].chunkId
  }

  predicate AllPositive(positives: set<string>, ranking: seq<RankedChunk>, count: nat) {
    count <= |ranking| && forall i :: 0 <= i < count ==> ranking[i].chunkId in positives
  }

  lemma {:induction false} HitsBound(positives: set<string>, ranking: seq<RankedChunk>)
    ensures Hits(positives, ranking) <= |ranking|
    ensures Hits(positives, ranking) == |ranking| <==> AllPositive(positives, ranking, |ranking|)
  {
    if ranking != [] {
      HitsBound(positives, ranking[..|ranking| - 1]);
    }
  }

  /** Distinct chunks hit each positive at most once. */
  lemma {:induction false} DistinctHitsFit(positives: set<string>, ranking: seq<RankedChunk>)
    requires DistinctChunks(ranking)
    ensures Hits(positives, ranking) <= |positives|
    decreases |ranking|
  {
    if ranking != [] {
      var front, last := ranking[..|ranking| - 1], ranking[|ranking| - 1].chunkId;
      if last in positives {
        HitsWithout(positives, front, last);
        DistinctHitsFit(positives - {last}, front);
      } else {
        DistinctHitsFit(positives, front);
      }
    }
  }

  lemma {:induction false} HitsWithout(positives: set<string>, ranking: seq<RankedChunk>, id: string)
    requires forall c <- ranking :: c.chunkId != id
    ensures Hits(positives - {id}, ranking) == Hits(positives, ranking)
  {
    if ranking != [] {
      assert ranking[|ranking| - 1] in ranking;
      HitsWithout(positives, ranking[..|ranking| - 1], id);
    }
  }

  // ----- gains

  lemma {:induction false} GainsSplit(g: int -> real, positives: set<string>, a: seq<RankedChunk>, b: seq<RankedChunk>, off: nat)
    ensures Gains(g, positives, a + b, off) == Gains(g, positives, a, off) + Gains(g, positives, b, off + |a|)
    decreases |a|
  {
    if a == [] {
      assert a + b == b;
    } else {
      assert (a + b)[1..] == a[1..] + b;
      GainsSplit(g, positives, a[1..], b, off + 1);
    }
  }

  lemma GainsSnoc(g: int -> real, positives: set<string>, ranking: seq<RankedChunk>)
    requires ranking != []
    ensures Gains(g, positives, ranking, 0) == Gains(g, positives, ranking[..|ranking| - 1], 0)
      + if ranking[|ranking| - 1].chunkId in positives then g(|ranking|) else 0.0
  {
    var front, last := ranking[..|ranking| - 1], [ranking[|ranking| - 1]];
    assert ranking == front + last && last[1..] == [];
    GainsSplit(g, positives, front, last, 0);
    assert Gains(g, positives, last[1..], |ranking|) == 0.0;
  }

  /** h hits gain at most what the first h places would, and exactly that when they are the first h places. */
  lemma {:induction false} GainsAtMostFront(g: int -> real, positives: set<string>, ranking: seq<RankedChunk>)
    requires IsDiscount(g)
    ensures var h := Hits(positives, ranking);
      && 0.0 <= Gains(g, positives, ranking, 0) <= Ideal(g, h)
      && (Gains(g, positives, ranking, 0) == Ideal(g, h) <==> AllPositive(positives, ranking, h))
  {
    if ranking != [] {
      var front, n := ranking[..|ranking| - 1], |ranking|;
      var h := Hits(positives, front);
      GainsAtMostFront(g, positives, front);
      GainsSnoc(g, positives, ranking);
      HitsBound(positives, front);
      if ranking[n - 1].chunkId in positives {
        assert h + 1 < n ==> g(n) < g(h + 1);
        if AllPositive(positives, ranking, h + 1) && h + 1 < n {
          PrefixHits(positives, front, h + 1);
        }
      }
    }
  }

  lemma {:induction false} PrefixHits(positives: set<string>, ranking: seq<RankedChunk>, count: nat)
    requires AllPositive(positives, ranking, count)
    ensures Hits(positives, ranking) >= count
  {
    if ranking != [] {
      PrefixHits(positives, ranking[..|ranking| - 1], if count == |ranking| then count - 1 else count);
    }
  }

  lemma {:induction false} IdealGrows(g: int -> real, a: nat, b: nat)
    requires IsDiscount(g) && a <= b
    ensures 0.0 <= Ideal(g, a) <= Ideal(g, b)
    ensures a < b ==> Ideal(g, a) < Ideal(g, b)
    decreases b
  {
    if b > 0 {
      IdealGrows(g, if a < b then a else b - 1, b - 1);
    }
  }

  /** NDCG lies in [0, 1] whenever the cut holds no more hits than its ideal counts, and is 1 exactly when the
      first min(|positives|, cutoff) places are all positive. */
  lemma NdcgWithFittingHits(g: int -> real, ranking: seq<RankedChunk>, positives: set<string>, cutoff: nat)
    requires IsDiscount(g) && |positives| > 0 && cutoff > 0
    requires Hits(positives, ranking[..Min(cutoff, |ranking|)]) <= Min(|positives|, cutoff)
    ensures 0.0 <= Ndcg(g, ranking, positives, cutoff) <= 1.0
    ensures Ndcg(g, ranking, positives, cutoff) == 1.0 <==> AllPositive(positives, ranking, Min(|positives|, cutoff))
  {
    var cut, m := ranking[..Min(cutoff, |ranking|)], Min(|positives|, cutoff);
    var h := Hits(positives, cut);
    GainsAtMostFront(g, positives, cut);
    IdealGrows(g, h, m);
    IdealGrows(g, 0, m);
    Quotient(Gains(g, positives, cut, 0), Ideal(g, m));
    if AllPositive(positives, ranking, m) {
      PrefixHits(positives, cut, m);
    }
  }

  lemma Quotient(a: real, b: real)
    requires 0.0 <= a <= b && b > 0.0
    ensures 0.0 <= a / b <= 1.0 && (a / b == 1.0 <==> a == b)
  {
  }

  /** The law of the metric: for every ranking of distinct chunks. */
  lemma NdcgIsNormalised(g: int -> real, ranking: seq<RankedChunk>, positives: set<string>, cutoff: nat)
    requires IsDiscount(g) && |positives| > 0 && cutoff > 0 && DistinctChunks(ranking)
    ensures 0.0 <= Ndcg(g, ranking, positives, cutoff) <= 1.0
    ensures Ndcg(g, ranking, positives, cutoff) == 1.0 <==> AllPositive(positives, ranking, Min(|positives|, cutoff))
  {
    var cut := ranking[..Min(cutoff, |ranking|)];
    DistinctHitsFit(positives, cut);
    HitsBound(positives, cut);
    NdcgWithFittingHits(g, ranking, positives, cutoff);
  }

  // ----- repeated chunk ids

  /** A nearly flat discount. */
  function Flat(base: nat): int -> real {
    i => if i >= 1 then base as real + 1.0 / i as real else 0.0
  }

  lemma Reciprocals(i: int, j: int)
    requires 1 <= i < j
    ensures 0.0 < 1.0 / j as real < 1.0 / i as real <= 1.0
  {
  }

  lemma FlatIsDiscount(base: nat)
    ensures IsDiscount(Flat(base))
  {
    forall i | i >= 1 ensures Flat(base)(i) > 0.0 {
    }
    forall i, j | 1 <= i < j ensures Flat(base)(j) < Flat(base)(i) {
      Reciprocals(i, j);
    }
  }

  lemma {:induction false} FlatIdeal(base: nat, count: nat)
    ensures Ideal(Flat(base), count) <= (count * (base + 1)) as real
  {
    if count > 0 {
      FlatIdeal(base, count - 1);
      Reciprocals(count, count + 1);
    }
  }

  lemma {:induction false} FlatGains(base: nat, positives: set<string>, ranking: seq<RankedChunk>)
    ensures Gains(Flat(base), positives, ranking, 0) >= (Hits(positives, ranking) * base) as real
  {
    if ranking != [] {
      var h := Hits(positives, ranking[..|ranking| - 1]);
      FlatGains(base, positives, ranking[..|ranking| - 1]);
      GainsSnoc(Flat(base), positives, ranking);
      FlatAtLeast(base, |ranking|);
      assert (h + 1) * base == h * base + base;
    }
  }

  lemma FlatAtLeast(base: nat, i: nat)
    requires i >= 1
    ensures Flat(base)(i) >= base as real
  {
    Reciprocals(i, i + 1);
  }

  ghost predicate NeverAboveOne(ranking: seq<RankedChunk>, positives: set<string>, cutoff: nat) {
    forall g: int -> real :: IsDiscount(g) ==> Ndcg(g, ranking, positives, cutoff) <= 1.0
  }

  /** Over the family of all discounts: NDCG stays within 1 under every one of them if and only if the cut holds no
      more hits than min(|positives|, cutoff). A given discount may keep it within 1 also with more hits. */
  lemma NdcgBoundedExactlyWhenHitsFit(ranking: seq<RankedChunk>, positives: set<string>, cutoff: nat)
    requires |positives| > 0 && cutoff > 0
    ensures NeverAboveOne(ranking, positives, cutoff) <==>
      Hits(positives, ranking[..Min(cutoff, |ranking|)]) <= Min(|positives|, cutoff)
  {
    var cut, m := ranking[..Min(cutoff, |ranking|)], Min(|positives|, cutoff);
    var h := Hits(positives, cut);
    if h <= m {
      forall g: int -> real | IsDiscount(g) ensures Ndcg(g, ranking, positives, cutoff) <= 1.0 {
        NdcgWithFittingHits(g, ranking, positives, cutoff);
      }
    } else {
      OverfullBreaks(ranking, positives, cutoff);
    }
  }

  lemma OverfullBreaks(ranking: seq<RankedChunk>, positives: set<string>, cutoff: nat)
    requires |positives| > 0 && cutoff > 0
    requires Hits(positives, ranking[..Min(cutoff, |ranking|)]) > Min(|positives|, cutoff)
    ensures var m := Min(|positives|, cutoff);
      IsDiscount(Flat(m + 1)) && Ndcg(Flat(m + 1), ranking, positives, cutoff) > 1.0
  {
    var cut, m := ranking[..Min(cutoff, |ranking|)], Min(|positives|, cutoff);
    FlatIsDiscount(m + 1);
    FlatIdeal(m + 1, m);
    FlatGains(m + 1, positives, cut);
    Products(Hits(positives, cut), m);
    IdealGrows(Flat(m + 1), 0, m);
    AboveOne(Gains(Flat(m + 1), positives, cut, 0), Ideal(Flat(m + 1), m));
  }

  // ----- which rankings exceed 1 under every discount

  /** A discount that drops steeply after place `p + 1`. */
  function Steep(p: nat, high: nat): int -> real {
    i => if i < 1 then 0.0 else if i <= p + 1 then high as real + 1.0 / i as real else 1.0 / i as real
  }

  lemma SteepIsDiscount(p: nat, high: nat)
    ensures IsDiscount(Steep(p, high))
  {
    var g := Steep(p, high);
    forall i | i >= 1 ensures g(i) > 0.0 {
      Reciprocals(i, i + 1);
    }
    forall i, j | 1 <= i < j ensures g(j) < g(i) {
      Reciprocals(i, j);
    }
  }

  lemma SteepAt(p: nat, high: nat, i: nat)
    requires i >= 1
    ensures Steep(p, high)(i) <= if i <= p + 1 then (high + 1) as real else 1.0
    ensures Steep(p, high)(i) >= if i <= p + 1 then high as real else 0.0
  {
    Reciprocals(i, i + 1);
    if i > 1 {
      Reciprocals(1, i);
    }
  }

  lemma {:induction false} SteepIdeal(p: nat, high: nat, count: nat)
    ensures Ideal(Steep(p, high), count) >= (Min(count, p + 1) * high) as real
  {
    if count > 0 {
      SteepIdeal(p, high, count - 1);
      SteepAt(p, high, count);
      if count <= p + 1 {
        assert count * high == (count - 1) * high + high;
      }
    }
  }

  lemma OneMorePlace(p: nat, n: nat, h: nat)
    requires n > 0
    ensures Min(p, n) * h == Min(p, n - 1) * h + if n <= p then h else 0
  {
    if n <= p {
      assert n * h == (n - 1) * h + h;
    }
  }

  /** Without a hit at place `p + 1`, only `p` places gain much. */
  lemma {:induction false} SteepGains(p: nat, high: nat, positives: set<string>, ranking: seq<RankedChunk>)
    requires p < |ranking| ==> ranking[p].chunkId !in positives
    ensures Gains(Steep(p, high), positives, ranking, 0) <= (Min(p, |ranking|) * (high + 1) + |ranking|) as real
  {
    if ranking != [] {
      var n := |ranking|;
      SteepGains(p, high, positives, ranking[..n - 1]);
      GainsSnoc(Steep(p, high), positives, ranking);
      SteepAt(p, high, n);
      OneMorePlace(p, n, high + 1);
      hide Gains, Steep, Min;
    }
  }

  lemma AtMostOne(a: real, b: real)
    requires a <= b && b > 0.0
    ensures a / b <= 1.0
  {
  }

  /** Some place of the ideal front is missed: a steep discount keeps NDCG within 1. */
  lemma MissedFrontCanStayBelow(ranking: seq<RankedChunk>, positives: set<string>, cutoff: nat, p: nat)
    requires |positives| > 0 && cutoff > 0 && p < Min(|positives|, cutoff)
    requires p < |ranking| ==> ranking[p].chunkId !in positives
    ensures exists g: int -> real :: IsDiscount(g) && Ndcg(g, ranking, positives, cutoff) <= 1.0
  {
    var cut, m := ranking[..Min(cutoff, |ranking|)], Min(|positives|, cutoff);
    var high := p + |cut|;
    var g := Steep(p, high);
    SteepIsDiscount(p, high);
    SteepIdeal(p, high, m);
    SteepGains(p, high, positives, cut);
    IdealGrows(g, 0, m);
    SteepBalance(p, |cut|);
    AtMostOne(Gains(g, positives, cut, 0), Ideal(g, m));
  }

  lemma SteepBalance(p: nat, n: nat)
    ensures Min(p, n) * (p + n + 1) + n <= (p + 1) * (p + n)
  {
    if p <= n {
      assert p * (p + n + 1) + n == (p + 1) * (p + n);
    } else {
      assert n * (p + n + 1) <= p * (p + n + 1);
    }
  }

  /** Hits that follow an ideal front only add to it. */
  lemma MoreThanIdeal(g: int -> real, ranking: seq<RankedChunk>, positives: set<string>, cutoff: nat)
    requires IsDiscount(g) && |positives| > 0 && cutoff > 0
    requires var m := Min(|positives|, cutoff);
      AllPositive(positives, ranking, m) && Hits(positives, ranking[..Min(cutoff, |ranking|)]) > m
    ensures Ndcg(g, ranking, positives, cutoff) > 1.0
  {
    var cut, m := ranking[..Min(cutoff, |ranking|)], Min(|positives|, cutoff);
    assert AllPositive(positives, cut, m);
    FrontGains(g, positives, cut, m);
    IdealGrows(g, 0, m);
    AboveOne(Gains(g, positives, cut, 0), Ideal(g, m));
  }

  lemma {:induction false} FrontGains(g: int -> real, positives: set<string>, ranking: seq<RankedChunk>, m: nat)
    requires IsDiscount(g) && AllPositive(positives, ranking, m)
    ensures Gains(g, positives, ranking, 0) >= Ideal(g, m)
    ensures Hits(positives, ranking) > m ==> Gains(g, positives, ranking, 0) > Ideal(g, m)
  {
    if ranking != [] {
      var front := ranking[..|ranking| - 1];
      GainsSnoc(g, positives, ranking);
      if m == |ranking| {
        HitsBound(positives, ranking);
        FrontGains(g, positives, front, m - 1);
      } else {
        FrontGains(g, positives, front, m);
      }
    }
  }

  ghost predicate AlwaysAboveOne(ranking: seq<RankedChunk>, positives: set<string>, cutoff: nat) {
    forall g: int -> real :: IsDiscount(g) ==> Ndcg(g, ranking, positives, cutoff) > 1.0
  }

  /** NDCG exceeds 1 under every discount, the logarithmic one included, if and only if the ideal front is all positive
      and the cut holds further hits. */
  lemma NdcgAboveOneExactlyWhen(ranking: seq<RankedChunk>, positives: set<string>, cutoff: nat)
    requires |positives| > 0 && cutoff > 0
    ensures var m := Min(|positives|, cutoff);
      AlwaysAboveOne(ranking, positives, cutoff)
      <==> AllPositive(positives, ranking, m) && Hits(positives, ranking[..Min(cutoff, |ranking|)]) > m
  {
    var cut, m := ranking[..Min(cutoff, |ranking|)], Min(|positives|, cutoff);
    if AllPositive(positives, ranking, m) && Hits(positives, cut) > m {
      forall g: int -> real | IsDiscount(g) ensures Ndcg(g, ranking, positives, cutoff) > 1.0 {
        MoreThanIdeal(g, ranking, positives, cutoff);
      }
    } else if Hits(positives, cut) <= m {
      FlatIsDiscount(0);
      NdcgWithFittingHits(Flat(0), ranking, positives, cutoff);
    } else {
      var p := FirstMiss(positives, ranking, m);
      MissedFrontCanStayBelow(ranking, positives, cutoff, p);
    }
  }

  lemma FirstMiss(positives: set<string>, ranking: seq<RankedChunk>, m: nat) returns (p: nat)
    requires !AllPositive(positives, ranking, m)
    ensures p < m && (p < |ranking| ==> ranking[p].chunkId !in positives)
  {
    if m > |ranking| {
      p := |ranking|;
    } else {
      p :| p < m && ranking[p].chunkId !in positives;
    }
  }

  /** A positive chunk ranked again right behind an all-positive front raises NDCG above 1 under every discount. */
  lemma RepeatedHitExceedsOne(g: int -> real, ranking: seq<RankedChunk>, positives: set<string>, cutoff: nat)
    requires IsDiscount(g) && |positives| > 0
    requires var m := Min(|positives|, cutoff); m + 1 <= cutoff && AllPositive(positives, ranking, m + 1)
    ensures Ndcg(g, ranking, positives, cutoff) > 1.0
  {
    var cut, m := ranking[..Min(cutoff, |ranking|)], Min(|positives|, cutoff);
    assert AllPositive(positives, cut, m + 1);
    PrefixHits(positives, cut, m + 1);
    MoreThanIdeal(g, ranking, positives, cutoff);
  }

  lemma Products(h: nat, m: nat)
    requires h > m
    ensures h * (m + 1) > m * (m + 1 + 1)
  {
    assert h * (m + 1) >= (m + 1) * (m + 1);
  }

  lemma AboveOne(a: real, b: real)
    requires a > b > 0.0
    ensures a / b > 1.0
  {
  }

  // ----- exchanging neighbours

  function Swapped(ranking: seq<RankedChunk>, i: nat): seq<RankedChunk>
    requires i + 1 < |ranking|
  {
    ranking[i := ranking[i + 1]][i + 1 := ranking[i]]
  }

  lemma SwapGains(g: int -> real, positives: set<string>, ranking: seq<RankedChunk>, i: nat)
    requires i + 1 < |ranking| && ranking[i].chunkId !in positives && ranking[i + 1].chunkId in positives
    ensures Gains(g, positives, Swapped(ranking, i), 0) == Gains(g, positives, ranking, 0) + g(i + 1) - g(i + 2)
  {
    var front, back := ranking[..i], ranking[i + 2..];
    var x, y := ranking[i], ranking[i + 1];
    assert ranking == front + ([x, y] + back) && Swapped(ranking, i) == front + ([y, x] + back);
    GainsSplit(g, positives, front, [x, y] + back, 0);
    GainsSplit(g, positives, front, [y, x] + back, 0);
    PairGains(g, positives, x, y, back, i);
    PairGains(g, positives, y, x, back, i);
  }

  lemma PairGains(g: int -> real, positives: set<string>, x: RankedChunk, y: RankedChunk, back: seq<RankedChunk>, off: nat)
    ensures Gains(g, positives, [x, y] + back, off) ==
      (if x.chunkId in positives then g(off + 1) else 0.0) + (if y.chunkId in positives then g(off + 2) else 0.0)
      + Gains(g, positives, back, off + 2)
  {
    assert ([x, y] + back)[1..] == [y] + back && ([y] + back)[1..] == back;
  }

  /** Moving a positive chunk one place up past a non-positive one, inside the cutoff, strictly raises NDCG and
      never lowers the reciprocal rank. */
  lemma PromotionPays(g: int -> real, ranking: seq<RankedChunk>, positives: set<string>, cutoff: nat, i: nat)
    requires IsDiscount(g) && |positives| > 0 && i + 1 < Min(cutoff, |ranking|)
    requires ranking[i].chunkId !in positives && ranking[i + 1].chunkId in positives
    ensures Ndcg(g, Swapped(ranking, i), positives, cutoff) > Ndcg(g, ranking, positives, cutoff)
    ensures ReciprocalRank(Swapped(ranking, i), positives) >= ReciprocalRank(ranking, positives)
  {
    var k, ideal := Min(cutoff, |ranking|), Ideal(g, Min(|positives|, cutoff));
    assert Swapped(ranking, i)[..k] == Swapped(ranking[..k], i);
    SwapGains(g, positives, ranking[..k], i);
    IdealGrows(g, 0, Min(|positives|, cutoff));
    Divide(Gains(g, positives, ranking[..k], 0), Gains(g, positives, Swapped(ranking[..k], i), 0), ideal);
    PromotionKeepsRank(ranking, positives, i);
  }

  lemma FirstHitMovesUp(ranking: seq<RankedChunk>, positives: set<string>, i: nat)
    requires i + 1 < |ranking| && ranking[i].chunkId !in positives && ranking[i + 1].chunkId in positives
    ensures FirstHit(ranking, positives).Some? && FirstHit(Swapped(ranking, i), positives).Some?
    ensures FirstHit(Swapped(ranking, i), positives).value <= FirstHit(ranking, positives).value
  {
    var other := Swapped(ranking, i);
    assert ranking[i + 1] in ranking && other[i] in other;
    FirstHitIs(ranking, positives);
    FirstHitIs(other, positives);
    var before, after := FirstHit(ranking, positives).value, FirstHit(other, positives).value;
    if before < i {
      assert other[before] == ranking[before];
    } else {
      assert before == i + 1;
    }
  }

  lemma PromotionKeepsRank(ranking: seq<RankedChunk>, positives: set<string>, i: nat)
    requires i + 1 < |ranking| && ranking[i].chunkId !in positives && ranking[i + 1].chunkId in positives
    ensures ReciprocalRank(Swapped(ranking, i), positives) >= ReciprocalRank(ranking, positives)
  {
    FirstHitMovesUp(ranking, positives, i);
    var before, after := FirstHit(ranking, positives).value, FirstHit(Swapped(ranking, i), positives).value;
    if after < before {
      Reciprocals(after + 1, before + 1);
    }
  }

  lemma Divide(a: real, b: real, c: real)
    requires a < b && c > 0.0
    ensures a / c < b / c
  {
  }

  /** The first hit is the least index holding a positive chunk. */
  lemma {:induction false} FirstHitIs(ranking: seq<RankedChunk>, positives: set<string>)
    ensures match FirstHit(ranking, positives)
      case None => forall c <- ranking :: c.chunkId !in positives
      case Some(i) =>
        && i < |ranking| && ranking[i].chunkId in positives
        && forall j :: 0 <= j < i ==> ranking[j].chunkId !in positives
  {
    if ranking != [] {
      FirstHitIs(ranking[1..], positives);
    }
  }

  /** The reciprocal rank is positive exactly when some positive chunk is ranked, and 1 exactly when it is first. */
  lemma ReciprocalRankBounds(ranking: seq<RankedChunk>, positives: set<string>)
    ensures 0.0 <= ReciprocalRank(ranking, positives) <= 1.0
    ensures ReciprocalRank(ranking, positives) > 0.0 <==> exists c <- ranking :: c.chunkId in positives
    ensures ReciprocalRank(ranking, positives) == 1.0 <==> ranking != [] && ranking[0].chunkId in positives
  {
    FirstHitIs(ranking, positives);
    if FirstHit(ranking, positives).Some? {
      var i := FirstHit(ranking, positives).value;
      assert ranking[i] in ranking;
      if i > 0 {
        Reciprocals(1, i + 1);
      }
    }
  }
}
