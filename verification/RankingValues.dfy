/** The values of NDCG and the reciprocal rank, stated apart from the functions that compute them
    (apps/agent-worker/eval/framework/metrics.py:223-239). */
module RankingValues {
  import opened Wrappers
  import opened Ranking

  /** g(lo) + ... + g(hi). */
  function Over(g: int -> real, lo: int, hi: int): real
    decreases hi - lo
  {
    if lo > hi then 0.0 else g(lo) + Over(g, lo + 1, hi)
  }

  /** The discounts of the places among the first `n` that hold a positive chunk. */
  function Earned(g: int -> real, positives: set<string>, ranking: seq<RankedChunk>, n: nat): real
    requires n <= |ranking|
  {
    if n == 0 then 0.0
    else Earned(g, positives, ranking, n - 1) + if ranking[n - 1].chunkId in positives then g(n) else 0.0
  }

  /** How many of the places 1, 2, ... count towards the ideal. */
  function Places(positives: set<string>, cutoff: nat): nat {
    if |positives| <= cutoff then |positives| else cutoff
  }

  function Cut(ranking: seq<RankedChunk>, cutoff: nat): nat {
    if cutoff <= |ranking| then cutoff else |ranking|
  }

  lemma {:induction false} OverSnoc(g: int -> real, lo: int, hi: int)
    requires lo <= hi
    ensures Over(g, lo, hi) == Over(g, lo, hi - 1) + g(hi)
    decreases hi - lo
  {
    if lo < hi {
      OverSnoc(g, lo + 1, hi);
    }
  }

  lemma {:induction false} IdealIsOver(g: int -> real, m: nat)
    ensures Ideal(g, m) == Over(g, 1, m)
  {
    if m > 0 {
      IdealIsOver(g, m - 1);
      OverSnoc(g, 1, m);
    }
  }

  lemma {:induction false} OverIsPositive(g: int -> real, m: nat)
    requires IsDiscount(g)
    ensures m > 0 ==> Over(g, 1, m) > 0.0
  {
    if m > 0 {
      OverIsPositive(g, m - 1);
      OverSnoc(g, 1, m);
    }
  }

  lemma {:induction false} GainsAreEarned(g: int -> real, positives: set<string>, ranking: seq<RankedChunk>, n: nat)
    requires n <= |ranking|
    ensures Gains(g, positives, ranking[..n], 0) == Earned(g, positives, ranking, n)
  {
    if n > 0 {
      GainsAreEarned(g, positives, ranking, n - 1);
      GainsSnoc(g, positives, ranking[..n]);
      assert ranking[..n][..n - 1] == ranking[..n - 1];
    }
  }

  lemma TimesQuotient(a: real, n: real)
    requires n > 0.0
    ensures a / n * n == a
  {
  }

  lemma NdcgIsQuotient(g: int -> real, ranking: seq<RankedChunk>, positives: set<string>, cutoff: nat)
    requires IsDiscount(g)
    ensures Places(positives, cutoff) > 0 ==>
      && Over(g, 1, Places(positives, cutoff)) > 0.0
      && Ndcg(g, ranking, positives, cutoff)
         == Earned(g, positives, ranking, Cut(ranking, cutoff)) / Over(g, 1, Places(positives, cutoff))
    ensures Places(positives, cutoff) == 0 ==> Ndcg(g, ranking, positives, cutoff) == 0.0
  {
    var m := Places(positives, cutoff);
    IdealIsOver(g, m);
    OverIsPositive(g, m);
    GainsAreEarned(g, positives, ranking, Cut(ranking, cutoff));
    hide Over, Earned, Gains, IsDiscount;
  }

  /** NDCG times the discounts of the first min(positives, cutoff) places is the discounts of the places hit inside the
      cutoff, for every ranking, also one that repeats chunks. Without positives or places it is 0. */
  lemma NdcgIs(g: int -> real, ranking: seq<RankedChunk>, positives: set<string>, cutoff: nat)
    requires IsDiscount(g)
    ensures Places(positives, cutoff) > 0 ==>
      && Over(g, 1, Places(positives, cutoff)) > 0.0
      && Ndcg(g, ranking, positives, cutoff) * Over(g, 1, Places(positives, cutoff))
         == Earned(g, positives, ranking, Cut(ranking, cutoff))
    ensures Places(positives, cutoff) == 0 ==> Ndcg(g, ranking, positives, cutoff) == 0.0
  {
    NdcgIsQuotient(g, ranking, positives, cutoff);
    hide Ndcg, Over, Earned, IsDiscount, Places, Cut;
    if Places(positives, cutoff) > 0 {
      TimesQuotient(Earned(g, positives, ranking, Cut(ranking, cutoff)), Over(g, 1, Places(positives, cutoff)));
    }
  }

  lemma {:induction false} EarnedAtOnePlace(g: int -> real, positives: set<string>, ranking: seq<RankedChunk>, n: nat, i: nat)
    requires n <= |ranking|
    requires forall j :: 0 <= j < n ==> (ranking[j].chunkId in positives <==> j == i)
    ensures Earned(g, positives, ranking, n) == if i < n then g(i + 1) else 0.0
  {
    if n > 0 {
      EarnedAtOnePlace(g, positives, ranking, n - 1, i);
    }
  }

  /** The only hit inside the cutoff, at place i, earns exactly g(i) of the ideal; no hit earns nothing. */
  lemma OnlyHitEarnsItsPlace(g: int -> real, ranking: seq<RankedChunk>, positives: set<string>, cutoff: nat, i: nat)
    requires IsDiscount(g) && Places(positives, cutoff) > 0
    requires forall j :: 0 <= j < Cut(ranking, cutoff) ==> (ranking[j].chunkId in positives <==> j == i)
    ensures Ndcg(g, ranking, positives, cutoff) * Over(g, 1, Places(positives, cutoff))
            == if i < Cut(ranking, cutoff) then g(i + 1) else 0.0
  {
    hide Ndcg, Over, IsDiscount, Places;
    NdcgIs(g, ranking, positives, cutoff);
    EarnedAtOnePlace(g, positives, ranking, Cut(ranking, cutoff), i);
  }

  lemma {:induction false} EarnedAdds(g: int -> real, p: set<string>, q: set<string>, ranking: seq<RankedChunk>, n: nat)
    requires p !! q && n <= |ranking|
    ensures Earned(g, p + q, ranking, n) == Earned(g, p, ranking, n) + Earned(g, q, ranking, n)
  {
    if n > 0 {
      EarnedAdds(g, p, q, ranking, n - 1);
    }
  }

  /** NDCG times the ideal. */
  function Shares(g: int -> real, ranking: seq<RankedChunk>, positives: set<string>, cutoff: nat): real {
    Ndcg(g, ranking, positives, cutoff) * Over(g, 1, Places(positives, cutoff))
  }

  /** What disjoint sets of positives earn, NDCG times the ideal, adds up. */
  lemma NdcgAddsUp(g: int -> real, ranking: seq<RankedChunk>, p: set<string>, q: set<string>, cutoff: nat)
    requires IsDiscount(g) && p !! q && Places(p, cutoff) > 0 && Places(q, cutoff) > 0
    ensures Places(p + q, cutoff) > 0
    ensures Shares(g, ranking, p + q, cutoff) == Shares(g, ranking, p, cutoff) + Shares(g, ranking, q, cutoff)
  {
    assert |p + q| == |p| + |q|;
    EarnedAdds(g, p, q, ranking, Cut(ranking, cutoff));
    Equation(g, ranking, p + q, cutoff);
    Equation(g, ranking, p, cutoff);
    Equation(g, ranking, q, cutoff);
    hide Shares, Earned, IsDiscount, Cut, Places;
  }

  lemma Equation(g: int -> real, ranking: seq<RankedChunk>, positives: set<string>, cutoff: nat)
    requires IsDiscount(g) && Places(positives, cutoff) > 0
    ensures Shares(g, ranking, positives, cutoff) == Earned(g, positives, ranking, Cut(ranking, cutoff))
  {
    NdcgIs(g, ranking, positives, cutoff);
    hide Ndcg, Over, Earned, IsDiscount, Cut, Places;
  }

  lemma QuotientGap(a: real, b: real, n: real)
    requires n > 0.0
    ensures a / n - b / n == (a - b) / n
  {
  }

  /** Promoting a hit by one place changes NDCG by exactly the difference of the two discounts over the ideal. */
  lemma PromotionGainIs(g: int -> real, ranking: seq<RankedChunk>, positives: set<string>, cutoff: nat, i: nat)
    requires IsDiscount(g) && |positives| > 0 && i + 1 < Cut(ranking, cutoff)
    requires ranking[i].chunkId !in positives && ranking[i + 1].chunkId in positives
    ensures Over(g, 1, Places(positives, cutoff)) > 0.0
    ensures Ndcg(g, Swapped(ranking, i), positives, cutoff) - Ndcg(g, ranking, positives, cutoff)
            == (g(i + 1) - g(i + 2)) / Over(g, 1, Places(positives, cutoff))
  {
    var n, m := Cut(ranking, cutoff), Places(positives, cutoff);
    var cut := ranking[..n];
    SwapGains(g, positives, cut, i);
    assert Swapped(ranking, i)[..n] == Swapped(cut, i);
    IdealIsOver(g, m);
    OverIsPositive(g, m);
    hide Gains, Over, IsDiscount, Swapped;
    QuotientGap(Gains(g, positives, Swapped(cut, i), 0), Gains(g, positives, cut, 0), Over(g, 1, m));
  }

  /** The reciprocal rank times the first place with a positive chunk is one; without such a place it is 0. */
  lemma ReciprocalRankIs(ranking: seq<RankedChunk>, positives: set<string>, i: nat)
    requires i <= |ranking| && forall j :: 0 <= j < i ==> ranking[j].chunkId !in positives
    ensures i < |ranking| && ranking[i].chunkId in positives ==>
      ReciprocalRank(ranking, positives) * (i + 1) as real == 1.0
    ensures i == |ranking| ==> ReciprocalRank(ranking, positives) == 0.0
  {
    FirstHitIs(ranking, positives);
  }
}
