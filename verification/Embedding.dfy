/** Retrieval by similarity: rank_chunks (apps/agent-worker/eval/runners/pipeline_eval.py) and the embedding
    stage (apps/agent-worker/eval/framework/metrics.py). */
module Embedding {
  import opened Wrappers
  import opened Similarity

  datatype Scored = Scored(index: nat, score: real)

  /** The similarities of the query to each vector, or the first error. */
  function Similarities(root: real -> real, query: Vector, vectors: seq<Vector>): Result<seq<real>, string> {
    if vectors == [] then Ok([])
    else
      var first := Cosine(root, query, vectors[0]);
      var rest := Similarities(root, query, vectors[1..]);
      if first.Err? then Err(first.error)
      else if rest.Err? then rest
      else Ok([first.value] + rest.value)
  }

  /** sorted(..., key=(-score, index)): better scores first, earlier chunks first among equals. */
  predicate Before(a: Scored, b: Scored) {
    a.score > b.score || (a.score == b.score && a.index < b.index)
  }

  function Insert(x: Scored, sorted: seq<Scored>): seq<Scored> {
    if sorted == [] || Before(x, sorted[0]) then [x] + sorted else [sorted[0]] + Insert(x, sorted[1..])
  }

  function Sort(s: seq<Scored>): seq<Scored> {
    if s == [] then [] else Insert(s[0], Sort(s[1..]))
  }

  function Number(scores: seq<real>, from: nat): seq<Scored> {
    if scores == [] then [] else [Scored(from, scores[0])] + Number(scores[1..], from + 1)
  }

  /** A Python slice [:limit]. */
  function Upto<T>(s: seq<T>, limit: int): seq<T> {
    if limit >= |s| then s
    else if limit >= 0 then s[..limit]
    else if |s| + limit >= 0 then s[..|s| + limit]
    else []
  }

  function RankChunks(root: real -> real, query: Vector, vectors: seq<Vector>, limit: int): Result<seq<Scored>, string> {
    match Similarities(root, query, vectors)
    case Err(e) => Err(e)
    case Ok(scores) => Ok(Upto(Sort(Number(scores, 0)), limit))
  }

  predicate Ranked(s: seq<Scored>) {
    forall i, j :: 0 <= i < j < |s| ==> Before(s[i], s[j])
  }

  predicate DistinctIndexes(s: seq<Scored>) {
    forall i, j :: 0 <= i < j < |s| ==> s[i].index != s[j].index
  }

  lemma BeforeChains(a: Scored, b: Scored, c: Scored)
    requires Before(a, b) && Before(b, c)
    ensures Before(a, c)
  {
  }

  lemma PrependRanks(x: Scored, s: seq<Scored>)
    requires Ranked(s) && (s == [] || Before(x, s[0]))
    ensures Ranked([x] + s)
  {
    var r := [x] + s;
    hide Before;
    forall i, j | 0 <= i < j < |r| ensures Before(r[i], r[j]) {
      assert r[j] == s[j - 1];
      if i > 0 {
        assert Before(s[i - 1], s[j - 1]);
      } else if j > 1 {
        assert Before(s[0], s[j - 1]);
        BeforeChains(x, s[0], s[j - 1]);
      }
    }
  }

  lemma {:induction false} InsertKeeps(x: Scored, sorted: seq<Scored>)
    ensures multiset(Insert(x, sorted)) == multiset{x} + multiset(sorted)
  {
    hide Before;
    if sorted != [] {
      assert sorted == [sorted[0]] + sorted[1..];
      InsertKeeps(x, sorted[1..]);
    }
  }

  /** The head of an insertion is the new element or the old head. */
  lemma InsertHead(x: Scored, sorted: seq<Scored>)
    ensures Insert(x, sorted) != []
    ensures Insert(x, sorted)[0] == x || (sorted != [] && Insert(x, sorted)[0] == sorted[0])
  {
  }

  lemma TailRanks(s: seq<Scored>)
    requires s != [] && Ranked(s)
    ensures Ranked(s[1..]) && (|s| > 1 ==> Before(s[0], s[1]))
  {
  }

  lemma {:induction false} InsertRanks(x: Scored, sorted: seq<Scored>)
    requires Ranked(sorted) && forall y <- sorted :: y.index != x.index
    ensures Ranked(Insert(x, sorted))
  {
    hide Ranked;
    if sorted == [] || Before(x, sorted[0]) {
      PrependRanks(x, sorted);
    } else {
      TailRanks(sorted);
      assert sorted[0] in sorted && forall z <- sorted[1..] :: z in sorted;
      InsertRanks(x, sorted[1..]);
      InsertHead(x, sorted[1..]);
      PrependRanks(sorted[0], Insert(x, sorted[1..]));
    }
  }

  lemma {:induction false} SortRanks(s: seq<Scored>)
    requires DistinctIndexes(s)
    ensures Ranked(Sort(s)) && multiset(Sort(s)) == multiset(s)
  {
    if s != [] {
      assert s == [s[0]] + s[1..];
      SortRanks(s[1..]);
      forall y <- Sort(s[1..]) ensures y.index != s[0].index {
        assert y in multiset(s[1..]);
      }
      InsertRanks(s[0], Sort(s[1..]));
      InsertKeeps(s[0], Sort(s[1..]));
    }
  }

  /** The order is strict, so a ranking is determined by what it ranks. */
  lemma {:induction false} RankingIsUnique(a: seq<Scored>, b: seq<Scored>)
    requires Ranked(a) && Ranked(b) && multiset(a) == multiset(b)
    ensures a == b
  {
    if a == [] {
      assert |multiset(b)| == 0;
    } else {
      SameFirst(a, b);
      assert a == [a[0]] + a[1..] && b == [b[0]] + b[1..];
      assert multiset(a[1..]) == multiset(a) - multiset{a[0]};
      assert multiset(b[1..]) == multiset(b) - multiset{b[0]};
      RankingIsUnique(a[1..], b[1..]);
    }
  }

  lemma SameFirst(a: seq<Scored>, b: seq<Scored>)
    requires Ranked(a) && Ranked(b) && multiset(a) == multiset(b) && a != []
    ensures b != [] && a[0] == b[0]
  {
    assert a[0] in multiset(a) && a[0] in multiset(b);
    assert b[0] in multiset(b) && b[0] in multiset(a);
    var i :| 0 <= i < |a| && a[i] == b[0];
    var j :| 0 <= j < |b| && b[j] == a[0];
    assert i > 0 ==> Before(a[0], a[i]);
    assert j > 0 ==> Before(b[0], b[j]);
  }

  lemma {:induction false} NumberIs(scores: seq<real>, from: nat)
    ensures |Number(scores, from)| == |scores|
    ensures forall i :: 0 <= i < |scores| ==> Number(scores, from)[i] == Scored(from + i, scores[i])
  {
    if scores != [] {
      NumberIs(scores[1..], from + 1);
    }
  }

  /** rank_chunks returns the front of the one ranking of all chunks: nothing left out ranks before anything kept. */
  lemma RankChunksIsTheBest(root: real -> real, query: Vector, vectors: seq<Vector>, limit: nat, ranking: seq<Scored>)
    requires Similarities(root, query, vectors).Ok?
    requires Ranked(ranking) && multiset(ranking) == multiset(Number(Similarities(root, query, vectors).value, 0))
    ensures RankChunks(root, query, vectors, limit) == Ok(Upto(ranking, limit))
    ensures forall i, j :: 0 <= i < |Upto(ranking, limit)| <= j < |ranking| ==> Before(Upto(ranking, limit)[i], ranking[j])
  {
    var all := Number(Similarities(root, query, vectors).value, 0);
    NumberIs(Similarities(root, query, vectors).value, 0);
    SortRanks(all);
    RankingIsUnique(ranking, Sort(all));
  }

  lemma {:induction false} SimilaritiesIgnoreScale(root: real -> real, c: real, query: Vector, vectors: seq<Vector>)
    requires IsRoot(root) && c > 0.0
    ensures Similarities(root, Scale(c, query), vectors) == Similarities(root, query, vectors)
  {
    hide Cosine, Scale;
    if vectors != [] {
      CosineIgnoresScale(root, c, query, vectors[0]);
      SimilaritiesIgnoreScale(root, c, query, vectors[1..]);
    }
  }

  /** Scaling the query by a positive factor changes neither the ranking nor a score. */
  lemma RankingIgnoresScale(root: real -> real, c: real, query: Vector, vectors: seq<Vector>, limit: int)
    requires IsRoot(root) && c > 0.0
    ensures RankChunks(root, Scale(c, query), vectors, limit) == RankChunks(root, query, vectors, limit)
  {
    hide Scale, Similarities;
    SimilaritiesIgnoreScale(root, c, query, vectors);
  }

  // ----- the embedding stage

  function Sum(s: seq<real>): real {
    if s == [] then 0.0 else s[0] + Sum(s[1..])
  }

  function Mean(s: seq<real>): real
    requires s != []
  {
    Sum(s) / |s| as real
  }

  /** How many of `negatives` lie below `positive`. */
  function Below(positive: real, negatives: seq<real>): nat {
    if negatives == [] then 0 else (if positive > negatives[0] then 1 else 0) + Below(positive, negatives[1..])
  }

  function OrderedPairs(positives: seq<real>, negatives: seq<real>): nat {
    if positives == [] then 0 else Below(positives[0], negatives) + OrderedPairs(positives[1..], negatives)
  }

  datatype StageMetrics = StageMetrics(positiveMean: real, negativeMean: real, margin: real, accuracy: real)

  /** The metrics of evaluate_embedding_stage, given the similarities. */
  function Metrics(positives: seq<real>, negatives: seq<real>): StageMetrics
    requires positives != []
  {
    var pairs := |positives| * |negatives|;
    var accuracy := if pairs != 0 then OrderedPairs(positives, negatives) as real / pairs as real else 1.0;
    var positiveMean := Mean(positives);
    var negativeMean := if negatives != [] then Mean(negatives) else 0.0;
    StageMetrics(positiveMean, negativeMean, positiveMean - negativeMean, accuracy)
  }

  function EvaluateEmbedding(root: real -> real, query: Vector, positives: seq<Vector>, negatives: seq<Vector>)
    : Result<StageMetrics, string>
  {
    if positives == [] then Err("embedding evaluation needs a positive vector")
    else
      var p, n := Similarities(root, query, positives), Similarities(root, query, negatives);
      if p.Err? then Err(p.error)
      else if n.Err? then Err(n.error)
      else if p.value == [] then Err("embedding evaluation needs a positive vector")
      else Ok(Metrics(p.value, n.value))
  }

  predicate AllAbove(positives: seq<real>, negatives: seq<real>) {
    forall p <- positives :: BeatsAll(p, negatives)
  }

  predicate BeatsAll(p: real, negatives: seq<real>) {
    forall n <- negatives :: p > n
  }

  lemma ForallCons<T(!new)>(s: seq<T>, holds: T -> bool)
    requires s != []
    ensures (forall x <- s :: holds(x)) <==> holds(s[0]) && forall x <- s[1..] :: holds(x)
  {
    assert s[0] in s && forall x <- s[1..] :: x in s;
    assert forall x <- s :: x == s[0] || x in s[1..];
  }

  lemma {:induction false} BelowCounts(p: real, negatives: seq<real>)
    ensures Below(p, negatives) <= |negatives|
    ensures Below(p, negatives) == |negatives| <==> BeatsAll(p, negatives)
  {
    if negatives != [] {
      BelowCounts(p, negatives[1..]);
      ForallCons(negatives, n => p > n);
    }
  }

  lemma ProductStep(a: nat, b: nat)
    requires a > 0
    ensures a * b == b + (a - 1) * b
  {
  }

  lemma {:induction false} PairsCount(positives: seq<real>, negatives: seq<real>)
    ensures OrderedPairs(positives, negatives) <= |positives| * |negatives|
    ensures OrderedPairs(positives, negatives) == |positives| * |negatives| <==> AllAbove(positives, negatives)
  {
    hide BeatsAll, Below;
    if positives != [] {
      PairsCount(positives[1..], negatives);
      BelowCounts(positives[0], negatives);
      ForallCons(positives, p => BeatsAll(p, negatives));
      ProductStep(|positives|, |negatives|);
    }
  }

  lemma {:induction false} SumBounds(s: seq<real>, low: real, high: real)
    requires forall x <- s :: low <= x <= high
    ensures Mul(low, |s| as real) <= Sum(s) <= Mul(high, |s| as real)
  {
    hide Mul;
    if s == [] {
      OneMore(low, -1);
      OneMore(high, -1);
    } else {
      assert s[0] in s && forall x <- s[1..] :: x in s;
      SumBounds(s[1..], low, high);
      OneMore(low, |s[1..]|);
      OneMore(high, |s[1..]|);
    }
  }

  lemma OneMore(x: real, n: int)
    ensures Mul(x, (n + 1) as real) == Mul(x, n as real) + x
    ensures Mul(x, 0.0) == 0.0
  {
    assert (n + 1) as real == n as real + 1.0;
  }

  lemma MeanBounds(s: seq<real>, low: real, high: real)
    requires s != [] && forall x <- s :: low <= x <= high
    ensures low <= Mean(s) <= high
  {
    hide Mul, Sum;
    SumBounds(s, low, high);
    DivideBounds(Sum(s), |s| as real, low, high);
  }

  lemma DivideBounds(x: real, n: real, low: real, high: real)
    requires n > 0.0 && Mul(low, n) <= x <= Mul(high, n)
    ensures low <= x / n <= high
  {
  }

  lemma {:induction false} Extremes(s: seq<real>) returns (low: real, high: real)
    requires s != []
    ensures low in s && high in s && forall x <- s :: low <= x <= high
  {
    low, high := s[0], s[0];
    if |s| > 1 {
      assert s == [s[0]] + s[1..];
      low, high := Extremes(s[1..]);
      low := if s[0] < low then s[0] else low;
      high := if s[0] > high then s[0] else high;
    }
  }

  lemma Whole(a: nat, b: nat)
    requires b > 0
    ensures (a as real / b as real == 1.0) <==> a == b
  {
  }

  /** Pairwise accuracy is 1 exactly when every positive beats every hard negative, and with at least one hard
      negative that forces a strictly positive margin. */
  lemma FullAccuracyMeansMargin(positives: seq<real>, negatives: seq<real>)
    requires positives != []
    ensures Metrics(positives, negatives).accuracy == 1.0 <==> AllAbove(positives, negatives)
    ensures negatives != [] && Metrics(positives, negatives).accuracy == 1.0 ==> Metrics(positives, negatives).margin > 0.0
  {
    PairsCount(positives, negatives);
    if negatives != [] {
      Whole(OrderedPairs(positives, negatives), |positives| * |negatives|);
      if AllAbove(positives, negatives) {
        var lowP, highP := Extremes(positives);
        var lowN, highN := Extremes(negatives);
        MeanBounds(positives, lowP, highP);
        MeanBounds(negatives, lowN, highN);
      }
    }
  }

  lemma {:induction false} SimilaritiesAreBounded(root: real -> real, query: Vector, vectors: seq<Vector>)
    requires IsRoot(root) && Similarities(root, query, vectors).Ok?
    ensures |Similarities(root, query, vectors).value| == |vectors|
    ensures forall x <- Similarities(root, query, vectors).value :: -1.0 <= x <= 1.0
  {
    hide Cosine;
    if vectors != [] {
      CosineIsBounded(root, query, vectors[0]);
      SimilaritiesAreBounded(root, query, vectors[1..]);
    }
  }

  /** The stage's means are similarities again, and its margin is at most 2 either way. */
  lemma StageIsBounded(root: real -> real, query: Vector, positives: seq<Vector>, negatives: seq<Vector>)
    requires IsRoot(root) && EvaluateEmbedding(root, query, positives, negatives).Ok?
    ensures var m := EvaluateEmbedding(root, query, positives, negatives).value;
      -1.0 <= m.positiveMean <= 1.0 && -1.0 <= m.negativeMean <= 1.0 && -2.0 <= m.margin <= 2.0
  {
    hide Similarities;
    SimilaritiesAreBounded(root, query, positives);
    SimilaritiesAreBounded(root, query, negatives);
    var p, n := Similarities(root, query, positives).value, Similarities(root, query, negatives).value;
    MeanBounds(p, -1.0, 1.0);
    if n != [] {
      MeanBounds(n, -1.0, 1.0);
    }
  }

  // ----- the values of ranking and stage

  lemma {:induction false} SimilaritiesAre(root: real -> real, query: Vector, vectors: seq<Vector>)
    ensures Similarities(root, query, vectors).Ok? <==> forall v <- vectors :: Cosine(root, query, v).Ok?
    ensures Similarities(root, query, vectors).Ok? ==>
      && |Similarities(root, query, vectors).value| == |vectors|
      && forall i :: 0 <= i < |vectors| ==>
           Cosine(root, query, vectors[i]) == Ok(Similarities(root, query, vectors).value[i])
  {
    hide Cosine;
    if vectors != [] {
      SimilaritiesAre(root, query, vectors[1..]);
      assert forall v :: v in vectors <==> v == vectors[0] || v in vectors[1..];
    }
  }

  /** How many results a limit leaves of `n`: a negative limit drops as many from the end. */
  function Shown(n: nat, limit: int): nat {
    if limit >= n then n else if limit >= 0 then limit else if n + limit >= 0 then n + limit else 0
  }

  /** The ranking of all chunks: every number once, each with its own similarity, in falling order. */
  ghost predicate RankingOf(root: real -> real, query: Vector, vectors: seq<Vector>, sorted: seq<Scored>) {
    && |sorted| == |vectors| && Ranked(sorted)
    && (forall k :: 0 <= k < |sorted| ==>
          sorted[k].index < |vectors| && Cosine(root, query, vectors[sorted[k].index]) == Ok(sorted[k].score))
    && (forall c: nat :: c < |vectors| ==> Holds(sorted, c))
  }

  predicate Holds(sorted: seq<Scored>, c: nat) {
    exists j :: 0 <= j < |sorted| && sorted[j].index == c
  }

  lemma AllAreRanked(root: real -> real, query: Vector, vectors: seq<Vector>)
    requires Similarities(root, query, vectors).Ok?
    ensures RankingOf(root, query, vectors, Sort(Number(Similarities(root, query, vectors).value, 0)))
  {
    hide Cosine, Sort, Number;
    SimilaritiesAre(root, query, vectors);
    var scores := Similarities(root, query, vectors).value;
    var all := Number(scores, 0);
    NumberIs(scores, 0);
    SortRanks(all);
    var sorted := Sort(all);
    assert |sorted| == |multiset(sorted)| == |multiset(all)| == |all|;
    forall k | 0 <= k < |sorted|
      ensures sorted[k].index < |vectors| && Cosine(root, query, vectors[sorted[k].index]) == Ok(sorted[k].score)
    {
      assert sorted[k] in multiset(sorted) && sorted[k] in multiset(all);
    }
    forall c: nat | c < |vectors| ensures Holds(sorted, c) {
      assert all[c] in multiset(all) && all[c] in multiset(sorted);
    }
  }

  /** The first results of a ranking: each with its own similarity, in falling order, and none left out that ranks before
      one shown. */
  ghost predicate FrontOf(root: real -> real, query: Vector, vectors: seq<Vector>, r: seq<Scored>) {
    && (forall k :: 0 <= k < |r| ==>
          r[k].index < |vectors| && Cosine(root, query, vectors[r[k].index]) == Ok(r[k].score))
    && (forall j, k :: 0 <= j < k < |r| ==>
          r[j].score > r[k].score || (r[j].score == r[k].score && r[j].index < r[k].index))
    && (forall c: nat, k :: c < |vectors| && 0 <= k < |r| && Cosine(root, query, vectors[c]).Ok? ==>
          || Holds(r, c)
          || Cosine(root, query, vectors[c]).value < r[k].score
          || (Cosine(root, query, vectors[c]).value == r[k].score && r[k].index < c))
  }

  lemma FrontOfRanking(root: real -> real, query: Vector, vectors: seq<Vector>, sorted: seq<Scored>, n: nat)
    requires RankingOf(root, query, vectors, sorted) && n <= |sorted|
    ensures FrontOf(root, query, vectors, sorted[..n])
  {
    hide Cosine;
    var r := sorted[..n];
    forall c: nat, k | c < |vectors| && 0 <= k < |r| && Cosine(root, query, vectors[c]).Ok? && !Holds(r, c)
      ensures Before(r[k], Scored(c, Cosine(root, query, vectors[c]).value))
    {
      assert Holds(sorted, c);
      var j :| 0 <= j < |sorted| && sorted[j].index == c;
      assert Before(sorted[k], sorted[j]);
    }
  }

  /** What rank_chunks returns, for every limit: the chunks of the highest similarities, each with its own, higher ones
      first and equal ones by index; it fails exactly when some similarity does. */
  lemma RankChunksReturns(root: real -> real, query: Vector, vectors: seq<Vector>, limit: int)
    ensures RankChunks(root, query, vectors, limit).Ok? <==> forall v <- vectors :: Cosine(root, query, v).Ok?
    ensures RankChunks(root, query, vectors, limit).Ok? ==>
      var r := RankChunks(root, query, vectors, limit).value;
      |r| == Shown(|vectors|, limit) && FrontOf(root, query, vectors, r)
  {
    hide Cosine, Sort, Number, FrontOf;
    SimilaritiesAre(root, query, vectors);
    if RankChunks(root, query, vectors, limit).Ok? {
      AllAreRanked(root, query, vectors);
      var sorted := Sort(Number(Similarities(root, query, vectors).value, 0));
      assert |sorted| == |vectors|;
      FrontOfRanking(root, query, vectors, sorted, Shown(|vectors|, limit));
      hide Similarities, RankingOf;
      assert Upto(sorted, limit) == sorted[..Shown(|vectors|, limit)];
    }
  }

  lemma {:induction false} SumFromTheEnd(s: seq<real>)
    requires s != []
    ensures Sum(s) == Sum(s[..|s| - 1]) + s[|s| - 1]
  {
    if |s| > 1 {
      SumFromTheEnd(s[1..]);
      assert s[1..][..|s| - 2] == s[..|s| - 1][1..];
    }
  }

  /** The pairs of a positive and a hard negative in which the positive is more similar. */
  function Won(positives: seq<real>, negatives: seq<real>): set<(int, int)> {
    set i, j | 0 <= i < |positives| && 0 <= j < |negatives| && positives[i] > negatives[j] :: (i, j)
  }

  lemma {:induction false} BelowIs(x: real, negatives: seq<real>)
    ensures Below(x, negatives) == |Beaten(x, negatives)|
  {
    if negatives == [] {
      assert Beaten(x, negatives) == {};
    } else {
      var rest := Beaten(x, negatives[1..]);
      var moved := set j <- rest :: j + 1;
      BelowIs(x, negatives[1..]);
      SameSizeBy(rest, moved, j => j + 1);
      assert Beaten(x, negatives) == moved + if x > negatives[0] then {0} else {} by {
        forall j | j in Beaten(x, negatives) && j > 0 ensures j in moved {
          assert j - 1 in rest;
        }
      }
    }
  }

  function Beaten(x: real, negatives: seq<real>): set<int> {
    set j | 0 <= j < |negatives| && x > negatives[j]
  }

  function Right(j: int): (int, int) {
    (0, j)
  }

  function FirstRow(x: real, negatives: seq<real>): set<(int, int)> {
    set j <- Beaten(x, negatives) :: Right(j)
  }

  function Down(pair: (int, int)): (int, int) {
    (pair.0 + 1, pair.1)
  }

  lemma WonCons(positives: seq<real>, negatives: seq<real>)
    requires positives != []
    ensures var rest := set w <- Won(positives[1..], negatives) :: Down(w);
      Won(positives, negatives) == FirstRow(positives[0], negatives) + rest && FirstRow(positives[0], negatives) !! rest
  {
    var won, rest := Won(positives[1..], negatives), set w <- Won(positives[1..], negatives) :: Down(w);
    forall w | w in Won(positives, negatives) ensures w in FirstRow(positives[0], negatives) + rest {
      if w.0 > 0 {
        assert (w.0 - 1, w.1) in won && Down((w.0 - 1, w.1)) == w;
      } else {
        assert w.1 in Beaten(positives[0], negatives) && Right(w.1) == w;
      }
    }
    forall w | w in rest ensures w in Won(positives, negatives) && w.0 > 0 {
      var v :| v in won && w == Down(v);
    }
  }

  lemma FirstRowIs(x: real, negatives: seq<real>)
    ensures |FirstRow(x, negatives)| == Below(x, negatives)
  {
    BelowIs(x, negatives);
    SameSizeBy(Beaten(x, negatives), FirstRow(x, negatives), Right);
  }

  lemma {:induction false} OrderedPairsAre(positives: seq<real>, negatives: seq<real>)
    ensures OrderedPairs(positives, negatives) == |Won(positives, negatives)|
  {
    if positives == [] {
      assert Won(positives, negatives) == {};
    } else {
      WonCons(positives, negatives);
      FirstRowIs(positives[0], negatives);
      OrderedPairsAre(positives[1..], negatives);
      var won := Won(positives[1..], negatives);
      SameSizeBy(won, set w <- won :: Down(w), Down);
      hide Won, FirstRow, Down;
    }
  }

  lemma {:induction false} SameSizeBy<S(!new), T(!new)>(a: set<S>, b: set<T>, f: S -> T)
    requires forall x, y :: x in a && y in a && f(x) == f(y) ==> x == y
    requires b == set x <- a :: f(x)
    ensures |b| == |a|
    decreases |a|
  {
    if a != {} {
      var x :| x in a;
      var rest := set y <- a - {x} :: f(y);
      SameSizeBy(a - {x}, rest, f);
      assert b == rest + {f(x)} && f(x) !in rest;
    } else {
      assert b == {};
    }
  }

  lemma TimesQuotient(a: real, n: real)
    requires n > 0.0
    ensures a / n * n == a
  {
  }

  /** The four values of the stage: the two means times their numbers are the sums, the margin is their difference, and
      the accuracy times the number of pairs is the number of pairs won; without hard negatives their mean is 0 and the
      accuracy 1. */
  lemma StageIs(positives: seq<real>, negatives: seq<real>)
    requires positives != []
    ensures var m := Metrics(positives, negatives);
      && m.positiveMean * |positives| as real == Sum(positives) && m.margin == m.positiveMean - m.negativeMean
      && (if negatives == [] then m.negativeMean == 0.0 && m.accuracy == 1.0
          else
            && m.negativeMean * |negatives| as real == Sum(negatives)
            && m.accuracy * (|positives| * |negatives|) as real == |Won(positives, negatives)| as real)
  {
    hide Sum, OrderedPairs, Won;
    OrderedPairsAre(positives, negatives);
    TimesQuotient(Sum(positives), |positives| as real);
    if negatives != [] {
      var pairs := |positives| * |negatives|;
      assert pairs > 0;
      TimesQuotient(Sum(negatives), |negatives| as real);
      TimesQuotient(OrderedPairs(positives, negatives) as real, pairs as real);
    }
  }

  /** The stage is evaluated exactly when there is a positive vector and every vector has a similarity to the query; its
      metrics are those of exactly these similarities, positives and hard negatives apart. */
  lemma EvaluateEmbeddingIs(root: real -> real, query: Vector, positives: seq<Vector>, negatives: seq<Vector>)
    ensures EvaluateEmbedding(root, query, positives, negatives).Ok?
            <==> && positives != [] && (forall v <- positives :: Cosine(root, query, v).Ok?)
                 && (forall v <- negatives :: Cosine(root, query, v).Ok?)
    ensures EvaluateEmbedding(root, query, positives, negatives).Ok? ==>
      exists p: seq<real>, n: seq<real> ::
        && AreSimilarities(root, query, positives, p) && AreSimilarities(root, query, negatives, n) && p != []
        && EvaluateEmbedding(root, query, positives, negatives) == Ok(Metrics(p, n))
  {
    SimilaritiesAre(root, query, positives);
    SimilaritiesAre(root, query, negatives);
    hide Cosine, Similarities, Metrics;
    if EvaluateEmbedding(root, query, positives, negatives).Ok? {
      var p, n := Similarities(root, query, positives).value, Similarities(root, query, negatives).value;
      assert AreSimilarities(root, query, positives, p) && AreSimilarities(root, query, negatives, n);
    }
  }

  predicate AreSimilarities(root: real -> real, query: Vector, vectors: seq<Vector>, values: seq<real>) {
    |values| == |vectors| && forall i :: 0 <= i < |vectors| ==> Cosine(root, query, vectors[i]) == Ok(values[i])
  }
}
