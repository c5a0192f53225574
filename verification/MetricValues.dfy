/** The values of the retrieval metrics and the limits of the default policy, in numbers
    (apps/agent-worker/eval/framework/metrics.py:104-220, failure_mining.py:15-114). */
module MetricValues {
  import opened Wrappers
  import opened Ranking
  import opened FailureMining

  /** The chunks of `wanted` at one of the first `k` places. */
  function Among(ranking: seq<RankedChunk>, k: nat, wanted: set<string>): set<string> {
    set id <- wanted | exists i :: 0 <= i < k && i < |ranking| && ranking[i].chunkId == id
  }

  /** `rate` is `part` out of `whole`, and 1 of nothing. */
  predicate IsShare(rate: real, part: nat, whole: nat) {
    if whole == 0 then rate == 1.0 else rate * whole as real == part as real
  }

  lemma RatioIsShare(part: nat, whole: nat)
    ensures IsShare(Ratio(part, whole), part, whole)
  {
  }

  lemma AmongIs(ranking: seq<RankedChunk>, k: nat, wanted: set<string>)
    ensures Ids(Front(ranking, k)) * wanted == Among(ranking, k, wanted)
    ensures |Front(ranking, k)| == if k <= |ranking| then k else |ranking|
  {
    var front := Front(ranking, k);
    forall id | id in Among(ranking, k, wanted) ensures id in Ids(front) {
      var i :| 0 <= i < k && i < |ranking| && ranking[i].chunkId == id;
      assert front[i] == ranking[i];
    }
    forall id | id in Ids(front) * wanted ensures id in Among(ranking, k, wanted) {
      var i :| 0 <= i < |front| && front[i].chunkId == id;
      assert ranking[i].chunkId == id;
    }
  }

  /** The four values at one cutoff: of the positives, how many are among the first places; of those places, how many
      hold a positive; whether any does; and how many hold a hard negative. */
  lemma MetricsAtAre(sample: Sample, ranking: seq<RankedChunk>, prefix: Stage, k: nat)
    ensures var m := MetricsAt(sample, ranking, prefix, k);
      var hits, hard := Among(ranking, k, sample.positives), Among(ranking, k, sample.hardNegatives);
      var places := if k <= |ranking| then k else |ranking|;
      && |m| == 4 && (forall x <- m :: x.stage == prefix)
      && m[0].id == Recall(prefix, k) && IsShare(m[0].value, |hits|, |sample.positives|)
      && m[1].id == Precision(prefix, k) && IsShare(m[1].value, |hits|, places)
      && m[2].id == HitRate(prefix, k) && m[2].value == (if hits != {} then 1.0 else 0.0)
      && m[3].id == Intrusion(prefix, k) && IsShare(m[3].value, |hard|, places)
  {
    var hits, hard := Among(ranking, k, sample.positives), Among(ranking, k, sample.hardNegatives);
    AmongIs(ranking, k, sample.positives);
    AmongIs(ranking, k, sample.hardNegatives);
    RatioIsShare(|hits|, |sample.positives|);
    RatioIsShare(|hits|, |Front(ranking, k)|);
    RatioIsShare(|hard|, |Front(ranking, k)|);
    hide Among, Ids, Front, Ratio, IsShare;
  }

  function All(ranking: seq<RankedChunk>, wanted: set<string>): set<string> {
    Among(ranking, |ranking|, wanted)
  }

  /** The positives that are in the context. */
  function Reached(sample: Sample): set<string> {
    set p <- sample.positives | p in sample.context
  }

  /** The four values of the later stages: what reranking gains for the first positive, how many of the positive
      candidates it loses, how many positives reach the context, and whether the context was cut. */
  lemma StageMetricsAre(sample: Sample)
    ensures var m := StageMetrics(sample);
      var found, kept := All(sample.candidates, sample.positives), All(sample.reranked, sample.positives);
      && |m| == 4
      && m[0] == Metric(MrrDelta, Reranker,
                        ReciprocalRank(sample.reranked, sample.positives) - ReciprocalRank(sample.candidates, sample.positives))
      && m[1].id == EvidenceDropRate && m[1].stage == Reranker && IsShare(m[1].value, |found - kept|, |found|)
      && m[2].id == ContextRecall && m[2].stage == ContextAssembly
      && IsShare(m[2].value, |Reached(sample)|, |sample.positives|)
      && m[3] == Metric(ContextTruncated, ContextAssembly, if sample.truncated then 1.0 else 0.0)
  {
    var found, kept := All(sample.candidates, sample.positives), All(sample.reranked, sample.positives);
    DropRateIs(sample);
    ContextIs(sample);
    RatioIsShare(|Members(sample.context) * sample.positives|, |sample.positives|);
    hide All, Reached, Ids, Members, Ratio, IsShare, ReciprocalRank;
  }

  lemma DropRateIs(sample: Sample)
    ensures var found, kept := All(sample.candidates, sample.positives), All(sample.reranked, sample.positives);
      IsShare(StageMetrics(sample)[1].value, |found - kept|, |found|)
  {
    var found, kept := All(sample.candidates, sample.positives), All(sample.reranked, sample.positives);
    AllIs(sample.candidates, sample.positives);
    AllIs(sample.reranked, sample.positives);
    RatioIsShare(|found - kept|, |found|);
    hide All, Ids, Members, Ratio, IsShare, ReciprocalRank;
  }

  lemma AllIs(ranking: seq<RankedChunk>, wanted: set<string>)
    ensures Ids(ranking) * wanted == All(ranking, wanted)
  {
    AmongIs(ranking, |ranking|, wanted);
    assert Front(ranking, |ranking|) == ranking;
  }

  lemma ContextIs(sample: Sample)
    ensures Members(sample.context) * sample.positives == Reached(sample)
  {
  }

  predicate Largest(k: int, cutoffs: seq<int>) {
    k > 0 && k in cutoffs && forall x <- cutoffs :: x <= k
  }

  lemma LastIsLargest(cutoffs: seq<int>, k: int)
    requires Largest(k, cutoffs)
    ensures Normalized(cutoffs) != [] && Normalized(cutoffs)[|Normalized(cutoffs)| - 1] == k
  {
    NormalizedIs(cutoffs);
    var s := Normalized(cutoffs);
    var i :| 0 <= i < |s| && s[i] == k;
    assert s[|s| - 1] in s;
  }

  lemma {:induction false} UpToHolds(sample: Sample, ranking: seq<RankedChunk>, prefix: Stage, cutoffs: seq<nat>, k: nat)
    requires k in cutoffs
    ensures forall x <- MetricsAt(sample, ranking, prefix, k) :: x in MetricsUpTo(sample, ranking, prefix, cutoffs)
  {
    hide MetricsAt;
    if cutoffs[|cutoffs| - 1] != k {
      UpToHolds(sample, ranking, prefix, cutoffs[..|cutoffs| - 1], k);
    }
  }

  lemma PartIsListed(g: int -> real, sample: Sample, cutoffs: seq<nat>, prefix: Stage, x: Metric)
    requires cutoffs != [] && (prefix == CandidateRecall || prefix == Reranker)
    requires x in RankingPart(g, sample, RankingFor(sample, prefix), prefix, cutoffs)
    ensures x in RetrievalMetrics(g, sample, cutoffs)
  {
    hide RankingPart, StageMetrics;
  }

  lemma PartHolds(g: int -> real, sample: Sample, ranking: seq<RankedChunk>, prefix: Stage, cutoffs: seq<nat>, k: nat)
    requires cutoffs != [] && cutoffs[|cutoffs| - 1] == k
    ensures forall x <- MetricsUpTo(sample, ranking, prefix, cutoffs) :: x in RankingPart(g, sample, ranking, prefix, cutoffs)
    ensures forall x <- OverallMetrics(g, sample, ranking, prefix, k) :: x in RankingPart(g, sample, ranking, prefix, cutoffs)
  {
    hide MetricsUpTo, OverallMetrics;
  }

  lemma FourAreListed(g: int -> real, sample: Sample, cutoffs: seq<nat>, prefix: Stage, k: nat)
    requires cutoffs != [] && (prefix == CandidateRecall || prefix == Reranker) && k in cutoffs
    ensures forall x <- MetricsAt(sample, RankingFor(sample, prefix), prefix, k) :: x in RetrievalMetrics(g, sample, cutoffs)
  {
    var ranking := RankingFor(sample, prefix);
    UpToHolds(sample, ranking, prefix, cutoffs, k);
    PartHolds(g, sample, ranking, prefix, cutoffs, cutoffs[|cutoffs| - 1]);
    hide MetricsAt, MetricsUpTo, OverallMetrics, RankingPart, RetrievalMetrics, RankingFor;
    forall x <- MetricsAt(sample, ranking, prefix, k) ensures x in RetrievalMetrics(g, sample, cutoffs) {
      PartIsListed(g, sample, cutoffs, prefix, x);
    }
  }

  lemma OverallIsListed(g: int -> real, sample: Sample, cutoffs: seq<nat>, prefix: Stage, k: nat)
    requires cutoffs != [] && cutoffs[|cutoffs| - 1] == k && (prefix == CandidateRecall || prefix == Reranker)
    ensures var ranking := RankingFor(sample, prefix);
      && Metric(Mrr(prefix), prefix, ReciprocalRank(ranking, sample.positives)) in RetrievalMetrics(g, sample, cutoffs)
      && Metric(NdcgAt(prefix, k), prefix, Ndcg(g, ranking, sample.positives, k)) in RetrievalMetrics(g, sample, cutoffs)
  {
    hide Ndcg, ReciprocalRank, RetrievalMetrics, RankingFor, RankingPart, MetricsUpTo;
    var ranking := RankingFor(sample, prefix);
    var mrr := Metric(Mrr(prefix), prefix, ReciprocalRank(ranking, sample.positives));
    var ndcg := Metric(NdcgAt(prefix, k), prefix, Ndcg(g, ranking, sample.positives, k));
    var both := [mrr, ndcg];
    assert OverallMetrics(g, sample, ranking, prefix, k) == both && both[0] == mrr && both[1] == ndcg;
    PartHolds(g, sample, ranking, prefix, cutoffs, k);
    PartIsListed(g, sample, cutoffs, prefix, mrr);
    PartIsListed(g, sample, cutoffs, prefix, ndcg);
  }

  /** What an evaluation lists for candidates and reranked chunks alike: the four values at every positive cutoff, the
      reciprocal rank of the whole ranking, and NDCG at the largest cutoff. */
  lemma EvaluationLists(g: int -> real, sample: Sample, cutoffs: seq<int>, prefix: Stage, k: nat, largest: nat)
    requires prefix == CandidateRecall || prefix == Reranker
    requires k > 0 && k in cutoffs && Largest(largest, cutoffs)
    ensures Normalized(cutoffs) != []
    ensures var ranking := if prefix == CandidateRecall then sample.candidates else sample.reranked;
      var all := RetrievalMetrics(g, sample, Normalized(cutoffs));
      && (forall x <- MetricsAt(sample, ranking, prefix, k) :: x in all)
      && Metric(Mrr(prefix), prefix, ReciprocalRank(ranking, sample.positives)) in all
      && Metric(NdcgAt(prefix, largest), prefix, Ndcg(g, ranking, sample.positives, largest)) in all
  {
    hide Ndcg, ReciprocalRank, RetrievalMetrics, MetricsAt, Normalized;
    NormalizedIs(cutoffs);
    LastIsLargest(cutoffs, largest);
    FourAreListed(g, sample, Normalized(cutoffs), prefix, k);
    OverallIsListed(g, sample, Normalized(cutoffs), prefix, largest);
  }

  // ----- what is reported

  predicate Below(m: map<MetricId, Metric>, id: MetricId, limit: real) {
    id in m && m[id].value < limit
  }

  predicate Reaches(m: map<MetricId, Metric>, id: MetricId, limit: real) {
    id in m && m[id].value >= limit
  }

  /** Under the default policy: each failure by the metrics alone, at cutoff 5 and with the limits 1, 0.05 and 0.9. */
  lemma DefaultPolicyReports(failures: seq<Failure>, m: map<MetricId, Metric>)
    requires Mined(failures, m, DEFAULT_POLICY, 6)
    ensures Reported(failures, Missed) <==> Below(m, Recall(CandidateRecall, 5), 1.0)
    ensures Reported(failures, RerankerDropped)
            <==> Reaches(m, Recall(CandidateRecall, 5), 1.0) && Below(m, Recall(Reranker, 5), 1.0)
    ensures Reported(failures, ContextDropped)
            <==> Reaches(m, Recall(Reranker, 5), 1.0) && Below(m, ContextRecall, 1.0)
    ensures Reported(failures, Truncated) <==> ContextTruncated in m && m[ContextTruncated].value > 0.0
    ensures Reported(failures, MarginLow) <==> Below(m, EmbeddingMargin, 0.05)
    ensures Reported(failures, SemanticSplit) <==> Below(m, MustKeepRate, 0.9)
  {
    ReportedExactlyWhenDetected(failures, m, DEFAULT_POLICY, Missed);
    ReportedExactlyWhenDetected(failures, m, DEFAULT_POLICY, RerankerDropped);
    ReportedExactlyWhenDetected(failures, m, DEFAULT_POLICY, ContextDropped);
    ReportedExactlyWhenDetected(failures, m, DEFAULT_POLICY, Truncated);
    ReportedExactlyWhenDetected(failures, m, DEFAULT_POLICY, MarginLow);
    ReportedExactlyWhenDetected(failures, m, DEFAULT_POLICY, SemanticSplit);
    hide Reported, Mined;
  }

  /** Whatever the policy, a report names the stage to blame, how bad it is and the metric it rests on; no failure is
      reported twice, and the order is that of the pipeline's blame. */
  lemma ReportsName(failures: seq<Failure>, m: map<MetricId, Metric>, policy: Policy, i: nat)
    requires Mined(failures, m, policy, 6) && i < |failures|
    ensures var f, k := failures[i], policy.cutoff;
      && (f.kind == Missed ==> f.stage == CandidateRecall && f.severity == High && Rests(f, m, Recall(CandidateRecall, k)))
      && (f.kind == RerankerDropped ==> f.stage == Reranker && f.severity == High && Rests(f, m, Recall(Reranker, k)))
      && (f.kind == ContextDropped ==> f.stage == ContextAssembly && f.severity == High && Rests(f, m, ContextRecall))
      && (f.kind == Truncated ==> f.stage == ContextAssembly && f.severity == Medium && Rests(f, m, ContextTruncated))
      && (f.kind == MarginLow ==> f.stage == Embedding && f.severity == Medium && Rests(f, m, EmbeddingMargin))
      && (f.kind == SemanticSplit ==> f.stage == Chunking && f.severity == High && Rests(f, m, MustKeepRate))
    ensures forall j :: 0 <= j < |failures| && failures[j].kind == failures[i].kind ==> j == i
  {
    var f := failures[i];
    assert f in failures;
    forall j | 0 <= j < |failures| && j != i ensures failures[j].kind != f.kind {
      assert if j < i then Position(failures[j].kind) < Position(f.kind) else Position(f.kind) < Position(failures[j].kind);
    }
  }

  predicate Rests(f: Failure, m: map<MetricId, Metric>, id: MetricId) {
    id in m && f.metric == m[id]
  }
}
