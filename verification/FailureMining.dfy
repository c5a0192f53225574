/** Stage metrics of one labelled trace and the failures mined from them (metrics.py, failure_mining.py and
    orchestrator.py in apps/agent-worker/eval/framework). */
module FailureMining {
  import opened Wrappers
  import opened Ranking

  datatype Stage = Chunking | Embedding | CandidateRecall | Reranker | ContextAssembly

  datatype MetricId =
    | Recall(prefix: Stage, cutoff: int)
    | Precision(prefix: Stage, cutoff: int)
    | HitRate(prefix: Stage, cutoff: int)
    | Intrusion(prefix: Stage, cutoff: int)
    | Mrr(prefix: Stage)
    | NdcgAt(prefix: Stage, cutoff: int)
    | MrrDelta
    | EvidenceDropRate
    | ContextRecall
    | ContextTruncated
    | EmbeddingMargin
    | MustKeepRate
    | Named(name: string)

  datatype Metric = Metric(id: MetricId, stage: Stage, value: real)

  datatype Sample = Sample(positives: set<string>, hardNegatives: set<string>, candidates: seq<RankedChunk>,
                           reranked: seq<RankedChunk>, context: seq<string>, truncated: bool)

  function Ids(ranking: seq<RankedChunk>): set<string> {
    set c <- ranking :: c.chunkId
  }

  function Members(s: seq<string>): set<string> {
    set x <- s :: x
  }

  function Ratio(numerator: nat, denominator: nat): real {
    if denominator != 0 then numerator as real / denominator as real else 1.0
  }

  function Front(ranking: seq<RankedChunk>, cutoff: nat): seq<RankedChunk> {
    ranking[..Min(cutoff, |ranking|)]
  }

  // ----- the metrics

  function RecallOf(found: set<string>, positives: set<string>): real {
    Ratio(|found * positives|, |positives|)
  }

  function MetricsAt(sample: Sample, ranking: seq<RankedChunk>, prefix: Stage, cutoff: nat): seq<Metric> {
    var ids, shown := Ids(Front(ranking, cutoff)), |Front(ranking, cutoff)|;
    var hits := |ids * sample.positives|;
    [Metric(Recall(prefix, cutoff), prefix, RecallOf(ids, sample.positives)),
     Metric(Precision(prefix, cutoff), prefix, Ratio(hits, shown)),
     Metric(HitRate(prefix, cutoff), prefix, if hits > 0 then 1.0 else 0.0),
     Metric(Intrusion(prefix, cutoff), prefix, Ratio(|ids * sample.hardNegatives|, shown))]
  }

  function MetricsUpTo(sample: Sample, ranking: seq<RankedChunk>, prefix: Stage, cutoffs: seq<nat>): seq<Metric> {
    if cutoffs == [] then []
    else
      MetricsUpTo(sample, ranking, prefix, cutoffs[..|cutoffs| - 1])
      + MetricsAt(sample, ranking, prefix, cutoffs[|cutoffs| - 1])
  }

  function OverallMetrics(g: int -> real, sample: Sample, ranking: seq<RankedChunk>, prefix: Stage, cutoff: nat)
    : seq<Metric>
  {
    [Metric(Mrr(prefix), prefix, ReciprocalRank(ranking, sample.positives)),
     Metric(NdcgAt(prefix, cutoff), prefix, Ndcg(g, ranking, sample.positives, cutoff))]
  }

  function RankingPart(g: int -> real, sample: Sample, ranking: seq<RankedChunk>, prefix: Stage, cutoffs: seq<nat>)
    : seq<Metric>
    requires cutoffs != []
  {
    MetricsUpTo(sample, ranking, prefix, cutoffs)
    + OverallMetrics(g, sample, ranking, prefix, cutoffs[|cutoffs| - 1])
  }

  method RankingMetrics(g: int -> real, sample: Sample, ranking: seq<RankedChunk>, prefix: Stage, cutoffs: seq<nat>)
    returns (results: seq<Metric>)
    requires cutoffs != []
    ensures results == RankingPart(g, sample, ranking, prefix, cutoffs)
  {
    results := [];
    for i := 0 to |cutoffs|
      invariant results == MetricsUpTo(sample, ranking, prefix, cutoffs[..i])
    {
      assert cutoffs[..i + 1][..i] == cutoffs[..i];
      results := results + MetricsAt(sample, ranking, prefix, cutoffs[i]);
    }
    assert cutoffs[..|cutoffs|] == cutoffs;
    results := results + OverallMetrics(g, sample, ranking, prefix, cutoffs[|cutoffs| - 1]);
  }

  /** sorted({value for value in cutoffs if value > 0}) */
  function Normalized(cutoffs: seq<int>): seq<nat> {
    if cutoffs == [] then []
    else if cutoffs[0] > 0 then InsertCutoff(cutoffs[0], Normalized(cutoffs[1..]))
    else Normalized(cutoffs[1..])
  }

  function InsertCutoff(k: nat, sorted: seq<nat>): seq<nat> {
    if sorted == [] || k < sorted[0] then [k] + sorted
    else if k == sorted[0] then sorted
    else [sorted[0]] + InsertCutoff(k, sorted[1..])
  }

  predicate Increasing(s: seq<nat>) {
    forall i, j :: 0 <= i < j < |s| ==> s[i] < s[j]
  }

  lemma {:induction false} InsertCutoffIs(k: nat, sorted: seq<nat>)
    requires Increasing(sorted)
    ensures Increasing(InsertCutoff(k, sorted))
    ensures forall x :: x in InsertCutoff(k, sorted) <==> x == k || x in sorted
  {
    if sorted != [] && k > sorted[0] {
      var rest := InsertCutoff(k, sorted[1..]);
      InsertCutoffIs(k, sorted[1..]);
      assert forall x <- rest :: sorted[0] < x;
      assert sorted == [sorted[0]] + sorted[1..];
    }
  }

  /** The cutoffs used are the positive ones, each once, in increasing order. */
  lemma {:induction false} NormalizedIs(cutoffs: seq<int>)
    ensures Increasing(Normalized(cutoffs))
    ensures forall k :: k in Normalized(cutoffs) <==> k > 0 && k in cutoffs
  {
    if cutoffs != [] {
      NormalizedIs(cutoffs[1..]);
      assert cutoffs == [cutoffs[0]] + cutoffs[1..];
      if cutoffs[0] > 0 {
        InsertCutoffIs(cutoffs[0], Normalized(cutoffs[1..]));
      }
    }
  }

  function StageMetrics(sample: Sample): seq<Metric> {
    var found, kept := Ids(sample.candidates) * sample.positives, Ids(sample.reranked) * sample.positives;
    var delta := ReciprocalRank(sample.reranked, sample.positives) - ReciprocalRank(sample.candidates, sample.positives);
    [Metric(MrrDelta, Reranker, delta),
     Metric(EvidenceDropRate, Reranker, Ratio(|found - kept|, |found|)),
     Metric(ContextRecall, ContextAssembly, RecallOf(Members(sample.context), sample.positives)),
     Metric(ContextTruncated, ContextAssembly, if sample.truncated then 1.0 else 0.0)]
  }

  function RetrievalMetrics(g: int -> real, sample: Sample, cutoffs: seq<nat>): seq<Metric>
    requires cutoffs != []
  {
    RankingPart(g, sample, sample.candidates, CandidateRecall, cutoffs)
    + RankingPart(g, sample, sample.reranked, Reranker, cutoffs)
    + StageMetrics(sample)
  }

  /** Whether a trace can be evaluated at all. */
  predicate Evaluable(sample: Sample, cutoffs: seq<int>) {
    sample.positives != {} && exists k <- cutoffs :: k > 0
  }

  method EvaluateRetrievalStages(g: int -> real, sample: Sample, cutoffs: seq<int>)
    returns (result: Result<seq<Metric>, string>)
    ensures result.Ok? <==> Evaluable(sample, cutoffs)
    ensures result.Ok? ==> Normalized(cutoffs) != [] && result.value == RetrievalMetrics(g, sample, Normalized(cutoffs))
  {
    hide RankingPart, StageMetrics, Normalized;
    NormalizedIs(cutoffs);
    if sample.positives == {} {
      return Err("retrieval evaluation needs positive chunk ids");
    }
    var normalized := Normalized(cutoffs);
    if normalized == [] {
      return Err("cutoffs need at least one positive number");
    }
    assert normalized[0] in cutoffs;
    var metrics := RankingMetrics(g, sample, sample.candidates, CandidateRecall, normalized);
    var more := RankingMetrics(g, sample, sample.reranked, Reranker, normalized);
    return Ok(metrics + more + StageMetrics(sample));
  }

  // ----- mining

  datatype FailureType = Missed | RerankerDropped | ContextDropped | Truncated | MarginLow | SemanticSplit

  datatype Severity = Medium | High

  datatype Failure = Failure(kind: FailureType, stage: Stage, severity: Severity, metric: Metric)

  datatype Policy = Policy(cutoff: int, candidateRecall: real, rerankerRecall: real, contextRecall: real,
                           margin: real, mustKeep: real)

  const DEFAULT_POLICY := Policy(5, 1.0, 1.0, 1.0, 0.05, 0.9)

  /** Metrics by id; a later metric replaces an earlier one of the same id. */
  function ById(metrics: seq<Metric>): map<MetricId, Metric> {
    if metrics == [] then map[]
    else
      var last := metrics[|metrics| - 1];
      ById(metrics[..|metrics| - 1])[last.id := last]
  }

  predicate Low(m: map<MetricId, Metric>, id: MetricId, minimum: real) {
    id in m && m[id].value < minimum
  }

  predicate Enough(m: map<MetricId, Metric>, id: MetricId, minimum: real) {
    id in m && m[id].value >= minimum
  }

  function MetricBehind(kind: FailureType, policy: Policy): MetricId {
    match kind
    case Missed => Recall(CandidateRecall, policy.cutoff)
    case RerankerDropped => Recall(Reranker, policy.cutoff)
    case ContextDropped => ContextRecall
    case Truncated => ContextTruncated
    case MarginLow => EmbeddingMargin
    case SemanticSplit => MustKeepRate
  }

  predicate Detects(kind: FailureType, m: map<MetricId, Metric>, policy: Policy) {
    match kind
    case Missed => Low(m, Recall(CandidateRecall, policy.cutoff), policy.candidateRecall)
    case RerankerDropped =>
      && Enough(m, Recall(CandidateRecall, policy.cutoff), policy.candidateRecall)
      && Low(m, Recall(Reranker, policy.cutoff), policy.rerankerRecall)
    case ContextDropped =>
      && Enough(m, Recall(Reranker, policy.cutoff), policy.rerankerRecall)
      && Low(m, ContextRecall, policy.contextRecall)
    case Truncated => ContextTruncated in m && m[ContextTruncated].value > 0.0
    case MarginLow => Low(m, EmbeddingMargin, policy.margin)
    case SemanticSplit => Low(m, MustKeepRate, policy.mustKeep)
  }

  /** The failure of a kind, blamed on its stage. */
  function Build(kind: FailureType, metric: Metric): Failure {
    match kind
    case Missed => Failure(kind, CandidateRecall, High, metric)
    case RerankerDropped => Failure(kind, Reranker, High, metric)
    case ContextDropped => Failure(kind, ContextAssembly, High, metric)
    case Truncated => Failure(kind, ContextAssembly, Medium, metric)
    case MarginLow => Failure(kind, Embedding, Medium, metric)
    case SemanticSplit => Failure(kind, Chunking, High, metric)
  }

  predicate Reported(failures: seq<Failure>, kind: FailureType) {
    exists f <- failures :: f.kind == kind
  }

  function Position(kind: FailureType): nat {
    match kind
    case Missed => 0
    case RerankerDropped => 1
    case ContextDropped => 2
    case Truncated => 3
    case MarginLow => 4
    case SemanticSplit => 5
  }

  /** The failures among the first `count` kinds: what is detected, once each, in stage order, with its metric. */
  ghost predicate Mined(failures: seq<Failure>, m: map<MetricId, Metric>, policy: Policy, count: nat) {
    && (forall i, j :: 0 <= i < j < |failures| ==> Position(failures[i].kind) < Position(failures[j].kind))
    && (forall f <- failures ::
          && Position(f.kind) < count && Detects(f.kind, m, policy)
          && MetricBehind(f.kind, policy) in m && f == Build(f.kind, m[MetricBehind(f.kind, policy)]))
    && (forall kind :: Position(kind) < count && Detects(kind, m, policy) ==> Reported(failures, kind))
  }

  lemma MinedSkip(failures: seq<Failure>, m: map<MetricId, Metric>, policy: Policy, kind: FailureType)
    requires Mined(failures, m, policy, Position(kind)) && !Detects(kind, m, policy)
    ensures Mined(failures, m, policy, Position(kind) + 1)
  {
    hide Detects;
    assert forall other: FailureType :: Position(other) == Position(kind) ==> other == kind;
  }

  lemma MinedAppend(failures: seq<Failure>, m: map<MetricId, Metric>, policy: Policy, f: Failure)
    requires Mined(failures, m, policy, Position(f.kind)) && Detects(f.kind, m, policy)
    requires MetricBehind(f.kind, policy) in m && f == Build(f.kind, m[MetricBehind(f.kind, policy)])
    ensures Mined(failures + [f], m, policy, Position(f.kind) + 1)
  {
    hide Detects;
    var all := failures + [f];
    assert all[|failures|] == f;
    forall kind | Position(kind) < Position(f.kind) + 1 && Detects(kind, m, policy) ensures Reported(all, kind) {
      if kind != f.kind {
        var i :| 0 <= i < |failures| && failures[i].kind == kind;
        assert all[i] == failures[i];
      }
    }
  }

  lemma MinedNothing(m: map<MetricId, Metric>, policy: Policy)
    ensures Mined([], m, policy, 0)
  {
  }

  method MineFailures(metrics: seq<Metric>, policy: Policy) returns (failures: seq<Failure>)
    ensures Mined(failures, ById(metrics), policy, 6)
  {
    hide Mined, ById;
    var byId := ById(metrics);
    var candidate, reranker := Recall(CandidateRecall, policy.cutoff), Recall(Reranker, policy.cutoff);
    failures := [];
    MinedNothing(byId, policy);
    if candidate in byId && byId[candidate].value < policy.candidateRecall {
      failures := Add(failures, byId, policy, Missed);
    } else {
      MinedSkip(failures, byId, policy, Missed);
    }
    if && candidate in byId
       && reranker in byId
       && byId[candidate].value >= policy.candidateRecall
       && byId[reranker].value < policy.rerankerRecall
    {
      failures := Add(failures, byId, policy, RerankerDropped);
    } else {
      MinedSkip(failures, byId, policy, RerankerDropped);
    }
    if && reranker in byId
       && ContextRecall in byId
       && byId[reranker].value >= policy.rerankerRecall
       && byId[ContextRecall].value < policy.contextRecall
    {
      failures := Add(failures, byId, policy, ContextDropped);
    } else {
      MinedSkip(failures, byId, policy, ContextDropped);
    }
    if ContextTruncated in byId && byId[ContextTruncated].value > 0.0 {
      failures := Add(failures, byId, policy, Truncated);
    } else {
      MinedSkip(failures, byId, policy, Truncated);
    }
    if EmbeddingMargin in byId && byId[EmbeddingMargin].value < policy.margin {
      failures := Add(failures, byId, policy, MarginLow);
    } else {
      MinedSkip(failures, byId, policy, MarginLow);
    }
    if MustKeepRate in byId && byId[MustKeepRate].value < policy.mustKeep {
      failures := Add(failures, byId, policy, SemanticSplit);
    } else {
      MinedSkip(failures, byId, policy, SemanticSplit);
    }
  }

  /** failures.append(_failure(...)) */
  method Add(failures: seq<Failure>, m: map<MetricId, Metric>, policy: Policy, kind: FailureType)
    returns (more: seq<Failure>)
    requires Detects(kind, m, policy) && Mined(failures, m, policy, Position(kind))
    ensures Mined(more, m, policy, Position(kind) + 1)
  {
    var f := Build(kind, m[MetricBehind(kind, policy)]);
    MinedAppend(failures, m, policy, f);
    more := failures + [f];
  }

  // ----- attribution

  lemma {:induction false} ByIdAppend(a: seq<Metric>, b: seq<Metric>)
    ensures ById(a + b) == ById(a) + ById(b)
  {
    if b == [] {
      assert a + b == a;
    } else {
      var init := b[..|b| - 1];
      assert a + b == (a + init) + [b[|b| - 1]];
      assert (a + b)[..|a + b| - 1] == a + init;
      ByIdAppend(a, init);
    }
  }

  lemma ByIdSnoc(a: seq<Metric>, x: Metric)
    ensures ById(a + [x]) == ById(a)[x.id := x]
  {
    assert (a + [x])[..|a + [x]| - 1] == a;
  }

  /** The one id whose metric the recall of `prefix` at `k` is. */
  lemma {:induction false} RecallUpTo(sample: Sample, ranking: seq<RankedChunk>, prefix: Stage, cutoffs: seq<nat>,
                                      id: MetricId)
    requires id.Recall?
    ensures var m := ById(MetricsUpTo(sample, ranking, prefix, cutoffs));
      && (id in m <==> id.prefix == prefix && id.cutoff in cutoffs)
      && (id in m ==> id.cutoff >= 0 && m[id].value == RecallOf(Ids(Front(ranking, id.cutoff)), sample.positives))
  {
    if cutoffs != [] {
      var init, k := cutoffs[..|cutoffs| - 1], cutoffs[|cutoffs| - 1];
      assert cutoffs == init + [k];
      RecallUpTo(sample, ranking, prefix, init, id);
      ByIdAppend(MetricsUpTo(sample, ranking, prefix, init), MetricsAt(sample, ranking, prefix, k));
      RecallAt(sample, ranking, prefix, k, id);
    }
  }

  lemma RecallAt(sample: Sample, ranking: seq<RankedChunk>, prefix: Stage, k: nat, id: MetricId)
    requires id.Recall?
    ensures var m := ById(MetricsAt(sample, ranking, prefix, k));
      && (id in m <==> id.prefix == prefix && id.cutoff == k)
      && (id in m ==> m[id].value == RecallOf(Ids(Front(ranking, k)), sample.positives))
  {
    hide Ratio, RecallOf, Ids, Front;
    var four := MetricsAt(sample, ranking, prefix, k);
    assert ById([]) == map[];
    ByIdSnoc([], four[0]);
    assert [] + [four[0]] == [four[0]] && [four[0]] + [four[1]] == [four[0], four[1]];
    assert [four[0], four[1]] + [four[2]] == [four[0], four[1], four[2]];
    ByIdSnoc([four[0]], four[1]);
    ByIdSnoc([four[0], four[1]], four[2]);
    ByIdSnoc([four[0], four[1], four[2]], four[3]);
    assert four == [four[0], four[1], four[2]] + [four[3]];
  }

  datatype Outcome = Outcome(metrics: seq<Metric>, failures: seq<Failure>)

  /** What evaluating a labelled trace returns: the metrics in order, and exactly the failures they show. */
  ghost predicate Evaluated(g: int -> real, sample: Sample, cutoffs: seq<int>, policy: Policy,
                            additional: seq<Metric>, outcome: Outcome)
  {
    && Evaluable(sample, cutoffs)
    && Normalized(cutoffs) != []
    && outcome.metrics == additional + RetrievalMetrics(g, sample, Normalized(cutoffs))
    && Mined(outcome.failures, ById(outcome.metrics), policy, 6)
  }

  method EvaluateLabeledTrace(g: int -> real, sample: Sample, cutoffs: seq<int>, policy: Policy, additional: seq<Metric>)
    returns (result: Result<Outcome, string>)
    ensures result.Ok? <==> Evaluable(sample, cutoffs)
    ensures result.Ok? ==> Evaluated(g, sample, cutoffs, policy, additional, result.value)
  {
    hide RetrievalMetrics, Mined, ById, Evaluable;
    var retrieval := EvaluateRetrievalStages(g, sample, cutoffs);
    if retrieval.Err? {
      return Err(retrieval.error);
    }
    var metrics := additional + retrieval.value;
    var failures := MineFailures(metrics, policy);
    return Ok(Outcome(metrics, failures));
  }

  lemma OverallHasNoRecall(g: int -> real, sample: Sample, ranking: seq<RankedChunk>, prefix: Stage, k: nat, id: MetricId)
    requires id.Recall? || id.ContextRecall?
    ensures id !in ById(OverallMetrics(g, sample, ranking, prefix, k))
  {
    hide Ndcg, ReciprocalRank;
    var two := OverallMetrics(g, sample, ranking, prefix, k);
    assert ById([]) == map[] && [] + [two[0]] == [two[0]] && [two[0]] + [two[1]] == two;
    ByIdSnoc([], two[0]);
    ByIdSnoc([two[0]], two[1]);
  }

  lemma StageHasNoRecall(sample: Sample, id: MetricId)
    requires id.Recall?
    ensures id !in ById(StageMetrics(sample))
    ensures ContextRecall in ById(StageMetrics(sample))
    ensures ById(StageMetrics(sample))[ContextRecall].value == RecallOf(Members(sample.context), sample.positives)
  {
    hide ReciprocalRank, Ratio, Ids, RecallOf, Members;
    var four := StageMetrics(sample);
    assert ById([]) == map[];
    ByIdSnoc([], four[0]);
    assert [] + [four[0]] == [four[0]] && [four[0]] + [four[1]] == [four[0], four[1]];
    assert [four[0], four[1]] + [four[2]] == [four[0], four[1], four[2]];
    ByIdSnoc([four[0]], four[1]);
    ByIdSnoc([four[0], four[1]], four[2]);
    ByIdSnoc([four[0], four[1], four[2]], four[3]);
    assert four == [four[0], four[1], four[2]] + [four[3]];
  }

  /** The recall ids of one ranking's metrics are those of its own prefix at its cutoffs. */
  lemma RecallOfPart(g: int -> real, sample: Sample, ranking: seq<RankedChunk>, prefix: Stage, cutoffs: seq<nat>,
                     id: MetricId)
    requires cutoffs != [] && id.Recall?
    ensures var m := ById(RankingPart(g, sample, ranking, prefix, cutoffs));
      && (id in m <==> id.prefix == prefix && id.cutoff in cutoffs)
      && (id in m ==> id.cutoff >= 0 && m[id].value == RecallOf(Ids(Front(ranking, id.cutoff)), sample.positives))
  {
    hide MetricsUpTo, OverallMetrics, ById, RecallOf, Ids, Front;
    var last := cutoffs[|cutoffs| - 1];
    RecallUpTo(sample, ranking, prefix, cutoffs, id);
    OverallHasNoRecall(g, sample, ranking, prefix, last, id);
    ByIdAppend(MetricsUpTo(sample, ranking, prefix, cutoffs), OverallMetrics(g, sample, ranking, prefix, last));
  }

  function RankingFor(sample: Sample, prefix: Stage): seq<RankedChunk> {
    if prefix == CandidateRecall then sample.candidates else sample.reranked
  }

  function RecallAtCutoff(sample: Sample, prefix: Stage, k: nat): real {
    RecallOf(Ids(Front(RankingFor(sample, prefix), k)), sample.positives)
  }

  function ContextRecallOf(sample: Sample): real {
    RecallOf(Members(sample.context), sample.positives)
  }

  /** What the miner finds under the three ids that attribute a loss. */
  lemma Lookups(g: int -> real, sample: Sample, cutoffs: seq<nat>, additional: seq<Metric>, prefix: Stage, k: int)
    requires cutoffs != [] && (prefix == CandidateRecall || prefix == Reranker)
    ensures var m, id := ById(additional + RetrievalMetrics(g, sample, cutoffs)), Recall(prefix, k);
      && (k in cutoffs ==> k >= 0 && id in m && m[id].value == RecallAtCutoff(sample, prefix, k))
      && (k !in cutoffs ==> (id in m <==> id in ById(additional)))
      && ContextRecall in m && m[ContextRecall].value == ContextRecallOf(sample)
  {
    hide RankingPart, StageMetrics, ById, RecallOf, Ids, Front, Members;
    var id := Recall(prefix, k);
    var a := RankingPart(g, sample, sample.candidates, CandidateRecall, cutoffs);
    var b := RankingPart(g, sample, sample.reranked, Reranker, cutoffs);
    RecallOfPart(g, sample, sample.candidates, CandidateRecall, cutoffs, id);
    RecallOfPart(g, sample, sample.reranked, Reranker, cutoffs, id);
    StageHasNoRecall(sample, id);
    ByIdAppend(a, b);
    ByIdAppend(a + b, StageMetrics(sample));
    ByIdAppend(additional, RetrievalMetrics(g, sample, cutoffs));
  }

  lemma ReportedExactlyWhenDetected(failures: seq<Failure>, m: map<MetricId, Metric>, policy: Policy, kind: FailureType)
    requires Mined(failures, m, policy, 6)
    ensures Reported(failures, kind) <==> Detects(kind, m, policy)
  {
    hide Detects;
    assert Position(kind) < 6;
  }

  predicate Attributed(failures: seq<Failure>) {
    Reported(failures, Missed) || Reported(failures, RerankerDropped) || Reported(failures, ContextDropped)
  }

  /** For every policy whose cutoff was evaluated: a loss is attributed to a stage exactly when one of the three
      recalls is below its minimum. */
  lemma AttributionIsExact(g: int -> real, sample: Sample, cutoffs: seq<int>, policy: Policy, additional: seq<Metric>,
                           outcome: Outcome)
    requires Evaluated(g, sample, cutoffs, policy, additional, outcome)
    requires policy.cutoff > 0 && policy.cutoff in cutoffs
    ensures Reported(outcome.failures, Missed)
            <==> RecallAtCutoff(sample, CandidateRecall, policy.cutoff) < policy.candidateRecall
    ensures Reported(outcome.failures, RerankerDropped)
            <==> RecallAtCutoff(sample, Reranker, policy.cutoff) < policy.rerankerRecall
                 && RecallAtCutoff(sample, CandidateRecall, policy.cutoff) >= policy.candidateRecall
    ensures Reported(outcome.failures, ContextDropped)
            <==> ContextRecallOf(sample) < policy.contextRecall
                 && RecallAtCutoff(sample, Reranker, policy.cutoff) >= policy.rerankerRecall
  {
    hide Mined, ById, RetrievalMetrics, RecallAtCutoff, ContextRecallOf, Reported;
    var m := ById(outcome.metrics);
    NormalizedIs(cutoffs);
    Lookups(g, sample, Normalized(cutoffs), additional, CandidateRecall, policy.cutoff);
    Lookups(g, sample, Normalized(cutoffs), additional, Reranker, policy.cutoff);
    ReportedExactlyWhenDetected(outcome.failures, m, policy, Missed);
    ReportedExactlyWhenDetected(outcome.failures, m, policy, RerankerDropped);
    ReportedExactlyWhenDetected(outcome.failures, m, policy, ContextDropped);
  }

  lemma SubsetBySize<T>(a: set<T>, b: set<T>)
    requires a <= b
    ensures |a| <= |b| && (|a| == |b| ==> a == b)
  {
    assert b == a + (b - a);
    assert |b| == |a| + |b - a|;
  }

  lemma RatioOrder(a: nat, b: nat, n: nat)
    requires n > 0
    ensures Ratio(a, n) < Ratio(b, n) <==> a < b
    ensures Ratio(n, n) == 1.0
  {
    if a < b {
      assert a as real < b as real;
    }
  }

  /** Full recall is containment. */
  lemma FullRecall(found: set<string>, positives: set<string>)
    requires positives != {}
    ensures RecallOf(found, positives) >= 1.0 <==> positives <= found
  {
    SubsetBySize(found * positives, positives);
    RatioOrder(|found * positives|, |positives|, |positives|);
    if positives <= found {
      assert found * positives == positives;
    }
  }

  /** No unattributed loss: under the default policy a trace is blamed on no stage exactly when every positive chunk
      came through the candidates, the reranker and into the context. */
  lemma NoUnattributedLoss(g: int -> real, sample: Sample, cutoffs: seq<int>, additional: seq<Metric>, outcome: Outcome)
    requires Evaluated(g, sample, cutoffs, DEFAULT_POLICY, additional, outcome) && 5 in cutoffs
    ensures !Attributed(outcome.failures)
            <==> && sample.positives <= Ids(Front(sample.candidates, 5))
                 && sample.positives <= Ids(Front(sample.reranked, 5))
                 && sample.positives <= Members(sample.context)
  {
    hide Reported, Ids, Front, Members, RecallOf;
    AttributionIsExact(g, sample, cutoffs, DEFAULT_POLICY, additional, outcome);
    FullRecall(Ids(Front(sample.candidates, 5)), sample.positives);
    FullRecall(Ids(Front(sample.reranked, 5)), sample.positives);
    FullRecall(Members(sample.context), sample.positives);
  }

  /** A smaller share found means one was lost. */
  lemma LostOne(before: set<string>, after: set<string>, positives: set<string>)
    requires positives != {} && RecallOf(after, positives) < RecallOf(before, positives)
    ensures exists p <- positives :: p in before && p !in after
  {
    RatioOrder(|after * positives|, |before * positives|, |positives|);
    if before * positives <= after * positives {
      SubsetBySize(before * positives, after * positives);
    } else {
      var p :| p in before * positives && p !in after * positives;
      assert p in positives;
    }
  }

  /** A stage is blamed for dropping evidence only with a positive chunk that the stage before kept and this one lost,
      unless the policy asks more of this stage than of the one before and both recalls lie between the two minima.
      The default policy asks the same of all stages, so there the chunk always exists. */
  lemma DropsHaveWitnesses(g: int -> real, sample: Sample, cutoffs: seq<int>, policy: Policy, additional: seq<Metric>,
                           outcome: Outcome)
    requires Evaluated(g, sample, cutoffs, policy, additional, outcome)
    requires policy.cutoff > 0 && policy.cutoff in cutoffs
    ensures Reported(outcome.failures, RerankerDropped) ==>
              || (exists p <- sample.positives :: p in Ids(Front(sample.candidates, policy.cutoff))
                                               && p !in Ids(Front(sample.reranked, policy.cutoff)))
              || policy.candidateRecall <= RecallAtCutoff(sample, CandidateRecall, policy.cutoff)
                   <= RecallAtCutoff(sample, Reranker, policy.cutoff) < policy.rerankerRecall
    ensures Reported(outcome.failures, ContextDropped) ==>
              || (exists p <- sample.positives :: p in Ids(Front(sample.reranked, policy.cutoff))
                                               && p !in Members(sample.context))
              || policy.rerankerRecall <= RecallAtCutoff(sample, Reranker, policy.cutoff)
                   <= ContextRecallOf(sample) < policy.contextRecall
  {
    hide Reported, Ids, Front, Members, RecallOf;
    AttributionIsExact(g, sample, cutoffs, policy, additional, outcome);
    var k: nat := policy.cutoff;
    var candidates, reranked := Ids(Front(sample.candidates, k)), Ids(Front(sample.reranked, k));
    if RecallOf(reranked, sample.positives) < RecallOf(candidates, sample.positives) {
      LostOne(candidates, reranked, sample.positives);
    }
    if RecallOf(Members(sample.context), sample.positives) < RecallOf(reranked, sample.positives) {
      LostOne(reranked, Members(sample.context), sample.positives);
    }
  }

  /** Without the policy's cutoff among those evaluated nothing is attributed, however much is lost: an incomplete
      context is attributed exactly when the cutoff 5 was asked for, unless the caller supplies those recalls. */
  lemma AttributionNeedsTheCutoff(g: int -> real, sample: Sample, cutoffs: seq<int>, additional: seq<Metric>,
                                  outcome: Outcome)
    requires Evaluated(g, sample, cutoffs, DEFAULT_POLICY, additional, outcome)
    requires Recall(CandidateRecall, 5) !in ById(additional) && Recall(Reranker, 5) !in ById(additional)
    requires !(sample.positives <= Members(sample.context))
    ensures Attributed(outcome.failures) <==> 5 in cutoffs
  {
    hide Mined, ById, RetrievalMetrics, Ids, Front, Members, RecallOf, Reported;
    if 5 in cutoffs {
      NoUnattributedLoss(g, sample, cutoffs, additional, outcome);
    } else {
      var m := ById(outcome.metrics);
      NormalizedIs(cutoffs);
      Lookups(g, sample, Normalized(cutoffs), additional, CandidateRecall, 5);
      Lookups(g, sample, Normalized(cutoffs), additional, Reranker, 5);
      ReportedExactlyWhenDetected(outcome.failures, m, DEFAULT_POLICY, Missed);
      ReportedExactlyWhenDetected(outcome.failures, m, DEFAULT_POLICY, RerankerDropped);
      ReportedExactlyWhenDetected(outcome.failures, m, DEFAULT_POLICY, ContextDropped);
    }
  }

  // ----- what the rates mean

  lemma {:induction false} IdsAtMostLength(ranking: seq<RankedChunk>)
    ensures |Ids(ranking)| <= |ranking|
  {
    if ranking != [] {
      var init, last := ranking[..|ranking| - 1], ranking[|ranking| - 1];
      IdsAtMostLength(init);
      assert ranking == init + [last];
      assert Ids(ranking) == Ids(init) + {last.chunkId};
    }
  }

  lemma RatioIsRate(a: nat, n: nat)
    requires a <= n
    ensures 0.0 <= Ratio(a, n) <= 1.0 && (n > 0 ==> (Ratio(a, n) > 0.0 <==> a > 0))
  {
  }

  lemma RatioSum(a: nat, b: nat, n: nat)
    requires n > 0 && a + b <= n
    ensures Ratio(a, n) + Ratio(b, n) <= 1.0
  {
    assert Ratio(a, n) + Ratio(b, n) == (a + b) as real / n as real;
  }

  lemma DisjointParts<T>(s: set<T>, a: set<T>, b: set<T>)
    requires a !! b
    ensures |s * a| + |s * b| <= |s|
  {
    SubsetBySize(s * a + s * b, s);
    assert s * a !! s * b;
  }

  /** At every cutoff the four values are rates; the hit rate is 1 exactly when the recall is positive; and chunks that
      are positive and chunks that intrude share the places shown, unless none is shown, when both rates are 1. */
  lemma RatesAreConsistent(sample: Sample, ranking: seq<RankedChunk>, prefix: Stage, k: nat)
    requires sample.positives != {} && sample.positives !! sample.hardNegatives
    ensures var m := MetricsAt(sample, ranking, prefix, k);
      && (forall i :: 0 <= i < 4 ==> 0.0 <= m[i].value <= 1.0)
      && (m[2].value == 1.0 <==> m[0].value > 0.0)
      && (if Front(ranking, k) != [] then m[1].value + m[3].value <= 1.0 else m[1].value == m[3].value == 1.0)
  {
    var front := Front(ranking, k);
    var ids := Ids(front);
    var hits, intruders := |ids * sample.positives|, |ids * sample.hardNegatives|;
    IdsAtMostLength(front);
    DisjointParts(ids, sample.positives, sample.hardNegatives);
    SubsetBySize(ids * sample.positives, sample.positives);
    RatioIsRate(hits, |sample.positives|);
    assert |ids| <= |front|;
    RatioIsRate(hits, |front|);
    RatioIsRate(intruders, |front|);
    if front == [] {
      assert ids == {};
    } else {
      RatioSum(hits, intruders, |front|);
    }
    hide Ratio, Ids;
    var m := MetricsAt(sample, ranking, prefix, k);
    assert m[0].value == Ratio(hits, |sample.positives|) && m[1].value == Ratio(hits, |front|);
    assert m[3].value == Ratio(intruders, |front|);
    forall i | 0 <= i < 4 ensures 0.0 <= m[i].value <= 1.0 {
      assert i == 0 || i == 1 || i == 2 || i == 3;
    }
  }

  /** A larger cutoff never lowers the recall. */
  lemma RecallGrowsWithTheCutoff(sample: Sample, prefix: Stage, small: nat, large: nat)
    requires sample.positives != {} && small <= large
    ensures RecallAtCutoff(sample, prefix, small) <= RecallAtCutoff(sample, prefix, large)
  {
    var ranking := RankingFor(sample, prefix);
    var a, b := Ids(Front(ranking, small)) * sample.positives, Ids(Front(ranking, large)) * sample.positives;
    forall x <- a ensures x in b {
      var i :| 0 <= i < |Front(ranking, small)| && Front(ranking, small)[i].chunkId == x;
      assert Front(ranking, large)[i].chunkId == x;
    }
    SubsetBySize(a, b);
    if |a| < |b| {
      RatioOrder(|a|, |b|, |sample.positives|);
    }
  }

  /** The evidence drop rate is zero exactly when the reranker lost no positive candidate, or there was none to lose
      and the rate is 1. */
  lemma EvidenceDropIsExact(sample: Sample)
    ensures var found := Ids(sample.candidates) * sample.positives;
      var rate := StageMetrics(sample)[1].value;
      && 0.0 <= rate <= 1.0
      && (rate == 0.0 <==> found != {} && found <= Ids(sample.reranked))
      && (found == {} ==> rate == 1.0)
  {
    hide ReciprocalRank, Ids, RecallOf, Members;
    var found, kept := Ids(sample.candidates) * sample.positives, Ids(sample.reranked) * sample.positives;
    SubsetBySize(found - kept, found);
    RatioIsRate(|found - kept|, |found|);
    if found - kept == {} {
      forall x <- found ensures x in Ids(sample.reranked) {
        assert x !in found - kept;
      }
    } else {
      var x :| x in found - kept;
      assert x in found && x !in Ids(sample.reranked);
    }
    assert |found - kept| == 0 <==> found - kept == {};
    assert |found| == 0 <==> found == {};
  }
}
