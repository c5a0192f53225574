/** The numbers behind the alignment, with the source's own weights and thresholds
    (apps/agent-worker/eval/runners/pipeline_eval.py:110-173, 316-351). */
module AlignmentValues {
  import opened Wrappers
  import opened Similarity
  import opened Alignment

  /** The length two intervals share. */
  function Common(a0: real, a1: real, b0: real, b1: real): real {
    var low, high := if a0 >= b0 then a0 else b0, if a1 <= b1 then a1 else b1;
    if low < high then high - low else 0.0
  }

  /** The smaller area, one at least. */
  function Smaller(a: Box, b: Box): real {
    var x, y := (a.x1 - a.x0) * (a.y1 - a.y0), (b.x1 - b.x0) * (b.y1 - b.y0);
    if x <= 1.0 || y <= 1.0 then 1.0 else if x <= y then x else y
  }

  lemma TimesQuotient(a: real, n: real)
    requires n > 0.0
    ensures a / n * n == a
  {
  }

  lemma SmallerIs(a: Box, b: Box)
    ensures Max(Min(Area(a), Area(b)), 1.0) == Smaller(a, b) >= 1.0
  {
  }

  lemma MeetArea(a: Box, b: Box)
    ensures (if Proper(Meet(a, b)) then Area(Meet(a, b)) else 0.0)
            == Mul(Common(a.x0, a.x1, b.x0, b.x1), Common(a.y0, a.y1, b.y0, b.y1))
  {
    if !Proper(Meet(a, b)) {
      Signs(Common(a.x0, a.x1, b.x0, b.x1), Common(a.y0, a.y1, b.y0, b.y1));
    }
  }

  /** The overlap times the smaller area is the shared width times the shared height. */
  lemma OverlapIs(a: Box, b: Box)
    ensures OverlapOf(a, b) * Smaller(a, b)
            == Mul(Common(a.x0, a.x1, b.x0, b.x1), Common(a.y0, a.y1, b.y0, b.y1))
  {
    SmallerIs(a, b);
    MeetArea(a, b);
    hide Area, Smaller, Common, Proper, Meet;
    if Proper(Meet(a, b)) {
      TimesQuotient(Area(Meet(a, b)), Smaller(a, b));
    }
  }

  /** A gold region without a box, or with a malformed one, overlaps nothing. */
  lemma NoBoxNoOverlap(gold: Option<seq<real>>, b: Box)
    ensures gold.None? || |gold.value| != 4 ==> Overlap(gold, b) == 0.0
    ensures gold.Some? && |gold.value| == 4 ==>
      Overlap(gold, b) == OverlapOf(Box(gold.value[0], gold.value[1], gold.value[2], gold.value[3]), b)
  {
  }

  /** `x` is `y` to six decimals: the nearest millionth, and of two the even one. */
  ghost predicate SixDecimals(x: real, y: real) {
    exists n: int :: x == n as real / 1000000.0 && Nearest(n, y)
  }

  predicate Nearest(n: int, y: real) {
    var d := y * 1000000.0 - n as real;
    -0.5 <= d <= 0.5 && (d == 0.5 || d == -0.5 ==> n % 2 == 0)
  }

  lemma RoundIs(y: real)
    ensures SixDecimals(Round6(y), y)
  {
    var scaled := y * 1000000.0;
    var low := scaled.Floor;
    var part := scaled - low as real;
    var whole := if part < 0.5 || (part == 0.5 && low % 2 == 0) then low else low + 1;
    assert Nearest(whole, y);
    assert Round6(y) == whole as real / 1000000.0;
  }

  /** There is only one such number. */
  lemma SixDecimalsIsUnique(x: real, z: real, y: real)
    requires SixDecimals(x, y) && SixDecimals(z, y)
    ensures x == z
  {
    var n: int :| x == n as real / 1000000.0 && Nearest(n, y);
    var m: int :| z == m as real / 1000000.0 && Nearest(m, y);
    assert n - 1 <= m <= n + 1;
  }

  predicate Related(a: string, b: string) {
    || (a in {"heading", "paragraph", "list", "caption", "code"} && b in {"heading", "paragraph", "list", "caption", "code"})
    || (a in {"image", "chart"} && b in {"image", "chart"})
  }

  /** The similarity of two texts, by their normal forms. */
  function TextOf(t: Texts, gold: string, output: string): real {
    var a, b := t.normalize(gold), t.normalize(output);
    if a != "" && b != "" then t.ratio(a, b) else if a == b then 1.0 else 0.0
  }

  /** A pair's score: four tenths for the same type or two for the same family, three tenths of the overlap and three of
      the text similarity, to six decimals; its parts are reported to six decimals too. */
  lemma ScoreIs(t: Texts, gold: Gold, node: Node)
    ensures var p := MatchParts(t, gold, node);
      var overlap, text := Overlap(gold.box, node.box), TextOf(t, gold.text, node.text);
      var kind := if gold.kind == node.kind then 4.0 else if Related(gold.kind, node.kind) then 2.0 else 0.0;
      && SixDecimals(p.score, (kind + 3.0 * overlap + 3.0 * text) / 10.0)
      && SixDecimals(p.text, text) && SixDecimals(p.geometry, overlap)
      && (p.typeMatch <==> gold.kind == node.kind) && (p.familyMatch <==> Related(gold.kind, node.kind))
  {
    var overlap, text := Overlap(gold.box, node.box), TextOf(t, gold.text, node.text);
    var kind := if gold.kind == node.kind then 4.0 else if Related(gold.kind, node.kind) then 2.0 else 0.0;
    RoundIs((kind + 3.0 * overlap + 3.0 * text) / 10.0);
    RoundIs(text);
    RoundIs(overlap);
    hide SixDecimals, Round6, Overlap;
  }

  /** Whether the region may take the node, whatever it scores. */
  predicate Open(region: Region, before: set<string>, n: Node) {
    n.page == region.page && n.nodeId !in before
  }

  /** An open node that scores 0.45 or more. */
  predicate GoodMatch(t: Texts, region: Region, before: set<string>, n: Node) {
    Open(region, before, n) && MatchParts(t, region.gold, n).score >= 0.45
  }

  /** One of the region's family that overlaps it by 0.7 or more. */
  predicate CloseMatch(t: Texts, region: Region, before: set<string>, n: Node) {
    GoodMatch(t, region, before, n) && MatchParts(t, region.gold, n).geometry >= 0.7 && Related(region.gold.kind, n.kind)
  }

  predicate GoodId(t: Texts, nodes: seq<Node>, region: Region, before: set<string>, id: string) {
    exists n <- nodes :: n.nodeId == id && GoodMatch(t, region, before, n)
  }

  predicate CloseId(t: Texts, nodes: seq<Node>, region: Region, before: set<string>, id: string) {
    exists n <- nodes :: n.nodeId == id && CloseMatch(t, region, before, n)
  }

  lemma MatchesAre(t: Texts, region: Region, before: set<string>, n: Node)
    ensures Eligible(t, region, before, n) <==> GoodMatch(t, region, before, n)
    ensures Covers(t, region, before, n) <==> CloseMatch(t, region, before, n)
  {
  }

  lemma IdsAre(t: Texts, nodes: seq<Node>, region: Region, before: set<string>, id: string)
    ensures EligibleId(t, nodes, region, before, id) <==> GoodId(t, nodes, region, before, id)
    ensures CoveringId(t, nodes, region, before, id) <==> CloseId(t, nodes, region, before, id)
  {
    forall n ensures Eligible(t, region, before, n) <==> GoodMatch(t, region, before, n) {
      MatchesAre(t, region, before, n);
    }
    forall n ensures Covers(t, region, before, n) <==> CloseMatch(t, region, before, n) {
      MatchesAre(t, region, before, n);
    }
    hide Eligible, Covers, GoodMatch, CloseMatch;
  }

  lemma TakenInNumbers(t: Texts, nodes: seq<Node>, region: Region, before: set<string>, d: Detail)
    requires TakesEligible(t, nodes, region, before, d) && TakesCovering(t, nodes, region, before, d)
    ensures d.outputIds == [] <==> forall n <- nodes :: !GoodMatch(t, region, before, n)
    ensures forall id <- d.outputIds :: GoodId(t, nodes, region, before, id)
    ensures if exists n <- nodes :: CloseMatch(t, region, before, n)
            then forall id :: id in d.outputIds <==> CloseId(t, nodes, region, before, id)
            else |d.outputIds| <= 1
  {
    hide MatchParts, Eligible, Covers, GoodMatch, CloseMatch, EligibleId, CoveringId, GoodId, CloseId;
    forall n ensures Eligible(t, region, before, n) <==> GoodMatch(t, region, before, n) {
      MatchesAre(t, region, before, n);
    }
    forall n ensures Covers(t, region, before, n) <==> CloseMatch(t, region, before, n) {
      MatchesAre(t, region, before, n);
    }
    forall id ensures EligibleId(t, nodes, region, before, id) <==> GoodId(t, nodes, region, before, id) {
      IdsAre(t, nodes, region, before, id);
    }
    forall id ensures CoveringId(t, nodes, region, before, id) <==> CloseId(t, nodes, region, before, id) {
      IdsAre(t, nodes, region, before, id);
    }
  }

  /** Region after region: it goes empty exactly when every open node of its page scores below 0.45; if some good node
      is of its family and overlaps it by 0.7 or more, it takes exactly such nodes, and otherwise one. */
  lemma GreedyInNumbers(t: Texts, nodes: seq<Node>, regions: seq<Region>, i: nat)
    requires i < |regions|
    ensures |Aligned(t, nodes, regions).details| == |regions|
    ensures var details := Aligned(t, nodes, regions).details;
      var ids, before, region := details[i].outputIds, IdsOf(details[..i]), regions[i];
      && (ids == [] <==> forall n <- nodes :: !GoodMatch(t, region, before, n))
      && (forall id <- ids :: GoodId(t, nodes, region, before, id))
      && (if exists n <- nodes :: CloseMatch(t, region, before, n)
          then forall id :: id in ids <==> CloseId(t, nodes, region, before, id)
          else |ids| <= 1)
  {
    hide MatchParts, IdsOf, Aligned, TakesEligible, TakesCovering, GoodMatch, CloseMatch, GoodId, CloseId;
    AlignmentIsGreedy(t, nodes, regions);
    var details := Aligned(t, nodes, regions).details;
    TakenInNumbers(t, nodes, regions[i], IdsOf(details[..i]), details[i]);
  }
}
