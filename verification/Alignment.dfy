/** Alignment of annotated regions with produced nodes: align_gold_nodes, _node_match_parts and
    _intersection_over_smaller (apps/agent-worker/eval/runners/pipeline_eval.py). */
module Alignment {
  import opened Wrappers
  import opened Similarity

  datatype Box = Box(x0: real, y0: real, x1: real, y1: real)

  datatype Node = Node(nodeId: string, page: int, kind: string, text: string, box: Box)

  /** A region of the annotation; its box is absent or any list of numbers. */
  datatype Gold = Gold(goldId: string, kind: string, text: string, box: Option<seq<real>>)

  datatype Page = Page(number: int, golds: seq<Gold>)

  /** Text handling that is not modelled: how text is normalised, and how alike two texts are. */
  datatype Texts = Texts(normalize: string -> string, ratio: (string, string) -> real)

  ghost predicate ValidTexts(t: Texts) {
    forall a, b :: 0.0 <= t.ratio(a, b) <= 1.0
  }

  datatype Parts = Parts(score: real, typeMatch: bool, familyMatch: bool, text: real, geometry: real)

  datatype Detail = Detail(goldId: string, outputIds: seq<string>, score: real, typeMatch: bool, familyMatch: bool,
                           text: real, geometry: real)

  // ----- the score of one pair

  function Max(a: real, b: real): real {
    if a >= b then a else b
  }

  function Min(a: real, b: real): real {
    if a <= b then a else b
  }

  function Area(b: Box): real {
    Mul(b.x1 - b.x0, b.y1 - b.y0)
  }

  function Meet(a: Box, b: Box): Box {
    Box(Max(a.x0, b.x0), Max(a.y0, b.y0), Min(a.x1, b.x1), Min(a.y1, b.y1))
  }

  predicate Proper(b: Box) {
    b.x0 < b.x1 && b.y0 < b.y1
  }

  function OverlapOf(a: Box, b: Box): real {
    if !Proper(Meet(a, b)) then 0.0 else Area(Meet(a, b)) / Max(Min(Area(a), Area(b)), 1.0)
  }

  function Overlap(gold: Option<seq<real>>, output: Box): real {
    if gold.None? || |gold.value| != 4 then 0.0
    else OverlapOf(Box(gold.value[0], gold.value[1], gold.value[2], gold.value[3]), output)
  }

  /** round(x, 6): the nearest multiple of a millionth, ties to the even one. */
  function Round6(x: real): real {
    var scaled := x * 1000000.0;
    var low := scaled.Floor;
    var part := scaled - low as real;
    var whole := if part < 0.5 || (part == 0.5 && low % 2 == 0) then low else low + 1;
    whole as real / 1000000.0
  }

  const TEXTUAL: set<string> := {"heading", "paragraph", "list", "caption", "code"}
  const VISUAL: set<string> := {"image", "chart"}

  predicate SameFamily(a: string, b: string) {
    (a in TEXTUAL && b in TEXTUAL) || (a in VISUAL && b in VISUAL)
  }

  function TextSimilarity(t: Texts, gold: string, output: string): real {
    var a, b := t.normalize(gold), t.normalize(output);
    if a == "" && b == "" then 1.0
    else if a == "" || b == "" then 0.0
    else t.ratio(a, b)
  }

  function MatchParts(t: Texts, gold: Gold, node: Node): Parts {
    var typeMatch, familyMatch := gold.kind == node.kind, SameFamily(gold.kind, node.kind);
    var geometry := Overlap(gold.box, node.box);
    var text := TextSimilarity(t, gold.text, node.text);
    var typeScore := if typeMatch then 0.4 else if familyMatch then 0.2 else 0.0;
    Parts(Round6(typeScore + 0.3 * geometry + 0.3 * text), typeMatch, familyMatch, Round6(text), Round6(geometry))
  }

  // ----- overlap and score lie between 0 and 1

  lemma ProductGrows(a: real, b: real, c: real, d: real)
    requires 0.0 < a <= c && 0.0 < b <= d
    ensures 0.0 < Mul(a, b) <= Mul(c, d)
    ensures Mul(a, b) == Mul(c, d) <==> a == c && b == d
  {
    hide Mul;
    Signs(a, b);
    Monotone(a, c, b);
    Monotone(b, d, c);
  }

  predicate Inside(a: Box, b: Box) {
    b.x0 <= a.x0 && b.y0 <= a.y0 && a.x1 <= b.x1 && a.y1 <= b.y1
  }

  lemma MeetInside(m: Box, a: Box)
    requires Proper(m) && Inside(m, a)
    ensures 0.0 < Area(m) <= Area(a) && (Area(m) == Area(a) <==> m == a)
  {
    hide Mul;
    ProductGrows(m.x1 - m.x0, m.y1 - m.y0, a.x1 - a.x0, a.y1 - a.y0);
  }

  lemma ProperFraction(x: real, y: real)
    requires 0.0 < x <= y
    ensures 0.0 < x / y <= 1.0 && (x / y == 1.0 <==> x == y)
  {
  }

  /** The overlap of any two boxes, even inverted ones, lies between 0 and 1; it is 1 exactly when one of them lies
      inside the other and is at least one unit large. */
  lemma OverlapIsAFraction(a: Box, b: Box)
    ensures 0.0 <= OverlapOf(a, b) <= 1.0
    ensures OverlapOf(a, b) > 0.0 <==> Proper(Meet(a, b))
    ensures OverlapOf(a, b) == 1.0
            <==> || (Inside(a, b) && Proper(a) && Area(a) >= 1.0)
                 || (Inside(b, a) && Proper(b) && Area(b) >= 1.0)
  {
    hide Area;
    var m := Meet(a, b);
    if Inside(a, b) {
      assert m == a;
    }
    if Inside(b, a) {
      assert m == b;
    }
    if Proper(m) {
      MeetInside(m, a);
      MeetInside(m, b);
      ProperFraction(Area(m), Max(Min(Area(a), Area(b)), 1.0));
      assert m == a ==> Inside(a, b);
      assert m == b ==> Inside(b, a);
    }
  }

  lemma RoundIsClose(x: real)
    ensures x - 0.0000005 <= Round6(x) <= x + 0.0000005
    ensures 0.0 <= x <= 1.0 ==> 0.0 <= Round6(x) <= 1.0
  {
  }

  lemma WholeMillionths(n: int)
    ensures Round6(n as real / 1000000.0) == n as real / 1000000.0
  {
    assert n as real / 1000000.0 * 1000000.0 == n as real;
  }

  lemma RoundTwice(x: real)
    ensures Round6(Round6(x)) == Round6(x)
  {
    var scaled := x * 1000000.0;
    var low := scaled.Floor;
    WholeMillionths(low);
    WholeMillionths(low + 1);
  }

  /** Overlap, text similarity and score of every pair lie between 0 and 1, whatever the boxes. */
  lemma PartsAreFractions(t: Texts, gold: Gold, node: Node)
    requires ValidTexts(t)
    ensures var p := MatchParts(t, gold, node);
      0.0 <= p.score <= 1.0 && 0.0 <= p.text <= 1.0 && 0.0 <= p.geometry <= 1.0
  {
    hide Round6, OverlapOf;
    if gold.box.Some? && |gold.box.value| == 4 {
      var g := gold.box.value;
      OverlapIsAFraction(Box(g[0], g[1], g[2], g[3]), node.box);
    }
    var geometry, text := Overlap(gold.box, node.box), TextSimilarity(t, gold.text, node.text);
    var typeScore := if gold.kind == node.kind then 0.4 else if SameFamily(gold.kind, node.kind) then 0.2 else 0.0;
    RoundIsClose(text);
    RoundIsClose(geometry);
    RoundIsClose(typeScore + 0.3 * geometry + 0.3 * text);
  }

  // ----- the greedy alignment

  datatype Candidate = Candidate(node: Node, parts: Parts)

  datatype Region = Region(page: int, gold: Gold)

  datatype State = State(used: set<string>, matches: map<string, seq<string>>, details: seq<Detail>)

  const THRESHOLD := 0.45

  function OnPage(nodes: seq<Node>, page: int): seq<Node> {
    if nodes == [] then []
    else
      var last := nodes[|nodes| - 1];
      OnPage(nodes[..|nodes| - 1], page) + if last.page == page then [last] else []
  }

  /** The unused nodes that score high enough, in their given order. */
  function Candidates(t: Texts, gold: Gold, nodes: seq<Node>, used: set<string>): seq<Candidate> {
    if nodes == [] then []
    else
      var last := nodes[|nodes| - 1];
      var parts := MatchParts(t, gold, last);
      Candidates(t, gold, nodes[..|nodes| - 1], used)
      + if last.nodeId !in used && parts.score >= THRESHOLD then [Candidate(last, parts)] else []
  }

  /** A stable sort by falling score. */
  function SortDown(cs: seq<Candidate>): seq<Candidate> {
    if cs == [] then [] else InsertDown(cs[0], SortDown(cs[1..]))
  }

  function InsertDown(c: Candidate, sorted: seq<Candidate>): seq<Candidate> {
    if sorted == [] || c.parts.score >= sorted[0].parts.score then [c] + sorted
    else [sorted[0]] + InsertDown(c, sorted[1..])
  }

  predicate Fits(c: Candidate) {
    c.parts.geometry >= 0.7 && c.parts.familyMatch && c.parts.score >= THRESHOLD
  }

  function Fitting(cs: seq<Candidate>): seq<Candidate> {
    if cs == [] then [] else (if Fits(cs[0]) then [cs[0]] else []) + Fitting(cs[1..])
  }

  function NodeIds(cs: seq<Candidate>): seq<string> {
    if cs == [] then [] else [cs[0].node.nodeId] + NodeIds(cs[1..])
  }

  function Members(ids: seq<string>): set<string> {
    set id <- ids :: id
  }

  function MaxText(cs: seq<Candidate>): real
    requires cs != []
  {
    if |cs| == 1 then cs[0].parts.text else Max(cs[0].parts.text, MaxText(cs[1..]))
  }

  function MaxGeometry(cs: seq<Candidate>): real
    requires cs != []
  {
    if |cs| == 1 then cs[0].parts.geometry else Max(cs[0].parts.geometry, MaxGeometry(cs[1..]))
  }

  function Choose(sorted: seq<Candidate>): seq<Candidate>
    requires sorted != []
  {
    if Fitting(sorted) == [] then [sorted[0]] else Fitting(sorted)
  }

  function DetailOf(gold: Gold, sorted: seq<Candidate>): Detail {
    if sorted == [] then Detail(gold.goldId, [], 0.0, false, false, 0.0, 0.0)
    else
      var chosen := Choose(sorted);
      NonEmptyChoice(sorted);
      Detail(gold.goldId, NodeIds(chosen), Round6(sorted[0].parts.score), exists c <- chosen :: c.parts.typeMatch,
             exists c <- chosen :: c.parts.familyMatch, MaxText(chosen), MaxGeometry(chosen))
  }

  lemma NonEmptyChoice(sorted: seq<Candidate>)
    requires sorted != []
    ensures Choose(sorted) != []
  {
  }

  function Place(st: State, d: Detail): State {
    State(st.used + Members(d.outputIds), if d.outputIds == [] then st.matches else st.matches[d.goldId := d.outputIds],
          st.details + [d])
  }

  /** One region of the annotation. */
  function AlignRegion(t: Texts, nodes: seq<Node>, region: Region, st: State): State {
    var cs := Candidates(t, region.gold, OnPage(nodes, region.page), st.used);
    Place(st, DetailOf(region.gold, SortDown(cs)))
  }

  function Aligned(t: Texts, nodes: seq<Node>, regions: seq<Region>): State {
    if regions == [] then State({}, map[], [])
    else AlignRegion(t, nodes, regions[|regions| - 1], Aligned(t, nodes, regions[..|regions| - 1]))
  }

  function PageRegions(page: int, golds: seq<Gold>): seq<Region> {
    if golds == [] then []
    else PageRegions(page, golds[..|golds| - 1]) + [Region(page, golds[|golds| - 1])]
  }

  /** The regions of the annotation in reading order. */
  function Regions(pages: seq<Page>): seq<Region> {
    if pages == [] then []
    else
      var last := pages[|pages| - 1];
      Regions(pages[..|pages| - 1]) + PageRegions(last.number, last.golds)
  }

  lemma AlignedSnoc(t: Texts, nodes: seq<Node>, regions: seq<Region>, region: Region)
    ensures Aligned(t, nodes, regions + [region]) == AlignRegion(t, nodes, region, Aligned(t, nodes, regions))
  {
    assert (regions + [region])[..|regions + [region]| - 1] == regions;
  }

  method GroupByPage(nodes: seq<Node>) returns (byPage: map<int, seq<Node>>)
    ensures forall p :: (if p in byPage then byPage[p] else []) == OnPage(nodes, p)
  {
    byPage := map[];
    for i := 0 to |nodes|
      invariant forall p :: (if p in byPage then byPage[p] else []) == OnPage(nodes[..i], p)
    {
      var node := nodes[i];
      assert nodes[..i + 1][..i] == nodes[..i];
      byPage := byPage[node.page := (if node.page in byPage then byPage[node.page] else []) + [node]];
    }
    assert nodes[..|nodes|] == nodes;
  }

  method FindCandidates(t: Texts, gold: Gold, onPage: seq<Node>, used: set<string>) returns (cs: seq<Candidate>)
    ensures cs == Candidates(t, gold, onPage, used)
  {
    cs := [];
    for i := 0 to |onPage|
      invariant cs == Candidates(t, gold, onPage[..i], used)
    {
      assert onPage[..i + 1][..i] == onPage[..i];
      if onPage[i].nodeId !in used {
        var parts := MatchParts(t, gold, onPage[i]);
        if parts.score >= THRESHOLD {
          cs := cs + [Candidate(onPage[i], parts)];
        }
      }
    }
    assert onPage[..|onPage|] == onPage;
  }

  lemma RegionsSnoc(pages: seq<Page>, i: nat)
    requires i < |pages|
    ensures Regions(pages[..i + 1]) == Regions(pages[..i]) + PageRegions(pages[i].number, pages[i].golds)
  {
    assert pages[..i + 1][..i] == pages[..i];
  }

  lemma PageRegionsSnoc(page: int, golds: seq<Gold>, j: nat)
    requires j < |golds|
    ensures PageRegions(page, golds[..j + 1]) == PageRegions(page, golds[..j]) + [Region(page, golds[j])]
  {
    assert golds[..j + 1][..j] == golds[..j];
  }

  method AlignGoldNodes(t: Texts, pages: seq<Page>, nodes: seq<Node>)
    returns (matches: map<string, seq<string>>, details: seq<Detail>)
    ensures var st := Aligned(t, nodes, Regions(pages)); matches == st.matches && details == st.details
  {
    hide AlignRegion, DetailOf, Candidates, SortDown, Regions, PageRegions, Aligned, OnPage, Members;
    var outputByPage := GroupByPage(nodes);
    var used: set<string> := {};
    matches, details := map[], [];
    NothingAligned(t, nodes);
    assert pages[..0] == [];
    for i := 0 to |pages|
      invariant State(used, matches, details) == Aligned(t, nodes, Regions(pages[..i]))
    {
      var page := pages[i];
      ghost var before := Regions(pages[..i]);
      RegionsSnoc(pages, i);
      NoRegions(page.number, page.golds);
      assert before + [] == before;
      for j := 0 to |page.golds|
        invariant State(used, matches, details) == Aligned(t, nodes, before + PageRegions(page.number, page.golds[..j]))
      {
        var gold := page.golds[j];
        ghost var region := Region(page.number, gold);
        ghost var done := before + PageRegions(page.number, page.golds[..j]);
        PageRegionsSnoc(page.number, page.golds, j);
        AlignedSnoc(t, nodes, done, region);
        UnfoldRegion(t, nodes, region, State(used, matches, details));
        assert done + [region] == before + PageRegions(page.number, page.golds[..j + 1]);
        var onPage := if page.number in outputByPage then outputByPage[page.number] else [];
        var candidates := FindCandidates(t, gold, onPage, used);
        var detail := DetailOf(gold, SortDown(candidates));
        details := details + [detail];
        if detail.outputIds != [] {
          used := used + Members(detail.outputIds);
          matches := matches[gold.goldId := detail.outputIds];
        }
      }
      assert page.golds[..|page.golds|] == page.golds;
    }
    assert pages[..|pages|] == pages;
  }

  lemma NothingAligned(t: Texts, nodes: seq<Node>)
    ensures Aligned(t, nodes, []) == State({}, map[], []) && Regions([]) == []
  {
  }

  lemma NoRegions(page: int, golds: seq<Gold>)
    ensures PageRegions(page, golds[..0]) == []
  {
  }

  lemma UnfoldRegion(t: Texts, nodes: seq<Node>, region: Region, st: State)
    ensures var cs := Candidates(t, region.gold, OnPage(nodes, region.page), st.used);
      var d := DetailOf(region.gold, SortDown(cs));
      && AlignRegion(t, nodes, region, st) == Place(st, d)
      && d.goldId == region.gold.goldId
      && (d.outputIds == [] ==> Members(d.outputIds) == {})
  {
  }

  // ----- what the alignment promises

  predicate Eligible(t: Texts, region: Region, before: set<string>, n: Node) {
    n.page == region.page && n.nodeId !in before && MatchParts(t, region.gold, n).score >= THRESHOLD
  }

  function ScoreOf(t: Texts, region: Region, n: Node): real {
    MatchParts(t, region.gold, n).score
  }

  /** An eligible node lying at least 70 % over the region and of its family. */
  predicate Covers(t: Texts, region: Region, before: set<string>, n: Node) {
    Eligible(t, region, before, n) && Fits(Candidate(n, MatchParts(t, region.gold, n)))
  }

  /** `id` belongs to a node that may be taken, and to one that covers the region. */
  predicate EligibleId(t: Texts, nodes: seq<Node>, region: Region, before: set<string>, id: string) {
    exists n <- nodes :: n.nodeId == id && Eligible(t, region, before, n)
  }

  predicate CoveringId(t: Texts, nodes: seq<Node>, region: Region, before: set<string>, id: string) {
    exists n <- nodes :: n.nodeId == id && Covers(t, region, before, n)
  }

  /** A region takes only eligible nodes, goes empty only when there is none, and records the best score. */
  ghost predicate TakesEligible(t: Texts, nodes: seq<Node>, region: Region, before: set<string>, d: Detail) {
    && d.goldId == region.gold.goldId
    && (d.outputIds == [] <==> forall n <- nodes :: !Eligible(t, region, before, n))
    && (forall id <- d.outputIds :: EligibleId(t, nodes, region, before, id))
    && (d.outputIds != [] ==> forall n <- nodes :: Eligible(t, region, before, n) ==> ScoreOf(t, region, n) <= d.score)
  }

  /** It takes every covering node if there is one, and otherwise a single node of the best score. */
  ghost predicate TakesCovering(t: Texts, nodes: seq<Node>, region: Region, before: set<string>, d: Detail) {
    if exists n <- nodes :: Covers(t, region, before, n)
    then forall id :: id in d.outputIds <==> CoveringId(t, nodes, region, before, id)
    else d.outputIds != [] ==>
           exists n <- nodes ::
             Eligible(t, region, before, n) && ScoreOf(t, region, n) == d.score && d.outputIds == [n.nodeId]
  }

  lemma {:induction false} OnPageIs(nodes: seq<Node>, page: int)
    ensures forall n :: n in OnPage(nodes, page) <==> n in nodes && n.page == page
  {
    if nodes != [] {
      OnPageIs(nodes[..|nodes| - 1], page);
      assert nodes == nodes[..|nodes| - 1] + [nodes[|nodes| - 1]];
    }
  }

  predicate IsCandidate(t: Texts, gold: Gold, nodes: seq<Node>, used: set<string>, c: Candidate) {
    c.node in nodes && c.node.nodeId !in used && c.parts == MatchParts(t, gold, c.node) && c.parts.score >= THRESHOLD
  }

  lemma {:induction false} CandidatesAre(t: Texts, gold: Gold, nodes: seq<Node>, used: set<string>)
    ensures forall c :: c in Candidates(t, gold, nodes, used) <==> IsCandidate(t, gold, nodes, used, c)
  {
    hide MatchParts;
    if nodes != [] {
      CandidatesAre(t, gold, nodes[..|nodes| - 1], used);
      assert nodes == nodes[..|nodes| - 1] + [nodes[|nodes| - 1]];
    }
  }

  predicate Falling(cs: seq<Candidate>) {
    forall i, j :: 0 <= i < j < |cs| ==> cs[i].parts.score >= cs[j].parts.score
  }

  lemma {:induction false} InsertDownIs(c: Candidate, sorted: seq<Candidate>)
    requires Falling(sorted)
    ensures Falling(InsertDown(c, sorted))
    ensures forall x :: x in InsertDown(c, sorted) <==> x == c || x in sorted
  {
    if sorted != [] && c.parts.score < sorted[0].parts.score {
      InsertDownIs(c, sorted[1..]);
      var rest := InsertDown(c, sorted[1..]);
      assert sorted == [sorted[0]] + sorted[1..];
      assert forall x <- rest :: x.parts.score <= sorted[0].parts.score;
    }
  }

  lemma {:induction false} SortDownIs(cs: seq<Candidate>)
    ensures Falling(SortDown(cs))
    ensures forall x :: x in SortDown(cs) <==> x in cs
  {
    if cs != [] {
      SortDownIs(cs[1..]);
      InsertDownIs(cs[0], SortDown(cs[1..]));
      assert cs == [cs[0]] + cs[1..];
    }
  }

  lemma {:induction false} FittingIs(cs: seq<Candidate>)
    ensures forall x :: x in Fitting(cs) <==> x in cs && Fits(x)
  {
    hide Fits;
    if cs != [] {
      FittingIs(cs[1..]);
      assert cs == [cs[0]] + cs[1..];
    }
  }

  lemma {:induction false} NodeIdsAre(cs: seq<Candidate>)
    ensures |NodeIds(cs)| == |cs|
    ensures forall id :: id in NodeIds(cs) <==> exists c <- cs :: c.node.nodeId == id
  {
    if cs != [] {
      NodeIdsAre(cs[1..]);
      assert cs == [cs[0]] + cs[1..];
    }
  }

  lemma ScoreIsRounded(t: Texts, gold: Gold, node: Node)
    ensures Round6(MatchParts(t, gold, node).score) == MatchParts(t, gold, node).score
  {
    hide Round6;
    var typeScore := if gold.kind == node.kind then 0.4 else if SameFamily(gold.kind, node.kind) then 0.2 else 0.0;
    RoundTwice(typeScore + 0.3 * Overlap(gold.box, node.box) + 0.3 * TextSimilarity(t, gold.text, node.text));
  }

  predicate FittingId(sorted: seq<Candidate>, id: string) {
    exists c <- sorted :: Fits(c) && c.node.nodeId == id
  }

  lemma ChosenIds(sorted: seq<Candidate>)
    requires sorted != []
    ensures var ids := NodeIds(Choose(sorted));
      && ids != []
      && (forall id <- ids :: exists c <- sorted :: c.node.nodeId == id)
      && (if exists c <- sorted :: Fits(c) then forall id :: id in ids <==> FittingId(sorted, id)
          else ids == [sorted[0].node.nodeId])
  {
    hide Fits;
    FittingIs(sorted);
    NodeIdsAre(Choose(sorted));
    if Fitting(sorted) != [] {
      assert Fitting(sorted)[0] in Fitting(sorted);
    }
  }

  ghost predicate RanksEligible(t: Texts, nodes: seq<Node>, region: Region, before: set<string>, sorted: seq<Candidate>) {
    && Falling(sorted)
    && (forall c <- sorted :: c.node in nodes && Eligible(t, region, before, c.node)
                              && c.parts == MatchParts(t, region.gold, c.node))
    && (forall n <- nodes :: Eligible(t, region, before, n) ==> Candidate(n, MatchParts(t, region.gold, n)) in sorted)
  }

  /** The candidates of a region, ranked, are its eligible nodes. */
  lemma RankedAreEligible(t: Texts, nodes: seq<Node>, region: Region, before: set<string>)
    ensures RanksEligible(t, nodes, region, before, SortDown(Candidates(t, region.gold, OnPage(nodes, region.page), before)))
  {
    hide MatchParts, Falling;
    OnPageIs(nodes, region.page);
    CandidatesAre(t, region.gold, OnPage(nodes, region.page), before);
    SortDownIs(Candidates(t, region.gold, OnPage(nodes, region.page), before));
  }

  lemma EligibleAreTaken(t: Texts, nodes: seq<Node>, region: Region, before: set<string>, sorted: seq<Candidate>)
    requires RanksEligible(t, nodes, region, before, sorted)
    ensures TakesEligible(t, nodes, region, before, DetailOf(region.gold, sorted))
  {
    hide MatchParts, Round6, Eligible, Choose, NodeIds, Fits;
    if sorted != [] {
      var first := sorted[0];
      ScoreIsRounded(t, region.gold, first.node);
      ChosenIds(sorted);
      assert first in sorted;
    }
  }

  lemma CoversAreFitting(t: Texts, nodes: seq<Node>, region: Region, before: set<string>, sorted: seq<Candidate>)
    requires RanksEligible(t, nodes, region, before, sorted)
    ensures (exists c <- sorted :: Fits(c)) <==> exists n <- nodes :: Covers(t, region, before, n)
    ensures forall id :: FittingId(sorted, id) <==> CoveringId(t, nodes, region, before, id)
  {
    hide MatchParts, Fits, Eligible;
    forall c <- sorted ensures Fits(c) ==> Covers(t, region, before, c.node) {
      assert c == Candidate(c.node, MatchParts(t, region.gold, c.node));
    }
  }

  lemma CoveringAreTaken(t: Texts, nodes: seq<Node>, region: Region, before: set<string>, sorted: seq<Candidate>)
    requires RanksEligible(t, nodes, region, before, sorted)
    ensures TakesCovering(t, nodes, region, before, DetailOf(region.gold, sorted))
  {
    CoversAreFitting(t, nodes, region, before, sorted);
    hide MatchParts, Round6, Eligible, Choose, NodeIds, Fits, CoveringId, FittingId;
    if sorted != [] {
      ScoreIsRounded(t, region.gold, sorted[0].node);
      ChosenIds(sorted);
      assert sorted[0] in sorted;
    }
  }

  function IdsOf(details: seq<Detail>): set<string> {
    if details == [] then {} else IdsOf(details[..|details| - 1]) + Members(details[|details| - 1].outputIds)
  }

  ghost predicate Greedy(t: Texts, nodes: seq<Node>, regions: seq<Region>, details: seq<Detail>) {
    && |details| == |regions|
    && forall i :: 0 <= i < |regions| ==>
         && TakesEligible(t, nodes, regions[i], IdsOf(details[..i]), details[i])
         && TakesCovering(t, nodes, regions[i], IdsOf(details[..i]), details[i])
  }

  lemma GreedySnoc(t: Texts, nodes: seq<Node>, regions: seq<Region>, details: seq<Detail>, region: Region, d: Detail)
    requires Greedy(t, nodes, regions, details)
    requires TakesEligible(t, nodes, region, IdsOf(details), d) && TakesCovering(t, nodes, region, IdsOf(details), d)
    ensures Greedy(t, nodes, regions + [region], details + [d])
    ensures IdsOf(details + [d]) == IdsOf(details) + Members(d.outputIds)
  {
    hide TakesEligible, TakesCovering;
    var all := details + [d];
    assert all[..|details|] == details;
    forall i | 0 <= i < |details| ensures all[..i] == details[..i] {
    }
  }

  lemma NothingGreedy(t: Texts, nodes: seq<Node>)
    ensures Greedy(t, nodes, [], [])
  {
  }

  /** Region after region, the alignment is the greedy one over the nodes no earlier region took. */
  lemma {:induction false} AlignmentIsGreedy(t: Texts, nodes: seq<Node>, regions: seq<Region>)
    ensures var st := Aligned(t, nodes, regions);
      Greedy(t, nodes, regions, st.details) && st.used == IdsOf(st.details)
  {
    NothingGreedy(t, nodes);
    hide Greedy, DetailOf, Candidates, SortDown, TakesEligible, TakesCovering, OnPage;
    if regions != [] {
      var init, region := regions[..|regions| - 1], regions[|regions| - 1];
      var st := Aligned(t, nodes, init);
      AlignmentIsGreedy(t, nodes, init);
      var sorted := SortDown(Candidates(t, region.gold, OnPage(nodes, region.page), st.used));
      RankedAreEligible(t, nodes, region, st.used);
      EligibleAreTaken(t, nodes, region, st.used, sorted);
      CoveringAreTaken(t, nodes, region, st.used, sorted);
      GreedySnoc(t, nodes, init, st.details, region, DetailOf(region.gold, sorted));
      assert regions == init + [region];
    }
  }

  lemma {:induction false} IdsGrow(details: seq<Detail>, i: nat, id: string)
    requires i < |details| && id in details[i].outputIds
    ensures id in IdsOf(details)
  {
    if i < |details| - 1 {
      IdsGrow(details[..|details| - 1], i, id);
    }
  }

  /** No output node is matched with two regions. */
  lemma OutputsAreDisjoint(t: Texts, nodes: seq<Node>, regions: seq<Region>, i: nat, j: nat, id: string)
    requires i < j < |regions| && |Aligned(t, nodes, regions).details| == |regions|
    requires id in Aligned(t, nodes, regions).details[i].outputIds
    ensures id !in Aligned(t, nodes, regions).details[j].outputIds
  {
    hide Aligned, TakesCovering;
    var details := Aligned(t, nodes, regions).details;
    AlignmentIsGreedy(t, nodes, regions);
    assert TakesEligible(t, nodes, regions[j], IdsOf(details[..j]), details[j]);
    IdsGrow(details[..j], i, id);
  }

  predicate DistinctGolds(regions: seq<Region>) {
    forall i, j :: 0 <= i < j < |regions| ==> regions[i].gold.goldId != regions[j].gold.goldId
  }

  lemma {:induction false} DetailsCount(t: Texts, nodes: seq<Node>, regions: seq<Region>)
    ensures |Aligned(t, nodes, regions).details| == |regions|
  {
    hide DetailOf, Candidates, SortDown, OnPage;
    if regions != [] {
      DetailsCount(t, nodes, regions[..|regions| - 1]);
    }
  }

  /** With distinct gold ids the returned map holds exactly the non-empty output lists. */
  lemma {:induction false} MatchesAreTheOutputs(t: Texts, nodes: seq<Node>, regions: seq<Region>, i: nat)
    requires DistinctGolds(regions) && i < |regions|
    ensures var st, id := Aligned(t, nodes, regions), regions[i].gold.goldId;
      && i < |st.details|
      && (id in st.matches <==> st.details[i].outputIds != [])
      && (id in st.matches ==> st.matches[id] == st.details[i].outputIds)
  {
    hide DetailOf, Candidates, SortDown, OnPage, AlignRegion;
    var init, region := regions[..|regions| - 1], regions[|regions| - 1];
    DetailsCount(t, nodes, init);
    UnfoldRegion(t, nodes, region, Aligned(t, nodes, init));
    if i < |init| {
      MatchesAreTheOutputs(t, nodes, init, i);
    } else {
      NotYetMatched(t, nodes, init, region.gold.goldId);
    }
  }

  lemma {:induction false} NotYetMatched(t: Texts, nodes: seq<Node>, regions: seq<Region>, id: string)
    requires forall r <- regions :: r.gold.goldId != id
    ensures id !in Aligned(t, nodes, regions).matches
  {
    hide Candidates, SortDown, OnPage, Choose, NodeIds, Members;
    if regions != [] {
      var init := regions[..|regions| - 1];
      assert forall r <- init :: r in regions;
      NotYetMatched(t, nodes, init, id);
    }
  }

  /** Among the best candidates the one that comes first in the document is taken first. */
  lemma {:induction false} BestIsTheEarliest(cs: seq<Candidate>) returns (i: nat)
    requires cs != []
    ensures i < |cs| && SortDown(cs) != [] && SortDown(cs)[0] == cs[i]
    ensures forall j :: 0 <= j < |cs| ==> cs[j].parts.score <= cs[i].parts.score
    ensures forall j :: 0 <= j < i ==> cs[j].parts.score < cs[i].parts.score
  {
    var rest := cs[1..];
    i := 0;
    if rest != [] {
      var k := BestIsTheEarliest(rest);
      if cs[0].parts.score < rest[k].parts.score {
        i := k + 1;
      }
      assert forall j :: 0 < j < |cs| ==> cs[j] == rest[j - 1];
    }
  }

  predicate Largest(x: real, values: seq<real>) {
    x in values && forall v <- values :: v <= x
  }

  function TextsOf(cs: seq<Candidate>): seq<real> {
    if cs == [] then [] else [cs[0].parts.text] + TextsOf(cs[1..])
  }

  function GeometriesOf(cs: seq<Candidate>): seq<real> {
    if cs == [] then [] else [cs[0].parts.geometry] + GeometriesOf(cs[1..])
  }

  lemma {:induction false} MaximaAreLargest(cs: seq<Candidate>)
    requires cs != []
    ensures Largest(MaxText(cs), TextsOf(cs)) && Largest(MaxGeometry(cs), GeometriesOf(cs))
  {
    if |cs| > 1 {
      MaximaAreLargest(cs[1..]);
    }
  }

  /** A region that found nothing is reported with zeros, and any other by its best candidate and the largest text
      similarity and overlap among the nodes it took. */
  lemma DetailDescribesTheChoice(gold: Gold, sorted: seq<Candidate>)
    ensures var d := DetailOf(gold, sorted);
      if sorted == [] then d.outputIds == [] && d.score == d.text == d.geometry == 0.0
      else
        && d.score == Round6(sorted[0].parts.score)
        && Largest(d.text, TextsOf(Choose(sorted))) && Largest(d.geometry, GeometriesOf(Choose(sorted)))
        && (d.typeMatch <==> exists c <- Choose(sorted) :: c.parts.typeMatch)
        && (d.familyMatch <==> exists c <- Choose(sorted) :: c.parts.familyMatch)
  {
    hide Choose, Round6;
    if sorted != [] {
      NonEmptyChoice(sorted);
      MaximaAreLargest(Choose(sorted));
    }
  }
}
