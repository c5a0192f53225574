/** The document of build_pdf_fixture (scripts/p2-runtime-fault-drill.py): its objects and their references. */
module PdfFixture {
  import opened Wrappers
  import opened Decimal
  import opened PdfFile

  datatype PdfError = BadPageCount | NotAscii

  // ----- the texts

  function Join(separator: bytes, parts: seq<bytes>): bytes {
    if parts == [] then []
    else if |parts| == 1 then parts[0]
    else parts[0] + separator + Join(separator, parts[1..])
  }

  function CatalogHead(): bytes {
    "<< /Type /Catalog /Pages "
  }

  function Close(): bytes {
    " >>"
  }

  function RefMark(): bytes {
    " 0 R"
  }

  function PagesHead(): bytes {
    "<< /Type /Pages /Kids ["
  }

  function CountHead(): bytes {
    "] /Count "
  }

  function PageHead(): bytes {
    "<< /Type /Page /Parent 2 0 R /MediaBox [0 0 612 792] " + "/Resources << /Font << /F1 "
  }

  function ContentsHead(): bytes {
    " >> >> " + "/Contents "
  }

  function LengthHead(): bytes {
    "<< /Length "
  }

  function StreamHead(): bytes {
    " >>\nstream\n"
  }

  function StreamTail(): bytes {
    "\nendstream"
  }

  function FontBody(): bytes {
    "<< /Type /Font /Subtype /Type1 " + "/BaseFont /Helvetica >>"
  }

  function Sentence(): bytes {
    "This document validates durable " + "ingestion lease recovery, "
    + "bounded retry, atomic chunks, and " + "vector index consistency."
  }

  function SafeChar(alnum: char -> bool, c: char): char {
    if alnum(c) || c == '-' || c == '_' then c else '-'
  }

  function Replaced(alnum: char -> bool, marker: string): string {
    if marker == [] then [] else [SafeChar(alnum, marker[0])] + Replaced(alnum, marker[1..])
  }

  /** The marker as it appears in the text: unsafe characters replaced, cut to 80. */
  function Safe(alnum: char -> bool, marker: string): string {
    var replaced := Replaced(alnum, marker);
    if |replaced| <= 80 then replaced else replaced[..80]
  }

  predicate Ascii(s: string) {
    forall i :: 0 <= i < |s| ==> s[i] as int < 128
  }

  function Line(safe: bytes, index: nat, line: nat): bytes {
    "Jarvis P2 RAG restart " + safe + " page " + Print(index) + " line " + Print(line) + ". " + Sentence()
  }

  /** The operators of a page with `count` lines, before ET. */
  function Operators(safe: bytes, index: nat, count: nat): seq<bytes> {
    if count == 0 then ["BT /F1 9 Tf 48 744 Td"]
    else Operators(safe, index, count - 1) + ["(" + Line(safe, index, count) + ") Tj", "0 -18 Td"]
  }

  function Stream(safe: bytes, index: nat): bytes {
    Join("\n", Operators(safe, index, 12) + ["ET"])
  }

  // ----- the objects

  function PageId(index: nat): nat {
    2 * index + 1
  }

  function FontId(pages: nat): nat {
    2 * pages + 3
  }

  function Ref(id: nat): bytes {
    Print(id) + RefMark()
  }

  function KidRefs(index: nat, pages: nat): seq<bytes>
    decreases pages - index
  {
    if index > pages then [] else [Ref(PageId(index))] + KidRefs(index + 1, pages)
  }

  function PagesBody(pages: nat): bytes {
    PagesHead() + Join(" ", KidRefs(1, pages)) + CountHead() + Print(pages) + Close()
  }

  function PageBody(pages: nat, index: nat): bytes {
    PageHead() + Ref(FontId(pages)) + ContentsHead() + Ref(PageId(index) + 1) + Close()
  }

  function StreamBody(stream: bytes): bytes {
    LengthHead() + Print(|stream|) + StreamHead() + stream + StreamTail()
  }

  function PageObjects(pages: nat, safe: bytes, count: nat): seq<bytes> {
    if count == 0 then []
    else PageObjects(pages, safe, count - 1) + [PageBody(pages, count), StreamBody(Stream(safe, count))]
  }

  function CatalogBody(): bytes {
    CatalogHead() + Ref(2) + Close()
  }

  function Objects(pages: nat, safe: bytes): seq<bytes> {
    [CatalogBody(), PagesBody(pages)] + PageObjects(pages, safe, pages) + [FontBody()]
  }

  // ----- the writer

  method BuildStream(safe: bytes, index: nat) returns (stream: bytes)
    ensures stream == Stream(safe, index)
  {
    hide Line;
    var operators := ["BT /F1 9 Tf 48 744 Td"];
    for line := 0 to 12
      invariant operators == Operators(safe, index, line)
    {
      operators := operators + ["(" + Line(safe, index, line + 1) + ") Tj", "0 -18 Td"];
    }
    operators := operators + ["ET"];
    stream := Join("\n", operators);
  }

  method BuildPdfFixture(alnum: char -> bool, marker: string, pageCount: int) returns (r: Result<bytes, PdfError>)
    ensures r == Err(BadPageCount) <==> !(1 <= pageCount <= 256)
    ensures r == Err(NotAscii) <==> 1 <= pageCount <= 256 && !Ascii(Safe(alnum, marker))
    ensures r.Ok? ==> r.value == File(Objects(pageCount, Safe(alnum, marker)))
  {
    hide File, Stream, PageBody, PagesBody, CatalogBody, StreamBody, FontBody, Safe, Ascii;
    if !(1 <= pageCount <= 256) {
      return Err(BadPageCount);
    }
    var safe := Safe(alnum, marker);
    var objects := [CatalogBody(), PagesBody(pageCount)];
    for index := 0 to pageCount
      invariant objects == [CatalogBody(), PagesBody(pageCount)] + PageObjects(pageCount, safe, index)
      invariant index > 0 ==> Ascii(safe)
    {
      objects := objects + [PageBody(pageCount, index + 1)];
      var stream := BuildStream(safe, index + 1);
      // The text around the marker is ASCII, so encoding fails exactly when the marker is not.
      if !Ascii(safe) {
        return Err(NotAscii);
      }
      objects := objects + [StreamBody(stream)];
    }
    objects := objects + [FontBody()];
    var output := WriteFile(objects);
    return Ok(output);
  }

  // ----- the sizes

  lemma {:induction false} ReplacedLength(alnum: char -> bool, marker: string)
    ensures |Replaced(alnum, marker)| == |marker|
  {
    if marker != [] {
      ReplacedLength(alnum, marker[1..]);
    }
  }

  predicate Within(parts: seq<bytes>, m: nat) {
    forall i :: 0 <= i < |parts| ==> |parts[i]| <= m
  }

  lemma {:induction false} JoinLength(separator: bytes, parts: seq<bytes>, m: nat)
    requires Within(parts, m)
    ensures |Join(separator, parts)| <= |parts| * (m + |separator|)
  {
    if |parts| > 1 {
      JoinLength(separator, parts[1..], m);
      assert |parts| * (m + |separator|) == |parts[1..]| * (m + |separator|) + (m + |separator|);
    }
  }

  lemma ShortNumber(n: nat)
    requires n < 100_000
    ensures |Print(n)| <= 5
  {
    assert Power(5) == 100_000;
    PrintLength(n, 5);
  }

  lemma LineLength(safe: bytes, index: nat, line: nat)
    requires |safe| <= 80 && index <= 256 && line <= 12
    ensures |Line(safe, index, line)| <= 300
  {
    hide Print;
    ShortNumber(index);
    ShortNumber(line);
  }

  lemma {:induction false} OperatorsLength(safe: bytes, index: nat, count: nat)
    requires |safe| <= 80 && index <= 256 && count <= 12
    ensures Within(Operators(safe, index, count), 400) && |Operators(safe, index, count)| == 2 * count + 1
  {
    hide Line;
    if count > 0 {
      OperatorsLength(safe, index, count - 1);
      LineLength(safe, index, count);
    }
  }

  lemma StreamLength(safe: bytes, index: nat)
    requires |safe| <= 80 && index <= 256
    ensures |Stream(safe, index)| <= 12_000
  {
    hide Line, Join, Operators;
    OperatorsLength(safe, index, 12);
    JoinLength("\n", Operators(safe, index, 12) + ["ET"], 400);
  }

  lemma StreamBodyLength(safe: bytes, index: nat)
    requires |safe| <= 80 && index <= 256
    ensures |StreamBody(Stream(safe, index))| <= 13_000
  {
    hide Stream, Print;
    StreamLength(safe, index);
    ShortNumber(|Stream(safe, index)|);
  }

  lemma PageBodyLength(pages: nat, index: nat)
    requires 1 <= index <= pages <= 256
    ensures |PageBody(pages, index)| <= 13_000
  {
    hide Print;
    ShortNumber(FontId(pages));
    ShortNumber(PageId(index) + 1);
  }

  lemma {:induction false} KidRefsLength(index: nat, pages: nat)
    requires 1 <= index && pages <= 256
    ensures Within(KidRefs(index, pages), 10) && |KidRefs(index, pages)| <= 256
    ensures index <= pages ==> |KidRefs(index, pages)| == pages - index + 1
    decreases pages - index
  {
    hide Print;
    if index <= pages {
      ShortNumber(PageId(index));
      KidRefsLength(index + 1, pages);
    }
  }

  lemma PagesBodyLength(pages: nat)
    requires pages <= 256
    ensures |PagesBody(pages)| <= 13_000
  {
    hide Print, Join, KidRefs;
    KidRefsLength(1, pages);
    JoinLength(" ", KidRefs(1, pages), 10);
    ShortNumber(pages);
  }

  lemma {:induction false} PageObjectsLength(pages: nat, safe: bytes, count: nat)
    requires |safe| <= 80 && count <= pages <= 256
    ensures Within(PageObjects(pages, safe, count), 13_000) && |PageObjects(pages, safe, count)| == 2 * count
  {
    hide PageBody, StreamBody;
    if count > 0 {
      PageObjectsLength(pages, safe, count - 1);
      PageBodyLength(pages, count);
      StreamBodyLength(safe, count);
    }
  }

  lemma ObjectsLength(pages: nat, safe: bytes)
    requires |safe| <= 80 && 1 <= pages <= 256
    ensures Within(Objects(pages, safe), 13_000) && |Objects(pages, safe)| == 2 * pages + 3
  {
    hide PagesBody, PageObjects, Print;
    PagesBodyLength(pages);
    PageObjectsLength(pages, safe, pages);
    ShortNumber(2);
  }

  lemma {:induction false} WrittenLength(objects: seq<bytes>, m: nat)
    requires Within(objects, m) && |objects| <= 1000
    ensures |Written(objects)| <= 20 + |objects| * (m + 30)
  {
    hide Print;
    if objects != [] {
      var init := objects[..|objects| - 1];
      WrittenLength(init, m);
      ShortNumber(|objects|);
      assert |objects| * (m + 30) == |init| * (m + 30) + (m + 30);
    }
  }

  /** The file is far below ten digits of length, so every offset fits its entry. */
  lemma FixtureIsSmall(pages: nat, safe: bytes)
    requires |safe| <= 80 && 1 <= pages <= 256
    ensures Small(Objects(pages, safe))
  {
    hide Objects, Written;
    ObjectsLength(pages, safe);
    WrittenLength(Objects(pages, safe), 13_000);
    assert |Objects(pages, safe)| * 13_030 <= 515 * 13_030;
    WrittenMeansSmall(Objects(pages, safe));
  }

  lemma WrittenMeansSmall(objects: seq<bytes>)
    requires |Written(objects)| < 10_000_000_000
    ensures Small(objects)
  {
  }

  // ----- where the objects are

  lemma {:induction false} PageObjectsAre(pages: nat, safe: bytes, count: nat, index: nat)
    requires 1 <= index <= count
    ensures |PageObjects(pages, safe, count)| == 2 * count
    ensures PageObjects(pages, safe, count)[2 * index - 2] == PageBody(pages, index)
    ensures PageObjects(pages, safe, count)[2 * index - 1] == StreamBody(Stream(safe, index))
  {
    hide PageBody, StreamBody, Stream;
    if index < count {
      PageObjectsAre(pages, safe, count - 1, index);
    } else if count > 1 {
      PageObjectsAre(pages, safe, count - 1, 1);
    }
  }

  /** Each object has the number that the references use for it. */
  lemma ObjectsAre(pages: nat, safe: bytes, index: nat)
    requires 1 <= index <= pages
    ensures var objects := Objects(pages, safe);
      && |objects| == 2 * pages + 3
      && objects[0] == CatalogBody() && objects[1] == PagesBody(pages)
      && objects[PageId(index) - 1] == PageBody(pages, index)
      && objects[PageId(index)] == StreamBody(Stream(safe, index))
      && objects[FontId(pages) - 1] == FontBody()
  {
    hide PageBody, StreamBody, Stream, PageObjects, PagesBody, CatalogBody, FontBody;
    PageObjectsAre(pages, safe, pages, index);
  }

  // ----- a reader for the document

  function ReadRef(s: bytes): (r: Option<Numeral>)
    ensures r.Some? ==> |r.value.rest| < |s|
  {
    match TakeNumber(s)
    case None => None
    case Some(number) =>
      match Strip(RefMark(), number.rest)
      case None => None
      case Some(rest) => Some(Numeral(number.value, rest))
  }

  datatype Kids = Kids(ids: seq<nat>, rest: bytes)

  /** References separated by single spaces. */
  function ReadKids(s: bytes): Option<Kids>
    decreases |s|
  {
    match ReadRef(s)
    case None => None
    case Some(first) =>
      match Strip(" ", first.rest)
      case None => Some(Kids([first.value], first.rest))
      case Some(more) =>
        match ReadKids(more)
        case None => None
        case Some(others) => Some(Kids([first.value] + others.ids, others.rest))
  }

  /** The number of the page tree in a catalog. */
  function ParseCatalog(s: bytes): Option<nat> {
    match Strip(CatalogHead(), s)
    case None => None
    case Some(s) =>
      match ReadRef(s)
      case None => None
      case Some(pages) => if Strip(Close() + ObjectTail(), pages.rest).None? then None else Some(pages.value)
  }

  /** The pages of a page tree, if their count is right. */
  function ParsePageTree(s: bytes): Option<seq<nat>> {
    match Strip(PagesHead(), s)
    case None => None
    case Some(s) =>
      match ReadKids(s)
      case None => None
      case Some(kids) =>
        match Strip(CountHead(), kids.rest)
        case None => None
        case Some(s) =>
          match TakeNumber(s)
          case None => None
          case Some(count) =>
            if count.value != |kids.ids| || Strip(Close() + ObjectTail(), count.rest).None? then None
            else Some(kids.ids)
  }

  /** The bytes of a stream, as many as its /Length says, when the object ends right after them. */
  function ParseStream(s: bytes): Option<bytes> {
    match Strip(LengthHead(), s)
    case None => None
    case Some(s) =>
      match TakeNumber(s)
      case None => None
      case Some(length) =>
        match Strip(StreamHead(), length.rest)
        case None => None
        case Some(s) =>
          if length.value > |s| || Strip(StreamTail() + ObjectTail(), s[length.value..]).None? then None
          else Some(s[..length.value])
  }

  datatype PageRefs = PageRefs(font: nat, contents: nat)

  function ParsePage(s: bytes): Option<PageRefs> {
    match Strip(PageHead(), s)
    case None => None
    case Some(s) =>
      match ReadRef(s)
      case None => None
      case Some(font) =>
        match Strip(ContentsHead(), font.rest)
        case None => None
        case Some(s) =>
          match ReadRef(s)
          case None => None
          case Some(contents) =>
            if Strip(Close() + ObjectTail(), contents.rest).None? then None
            else Some(PageRefs(font.value, contents.value))
  }

  /** Object `id`, read by `parse`. */
  function ReadAs<T>(file: bytes, id: nat, parse: bytes -> Option<T>): Option<T> {
    match ReadObject(file, id)
    case None => None
    case Some(s) => parse(s)
  }

  predicate IsFont(file: bytes, id: nat) {
    ReadAs(file, id, s => Strip(FontBody() + ObjectTail(), s)).Some?
  }

  /** The content of the page `id`, when its font is there. */
  function ReadPage(file: bytes, id: nat): Option<bytes> {
    match ReadAs(file, id, ParsePage)
    case None => None
    case Some(refs) => if IsFont(file, refs.font) then ReadAs(file, refs.contents, ParseStream) else None
  }

  function ReadPages(file: bytes, ids: seq<nat>): Option<seq<bytes>> {
    if ids == [] then Some([])
    else
      var first, others := ReadPage(file, ids[0]), ReadPages(file, ids[1..]);
      if first.None? || others.None? then None else Some([first.value] + others.value)
  }

  /** The contents of all pages, found by following every offset and reference of the file. */
  function ReadDocument(file: bytes): Option<seq<bytes>> {
    match ReadAs(file, 1, ParseCatalog)
    case None => None
    case Some(tree) =>
      match ReadAs(file, tree, ParsePageTree)
      case None => None
      case Some(ids) => ReadPages(file, ids)
  }

  // ----- reading back the fixture

  lemma RefReads(id: nat, rest: bytes)
    ensures ReadRef(Ref(id) + rest) == Some(Numeral(id, rest))
  {
    hide TakeNumber, Print;
    TakePrinted(id, RefMark() + rest);
    StripFront(RefMark(), rest);
    assert Ref(id) + rest == Print(id) + (RefMark() + rest);
  }

  function PageIds(index: nat, pages: nat): seq<nat>
    decreases pages - index
  {
    if index > pages then [] else [PageId(index)] + PageIds(index + 1, pages)
  }

  lemma JoinCons(separator: bytes, parts: seq<bytes>)
    requires |parts| > 1
    ensures Join(separator, parts) == parts[0] + separator + Join(separator, parts[1..])
  {
  }

  lemma LastKid(id: nat, rest: bytes)
    ensures ReadKids(Ref(id) + (CountHead() + rest)) == Some(Kids([id], CountHead() + rest))
  {
    hide ReadRef, Ref;
    RefReads(id, CountHead() + rest);
    assert (CountHead() + rest)[0] == ']';
  }

  lemma NextKid(id: nat, more: bytes, others: Kids)
    requires ReadKids(more) == Some(others)
    ensures ReadKids(Ref(id) + (" " + more)) == Some(Kids([id] + others.ids, others.rest))
  {
    hide ReadRef, Ref;
    RefReads(id, " " + more);
    StripFront(" ", more);
  }

  lemma {:induction false} KidsRead(index: nat, pages: nat, rest: bytes)
    requires 1 <= index <= pages
    ensures ReadKids(Join(" ", KidRefs(index, pages)) + (CountHead() + rest))
            == Some(Kids(PageIds(index, pages), CountHead() + rest))
    decreases pages - index
  {
    hide ReadKids, Ref, CountHead, Join;
    var refs := KidRefs(index, pages);
    if index == pages {
      OneKid(index, rest);
    } else {
      var more := Join(" ", KidRefs(index + 1, pages)) + (CountHead() + rest);
      assert refs[1..] == KidRefs(index + 1, pages) && |refs| > 1;
      JoinCons(" ", refs);
      assert Join(" ", refs) + (CountHead() + rest) == Ref(PageId(index)) + (" " + more);
      KidsRead(index + 1, pages, rest);
      NextKid(PageId(index), more, Kids(PageIds(index + 1, pages), CountHead() + rest));
    }
  }

  lemma OneKid(index: nat, rest: bytes)
    ensures ReadKids(Join(" ", KidRefs(index, index)) + (CountHead() + rest))
            == Some(Kids(PageIds(index, index), CountHead() + rest))
  {
    hide ReadKids, Ref, CountHead;
    assert KidRefs(index + 1, index) == [] && PageIds(index + 1, index) == [];
    assert KidRefs(index, index) == [Ref(PageId(index))] && PageIds(index, index) == [PageId(index)];
    LastKid(PageId(index), rest);
  }

  lemma {:induction false} PageIdsLength(index: nat, pages: nat)
    requires 1 <= index <= pages + 1
    ensures |PageIds(index, pages)| == pages + 1 - index
    decreases pages - index
  {
    if index <= pages {
      PageIdsLength(index + 1, pages);
    }
  }

  lemma Group3(a: bytes, b: bytes, c: bytes, r: bytes)
    ensures a + b + c + r == a + (b + (c + r))
  {
  }

  lemma Group5(a: bytes, b: bytes, c: bytes, d: bytes, e: bytes, r: bytes)
    ensures a + b + c + d + e + r == a + (b + (c + (d + (e + r))))
  {
    Group3(a, b, c, d + e + r);
    assert a + b + c + d + e + r == a + b + c + (d + e + r);
  }

  /** The closing bytes of an object are followed by endobj. */
  lemma Closed(close: bytes, more: bytes)
    ensures Strip(close + ObjectTail(), close + (ObjectTail() + more)).Some?
  {
    assert close + (ObjectTail() + more) == (close + ObjectTail()) + more;
    StripFront(close + ObjectTail(), more);
  }

  lemma CatalogParses(more: bytes)
    ensures ParseCatalog(CatalogBody() + (ObjectTail() + more)) == Some(2)
  {
    hide CatalogHead, Ref, Close, ObjectTail, ReadRef, Strip;
    var end := Close() + (ObjectTail() + more);
    Group3(CatalogHead(), Ref(2), Close(), ObjectTail() + more);
    StripFront(CatalogHead(), Ref(2) + end);
    RefReads(2, end);
    Closed(Close(), more);
  }

  lemma CloseIsNoDigit(rest: bytes)
    ensures NotDigitFirst(Close() + rest) && NotDigitFirst(StreamHead() + rest)
  {
  }

  lemma PageTreeParses(pages: nat, more: bytes)
    requires pages > 0
    ensures ParsePageTree(PagesBody(pages) + (ObjectTail() + more)) == Some(PageIds(1, pages))
  {
    var kids := Join(" ", KidRefs(1, pages));
    PageIdsLength(1, pages);
    var end := Close() + (ObjectTail() + more);
    hide PagesHead, CountHead, Join, KidRefs, PageIds, Print, Close, ObjectTail, ReadKids, TakeNumber, Strip;
    hide NotDigitFirst;
    Group5(PagesHead(), kids, CountHead(), Print(pages), Close(), ObjectTail() + more);
    StripFront(PagesHead(), kids + (CountHead() + (Print(pages) + end)));
    KidsRead(1, pages, Print(pages) + end);
    StripFront(CountHead(), Print(pages) + end);
    CloseIsNoDigit(ObjectTail() + more);
    TakePrinted(pages, end);
    Closed(Close(), more);
  }

  lemma StreamParses(stream: bytes, more: bytes)
    ensures ParseStream(StreamBody(stream) + (ObjectTail() + more)) == Some(stream)
  {
    hide LengthHead, StreamHead, StreamTail, Print, ObjectTail, TakeNumber, Strip, NotDigitFirst;
    var end := StreamTail() + (ObjectTail() + more);
    Group5(LengthHead(), Print(|stream|), StreamHead(), stream, StreamTail(), ObjectTail() + more);
    StripFront(LengthHead(), Print(|stream|) + (StreamHead() + (stream + end)));
    CloseIsNoDigit(stream + end);
    TakePrinted(|stream|, StreamHead() + (stream + end));
    StripFront(StreamHead(), stream + end);
    assert (stream + end)[..|stream|] == stream && (stream + end)[|stream|..] == end;
    Closed(StreamTail(), more);
  }

  lemma PageParses(pages: nat, index: nat, more: bytes)
    ensures ParsePage(PageBody(pages, index) + (ObjectTail() + more))
            == Some(PageRefs(FontId(pages), PageId(index) + 1))
  {
    hide PageHead, ContentsHead, Ref, Close, ObjectTail, ReadRef, Strip;
    var end := Close() + (ObjectTail() + more);
    var font, contents := FontId(pages), PageId(index) + 1;
    Group5(PageHead(), Ref(font), ContentsHead(), Ref(contents), Close(), ObjectTail() + more);
    StripFront(PageHead(), Ref(font) + (ContentsHead() + (Ref(contents) + end)));
    RefReads(font, ContentsHead() + (Ref(contents) + end));
    StripFront(ContentsHead(), Ref(contents) + end);
    RefReads(contents, end);
    Closed(Close(), more);
  }

  /** Looking up an object of the fixture finds its body, followed by endobj. */
  lemma FixtureObject(pages: nat, safe: bytes, id: nat, body: bytes) returns (more: bytes)
    requires |safe| <= 80 && 1 <= pages <= 256 && 1 <= id <= |Objects(pages, safe)|
    requires Objects(pages, safe)[id - 1] == body
    ensures ReadObject(File(Objects(pages, safe)), id) == Some(body + (ObjectTail() + more))
  {
    hide Objects;
    FixtureIsSmall(pages, safe);
    more := BodyReads(Objects(pages, safe), id);
  }

  lemma PageAt(pages: nat, safe: bytes, index: nat)
    requires 1 <= index <= pages
    ensures PageId(index) < |Objects(pages, safe)| && Objects(pages, safe)[PageId(index) - 1] == PageBody(pages, index)
  {
    hide Objects, PageBody, StreamBody, Stream, PagesBody, CatalogBody, FontBody;
    ObjectsAre(pages, safe, index);
  }

  lemma StreamAt(pages: nat, safe: bytes, index: nat)
    requires 1 <= index <= pages
    ensures PageId(index) < |Objects(pages, safe)|
    ensures Objects(pages, safe)[PageId(index)] == StreamBody(Stream(safe, index))
  {
    hide Objects, PageBody, StreamBody, Stream, PagesBody, CatalogBody, FontBody;
    ObjectsAre(pages, safe, index);
  }

  lemma TreeReads(pages: nat, safe: bytes)
    requires |safe| <= 80 && 1 <= pages <= 256
    ensures ReadAs(File(Objects(pages, safe)), 1, ParseCatalog) == Some(2)
    ensures ReadAs(File(Objects(pages, safe)), 2, ParsePageTree) == Some(PageIds(1, pages))
  {
    ObjectsAre(pages, safe, 1);
    hide Objects, File, ReadObject, ParseCatalog, ParsePageTree, CatalogBody, PagesBody, PageIds;
    var more := FixtureObject(pages, safe, 1, CatalogBody());
    CatalogParses(more);
    more := FixtureObject(pages, safe, 2, PagesBody(pages));
    PageTreeParses(pages, more);
  }

  lemma FontReads(pages: nat, safe: bytes)
    requires |safe| <= 80 && 1 <= pages <= 256
    ensures IsFont(File(Objects(pages, safe)), FontId(pages))
  {
    ObjectsAre(pages, safe, 1);
    hide Objects, File, ReadObject, FontBody, Strip, ObjectTail, PageBody, CatalogBody, PagesBody, StreamBody;
    var more := FixtureObject(pages, safe, FontId(pages), FontBody());
    Closed(FontBody(), more);
  }

  lemma RefsRead(pages: nat, safe: bytes, index: nat)
    requires |safe| <= 80 && 1 <= index <= pages <= 256
    ensures ReadAs(File(Objects(pages, safe)), PageId(index), ParsePage)
            == Some(PageRefs(FontId(pages), PageId(index) + 1))
  {
    hide Objects, File, ReadObject, ParsePage, PageBody, ObjectTail;
    PageAt(pages, safe, index);
    var more := FixtureObject(pages, safe, PageId(index), PageBody(pages, index));
    PageParses(pages, index, more);
  }

  lemma StreamReads(pages: nat, safe: bytes, index: nat)
    requires |safe| <= 80 && 1 <= index <= pages <= 256
    ensures ReadAs(File(Objects(pages, safe)), PageId(index) + 1, ParseStream) == Some(Stream(safe, index))
  {
    hide Objects, File, ReadObject, ParseStream, StreamBody, Stream, ObjectTail;
    StreamAt(pages, safe, index);
    var more := FixtureObject(pages, safe, PageId(index) + 1, StreamBody(Stream(safe, index)));
    StreamParses(Stream(safe, index), more);
  }

  lemma PageReads(pages: nat, safe: bytes, index: nat)
    requires |safe| <= 80 && 1 <= index <= pages <= 256
    ensures ReadPage(File(Objects(pages, safe)), PageId(index)) == Some(Stream(safe, index))
  {
    hide Objects, File, ReadAs, Stream, IsFont;
    FontReads(pages, safe);
    RefsRead(pages, safe, index);
    StreamReads(pages, safe, index);
  }

  /** The text of every page, from page `index` on. */
  function Streams(safe: bytes, index: nat, pages: nat): seq<bytes>
    decreases pages - index
  {
    if index > pages then [] else [Stream(safe, index)] + Streams(safe, index + 1, pages)
  }

  lemma {:induction false} PagesRead(pages: nat, safe: bytes, index: nat)
    requires |safe| <= 80 && pages <= 256 && 1 <= index <= pages + 1
    ensures ReadPages(File(Objects(pages, safe)), PageIds(index, pages)) == Some(Streams(safe, index, pages))
    decreases pages - index
  {
    hide File, Objects, ReadPage, Stream;
    if index <= pages {
      PageReads(pages, safe, index);
      PagesRead(pages, safe, index + 1);
      assert PageIds(index, pages)[1..] == PageIds(index + 1, pages);
    }
  }

  /** Round trip: whatever the marker and the page count, following startxref, the table, the page tree, every page's
      references and every /Length returns the text of every page in order. */
  lemma DocumentReads(alnum: char -> bool, marker: string, pages: nat)
    requires 1 <= pages <= 256
    ensures var safe := Safe(alnum, marker);
      ReadDocument(File(Objects(pages, safe))) == Some(Streams(safe, 1, pages))
  {
    var safe := Safe(alnum, marker);
    TreeReads(pages, safe);
    PagesRead(pages, safe, 1);
  }
}
