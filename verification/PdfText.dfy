/** The PDF fixture in literal bytes: what a viewer shows on each page, and the marks around it
    (scripts/p2-runtime-fault-drill.py:984-1046; file structure as in section 7.5 of ISO 32000-1). */
module PdfText {
  import opened Decimal
  import opened PdfFile
  import opened PdfFixture

  // ----- the text of a page

  function LineEnd(s: bytes): (n: nat)
    ensures n <= |s|
  {
    if s == [] || s[0] == '\n' then 0 else 1 + LineEnd(s[1..])
  }

  function Lines(s: bytes): seq<bytes>
    decreases |s|
  {
    var n := LineEnd(s);
    if n == |s| then [s] else [s[..n]] + Lines(s[n + 1..])
  }

  /** The strings that a content stream shows: the lines "(...) Tj". */
  function ShownStrings(lines: seq<bytes>): seq<bytes> {
    if lines == [] then []
    else ShownStrings(lines[..|lines| - 1]) + Shows(lines[|lines| - 1])
  }

  function Shows(line: bytes): seq<bytes> {
    if |line| >= 5 && line[0] == '(' && line[|line| - 4..] == ") Tj" then [line[1..|line| - 4]] else []
  }

  /** Line `k` of page `index`, as the reader of the page sees it. */
  function Sentences(safe: bytes, index: nat, k: nat): bytes {
    "Jarvis P2 RAG restart " + safe + " page " + Print(index) + " line " + Print(k) + ". " + Promise()
  }

  function Promise(): bytes {
    "This document validates durable " + "ingestion lease recovery, "
    + "bounded retry, atomic chunks, and " + "vector index consistency."
  }

  function AllSentences(safe: bytes, index: nat, count: nat): seq<bytes> {
    if count == 0 then [] else AllSentences(safe, index, count - 1) + [Sentences(safe, index, count)]
  }

  lemma LineIsSentence(safe: bytes, index: nat, k: nat)
    ensures Line(safe, index, k) == Sentences(safe, index, k)
  {
    hide Print;
    assert Sentence() == Promise();
    hide Sentence, Promise;
  }

  lemma {:induction false} LineEndStops(s: bytes, rest: bytes)
    requires '\n' !in s
    ensures LineEnd(s) == |s| && LineEnd(s + "\n" + rest) == |s|
  {
    if s == [] {
      assert s + "\n" + rest == "\n" + rest;
    } else {
      assert (s + "\n" + rest)[1..] == s[1..] + "\n" + rest;
      LineEndStops(s[1..], rest);
    }
  }

  predicate OneLineEach(parts: seq<bytes>) {
    forall i :: 0 <= i < |parts| ==> '\n' !in parts[i]
  }

  /** Splitting joined lines returns them. */
  lemma {:induction false} LinesOfJoined(parts: seq<bytes>)
    requires parts != [] && OneLineEach(parts)
    ensures Lines(Join("\n", parts)) == parts
  {
    if |parts| == 1 {
      LineEndStops(parts[0], []);
      assert parts == [parts[0]];
    } else {
      var rest := Join("\n", parts[1..]);
      LineEndStops(parts[0], rest);
      LinesOfJoined(parts[1..]);
      var s := parts[0] + "\n" + rest;
      assert s[..|parts[0]|] == parts[0] && s[|parts[0]| + 1..] == rest;
      assert parts == [parts[0]] + parts[1..];
    }
  }

  lemma SentenceIsOneLine(safe: bytes, index: nat, k: nat)
    requires '\n' !in safe
    ensures '\n' !in Sentences(safe, index, k)
  {
    PrintIsDigits(index);
    PrintIsDigits(k);
    PromiseIsOneLine();
    hide Print, Promise;
  }

  lemma PromiseIsOneLine()
    ensures '\n' !in Promise()
  {
    FirstPart();
    SecondPart();
    ThirdPart();
    FourthPart();
  }

  lemma FirstPart()
    ensures '\n' !in "This document validates durable "
  {
  }

  lemma SecondPart()
    ensures '\n' !in "ingestion lease recovery, "
  {
  }

  lemma ThirdPart()
    ensures '\n' !in "bounded retry, atomic chunks, and "
  {
  }

  lemma FourthPart()
    ensures '\n' !in "vector index consistency."
  {
  }

  lemma ShowsSentence(sentence: bytes)
    ensures Shows("(" + sentence + ") Tj") == [sentence]
    ensures Shows("0 -18 Td") == [] && Shows("ET") == [] && Shows("BT /F1 9 Tf 48 744 Td") == []
  {
    var line := "(" + sentence + ") Tj";
    assert line[0] == '(' && line[|line| - 4..] == ") Tj" && line[1..|line| - 4] == sentence;
  }

  lemma {:induction false} OperatorsShow(safe: bytes, index: nat, count: nat)
    requires '\n' !in safe
    ensures OneLineEach(Operators(safe, index, count)) && Operators(safe, index, count) != []
    ensures ShownStrings(Operators(safe, index, count)) == AllSentences(safe, index, count)
  {
    hide Sentences, Line, Shows, ShownStrings;
    var before := if count == 0 then [] else Operators(safe, index, count - 1);
    if count == 0 {
      assert ShownStrings([]) == [] by {
        NothingShown();
      }
      ShowsSentence([]);
      ShownSnoc([], "BT /F1 9 Tf 48 744 Td");
      assert [] + ["BT /F1 9 Tf 48 744 Td"] == Operators(safe, index, 0);
    } else {
      OperatorsShow(safe, index, count - 1);
      LineIsSentence(safe, index, count);
      SentenceIsOneLine(safe, index, count);
      var line := "(" + Sentences(safe, index, count) + ") Tj";
      ShowsSentence(Sentences(safe, index, count));
      ShownSnoc(before, line);
      ShownSnoc(before + [line], "0 -18 Td");
      assert Operators(safe, index, count) == before + [line] + ["0 -18 Td"];
    }
  }

  lemma NothingShown()
    ensures ShownStrings([]) == []
  {
  }

  lemma ShownSnoc(lines: seq<bytes>, line: bytes)
    ensures ShownStrings(lines + [line]) == ShownStrings(lines) + Shows(line)
  {
    assert (lines + [line])[..|lines|] == lines;
  }

  lemma {:induction false} SafeIsOneLine(alnum: char -> bool, marker: string)
    requires !alnum('\n')
    ensures '\n' !in Replaced(alnum, marker) && '\n' !in Safe(alnum, marker)
  {
    if marker != [] {
      SafeIsOneLine(alnum, marker[1..]);
    }
  }

  /** Every page shows its twelve numbered sentences, in order and nothing else, between the operators that begin and
      end its text in 9-point type from the top of the page. */
  lemma PageShowsItsSentences(alnum: char -> bool, marker: string, index: nat)
    requires !alnum('\n')
    ensures var safe := Safe(alnum, marker);
      var lines := Lines(Stream(safe, index));
      && ShownStrings(lines) == AllSentences(safe, index, 12)
      && |lines| == 26 && lines[0] == "BT /F1 9 Tf 48 744 Td" && lines[25] == "ET"
      && forall k :: 1 <= k <= 12 ==> lines[2 * k] == "0 -18 Td"
  {
    var safe := Safe(alnum, marker);
    SafeIsOneLine(alnum, marker);
    OperatorsShow(safe, index, 12);
    OperatorsAt(safe, index, 12);
    var ops := Operators(safe, index, 12);
    ShowsSentence([]);
    ShownSnoc(ops, "ET");
    LinesOfJoined(ops + ["ET"]);
    hide Operators, Safe, AllSentences;
  }

  lemma {:induction false} OperatorsAt(safe: bytes, index: nat, count: nat)
    ensures var ops := Operators(safe, index, count);
      && |ops| == 2 * count + 1 && ops[0] == "BT /F1 9 Tf 48 744 Td"
      && forall k :: 1 <= k <= count ==> ops[2 * k] == "0 -18 Td"
  {
    if count > 0 {
      OperatorsAt(safe, index, count - 1);
      hide Line;
    }
  }

  // ----- the marker

  /** The marker in the file has at most eighty characters, each a letter, a digit, "-" or "_": those of the given
      marker in their places, and "-" for every other. */
  lemma MarkerIsSafe(alnum: char -> bool, marker: string, i: nat)
    requires i < |Safe(alnum, marker)|
    ensures |Safe(alnum, marker)| == if |marker| <= 80 then |marker| else 80
    ensures var c := marker[i];
      Safe(alnum, marker)[i] == if alnum(c) || c == '-' || c == '_' then c else '-'
  {
    ReplacedAt(alnum, marker, i);
  }

  lemma {:induction false} ReplacedAt(alnum: char -> bool, marker: string, i: nat)
    ensures |Replaced(alnum, marker)| == |marker|
    ensures i < |marker| ==> Replaced(alnum, marker)[i] == SafeChar(alnum, marker[i])
  {
    if marker != [] {
      ReplacedAt(alnum, marker[1..], if i > 0 then i - 1 else 0);
    }
  }

  // ----- the file

  /** The bodies of the objects, byte for byte. */
  lemma BodiesAre(pages: nat)
    ensures CatalogBody() == "<< /Type /Catalog /Pages " + ("2" + " 0 R") + " >>"
    ensures PagesBody(pages)
            == "<< /Type /Pages /Kids [" + Join(" ", KidRefs(1, pages)) + "] /Count " + Print(pages) + " >>"
    ensures FontBody() == "<< /Type /Font /Subtype /Type1 " + "/BaseFont /Helvetica >>"
  {
    assert Print(2) == "2";
    hide Print, KidRefs, Join;
  }

  lemma PageBodiesAre(pages: nat, index: nat, stream: bytes)
    ensures PageBody(pages, index)
            == ("<< /Type /Page /Parent 2 0 R /MediaBox [0 0 612 792] " + "/Resources << /Font << /F1 ")
               + (Print(2 * pages + 3) + " 0 R") + (" >> >> " + "/Contents ") + (Print(2 * index + 2) + " 0 R") + " >>"
    ensures StreamBody(stream) == "<< /Length " + Print(|stream|) + " >>\nstream\n" + stream + "\nendstream"
  {
    hide Print;
  }

  /** The file byte for byte: header, numbered objects, table, trailer and the offset of the table. */
  lemma FileIs(objects: seq<bytes>)
    ensures File(objects)
            == Written(objects)
               + ("xref\n0 " + Print(|objects| + 1) + "\n" + Entries(objects))
               + ("trailer\n<< /Size " + Print(|objects| + 1) + " /Root 1 0 R >>\nstartxref\n" + Print(|Written(objects)|)
                  + "\n%%EOF\n")
    ensures Written([]) == "%PDF-1.7\n%\U{E2}\U{E3}\U{CF}\U{D3}\n" && Entries([]) == "0000000000 65535 f \n"
    ensures objects != [] ==>
      var front, n := objects[..|objects| - 1], |objects|;
      && Written(objects) == Written(front) + (Print(n) + " 0 obj\n" + objects[n - 1] + "\nendobj\n")
      && Entries(objects) == Entries(front) + (Pad10(|Written(front)|) + " 00000 n \n")
  {
    hide Print, Pad10;
  }
}
