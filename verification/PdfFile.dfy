/** The file layout of build_pdf_fixture (scripts/p2-runtime-fault-drill.py) for any objects, and a reader that follows
    startxref and the cross-reference table (sections 7.3.8, 7.5.4 and 7.5.5 of ISO 32000-1:2008). */
module PdfFile {
  import opened Wrappers
  import opened Decimal

  // ----- the writer's pieces

  function FileHeader(): bytes {
    "%PDF-1.7\n%\U{E2}\U{E3}\U{CF}\U{D3}\n"
  }

  function ObjectMark(): bytes {
    " 0 obj\n"
  }

  function ObjectTail(): bytes {
    "\nendobj\n"
  }

  function Zeros(k: nat): bytes {
    if k == 0 then [] else ['0'] + Zeros(k - 1)
  }

  /** f"{n:010d}" */
  function Pad10(n: nat): bytes {
    var digits := Print(n);
    if |digits| < 10 then Zeros(10 - |digits|) + digits else digits
  }

  function Object(id: nat, body: bytes): bytes {
    Print(id) + ObjectMark() + body + ObjectTail()
  }

  function Entry(offset: nat): bytes {
    Pad10(offset) + " 00000 n \n"
  }

  function FreeEntry(): bytes {
    "0000000000 65535 f \n"
  }

  function XrefHead(): bytes {
    "xref\n0 "
  }

  function SizeHead(): bytes {
    "trailer\n<< /Size "
  }

  function RootHead(): bytes {
    " /Root 1 0 R >>\nstartxref\n"
  }

  function EndMark(): bytes {
    "\n%%EOF\n"
  }

  /** The header and the objects, numbered from 1. */
  function Written(objects: seq<bytes>): bytes {
    if objects == [] then FileHeader()
    else Written(objects[..|objects| - 1]) + Object(|objects|, objects[|objects| - 1])
  }

  /** The entries of the free list head and of the objects. */
  function Entries(objects: seq<bytes>): bytes {
    if objects == [] then FreeEntry()
    else Entries(objects[..|objects| - 1]) + Entry(|Written(objects[..|objects| - 1])|)
  }

  function Table(objects: seq<bytes>): bytes {
    XrefHead() + Print(|objects| + 1) + "\n" + Entries(objects)
  }

  function Trailer(objects: seq<bytes>): bytes {
    SizeHead() + Print(|objects| + 1) + RootHead() + Print(|Written(objects)|) + EndMark()
  }

  function File(objects: seq<bytes>): bytes {
    Written(objects) + Table(objects) + Trailer(objects)
  }

  // ----- the writer

  lemma Snoc(objects: seq<bytes>, i: nat)
    requires i < |objects|
    ensures Written(objects[..i + 1]) == Written(objects[..i]) + Object(i + 1, objects[i])
    ensures Entries(objects[..i + 1]) == Entries(objects[..i]) + Entry(|Written(objects[..i])|)
  {
    assert objects[..i + 1][..i] == objects[..i];
  }

  method WriteFile(objects: seq<bytes>) returns (output: bytes)
    ensures output == File(objects)
  {
    hide Written, Entries, Print, Pad10;
    Nothing(objects);
    output := FileHeader();
    var offsets: seq<nat> := [0];
    for i := 0 to |objects|
      invariant output == Written(objects[..i])
      invariant |offsets| == i + 1 && forall k :: 0 <= k < i ==> offsets[k + 1] == |Written(objects[..k])|
    {
      Snoc(objects, i);
      offsets := offsets + [|output|];
      output := output + (Print(i + 1) + ObjectMark() + objects[i] + ObjectTail());
    }
    assert objects[..|objects|] == objects;
    var xrefOffset := |output|;
    var table := WriteTable(objects, offsets);
    output := output + table;
    output := output + (SizeHead() + Print(|objects| + 1) + RootHead() + Print(xrefOffset) + EndMark());
  }

  lemma Nothing(objects: seq<bytes>)
    ensures Written(objects[..0]) == FileHeader() && Entries(objects[..0]) == FreeEntry()
  {
  }

  method WriteTable(objects: seq<bytes>, offsets: seq<nat>) returns (table: bytes)
    requires |offsets| == |objects| + 1
    requires forall k :: 0 <= k < |objects| ==> offsets[k + 1] == |Written(objects[..k])|
    ensures table == Table(objects)
  {
    hide Written, Entries, Print, Pad10;
    Nothing(objects);
    ghost var head := XrefHead() + Print(|objects| + 1) + "\n";
    table := XrefHead() + Print(|objects| + 1) + "\n" + FreeEntry();
    for i := 0 to |objects|
      invariant table == head + Entries(objects[..i])
    {
      Snoc(objects, i);
      table := table + Entry(offsets[i + 1]);
    }
    assert objects[..|objects|] == objects;
  }

  // ----- the reader

  function Strip(prefix: bytes, s: bytes): (r: Option<bytes>)
    ensures r.Some? ==> |prefix| + |r.value| == |s|
  {
    if |prefix| <= |s| && s[..|prefix|] == prefix then Some(s[|prefix|..]) else None
  }

  datatype Numeral = Numeral(value: nat, rest: bytes)

  /** How many digits `s` starts with. */
  function Digits(s: bytes): (n: nat)
    ensures n <= |s|
  {
    if s == [] || !IsDigit(s[0]) then 0 else 1 + Digits(s[1..])
  }

  function TakeNumber(s: bytes): (r: Option<Numeral>)
    ensures r.Some? ==> |r.value.rest| <= |s|
  {
    match Unsigned(s[..Digits(s)])
    case None => None
    case Some(n) => Some(Numeral(n, s[Digits(s)..]))
  }

  /** How many digits `s` ends with. */
  function DigitsAtEnd(s: bytes): (n: nat)
    ensures n <= |s|
  {
    if s == [] || !IsDigit(s[|s| - 1]) then 0 else 1 + DigitsAtEnd(s[..|s| - 1])
  }

  /** The number after startxref, read from the end of the file. */
  function StartXref(file: bytes): Option<nat> {
    var end := |file| - |EndMark()|;
    if end < 0 || file[end..] != EndMark() then None
    else
      var s := file[..end];
      Unsigned(s[|s| - DigitsAtEnd(s)..])
  }

  datatype Xref = Xref(count: nat, entries: bytes)

  /** The table at startxref: its size, and everything from its first entry on. */
  function ReadTable(file: bytes): Option<Xref> {
    match StartXref(file)
    case None => None
    case Some(start) =>
      if start > |file| then None
      else
        match Strip(XrefHead(), file[start..])
        case None => None
        case Some(s) =>
          match TakeNumber(s)
          case None => None
          case Some(size) =>
            match Strip("\n", size.rest)
            case None => None
            case Some(entries) => if |entries| < 20 * size.value then None else Some(Xref(size.value, entries))
  }

  /** The offset in the 20-byte entry of object `id`. */
  function OffsetOf(file: bytes, id: nat): Option<nat> {
    match ReadTable(file)
    case None => None
    case Some(table) =>
      if id >= table.count || |table.entries| < 20 * id + 20 then None
      else
        var entry := table.entries[20 * id..20 * id + 20];
        if entry[10..] != " 00000 n \n" then None else Unsigned(entry[..10])
  }

  /** The file from the body of object `id` on. */
  function ReadObject(file: bytes, id: nat): Option<bytes> {
    match OffsetOf(file, id)
    case None => None
    case Some(offset) =>
      if offset > |file| then None
      else
        match TakeNumber(file[offset..])
        case None => None
        case Some(number) => if number.value != id then None else Strip(ObjectMark(), number.rest)
  }

  // ----- reading numbers back

  predicate NotDigitFirst(s: bytes) {
    s == [] || !IsDigit(s[0])
  }

  lemma {:induction false} DigitsOf(s: bytes, rest: bytes)
    requires AllDigits(s) && NotDigitFirst(rest)
    ensures Digits(s + rest) == |s|
  {
    if s == [] {
      assert s + rest == rest;
    } else {
      assert (s + rest)[1..] == s[1..] + rest;
      DigitsOf(s[1..], rest);
    }
  }

  lemma TakePrinted(n: nat, rest: bytes)
    requires NotDigitFirst(rest)
    ensures TakeNumber(Print(n) + rest) == Some(Numeral(n, rest))
  {
    PrintIsDigits(n);
    DigitsOf(Print(n), rest);
    UnsignedPrint(n);
    assert (Print(n) + rest)[..|Print(n)|] == Print(n);
  }

  lemma {:induction false} DigitsAtEndOf(before: bytes, s: bytes)
    requires AllDigits(s) && before != [] && !IsDigit(before[|before| - 1])
    ensures DigitsAtEnd(before + s) == |s|
  {
    if s == [] {
      assert before + s == before;
    } else {
      assert (before + s)[..|before + s| - 1] == before + s[..|s| - 1];
      DigitsAtEndOf(before, s[..|s| - 1]);
    }
  }

  lemma StripFront(prefix: bytes, rest: bytes)
    ensures Strip(prefix, prefix + rest) == Some(rest)
  {
  }

  lemma DropLast(a: bytes, b: bytes)
    requires b != []
    ensures (a + b)[..|a + b| - 1] == a + b[..|b| - 1] && (a + b)[|a + b| - 1] == b[|b| - 1]
  {
  }

  lemma {:induction false} ZerosEnd(k: nat)
    requires k > 0
    ensures Zeros(k) == Zeros(k - 1) + ['0']
  {
    if k > 1 {
      ZerosEnd(k - 1);
    }
  }

  lemma {:induction false} OnlyZeros(k: nat)
    requires k > 0
    ensures Unsigned(Zeros(k)) == Some(0)
  {
    ZerosEnd(k);
    if k > 1 {
      OnlyZeros(k - 1);
      ZerosEnd(k - 1);
    }
  }

  lemma {:induction false} UnsignedZeros(k: nat, digits: bytes)
    requires AllDigits(digits) && digits != []
    ensures Unsigned(Zeros(k) + digits) == Unsigned(digits)
    decreases |digits|
  {
    var init := digits[..|digits| - 1];
    DropLast(Zeros(k), digits);
    if k == 0 {
      assert Zeros(k) + digits == digits;
    } else if |digits| == 1 {
      OnlyZeros(k);
      ZerosEnd(k);
      assert Zeros(k) + init == Zeros(k);
    } else {
      DropLast(Zeros(k), init);
      UnsignedZeros(k, init);
    }
  }

  lemma {:induction false} ZerosLength(k: nat)
    ensures |Zeros(k)| == k
  {
    if k > 0 {
      ZerosLength(k - 1);
    }
  }

  /** An offset below ten thousand million has exactly ten digits in the table, and reads back. */
  lemma PadIsTen(n: nat)
    requires n < 10_000_000_000
    ensures |Pad10(n)| == 10 && Unsigned(Pad10(n)) == Some(n)
  {
    assert Power(10) == 10_000_000_000 by {
      assert Power(5) == 100_000;
    }
    PrintLength(n, 10);
    PrintIsDigits(n);
    UnsignedPrint(n);
    if |Print(n)| < 10 {
      ZerosLength(10 - |Print(n)|);
      UnsignedZeros(10 - |Print(n)|, Print(n));
    }
  }

  // ----- every offset is right

  predicate Small(objects: seq<bytes>) {
    |Written(objects)| < 10_000_000_000
  }

  /** The objects after the first `from`. */
  function Later(objects: seq<bytes>, from: nat): bytes
    requires from <= |objects|
    decreases |objects| - from
  {
    if from == |objects| then [] else Object(from + 1, objects[from]) + Later(objects, from + 1)
  }

  lemma Associate(a: bytes, b: bytes, c: bytes)
    ensures (a + b) + c == a + (b + c)
  {
  }

  lemma {:induction false} Split(objects: seq<bytes>, i: nat)
    requires i <= |objects|
    ensures Written(objects) == Written(objects[..i]) + Later(objects, i)
    decreases |objects| - i
  {
    hide Object, Written;
    if i == |objects| {
      assert objects[..i] == objects;
      assert Written(objects) + [] == Written(objects);
    } else {
      Split(objects, i + 1);
      Snoc(objects, i);
      Associate(Written(objects[..i]), Object(i + 1, objects[i]), Later(objects, i + 1));
    }
  }

  lemma PrefixIsSmall(objects: seq<bytes>, i: nat)
    requires Small(objects) && i <= |objects|
    ensures Small(objects[..i])
  {
    Split(objects, i);
  }

  lemma EntryLength(offset: nat)
    requires offset < 10_000_000_000
    ensures |Entry(offset)| == 20
    ensures Entry(offset)[..10] == Pad10(offset) && Entry(offset)[10..] == " 00000 n \n"
  {
    hide Pad10, Unsigned;
    PadIsTen(offset);
  }

  lemma SliceInFront(a: bytes, b: bytes, i: nat, j: nat)
    requires i <= j <= |a|
    ensures (a + b)[i..j] == a[i..j]
  {
  }

  lemma SliceAtEnd(a: bytes, b: bytes)
    ensures (a + b)[|a|..|a| + |b|] == b
  {
  }

  lemma EntriesSnoc(objects: seq<bytes>)
    requires objects != []
    ensures var init := objects[..|objects| - 1];
      Entries(objects) == Entries(init) + Entry(|Written(init)|)
  {
    hide Entry, Written;
  }

  /** Every entry is 20 bytes long, and entry `id` holds the offset of object `id`. */
  lemma {:induction false} EntriesAre(objects: seq<bytes>, id: nat)
    requires Small(objects) && 1 <= id <= |objects|
    ensures |Entries(objects)| == 20 * (|objects| + 1)
    ensures Entries(objects)[20 * id..20 * id + 20] == Entry(|Written(objects[..id - 1])|)
  {
    hide Entry, Written, Entries, Small;
    var init := objects[..|objects| - 1];
    var last := Entry(|Written(init)|);
    PrefixIsSmall(objects, |objects| - 1);
    SmallIs(init);
    EntryLength(|Written(init)|);
    EntriesLength(objects);
    EntriesLength(init);
    EntriesSnoc(objects);
    if id < |objects| {
      EntriesAre(init, id);
      SliceInFront(Entries(init), last, 20 * id, 20 * id + 20);
      assert init[..id - 1] == objects[..id - 1];
    } else {
      SliceAtEnd(Entries(init), last);
      assert objects[..id - 1] == init;
    }
  }

  lemma SmallIs(objects: seq<bytes>)
    requires Small(objects)
    ensures |Written(objects)| < 10_000_000_000
  {
  }

  lemma {:induction false} EntriesLength(objects: seq<bytes>)
    requires Small(objects)
    ensures |Entries(objects)| == 20 * (|objects| + 1)
  {
    if objects != [] {
      PrefixIsSmall(objects, |objects| - 1);
      EntryLength(|Written(objects[..|objects| - 1])|);
      EntriesLength(objects[..|objects| - 1]);
    }
  }

  lemma StartXrefIs(objects: seq<bytes>)
    ensures StartXref(File(objects)) == Some(|Written(objects)|)
  {
    hide Written, Table, Print, Unsigned, DigitsAtEnd;
    var file, start := File(objects), Print(|Written(objects)|);
    var before := Written(objects) + Table(objects) + (SizeHead() + Print(|objects| + 1) + RootHead());
    assert file == before + start + EndMark();
    assert before[|before| - 1] == '\n';
    PrintIsDigits(|Written(objects)|);
    DigitsAtEndOf(before, start);
    UnsignedPrint(|Written(objects)|);
    assert file[..|file| - |EndMark()|] == before + start;
    assert file[|file| - |EndMark()|..] == EndMark();
    assert (before + start)[|before|..] == start;
  }

  lemma TableIs(objects: seq<bytes>)
    requires Small(objects)
    ensures ReadTable(File(objects)) == Some(Xref(|objects| + 1, Entries(objects) + Trailer(objects)))
  {
    var file, start := File(objects), |Written(objects)|;
    var entries := Entries(objects) + Trailer(objects);
    StartXrefIs(objects);
    TableFollows(objects);
    hide File, Written, Entries, Print, StartXref, TakeNumber, Trailer, Strip;
    StripFront(XrefHead(), Print(|objects| + 1) + ("\n" + entries));
    TakePrinted(|objects| + 1, "\n" + entries);
    StripFront("\n", entries);
    EntriesLength(objects);
  }

  lemma TableFollows(objects: seq<bytes>)
    ensures |Written(objects)| <= |File(objects)|
    ensures File(objects)[|Written(objects)|..]
            == XrefHead() + (Print(|objects| + 1) + ("\n" + (Entries(objects) + Trailer(objects))))
  {
    hide Written, Entries, Print, Trailer;
    var number, entries := Print(|objects| + 1), Entries(objects);
    assert XrefHead() + number + "\n" + entries + Trailer(objects)
        == XrefHead() + (number + ("\n" + (entries + Trailer(objects))));
    assert File(objects) == Written(objects) + (Table(objects) + Trailer(objects));
  }

  /** startxref leads to the table, and entry `id` of the table to the place where object `id` was written. */
  lemma OffsetIs(objects: seq<bytes>, id: nat)
    requires Small(objects) && 1 <= id <= |objects|
    ensures OffsetOf(File(objects), id) == Some(|Written(objects[..id - 1])|)
  {
    hide ReadTable, Written, Entry, Pad10, Unsigned, File, Trailer;
    var offset, entries := |Written(objects[..id - 1])|, Entries(objects) + Trailer(objects);
    TableIs(objects);
    EntriesAre(objects, id);
    PrefixIsSmall(objects, id - 1);
    assert offset < 10_000_000_000 by {
      SmallIs(objects[..id - 1]);
    }
    EntryLength(offset);
    PadIsTen(offset);
    assert entries[20 * id..20 * id + 20] == Entries(objects)[20 * id..20 * id + 20];
  }

  /** What follows the body of object `id` in the file. */
  function Rest(objects: seq<bytes>, id: nat): bytes
    requires 1 <= id <= |objects|
  {
    ObjectTail() + (Later(objects, id) + Table(objects) + Trailer(objects))
  }

  /** Looking up object `id` finds its body. */
  lemma ObjectReads(objects: seq<bytes>, id: nat)
    requires Small(objects) && 1 <= id <= |objects|
    ensures ReadObject(File(objects), id) == Some(objects[id - 1] + Rest(objects, id))
  {
    hide OffsetOf, Written, Table, Trailer, Print, TakeNumber, Later;
    var file, prefix := File(objects), Written(objects[..id - 1]);
    var body := objects[id - 1] + Rest(objects, id);
    OffsetIs(objects, id);
    ObjectFollows(objects, id);
    assert file[|prefix|..] == Print(id) + (ObjectMark() + body);
    TakePrinted(id, ObjectMark() + body);
    StripFront(ObjectMark(), body);
  }

  lemma ObjectFollows(objects: seq<bytes>, id: nat)
    requires 1 <= id <= |objects|
    ensures File(objects)
            == Written(objects[..id - 1]) + (Print(id) + (ObjectMark() + (objects[id - 1] + Rest(objects, id))))
  {
    hide Table, Trailer, Print;
    var prefix, later := Written(objects[..id - 1]), Later(objects, id);
    Split(objects, id - 1);
    Regroup(prefix, Print(id), ObjectMark(), objects[id - 1], ObjectTail(), later, Table(objects), Trailer(objects));
  }

  lemma Regroup(p: bytes, a: bytes, m: bytes, b: bytes, t: bytes, l: bytes, x: bytes, y: bytes)
    ensures p + (a + m + b + t + l) + x + y == p + (a + (m + (b + (t + (l + x + y)))))
  {
    assert a + m + b + t + l + x + y == a + (m + (b + (t + (l + x + y)))) by {
      assert a + m + b + t + l == a + (m + (b + (t + l)));
    }
    assert p + (a + m + b + t + l) + x + y == p + (a + m + b + t + l + x + y);
  }

  lemma BodyReads(objects: seq<bytes>, id: nat) returns (more: bytes)
    requires Small(objects) && 1 <= id <= |objects|
    ensures ReadObject(File(objects), id) == Some(objects[id - 1] + (ObjectTail() + more))
  {
    hide File, ReadObject, Later, Table, Trailer, ObjectTail;
    ObjectReads(objects, id);
    more := Later(objects, id) + Table(objects) + Trailer(objects);
  }
}
