/** The diagnostic Redis client: the request encoder of redis_command and the recursive _read_redis_response
    (scripts/p2-runtime-fault-drill.py; Redis serialization protocol, sections "Arrays" and "Bulk strings"). */
module Resp {
  import opened Wrappers
  import opened Decimal

  /** str.encode("utf-8") and bytes.decode("utf-8"), which are not modelled; None stands for an error. */
  datatype Utf8 = Utf8(encode: string -> Option<bytes>, decode: bytes -> Option<string>)

  ghost predicate RoundTrips(u: Utf8) {
    forall s :: u.encode(s).Some? ==> u.decode(u.encode(s).value) == Some(s)
  }

  datatype Value = Text(text: string) | Number(number: int) | Nil | Items(items: seq<Value>)

  datatype ReadError =
    | Closed
    | Truncated
    | CommandFailed(message: bytes)
    | BadNumber
    | BadSize
    | BadText
    | Unsupported(prefix: char)

  /** A value read, with the bytes left over. */
  datatype Read = Read(value: Value, rest: bytes)

  datatype ReadMany = ReadMany(values: seq<Value>, rest: bytes)

  // ----- what a response means

  /** The length of readline(): through the first newline, or everything. */
  function LineLength(s: bytes): (n: nat)
    ensures n <= |s|
  {
    if s == [] then 0 else if s[0] == '\n' then 1 else 1 + LineLength(s[1..])
  }

  predicate EndsLine(line: bytes) {
    |line| >= 2 && line[|line| - 2..] == "\r\n"
  }

  function Decoded(u: Utf8, value: bytes, rest: bytes): Result<Read, ReadError> {
    match u.decode(value)
    case None => Err(BadText)
    case Some(text) => Ok(Read(Text(text), rest))
  }

  function ReadBulk(u: Utf8, size: int, s: bytes): Result<Read, ReadError> {
    if size == -1 then Ok(Read(Nil, s))
    else if size < 0 then Err(BadSize)
    else if |s| < size + 2 || s[size..size + 2] != "\r\n" then Err(Truncated)
    else Decoded(u, s[..size], s[size + 2..])
  }

  /** A response that is not an array, after its first line `prefix` + `value`. */
  function Scalar(u: Utf8, prefix: char, value: bytes, rest: bytes): (r: Result<Read, ReadError>)
    ensures r.Ok? ==> |r.value.rest| <= |rest|
  {
    if prefix == '+' then Decoded(u, value, rest)
    else if prefix == '-' then Err(CommandFailed(value))
    else if prefix == ':' then
      (match Parse(value)
       case None => Err(BadNumber)
       case Some(number) => Ok(Read(Number(number), rest)))
    else if prefix == '$' then
      (match Parse(value)
       case None => Err(BadNumber)
       case Some(size) => ReadBulk(u, size, rest))
    else Err(Unsupported(prefix))
  }

  /** range(count) of a negative count is empty. */
  function Times(count: int): nat {
    if count < 0 then 0 else count
  }

  /** The response at the front of `s`. */
  function Response(u: Utf8, s: bytes): (r: Result<Read, ReadError>)
    ensures r.Ok? ==> |r.value.rest| < |s|
    decreases |s|, 0
  {
    if s == [] then Err(Closed)
    else
      var n := LineLength(s[1..]);
      var line, rest := s[1..][..n], s[1..][n..];
      if !EndsLine(line) then Err(Truncated)
      else if s[0] != '*' then Scalar(u, s[0], line[..n - 2], rest)
      else
        match Parse(line[..n - 2])
        case None => Err(BadNumber)
        case Some(count) =>
          if count == -1 then Ok(Read(Nil, rest))
          else
            match Responses(u, Times(count), rest)
            case Err(e) => Err(e)
            case Ok(items) => Ok(Read(Items(items.values), items.rest))
  }

  /** `count` responses in a row. */
  function Responses(u: Utf8, count: nat, s: bytes): (r: Result<ReadMany, ReadError>)
    ensures r.Ok? ==> |r.value.rest| <= |s| && |r.value.values| == count
    decreases |s|, 1
  {
    if count == 0 then Ok(ReadMany([], s))
    else
      var first := Response(u, s);
      if first.Err? then Err(first.error)
      else
        var others := Responses(u, count - 1, first.value.rest);
        if others.Err? then others
        else Ok(ReadMany([first.value.value] + others.value.values, others.value.rest))
  }

  // ----- bytes beyond a response change nothing

  lemma {:induction false} LineExtends(s: bytes, more: bytes)
    requires EndsLine(s[..LineLength(s)])
    ensures LineLength(s + more) == LineLength(s)
  {
    LineEnds(s);
    LineStops(s, more);
  }

  /** A line that ends in a newline was found by its newline. */
  lemma {:induction false} LineEnds(s: bytes)
    requires LineLength(s) > 0 && s[LineLength(s) - 1] == '\n'
    ensures '\n' in s
  {
  }

  lemma {:induction false} LineStops(s: bytes, more: bytes)
    requires '\n' in s
    ensures LineLength(s + more) == LineLength(s)
  {
    if s[0] != '\n' {
      assert (s + more)[1..] == s[1..] + more;
      LineStops(s[1..], more);
    }
  }

  lemma BulkExtends(u: Utf8, size: int, s: bytes, more: bytes)
    requires ReadBulk(u, size, s).Ok?
    ensures ReadBulk(u, size, s + more).Ok?
    ensures ReadBulk(u, size, s + more).value.value == ReadBulk(u, size, s).value.value
    ensures ReadBulk(u, size, s + more).value.rest == ReadBulk(u, size, s).value.rest + more
  {
    if size >= 0 {
      assert (s + more)[size..size + 2] == s[size..size + 2];
      assert (s + more)[..size] == s[..size];
      assert (s + more)[size + 2..] == s[size + 2..] + more;
    }
  }

  /** `Ok` with `more` bytes left over after the rest. */
  function After(r: Result<Read, ReadError>, more: bytes): Result<Read, ReadError> {
    match r
    case Err(_) => r
    case Ok(read) => Ok(Read(read.value, read.rest + more))
  }

  lemma ScalarExtends(u: Utf8, prefix: char, value: bytes, rest: bytes, more: bytes)
    requires Scalar(u, prefix, value, rest).Ok?
    ensures Scalar(u, prefix, value, rest + more) == After(Scalar(u, prefix, value, rest), more)
  {
    hide Parse, ReadBulk;
    if prefix == '$' {
      BulkExtends(u, Parse(value).value, rest, more);
    }
  }

  lemma FirstLine(s: bytes, more: bytes)
    requires s != [] && EndsLine(s[1..][..LineLength(s[1..])])
    ensures var n := LineLength(s[1..]);
      && LineLength((s + more)[1..]) == n
      && (s + more)[1..][..n] == s[1..][..n]
      && (s + more)[1..][n..] == s[1..][n..] + more
      && (s + more)[0] == s[0]
  {
    assert (s + more)[1..] == s[1..] + more;
    LineExtends(s[1..], more);
  }

  lemma {:induction false} ResponseExtends(u: Utf8, s: bytes, more: bytes)
    requires Response(u, s).Ok?
    ensures Response(u, s + more) == After(Response(u, s), more)
    decreases |s|, 0
  {
    hide LineLength, Parse, Scalar, Responses;
    FirstLine(s, more);
    var n := LineLength(s[1..]);
    var value, rest := s[1..][..n][..n - 2], s[1..][n..];
    if s[0] != '*' {
      ScalarExtends(u, s[0], value, rest, more);
    } else {
      var count := Parse(value).value;
      if count != -1 {
        ResponsesExtend(u, Times(count), rest, more);
      }
    }
  }

  lemma {:induction false} ResponsesExtend(u: Utf8, count: nat, s: bytes, more: bytes)
    requires Responses(u, count, s).Ok?
    ensures var r := Responses(u, count, s).value;
      Responses(u, count, s + more) == Ok(ReadMany(r.values, r.rest + more))
    decreases |s|, 1
  {
    hide Response;
    if count > 0 {
      ResponseExtends(u, s, more);
      ResponsesExtend(u, count - 1, Response(u, s).value.rest, more);
    }
  }

  /** Framing: a response that reads completely is never misread from a proper prefix of its bytes, and reads the same
      whatever follows. */
  lemma NoProperPrefixReads(u: Utf8, s: bytes, more: bytes)
    requires Response(u, s + more).Ok? && Response(u, s + more).value.rest == []
    requires more != []
    ensures Response(u, s).Err?
  {
    if Response(u, s).Ok? {
      ResponseExtends(u, s, more);
    }
  }

  // ----- the request encoder

  /** One part of a request: its length and its bytes. */
  function EncodePart(part: bytes): bytes {
    "$" + Print(|part|) + "\r\n" + part + "\r\n"
  }

  function EncodeParts(parts: seq<bytes>): bytes {
    if parts == [] then [] else EncodeParts(parts[..|parts| - 1]) + EncodePart(parts[|parts| - 1])
  }

  function Encode(parts: seq<bytes>): bytes {
    "*" + Print(|parts|) + "\r\n" + EncodeParts(parts)
  }

  /** Every part as bytes; None when one of them has no encoding. */
  function EncodedAll(u: Utf8, parts: seq<string>): Option<seq<bytes>> {
    if parts == [] then Some([])
    else
      var first, rest := u.encode(parts[|parts| - 1]), EncodedAll(u, parts[..|parts| - 1]);
      if first.None? || rest.None? then None else Some(rest.value + [first.value])
  }

  /** b"".join */
  function Join(chunks: seq<bytes>): bytes {
    if chunks == [] then [] else Join(chunks[..|chunks| - 1]) + chunks[|chunks| - 1]
  }

  lemma {:induction false} JoinSnoc(chunks: seq<bytes>, last: bytes)
    ensures Join(chunks + [last]) == Join(chunks) + last
  {
    assert (chunks + [last])[..|chunks + [last]| - 1] == chunks;
  }

  method EncodeAll(u: Utf8, parts: seq<string>) returns (encoded: Option<seq<bytes>>)
    ensures encoded == EncodedAll(u, parts)
  {
    var all: seq<bytes> := [];
    for i := 0 to |parts|
      invariant EncodedAll(u, parts[..i]) == Some(all)
    {
      assert parts[..i + 1][..i] == parts[..i];
      var one := u.encode(parts[i]);
      if one.None? {
        NoneStays(u, parts, i + 1);
        return None;
      }
      all := all + [one.value];
    }
    assert parts[..|parts|] == parts;
    return Some(all);
  }

  lemma {:induction false} NoneStays(u: Utf8, parts: seq<string>, i: nat)
    requires i <= |parts| && EncodedAll(u, parts[..i]).None?
    ensures EncodedAll(u, parts).None?
  {
    if i < |parts| {
      assert parts[..|parts| - 1][..i] == parts[..i];
      NoneStays(u, parts[..|parts| - 1], i);
    } else {
      assert parts[..i] == parts;
    }
  }

  lemma JoinPart(request: seq<bytes>, head: bytes, part: bytes)
    requires head == "$" + Print(|part|) + "\r\n"
    ensures Join(request + [head, part, "\r\n"]) == Join(request) + EncodePart(part)
  {
    hide Print;
    JoinSnoc(request, head);
    JoinSnoc(request + [head], part);
    JoinSnoc(request + [head] + [part], "\r\n");
    assert request + [head, part, "\r\n"] == request + [head] + [part] + ["\r\n"];
    assert Join(request) + head + part + "\r\n" == Join(request) + (head + part + "\r\n");
  }

  lemma PartsSnoc(parts: seq<bytes>, i: nat)
    requires i < |parts|
    ensures EncodeParts(parts[..i + 1]) == EncodeParts(parts[..i]) + EncodePart(parts[i])
  {
    assert parts[..i + 1][..i] == parts[..i];
  }

  lemma JoinOne(header: bytes)
    ensures Join([header]) == header + EncodeParts([])
  {
    assert [header] == [] + [header];
    JoinSnoc([], header);
  }

  /** The bytes redis_command sends. */
  method EncodeCommand(u: Utf8, parts: seq<string>) returns (sent: Option<bytes>)
    ensures sent.Some? <==> EncodedAll(u, parts).Some?
    ensures sent.Some? ==> sent.value == Encode(EncodedAll(u, parts).value)
  {
    var all := EncodeAll(u, parts);
    if all.None? {
      return None;
    }
    var encoded := all.value;
    var header := "*" + Print(|encoded|) + "\r\n";
    var request := [header];
    JoinOne(header);
    assert encoded[..0] == [];
    hide Join, EncodeParts, EncodePart, Print;
    for i := 0 to |encoded|
      invariant Join(request) == header + EncodeParts(encoded[..i])
    {
      var head := "$" + Print(|encoded[i]|) + "\r\n";
      JoinPart(request, head, encoded[i]);
      PartsSnoc(encoded, i);
      request := request + [head, encoded[i], "\r\n"];
    }
    assert encoded[..|encoded|] == encoded;
    return Some(Join(request));
  }

  // ----- reading back a request

  lemma {:induction false} LineOf(value: bytes, rest: bytes)
    requires '\n' !in value
    ensures LineLength(value + "\r\n" + rest) == |value| + 2
  {
    var s := value + "\r\n" + rest;
    if value == [] {
      assert s[0] == '\r' && s[1] == '\n' && LineLength(s[1..]) == 1;
    } else {
      assert s[1..] == value[1..] + "\r\n" + rest;
      LineOf(value[1..], rest);
    }
  }

  /** What the reader sees of prefix, number and the rest. */
  lemma Header(prefix: char, n: nat, rest: bytes)
    ensures var s := [prefix] + Print(n) + "\r\n" + rest;
      && LineLength(s[1..]) == |Print(n)| + 2
      && s[1..][..|Print(n)| + 2] == Print(n) + "\r\n"
      && EndsLine(Print(n) + "\r\n")
      && (Print(n) + "\r\n")[..|Print(n)|] == Print(n)
      && s[1..][|Print(n)| + 2..] == rest
      && s[0] == prefix
  {
    hide Print;
    PrintIsDigits(n);
    var s := [prefix] + Print(n) + "\r\n" + rest;
    assert s[1..] == Print(n) + "\r\n" + rest;
    LineOf(Print(n), rest);
  }

  lemma PartReads(u: Utf8, text: string, part: bytes, rest: bytes)
    requires u.decode(part) == Some(text)
    ensures Response(u, EncodePart(part) + rest) == Ok(Read(Text(text), rest))
  {
    hide Print, Parse, LineLength;
    var after := part + "\r\n" + rest;
    assert EncodePart(part) + rest == ['$'] + Print(|part|) + "\r\n" + after;
    Header('$', |part|, after);
    ParsePrint(|part|);
    assert after[..|part|] == part && after[|part|..|part| + 2] == "\r\n" && after[|part| + 2..] == rest;
  }

  function Texts(parts: seq<string>): seq<Value> {
    if parts == [] then [] else [Text(parts[0])] + Texts(parts[1..])
  }

  lemma {:induction false} PartsCons(parts: seq<bytes>)
    requires parts != []
    ensures EncodeParts(parts) == EncodePart(parts[0]) + EncodeParts(parts[1..])
  {
    hide EncodePart;
    if |parts| > 1 {
      var init, last := parts[..|parts| - 1], parts[|parts| - 1];
      PartsCons(init);
      assert init[1..] == parts[1..][..|parts[1..]| - 1];
    }
  }

  lemma {:induction false} EncodedAre(u: Utf8, parts: seq<string>)
    requires EncodedAll(u, parts).Some?
    ensures var encoded := EncodedAll(u, parts).value;
      && |encoded| == |parts|
      && forall i :: 0 <= i < |parts| ==> u.encode(parts[i]) == Some(encoded[i])
  {
    if parts != [] {
      EncodedAre(u, parts[..|parts| - 1]);
    }
  }

  lemma {:induction false} PartsRead(u: Utf8, parts: seq<string>, encoded: seq<bytes>, rest: bytes)
    requires |encoded| == |parts| && forall i :: 0 <= i < |parts| ==> u.decode(encoded[i]) == Some(parts[i])
    ensures Responses(u, |parts|, EncodeParts(encoded) + rest) == Ok(ReadMany(Texts(parts), rest))
  {
    hide Response, EncodePart;
    if parts == [] {
      assert EncodeParts(encoded) + rest == rest;
    } else {
      var after := EncodeParts(encoded[1..]) + rest;
      PartsCons(encoded);
      assert EncodeParts(encoded) + rest == EncodePart(encoded[0]) + after;
      PartReads(u, parts[0], encoded[0], after);
      PartsRead(u, parts[1..], encoded[1..], rest);
    }
  }

  /** Round trip: the reader applied to the bytes of a request returns its parts and leaves exactly what follows. */
  lemma RequestReads(u: Utf8, parts: seq<string>, rest: bytes)
    requires RoundTrips(u) && EncodedAll(u, parts).Some?
    ensures Response(u, Encode(EncodedAll(u, parts).value) + rest) == Ok(Read(Items(Texts(parts)), rest))
  {
    hide Print, Parse, LineLength, EncodeParts, EncodedAll;
    var encoded := EncodedAll(u, parts).value;
    var after := EncodeParts(encoded) + rest;
    EncodedAre(u, parts);
    assert Encode(encoded) + rest == ['*'] + Print(|encoded|) + "\r\n" + after;
    Header('*', |encoded|, after);
    ParsePrint(|encoded|);
    PartsRead(u, parts, encoded, rest);
  }

  lemma {:induction false} TextsAreInjective(a: seq<string>, b: seq<string>)
    requires Texts(a) == Texts(b)
    ensures a == b
  {
    if a != [] && b != [] {
      assert Texts(a)[0] == Text(a[0]) && Texts(b)[0] == Text(b[0]);
      assert Texts(a)[1..] == Texts(a[1..]) && Texts(b)[1..] == Texts(b[1..]);
      TextsAreInjective(a[1..], b[1..]);
    }
  }

  /** Requests need no separator: two of them that agree with anything after them are the same request, and a proper
      prefix of one is rejected. */
  lemma RequestsAreSelfDelimiting(u: Utf8, a: seq<string>, b: seq<string>, afterA: bytes, afterB: bytes)
    requires RoundTrips(u) && EncodedAll(u, a).Some? && EncodedAll(u, b).Some?
    requires Encode(EncodedAll(u, a).value) + afterA == Encode(EncodedAll(u, b).value) + afterB
    ensures a == b && afterA == afterB
  {
    hide Encode, EncodedAll, Response;
    RequestReads(u, a, afterA);
    RequestReads(u, b, afterB);
    TextsAreInjective(a, b);
  }

  lemma NoProperPrefixOfARequestReads(u: Utf8, parts: seq<string>, cut: nat)
    requires RoundTrips(u) && EncodedAll(u, parts).Some? && cut < |Encode(EncodedAll(u, parts).value)|
    ensures Response(u, Encode(EncodedAll(u, parts).value)[..cut]).Err?
  {
    hide Encode, EncodedAll, Response;
    var sent := Encode(EncodedAll(u, parts).value);
    RequestReads(u, parts, []);
    assert sent + [] == sent && sent == sent[..cut] + sent[cut..];
    NoProperPrefixReads(u, sent[..cut], sent[cut..]);
  }

  // ----- the reader as the script runs it

  function Returned(r: Result<Read, ReadError>): (v: Result<Value, ReadError>)
    ensures v.Ok? <==> r.Ok?
  {
    match r
    case Err(e) => Err(e)
    case Ok(read) => Ok(read.value)
  }

  function Values(r: Result<ReadMany, ReadError>): (v: Result<seq<Value>, ReadError>)
    ensures v.Ok? <==> r.Ok?
  {
    match r
    case Err(e) => Err(e)
    case Ok(read) => Ok(read.values)
  }

  /** client.makefile("rb"): the bytes the server sends before it closes. */
  class ByteReader {
    const data: bytes
    var pos: nat

    ghost predicate Valid()
      reads this
    {
      pos <= |data|
    }

    ghost function Remaining(): bytes
      requires Valid()
      reads this
    {
      data[pos..]
    }

    constructor (data: bytes)
      ensures Valid() && Remaining() == data
    {
      this.data := data;
      pos := 0;
    }

    /** read(n): up to n bytes. */
    method ReadBytes(n: nat) returns (got: bytes)
      requires Valid()
      modifies this
      ensures Valid()
      ensures got == old(Remaining())[..if n <= |old(Remaining())| then n else |old(Remaining())|]
      ensures old(Remaining()) == got + Remaining()
    {
      var end := if pos + n <= |data| then pos + n else |data|;
      got := data[pos..end];
      pos := end;
    }

    method ReadLine() returns (line: bytes)
      requires Valid()
      modifies this
      ensures Valid()
      ensures line == old(Remaining())[..LineLength(old(Remaining()))]
      ensures Remaining() == old(Remaining())[LineLength(old(Remaining()))..]
    {
      ghost var start := pos;
      var i := pos;
      while i < |data| && data[i] != '\n'
        invariant start == pos <= i <= |data|
        invariant LineLength(data[start..]) == i - start + LineLength(data[i..])
      {
        assert data[i..][1..] == data[i + 1..];
        i := i + 1;
      }
      if i < |data| {
        i := i + 1;
      }
      line := data[pos..i];
      pos := i;
    }

    /** _read_redis_response: what it returns and how far it reads are the specification's. */
    method ReadResponse(u: Utf8) returns (r: Result<Value, ReadError>)
      requires Valid()
      modifies this
      ensures Valid()
      ensures r == Returned(Response(u, old(Remaining())))
      ensures r.Ok? ==> Remaining() == Response(u, old(Remaining())).value.rest
      decreases |data| - pos, 0
    {
      hide Scalar, LineLength, Parse, Responses;
      ghost var s := Remaining();
      var prefix := ReadBytes(1);
      if prefix == [] {
        return Err(Closed);
      }
      assert Remaining() == s[1..] && prefix[0] == s[0];
      var line := ReadLine();
      if !EndsLine(line) {
        return Err(Truncated);
      }
      var value := line[..|line| - 2];
      if prefix[0] == '*' {
        var count := Parse(value);
        if count.None? {
          return Err(BadNumber);
        }
        if count.value == -1 {
          return Ok(Nil);
        }
        var items := ReadItems(u, Times(count.value));
        if items.Err? {
          return Err(items.error);
        }
        return Ok(Items(items.value));
      }
      r := ReadScalar(u, prefix[0], value);
    }

    /** One more item of a list whose whole reading is `total`. */
    method ReadItem(u: Utf8, ghost total: Result<ReadMany, ReadError>, items: seq<Value>, ghost count: nat)
      returns (r: Result<seq<Value>, ReadError>)
      requires Valid() && count > 0 && Underway(u, total, items, count, Remaining())
      modifies this
      ensures Valid() && (r.Ok? ==> pos > old(pos))
      ensures if r.Ok? then Underway(u, total, r.value, count - 1, Remaining()) else total == Err(r.error)
      decreases |data| - pos, 1
    {
      hide Responses, Response, Prepend;
      ResponsesStep(u, items, count, Remaining());
      var item := ReadResponse(u);
      if item.Err? {
        return Err(item.error);
      }
      return Ok(items + [item.value]);
    }

    method ReadItems(u: Utf8, count: nat) returns (r: Result<seq<Value>, ReadError>)
      requires Valid()
      modifies this
      ensures Valid()
      ensures r == Values(Responses(u, count, old(Remaining())))
      ensures r.Ok? ==> Remaining() == Responses(u, count, old(Remaining())).value.rest
      decreases |data| - pos, 2
    {
      ghost var total := Responses(u, count, Remaining());
      PrependNothing(total);
      var items: seq<Value> := [];
      assert Underway(u, total, items, count, Remaining());
      hide Responses, Underway;
      for i := 0 to count
        invariant Valid() && pos >= old(pos)
        invariant Underway(u, total, items, count - i, Remaining())
      {
        var more := ReadItem(u, total, items, count - i);
        if more.Err? {
          return more;
        }
        items := more.value;
      }
      AllRead(u, total, items, Remaining());
      return Ok(items);
    }

    method ReadScalar(u: Utf8, prefix: char, value: bytes) returns (r: Result<Value, ReadError>)
      requires Valid() && prefix != '*'
      modifies this
      ensures Valid()
      ensures r == Returned(Scalar(u, prefix, value, old(Remaining())))
      ensures r.Ok? ==> Remaining() == Scalar(u, prefix, value, old(Remaining())).value.rest
    {
      if prefix == '+' {
        var text := u.decode(value);
        return if text.None? then Err(BadText) else Ok(Text(text.value));
      } else if prefix == '-' {
        return Err(CommandFailed(value));
      } else if prefix == ':' {
        var number := Parse(value);
        return if number.None? then Err(BadNumber) else Ok(Number(number.value));
      } else if prefix == '$' {
        var size := Parse(value);
        if size.None? {
          return Err(BadNumber);
        }
        r := ReadBulkData(u, size.value);
      } else {
        return Err(Unsupported(prefix));
      }
    }

    method ReadBulkData(u: Utf8, size: int) returns (r: Result<Value, ReadError>)
      requires Valid()
      modifies this
      ensures Valid()
      ensures r == Returned(ReadBulk(u, size, old(Remaining())))
      ensures r.Ok? ==> Remaining() == ReadBulk(u, size, old(Remaining())).value.rest
    {
      if size == -1 {
        return Ok(Nil);
      }
      if size < 0 {
        return Err(BadSize);
      }
      ghost var s := Remaining();
      var got := ReadBytes(size);
      if |got| != size {
        return Err(Truncated);
      }
      assert Remaining() == s[size..];
      var end := ReadBytes(2);
      if end != "\r\n" {
        return Err(Truncated);
      }
      assert s[size..size + 2] == end && Remaining() == s[size + 2..];
      var text := u.decode(got);
      return if text.None? then Err(BadText) else Ok(Text(text.value));
    }
  }

  function Prepend(items: seq<Value>, r: Result<ReadMany, ReadError>): Result<ReadMany, ReadError> {
    match r
    case Err(_) => r
    case Ok(read) => Ok(ReadMany(items + read.values, read.rest))
  }

  lemma PrependNothing(r: Result<ReadMany, ReadError>)
    ensures Prepend([], r) == r
  {
    if r.Ok? {
      assert [] + r.value.values == r.value.values;
    }
  }

  lemma NoMoreResponses(u: Utf8, items: seq<Value>, s: bytes)
    ensures Prepend(items, Responses(u, 0, s)) == Ok(ReadMany(items, s))
  {
    assert items + [] == items;
  }

  /** With `items` read, `count` more responses at the front of `s` complete the row `total`. */
  predicate Underway(u: Utf8, total: Result<ReadMany, ReadError>, items: seq<Value>, count: nat, s: bytes) {
    total == Prepend(items, Responses(u, count, s))
  }

  lemma AllRead(u: Utf8, total: Result<ReadMany, ReadError>, items: seq<Value>, s: bytes)
    requires Underway(u, total, items, 0, s)
    ensures total == Ok(ReadMany(items, s))
  {
    NoMoreResponses(u, items, s);
  }

  /** One more response of a row, as the loop reads it. */
  lemma ResponsesStep(u: Utf8, items: seq<Value>, count: nat, s: bytes)
    requires count > 0
    ensures Response(u, s).Err? ==> Prepend(items, Responses(u, count, s)) == Err(Response(u, s).error)
    ensures Response(u, s).Ok? ==>
              Prepend(items, Responses(u, count, s))
              == Prepend(items + [Response(u, s).value.value], Responses(u, count - 1, Response(u, s).value.rest))
  {
    hide Response;
    if Response(u, s).Ok? {
      var first := Response(u, s).value;
      var others := Responses(u, count - 1, first.rest);
      if others.Ok? {
        assert items + ([first.value] + others.value.values) == items + [first.value] + others.value.values;
      }
    }
  }
}
