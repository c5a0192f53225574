/** Every kind of reply a server can send, read back by the diagnostic client
    (scripts/p2-runtime-fault-drill.py:422-452; the encodings are those of RESP2). */
module RespReplies {
  import opened Wrappers
  import opened Decimal
  import opened Resp

  function PrintInt(n: int): bytes {
    if n < 0 then "-" + Print(-n) else Print(n)
  }

  /** The bytes by which a server sends a value: bulk strings, integers, nil and arrays of replies. */
  function Reply(u: Utf8, v: Value): Option<bytes>
    decreases v
  {
    match v
    case Text(text) =>
      (match u.encode(text)
       case None => None
       case Some(data) => Some("$" + Print(|data|) + "\r\n" + data + "\r\n"))
    case Number(n) => Some(":" + PrintInt(n) + "\r\n")
    case Nil => Some("$-1\r\n")
    case Items(items) =>
      match Replies(u, items)
      case None => None
      case Some(rest) => Some("*" + Print(|items|) + "\r\n" + rest)
  }

  function Replies(u: Utf8, items: seq<Value>): Option<bytes>
    decreases items
  {
    if items == [] then Some([])
    else
      var first, others := Reply(u, items[0]), Replies(u, items[1..]);
      if first.None? || others.None? then None else Some(first.value + others.value)
  }

  lemma DigitsHoldNoBreak(n: nat)
    ensures '\n' !in Print(n)
  {
    PrintIsDigits(n);
  }

  lemma ParsePrintInt(n: int)
    ensures Parse(PrintInt(n)) == Some(n) && '\n' !in PrintInt(n)
  {
    if n < 0 {
      var digits, s := Print(-n), PrintInt(n);
      PrintIsDigits(-n);
      UnsignedPrint(-n);
      assert s[0] == '-' && s[1..] == digits && s[|s| - 1] == digits[|digits| - 1];
      assert StripLeft(s) == s && StripRight(s) == s;
      hide Print, Unsigned;
    } else {
      ParsePrint(n);
      DigitsHoldNoBreak(n);
    }
  }

  /** A reply of one line is read by its first byte. */
  lemma LineReads(u: Utf8, prefix: char, value: bytes, rest: bytes)
    requires '\n' !in value
    ensures prefix != '*' ==> Response(u, [prefix] + value + "\r\n" + rest) == Scalar(u, prefix, value, rest)
    ensures prefix == '*' && Parse(value) == Some(-1) ==>
      Response(u, [prefix] + value + "\r\n" + rest) == Ok(Read(Nil, rest))
    ensures prefix == '*' && Parse(value).Some? && Parse(value).value >= 0 ==>
      Response(u, [prefix] + value + "\r\n" + rest)
      == match Responses(u, Parse(value).value, rest)
         case Err(e) => Err(e)
         case Ok(many) => Ok(Read(Items(many.values), many.rest))
  {
    hide Parse, LineLength, Scalar, Responses;
    var s := [prefix] + value + "\r\n" + rest;
    LineOf(value, rest);
    assert s[1..] == value + "\r\n" + rest;
    var line := s[1..][..|value| + 2];
    assert line == value + "\r\n" && EndsLine(line) && line[..|value|] == value;
    assert s[1..][|value| + 2..] == rest;
  }

  /** Round trip: whatever value a server sends, however nested, is read back with exactly what follows it. */
  lemma {:induction false} ReplyReads(u: Utf8, v: Value, rest: bytes)
    requires RoundTrips(u) && Reply(u, v).Some?
    ensures Response(u, Reply(u, v).value + rest) == Ok(Read(v, rest))
    decreases v
  {
    hide Print, PrintInt, Parse, Response, Responses, LineLength;
    match v {
      case Text(text) =>
        PartReads(u, text, u.encode(text).value, rest);
        assert Reply(u, v).value == EncodePart(u.encode(text).value);
      case Number(n) =>
        ParsePrintInt(n);
        LineReads(u, ':', PrintInt(n), rest);
        assert Reply(u, v).value + rest == [':'] + PrintInt(n) + "\r\n" + rest;
      case Nil =>
        NilReads(u, rest);
      case Items(items) =>
        var after := Replies(u, items).value + rest;
        forall k | 0 <= k < |items| ensures Readable(u, items[k]) {
          forall r | Reply(u, items[k]).Some? ensures Response(u, Reply(u, items[k]).value + r) == Ok(Read(items[k], r)) {
            ReplyReads(u, items[k], r);
          }
        }
        RepliesRead(u, items, rest);
        ParsePrint(|items|);
        DigitsHoldNoBreak(|items|);
        LineReads(u, '*', Print(|items|), after);
        assert Reply(u, v).value + rest == ['*'] + Print(|items|) + "\r\n" + after;
    }
  }

  ghost predicate Readable(u: Utf8, v: Value) {
    Reply(u, v).Some? ==> forall rest :: Response(u, Reply(u, v).value + rest) == Ok(Read(v, rest))
  }

  lemma {:induction false} RepliesRead(u: Utf8, items: seq<Value>, rest: bytes)
    requires Replies(u, items).Some? && forall k :: 0 <= k < |items| ==> Readable(u, items[k])
    ensures Responses(u, |items|, Replies(u, items).value + rest) == Ok(ReadMany(items, rest))
    decreases |items|
  {
    hide Reply, Replies, Response, Responses, Readable;
    if items == [] {
      NoReplies(u, rest);
    } else {
      RepliesCons(u, items);
      assert Readable(u, items[0]) && forall k :: 0 <= k < |items[1..]| ==> items[1..][k] == items[k + 1];
      RepliesRead(u, items[1..], rest);
      var after := Replies(u, items[1..]).value + rest;
      FirstReads(u, items[0], after);
      assert Replies(u, items).value + rest == Reply(u, items[0]).value + after;
      OneMoreRead(u, Replies(u, items).value + rest, items, after, rest);
    }
  }

  lemma NoReplies(u: Utf8, rest: bytes)
    ensures Replies(u, []) == Some([]) && Responses(u, 0, [] + rest) == Ok(ReadMany([], rest))
  {
    assert [] + rest == rest;
  }

  lemma FirstReads(u: Utf8, v: Value, after: bytes)
    requires Readable(u, v) && Reply(u, v).Some?
    ensures Response(u, Reply(u, v).value + after) == Ok(Read(v, after))
  {
  }

  lemma RepliesCons(u: Utf8, items: seq<Value>)
    requires items != [] && Replies(u, items).Some?
    ensures Reply(u, items[0]).Some? && Replies(u, items[1..]).Some?
    ensures Replies(u, items).value == Reply(u, items[0]).value + Replies(u, items[1..]).value
  {
    hide Reply;
  }

  lemma OneMoreRead(u: Utf8, s: bytes, items: seq<Value>, after: bytes, rest: bytes)
    requires items != [] && Response(u, s) == Ok(Read(items[0], after))
    requires Responses(u, |items| - 1, after) == Ok(ReadMany(items[1..], rest))
    ensures Responses(u, |items|, s) == Ok(ReadMany(items, rest))
  {
    hide Response;
    assert items == [items[0]] + items[1..];
  }

  lemma MinusOne()
    ensures PrintInt(-1) == "-1"
  {
  }

  /** Both forms of nil read as nil. */
  lemma NilReads(u: Utf8, rest: bytes)
    ensures Response(u, "$-1\r\n" + rest) == Ok(Read(Nil, rest))
    ensures Response(u, "*-1\r\n" + rest) == Ok(Read(Nil, rest))
  {
    hide Response, Parse, PrintInt;
    MinusOne();
    ParsePrintInt(-1);
    LineReads(u, '$', "-1", rest);
    LineReads(u, '*', "-1", rest);
    assert "$-1\r\n" + rest == ['$'] + "-1" + "\r\n" + rest;
    assert "*-1\r\n" + rest == ['*'] + "-1" + "\r\n" + rest;
  }

  /** A simple string is read as its text. */
  lemma SimpleStringReads(u: Utf8, text: string, data: bytes, rest: bytes)
    requires RoundTrips(u) && u.encode(text) == Some(data) && '\n' !in data
    ensures Response(u, "+" + data + "\r\n" + rest) == Ok(Read(Text(text), rest))
  {
    hide Response;
    LineReads(u, '+', data, rest);
    assert "+" + data + "\r\n" + rest == ['+'] + data + "\r\n" + rest;
  }

  /** An error reply fails with its own message, whatever the message says. */
  lemma ErrorReplyFails(u: Utf8, message: bytes, rest: bytes)
    requires '\n' !in message
    ensures Response(u, "-" + message + "\r\n" + rest) == Err(CommandFailed(message))
  {
    hide Response;
    LineReads(u, '-', message, rest);
    assert "-" + message + "\r\n" + rest == ['-'] + message + "\r\n" + rest;
  }

  /** Any other first byte is refused, an unreadable number too, and so is a negative size that is not minus one. */
  lemma OtherRepliesFail(u: Utf8, prefix: char, line: bytes, size: int, rest: bytes)
    requires '\n' !in line
    ensures prefix !in "+-:$*" ==> Response(u, [prefix] + line + "\r\n" + rest) == Err(Unsupported(prefix))
    ensures Parse(line) == None && prefix in ":$" ==> Response(u, [prefix] + line + "\r\n" + rest) == Err(BadNumber)
    ensures Parse(line) == Some(size) && size < -1 && prefix == '$' ==>
      Response(u, [prefix] + line + "\r\n" + rest) == Err(BadSize)
  {
    hide Response, Parse;
    if prefix != '*' {
      LineReads(u, prefix, line, rest);
    }
  }

  /** A line that ends without "\r\n" is a truncated reply. */
  lemma UnfinishedLineFails(u: Utf8, prefix: char, line: bytes)
    requires '\n' !in line
    ensures Response(u, [prefix] + line) == Err(Truncated) && Response(u, []) == Err(Closed)
  {
    NoBreak(line);
    assert ([prefix] + line)[1..] == line && line[..|line|] == line;
    assert !EndsLine(line) by {
      assert |line| >= 2 ==> line[|line| - 2..][1] == line[|line| - 1];
    }
  }

  lemma {:induction false} NoBreak(line: bytes)
    requires '\n' !in line
    ensures LineLength(line) == |line|
  {
    if line != [] {
      NoBreak(line[1..]);
    }
  }

  /** An array with a negative count that is not minus one reads as empty. */
  lemma NegativeCountReadsEmpty(u: Utf8, n: int, rest: bytes)
    requires n < -1
    ensures Response(u, "*" + PrintInt(n) + "\r\n" + rest) == Ok(Read(Items([]), rest))
  {
    ParsePrintInt(n);
    var value := PrintInt(n);
    hide Parse, PrintInt, LineLength;
    LineOf(value, rest);
    var s := ['*'] + value + "\r\n" + rest;
    assert "*" + value + "\r\n" + rest == s && s[1..] == value + "\r\n" + rest;
    var line := s[1..][..|value| + 2];
    assert line == value + "\r\n" && EndsLine(line) && line[..|value|] == value && s[1..][|value| + 2..] == rest;
  }

  /** A bulk string must have all its bytes and its closing "\r\n". */
  lemma BulkIsChecked(u: Utf8, size: nat, data: bytes)
    requires |data| < size + 2 || data[size..size + 2] != "\r\n"
    ensures Response(u, "$" + Print(size) + "\r\n" + data) == Err(Truncated)
  {
    ParsePrint(size);
    DigitsHoldNoBreak(size);
    var value := Print(size);
    hide Print, Parse, Response;
    LineReads(u, '$', value, data);
    assert "$" + value + "\r\n" + data == ['$'] + value + "\r\n" + data;
  }
}
