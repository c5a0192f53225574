/** Counting levels in a gateway log: summarize_log (scripts/runtime-support.py) on the lines of LogLine. */
module LogSummary {
  import opened Wrappers
  import opened Decimal
  import opened LogLine

  const LEVELS: set<string> := {"DEBUG", "INFO", "WARN", "ERROR"}

  /** The characters at which str.splitlines breaks. */
  predicate IsBreak(c: char) {
    var u := c as int;
    10 <= u <= 13 || 0x1C <= u <= 0x1E || u == 0x85 || u == 0x2028 || u == 0x2029
  }

  /** The index of the first break, or the length. */
  function BreakIndex(s: string): (n: nat)
    ensures n <= |s| && (n < |s| ==> IsBreak(s[n]))
  {
    if s == [] || IsBreak(s[0]) then 0 else 1 + BreakIndex(s[1..])
  }

  function BreakWidth(s: string, i: nat): (w: nat)
    requires i < |s|
    ensures 1 <= w <= |s| - i
  {
    if s[i] == '\r' && i + 1 < |s| && s[i + 1] == '\n' then 2 else 1
  }

  function AfterBreak(s: string, i: nat): (r: string)
    requires i < |s|
    ensures |r| < |s|
  {
    s[i + BreakWidth(s, i)..]
  }

  /** str.splitlines */
  function SplitLines(s: string): seq<string>
    decreases |s|
  {
    if s == [] then []
    else
      var i := BreakIndex(s);
      if i == |s| then [s] else [s[..i]] + SplitLines(AfterBreak(s, i))
  }

  /** str.isspace */
  predicate IsPySpace(c: char) {
    IsGoSpace(c) || 0x1C <= c as int <= 0x1F
  }

  function StripLeft(s: string): (r: string)
    ensures |r| <= |s|
  {
    if s != [] && IsPySpace(s[0]) then StripLeft(s[1..]) else s
  }

  function StripRight(s: string): (r: string)
    ensures |r| <= |s|
  {
    if s != [] && IsPySpace(s[|s| - 1]) then StripRight(s[..|s| - 1]) else s
  }

  function Strip(s: string): string {
    StripRight(StripLeft(s))
  }

  /** The line has seven columns and this level. */
  predicate Counted(line: string, level: string) {
    var columns := Split(line, 6);
    |columns| == 7 && Strip(columns[1]) == level
  }

  function CountLevel(lines: seq<string>, level: string): nat {
    if lines == [] then 0 else (if Counted(lines[0], level) then 1 else 0) + CountLevel(lines[1..], level)
  }

  method SummarizeLog(scanned: string) returns (levels: map<string, nat>)
    ensures levels.Keys == LEVELS
    ensures forall level <- LEVELS :: levels[level] == CountLevel(SplitLines(scanned), level)
  {
    hide Split, SplitLines, Strip;
    levels := map["DEBUG" := 0, "INFO" := 0, "WARN" := 0, "ERROR" := 0];
    var lines := SplitLines(scanned);
    assert lines[0..] == lines;
    for i := 0 to |lines|
      invariant levels.Keys == LEVELS
      invariant forall level <- LEVELS ::
                  levels[level] + CountLevel(lines[i..], level) == CountLevel(lines, level)
    {
      assert lines[i..][0] == lines[i] && lines[i..][1..] == lines[i + 1..];
      var columns := Split(lines[i], 6);
      if |columns| == 7 {
        var level := Strip(columns[1]);
        if level in LEVELS {
          levels := levels[level := levels[level] + 1];
        }
      }
    }
  }

  // ----- bars and breaks

  function Bars(s: string): nat {
    if s == [] then 0 else (if s[0] == '|' then 1 else 0) + Bars(s[1..])
  }

  lemma {:induction false} BarsConcat(a: string, b: string)
    ensures Bars(a + b) == Bars(a) + Bars(b)
  {
    if a == [] {
      assert a + b == b;
    } else {
      assert (a + b)[1..] == a[1..] + b;
      BarsConcat(a[1..], b);
    }
  }

  lemma {:induction false} BarFreeHasNoBars(s: string)
    ensures BarFree(s) <==> Bars(s) == 0
  {
    if s != [] {
      BarFreeHasNoBars(s[1..]);
      assert s == [s[0]] + s[1..];
    }
  }

  lemma BarsOfParts(s: string, i: nat)
    requires i <= |s|
    ensures Bars(s) == Bars(s[..i]) + Bars(s[i..])
  {
    assert s == s[..i] + s[i..];
    BarsConcat(s[..i], s[i..]);
  }

  lemma BarsAfter(s: string, i: nat)
    requires BarAt(s, i)
    ensures Bars(s) >= 1 + Bars(s[i + 3..])
  {
    BarsOfParts(s, i + 1);
    BarsOfParts(s[i + 1..], 2);
    assert s[i + 1..][..2][0] == '|' && s[i + 1..][2..] == s[i + 3..];
  }

  /** A line has at most one column more than bars. */
  lemma {:induction false} SplitNeedsBars(s: string, n: nat)
    ensures |Split(s, n)| <= Bars(s) + 1
    decreases n
  {
    hide FindBar, Bars, BarAt;
    var i := FindBar(s);
    if n > 0 && i < |s| {
      BarsAfter(s, i);
      BarFits(s, i);
      SplitNeedsBars(s[i + 3..], n - 1);
    }
  }

  lemma BarFits(s: string, i: nat)
    requires BarAt(s, i)
    ensures i + 3 <= |s|
  {
  }

  predicate Unbroken(s: string) {
    forall i :: 0 <= i < |s| ==> !IsBreak(s[i])
  }

  lemma {:induction false} BreakIndexIs(s: string)
    ensures Unbroken(s[..BreakIndex(s)]) && (Unbroken(s) <==> BreakIndex(s) == |s|)
  {
    hide IsBreak;
    if s != [] && !IsBreak(s[0]) {
      BreakIndexIs(s[1..]);
      assert forall i :: 0 <= i < |s| - 1 ==> s[1..][i] == s[i + 1];
      assert forall i :: 0 < i < |s| ==> s[i] == s[1..][i - 1];
    }
  }

  lemma {:induction false} BreakIndexConcat(a: string, b: string)
    ensures BreakIndex(a + b) == if BreakIndex(a) < |a| then BreakIndex(a) else |a| + BreakIndex(b)
  {
    if a == [] {
      assert a + b == b;
    } else {
      assert (a + b)[1..] == a[1..] + b;
      BreakIndexConcat(a[1..], b);
    }
  }

  lemma NewlineBreaks(rest: string)
    ensures BreakIndex("\n" + rest) == 0
  {
  }

  lemma Unfold(s: string)
    requires BreakIndex(s) < |s|
    ensures SplitLines(s) == [s[..BreakIndex(s)]] + SplitLines(AfterBreak(s, BreakIndex(s)))
  {
    hide BreakIndex, AfterBreak, IsBreak;
  }

  lemma DropConcat(t: string, u: string, k: nat)
    requires k <= |t|
    ensures (t + u)[k..] == t[k..] + u
  {
  }

  lemma WidthInside(t: string, i: nat, rest: string)
    requires i < |t| && t[|t| - 1] != '\r'
    ensures AfterBreak(t + ("\n" + rest), i) == AfterBreak(t, i) + ("\n" + rest)
  {
    var s := t + ("\n" + rest);
    assert s[i] == t[i] && (i + 1 < |t| ==> s[i + 1] == t[i + 1]);
    assert BreakWidth(s, i) == BreakWidth(t, i);
    hide BreakWidth;
    DropConcat(t, "\n" + rest, i + BreakWidth(t, i));
  }

  lemma FirstPiece(t: string, rest: string)
    requires t == [] || t[|t| - 1] != '\r'
    ensures var i := BreakIndex(t);
      SplitLines(t + ("\n" + rest))
      == [t[..i]] + if i == |t| then SplitLines(rest) else SplitLines(AfterBreak(t, i) + ("\n" + rest))
  {
    var i, s := BreakIndex(t), t + ("\n" + rest);
    BreakIndexConcat(t, "\n" + rest);
    NewlineBreaks(rest);
    hide BreakIndex, SplitLines, IsBreak;
    Unfold(s);
    assert s[..i] == t[..i];
    if i == |t| {
      NewlineEnds(t, rest);
    } else {
      hide AfterBreak;
      WidthInside(t, i, rest);
    }
  }

  lemma NewlineEnds(t: string, rest: string)
    ensures AfterBreak(t + ("\n" + rest), |t|) == rest
  {
  }

  lemma CountCons(line: string, lines: seq<string>, level: string)
    ensures CountLevel([line] + lines, level) == (if Counted(line, level) then 1 else 0) + CountLevel(lines, level)
  {
    assert ([line] + lines)[1..] == lines;
  }

  lemma TooFewBars(line: string, level: string)
    requires Bars(line) < 6
    ensures !Counted(line, level)
  {
    hide Split;
    SplitNeedsBars(line, 6);
  }

  lemma AfterBreakIs(s: string, i: nat)
    requires i < |s|
    ensures Bars(AfterBreak(s, i)) <= Bars(s)
    ensures s[|s| - 1] != '\r' ==> AfterBreak(s, i) == [] || AfterBreak(s, i)[|AfterBreak(s, i)| - 1] != '\r'
  {
    BarsOfParts(s, i + BreakWidth(s, i));
  }

  /** Text with fewer than six bars adds no count, wherever it breaks. */
  lemma {:induction false} FewBarsDoNotCount(t: string, rest: string, level: string)
    requires Bars(t) < 6 && (t == [] || t[|t| - 1] != '\r')
    ensures CountLevel(SplitLines(t + ("\n" + rest)), level) == CountLevel(SplitLines(rest), level)
    decreases |t|
  {
    hide CountLevel, SplitLines, BreakIndex, Counted, Bars, AfterBreak;
    var i := BreakIndex(t);
    FirstPiece(t, rest);
    BarsOfParts(t, i);
    TooFewBars(t[..i], level);
    if i == |t| {
      CountCons(t[..i], SplitLines(rest), level);
    } else {
      AfterBreakIs(t, i);
      FewBarsDoNotCount(AfterBreak(t, i), rest, level);
      CountCons(t[..i], SplitLines(AfterBreak(t, i) + ("\n" + rest)), level);
    }
  }

  // ----- records

  function LevelName(level: int): string {
    if level == -4 then "DEBUG" else if level == 4 then "WARN" else if level == 8 then "ERROR" else "INFO"
  }

  function Line(t: Texts, r: Record): string {
    Join(BAR, Columns(t, r))
  }

  /** The file the gateway writes: every line ends in a newline. */
  function FileText(t: Texts, records: seq<Record>): string {
    if records == [] then [] else Line(t, records[0]) + ("\n" + FileText(t, records[1..]))
  }

  /** No column before the message breaks the line. */
  predicate HeaderUnbroken(t: Texts, r: Record) {
    Unbroken(r.service) && Unbroken(r.caller) && Unbroken(FormatContext(Gathered(t, r).context))
  }

  lemma {:induction false} JoinSnoc(columns: seq<string>, last: string)
    requires columns != []
    ensures Join(BAR, columns + [last]) == Join(BAR, columns) + (BAR + last)
  {
    var all := columns + [last];
    if |columns| == 1 {
      assert all[1..] == [last];
    } else {
      assert all[1..] == columns[1..] + [last];
      JoinSnoc(columns[1..], last);
      assert columns[0] + BAR + (Join(BAR, columns[1..]) + (BAR + last))
          == columns[0] + BAR + Join(BAR, columns[1..]) + (BAR + last);
    }
  }

  predicate AllBarFree(columns: seq<string>) {
    forall i :: 0 <= i < |columns| ==> BarFree(columns[i])
  }

  lemma {:induction false} BarsOfJoin(columns: seq<string>)
    requires columns != [] && AllBarFree(columns)
    ensures Bars(Join(BAR, columns)) == |columns| - 1
  {
    BarFreeHasNoBars(columns[0]);
    if |columns| > 1 {
      JoinStep(columns);
      BarsOfJoin(columns[1..]);
      BarsConcat(columns[0], BAR + Join(BAR, columns[1..]));
      BarsConcat(BAR, Join(BAR, columns[1..]));
      OneBar();
    }
  }

  lemma OneBar()
    ensures Bars(BAR) == 1
  {
    assert BAR[1..] == "| " && "| "[1..] == " " && " "[1..] == "";
  }

  predicate AllUnbroken(columns: seq<string>) {
    forall i :: 0 <= i < |columns| ==> Unbroken(columns[i])
  }

  lemma UnbrokenConcat(a: string, b: string)
    ensures Unbroken(a + b) <==> Unbroken(a) && Unbroken(b)
  {
    hide IsBreak;
    assert forall i :: 0 <= i < |a| ==> a[i] == (a + b)[i];
    assert forall i :: 0 <= i < |b| ==> b[i] == (a + b)[|a| + i];
  }

  lemma {:induction false} UnbrokenJoin(columns: seq<string>)
    requires columns != []
    ensures Unbroken(Join(BAR, columns)) <==> AllUnbroken(columns)
  {
    assert Unbroken(BAR);
    hide Unbroken;
    if |columns| > 1 {
      JoinStep(columns);
      UnbrokenJoin(columns[1..]);
      UnbrokenConcat(columns[0], BAR + Join(BAR, columns[1..]));
      UnbrokenConcat(BAR, Join(BAR, columns[1..]));
      assert columns == [columns[0]] + columns[1..];
    }
  }

  lemma StripLevel(level: int)
    ensures Strip(LevelColumn(level)) == LevelName(level)
  {
    assert "WARN "[..4] == "WARN" && "INFO "[..4] == "INFO";
  }

  /** The columns before the message. */
  function Front(t: Texts, r: Record): seq<string> {
    Columns(t, r)[..6]
  }

  lemma LineIs(t: Texts, r: Record)
    ensures Line(t, r) == Join(BAR, Front(t, r)) + (BAR + MessageColumn(t, r))
  {
    hide FormatTime, FormatContext, MessageColumn, Gathered, Join, LevelColumn;
    JoinSnoc(Front(t, r), MessageColumn(t, r));
    assert Columns(t, r) == Front(t, r) + [MessageColumn(t, r)];
  }

  lemma LevelIsUnbroken(level: int)
    ensures Unbroken(LevelColumn(level)) && Unbroken("-")
  {
  }

  lemma SixUnbroken(f: seq<string>)
    requires |f| == 6
    ensures AllUnbroken(f)
            <==> Unbroken(f[0]) && Unbroken(f[1]) && Unbroken(f[2]) && Unbroken(f[3]) && Unbroken(f[4]) && Unbroken(f[5])
  {
    hide Unbroken;
    if Unbroken(f[0]) && Unbroken(f[1]) && Unbroken(f[2]) && Unbroken(f[3]) && Unbroken(f[4]) && Unbroken(f[5]) {
      forall i | 0 <= i < |f| ensures Unbroken(f[i]) {
        assert i == 0 || i == 1 || i == 2 || i == 3 || i == 4 || i == 5;
      }
    }
  }

  lemma FrontIsUnbroken(t: Texts, r: Record)
    ensures Unbroken(Join(BAR, Front(t, r))) <==> HeaderUnbroken(t, r)
  {
    hide FormatTime, FormatContext, MessageColumn, Gathered, Join, LevelColumn, Unbroken, Stamp, AllUnbroken;
    UnbrokenJoin(Front(t, r));
    TimeIsStamp(r.time);
    StampIsUnbroken(FormatTime(r.time));
    LevelIsUnbroken(r.level);
    SixUnbroken(Front(t, r));
  }

  lemma StampIsUnbroken(s: string)
    requires Stamp(s)
    ensures Unbroken(s)
  {
  }

  lemma FrontIsBarFree(t: Texts, r: Record)
    requires BarFree(r.service) && BarFree(r.caller)
    ensures AllBarFree(Front(t, r))
  {
    FixedColumnsAreBarFree(t, r);
    hide FormatTime, FormatContext, MessageColumn, Gathered, LevelColumn, BarFree;
    var f := Front(t, r);
    assert f == [f[0], f[1], f[2], f[3], f[4], f[5]];
  }

  /** A piece that holds the whole front of a line is counted under the level of its record. */
  lemma FullPiece(t: Texts, r: Record, message: string, level: string)
    requires BarFree(r.service) && BarFree(r.caller)
    ensures Counted(Join(BAR, Front(t, r)) + (BAR + message), level) <==> level == LevelName(r.level)
  {
    var columns := Front(t, r) + [message];
    FrontIsBarFree(t, r);
    SplitJoined(columns);
    StripLevel(r.level);
    assert columns[1] == LevelColumn(r.level);
    hide FormatTime, FormatContext, MessageColumn, Gathered, LevelColumn, Split, Join, Strip, LevelName, Front;
    JoinSnoc(Front(t, r), message);
    forall i | 0 <= i < |columns| - 1 ensures Clean(columns[i]) {
      assert columns[i] == Front(t, r)[i];
      BarFreeIsClean(columns[i]);
    }
  }

  lemma BarIsUnbroken()
    ensures BreakIndex(BAR) == 3
  {
  }

  lemma WholeFront(front: string, message: string)
    requires Unbroken(front)
    ensures var line := front + (BAR + message);
      line[..BreakIndex(line)] == front + (BAR + message[..BreakIndex(message)])
  {
    hide BreakIndex, IsBreak;
    BreakIndexIs(front);
    BarIsUnbroken();
    BreakIndexConcat(front, BAR + message);
    BreakIndexConcat(BAR, message);
  }

  lemma CutFront(front: string, message: string)
    requires !Unbroken(front)
    ensures var line := front + (BAR + message);
      BreakIndex(line) <= |front| && line[..BreakIndex(line)] == front[..BreakIndex(line)]
  {
    hide BreakIndex, IsBreak, Unbroken;
    BreakIndexIs(front);
    BreakIndexConcat(front, BAR + message);
  }

  /** The first piece of a line is counted exactly when the line breaks nowhere before its message. */
  lemma FirstPieceCounts(t: Texts, r: Record, level: string)
    requires BarFree(r.service) && BarFree(r.caller)
    ensures var line := Line(t, r);
      Counted(line[..BreakIndex(line)], level) <==> HeaderUnbroken(t, r) && level == LevelName(r.level)
  {
    var line, front, message := Line(t, r), Join(BAR, Front(t, r)), MessageColumn(t, r);
    LineIs(t, r);
    FrontIsUnbroken(t, r);
    hide Counted, BreakIndex, Front, Line, HeaderUnbroken, LevelName, Unbroken, Join, BarFree, MessageColumn;
    if HeaderUnbroken(t, r) {
      WholeFront(front, message);
      FullPiece(t, r, message[..BreakIndex(message)], level);
    } else {
      CutFront(front, message);
      FrontIsBarFree(t, r);
      FrontHasSix(t, r);
      BarsOfJoin(Front(t, r));
      BarsOfParts(front, BreakIndex(line));
      TooFewBars(line[..BreakIndex(line)], level);
    }
  }

  lemma FrontHasSix(t: Texts, r: Record)
    ensures |Front(t, r)| == 6
  {
  }

  /** What follows the first break of a line has too few bars to count. */
  lemma TailHasFewBars(t: Texts, r: Record)
    requires BarFree(r.service) && BarFree(r.caller) && BreakIndex(Line(t, r)) < |Line(t, r)|
    ensures Bars(AfterBreak(Line(t, r), BreakIndex(Line(t, r)))) < 6
  {
    hide Line, BreakIndex, AfterBreak;
    LineBars(t, r);
    StampThenBar(t, r);
    TailBars(Line(t, r), BreakIndex(Line(t, r)), |FormatTime(r.time)| + 2);
  }

  lemma TailBars(s: string, i: nat, n: nat)
    requires n <= i < |s| && Bars(s) == 6 && Bars(s[..n]) == 1
    ensures Bars(AfterBreak(s, i)) < 6
  {
    hide Bars;
    var end := i + BreakWidth(s, i);
    BarsOfParts(s, end);
    BarsOfParts(s[..end], n);
    assert s[..end][..n] == s[..n];
  }

  lemma LineBars(t: Texts, r: Record)
    requires BarFree(r.service) && BarFree(r.caller)
    ensures Bars(Line(t, r)) == 6
  {
    FixedColumnsAreBarFree(t, r);
    hide FormatTime, FormatContext, MessageColumn, Gathered, LevelColumn, BarFree, Join, Bars;
    var c := Columns(t, r);
    assert c == [c[0], c[1], c[2], c[3], c[4], c[5], c[6]];
    assert AllBarFree(c);
    BarsOfJoin(c);
  }

  /** A line does not break before its first separator. */
  lemma StampThenBar(t: Texts, r: Record)
    ensures var line, n := Line(t, r), |FormatTime(r.time)| + 2;
      n <= BreakIndex(line) && n <= |line| && Bars(line[..n]) == 1
  {
    JoinStep(Columns(t, r));
    TimeIsStamp(r.time);
    hide FormatTime, FormatContext, MessageColumn, Gathered, LevelColumn, Join, Stamp, BreakIndex, Bars;
    BarFollows(FormatTime(r.time), Join(BAR, Columns(t, r)[1..]));
  }

  lemma BarFollows(stamp: string, rest: string)
    requires Stamp(stamp)
    ensures var line, n := stamp + (BAR + rest), |stamp| + 2;
      n <= BreakIndex(line) && n <= |line| && Bars(line[..n]) == 1
  {
    var line := stamp + (BAR + rest);
    StampIsUnbroken(stamp);
    StampHasNoBars(stamp);
    BarPrefix();
    BarIsUnbroken();
    hide Stamp, BreakIndex, Bars, IsBreak;
    BreakIndexIs(stamp);
    BreakIndexConcat(stamp, BAR + rest);
    BreakIndexConcat(BAR, rest);
    assert line[..|stamp| + 2] == stamp + " |";
    BarsConcat(stamp, " |");
  }

  lemma BarPrefix()
    ensures Bars(" |") == 1
  {
    assert " |"[1..] == "|" && "|"[1..] == "";
  }

  lemma {:induction false} StampHasNoBars(s: string)
    requires Stamp(s)
    ensures Bars(s) == 0
  {
    if s != [] {
      StampHasNoBars(s[1..]);
    }
  }

  lemma LineEndsSafely(t: Texts, r: Record)
    ensures Line(t, r) != [] && Line(t, r)[|Line(t, r)| - 1] != '\r'
  {
    LineIs(t, r);
    ContextAndMessageAreTidy(t, r);
    hide Line, MessageColumn, Front, Join;
    var m := MessageColumn(t, r);
    assert m != [] ==> m[|m| - 1] != '\r';
  }

  /** One record in a log file adds one to the count of its level, and only if no column before the message breaks the
      line; nothing in its message or attributes can add a count or hide the lines after it. */
  lemma RecordCounts(t: Texts, r: Record, rest: string, level: string)
    requires BarFree(r.service) && BarFree(r.caller)
    ensures CountLevel(SplitLines(Line(t, r) + ("\n" + rest)), level)
            == (if HeaderUnbroken(t, r) && level == LevelName(r.level) then 1 else 0) + CountLevel(SplitLines(rest), level)
  {
    hide Line, CountLevel, SplitLines, Counted, HeaderUnbroken, LevelName, AfterBreak, BreakIndex;
    var line := Line(t, r);
    var i := BreakIndex(line);
    LineEndsSafely(t, r);
    FirstPiece(line, rest);
    FirstPieceCounts(t, r, level);
    if i == |line| {
      CountCons(line[..i], SplitLines(rest), level);
    } else {
      TailHasFewBars(t, r);
      AfterBreakIs(line, i);
      FewBarsDoNotCount(AfterBreak(line, i), rest, level);
      CountCons(line[..i], SplitLines(AfterBreak(line, i) + ("\n" + rest)), level);
    }
  }

  function Expected(t: Texts, records: seq<Record>, level: string): nat {
    if records == [] then 0
    else
      (if HeaderUnbroken(t, records[0]) && level == LevelName(records[0].level) then 1 else 0)
      + Expected(t, records[1..], level)
  }

  /** The summary of a whole file counts, per level, exactly the records whose columns before the message do not
      break their line. */
  lemma {:induction false} SummaryCountsRecords(t: Texts, records: seq<Record>, level: string)
    requires forall r <- records :: BarFree(r.service) && BarFree(r.caller)
    ensures CountLevel(SplitLines(FileText(t, records)), level) == Expected(t, records, level)
  {
    hide Line, BarFree, Counted, HeaderUnbroken, LevelName, BreakIndex;
    if records != [] {
      assert records[0] in records && forall r <- records[1..] :: r in records;
      SummaryCountsRecords(t, records[1..], level);
      RecordCounts(t, records[0], FileText(t, records[1..]), level);
    }
  }

  // ----- a break that normalisation lets through

  predicate Word(s: string) {
    s != [] && forall i :: 0 <= i < |s| ==> !IsGoSpace(s[i]) && s[i] != '|'
  }

  lemma {:induction false} WordIsOneField(s: string)
    requires forall i :: 0 <= i < |s| ==> !IsGoSpace(s[i])
    ensures WordLength(s) == |s|
  {
    if s != [] {
      WordIsOneField(s[1..]);
    }
  }

  /** Normalising a word that fits changes nothing. */
  lemma NormalizeKeepsWords(s: string, maxLen: nat)
    requires Word(s) && 0 < maxLen && ByteLength(s) <= maxLen
    ensures Normalize(s, maxLen) == s
  {
    ReplaceIs(s, '\n', ' ');
    assert Replace(s, '\n', ' ') == s;
    ReplaceIs(s, '\r', ' ');
    assert Replace(s, '\r', ' ') == s;
    WordIsOneField(s);
    assert s[|s|..] == [] && s[..|s|] == s;
    assert Fields(s) == [s] + Fields([]) == [s];
    ReplaceIs(s, '|', '\U{A6}');
    assert Replace(s, '|', '\U{A6}') == s;
  }

  /** The separators U+001C to U+001E are white space to splitlines but not to strings.Fields: a trace id holding one
      passes normalisation, and its record is not counted at any level. */
  lemma SeparatorInTraceLosesRecord(t: Texts, r: Record, trace: string, rest: string, level: string)
    requires BarFree(r.service) && BarFree(r.caller)
    requires Word(trace) && ByteLength(trace) <= MAX_CONTEXT && !Unbroken(trace)
    requires r.handlerAttrs == [] && r.attrs == [Attr("trace_id", Plain(trace))]
    requires t.redact(trace) == trace && !IsSensitive(t, "trace_id")
    ensures CountLevel(SplitLines(Line(t, r) + ("\n" + rest)), level) == CountLevel(SplitLines(rest), level)
  {
    TraceIsKept(t, r, trace);
    hide Line, CountLevel, SplitLines, LevelName, Word, BarFree;
    RecordCounts(t, r, rest, level);
  }

  lemma CollectSingle(t: Texts, key: string, text: string, st: Collected)
    ensures Collect(t, [Attr(key, Plain(text))], "", st) == Put(t, st, key, text)
  {
    hide Put;
    var attrs := [Attr(key, Plain(text))];
    assert attrs[1..] == [] && "" + key == key;
  }

  lemma TraceIsGathered(t: Texts, r: Record, trace: string)
    requires Word(trace) && ByteLength(trace) <= MAX_CONTEXT
    requires r.handlerAttrs == [] && r.attrs == [Attr("trace_id", Plain(trace))]
    requires t.redact(trace) == trace && !IsSensitive(t, "trace_id")
    ensures Gathered(t, r).context.trace == trace
  {
    hide Normalize, IsSensitive, Word, ByteLength;
    NormalizeKeepsWords(trace, MAX_MESSAGE);
    CollectSingle(t, "trace_id", trace, EMPTY);
  }

  lemma ContextHoldsTrace(c: Context)
    requires !Unbroken(OrDash(c.trace))
    ensures !Unbroken(FormatContext(c))
  {
    hide Unbroken, OrDash;
    var after := " request=" + OrDash(c.request) + " task=" + OrDash(c.task) + " run=" + OrDash(c.run)
    + " step=" + OrDash(c.step);
    assert FormatContext(c) == "trace=" + OrDash(c.trace) + after;
    UnbrokenConcat("trace=" + OrDash(c.trace), after);
    UnbrokenConcat("trace=", OrDash(c.trace));
  }

  lemma TraceIsKept(t: Texts, r: Record, trace: string)
    requires Word(trace) && ByteLength(trace) <= MAX_CONTEXT && !Unbroken(trace)
    requires r.handlerAttrs == [] && r.attrs == [Attr("trace_id", Plain(trace))]
    requires t.redact(trace) == trace && !IsSensitive(t, "trace_id")
    ensures !HeaderUnbroken(t, r)
  {
    hide Normalize, IsSensitive, Unbroken, ByteLength, Gathered, FormatContext;
    TraceIsGathered(t, r, trace);
    NormalizeKeepsWords(trace, MAX_CONTEXT);
    ContextHoldsTrace(Gathered(t, r).context);
  }
}
