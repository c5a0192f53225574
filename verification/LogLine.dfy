/** The seven-column log line: JarvisHandler.Handle with normalizeText, formatContext and collectAttrs
    (apps/gateway/internal/observability/logger.go), and the splitter summarize_log (scripts/runtime-support.py). */
module LogLine {
  import opened Wrappers
  import opened Decimal

  const MAX_MESSAGE := 4096
  const MAX_CONTEXT := 128

  /** Text handling that is not modelled: the redaction patterns of sanitize, and strings.ToLower. */
  datatype Texts = Texts(redact: string -> string, lower: string -> string)

  // ----- normalizeText

  /** unicode.IsSpace */
  predicate IsGoSpace(c: char) {
    var u := c as int;
    || 9 <= u <= 13 || u == 32 || u == 0x85 || u == 0xA0 || u == 0x1680 || 0x2000 <= u <= 0x200A
    || u == 0x2028 || u == 0x2029 || u == 0x202F || u == 0x205F || u == 0x3000
  }

  function Replace(s: string, from: char, to: char): string {
    if s == [] then [] else [if s[0] == from then to else s[0]] + Replace(s[1..], from, to)
  }

  /** The length of the word at the front of `s`. */
  function WordLength(s: string): (n: nat)
    ensures n <= |s|
  {
    if s == [] || IsGoSpace(s[0]) then 0 else 1 + WordLength(s[1..])
  }

  /** strings.Fields */
  function Fields(s: string): seq<string>
    decreases |s|
  {
    if s == [] then []
    else if IsGoSpace(s[0]) then Fields(s[1..])
    else [s[..WordLength(s)]] + Fields(s[WordLength(s)..])
  }

  function Join(separator: string, parts: seq<string>): string {
    if parts == [] then []
    else if |parts| == 1 then parts[0]
    else parts[0] + separator + Join(separator, parts[1..])
  }

  /** The bytes of a character in UTF-8. */
  function Width(c: char): nat {
    var u := c as int;
    if u < 0x80 then 1 else if u < 0x800 then 2 else if u < 0x10000 then 3 else 4
  }

  function ByteLength(s: string): nat {
    if s == [] then 0 else Width(s[0]) + ByteLength(s[1..])
  }

  /** text[:n] in bytes; a character cut in the middle reads as the replacement character. */
  function CutBytes(s: string, n: nat): string {
    if s == [] || n == 0 then []
    else if Width(s[0]) <= n then [s[0]] + CutBytes(s[1..], n - Width(s[0]))
    else ['\U{FFFD}']
  }

  function Normalize(value: string, maxLen: nat): string
    requires maxLen > 0
  {
    var flat := Replace(Replace(value, '\n', ' '), '\r', ' ');
    var text := Replace(Join(" ", Fields(flat)), '|', '\U{A6}');
    if ByteLength(text) > maxLen then CutBytes(text, maxLen - 1) + ['\U{2026}'] else text
  }

  /** No bar, and no white space but single blanks. */
  predicate Tidy(s: string) {
    forall i :: 0 <= i < |s| ==> s[i] != '|' && (IsGoSpace(s[i]) ==> s[i] == ' ')
  }

  predicate Blank(s: string) {
    forall i :: 0 <= i < |s| ==> (IsGoSpace(s[i]) ==> s[i] == ' ')
  }

  lemma {:induction false} WordHasNoSpace(s: string)
    ensures forall i :: 0 <= i < WordLength(s) ==> !IsGoSpace(s[i])
  {
    if s != [] && !IsGoSpace(s[0]) {
      WordHasNoSpace(s[1..]);
    }
  }

  lemma {:induction false} FieldsAreBlank(s: string)
    ensures Blank(Join(" ", Fields(s)))
    decreases |s|
  {
    hide IsGoSpace;
    if s != [] {
      if IsGoSpace(s[0]) {
        FieldsAreBlank(s[1..]);
      } else {
        WordHasNoSpace(s);
        FieldsAreBlank(s[WordLength(s)..]);
      }
    }
  }

  lemma {:induction false} ReplaceIs(s: string, from: char, to: char)
    ensures |Replace(s, from, to)| == |s|
    ensures forall i :: 0 <= i < |s| ==> Replace(s, from, to)[i] == if s[i] == from then to else s[i]
  {
    if s != [] {
      ReplaceIs(s[1..], from, to);
    }
  }

  lemma {:induction false} CutIsTidy(s: string, n: nat)
    requires Tidy(s)
    ensures Tidy(CutBytes(s, n))
  {
    if s != [] && n > 0 && Width(s[0]) <= n {
      CutIsTidy(s[1..], n - Width(s[0]));
    }
  }

  /** Normalised text has no bar and no white space but blanks, whatever went in. */
  lemma NormalizeIsTidy(value: string, maxLen: nat)
    requires maxLen > 0
    ensures Tidy(Normalize(value, maxLen))
  {
    var fields := Join(" ", Fields(Replace(Replace(value, '\n', ' '), '\r', ' ')));
    FieldsAreBlank(Replace(Replace(value, '\n', ' '), '\r', ' '));
    ReplaceIs(fields, '|', '\U{A6}');
    var text := Replace(fields, '|', '\U{A6}');
    assert Tidy(text);
    CutIsTidy(text, maxLen - 1);
  }

  lemma TidyConcat(a: string, b: string)
    requires Tidy(a) && Tidy(b)
    ensures Tidy(a + b)
  {
  }

  // ----- attributes

  datatype AttrValue = Plain(text: string) | Group(attrs: seq<Attr>)

  datatype Attr = Attr(key: string, value: AttrValue)

  datatype Context = Context(trace: string, request: string, task: string, run: string, step: string)

  datatype Collected = Collected(context: Context, extras: seq<string>)

  const SENSITIVE: set<string> := {
    "key", "api_key", "apikey", "token", "secret", "password", "cookie", "credential", "passwd", "pwd",
    "access_key", "secret_key", "private_key", "api_secret"
  }

  /** What follows the last dot. */
  function AfterDot(key: string): string {
    if key == [] || key[|key| - 1] == '.' then [] else AfterDot(key[..|key| - 1]) + [key[|key| - 1]]
  }

  predicate EndsWith(s: string, suffix: string) {
    |suffix| <= |s| && s[|s| - |suffix|..] == suffix
  }

  predicate IsSensitive(t: Texts, key: string) {
    var last := AfterDot(t.lower(key));
    exists s <- SENSITIVE :: last == s || EndsWith(last, "_" + s)
  }

  function Sanitize(t: Texts, message: string): string {
    Normalize(t.redact(message), MAX_MESSAGE)
  }

  function FormatValue(t: Texts, key: string, text: string): string {
    if IsSensitive(t, key) then "***" else Sanitize(t, text)
  }

  /** One attribute that is not a group. */
  function Put(t: Texts, st: Collected, key: string, text: string): Collected {
    var v := FormatValue(t, key, text);
    if key == "trace_id" then st.(context := st.context.(trace := v))
    else if key == "request_id" then st.(context := st.context.(request := v))
    else if key == "task_id" then st.(context := st.context.(task := v))
    else if key == "run_id" then st.(context := st.context.(run := v))
    else if key == "step_id" then st.(context := st.context.(step := v))
    else st.(extras := st.extras + [Normalize(key, MAX_CONTEXT) + "=" + v])
  }

  function GroupPrefix(key: string): string {
    if key == "" then "" else key + "."
  }

  function Collect(t: Texts, attrs: seq<Attr>, prefix: string, st: Collected): Collected
    decreases attrs
  {
    if attrs == [] then st
    else
      var key := prefix + attrs[0].key;
      var next := match attrs[0].value
        case Plain(text) => Put(t, st, key, text)
        case Group(inner) => Collect(t, inner, GroupPrefix(key), st);
      Collect(t, attrs[1..], prefix, next)
  }

  const EMPTY := Collected(Context("", "", "", "", ""), [])

  /** What collectAttrs writes through its pointers. */
  class Collector {
    var st: Collected

    constructor ()
      ensures st == EMPTY
    {
      st := EMPTY;
    }

    method CollectAttrs(t: Texts, attrs: seq<Attr>, prefix: string)
      modifies this
      ensures st == Collect(t, attrs, prefix, old(st))
      decreases attrs
    {
      for i := 0 to |attrs|
        invariant Collect(t, attrs[i..], prefix, st) == Collect(t, attrs, prefix, old(st))
      {
        var key := prefix + attrs[i].key;
        assert attrs[i..][0] == attrs[i] && attrs[i..][1..] == attrs[i + 1..];
        match attrs[i].value {
          case Plain(text) => st := Put(t, st, key, text);
          case Group(inner) => CollectAttrs(t, inner, GroupPrefix(key));
        }
      }
    }
  }

  predicate TidyContext(c: Context) {
    Tidy(c.trace) && Tidy(c.request) && Tidy(c.task) && Tidy(c.run) && Tidy(c.step)
  }

  predicate TidyAll(parts: seq<string>) {
    forall i :: 0 <= i < |parts| ==> Tidy(parts[i])
  }

  predicate TidyState(st: Collected) {
    TidyContext(st.context) && TidyAll(st.extras)
  }

  lemma PutIsTidy(t: Texts, st: Collected, key: string, text: string)
    requires TidyState(st)
    ensures TidyState(Put(t, st, key, text))
  {
    NormalizeIsTidy(t.redact(text), MAX_MESSAGE);
    NormalizeIsTidy(key, MAX_CONTEXT);
    assert Tidy("***") && Tidy("=");
    hide Normalize, Tidy, IsSensitive;
    var v := FormatValue(t, key, text);
    TidyConcat(Normalize(key, MAX_CONTEXT), "=");
    TidyConcat(Normalize(key, MAX_CONTEXT) + "=", v);
  }

  /** Whatever the attributes, however grouped, nothing collected holds a bar. */
  lemma {:induction false} CollectIsTidy(t: Texts, attrs: seq<Attr>, prefix: string, st: Collected)
    requires TidyState(st)
    ensures TidyState(Collect(t, attrs, prefix, st))
    decreases attrs
  {
    hide TidyState, Put;
    if attrs != [] {
      var key := prefix + attrs[0].key;
      match attrs[0].value {
        case Plain(text) =>
          PutIsTidy(t, st, key, text);
          CollectIsTidy(t, attrs[1..], prefix, Put(t, st, key, text));
        case Group(inner) =>
          CollectIsTidy(t, inner, GroupPrefix(key), st);
          CollectIsTidy(t, attrs[1..], prefix, Collect(t, inner, GroupPrefix(key), st));
      }
    }
  }

  // ----- the line

  datatype Time = Time(year: nat, month: nat, day: nat, hour: nat, minute: nat, second: nat, nanosecond: nat)

  datatype Record = Record(time: Time, level: int, service: string, caller: string, handlerAttrs: seq<Attr>,
                           attrs: seq<Attr>, message: string)

  function Padded(n: nat, width: nat): string {
    var digits := Print(n);
    Zeros(if |digits| < width then width - |digits| else 0) + digits
  }

  function Zeros(k: nat): string {
    if k == 0 then [] else ['0'] + Zeros(k - 1)
  }

  function FormatTime(t: Time): string {
    Padded(t.year, 4) + "-" + Padded(t.month, 2) + "-" + Padded(t.day, 2) + " " + Padded(t.hour, 2) + ":"
    + Padded(t.minute, 2) + ":" + Padded(t.second, 2) + "." + Padded(t.nanosecond / 1_000_000, 3)
  }

  /** The level column, five wide; a level without a name is shown as INFO. */
  function LevelColumn(level: int): string {
    if level == -4 then "DEBUG" else if level == 4 then "WARN " else if level == 8 then "ERROR" else "INFO "
  }

  function OrDash(s: string): string {
    if s == "" then "-" else Normalize(s, MAX_CONTEXT)
  }

  function FormatContext(c: Context): string {
    "trace=" + OrDash(c.trace) + " request=" + OrDash(c.request) + " task=" + OrDash(c.task)
    + " run=" + OrDash(c.run) + " step=" + OrDash(c.step)
  }

  function Gathered(t: Texts, r: Record): Collected {
    Collect(t, r.attrs, "", Collect(t, r.handlerAttrs, "", EMPTY))
  }

  function MessageColumn(t: Texts, r: Record): string {
    var extras := Gathered(t, r).extras;
    Sanitize(t, r.message) + if extras == [] then "" else " " + Join(" ", extras)
  }

  /** The seven columns of a record. */
  function Columns(t: Texts, r: Record): seq<string> {
    [FormatTime(r.time), LevelColumn(r.level), r.service, "-", r.caller, FormatContext(Gathered(t, r).context),
     MessageColumn(t, r)]
  }

  const BAR := " | "

  method Handle(t: Texts, r: Record) returns (line: string)
    ensures line == Join(BAR, Columns(t, r))
  {
    var ts := FormatTime(r.time);
    var collector := new Collector();
    collector.CollectAttrs(t, r.handlerAttrs, "");
    assert r.attrs[0..] == r.attrs;
    for i := 0 to |r.attrs|
      invariant Collect(t, r.attrs[i..], "", collector.st) == Gathered(t, r)
    {
      assert r.attrs[i..][0] == r.attrs[i] && r.attrs[i..][1..] == r.attrs[i + 1..];
      CollectOne(t, r.attrs[i..], collector.st);
      collector.CollectAttrs(t, [r.attrs[i]], "");
    }
    assert collector.st == Gathered(t, r);
    var context := FormatContext(collector.st.context);
    var message := Sanitize(t, r.message);
    if collector.st.extras != [] {
      message := message + (" " + Join(" ", collector.st.extras));
    } else {
      assert message + "" == message;
    }
    assert message == MessageColumn(t, r);
    line := Join(BAR, [ts, LevelColumn(r.level), r.service, "-", r.caller, context, message]);
  }

  lemma CollectOne(t: Texts, attrs: seq<Attr>, st: Collected)
    requires attrs != []
    ensures Collect(t, attrs, "", st) == Collect(t, attrs[1..], "", Collect(t, [attrs[0]], "", st))
  {
    assert [attrs[0]][1..] == [];
  }

  // ----- splitting it again

  predicate BarAt(s: string, i: nat) {
    i + 3 <= |s| && s[i] == ' ' && s[i + 1] == '|' && s[i + 2] == ' '
  }

  /** The index of the first " | ", or the length. */
  function FindBar(s: string): (n: nat)
    ensures n <= |s| && (n < |s| ==> BarAt(s, n))
  {
    if s == [] || BarAt(s, 0) then 0 else 1 + FindBar(s[1..])
  }

  /** line.split(" | ", n) */
  function Split(s: string, n: nat): seq<string>
    decreases n
  {
    var i := FindBar(s);
    if n == 0 || i == |s| then [s] else [s[..i]] + Split(s[i + 3..], n - 1)
  }

  predicate BarFree(s: string) {
    '|' !in s
  }

  /** A column that is found whole before a separator: it holds none and does not end in the start of one. */
  predicate Clean(c: string) {
    FindBar(c + BAR) == |c|
  }

  lemma {:induction false} BarFreeIsClean(c: string)
    requires BarFree(c)
    ensures Clean(c)
  {
    if c != [] {
      assert (c + BAR)[1..] == c[1..] + BAR;
      assert |c| >= 2 ==> (c + BAR)[1] == c[1];
      assert |c| == 1 ==> (c + BAR)[1] == ' ';
      BarFreeIsClean(c[1..]);
    }
  }

  /** No separator starts inside the column. */
  lemma {:induction false} CleanIs(c: string)
    ensures Clean(c) <==> forall i: nat :: i < |c| ==> !BarAt(c + BAR, i)
  {
    if c != [] {
      var s := c + BAR;
      assert s[1..] == c[1..] + BAR;
      assert forall i: nat :: BarAt(s[1..], i) == BarAt(s, i + 1);
      CleanIs(c[1..]);
      assert forall i: nat :: 0 < i < |c| ==> BarAt(s, i) == BarAt(s[1..], i - 1);
    }
  }

  /** The first separator of column, separator, rest. */
  lemma {:induction false} FindAfter(c: string, rest: string)
    ensures FindBar(c + (BAR + rest)) == FindBar(c + BAR) <= |c|
  {
    if c == [] {
      assert BarAt(c + (BAR + rest), 0) && BarAt(c + BAR, 0);
    } else {
      assert (c + (BAR + rest))[1..] == c[1..] + (BAR + rest) && (c + BAR)[1..] == c[1..] + BAR;
      assert BarAt(c + (BAR + rest), 0) == BarAt(c + BAR, 0);
      FindAfter(c[1..], rest);
    }
  }

  lemma SplitFirst(c: string, rest: string, n: nat)
    requires n > 0
    ensures var parts := Split(c + (BAR + rest), n);
      if Clean(c) then parts == [c] + Split(rest, n - 1) else parts[0] != c
  {
    var s := c + (BAR + rest);
    FindAfter(c, rest);
    var i := FindBar(s);
    assert s[..i] == c[..i];
    if i == |c| {
      assert s[i + 3..] == rest;
    }
  }

  lemma JoinStep(columns: seq<string>)
    requires |columns| > 1
    ensures Join(BAR, columns) == columns[0] + (BAR + Join(BAR, columns[1..]))
  {
  }

  predicate AllClean(columns: seq<string>) {
    forall i :: 0 <= i < |columns| - 1 ==> Clean(columns[i])
  }

  lemma AllCleanCons(columns: seq<string>)
    requires |columns| > 1
    ensures AllClean(columns) <==> Clean(columns[0]) && AllClean(columns[1..])
  {
    hide Clean;
    var rest := columns[1..];
    if Clean(columns[0]) && AllClean(rest) {
      forall i | 0 <= i < |columns| - 1 ensures Clean(columns[i]) {
        assert i > 0 ==> columns[i] == rest[i - 1];
      }
    }
    if AllClean(columns) {
      forall i | 0 <= i < |rest| - 1 ensures Clean(rest[i]) {
        assert rest[i] == columns[i + 1];
      }
    }
  }

  /** Splitting joined columns returns them exactly when all but the last are clean. */
  lemma {:induction false} SplitJoined(columns: seq<string>)
    requires columns != []
    ensures Split(Join(BAR, columns), |columns| - 1) == columns <==> AllClean(columns)
  {
    if |columns| > 1 {
      JoinStep(columns);
      SplitFirst(columns[0], Join(BAR, columns[1..]), |columns| - 1);
      SplitJoined(columns[1..]);
      AllCleanCons(columns);
      hide Clean, FindBar, Split, Join, AllClean;
      assert columns == [columns[0]] + columns[1..];
      assert ([columns[0]] + Split(Join(BAR, columns[1..]), |columns| - 2))[1..]
          == Split(Join(BAR, columns[1..]), |columns| - 2);
    }
  }

  lemma {:induction false} JoinIsTidy(parts: seq<string>)
    requires TidyAll(parts)
    ensures Tidy(Join(" ", parts))
  {
    if |parts| > 1 {
      JoinIsTidy(parts[1..]);
    }
  }

  lemma GatheredIsTidy(t: Texts, r: Record)
    ensures TidyState(Gathered(t, r))
  {
    assert TidyState(EMPTY);
    hide TidyState, Collect;
    CollectIsTidy(t, r.handlerAttrs, "", EMPTY);
    CollectIsTidy(t, r.attrs, "", Collect(t, r.handlerAttrs, "", EMPTY));
  }

  /** Attributes and message cannot forge a column: both columns made from them are free of bars. */
  lemma ContextAndMessageAreTidy(t: Texts, r: Record)
    ensures Tidy(FormatContext(Gathered(t, r).context)) && Tidy(MessageColumn(t, r))
  {
    hide Normalize, Gathered, FormatContext, Tidy;
    GatheredIsTidy(t, r);
    NormalizeIsTidy(t.redact(r.message), MAX_MESSAGE);
    JoinIsTidy(Gathered(t, r).extras);
    ContextIsTidy(Gathered(t, r).context);
    BlankIsTidy();
    TidyConcat(" ", Join(" ", Gathered(t, r).extras));
    TidyConcat(Sanitize(t, r.message), " " + Join(" ", Gathered(t, r).extras));
    TidyConcat(Sanitize(t, r.message), "");
  }

  lemma BlankIsTidy()
    ensures Tidy(" ") && Tidy("")
  {
  }

  lemma OrDashIsTidy(s: string)
    ensures Tidy(OrDash(s))
  {
    NormalizeIsTidy(s, MAX_CONTEXT);
  }

  lemma ContextIsTidy(c: Context)
    ensures Tidy(FormatContext(c))
  {
    hide OrDash;
    OrDashIsTidy(c.trace);
    OrDashIsTidy(c.request);
    OrDashIsTidy(c.task);
    OrDashIsTidy(c.run);
    OrDashIsTidy(c.step);
  }

  lemma TidyIsBarFree(s: string)
    requires Tidy(s)
    ensures BarFree(s)
  {
  }

  lemma {:induction false} ZerosAreDigits(k: nat)
    ensures AllDigits(Zeros(k))
  {
    if k > 0 {
      ZerosAreDigits(k - 1);
    }
  }

  lemma PaddedIsDigits(n: nat, width: nat)
    ensures AllDigits(Padded(n, width))
  {
    PrintIsDigits(n);
    ZerosAreDigits(if |Print(n)| < width then width - |Print(n)| else 0);
  }

  /** Digits, dashes, blanks, colons and points. */
  predicate Stamp(s: string) {
    forall i :: 0 <= i < |s| ==> IsDigit(s[i]) || s[i] == '-' || s[i] == ' ' || s[i] == ':' || s[i] == '.'
  }

  lemma TimeIsStamp(t: Time)
    ensures Stamp(FormatTime(t))
  {
    hide Padded, Print;
    PaddedIsDigits(t.year, 4);
    PaddedIsDigits(t.month, 2);
    PaddedIsDigits(t.day, 2);
    PaddedIsDigits(t.hour, 2);
    PaddedIsDigits(t.minute, 2);
    PaddedIsDigits(t.second, 2);
    PaddedIsDigits(t.nanosecond / 1_000_000, 3);
    StampConcat(Padded(t.year, 4) + "-" + Padded(t.month, 2) + "-" + Padded(t.day, 2) + " " + Padded(t.hour, 2) + ":",
                Padded(t.minute, 2) + ":" + Padded(t.second, 2) + "." + Padded(t.nanosecond / 1_000_000, 3));
  }

  lemma StampConcat(a: string, b: string)
    requires Stamp(a) && Stamp(b)
    ensures Stamp(a + b)
  {
  }

  lemma FixedColumnsAreBarFree(t: Texts, r: Record)
    ensures var c := Columns(t, r);
      BarFree(c[0]) && BarFree(c[1]) && BarFree(c[3]) && BarFree(c[5]) && BarFree(c[6])
  {
    hide FormatTime, FormatContext, MessageColumn, Gathered;
    TimeIsStamp(r.time);
    ContextAndMessageAreTidy(t, r);
    TidyIsBarFree(FormatContext(Gathered(t, r).context));
    TidyIsBarFree(MessageColumn(t, r));
  }

  /** For every message and every attribute list, splitting the line at " | " at most six times returns exactly the
      seven columns written, if and only if neither the service nor the caller holds or begins a separator. */
  lemma LineRoundTrip(t: Texts, r: Record)
    ensures Split(Join(BAR, Columns(t, r)), 6) == Columns(t, r) <==> Clean(r.service) && Clean(r.caller)
    ensures BarFree(r.service) && BarFree(r.caller) ==> Split(Join(BAR, Columns(t, r)), 6) == Columns(t, r)
  {
    var c := Columns(t, r);
    FixedColumnsAreBarFree(t, r);
    SplitJoined(c);
    BarFreeIsClean(c[0]);
    BarFreeIsClean(c[1]);
    BarFreeIsClean(c[3]);
    BarFreeIsClean(c[5]);
    if BarFree(r.service) && BarFree(r.caller) {
      BarFreeIsClean(r.service);
      BarFreeIsClean(r.caller);
    }
    hide FormatTime, FormatContext, MessageColumn, Gathered, Clean, Split, Join, LevelColumn;
    SixClean(c);
  }

  lemma SixClean(c: seq<string>)
    requires |c| == 7
    ensures AllClean(c)
            <==> Clean(c[0]) && Clean(c[1]) && Clean(c[2]) && Clean(c[3]) && Clean(c[4]) && Clean(c[5])
  {
    hide Clean;
    if Clean(c[0]) && Clean(c[1]) && Clean(c[2]) && Clean(c[3]) && Clean(c[4]) && Clean(c[5]) {
      forall i | 0 <= i < |c| - 1 ensures Clean(c[i]) {
        assert i == 0 || i == 1 || i == 2 || i == 3 || i == 4 || i == 5;
      }
    }
  }
}
