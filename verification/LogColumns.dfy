/** What the columns of a log line say, and what they never say
    (apps/gateway/internal/observability/logger.go:27-160, 286-385). */
module LogColumns {
  import opened Wrappers
  import opened Decimal
  import opened LogLine
  import opened LogSummary

  // ----- secrets

  const SECRETS: set<string> := {
    "key", "api_key", "apikey", "token", "secret", "password", "cookie", "credential", "passwd", "pwd",
    "access_key", "secret_key", "private_key", "api_secret"
  }

  /** The part of `s` from `i` on is its last dotted part. */
  predicate LastPart(s: string, i: nat) {
    i <= |s| && (i == 0 || s[i - 1] == '.') && forall j :: i <= j < |s| ==> s[j] != '.'
  }

  predicate NamesSecret(s: string) {
    s in SECRETS || exists w <- SECRETS :: |w| < |s| && s[|s| - |w| - 1] == '_' && s[|s| - |w|..] == w
  }

  /** The last part of the lower-case key is the name of a secret or ends in one behind an underscore. */
  predicate Secret(t: Texts, key: string) {
    exists i :: 0 <= i <= |t.lower(key)| && LastPart(t.lower(key), i) && NamesSecret(t.lower(key)[i..])
  }

  lemma {:induction false} AfterDotIs(s: string)
    ensures |AfterDot(s)| <= |s| && LastPart(s, |s| - |AfterDot(s)|) && AfterDot(s) == s[|s| - |AfterDot(s)|..]
  {
    if s != [] && s[|s| - 1] != '.' {
      AfterDotIs(s[..|s| - 1]);
    }
  }

  lemma OneLastPart(s: string, i: nat, j: nat)
    requires LastPart(s, i) && LastPart(s, j)
    ensures i == j
  {
  }

  lemma EndsBehindUnderscore(s: string, w: string)
    ensures EndsWith(s, "_" + w) <==> |w| < |s| && s[|s| - |w| - 1] == '_' && s[|s| - |w|..] == w
  {
    if |w| < |s| {
      var tail := s[|s| - |w| - 1..];
      assert tail == [tail[0]] + s[|s| - |w|..];
      assert "_" + w == ['_'] + w;
    }
  }

  lemma SameNames()
    ensures SENSITIVE == SECRETS
  {
  }

  lemma NamesAre(last: string)
    ensures NamesSecret(last) <==> exists w <- SENSITIVE :: last == w || EndsWith(last, "_" + w)
  {
    SameNames();
    hide SENSITIVE, SECRETS;
    forall w ensures EndsWith(last, "_" + w)
                     <==> |w| < |last| && last[|last| - |w| - 1] == '_' && last[|last| - |w|..] == w {
      EndsBehindUnderscore(last, w);
    }
    hide EndsWith;
    if w :| w in SENSITIVE && (last == w || EndsWith(last, "_" + w)) {
      assert w in SECRETS;
    }
    if w :| w in SECRETS && |w| < |last| && last[|last| - |w| - 1] == '_' && last[|last| - |w|..] == w {
      assert w in SENSITIVE && EndsWith(last, "_" + w);
    }
  }

  lemma SecretByLastPart(t: Texts, key: string, i: nat)
    requires LastPart(t.lower(key), i)
    ensures Secret(t, key) <==> NamesSecret(t.lower(key)[i..])
  {
    assert i <= |t.lower(key)|;
    hide NamesSecret, LastPart;
    forall j | LastPart(t.lower(key), j) ensures j == i {
      OneLastPart(t.lower(key), i, j);
    }
  }

  lemma SensitiveMeansSecret(t: Texts, key: string)
    ensures IsSensitive(t, key) <==> Secret(t, key)
  {
    var s := t.lower(key);
    hide NamesSecret, LastPart, Secret, EndsWith, SENSITIVE;
    AfterDotIs(s);
    SecretByLastPart(t, key, |s| - |AfterDot(s)|);
    hide AfterDot;
    NamesAre(AfterDot(s));
  }

  /** Two attribute lists that differ at most in the texts of secrets. */
  predicate SameButSecrets(t: Texts, a: seq<Attr>, b: seq<Attr>, prefix: string)
    decreases a
  {
    && |a| == |b|
    && (a != [] ==>
        && a[0].key == b[0].key
        && (match a[0].value
            case Plain(text) => b[0].value.Plain? && (b[0].value.text == text || Secret(t, prefix + a[0].key))
            case Group(inner) =>
              b[0].value.Group? && SameButSecrets(t, inner, b[0].value.attrs, GroupPrefix(prefix + a[0].key)))
        && SameButSecrets(t, a[1..], b[1..], prefix))
  }

  /** No text of a secret has any influence on what is collected, in whatever group it stands. */
  lemma {:induction false} SecretsDoNotShow(t: Texts, a: seq<Attr>, b: seq<Attr>, prefix: string, st: Collected)
    requires SameButSecrets(t, a, b, prefix)
    ensures Collect(t, a, prefix, st) == Collect(t, b, prefix, st)
    decreases a
  {
    if a != [] {
      var key := prefix + a[0].key;
      hide Secret, IsSensitive, Sanitize;
      match a[0].value {
        case Plain(text) =>
          SensitiveMeansSecret(t, key);
          SecretsDoNotShow(t, a[1..], b[1..], prefix, Put(t, st, key, text));
        case Group(inner) =>
          var grouped := Collect(t, inner, GroupPrefix(key), st);
          SecretsDoNotShow(t, inner, b[0].value.attrs, GroupPrefix(key), st);
          SecretsDoNotShow(t, a[1..], b[1..], prefix, grouped);
      }
    }
  }

  /** Two records that differ only in the texts of secrets write the same line. */
  lemma LineHidesSecrets(t: Texts, r: Record, s: Record)
    requires s == r.(handlerAttrs := s.handlerAttrs, attrs := s.attrs)
    requires SameButSecrets(t, r.handlerAttrs, s.handlerAttrs, "") && SameButSecrets(t, r.attrs, s.attrs, "")
    ensures Line(t, s) == Line(t, r)
  {
    hide SameButSecrets, Collect, FormatContext, FormatTime;
    SecretsDoNotShow(t, r.handlerAttrs, s.handlerAttrs, "", EMPTY);
    SecretsDoNotShow(t, r.attrs, s.attrs, "", Collect(t, r.handlerAttrs, "", EMPTY));
  }

  /** Where a secret's text would stand there are three stars. */
  lemma SecretIsMasked(t: Texts, r: Record, key: string, text: string)
    requires Passes(t, r.message) && Word(key) && ByteLength(key) <= 128 && Secret(t, key)
    requires key !in {"trace_id", "request_id", "task_id", "run_id", "step_id"}
    requires r.handlerAttrs == [] && r.attrs == [Attr(key, Plain(text))]
    ensures Columns(t, r)[6] == r.message + " " + (key + "=***")
  {
    SensitiveMeansSecret(t, key);
    PassingTextIsKept(t, r.message);
    MaskIsGathered(t, r, key, text);
    hide Passes, Secret, IsSensitive, Word, ByteLength, Gathered, Columns;
    MessageWithExtra(t, r, key + "=***");
  }

  lemma MaskIsGathered(t: Texts, r: Record, key: string, text: string)
    requires Word(key) && ByteLength(key) <= 128 && IsSensitive(t, key)
    requires key !in {"trace_id", "request_id", "task_id", "run_id", "step_id"}
    requires r.handlerAttrs == [] && r.attrs == [Attr(key, Plain(text))]
    ensures Gathered(t, r).extras == [key + "=***"]
  {
    NormalizeKeepsWords(key, 128);
    hide Normalize, IsSensitive, Collect, Word, ByteLength;
    CollectStep(t, r.attrs, EMPTY, text);
    NothingCollected(t, EMPTY);
    NothingCollected(t, Put(t, EMPTY, key, text));
    assert key + "=" + "***" == key + "=***" && [] + [key + "=***"] == [key + "=***"];
  }

  // ----- the context column

  /** A text that passes through the logger unchanged. */
  predicate Passes(t: Texts, s: string) {
    Word(s) && ByteLength(s) <= 128 && t.redact(s) == s
  }

  lemma PassingTextIsKept(t: Texts, s: string)
    requires Passes(t, s)
    ensures Sanitize(t, s) == s && OrDash(s) == s
  {
    NormalizeKeepsWords(s, MAX_MESSAGE);
    NormalizeKeepsWords(s, MAX_CONTEXT);
    hide Normalize;
  }

  lemma PutPassing(t: Texts, st: Collected, key: string, text: string)
    requires Passes(t, text) && !Secret(t, key)
    ensures var n := Put(t, st, key, text);
      n == (if key == "trace_id" then st.(context := st.context.(trace := text))
            else if key == "request_id" then st.(context := st.context.(request := text))
            else if key == "task_id" then st.(context := st.context.(task := text))
            else if key == "run_id" then st.(context := st.context.(run := text))
            else if key == "step_id" then st.(context := st.context.(step := text))
            else st.(extras := st.extras + [Normalize(key, 128) + "=" + text]))
  {
    SensitiveMeansSecret(t, key);
    PassingTextIsKept(t, text);
    hide Normalize, Passes, Secret, IsSensitive, Sanitize;
  }

  function Ids(trace: string, request: string, task: string, run: string, step: string): seq<Attr> {
    [Attr("trace_id", Plain(trace)), Attr("request_id", Plain(request)), Attr("task_id", Plain(task)),
     Attr("run_id", Plain(run)), Attr("step_id", Plain(step))]
  }

  predicate NoIdIsSecret(t: Texts) {
    && !Secret(t, "trace_id") && !Secret(t, "request_id") && !Secret(t, "task_id")
    && !Secret(t, "run_id") && !Secret(t, "step_id")
  }

  lemma CollectStep(t: Texts, attrs: seq<Attr>, st: Collected, text: string)
    requires attrs != [] && attrs[0].value == Plain(text)
    ensures Collect(t, attrs, "", st) == Collect(t, attrs[1..], "", Put(t, st, attrs[0].key, text))
  {
    assert "" + attrs[0].key == attrs[0].key;
    hide Put;
  }

  lemma NothingCollected(t: Texts, st: Collected)
    ensures Collect(t, [], "", st) == st
  {
  }

  /** The five ids of a record stand in the context column, each behind its name, whatever the handler carried. */
  lemma IdsAreShown(t: Texts, r: Record, trace: string, request: string, task: string, run: string, step: string)
    requires r.attrs == Ids(trace, request, task, run, step) && NoIdIsSecret(t)
    requires Passes(t, trace) && Passes(t, request) && Passes(t, task) && Passes(t, run) && Passes(t, step)
    ensures Columns(t, r)[5]
            == "trace=" + trace + " request=" + request + " task=" + task + " run=" + run + " step=" + step
  {
    var a := Ids(trace, request, task, run, step);
    var st := Collect(t, r.handlerAttrs, "", EMPTY);
    IdsAreCollected(t, st, trace, request, task, run, step);
    PassingTextIsKept(t, trace);
    PassingTextIsKept(t, request);
    PassingTextIsKept(t, task);
    PassingTextIsKept(t, run);
    PassingTextIsKept(t, step);
    hide Passes, Sanitize, OrDash, Collect, Secret, Ids, FormatTime, MessageColumn;
  }

  lemma IdsAreCollected(t: Texts, st: Collected, trace: string, request: string, task: string, run: string, step: string)
    requires NoIdIsSecret(t)
    requires Passes(t, trace) && Passes(t, request) && Passes(t, task) && Passes(t, run) && Passes(t, step)
    ensures Collect(t, Ids(trace, request, task, run, step), "", st)
            == Collected(Context(trace, request, task, run, step), st.extras)
  {
    var a := Ids(trace, request, task, run, step);
    PutPassing(t, st, "trace_id", trace);
    var st1 := Put(t, st, "trace_id", trace);
    PutPassing(t, st1, "request_id", request);
    var st2 := Put(t, st1, "request_id", request);
    PutPassing(t, st2, "task_id", task);
    var st3 := Put(t, st2, "task_id", task);
    PutPassing(t, st3, "run_id", run);
    var st4 := Put(t, st3, "run_id", run);
    PutPassing(t, st4, "step_id", step);
    var st5 := Put(t, st4, "step_id", step);
    hide Put, Passes, Secret, Collect;
    CollectStep(t, a, st, trace);
    CollectStep(t, a[1..], st1, request);
    CollectStep(t, a[2..], st2, task);
    CollectStep(t, a[3..], st3, run);
    CollectStep(t, a[4..], st4, step);
    assert a[1..][1..] == a[2..] && a[2..][1..] == a[3..] && a[3..][1..] == a[4..] && a[4..][1..] == [];
    NothingCollected(t, st5);
  }

  /** A record without ids shows a dash for each. */
  lemma NoIdsShowDashes(t: Texts, r: Record)
    requires r.attrs == [] && r.handlerAttrs == []
    ensures Columns(t, r)[5] == "trace=" + "-" + " request=" + "-" + " task=" + "-" + " run=" + "-" + " step=" + "-"
  {
    hide Normalize, FormatTime, MessageColumn;
  }

  // ----- the message column

  lemma ExtraIsGathered(t: Texts, r: Record, key: string, text: string)
    requires Passes(t, text) && Word(key) && ByteLength(key) <= 128 && !Secret(t, key)
    requires key !in {"trace_id", "request_id", "task_id", "run_id", "step_id"}
    requires r.handlerAttrs == [] && r.attrs == [Attr(key, Plain(text))]
    ensures Gathered(t, r).extras == [key + "=" + text]
  {
    NormalizeKeepsWords(key, 128);
    PutPassing(t, EMPTY, key, text);
    hide Passes, Normalize, Put, Collect, Secret, Word, ByteLength;
    CollectStep(t, r.attrs, EMPTY, text);
    NothingCollected(t, EMPTY);
    NothingCollected(t, Put(t, EMPTY, key, text));
    assert [] + [key + "=" + text] == [key + "=" + text];
  }

  lemma MessageWithExtra(t: Texts, r: Record, extra: string)
    requires Gathered(t, r).extras == [extra] && Sanitize(t, r.message) == r.message
    ensures Columns(t, r)[6] == r.message + " " + extra
  {
    JoinOne(extra);
    hide Gathered, Sanitize, FormatTime, FormatContext, LevelColumn, Join;
    assert MessageColumn(t, r) == r.message + (" " + extra);
  }

  /** Each part behind a blank. */
  function Spaced(parts: seq<string>): string {
    if parts == [] then "" else Spaced(parts[..|parts| - 1]) + " " + parts[|parts| - 1]
  }

  lemma {:induction false} SpacedIsJoined(parts: seq<string>)
    requires parts != []
    ensures Spaced(parts) == " " + Join(" ", parts)
  {
    if |parts| == 1 {
      assert parts[..0] == [] && "" + " " + parts[0] == " " + parts[0];
    } else {
      var front, last := parts[..|parts| - 1], parts[|parts| - 1];
      SpacedIsJoined(front);
      JoinLast(front, last);
      assert front + [last] == parts;
    }
  }

  lemma {:induction false} JoinLast(front: seq<string>, last: string)
    requires front != []
    ensures Join(" ", front + [last]) == Join(" ", front) + " " + last
  {
    if |front| > 1 {
      JoinLast(front[1..], last);
      assert (front + [last])[1..] == front[1..] + [last];
    } else {
      assert (front + [last])[1..] == [last];
    }
  }

  /** All other attributes follow the message, each behind a blank, in the order they were collected; service and caller
      have columns of their own, and a dash stands for the thread. */
  lemma MessageThenExtras(t: Texts, r: Record)
    ensures |Columns(t, r)| == 7
    ensures Columns(t, r)[2] == r.service && Columns(t, r)[3] == "-" && Columns(t, r)[4] == r.caller
    ensures Columns(t, r)[0] == FormatTime(r.time) && Columns(t, r)[1] == LevelColumn(r.level)
    ensures Columns(t, r)[6] == Sanitize(t, r.message) + Spaced(Gathered(t, r).extras)
  {
    var extras := Gathered(t, r).extras;
    if extras != [] {
      SpacedIsJoined(extras);
    }
    hide Gathered, Sanitize, FormatTime, FormatContext, LevelColumn, Join;
  }

  /** Any other attribute follows the message as key and value. */
  lemma OtherAttributesFollowTheMessage(t: Texts, r: Record, key: string, text: string)
    requires Passes(t, r.message) && Passes(t, text) && Word(key) && ByteLength(key) <= 128 && !Secret(t, key)
    requires key !in {"trace_id", "request_id", "task_id", "run_id", "step_id"}
    requires r.handlerAttrs == [] && r.attrs == [Attr(key, Plain(text))]
    ensures Columns(t, r)[6] == r.message + " " + (key + "=" + text)
  {
    hide Passes, Secret, Word, ByteLength, Gathered, Columns;
    PassingTextIsKept(t, r.message);
    ExtraIsGathered(t, r, key, text);
    MessageWithExtra(t, r, key + "=" + text);
  }

  /** An attribute in a group is collected as if its key were the group's name, a point and its own key. */
  lemma GroupsPrefixKeys(t: Texts, group: string, key: string, text: string, st: Collected)
    requires group != ""
    ensures Collect(t, [Attr(group, Group([Attr(key, Plain(text))]))], "", st)
            == Collect(t, [Attr(group + "." + key, Plain(text))], "", st)
  {
    CollectGroup(t, group, [Attr(key, Plain(text))], st);
    CollectPlain(t, key, text, group + ".", st);
    CollectPlain(t, group + "." + key, text, "", st);
    assert "" + (group + "." + key) == (group + ".") + key;
    hide Put, Collect;
  }

  lemma CollectPlain(t: Texts, key: string, text: string, prefix: string, st: Collected)
    ensures Collect(t, [Attr(key, Plain(text))], prefix, st) == Put(t, st, prefix + key, text)
  {
    hide Put;
    var attrs := [Attr(key, Plain(text))];
    assert attrs[1..] == [];
  }

  lemma CollectGroup(t: Texts, group: string, inner: seq<Attr>, st: Collected)
    ensures Collect(t, [Attr(group, Group(inner))], "", st) == Collect(t, inner, GroupPrefix(group), st)
  {
    var attrs := [Attr(group, Group(inner))];
    assert attrs[1..] == [] && "" + group == group;
    NothingCollected(t, Collect(t, inner, GroupPrefix(group), st));
  }

  lemma JoinOne(part: string)
    ensures Join(" ", [part]) == part
  {
  }

  // ----- time and level

  lemma PaddedReads(n: nat, width: nat)
    requires |Print(n)| <= width
    ensures |Padded(n, width)| == width && Unsigned(Padded(n, width)) == Some(n)
  {
    ZerosRead(n, width - |Print(n)|);
  }

  lemma {:induction false} ZerosRead(n: nat, k: nat)
    ensures |Zeros(k)| == k && Unsigned(Zeros(k) + Print(n)) == Some(n)
  {
    if k == 0 {
      assert Zeros(0) + Print(n) == Print(n);
      UnsignedPrint(n);
    } else {
      ZerosRead(n, k - 1);
      PrintIsDigits(n);
      ZerosAreDigits(k - 1);
      assert Zeros(k) + Print(n) == ['0'] + (Zeros(k - 1) + Print(n));
      LeadingZero(Zeros(k - 1) + Print(n));
    }
  }

  lemma {:induction false} LeadingZero(s: string)
    requires s != [] && AllDigits(s)
    ensures Unsigned(['0'] + s) == Unsigned(s)
  {
    var z := ['0'] + s;
    if |s| == 1 {
      assert z[..1] == ['0'];
    } else {
      assert z[..|z| - 1] == ['0'] + s[..|s| - 1];
      LeadingZero(s[..|s| - 1]);
    }
  }

  /** The time column is twenty-three characters from which every part of the time reads back, down to the
      millisecond. */
  lemma TimeReads(t: Time)
    requires t.year < 10000 && t.month < 100 && t.day < 100 && t.hour < 100 && t.minute < 100 && t.second < 100
    requires t.nanosecond < 1_000_000_000
    ensures var s := FormatTime(t);
      && |s| == 23 && s[4] == s[7] == '-' && s[10] == ' ' && s[13] == s[16] == ':' && s[19] == '.'
      && Unsigned(s[0..4]) == Some(t.year) && Unsigned(s[5..7]) == Some(t.month) && Unsigned(s[8..10]) == Some(t.day)
      && Unsigned(s[11..13]) == Some(t.hour) && Unsigned(s[14..16]) == Some(t.minute)
      && Unsigned(s[17..19]) == Some(t.second) && Unsigned(s[20..23]) == Some(t.nanosecond / 1_000_000)
  {
    Fits(t.year, 4);
    Fits(t.month, 2);
    Fits(t.day, 2);
    Fits(t.hour, 2);
    Fits(t.minute, 2);
    Fits(t.second, 2);
    Fits(t.nanosecond / 1_000_000, 3);
    var date := Padded(t.year, 4) + "-" + Padded(t.month, 2) + "-" + Padded(t.day, 2);
    var clock := Padded(t.hour, 2) + ":" + Padded(t.minute, 2) + ":" + Padded(t.second, 2);
    hide Padded, Unsigned;
    TimeInParts(t, date, clock);
    hide FormatTime;
    DateParts(Padded(t.year, 4), Padded(t.month, 2), Padded(t.day, 2));
    ClockParts(Padded(t.hour, 2), Padded(t.minute, 2), Padded(t.second, 2));
    WholeParts(date, clock, Padded(t.nanosecond / 1_000_000, 3));
  }

  lemma TimeInParts(t: Time, date: string, clock: string)
    requires date == Padded(t.year, 4) + "-" + Padded(t.month, 2) + "-" + Padded(t.day, 2)
    requires clock == Padded(t.hour, 2) + ":" + Padded(t.minute, 2) + ":" + Padded(t.second, 2)
    ensures FormatTime(t) == date + " " + clock + "." + Padded(t.nanosecond / 1_000_000, 3)
  {
    hide Padded;
    Regroup(date + " ", Padded(t.hour, 2), Padded(t.minute, 2), Padded(t.second, 2));
  }

  lemma Regroup(front: string, hour: string, minute: string, second: string)
    ensures front + hour + ":" + minute + ":" + second == front + (hour + ":" + minute + ":" + second)
  {
  }

  lemma DateParts(year: string, month: string, day: string)
    requires |year| == 4 && |month| == |day| == 2
    ensures var s := year + "-" + month + "-" + day;
      |s| == 10 && s[4] == s[7] == '-' && s[0..4] == year && s[5..7] == month && s[8..10] == day
  {
  }

  lemma ClockParts(hour: string, minute: string, second: string)
    requires |hour| == |minute| == |second| == 2
    ensures var s := hour + ":" + minute + ":" + second;
      |s| == 8 && s[2] == s[5] == ':' && s[0..2] == hour && s[3..5] == minute && s[6..8] == second
  {
  }

  lemma WholeParts(date: string, clock: string, millis: string)
    requires |date| == 10 && |clock| == 8 && |millis| == 3
    ensures var s := date + " " + clock + "." + millis;
      && |s| == 23 && s[10] == ' ' && s[19] == '.' && s[20..23] == millis
      && s[4] == date[4] && s[7] == date[7] && s[13] == clock[2] && s[16] == clock[5]
      && s[0..4] == date[0..4] && s[5..7] == date[5..7] && s[8..10] == date[8..10]
      && s[11..13] == clock[0..2] && s[14..16] == clock[3..5] && s[17..19] == clock[6..8]
  {
  }

  lemma Fits(n: nat, width: nat)
    requires 0 < width <= 4 && n < Power(width)
    ensures |Padded(n, width)| == width && Unsigned(Padded(n, width)) == Some(n)
  {
    PrintLength(n, width);
    PaddedReads(n, width);
  }

  /** A level has a name of five columns, and any level without a name is information. */
  lemma LevelsAreNamed(level: int)
    ensures |LevelColumn(level)| == 5
    ensures LevelColumn(-4) == "DEBUG" && LevelColumn(0) == "INFO " && LevelColumn(4) == "WARN " && LevelColumn(8) == "ERROR"
    ensures level !in {-4, 0, 4, 8} ==> LevelColumn(level) == LevelColumn(0)
    ensures Strip(LevelColumn(level)) == LevelName(level) && LevelName(level) in {"DEBUG", "INFO", "WARN", "ERROR"}
  {
    StripLevel(level);
  }

  // ----- white space and line breaks

  const WHITE: set<char> := {
    '\t', '\n', '\U{B}', '\U{C}', '\r', ' ', '\U{85}', '\U{A0}', '\U{1680}', '\U{2000}', '\U{2001}', '\U{2002}',
    '\U{2003}', '\U{2004}', '\U{2005}', '\U{2006}', '\U{2007}', '\U{2008}', '\U{2009}', '\U{200A}', '\U{2028}',
    '\U{2029}', '\U{202F}', '\U{205F}', '\U{3000}'
  }

  /** Unicode's white space, character by character. */
  lemma WhiteSpaceIs(c: char)
    ensures IsGoSpace(c) <==> c in WHITE
  {
  }

  /** The characters that break a line for the reader of the log but are not white space to its writer are exactly
      U+001C to U+001E; with U+001F they are also all that only the reader strips. */
  lemma SurvivingBreaksAre(c: char)
    ensures IsBreak(c) && !IsGoSpace(c) <==> c in {'\U{1C}', '\U{1D}', '\U{1E}'}
    ensures IsPySpace(c) && !IsGoSpace(c) <==> c in {'\U{1C}', '\U{1D}', '\U{1E}', '\U{1F}'}
    ensures IsGoSpace(c) && IsBreak(c)
            <==> c in {'\n', '\U{B}', '\U{C}', '\r', '\U{85}', '\U{2028}', '\U{2029}'}
  {
  }

  // ----- how a text is flattened and cut

  lemma {:induction false} CutIs(s: string, n: nat) returns (k: nat)
    ensures k <= |s| && ByteLength(s[..k]) <= n && (k < |s| ==> ByteLength(s[..k + 1]) > n)
    ensures CutBytes(s, n) == s[..k] + if k < |s| && ByteLength(s[..k]) < n then ['\U{FFFD}'] else []
  {
    if s == [] || n == 0 {
      k := 0;
      if s != [] {
        assert s[..1][1..] == [];
      }
    } else if Width(s[0]) <= n {
      k := CutIs(s[1..], n - Width(s[0]));
      assert s[..k + 1] == [s[0]] + s[1..][..k];
      if k < |s[1..]| {
        assert s[..k + 2] == [s[0]] + s[1..][..k + 1];
      }
      k := k + 1;
    } else {
      k := 0;
      assert s[..1][1..] == [];
    }
  }

  /** A text whose words fit is those words, one blank apart; a longer one is cut to the whole characters of the first
      `maxLen - 1` bytes and marked with an ellipsis. */
  lemma NormalizeIs(value: string, maxLen: nat) returns (text: string, k: nat)
    requires maxLen > 0
    ensures text == Replace(Join(" ", Fields(Replace(Replace(value, '\n', ' '), '\r', ' '))), '|', '\U{A6}')
    ensures ByteLength(text) <= maxLen ==> Normalize(value, maxLen) == text
    ensures ByteLength(text) > maxLen ==>
      && k <= |text| && ByteLength(text[..k]) <= maxLen - 1 && (k < |text| ==> ByteLength(text[..k + 1]) > maxLen - 1)
      && Normalize(value, maxLen)
         == text[..k] + (if k < |text| && ByteLength(text[..k]) < maxLen - 1 then ['\U{FFFD}'] else []) + ['\U{2026}']
  {
    text := Replace(Join(" ", Fields(Replace(Replace(value, '\n', ' '), '\r', ' '))), '|', '\U{A6}');
    k := CutIs(text, maxLen - 1);
  }

  /** `r` is the whole characters among the first `n` bytes of `s`, with a mark for a broken one, and an ellipsis. */
  ghost predicate Shortened(s: string, n: nat, r: string) {
    exists k :: 0 <= k <= |s| && ShortenedAt(s, n, r, k)
  }

  predicate ShortenedAt(s: string, n: nat, r: string, k: nat)
    requires k <= |s|
  {
    && ByteLength(s[..k]) <= n && (k < |s| ==> ByteLength(s[..k + 1]) > n)
    && r == s[..k] + (if k < |s| && ByteLength(s[..k]) < n then ['\U{FFFD}'] else []) + ['\U{2026}']
  }

  lemma WordShortens(s: string, maxLen: nat)
    requires Word(s) && maxLen > 0
    ensures ByteLength(s) <= maxLen ==> Normalize(s, maxLen) == s
    ensures ByteLength(s) > maxLen ==> Shortened(s, maxLen - 1, Normalize(s, maxLen))
  {
    var text, k := NormalizeIs(s, maxLen);
    WordIsItsText(s, text);
    hide Normalize, Word, Replace, Fields, Join, ByteLength;
    if ByteLength(s) > maxLen {
      assert ShortenedAt(s, maxLen - 1, Normalize(s, maxLen), k);
    }
  }

  lemma WordIsItsText(s: string, text: string)
    requires Word(s) && text == Replace(Join(" ", Fields(Replace(Replace(s, '\n', ' '), '\r', ' '))), '|', '\U{A6}')
    ensures text == s
  {
    ReplaceIs(s, '\n', ' ');
    assert Replace(s, '\n', ' ') == s;
    ReplaceIs(s, '\r', ' ');
    assert Replace(s, '\r', ' ') == s;
    WordIsItself(s);
    ReplaceIs(s, '|', '\U{A6}');
    assert Replace(s, '|', '\U{A6}') == s;
  }

  /** A message is redacted first; of what is left it keeps 4096 bytes, and a longer one is shortened. */
  lemma MessageLimit(t: Texts, s: string, left: string)
    requires t.redact(s) == left && Word(left)
    ensures ByteLength(left) <= 4096 ==> Sanitize(t, s) == left
    ensures ByteLength(left) > 4096 ==> Shortened(left, 4095, Sanitize(t, s))
  {
    hide Word, Normalize, ByteLength, Shortened;
    assert Sanitize(t, s) == Normalize(left, 4096);
    WordShortens(left, 4096);
  }

  /** An id keeps its first 128. */
  lemma IdLimit(s: string)
    requires Word(s)
    ensures ByteLength(s) <= 128 ==> OrDash(s) == s
    ensures ByteLength(s) > 128 ==> Shortened(s, 127, OrDash(s))
  {
    assert s != "";
    hide Word, Normalize, ByteLength, Shortened;
    assert OrDash(s) == Normalize(s, 128);
    WordShortens(s, 128);
  }

  // ----- words

  lemma {:induction false} WordEnds(a: string, c: char, b: string)
    requires IsGoSpace(c)
    ensures WordLength(a + [c] + b) == WordLength(a)
  {
    if a == [] {
      assert a + [c] + b == [c] + b;
    } else {
      assert (a + [c] + b)[1..] == a[1..] + [c] + b;
      WordEnds(a[1..], c, b);
    }
  }

  /** White space separates words and is part of none: with words that are one field each, this is all of splitting. */
  lemma {:induction false} SpaceSeparatesFields(a: string, c: char, b: string)
    requires IsGoSpace(c)
    ensures Fields(a + [c] + b) == Fields(a) + Fields(b)
    decreases |a|
  {
    var s := a + [c] + b;
    if a == [] {
      assert s == [c] + b && s[1..] == b;
    } else if IsGoSpace(a[0]) {
      assert s[1..] == a[1..] + [c] + b;
      SpaceSeparatesFields(a[1..], c, b);
    } else {
      var n := WordLength(a);
      WordEnds(a, c, b);
      assert s[..n] == a[..n] && s[n..] == a[n..] + [c] + b;
      SpaceSeparatesFields(a[n..], c, b);
    }
  }

  lemma WordIsItself(s: string)
    requires s != [] && forall i :: 0 <= i < |s| ==> !IsGoSpace(s[i])
    ensures Fields(s) == [s]
  {
    WordIsOneField(s);
    assert s[..|s|] == s && s[|s|..] == [];
  }

  /** The bytes of a character in UTF-8: one to four, more for larger code points, with these limits. */
  lemma WidthsAre(c: char, d: char)
    ensures c <= d ==> 1 <= Width(c) <= Width(d) <= 4
    ensures Width('\U{7F}') == 1 && Width('\U{80}') == Width('\U{7FF}') == 2
    ensures Width('\U{800}') == Width('\U{FFFF}') == 3 && Width('\U{10000}') == 4
  {
  }
}
