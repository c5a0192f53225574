/** Paging through the dead letters: ListDeadLetters (apps/gateway/internal/redis/diagnostics.go). */
module DeadLetterPaging {
  import opened Wrappers

  /** A dead-letter message as decoded, by its stream id. */
  datatype Record = Record(id: nat, errorCode: string, taskId: string, runId: string)

  datatype Query = Query(limit: int, before: Option<nat>, errorCode: string, taskId: string, runId: string)

  datatype Page = Page(records: seq<Record>, cursor: Option<nat>)

  const SCAN_LIMIT := 500
  const BATCH := 100

  predicate Matches(q: Query, r: Record) {
    && (q.errorCode == "" || r.errorCode == q.errorCode)
    && (q.taskId == "" || r.taskId == q.taskId)
    && (q.runId == "" || r.runId == q.runId)
  }

  function Limit(q: Query): (n: nat)
    ensures 1 <= n <= 50
  {
    var atLeastOne := if q.limit > 1 then q.limit else 1;
    if atLeastOne < 50 then atLeastOne else 50
  }

  /** The stream, newest message first. */
  predicate Newest(stream: seq<Record>) {
    forall i, j :: 0 <= i < j < |stream| ==> stream[i].id > stream[j].id
  }

  /** The messages older than the cursor. */
  function Older(stream: seq<Record>, before: Option<nat>): seq<Record> {
    if before.None? || stream == [] || stream[0].id < before.value then stream else Older(stream[1..], before)
  }

  function RevRange(stream: seq<Record>, before: Option<nat>, count: nat): seq<Record> {
    var older := Older(stream, before);
    if |older| <= count then older else older[..count]
  }

  function Filter(q: Query, s: seq<Record>): seq<Record> {
    if s == [] then []
    else Filter(q, s[..|s| - 1]) + if Matches(q, s[|s| - 1]) then [s[|s| - 1]] else []
  }

  // ----- what a page should be

  /** How many messages of `s` are looked at while `wanted` matches and `budget` looks remain. */
  function Looked(q: Query, s: seq<Record>, wanted: nat, budget: nat): (n: nat)
    ensures n <= |s| && n <= budget
  {
    if s == [] || wanted == 0 || budget == 0 then 0
    else 1 + Looked(q, s[1..], if Matches(q, s[0]) then wanted - 1 else wanted, budget - 1)
  }

  function Stretch(q: Query, s: seq<Record>): nat {
    Looked(q, s, Limit(q), SCAN_LIMIT)
  }

  /** The last message looked at lies in the last, short batch, or there was none. */
  predicate CursorCleared(looked: nat, total: nat) {
    looked == 0 || (looked - 1) / BATCH == total / BATCH
  }

  /** The page made from the messages `s` that the query may look at, newest first. */
  function PageOf(q: Query, s: seq<Record>): Page {
    var n := Stretch(q, s);
    Page(Filter(q, s[..n]), if CursorCleared(n, |s|) then None else Some(s[n - 1].id))
  }

  // ----- the paging loop

  lemma FilterSnoc(q: Query, s: seq<Record>, i: nat)
    requires i < |s|
    ensures Filter(q, s[..i + 1]) == Filter(q, s[..i]) + if Matches(q, s[i]) then [s[i]] else []
  {
    assert s[..i + 1][..i] == s[..i];
  }

  lemma LookedStep(q: Query, s: seq<Record>, i: nat, wanted: nat, budget: nat)
    requires i < |s| && wanted > 0 && budget > 0
    ensures Looked(q, s[i..], wanted, budget)
            == 1 + Looked(q, s[i + 1..], if Matches(q, s[i]) then wanted - 1 else wanted, budget - 1)
  {
    assert s[i..][1..] == s[i + 1..] && s[i..][0] == s[i];
  }

  lemma {:induction false} OlderDrops(stream: seq<Record>, i: nat)
    requires Newest(stream) && i < |stream|
    ensures Older(stream, Some(stream[i].id)) == stream[i + 1..]
  {
    if i > 0 {
      OlderDrops(stream[1..], i - 1);
    } else if |stream| > 1 {
      assert stream[1..][0].id < stream[0].id;
    }
  }

  lemma {:induction false} OlderTwice(stream: seq<Record>, before: Option<nat>, i: nat)
    requires Newest(stream) && i < |Older(stream, before)|
    ensures Newest(Older(stream, before))
    ensures Older(stream, Some(Older(stream, before)[i].id)) == Older(stream, before)[i + 1..]
  {
    if before.None? || stream == [] || stream[0].id < before.value {
      OlderDrops(stream, i);
    } else {
      OlderTwice(stream[1..], before, i);
      var next := Older(stream, before)[i];
      OlderIsBelow(stream[1..], before, i);
    }
  }

  lemma {:induction false} OlderIsBelow(stream: seq<Record>, before: Option<nat>, i: nat)
    requires before.Some? && Newest(stream) && i < |Older(stream, before)|
    ensures Older(stream, before)[i].id < before.value
  {
    if stream != [] && stream[0].id >= before.value {
      OlderIsBelow(stream[1..], before, i);
    }
  }

  /** The state of the loop after `scanned` of the messages `s`: the matches so far, and how far it will get. */
  ghost predicate Progress(q: Query, s: seq<Record>, scanned: nat, records: seq<Record>) {
    && scanned <= |s| && scanned <= SCAN_LIMIT && |records| <= Limit(q)
    && records == Filter(q, s[..scanned])
    && Stretch(q, s) == scanned + Looked(q, s[scanned..], Limit(q) - |records|, SCAN_LIMIT - scanned)
  }

  lemma ProgressStep(q: Query, s: seq<Record>, scanned: nat, records: seq<Record>)
    requires Progress(q, s, scanned, records)
    requires scanned < |s| && scanned < SCAN_LIMIT && |records| < Limit(q)
    ensures Progress(q, s, scanned + 1, records + if Matches(q, s[scanned]) then [s[scanned]] else [])
  {
    hide Filter, Looked, Matches;
    FilterSnoc(q, s, scanned);
    LookedStep(q, s, scanned, Limit(q) - |records|, SCAN_LIMIT - scanned);
  }

  /** The loop over one batch, up to its break. */
  method ScanBatch(q: Query, ghost s: seq<Record>, messages: seq<Record>, from: nat, found: seq<Record>)
    returns (scanned: nat, records: seq<Record>, cursor: Option<nat>)
    requires Progress(q, s, from, found) && from < SCAN_LIMIT && |found| < Limit(q)
    requires from + |messages| <= SCAN_LIMIT
    requires from + |messages| <= |s| && messages == s[from..from + |messages|]
    requires messages != []
    ensures Progress(q, s, scanned, records) && from < scanned <= from + |messages|
    ensures scanned == from + |messages| || |records| == Limit(q)
    ensures scanned <= |s| && scanned <= SCAN_LIMIT && |records| <= Limit(q)
    ensures cursor == Some(s[scanned - 1].id)
  {
    hide Progress, Matches;
    scanned, records, cursor := from, found, None;
    var i := 0;
    while i < |messages|
      invariant i <= |messages| && scanned == from + i && |records| <= Limit(q)
      invariant cursor == if i == 0 then None else Some(s[scanned - 1].id)
      invariant Progress(q, s, scanned, records)
      invariant i < |messages| ==> scanned < SCAN_LIMIT && |records| < Limit(q)
    {
      assert messages[i] == s[scanned];
      ProgressStep(q, s, scanned, records);
      scanned := scanned + 1;
      cursor := Some(messages[i].id);
      if Matches(q, messages[i]) {
        records := records + [messages[i]];
        if |records| == Limit(q) || scanned == SCAN_LIMIT {
          return;
        }
      } else {
        assert records + [] == records;
      }
      i := i + 1;
    }
  }

  lemma NoProgress(q: Query, s: seq<Record>)
    ensures Progress(q, s, 0, [])
  {
    assert s[0..] == s;
  }

  /** Where the loop stops, the stretch ends. */
  lemma Finished(q: Query, s: seq<Record>, scanned: nat, records: seq<Record>)
    requires Progress(q, s, scanned, records)
    requires scanned == |s| || scanned == SCAN_LIMIT || |records| == Limit(q)
    ensures Stretch(q, s) == scanned && records == Filter(q, s[..Stretch(q, s)])
  {
  }

  /** The next batch, and what comes after it. */
  lemma NextBatch(stream: seq<Record>, s: seq<Record>, start: Option<nat>, from: nat)
    requires Newest(stream) && from <= |s| && Older(stream, start) == s[from..]
    ensures var messages := RevRange(stream, start, BATCH);
      && from + |messages| <= |s| && messages == s[from..from + |messages|]
      && |messages| == (if |s| - from < BATCH then |s| - from else BATCH)
      && (messages != [] ==>
            Older(stream, Some(messages[|messages| - 1].id)) == s[from + |messages|..])
  {
    var messages := RevRange(stream, start, BATCH);
    assert s[from..][..|messages|] == s[from..from + |messages|];
    if messages != [] {
      OlderTwice(stream, start, |messages| - 1);
      assert s[from..][|messages|..] == s[from + |messages|..];
    }
  }

  lemma NothingLooked(total: nat)
    ensures CursorCleared(0, total)
  {
  }

  lemma ShortBatch(from: nat, looked: nat, total: nat)
    requires from % BATCH == 0 && from < looked <= total && total - from < BATCH
    ensures CursorCleared(looked, total)
  {
  }

  lemma FullBatch(from: nat, looked: nat, total: nat)
    requires from % BATCH == 0 && from < looked <= from + BATCH <= total
    ensures !CursorCleared(looked, total)
  {
  }

  lemma BatchSize(scanned: nat)
    requires scanned % BATCH == 0 && scanned < SCAN_LIMIT
    ensures SCAN_LIMIT - scanned >= BATCH && (scanned + BATCH) % BATCH == 0
  {
  }

  method ListDeadLetters(stream: seq<Record>, q: Query) returns (page: Page)
    requires Newest(stream)
    ensures page == PageOf(q, Older(stream, q.before))
  {
    hide Filter, Looked, Older, Progress, RevRange, Stretch, CursorCleared, Limit;
    ghost var s := Older(stream, q.before);
    NoProgress(q, s);
    NothingLooked(|s|);
    var records: seq<Record>, cursor: Option<nat> := [], None;
    var start, scanned := q.before, 0;
    assert s[0..] == s;
    while scanned < SCAN_LIMIT && |records| < Limit(q)
      invariant Progress(q, s, scanned, records)
      invariant scanned <= |s| && scanned <= SCAN_LIMIT && |records| <= Limit(q)
      invariant cursor == if CursorCleared(scanned, |s|) then None else Some(s[scanned - 1].id)
      invariant |records| < Limit(q) ==> scanned % BATCH == 0 && Older(stream, start) == s[scanned..]
      decreases SCAN_LIMIT - scanned
    {
      NextBatch(stream, s, start, scanned);
      BatchSize(scanned);
      var batchSize := if SCAN_LIMIT - scanned < BATCH then SCAN_LIMIT - scanned else BATCH;
      var messages := RevRange(stream, start, batchSize);
      if messages == [] {
        break;
      }
      ghost var from := scanned;
      scanned, records, cursor := ScanBatch(q, s, messages, scanned, records);
      if |messages| < batchSize {
        ShortBatch(from, scanned, |s|);
        cursor := None;
        break;
      }
      FullBatch(from, scanned, |s|);
      start := Some(messages[|messages| - 1].id);
    }
    Finished(q, s, scanned, records);
    page := Page(records, cursor);
  }

  // ----- one page

  lemma {:induction false} ReachesTheEnd(q: Query, s: seq<Record>, scanned: nat, records: seq<Record>)
    requires Progress(q, s, scanned, records)
    ensures var n := Stretch(q, s);
      && |Filter(q, s[..n])| <= Limit(q)
      && (n == |s| || n == SCAN_LIMIT || |Filter(q, s[..n])| == Limit(q))
    decreases |s| - scanned
  {
    hide Looked, Filter;
    if scanned == |s| || scanned == SCAN_LIMIT || |records| == Limit(q) {
      Finished(q, s, scanned, records);
    } else {
      ProgressStep(q, s, scanned, records);
      ReachesTheEnd(q, s, scanned + 1, records + if Matches(q, s[scanned]) then [s[scanned]] else []);
    }
  }

  /** A page is the matches, in order, of one stretch of at most 500 messages from the cursor on, at most the limit of
      them, and it stops early only at the limit; its cursor is the last message looked at, and is missing exactly when
      that message lies in a short batch. */
  lemma PageIsAStretch(q: Query, s: seq<Record>)
    ensures var n, page := Stretch(q, s), PageOf(q, s);
      && n <= |s| && n <= 500
      && page.records == Filter(q, s[..n]) && |page.records| <= Limit(q)
      && (n < |s| && n < 500 ==> |page.records| == Limit(q))
      && (page.cursor.Some? ==> n > 0 && page.cursor == Some(s[n - 1].id))
      && (page.cursor.None? <==> s == [] || (n - 1) / 100 == |s| / 100)
  {
    hide Filter;
    NoProgress(q, s);
    ReachesTheEnd(q, s, 0, []);
  }

  // ----- following the cursors

  lemma CursorMovesOn(stream: seq<Record>, q: Query)
    requires Newest(stream) && PageOf(q, Older(stream, q.before)).cursor.Some?
    ensures var s := Older(stream, q.before);
      && Stretch(q, s) > 0
      && Older(stream, PageOf(q, s).cursor) == s[Stretch(q, s)..]
  {
    hide Filter, Looked;
    var s := Older(stream, q.before);
    OlderTwice(stream, q.before, Stretch(q, s) - 1);
  }

  /** The pages a client gets by asking again with every cursor until there is none. */
  function FollowCursors(stream: seq<Record>, q: Query): seq<Page>
    requires Newest(stream)
    decreases |Older(stream, q.before)|
  {
    var page := PageOf(q, Older(stream, q.before));
    if page.cursor.None? then [page]
    else
      CursorMovesOn(stream, q);
      [page] + FollowCursors(stream, q.(before := page.cursor))
  }

  function AllRecords(pages: seq<Page>): seq<Record> {
    if pages == [] then [] else pages[0].records + AllRecords(pages[1..])
  }

  /** How many messages the pages look at together. */
  function Covered(stream: seq<Record>, q: Query): nat
    requires Newest(stream)
    decreases |Older(stream, q.before)|
  {
    var s := Older(stream, q.before);
    var page := PageOf(q, s);
    if page.cursor.None? then Stretch(q, s)
    else
      CursorMovesOn(stream, q);
      Stretch(q, s) + Covered(stream, q.(before := page.cursor))
  }

  /** A page that ends the chain although messages are left. */
  predicate EndsEarly(q: Query, s: seq<Record>) {
    Stretch(q, s) < |s| && CursorCleared(Stretch(q, s), |s|)
  }

  lemma {:induction false} FilterConcat(q: Query, a: seq<Record>, b: seq<Record>)
    ensures Filter(q, a + b) == Filter(q, a) + Filter(q, b)
  {
    hide Matches;
    if b == [] {
      assert a + b == a;
    } else {
      assert (a + b)[..|a + b| - 1] == a + b[..|b| - 1];
      FilterConcat(q, a, b[..|b| - 1]);
    }
  }

  lemma {:induction false} FilterIgnoresCursor(q: Query, before: Option<nat>, s: seq<Record>)
    ensures Filter(q.(before := before), s) == Filter(q, s)
  {
    if s != [] {
      FilterIgnoresCursor(q, before, s[..|s| - 1]);
    }
  }

  /** The pages together are the matches of one stretch of the stream, in order: nothing is repeated, reordered or
      skipped over. */
  lemma {:induction false} CursorsRepeatNothing(stream: seq<Record>, q: Query)
    requires Newest(stream)
    ensures var s, covered := Older(stream, q.before), Covered(stream, q);
      covered <= |s| && AllRecords(FollowCursors(stream, q)) == Filter(q, s[..covered])
    decreases |Older(stream, q.before)|
  {
    hide Filter, Looked, Older, Stretch;
    var s := Older(stream, q.before);
    var n, page := Stretch(q, s), PageOf(q, s);
    StretchFits(q, s);
    if page.cursor.None? {
      assert AllRecords([page]) == page.records + AllRecords([]) == page.records;
    } else {
      CursorMovesOn(stream, q);
      var next := q.(before := page.cursor);
      CursorsRepeatNothing(stream, next);
      var more := Covered(stream, next);
      FilterIgnoresCursor(q, page.cursor, s[n..][..more]);
      FilterConcat(q, s[..n], s[n..][..more]);
      assert s[..n + more] == s[..n] + s[n..][..more];
      AllRecordsCons(page, FollowCursors(stream, next));
    }
  }

  lemma StretchFits(q: Query, s: seq<Record>)
    ensures Stretch(q, s) <= |s|
  {
  }

  lemma AllRecordsCons(page: Page, pages: seq<Page>)
    ensures AllRecords([page] + pages) == page.records + AllRecords(pages)
  {
    assert ([page] + pages)[1..] == pages;
  }

  // ----- when messages are lost, by stream and query alone

  /** The limit is reached at a message of the last, short batch that is not the last message. */
  ghost predicate LimitInShortBatch(q: Query, s: seq<Record>) {
    exists p: nat :: LastShown(q, s, p)
  }

  predicate LastShown(q: Query, s: seq<Record>, p: nat) {
    && p + 1 < |s| && p < SCAN_LIMIT && p >= |s| / BATCH * BATCH
    && Matches(q, s[p]) && |Filter(q, s[..p + 1])| == Limit(q)
  }

  /** A page from the front of `s` ends after `b` messages: the first to reach 500 or the limit. */
  predicate EndsAfter(q: Query, s: seq<Record>, b: nat) {
    && b < |s| && (b == SCAN_LIMIT || |Filter(q, s[..b])| == Limit(q)) && b <= SCAN_LIMIT
    && forall i :: 0 <= i < b ==> |Filter(q, s[..i])| < Limit(q)
  }

  /** Paging through `s` loses messages: here, or after a page that goes on. */
  ghost predicate Loses(q: Query, s: seq<Record>)
    decreases |s|
  {
    LimitInShortBatch(q, s) || exists b :: 0 < b < |s| && EndsAfter(q, s, b) && Loses(q, s[b..])
  }

  lemma {:induction false} StretchIsLeast(q: Query, s: seq<Record>, scanned: nat, records: seq<Record>)
    requires Progress(q, s, scanned, records)
    requires forall i :: 0 <= i < scanned ==> |Filter(q, s[..i])| < Limit(q)
    ensures forall i :: 0 <= i < Stretch(q, s) ==> |Filter(q, s[..i])| < Limit(q)
    decreases |s| - scanned
  {
    hide Looked, Filter;
    if scanned == |s| || scanned == SCAN_LIMIT || |records| == Limit(q) {
      Finished(q, s, scanned, records);
    } else {
      ProgressStep(q, s, scanned, records);
      StretchIsLeast(q, s, scanned + 1, records + if Matches(q, s[scanned]) then [s[scanned]] else []);
    }
  }

  /** Where a page ends follows from stream and query. */
  lemma PageEndsExactlyAt(q: Query, s: seq<Record>, b: nat)
    ensures b < |s| ==> (EndsAfter(q, s, b) <==> b == Stretch(q, s))
  {
    hide Looked, Filter;
    NoProgress(q, s);
    StretchIsLeast(q, s, 0, []);
    ReachesTheEnd(q, s, 0, []);
    StretchFits(q, s);
    StretchWithin(q, s);
  }

  lemma StretchWithin(q: Query, s: seq<Record>)
    ensures Stretch(q, s) <= SCAN_LIMIT
  {
  }

  lemma FilterStep(q: Query, s: seq<Record>, n: nat)
    requires 0 < n <= |s|
    ensures |Filter(q, s[..n])| == |Filter(q, s[..n - 1])| + if Matches(q, s[n - 1]) then 1 else 0
  {
    hide Matches;
    FilterSnoc(q, s, n - 1);
  }

  /** A page ends early exactly when the limit is reached inside a short batch before its end: at a matching message
      that completes the limit, lies in the last, short batch and has messages behind it. */
  lemma EndsEarlyExactlyWhen(q: Query, s: seq<Record>)
    ensures EndsEarly(q, s) <==> LimitInShortBatch(q, s)
  {
    var n := Stretch(q, s);
    if LimitInShortBatch(q, s) {
      var p: nat :| LastShown(q, s, p);
      ShownIsTheEnd(q, s, p);
      SameBatch(n, |s|);
    }
    if EndsEarly(q, s) {
      PageIsAStretch(q, s);
      NonEmptyStretch(q, s);
      SameBatch(n, |s|);
      ShortOfScanLimit(n, |s|);
      PageEndsExactlyAt(q, s, n);
      FilterStep(q, s, n);
      assert LastShown(q, s, n - 1);
    }
  }

  lemma ShownIsTheEnd(q: Query, s: seq<Record>, p: nat)
    requires LastShown(q, s, p)
    ensures Stretch(q, s) == p + 1
  {
    FilterStep(q, s, p + 1);
    forall i | 0 <= i < p + 1 ensures |Filter(q, s[..i])| < Limit(q) {
      FilterGrows(q, s, i, p);
    }
    PageEndsExactlyAt(q, s, p + 1);
  }

  lemma {:induction false} FilterGrows(q: Query, s: seq<Record>, i: nat, j: nat)
    requires i <= j <= |s|
    ensures |Filter(q, s[..i])| <= |Filter(q, s[..j])|
    decreases j - i
  {
    if i < j {
      FilterStep(q, s, j);
      FilterGrows(q, s, i, j - 1);
    }
  }

  lemma ShortOfScanLimit(n: nat, total: nat)
    requires 0 < n < total && n <= SCAN_LIMIT && (n - 1) / BATCH == total / BATCH
    ensures n < SCAN_LIMIT
  {
  }

  lemma NonEmptyStretch(q: Query, s: seq<Record>)
    ensures s != [] ==> Stretch(q, s) > 0
  {
  }

  lemma SameBatch(n: nat, total: nat)
    requires 0 < n < total
    ensures (n - 1) / 100 == total / 100 <==> n > total / 100 * 100
  {
  }

  lemma {:induction false} LosesIgnoresCursor(q: Query, before: Option<nat>, s: seq<Record>)
    ensures Loses(q.(before := before), s) <==> Loses(q, s)
    decreases |s|
  {
    var other := q.(before := before);
    forall i | 0 <= i <= |s| ensures Filter(other, s[..i]) == Filter(q, s[..i]) {
      FilterIgnoresCursor(q, before, s[..i]);
    }
    assert forall p: nat :: LastShown(other, s, p) <==> LastShown(q, s, p);
    assert forall b: nat :: EndsAfter(other, s, b) <==> EndsAfter(q, s, b);
    forall b | 0 < b < |s| ensures Loses(other, s[b..]) <==> Loses(q, s[b..]) {
      LosesIgnoresCursor(q, before, s[b..]);
    }
  }

  /** A page that does not end early loses exactly what the pages after it lose. */
  lemma LosesLater(q: Query, s: seq<Record>)
    requires !EndsEarly(q, s)
    ensures Loses(q, s) <==> 0 < Stretch(q, s) < |s| && Loses(q, s[Stretch(q, s)..])
  {
    hide Stretch, EndsAfter, EndsEarly;
    EndsEarlyExactlyWhen(q, s);
    forall b: nat ensures b < |s| ==> (EndsAfter(q, s, b) <==> b == Stretch(q, s)) {
      PageEndsExactlyAt(q, s, b);
    }
  }

  /** The chain of pages covers the whole stream exactly when stream and query lose nothing. */
  lemma {:induction false} CursorsCoverExactly(stream: seq<Record>, q: Query)
    requires Newest(stream)
    ensures Covered(stream, q) == |Older(stream, q.before)| <==> !Loses(q, Older(stream, q.before))
    decreases |Older(stream, q.before)|
  {
    hide Filter, Looked, Older, Stretch, Loses, LimitInShortBatch;
    var s := Older(stream, q.before);
    var page := PageOf(q, s);
    StretchFits(q, s);
    if page.cursor.Some? {
      CursorMovesOn(stream, q);
      LosesLater(q, s);
      var next := q.(before := page.cursor);
      CursorsCoverExactly(stream, next);
      LosesIgnoresCursor(q, page.cursor, s[Stretch(q, s)..]);
      NothingToLose(q);
    } else {
      EndsEarlyExactlyWhen(q, s);
      LosesHere(q, s);
    }
  }

  lemma NothingToLose(q: Query)
    ensures !Loses(q, [])
  {
  }

  /** Without a cursor the page is the last: what it does not cover is lost. */
  lemma LosesHere(q: Query, s: seq<Record>)
    requires PageOf(q, s).cursor.None?
    ensures Loses(q, s) <==> Stretch(q, s) < |s|
  {
    hide Looked, Filter, LimitInShortBatch;
    StretchFits(q, s);
    if Stretch(q, s) < |s| {
      EndsEarlyExactlyWhen(q, s);
      assert EndsEarly(q, s);
    } else {
      LosesLater(q, s);
    }
  }

  /** Fewer than 100 messages with more matches than the limit: the first page says it is the last, and the other
      matches are never shown. */
  lemma ShortStreamLosesMatches(stream: seq<Record>, q: Query)
    requires Newest(stream) && |Older(stream, q.before)| < 100
    requires |Filter(q, Older(stream, q.before))| > Limit(q)
    ensures |FollowCursors(stream, q)| == 1
    ensures |AllRecords(FollowCursors(stream, q))| == Limit(q) < |Filter(q, Older(stream, q.before))|
  {
    hide Filter, Looked;
    var s := Older(stream, q.before);
    var page := PageOf(q, s);
    PageIsAStretch(q, s);
    assert s[..|s|] == s;
    assert page.records != Filter(q, s);
    assert Stretch(q, s) < |s|;
    AllRecordsCons(page, []);
    assert AllRecords([]) == [] && [page] + [] == [page] && page.records + [] == page.records;
  }

  /** New dead letters that arrive between two pages do not disturb the chain. */
  lemma {:induction false} NewerMessagesChangeNoPage(newer: seq<Record>, stream: seq<Record>, q: Query)
    requires q.before.Some? && forall r <- newer :: r.id >= q.before.value
    ensures PageOf(q, Older(newer + stream, q.before)) == PageOf(q, Older(stream, q.before))
  {
    hide PageOf;
    if newer == [] {
      assert newer + stream == stream;
    } else {
      assert newer[0] in newer && forall r <- newer[1..] :: r in newer;
      assert (newer + stream)[1..] == newer[1..] + stream;
      NewerMessagesChangeNoPage(newer[1..], stream, q);
    }
  }
}
