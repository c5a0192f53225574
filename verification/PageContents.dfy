/** What a dead-letter page shows, in terms of the stream and the query alone
    (apps/gateway/internal/redis/diagnostics.go:146-190). */
module PageContents {
  import opened Wrappers
  import opened DeadLetterPaging

  /** The record is older than the query's cursor and has every field the query asks for. */
  predicate Asked(q: Query, r: Record) {
    && (q.before.Some? ==> r.id < q.before.value)
    && (q.errorCode != "" ==> r.errorCode == q.errorCode)
    && (q.taskId != "" ==> r.taskId == q.taskId)
    && (q.runId != "" ==> r.runId == q.runId)
  }

  /** At least one record and at most fifty. */
  function Wanted(limit: int): nat {
    if limit <= 1 then 1 else if limit >= 50 then 50 else limit
  }

  lemma {:induction false} OlderAre(stream: seq<Record>, before: Option<nat>)
    requires Newest(stream)
    ensures forall r :: r in Older(stream, before) <==> r in stream && (before.Some? ==> r.id < before.value)
    ensures Newest(Older(stream, before))
  {
    if before.Some? && stream != [] {
      if stream[0].id >= before.value {
        OlderAre(stream[1..], before);
        assert stream == [stream[0]] + stream[1..];
      } else {
        forall r | r in stream ensures r.id < before.value {
          var i :| 0 <= i < |stream| && stream[i] == r;
          assert i > 0 ==> stream[0].id > stream[i].id;
        }
      }
    }
  }

  lemma {:induction false} FilterIs(q: Query, s: seq<Record>)
    ensures forall r :: r in Filter(q, s) <==> r in s && Matches(q, r)
  {
    hide Matches;
    if s != [] {
      FilterIs(q, s[..|s| - 1]);
      assert s == s[..|s| - 1] + [s[|s| - 1]];
    }
  }

  lemma {:induction false} FilterFalls(q: Query, s: seq<Record>)
    requires Newest(s)
    ensures Newest(Filter(q, s))
  {
    hide Matches;
    if s != [] {
      var front, last := s[..|s| - 1], s[|s| - 1];
      FilterFalls(q, front);
      FilterIs(q, front);
      forall i | 0 <= i < |Filter(q, front)| ensures Filter(q, front)[i].id > last.id {
        assert Filter(q, front)[i] in front;
        var j :| 0 <= j < |front| && front[j] == Filter(q, front)[i];
        assert s[j].id > s[|s| - 1].id;
      }
    }
  }

  lemma LimitIsWanted(q: Query)
    ensures Limit(q) == Wanted(q.limit)
  {
  }

  /** A page shows only records of the stream that were asked for, newest first, at least one and at most fifty by the
      limit; any other record that was asked for is older than all it shows. */
  lemma PageShowsTheNewest(stream: seq<Record>, q: Query)
    requires Newest(stream)
    ensures var shown := PageOf(q, Older(stream, q.before)).records;
      && |shown| <= Wanted(q.limit) && Newest(shown)
      && (forall r <- shown :: r in stream && Asked(q, r))
      && (forall r <- stream :: Asked(q, r) && r !in shown ==> forall i :: 0 <= i < |shown| ==> r.id < shown[i].id)
  {
    var s := Older(stream, q.before);
    var n, shown := Stretch(q, s), PageOf(q, s).records;
    OlderAre(stream, q.before);
    PageIsAStretch(q, s);
    LimitIsWanted(q);
    FilterIs(q, s[..n]);
    FilterFalls(q, s[..n]);
    hide Older, Stretch, Filter, PageOf, Limit, Newest;
    forall r <- shown ensures r in stream && Asked(q, r) {
      assert r in s[..n];
    }
    forall r, i | r in stream && Asked(q, r) && r !in shown && 0 <= i < |shown| ensures r.id < shown[i].id {
      LeftOutIsOlder(q, s, n, r, shown[i]);
    }
  }

  lemma FrontHolds(s: seq<Record>, n: nat)
    requires n <= |s|
    ensures forall k :: 0 <= k < n ==> s[k] in s[..n]
  {
    forall k | 0 <= k < n ensures s[k] in s[..n] {
      assert s[..n][k] == s[k];
    }
  }

  lemma LeftOutIsOlder(q: Query, s: seq<Record>, n: nat, r: Record, x: Record)
    requires Newest(s) && n <= |s| && r in s && x in s[..n] && r !in s[..n]
    ensures r.id < x.id
  {
    var i :| 0 <= i < |s| && s[i] == r;
    var j :| 0 <= j < n && s[j] == x;
    FrontHolds(s, n);
  }

  /** A page that shows fewer than the limit allows has looked at everything, or at five hundred messages: at least as
      many messages lie between the cursor and any record it leaves out. */
  lemma ShortPageLookedFar(stream: seq<Record>, q: Query, i: nat)
    requires Newest(stream)
    requires var s := Older(stream, q.before);
      && i < |s| && Asked(q, s[i]) && s[i] !in PageOf(q, s).records
      && |PageOf(q, s).records| < Wanted(q.limit)
    ensures i >= 500
  {
    var s := Older(stream, q.before);
    var n := Stretch(q, s);
    OlderAre(stream, q.before);
    PageIsAStretch(q, s);
    LimitIsWanted(q);
    FilterIs(q, s[..n]);
    hide Older, Stretch, Filter, PageOf, Limit, Newest;
    FrontHolds(s, n);
  }
}
