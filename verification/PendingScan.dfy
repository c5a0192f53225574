/** The bounded scan over the pending list (apps/gateway/internal/redis/reader.go, ClaimStaleDelivery). */
module PendingScan {
  import opened Wrappers
  import opened StreamGroup

  const PAGE_SIZE: nat := 20

  /** What a call finds out about one entry of its page. */
  datatype Verdict = NotDue | NotClaimable | Claimed | Failed

  /** None is "-", Some(id) is "(id": the scan starts after that entry. */
  type Cursor = Option<nat>

  function From(c: Cursor): nat {
    if c == None then 0 else c.value + 1
  }

  /** XPENDING from `from`: the first `n` pending ids in ascending order. */
  function PendingFrom(s: Server, from: nat, n: nat): seq<nat>
    decreases s.last - from
  {
    if n == 0 || from >= s.last then []
    else if from in s.pel then [from] + PendingFrom(s, from + 1, n - 1)
    else PendingFrom(s, from + 1, n)
  }

  predicate PassesOver(v: Verdict) {
    v.NotDue? || v.NotClaimable?
  }

  /** The verdicts of one call: it goes on past entries that are not due or not claimable and stops at the
      first other one. */
  predicate Walked(page: seq<nat>, verdicts: seq<Verdict>) {
    && |verdicts| <= |page|
    && (forall i :: 0 <= i < |verdicts| - 1 ==> PassesOver(verdicts[i]))
    && (|verdicts| < |page| ==> verdicts != [] && !PassesOver(verdicts[|verdicts| - 1]))
  }

  /** The cursor a call leaves behind, given its page and what it found out entry by entry. */
  function NextCursor(c: Cursor, page: seq<nat>, verdicts: seq<Verdict>): Cursor
    requires Walked(page, verdicts)
  {
    if page == [] then None
    else if verdicts[|verdicts| - 1].Failed? then c
    else if |page| < PAGE_SIZE then None
    else Some(page[|verdicts| - 1])
  }

  // ----- pages

  /** `page` is the first `n` pending ids from `from` on, in ascending order. */
  predicate Exact(s: Server, from: nat, n: nat, page: seq<nat>) {
    && |page| <= n
    && (forall i :: 0 <= i < |page| ==> from <= page[i] < s.last && page[i] in s.pel)
    && (forall i, j :: 0 <= i < j < |page| ==> page[i] < page[j])
    && (forall id :: from <= id < s.last && id in s.pel && (|page| < n || (page != [] && id <= page[|page| - 1])) ==> id in page)
  }

  lemma ExactCons(s: Server, from: nat, n: nat, rest: seq<nat>)
    requires n > 0 && from < s.last && from in s.pel && Exact(s, from + 1, n - 1, rest)
    ensures Exact(s, from, n, [from] + rest)
  {
    var page := [from] + rest;
    forall id | from < id < s.last && id in s.pel && (|page| < n || id <= page[|page| - 1]) ensures id in page {
      assert id in rest;
    }
  }

  lemma ExactSkip(s: Server, from: nat, n: nat, rest: seq<nat>)
    requires from < s.last && from !in s.pel && Exact(s, from + 1, n, rest)
    ensures Exact(s, from, n, rest)
  {
  }

  lemma {:induction false} PageIsExact(s: Server, from: nat, n: nat)
    ensures Exact(s, from, n, PendingFrom(s, from, n))
    decreases s.last - from
  {
    if n != 0 && from < s.last {
      if from in s.pel {
        PageIsExact(s, from + 1, n - 1);
        ExactCons(s, from, n, PendingFrom(s, from + 1, n - 1));
      } else {
        PageIsExact(s, from + 1, n);
        ExactSkip(s, from, n, PendingFrom(s, from + 1, n));
      }
    }
  }

  /** Whenever the cursor ends up on an entry it was not on before, every pending entry from the old start up
      to it was examined and was not due or not claimable, or is the one claimed. */
  lemma CursorSkipsNothing(s: Server, c: Cursor, verdicts: seq<Verdict>, id: nat)
    requires Walked(PendingFrom(s, From(c), PAGE_SIZE), verdicts)
    requires var next := NextCursor(c, PendingFrom(s, From(c), PAGE_SIZE), verdicts);
      next != None && next != c && From(c) <= id <= next.value && id in s.pel && id < s.last
    ensures exists i | 0 <= i < |verdicts| ::
              && PendingFrom(s, From(c), PAGE_SIZE)[i] == id
              && (PassesOver(verdicts[i]) || (verdicts[i].Claimed? && i == |verdicts| - 1))
  {
    var page := PendingFrom(s, From(c), PAGE_SIZE);
    PageIsExact(s, From(c), PAGE_SIZE);
    assert id <= page[|verdicts| - 1] <= page[|page| - 1];
    assert id in page;
    var i :| 0 <= i < |page| && page[i] == id;
    assert i < |verdicts|;
  }

  /** Where the next scan starts: over again after a page of fewer than twenty, where it was after a failure, and else
      behind the last entry looked at. */
  lemma NextStart(c: Cursor, page: seq<nat>, verdicts: seq<Verdict>)
    requires Walked(page, verdicts)
    ensures From(NextCursor(c, page, verdicts)) ==
      if page != [] && Failed in verdicts then From(c)
      else if |page| < 20 then 0
      else page[|verdicts| - 1] + 1
  {
    if page != [] && Failed in verdicts {
      var i :| 0 <= i < |verdicts| && verdicts[i] == Failed;
      assert i == |verdicts| - 1;
    }
  }

  /** The cursor never moves backwards except to the start. */
  lemma CursorMovesForward(s: Server, c: Cursor, verdicts: seq<Verdict>)
    requires Walked(PendingFrom(s, From(c), PAGE_SIZE), verdicts)
    ensures var next := NextCursor(c, PendingFrom(s, From(c), PAGE_SIZE), verdicts);
      next == None || next == c || From(c) < From(next) <= s.last
  {
    PageIsExact(s, From(c), PAGE_SIZE);
  }

  // ----- sweeps in which nothing is claimed

  function AllNotDue(n: nat): seq<Verdict> {
    seq(n, _ => NotDue)
  }

  /** The pages of consecutive quiet calls until the cursor is back at "-". */
  function Sweep(s: Server, c: Cursor): seq<seq<nat>>
    decreases s.last - From(c)
  {
    var page := PendingFrom(s, From(c), PAGE_SIZE);
    var next := NextCursor(c, page, AllNotDue(|page|));
    if next == None || From(next) <= From(c) || From(c) >= s.last then [page] else [page] + Sweep(s, next)
  }

  function Flatten(pages: seq<seq<nat>>): seq<nat> {
    if pages == [] then [] else pages[0] + Flatten(pages[1..])
  }

  lemma {:induction false} PageThenRest(s: Server, from: nat, n: nat, total: nat)
    requires |PendingFrom(s, from, n)| == n > 0 && n <= total
    ensures PendingFrom(s, from, total)
         == PendingFrom(s, from, n) + PendingFrom(s, PendingFrom(s, from, n)[n - 1] + 1, total - n)
    decreases s.last - from
  {
    if from in s.pel {
      if n > 1 {
        PageThenRest(s, from + 1, n - 1, total - 1);
        assert PendingFrom(s, from, n)[n - 1] == PendingFrom(s, from + 1, n - 1)[n - 2];
      } else {
        assert PendingFrom(s, from + 1, 0) == [];
        assert PendingFrom(s, from, n) == [from];
      }
    } else {
      PageThenRest(s, from + 1, n, total);
    }
  }

  lemma {:induction false} ShortPageIsAll(s: Server, from: nat, n: nat, total: nat)
    requires |PendingFrom(s, from, n)| < n <= total
    ensures PendingFrom(s, from, total) == PendingFrom(s, from, n)
    decreases s.last - from
  {
    if from < s.last {
      ShortPageIsAll(s, from + 1, if from in s.pel then n - 1 else n, if from in s.pel then total - 1 else total);
    }
  }

  lemma QuietCall(s: Server, c: Cursor)
    ensures var page := PendingFrom(s, From(c), PAGE_SIZE);
      && |page| <= PAGE_SIZE
      && NextCursor(c, page, AllNotDue(|page|)) == (if |page| < PAGE_SIZE then None else Some(page[PAGE_SIZE - 1]))
      && (|page| == PAGE_SIZE ==> From(c) < s.last && From(c) + PAGE_SIZE <= page[PAGE_SIZE - 1] + 1 <= s.last)
  {
    var page := PendingFrom(s, From(c), PAGE_SIZE);
    PageIsExact(s, From(c), PAGE_SIZE);
    SpanOfPage(page, From(c));
  }

  lemma SweepUnfolds(s: Server, c: Cursor)
    ensures var page := PendingFrom(s, From(c), PAGE_SIZE);
      Flatten(Sweep(s, c)) ==
        if |page| < PAGE_SIZE then page else page + Flatten(Sweep(s, Some(page[PAGE_SIZE - 1])))
  {
    var page := PendingFrom(s, From(c), PAGE_SIZE);
    QuietCall(s, c);
    if |page| < PAGE_SIZE {
      assert Sweep(s, c) == [page];
      assert Flatten([page]) == page + Flatten([page][1..]);
    } else {
      var next := NextCursor(c, page, AllNotDue(|page|));
      var rest := Sweep(s, next);
      assert Sweep(s, c) == [page] + rest && ([page] + rest)[1..] == rest;
    }
  }

  /** While nothing can be claimed, consecutive calls visit every pending entry exactly once, in order, and
      then wrap. */
  lemma {:induction false} SweepVisitsAllOnce(s: Server, c: Cursor, total: nat)
    requires From(c) < s.last ==> total >= s.last - From(c) + PAGE_SIZE
    ensures Flatten(Sweep(s, c)) == PendingFrom(s, From(c), total)
    decreases s.last - From(c)
  {
    var page := PendingFrom(s, From(c), PAGE_SIZE);
    QuietCall(s, c);
    SweepUnfolds(s, c);
    if |page| == PAGE_SIZE {
      var next := Some(page[PAGE_SIZE - 1]);
      PageThenRest(s, From(c), PAGE_SIZE, total);
      SweepVisitsAllOnce(s, next, total - PAGE_SIZE);
    } else if From(c) < s.last {
      PageIsExact(s, From(c), PAGE_SIZE);
      ShortPageIsAll(s, From(c), PAGE_SIZE, total);
    }
  }

  /** An ascending page of n ids spans at least n positions. */
  lemma {:induction false} SpanOfPage(page: seq<nat>, from: nat)
    requires forall i :: 0 <= i < |page| ==> from <= page[i]
    requires forall i, j :: 0 <= i < j < |page| ==> page[i] < page[j]
    ensures page != [] ==> page[|page| - 1] >= from + |page| - 1
  {
    if |page| > 1 {
      SpanOfPage(page[..|page| - 1], from);
    }
  }

  /** Every pending entry is in a sweep from "-" exactly once. */
  lemma SweepFromStart(s: Server, id: nat)
    requires id in s.pel && id < s.last
    ensures exists i :: 0 <= i < |Flatten(Sweep(s, None))| && Flatten(Sweep(s, None))[i] == id
    ensures forall i, j :: 0 <= i < j < |Flatten(Sweep(s, None))| ==> Flatten(Sweep(s, None))[i] < Flatten(Sweep(s, None))[j]
  {
    var total := s.last + PAGE_SIZE;
    SweepVisitsAllOnce(s, None, total);
    PageIsExact(s, 0, total);
    SpanOfPage(PendingFrom(s, 0, total), 0);
  }
}
