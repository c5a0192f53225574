/** What the reports of a batch delete say and which request is open, document by document
    (apps/web/src/stores/ragDocumentStore.ts:267-493). */
module BatchReports {
  import opened Wrappers
  import opened BatchDelete

  /** The server refuses the requests for the first `j` documents of the queue. */
  predicate Refused(api: Api, st: State, j: nat) {
    j <= |st.queue| && forall k :: 0 <= k < j ==> api.create(st.calls + k, st.queue[k]).None?
  }

  /** The first `j` documents of the queue, reported as failed. */
  function Failures(documents: seq<Document>, j: nat): seq<Report>
    requires j <= |documents|
  {
    if j == 0 then [] else Failures(documents, j - 1) + [Report(documents[j - 1].id, documents[j - 1].title, Failed)]
  }

  lemma {:induction false} FailuresCons(documents: seq<Document>, j: nat)
    requires 0 < j <= |documents|
    ensures Failures(documents, j) == [Report(documents[0].id, documents[0].title, Failed)] + Failures(documents[1..], j - 1)
  {
    if j > 1 {
      FailuresCons(documents, j - 1);
    }
  }

  lemma RefusedTail(api: Api, st: State, next: State, j: nat)
    requires j > 0 && Refused(api, st, j) && next.queue == st.queue[1..] && next.calls == st.calls + 1
    ensures Refused(api, next, j - 1)
  {
    forall k | 0 <= k < j - 1 ensures api.create(next.calls + k, next.queue[k]).None? {
      assert st.queue[k + 1] == next.queue[k] && api.create(st.calls + (k + 1), st.queue[k + 1]).None?;
    }
  }

  lemma RefusedOnce(api: Api, st: State)
    requires st.queue != [] && api.create(st.calls, st.queue[0]).None?
    ensures var d := st.queue[0];
      Drain(api, st) == Drain(api, st.(queue := st.queue[1..], current := Some(d), calls := st.calls + 1,
                                       results := st.results + [Report(d.id, d.title, Failed)]))
  {
  }

  /** The next request is opened for the first document the server accepts; those before it are reported as failed, in
      order, and the others stay queued. */
  lemma {:induction false} NextRequestIsTheFirstAccepted(api: Api, st: State, j: nat)
    requires Refused(api, st, j) && j < |st.queue| && api.create(st.calls + j, st.queue[j]).Some?
    ensures Drain(api, st) == st.(
        queue := st.queue[j + 1..], current := Some(st.queue[j]), calls := st.calls + j + 1,
        request := Some(Request(api.create(st.calls + j, st.queue[j]).value, st.queue[j].id)),
        results := st.results + Failures(st.queue, j))
    decreases j
  {
    if j == 0 {
      assert st.results + Failures(st.queue, 0) == st.results;
    } else {
      var d := st.queue[0];
      assert api.create(st.calls + 0, st.queue[0]).None?;
      var next := st.(queue := st.queue[1..], current := Some(d), calls := st.calls + 1,
                      results := st.results + [Report(d.id, d.title, Failed)]);
      RefusedTail(api, st, next, j);
      FailuresCons(st.queue, j);
      RefusedOnce(api, st);
      hide Drain, Refused, Failures;
      NextRequestIsTheFirstAccepted(api, next, j - 1);
      assert next.queue[j - 1] == st.queue[j] && next.queue[j..] == st.queue[j + 1..];
      assert st.results + [Report(d.id, d.title, Failed)] + Failures(st.queue[1..], j - 1)
             == st.results + Failures(st.queue, j);
    }
  }

  /** When the server accepts none, all are reported as failed and the batch is over. */
  lemma {:induction false} NoneAcceptedEnds(api: Api, st: State)
    requires Refused(api, st, |st.queue|)
    ensures Drain(api, st) == st.(
        queue := [], current := None, workspace := None, running := false, calls := st.calls + |st.queue|,
        results := st.results + Failures(st.queue, |st.queue|))
    decreases |st.queue|
  {
    if st.queue == [] {
      assert st.results + Failures(st.queue, 0) == st.results;
    } else {
      var d, n := st.queue[0], |st.queue|;
      assert api.create(st.calls + 0, st.queue[0]).None?;
      var next := st.(queue := st.queue[1..], current := Some(d), calls := st.calls + 1,
                      results := st.results + [Report(d.id, d.title, Failed)]);
      RefusedTail(api, st, next, n);
      FailuresCons(st.queue, n);
      NoneAcceptedEnds(api, next);
      assert st.results + [Report(d.id, d.title, Failed)] + Failures(st.queue[1..], n - 1)
             == st.results + Failures(st.queue, n);
    }
  }

  /** A decision on the batch's open document is reported at once, as succeeded when it was allowed and as skipped when
      it was denied; only an allowed one is deleted. */
  lemma DecisionIsReported(api: Api, decision: Decision, stop: bool, st: State)
    requires Steady(st) && st.running && GoesThrough(api, decision, st)
    ensures var d, now := st.current.value, Resolve(api, decision, stop, st);
      var status := if decision == AllowOnce then Succeeded else Skipped;
      && |now.results| > |st.results| && now.results[..|st.results|] == st.results
      && now.results[|st.results|] == Report(d.id, d.title, status)
      && (forall k :: |st.results| < k < |now.results| ==> now.results[k].status == Failed)
      && now.deleted == (if decision == AllowOnce then st.deleted + [d.id] else st.deleted)
      && (stop ==> !now.running && now.queue == [] && |now.results| == |st.results| + 1)
  {
    ResolveIs(api, decision, stop, st);
    DrainReportsFailures(api, Decided(decision, stop, st));
    hide Drain, Resolve;
  }

  lemma {:induction false} DrainReportsFailures(api: Api, st: State)
    ensures var now := Drain(api, st);
      && |st.results| <= |now.results| && now.results[..|st.results|] == st.results && now.deleted == st.deleted
      && (forall k :: |st.results| <= k < |now.results| ==> now.results[k].status == Failed)
      && (st.queue == [] ==> !now.running && now.queue == [] && now.results == st.results)
    decreases |st.queue|
  {
    if st.queue != [] && api.create(st.calls, st.queue[0]).None? {
      var d := st.queue[0];
      DrainReportsFailures(api, st.(queue := st.queue[1..], current := Some(d), calls := st.calls + 1,
                                    results := st.results + [ReportOf(d, Failed)]));
    }
  }

  /** A started batch first reports the documents that cannot be deleted, as skipped and in their order, and only then
      those refused by the server. */
  lemma IneligibleAreSkippedFirst(api: Api, eligible: Document -> bool, workspace: Option<string>,
                                  selected: seq<Document>, limit: nat, st: State)
    requires CanStart(workspace, selected, limit)
    ensures var now, skipped := Start(api, eligible, workspace, selected, limit, st), Keep(selected, d => !eligible(d));
      && |skipped| <= |now.results|
      && (forall k :: 0 <= k < |skipped| ==> now.results[k] == Report(skipped[k].id, skipped[k].title, Skipped))
      && (forall k :: |skipped| <= k < |now.results| ==> now.results[k].status == Failed)
  {
    var skipped := Keep(selected, d => !eligible(d));
    ReportsAre(skipped, Skipped);
    DrainReportsFailures(api, Readied(eligible, workspace, selected, st));
    hide Drain, Keep, Reports;
  }

  lemma {:induction false} ReportsAre(documents: seq<Document>, status: Status)
    ensures |Reports(documents, status)| == |documents|
    ensures forall k :: 0 <= k < |documents| ==>
      Reports(documents, status)[k] == Report(documents[k].id, documents[k].title, status)
  {
    if documents != [] {
      ReportsAre(documents[1..], status);
    }
  }

  /** Selecting keeps the wanted documents, all of them and in order. */
  lemma {:induction false} KeepIs(documents: seq<Document>, wanted: Document -> bool)
    ensures forall d :: d in Keep(documents, wanted) <==> d in documents && wanted(d)
    ensures |Keep(documents, wanted)| <= |documents|
  {
    if documents != [] {
      KeepIs(documents[1..], wanted);
      assert documents == [documents[0]] + documents[1..];
    }
  }

  /** Outside a batch a decision settles the open request alone: it deletes that document if it was allowed, and reports
      nothing; closing drops the request without a decision. */
  lemma SingleDecision(api: Api, decision: Decision, stop: bool, st: State)
    requires st.mode == Single && GoesThrough(api, decision, st)
    ensures Resolve(api, decision, stop, st) == st.(
        calls := st.calls + 1, request := None, current := None,
        deleted := if decision == AllowOnce then st.deleted + [st.request.value.documentId] else st.deleted)
    ensures Close(st) == st.(request := None, current := None)
  {
    assert st.results + [] == st.results && st.deleted + [] == st.deleted;
  }

  /** A single delete asks the server for exactly that document and leaves the batch mode, whatever the answer. */
  lemma SingleRequest(api: Api, workspace: Option<string>, d: Document, st: State)
    requires workspace.Some?
    ensures var now := RequestDelete(api, workspace, d, st);
      && now.mode == Single && now.calls == st.calls + 1
      && (api.create(st.calls, d).Some? ==>
            now.request == Some(Request(api.create(st.calls, d).value, d.id)) && now.current == Some(d))
      && (api.create(st.calls, d).None? ==> now.request == st.request && now.current == None)
      && now.queue == st.queue && now.results == st.results && now.running == st.running && now.deleted == st.deleted
  {
  }
}
