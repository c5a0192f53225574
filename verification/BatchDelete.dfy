/** Deleting a batch of documents one confirmation at a time: startBatchDelete, openNextBatchDeleteRequest,
    resolveDelete and requestDelete (apps/web/src/stores/ragDocumentStore.ts). */
module BatchDelete {
  import opened Wrappers

  datatype Document = Document(id: string, title: string, version: int)

  datatype Status = Succeeded | Failed | Skipped

  datatype Report = Report(documentId: string, title: string, status: Status)

  datatype Mode = Single | Batch

  datatype Decision = AllowOnce | Deny

  /** A delete request waiting for a decision, and the document it is for. */
  datatype Request = Request(id: nat, documentId: string)

  /** The answers of the server to the n-th call: a delete request for a document, or none when the call fails or
      throws; and whether resolving a request goes through. */
  datatype Api = Api(create: (nat, Document) -> Option<nat>, resolve: (nat, nat, Decision) -> bool)

  /** The fields of the store, with the number of calls made and the documents the server has deleted. */
  datatype State = State(mode: Mode, workspace: Option<string>, queue: seq<Document>, current: Option<Document>,
                         request: Option<Request>, results: seq<Report>, running: bool, calls: nat, deleted: seq<string>)

  // ----- the actions as functions of the state

  function ReportOf(d: Document, status: Status): Report {
    Report(d.id, d.title, status)
  }

  /** The loop of openNextBatchDeleteRequest: on to the first document with a request, or to the end. */
  function Drain(api: Api, st: State): State
    decreases |st.queue|
  {
    if st.queue == [] then st.(current := None, running := false, workspace := None)
    else
      var d := st.queue[0];
      var next := st.(queue := st.queue[1..], current := Some(d), calls := st.calls + 1);
      match api.create(st.calls, d)
      case Some(id) => next.(request := Some(Request(id, d.id)))
      case None => Drain(api, next.(results := st.results + [ReportOf(d, Failed)]))
  }

  /** One turn of the loop. */
  lemma DrainStep(api: Api, st: State)
    requires st.queue != []
    ensures var d := st.queue[0];
      var next := st.(queue := st.queue[1..], current := Some(d), calls := st.calls + 1);
      var id := api.create(st.calls, d);
      Drain(api, st) == if id.Some? then next.(request := Some(Request(id.value, d.id)))
                        else Drain(api, next.(results := st.results + [ReportOf(d, Failed)]))
  {
  }

  lemma DrainEnd(api: Api, st: State)
    requires st.queue == []
    ensures Drain(api, st) == st.(current := None, running := false, workspace := None)
  {
  }

  function OpenNext(api: Api, st: State): State {
    if st.mode != Batch || st.workspace.None? then st else Drain(api, st)
  }

  function Keep(documents: seq<Document>, wanted: Document -> bool): seq<Document> {
    if documents == [] then [] else (if wanted(documents[0]) then [documents[0]] else []) + Keep(documents[1..], wanted)
  }

  function Reports(documents: seq<Document>, status: Status): seq<Report> {
    if documents == [] then [] else [ReportOf(documents[0], status)] + Reports(documents[1..], status)
  }

  predicate CanStart(workspace: Option<string>, selected: seq<Document>, limit: nat) {
    workspace.Some? && 0 < |selected| <= limit
  }

  function Start(api: Api, eligible: Document -> bool, workspace: Option<string>, selected: seq<Document>, limit: nat,
                 st: State): State
  {
    if !CanStart(workspace, selected, limit) then st
    else
      OpenNext(api, st.(mode := Batch, workspace := workspace, running := true,
                        results := Reports(Keep(selected, d => !eligible(d)), Skipped), queue := Keep(selected, eligible)))
  }

  predicate GoesThrough(api: Api, decision: Decision, st: State) {
    st.request.Some? && api.resolve(st.calls, st.request.value.id, decision)
  }

  function Resolve(api: Api, decision: Decision, stop: bool, st: State): State {
    if st.request.None? then st
    else if !GoesThrough(api, decision, st) then st.(calls := st.calls + 1)
    else
      var done := st.(
        calls := st.calls + 1,
        request := None,
        current := None,
        deleted := st.deleted + if decision == AllowOnce then [st.request.value.documentId] else [],
        results := st.results + if st.mode == Batch && st.current.Some?
          then [ReportOf(st.current.value, if decision == AllowOnce then Succeeded else Skipped)] else []);
      if st.mode == Batch then OpenNext(api, if stop then done.(queue := []) else done) else done
  }

  function RequestDelete(api: Api, workspace: Option<string>, d: Document, st: State): State {
    if workspace.None? then st
    else
      match api.create(st.calls, d)
      case Some(id) =>
        st.(mode := Single, calls := st.calls + 1, current := Some(d), request := Some(Request(id, d.id)))
      case None => st.(mode := Single, calls := st.calls + 1, current := None)
  }

  /** closeDeleteRequest: a batch keeps its open request. */
  function Close(st: State): State {
    if st.mode == Batch then st else st.(request := None, current := None)
  }

  /** clearBatchResults: a running batch keeps its results. */
  function Clear(st: State): State {
    if st.running then st else st.(results := [])
  }

  // ----- the store

  class RagDocumentStore {
    const api: Api
    const eligible: Document -> bool
    const selectionLimit: nat
    var deleteMode: Mode
    var batchWorkspaceId: Option<string>
    var batchDeleteQueue: seq<Document>
    var currentDeleteDocument: Option<Document>
    var deleteRequest: Option<Request>
    var batchResults: seq<Report>
    var batchRunning: bool
    var calls: nat
    var deleted: seq<string>

    ghost function View(): State
      reads this
    {
      State(deleteMode, batchWorkspaceId, batchDeleteQueue, currentDeleteDocument, deleteRequest, batchResults,
            batchRunning, calls, deleted)
    }

    constructor (api: Api, eligible: Document -> bool, selectionLimit: nat)
      ensures View() == State(Single, None, [], None, None, [], false, 0, [])
      ensures this.api == api && this.eligible == eligible && this.selectionLimit == selectionLimit
    {
      this.api := api;
      this.eligible := eligible;
      this.selectionLimit := selectionLimit;
      deleteMode := Single;
      batchWorkspaceId := None;
      batchDeleteQueue := [];
      currentDeleteDocument := None;
      deleteRequest := None;
      batchResults := [];
      batchRunning := false;
      calls := 0;
      deleted := [];
    }

    method OpenNextBatchDeleteRequest()
      modifies this
      ensures View() == OpenNext(api, old(View()))
    {
      hide Drain;
      if deleteMode != Batch || batchWorkspaceId.None? {
        return;
      }
      while batchDeleteQueue != []
        invariant Drain(api, View()) == Drain(api, old(View()))
        decreases |batchDeleteQueue|
      {
        DrainStep(api, View());
        var document := batchDeleteQueue[0];
        batchDeleteQueue := batchDeleteQueue[1..];
        currentDeleteDocument := Some(document);
        var result := api.create(calls, document);
        calls := calls + 1;
        if result.Some? {
          deleteRequest := Some(Request(result.value, document.id));
          return;
        }
        batchResults := batchResults + [ReportOf(document, Failed)];
      }
      DrainEnd(api, View());
      currentDeleteDocument := None;
      batchRunning := false;
      batchWorkspaceId := None;
    }

    method StartBatchDelete(workspaceId: Option<string>, selected: seq<Document>) returns (started: bool)
      modifies this
      ensures View() == Start(api, eligible, workspaceId, selected, selectionLimit, old(View()))
      ensures started <==> CanStart(workspaceId, selected, selectionLimit)
    {
      hide Drain;
      if workspaceId.None? || selected == [] || |selected| > selectionLimit {
        return false;
      }
      deleteMode := Batch;
      batchWorkspaceId := workspaceId;
      batchResults := Reports(Keep(selected, d => !eligible(d)), Skipped);
      batchDeleteQueue := Keep(selected, eligible);
      batchRunning := true;
      OpenNextBatchDeleteRequest();
      return true;
    }

    method ResolveDelete(decision: Decision, stopBatch: bool) returns (resolved: bool)
      modifies this
      ensures View() == Resolve(api, decision, stopBatch, old(View()))
      ensures resolved <==> GoesThrough(api, decision, old(View()))
    {
      hide Drain;
      if deleteRequest.None? {
        return false;
      }
      var ok := api.resolve(calls, deleteRequest.value.id, decision);
      calls := calls + 1;
      if !ok {
        return false;
      }
      if decision == AllowOnce {
        deleted := deleted + [deleteRequest.value.documentId];
      } else {
        assert deleted + [] == deleted;
      }
      if deleteMode == Batch && currentDeleteDocument.Some? {
        var status := if decision == AllowOnce then Succeeded else Skipped;
        batchResults := batchResults + [ReportOf(currentDeleteDocument.value, status)];
      } else {
        assert batchResults + [] == batchResults;
      }
      deleteRequest := None;
      currentDeleteDocument := None;
      if deleteMode == Batch {
        if stopBatch {
          batchDeleteQueue := [];
        }
        OpenNextBatchDeleteRequest();
      }
      return true;
    }

    method RequestDeleteOf(workspaceId: Option<string>, document: Document) returns (ok: bool)
      modifies this
      ensures View() == RequestDelete(api, workspaceId, document, old(View()))
      ensures ok <==> workspaceId.Some? && api.create(old(calls), document).Some?
    {
      if workspaceId.None? {
        return false;
      }
      deleteMode := Single;
      currentDeleteDocument := Some(document);
      var result := api.create(calls, document);
      calls := calls + 1;
      if result.None? {
        currentDeleteDocument := None;
        return false;
      }
      deleteRequest := Some(Request(result.value, document.id));
      return true;
    }

    method CloseDeleteRequest()
      modifies this
      ensures View() == Close(old(View()))
    {
      if deleteMode == Batch {
        return;
      }
      deleteRequest := None;
      currentDeleteDocument := None;
    }

    method ClearBatchResults()
      modifies this
      ensures View() == Clear(old(View()))
    {
      if batchRunning {
        return;
      }
      batchResults := [];
    }
  }

  // ----- nothing is lost in a batch

  function Ids(documents: seq<Document>): seq<string> {
    if documents == [] then [] else [documents[0].id] + Ids(documents[1..])
  }

  function ReportIds(reports: seq<Report>): seq<string> {
    if reports == [] then [] else ReportIds(reports[..|reports| - 1]) + [reports[|reports| - 1].documentId]
  }

  function CurrentId(st: State): seq<string> {
    if st.current.Some? then [st.current.value.id] else []
  }

  /** Reported, open and waiting documents, in order. */
  function Ledger(st: State): seq<string> {
    ReportIds(st.results) + CurrentId(st) + Ids(st.queue)
  }

  /** The order in which a batch deals with its documents: those that cannot be deleted, then the others. */
  function Plan(eligible: Document -> bool, selected: seq<Document>): seq<string> {
    Ids(Keep(selected, d => !eligible(d))) + Ids(Keep(selected, eligible))
  }

  /** A batch between two actions: either a document is open with its request, or all is done. A finished batch may
      leave a request open that was there before it started. */
  predicate Steady(st: State) {
    && st.mode == Batch
    && (if st.running
        then st.workspace.Some? && st.request.Some? && st.current.Some? && st.request.value.documentId == st.current.value.id
        else st.workspace.None? && st.current.None? && st.queue == [])
  }

  lemma ReportIdsSnoc(reports: seq<Report>, r: Report)
    ensures ReportIds(reports + [r]) == ReportIds(reports) + [r.documentId]
  {
    assert (reports + [r])[..|reports + [r]| - 1] == reports;
  }

  lemma {:induction false} ReportIdsConcat(a: seq<Report>, b: seq<Report>)
    ensures ReportIds(a + b) == ReportIds(a) + ReportIds(b)
  {
    if b == [] {
      assert a + b == a;
    } else {
      assert (a + b)[..|a + b| - 1] == a + b[..|b| - 1];
      ReportIdsConcat(a, b[..|b| - 1]);
    }
  }

  lemma {:induction false} ReportsIds(documents: seq<Document>, status: Status)
    ensures ReportIds(Reports(documents, status)) == Ids(documents)
  {
    if documents != [] {
      ReportIdsConcat([ReportOf(documents[0], status)], Reports(documents[1..], status));
      ReportsIds(documents[1..], status);
      ReportIdsSnoc([], ReportOf(documents[0], status));
      assert [] + [ReportOf(documents[0], status)] == [ReportOf(documents[0], status)];
    }
  }

  lemma RefusedKeepsOrder(results: seq<Report>, queue: seq<Document>)
    requires queue != []
    ensures ReportIds(results + [ReportOf(queue[0], Failed)]) + Ids(queue[1..]) == ReportIds(results) + Ids(queue)
  {
    ReportIdsSnoc(results, ReportOf(queue[0], Failed));
    assert ReportIds(results) + [queue[0].id] + Ids(queue[1..]) == ReportIds(results) + ([queue[0].id] + Ids(queue[1..]));
  }

  lemma LedgerAt(st: State)
    requires st.current.Some? && st.queue != [] && st.current.value == st.queue[0]
    ensures Ledger(st.(queue := st.queue[1..])) == ReportIds(st.results) + Ids(st.queue)
  {
    hide ReportIds;
    assert ReportIds(st.results) + [st.queue[0].id] + Ids(st.queue[1..])
        == ReportIds(st.results) + ([st.queue[0].id] + Ids(st.queue[1..]));
  }

  lemma LedgerDone(st: State)
    requires st.current.None? && st.queue == []
    ensures Ledger(st) == ReportIds(st.results) + Ids(st.queue)
  {
    hide ReportIds;
  }

  /** Opening the next request reports every document whose request is refused, and moves none out of order. */
  lemma {:induction false} DrainKeepsLedger(api: Api, st: State)
    requires st.mode == Batch && st.running && st.workspace.Some?
    ensures Steady(Drain(api, st)) && Drain(api, st).deleted == st.deleted
    ensures Ledger(Drain(api, st)) == ReportIds(st.results) + Ids(st.queue)
    decreases |st.queue|
  {
    hide Ledger, ReportIds, Ids;
    if st.queue == [] {
      LedgerDone(st.(current := None, running := false, workspace := None));
    } else {
      var d := st.queue[0];
      if api.create(st.calls, d).None? {
        var next := st.(queue := st.queue[1..], current := Some(d), calls := st.calls + 1,
                        results := st.results + [ReportOf(d, Failed)]);
        DrainKeepsLedger(api, next);
        RefusedKeepsOrder(st.results, st.queue);
      } else {
        var request := Request(api.create(st.calls, d).value, d.id);
        LedgerAt(st.(current := Some(d), calls := st.calls + 1, request := Some(request)));
      }
    }
  }

  /** What a decision discards: the waiting documents, when it stops the batch. */
  function Discarded(api: Api, decision: Decision, stop: bool, st: State): seq<string> {
    if stop && GoesThrough(api, decision, st) then Ids(st.queue) else []
  }

  /** A started batch accounts for every selected document, whatever was open before. */
  lemma StartKeepsLedger(api: Api, eligible: Document -> bool, workspace: Option<string>, selected: seq<Document>,
                         limit: nat, st: State)
    requires CanStart(workspace, selected, limit)
    ensures var started := Start(api, eligible, workspace, selected, limit, st);
      Steady(started) && Ledger(started) == Plan(eligible, selected) && started.deleted == st.deleted
  {
    hide Drain, Steady, Ledger;
    DrainKeepsLedger(api, Readied(eligible, workspace, selected, st));
    ReportsIds(Keep(selected, d => !eligible(d)), Skipped);
  }

  /** The state in which a started batch opens its first request. */
  function Readied(eligible: Document -> bool, workspace: Option<string>, selected: seq<Document>, st: State): State {
    st.(mode := Batch, workspace := workspace, running := true,
        results := Reports(Keep(selected, d => !eligible(d)), Skipped), queue := Keep(selected, eligible))
  }

  /** The state after a decision on the open document went through, before the next request is opened. */
  function Decided(decision: Decision, stop: bool, st: State): State
    requires Steady(st) && st.running
  {
    st.(calls := st.calls + 1, request := None, current := None,
        deleted := st.deleted + if decision == AllowOnce then [st.current.value.id] else [],
        results := st.results + [ReportOf(st.current.value, if decision == AllowOnce then Succeeded else Skipped)],
        queue := if stop then [] else st.queue)
  }

  /** The state after a decision on a request that outlived a finished batch. */
  function Settled(decision: Decision, st: State): State
    requires st.request.Some?
  {
    st.(calls := st.calls + 1, request := None,
        deleted := st.deleted + if decision == AllowOnce then [st.request.value.documentId] else [])
  }

  lemma ResolveIs(api: Api, decision: Decision, stop: bool, st: State)
    requires Steady(st)
    ensures Resolve(api, decision, stop, st)
            == if st.request.None? then st
               else if !GoesThrough(api, decision, st) then st.(calls := st.calls + 1)
               else if st.running then Drain(api, Decided(decision, stop, st))
               else Settled(decision, st)
  {
    hide Drain;
    assert st.results + [] == st.results;
  }

  lemma DecidedKeepsLedger(decision: Decision, stop: bool, st: State)
    requires Steady(st) && st.running
    ensures var done := Decided(decision, stop, st);
      ReportIds(done.results) + Ids(done.queue) + (if stop then Ids(st.queue) else []) == Ledger(st)
  {
    var done := Decided(decision, stop, st);
    ReportIdsSnoc(st.results, done.results[|st.results|]);
    hide ReportIds;
    assert done.results == st.results + [done.results[|st.results|]];
    assert Ids([]) == [];
  }

  lemma ResolveKeepsLedger(api: Api, decision: Decision, stop: bool, st: State)
    requires Steady(st)
    ensures var next := Resolve(api, decision, stop, st);
      Steady(next) && Ledger(next) + Discarded(api, decision, stop, st) == Ledger(st)
  {
    ResolveIs(api, decision, stop, st);
    if st.running && GoesThrough(api, decision, st) {
      var done := Decided(decision, stop, st);
      hide Drain, Resolve, Ledger, ReportIds, Ids;
      DrainKeepsLedger(api, done);
      DecidedKeepsLedger(decision, stop, st);
    } else {
      hide Drain, Resolve, ReportIds;
      assert Ledger(st) + [] == Ledger(st);
    }
  }

  // ----- whole batches

  datatype Action = Decide(decision: Decision, stop: bool) | CloseRequest | ClearResults

  function Act(api: Api, a: Action, st: State): State {
    match a
    case Decide(decision, stop) => Resolve(api, decision, stop, st)
    case CloseRequest => Close(st)
    case ClearResults => Clear(st)
  }

  function Run(api: Api, actions: seq<Action>, st: State): State {
    if actions == [] then st
    else Act(api, actions[|actions| - 1], Run(api, actions[..|actions| - 1], st))
  }

  function AllDiscarded(api: Api, actions: seq<Action>, st: State): seq<string> {
    if actions == [] then []
    else
      var last, before := actions[|actions| - 1], Run(api, actions[..|actions| - 1], st);
      (if last.Decide? then Discarded(api, last.decision, last.stop, before) else [])
      + AllDiscarded(api, actions[..|actions| - 1], st)
  }

  /** The reports that clearing took off the screen, oldest first. */
  function Cleared(api: Api, actions: seq<Action>, st: State): seq<Report> {
    if actions == [] then []
    else
      var before := Run(api, actions[..|actions| - 1], st);
      Cleared(api, actions[..|actions| - 1], st)
      + if actions[|actions| - 1].ClearResults? && !before.running then before.results else []
  }

  lemma LedgerAfterClear(st: State)
    requires Steady(st) && !st.running
    ensures Steady(Clear(st)) && Ledger(st) == ReportIds(st.results) && Ledger(Clear(st)) == []
  {
    hide ReportIds;
    NoReports();
    assert ReportIds(st.results) + [] + [] == ReportIds(st.results);
  }

  lemma NoReports()
    ensures ReportIds([]) == []
  {
  }

  lemma ActKeepsLedger(api: Api, a: Action, st: State)
    requires Steady(st)
    ensures var next := Act(api, a, st);
      && Steady(next)
      && (if a.ClearResults? && !st.running then ReportIds(st.results) else []) + Ledger(next)
         + (if a.Decide? then Discarded(api, a.decision, a.stop, st) else []) == Ledger(st)
  {
    match a {
      case Decide(decision, stop) =>
        hide Steady, Ledger, Resolve, Discarded;
        ResolveKeepsLedger(api, decision, stop, st);
        assert [] + Ledger(Act(api, a, st)) == Ledger(Act(api, a, st));
      case CloseRequest =>
        assert [] + Ledger(st) + [] == Ledger(st);
      case ClearResults =>
        if st.running {
          assert [] + Ledger(st) + [] == Ledger(st);
        } else {
          LedgerAfterClear(st);
          hide Ledger, Steady;
          assert ReportIds(st.results) + [] + [] == ReportIds(st.results);
        }
    }
  }

  /** Whatever the decisions, the answers of the server and what is closed or cleared in between: reports cleared and
      shown, open document and waiting documents, followed by what a stop discarded, are the documents the batch began
      with, in order. */
  lemma {:induction false} BatchConservesDocuments(api: Api, actions: seq<Action>, st: State)
    requires Steady(st)
    ensures Steady(Run(api, actions, st))
    ensures ReportIds(Cleared(api, actions, st)) + Ledger(Run(api, actions, st)) + AllDiscarded(api, actions, st)
            == Ledger(st)
  {
    hide Ledger, Steady, Act, Discarded, ReportIds;
    NoReports();
    if actions == [] {
      assert [] + Ledger(st) + [] == Ledger(st);
    } else {
      var init, last := actions[..|actions| - 1], actions[|actions| - 1];
      var before := Run(api, init, st);
      BatchConservesDocuments(api, init, st);
      ActKeepsLedger(api, last, before);
      var gone := if last.ClearResults? && !before.running then before.results else [];
      ReportIdsConcat(Cleared(api, init, st), gone);
      Associate(ReportIds(Cleared(api, init, st)), ReportIds(gone), Ledger(Run(api, actions, st)),
                if last.Decide? then Discarded(api, last.decision, last.stop, before) else [],
                AllDiscarded(api, init, st));
    }
  }

  lemma Associate(a: seq<string>, b: seq<string>, c: seq<string>, d: seq<string>, e: seq<string>)
    ensures (a + b) + c + (d + e) == a + (b + c + d) + e
  {
  }

  predicate NeverStops(actions: seq<Action>) {
    forall a <- actions :: a.Decide? ==> !a.stop
  }

  lemma {:induction false} NothingDiscarded(api: Api, actions: seq<Action>, st: State)
    requires NeverStops(actions)
    ensures AllDiscarded(api, actions, st) == []
  {
    if actions != [] {
      assert actions[|actions| - 1] in actions && forall a <- actions[..|actions| - 1] :: a in actions;
      NothingDiscarded(api, actions[..|actions| - 1], st);
    }
  }

  lemma {:induction false} IdsOfPlan(documents: seq<Document>, eligible: Document -> bool)
    ensures multiset(Plan(eligible, documents)) == multiset(Ids(documents))
  {
    if documents != [] {
      var d, rest := documents[0], documents[1..];
      IdsOfPlan(rest, eligible);
      var skipped, kept := Ids(Keep(rest, d => !eligible(d))), Ids(Keep(rest, eligible));
      assert multiset(Ids(documents)) == multiset{d.id} + multiset(Ids(rest));
      if eligible(d) {
        KeepCons(documents, eligible);
        KeepSkip(documents, d => !eligible(d));
        assert Plan(eligible, documents) == skipped + ([d.id] + kept);
      } else {
        KeepSkip(documents, eligible);
        KeepCons(documents, d => !eligible(d));
        assert Plan(eligible, documents) == [d.id] + skipped + kept;
      }
    }
  }

  lemma KeepCons(documents: seq<Document>, wanted: Document -> bool)
    requires documents != [] && wanted(documents[0])
    ensures Ids(Keep(documents, wanted)) == [documents[0].id] + Ids(Keep(documents[1..], wanted))
  {
    assert ([documents[0]] + Keep(documents[1..], wanted))[1..] == Keep(documents[1..], wanted);
  }

  lemma KeepSkip(documents: seq<Document>, wanted: Document -> bool)
    requires documents != [] && !wanted(documents[0])
    ensures Ids(Keep(documents, wanted)) == Ids(Keep(documents[1..], wanted))
  {
    assert [] + Keep(documents[1..], wanted) == Keep(documents[1..], wanted);
  }

  /** A batch that was never stopped and has finished has made exactly one report for each selected document. */
  lemma FinishedBatchReportsEveryDocument(api: Api, eligible: Document -> bool, workspace: Option<string>,
                                          selected: seq<Document>, limit: nat, actions: seq<Action>, st: State)
    requires CanStart(workspace, selected, limit) && NeverStops(actions)
    requires !Run(api, actions, Start(api, eligible, workspace, selected, limit, st)).running
    ensures var started := Start(api, eligible, workspace, selected, limit, st);
      multiset(ReportIds(Cleared(api, actions, started) + Run(api, actions, started).results)) == multiset(Ids(selected))
  {
    var started := Start(api, eligible, workspace, selected, limit, st);
    StartKeepsLedger(api, eligible, workspace, selected, limit, st);
    BatchConservesDocuments(api, actions, started);
    NothingDiscarded(api, actions, started);
    IdsOfPlan(selected, eligible);
    hide Start, Run, Plan, ReportIds, Cleared;
    var done, cleared := Run(api, actions, started), Cleared(api, actions, started);
    LedgerAfterClear(done);
    ReportIdsConcat(cleared, done.results);
    assert ReportIds(cleared) + ReportIds(done.results) + [] == ReportIds(cleared + done.results);
  }

  /** The work left: each decision that goes through lowers it, so a batch ends. */
  function Left(st: State): nat {
    |st.queue| + if st.running then 1 else 0
  }

  lemma {:induction false} DrainLeavesNoMore(api: Api, st: State)
    ensures Left(Drain(api, st)) <= |st.queue|
    decreases |st.queue|
  {
    if st.queue != [] && api.create(st.calls, st.queue[0]).None? {
      var d := st.queue[0];
      DrainLeavesNoMore(api, st.(queue := st.queue[1..], current := Some(d), calls := st.calls + 1,
                                 results := st.results + [ReportOf(d, Failed)]));
    }
  }

  lemma EveryDecisionAdvances(api: Api, decision: Decision, stop: bool, st: State)
    requires Steady(st) && st.running && GoesThrough(api, decision, st)
    ensures Left(Resolve(api, decision, stop, st)) < Left(st)
  {
    ResolveIs(api, decision, stop, st);
    DrainLeavesNoMore(api, Decided(decision, stop, st));
  }

  /** Those reported as deleted. */
  function SucceededIds(reports: seq<Report>): seq<string> {
    if reports == [] then []
    else
      var last := reports[|reports| - 1];
      SucceededIds(reports[..|reports| - 1]) + if last.status == Succeeded then [last.documentId] else []
  }

  lemma SucceededSnoc(reports: seq<Report>, r: Report)
    ensures SucceededIds(reports + [r]) == SucceededIds(reports) + if r.status == Succeeded then [r.documentId] else []
  {
    assert (reports + [r])[..|reports + [r]| - 1] == reports;
  }

  lemma {:induction false} DrainDeletesNothing(api: Api, st: State)
    ensures SucceededIds(Drain(api, st).results) == SucceededIds(st.results) && Drain(api, st).deleted == st.deleted
    decreases |st.queue|
  {
    if st.queue != [] && api.create(st.calls, st.queue[0]).None? {
      var d := st.queue[0];
      SucceededSnoc(st.results, ReportOf(d, Failed));
      DrainDeletesNothing(api, st.(queue := st.queue[1..], current := Some(d), calls := st.calls + 1,
                                   results := st.results + [ReportOf(d, Failed)]));
    }
  }

  lemma {:induction false} SucceededConcat(a: seq<Report>, b: seq<Report>)
    ensures SucceededIds(a + b) == SucceededIds(a) + SucceededIds(b)
  {
    if b == [] {
      assert a + b == a;
    } else {
      assert (a + b)[..|a + b| - 1] == a + b[..|b| - 1];
      SucceededConcat(a, b[..|b| - 1]);
    }
  }

  /** Of all reports made so far, cleared or shown, those of success are what the server deleted since `before`. */
  predicate Truthful(st: State, cleared: seq<Report>, before: seq<string>) {
    st.deleted == before + SucceededIds(cleared + st.results)
  }

  /** The open request, if any, is that of the batch. */
  predicate NoStaleRequest(st: State) {
    st.running || st.request.None?
  }

  lemma DecisionTellsTheTruth(decision: Decision, stop: bool, st: State, cleared: seq<Report>, before: seq<string>)
    requires Steady(st) && st.running && Truthful(st, cleared, before)
    ensures Truthful(Decided(decision, stop, st), cleared, before)
  {
    hide SucceededIds;
    var report := ReportOf(st.current.value, if decision == AllowOnce then Succeeded else Skipped);
    SucceededSnoc(cleared + st.results, report);
    assert cleared + (st.results + [report]) == cleared + st.results + [report];
    var now := SucceededIds(cleared + st.results);
    assert before + now + [report.documentId] == before + (now + [report.documentId]);
    assert now + [] == now && st.deleted + [] == st.deleted;
  }

  lemma DrainTellsTheTruth(api: Api, st: State, cleared: seq<Report>, before: seq<string>)
    requires Truthful(st, cleared, before)
    ensures Truthful(Drain(api, st), cleared, before)
  {
    hide Drain, SucceededIds;
    DrainDeletesNothing(api, st);
    SucceededConcat(cleared, st.results);
    SucceededConcat(cleared, Drain(api, st).results);
  }

  lemma {:induction false} DrainLeavesNoStaleRequest(api: Api, st: State)
    requires st.request.None? && st.running
    ensures NoStaleRequest(Drain(api, st))
    decreases |st.queue|
  {
    if st.queue != [] && api.create(st.calls, st.queue[0]).None? {
      DrainLeavesNoStaleRequest(api, st.(queue := st.queue[1..], current := Some(st.queue[0]), calls := st.calls + 1,
                                         results := st.results + [ReportOf(st.queue[0], Failed)]));
    }
  }

  lemma ActTellsTheTruth(api: Api, a: Action, st: State, cleared: seq<Report>, before: seq<string>)
    requires Steady(st) && NoStaleRequest(st) && Truthful(st, cleared, before)
    ensures NoStaleRequest(Act(api, a, st))
    ensures Truthful(Act(api, a, st), cleared + (if a.ClearResults? && !st.running then st.results else []), before)
  {
    hide Drain, SucceededIds, Decided;
    assert cleared + [] == cleared;
    match a {
      case Decide(decision, stop) =>
        ResolveIs(api, decision, stop, st);
        hide Resolve;
        if st.running && GoesThrough(api, decision, st) {
          DecisionTellsTheTruth(decision, stop, st, cleared, before);
          DrainTellsTheTruth(api, Decided(decision, stop, st), cleared, before);
          DecidedHasNoRequest(decision, stop, st);
          DrainLeavesNoStaleRequest(api, Decided(decision, stop, st));
        }
      case CloseRequest =>
      case ClearResults =>
        assert cleared + st.results + [] == cleared + st.results;
    }
  }

  lemma DecidedHasNoRequest(decision: Decision, stop: bool, st: State)
    requires Steady(st) && st.running
    ensures Decided(decision, stop, st).request.None? && Decided(decision, stop, st).running
  {
  }

  /** While the open request is the batch's own, the documents reported as deleted are exactly those the server
      deleted, in the same order, whatever is decided, closed or cleared. */
  lemma {:induction false} ReportsTellTheTruth(api: Api, actions: seq<Action>, st: State, before: seq<string>)
    requires Steady(st) && NoStaleRequest(st) && Truthful(st, [], before)
    ensures NoStaleRequest(Run(api, actions, st))
    ensures Truthful(Run(api, actions, st), Cleared(api, actions, st), before)
  {
    hide Steady, Truthful, Act, NoStaleRequest;
    if actions != [] {
      var init, last := actions[..|actions| - 1], actions[|actions| - 1];
      ReportsTellTheTruth(api, init, st, before);
      BatchConservesDocuments(api, init, st);
      ActTellsTheTruth(api, last, Run(api, init, st), Cleared(api, init, st), before);
    }
  }

  // ----- a batch started over an open request

  /** Whatever the server answers to decisions, and whatever is decided, closed or cleared, reports tell the truth. */
  ghost predicate AlwaysTruthful(create: (nat, Document) -> Option<nat>, st: State) {
    forall resolve: (nat, nat, Decision) -> bool, actions: seq<Action> ::
      TruthfulRun(Api(create, resolve), actions, st, st.deleted)
  }

  predicate TruthfulRun(api: Api, actions: seq<Action>, st: State, before: seq<string>) {
    Truthful(Run(api, actions, st), Cleared(api, actions, st), before)
  }

  /** The request of some document in `documents` is accepted when they are asked for in order. */
  predicate SomeAccepted(create: (nat, Document) -> Option<nat>, documents: seq<Document>, calls: nat) {
    documents != [] && (create(calls, documents[0]).Some? || SomeAccepted(create, documents[1..], calls + 1))
  }

  lemma {:induction false} SomeAcceptedIs(create: (nat, Document) -> Option<nat>, documents: seq<Document>, calls: nat)
    ensures SomeAccepted(create, documents, calls)
            <==> exists j: nat :: j < |documents| && create(calls + j, documents[j]).Some?
  {
    if documents != [] {
      SomeAcceptedIs(create, documents[1..], calls + 1);
      if SomeAccepted(create, documents[1..], calls + 1) {
        var j: nat :| j < |documents[1..]| && create(calls + 1 + j, documents[1..][j]).Some?;
        assert create(calls + (j + 1), documents[j + 1]).Some?;
      }
      if exists j: nat :: 0 < j < |documents| && create(calls + j, documents[j]).Some? {
        var j: nat :| 0 < j < |documents| && create(calls + j, documents[j]).Some?;
        assert create(calls + 1 + (j - 1), documents[1..][j - 1]).Some?;
      }
    }
  }

  /** Opening requests ends with one of the batch's own exactly when one is accepted, and otherwise touches none. */
  lemma {:induction false} DrainOpensExactlyWhenAccepted(api: Api, st: State)
    requires st.running
    ensures Drain(api, st).running <==> SomeAccepted(api.create, st.queue, st.calls)
    ensures !Drain(api, st).running ==> Drain(api, st).request == st.request
    decreases |st.queue|
  {
    if st.queue != [] && api.create(st.calls, st.queue[0]).None? {
      DrainOpensExactlyWhenAccepted(api, st.(queue := st.queue[1..], current := Some(st.queue[0]), calls := st.calls + 1,
                                             results := st.results + [ReportOf(st.queue[0], Failed)]));
    }
  }

  lemma {:induction false} SkippedAreNotDeleted(documents: seq<Document>)
    ensures SucceededIds(Reports(documents, Skipped)) == []
  {
    if documents != [] {
      SkippedAreNotDeleted(documents[1..]);
      SucceededConcat([ReportOf(documents[0], Skipped)], Reports(documents[1..], Skipped));
      SucceededSnoc([], ReportOf(documents[0], Skipped));
      assert [] + [ReportOf(documents[0], Skipped)] == [ReportOf(documents[0], Skipped)];
    }
  }

  /** What a start leaves open, and that nothing is reported as deleted yet. */
  lemma StartLeaves(api: Api, eligible: Document -> bool, workspace: Option<string>, selected: seq<Document>, limit: nat,
                    st: State)
    requires CanStart(workspace, selected, limit)
    ensures var started := Start(api, eligible, workspace, selected, limit, st);
      && SucceededIds(started.results) == []
      && (started.running <==> SomeAccepted(api.create, Keep(selected, eligible), st.calls))
      && (!started.running ==> started.request == st.request)
  {
    hide Drain, SucceededIds;
    var ready := Readied(eligible, workspace, selected, st);
    SkippedAreNotDeleted(Keep(selected, d => !eligible(d)));
    DrainOpensExactlyWhenAccepted(api, ready);
    DrainDeletesNothing(api, ready);
  }

  /** Approving a request that outlived its batch deletes a document that no report mentions as deleted. */
  lemma StaleApprovalIsReportedNowhere(api: Api, st: State)
    requires Steady(st) && !NoStaleRequest(st) && GoesThrough(api, AllowOnce, st)
    ensures var now := Run(api, [Decide(AllowOnce, false)], st);
      && now.deleted == st.deleted + [st.request.value.documentId] && now.results == st.results
      && Cleared(api, [Decide(AllowOnce, false)], st) == []
  {
    var a := Decide(AllowOnce, false);
    assert [a][..0] == [] && [a][0] == a;
    ResolveIs(api, AllowOnce, false, st);
    assert Run(api, [], st) == st && Run(api, [a], st) == Act(api, a, st);
  }

  lemma OneKept(d: Document, wanted: Document -> bool)
    ensures Keep([d], wanted) == if wanted(d) then [d] else []
  {
    assert [d][1..] == [] && Keep([], wanted) == [];
  }

  /** A server that refuses every request and lets every decision through. */
  const REFUSING := Api((n: nat, d: Document) => None, (n: nat, id: nat, decision: Decision) => true)

  /** The input: one eligible document is selected while the request for "x" is open, and its own request is refused.
      Approving what is open deletes "x", and the only report is a failure. */
  lemma StaleApprovalExample(eligible: Document -> bool, d: Document, st: State)
    requires eligible(d) && st.request == Some(Request(0, "x")) && st.deleted == []
    ensures var started := Start(REFUSING, eligible, Some("w"), [d], 1, st);
      var now := Run(REFUSING, [Decide(AllowOnce, false)], started);
      !started.running && now.deleted == ["x"] && now.results == [ReportOf(d, Failed)]
  {
    var started, ready := Start(REFUSING, eligible, Some("w"), [d], 1, st), Readied(eligible, Some("w"), [d], st);
    OneKept(d, eligible);
    OneKept(d, d => !eligible(d));
    assert ready.queue == [d] && ready.results == [];
    DrainStep(REFUSING, ready);
    DrainEnd(REFUSING, ready.(queue := [], current := Some(d), calls := st.calls + 1, results := [ReportOf(d, Failed)]));
    StaleApprovalIsReportedNowhere(REFUSING, started);
  }

  /** A batch in which nothing is reported as deleted yet tells the truth under all answers and actions if and only if
      the open request, if any, is its own. */
  lemma TruthfulExactlyWithoutStaleRequest(create: (nat, Document) -> Option<nat>, st: State)
    requires Steady(st) && SucceededIds(st.results) == []
    ensures AlwaysTruthful(create, st) <==> NoStaleRequest(st)
  {
    assert [] + st.results == st.results && st.deleted + [] == st.deleted;
    if NoStaleRequest(st) {
      forall resolve: (nat, nat, Decision) -> bool, actions: seq<Action>
        ensures TruthfulRun(Api(create, resolve), actions, st, st.deleted)
      {
        ReportsTellTheTruth(Api(create, resolve), actions, st, st.deleted);
      }
    } else {
      var resolve: (nat, nat, Decision) -> bool := (n, id, decision) => true;
      StaleApprovalIsReportedNowhere(Api(create, resolve), st);
      assert !TruthfulRun(Api(create, resolve), [Decide(AllowOnce, false)], st, st.deleted);
    }
  }

  /** When a started batch tells the truth: exactly when no request was open, or the request of some eligible selected
      document is accepted and takes its place. */
  lemma StartTellsTheTruthExactlyWhen(api: Api, eligible: Document -> bool, workspace: Option<string>,
                                      selected: seq<Document>, limit: nat, st: State)
    requires CanStart(workspace, selected, limit)
    ensures AlwaysTruthful(api.create, Start(api, eligible, workspace, selected, limit, st))
            <==> st.request.None?
                 || exists j: nat :: j < |Keep(selected, eligible)|
                                  && api.create(st.calls + j, Keep(selected, eligible)[j]).Some?
  {
    hide Start, AlwaysTruthful, SucceededIds, Ledger;
    var started := Start(api, eligible, workspace, selected, limit, st);
    StartKeepsLedger(api, eligible, workspace, selected, limit, st);
    StartLeaves(api, eligible, workspace, selected, limit, st);
    SomeAcceptedIs(api.create, Keep(selected, eligible), st.calls);
    TruthfulExactlyWithoutStaleRequest(api.create, started);
  }

  // ----- a single delete in the middle of a batch

  /** Once a single delete is asked for, nothing that is decided, closed or cleared touches a running batch any more. */
  lemma {:induction false} SingleModeStrandsTheQueue(api: Api, actions: seq<Action>, st: State)
    requires st.mode == Single
    ensures var now := Run(api, actions, st);
      && now.mode == Single && now.queue == st.queue && now.running == st.running
      && (st.running ==> now.results == st.results)
  {
    hide Drain;
    if actions != [] {
      var now := Run(api, actions[..|actions| - 1], st);
      SingleModeStrandsTheQueue(api, actions[..|actions| - 1], st);
      assert now.results + [] == now.results;
    }
  }

  /** A single delete asked for while a batch has a document open loses that document: whatever is decided, closed
      or cleared afterwards, it is never reported, the documents behind it stay in the queue, and the batch stays
      marked as running. */
  lemma SingleDeleteLosesTheOpenDocument(api: Api, workspace: Option<string>, d: Document, actions: seq<Action>, st: State)
    requires Steady(st) && st.running && workspace.Some?
    ensures var now := Run(api, actions, RequestDelete(api, workspace, d, st));
      now.running && now.queue == st.queue && now.results == st.results
  {
    hide Run;
    SingleModeStrandsTheQueue(api, actions, RequestDelete(api, workspace, d, st));
  }
}
