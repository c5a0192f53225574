/** The gateway's in-memory projection of runs (apps/gateway/internal/orchestrator/in_memory_bus.go).

    `Bus` is the projection as a value, with one function per operation.
    `InMemoryRuntimeBus` is the mutable object; each method is proved to compute that function. */
module RuntimeBus {
  import opened Wrappers

  type Id = string

  /** The `request` map of a permission.required payload after the Go type assertions:
      a field of the wrong type reads as empty. */
  datatype RawRequest = RawRequest(id: Id, runId: Id, toolName: string, scope: Option<string>, allowed: seq<string>)

  datatype PermissionRequest = PermissionRequest(id: Id, runId: Id, toolName: string, scope: string, allowed: seq<string>)

  datatype Event = Event(id: Id, kind: string, taskId: Id, runId: Id, sequence: nat, body: string, request: Option<RawRequest>)

  datatype Task = Task(id: Id, title: string)

  datatype Run = Run(id: Id, taskId: Id, status: string, updatedAt: nat)

  datatype Bus = Bus(
    tasks: map<Id, Task>, runs: map<Id, Run>, events: map<Id, seq<Event>>, perms: map<Id, PermissionRequest>)

  const EMPTY_BUS := Bus(map[], map[], map[], map[])

  /** A deep copy of an event; the copier does not carry `Sequence` over. */
  function Copy(e: Event): Event {
    e.(sequence := 0)
  }

  function CopyAll(es: seq<Event>): seq<Event> {
    if es == [] then [] else [Copy(es[0])] + CopyAll(es[1..])
  }

  /** Two events that a reader cannot tell apart: equal but for the sequence number. */
  predicate SameEvent(e: Event, f: Event) {
    && e.id == f.id && e.kind == f.kind && e.taskId == f.taskId && e.runId == f.runId
    && e.body == f.body && e.request == f.request
  }

  predicate Alike(a: seq<Event>, b: seq<Event>) {
    |a| == |b| && forall i :: 0 <= i < |a| ==> SameEvent(a[i], b[i])
  }

  lemma {:induction false} CopiesAreAlike(es: seq<Event>)
    ensures Alike(CopyAll(es), es) && forall i :: 0 <= i < |CopyAll(es)| ==> CopyAll(es)[i].sequence == 0
  {
    if es != [] {
      CopiesAreAlike(es[1..]);
      forall i | 0 <= i < |es| ensures SameEvent(CopyAll(es)[i], es[i]) {
        assert i > 0 ==> SameEvent(CopyAll(es[1..])[i - 1], es[1..][i - 1]);
      }
    }
  }

  function IdsOf(es: seq<Event>): set<Id> {
    set e <- es :: e.id
  }

  predicate DistinctIds(es: seq<Event>) {
    forall i, j :: 0 <= i < j < |es| ==> es[i].id != es[j].id
  }

  function LogOf(b: Bus, run: Id): seq<Event> {
    if run in b.events then b.events[run] else []
  }

  /** The events of `batch` whose id is neither known nor repeated earlier in the batch. */
  function Fresh(known: set<Id>, batch: seq<Event>): seq<Event>
    decreases |batch|
  {
    if batch == [] then []
    else if batch[0].id in known then Fresh(known, batch[1..])
    else [batch[0]] + Fresh(known + {batch[0].id}, batch[1..])
  }

  function StatusOf(kind: string): Option<string> {
    if kind == "agent.run.completed" then Some("completed")
    else if kind == "agent.run.failed" then Some("failed")
    else if kind == "agent.run.cancelled" then Some("cancelled")
    else if kind == "agent.run.paused" then Some("paused")
    else if kind == "agent.run.resumed" then Some("running")
    else None
  }

  /** The status carried by the first status-bearing event: the loop stops there. */
  function FirstStatus(es: seq<Event>): Option<string> {
    if es == [] then None
    else if StatusOf(es[0].kind).Some? then StatusOf(es[0].kind)
    else FirstStatus(es[1..])
  }

  function LastStatus(es: seq<Event>): Option<string> {
    if es == [] then None
    else if StatusOf(es[|es| - 1].kind).Some? then StatusOf(es[|es| - 1].kind)
    else LastStatus(es[..|es| - 1])
  }

  function SetStatus(run: Run, status: Option<string>, now: nat): Run {
    match status
    case None => run
    case Some(s) => run.(status := s, updatedAt := now)
  }

  predicate Registers(e: Event) {
    e.kind == "permission.required" && e.request.Some? && e.request.value.id != ""
  }

  function ToRequest(raw: RawRequest): PermissionRequest {
    PermissionRequest(
      raw.id, raw.runId, raw.toolName,
      if raw.scope.Some? then raw.scope.value else "once",
      if raw.allowed == [] then ["allow_once", "deny"] else raw.allowed)
  }

  function RegisterOne(perms: map<Id, PermissionRequest>, e: Event): map<Id, PermissionRequest> {
    if Registers(e) then perms[e.request.value.id := ToRequest(e.request.value)] else perms
  }

  function RegisterAll(perms: map<Id, PermissionRequest>, es: seq<Event>): map<Id, PermissionRequest>
    decreases |es|
  {
    if es == [] then perms else RegisterAll(RegisterOne(perms, es[0]), es[1..])
  }

  /** AppendRuntimeEvents; the second component is false when the run is unknown. */
  function Append(b: Bus, run: Id, batch: seq<Event>, now: nat): (Bus, bool) {
    if batch == [] then (b, true)
    else if run !in b.runs then (b, false)
    else
      var added := Fresh(IdsOf(LogOf(b, run)), batch);
      if added == [] then (b, true)
      else
        (b.(events := b.events[run := LogOf(b, run) + CopyAll(added)],
            runs := b.runs[run := SetStatus(b.runs[run], FirstStatus(added), now)],
            perms := RegisterAll(b.perms, added)), true)
  }

  /** SeedAcceptedRun: the run's event list is replaced, not merged. */
  function Seed(b: Bus, task: Task, run: Run, initial: seq<Event>): Bus {
    b.(tasks := b.tasks[task.id := task], runs := b.runs[run.id := run], events := b.events[run.id := initial])
  }

  function Prepare(b: Bus, task: Task, run: Run, created: Event): Bus {
    b.(tasks := b.tasks[task.id := task], runs := b.runs[run.id := run], events := b.events[run.id := [created]])
  }

  function Cancel(b: Bus, run: Id, generated: Event, now: nat): Bus {
    if run !in b.runs then b
    else b.(runs := b.runs[run := b.runs[run].(status := "cancelled", updatedAt := now)],
            events := b.events[run := LogOf(b, run) + [generated]])
  }

  function UpdateStatus(b: Bus, run: Id, status: string, now: nat): Bus {
    if run !in b.runs then b else b.(runs := b.runs[run := b.runs[run].(status := status, updatedAt := now)])
  }

  function Reserve(b: Bus, request: Id): (Bus, Option<PermissionRequest>) {
    if request !in b.perms then (b, None) else (b.(perms := b.perms - {request}), Some(b.perms[request]))
  }

  function Restore(b: Bus, req: PermissionRequest): Bus {
    if req.id in b.perms then b else b.(perms := b.perms[req.id := req])
  }

  /** commitResolveLocked: consumes the request, appends the generated events to its run, completes the run. */
  function CommitResolve(b: Bus, request: Id, generated: seq<Event>, now: nat): Bus {
    if request !in b.perms then b
    else
      var run := b.perms[request].runId;
      b.(perms := b.perms - {request},
         events := b.events[run := LogOf(b, run) + generated],
         runs := if run in b.runs then b.runs[run := b.runs[run].(status := "completed", updatedAt := now)] else b.runs)
  }

  /** The duplicate filter of AppendRuntimeEvents. */
  method DropKnown(log: seq<Event>, batch: seq<Event>) returns (added: seq<Event>)
    ensures added == Fresh(IdsOf(log), batch)
  {
    var existing := CollectIds(log);
    added := [];
    for i := 0 to |batch|
      invariant added + Fresh(existing, batch[i..]) == Fresh(IdsOf(log), batch)
    {
      assert batch[i..][1..] == batch[i + 1..];
      if batch[i].id !in existing {
        existing := existing + {batch[i].id};
        added := added + [batch[i]];
      }
    }
  }

  method CollectIds(log: seq<Event>) returns (existing: set<Id>)
    ensures existing == IdsOf(log)
  {
    existing := {};
    for i := 0 to |log|
      invariant existing == IdsOf(log[..i])
    {
      existing := existing + {log[i].id};
      assert log[..i + 1] == log[..i] + [log[i]];
    }
    assert log[..|log|] == log;
  }

  /** The status loop of AppendRuntimeEvents, which breaks at the first status-bearing event. */
  method ScanStatus(added: seq<Event>) returns (status: Option<string>)
    ensures status == FirstStatus(added)
  {
    status := None;
    for i := 0 to |added|
      invariant status == None && FirstStatus(added) == FirstStatus(added[i..])
    {
      status := StatusOf(added[i].kind);
      if status.Some? {
        break;
      }
    }
  }

  /** The registration loop of AppendRuntimeEvents. */
  method RegisterRequests(perms: map<Id, PermissionRequest>, added: seq<Event>) returns (r: map<Id, PermissionRequest>)
    ensures r == RegisterAll(perms, added)
  {
    r := perms;
    for i := 0 to |added|
      invariant RegisterAll(r, added[i..]) == RegisterAll(perms, added)
    {
      assert added[i..][1..] == added[i + 1..];
      if Registers(added[i]) {
        r := r[added[i].request.value.id := ToRequest(added[i].request.value)];
      }
    }
  }

  class InMemoryRuntimeBus {
    var tasks: map<Id, Task>
    var runs: map<Id, Run>
    var events: map<Id, seq<Event>>
    var perms: map<Id, PermissionRequest>

    ghost function State(): Bus
      reads this
    {
      Bus(tasks, runs, events, perms)
    }

    constructor ()
      ensures State() == EMPTY_BUS
    {
      tasks, runs, events, perms := map[], map[], map[], map[];
    }

    method AppendRuntimeEvents(run: Id, batch: seq<Event>, now: nat) returns (ok: bool)
      modifies this
      ensures (State(), ok) == Append(old(State()), run, batch, now)
    {
      if |batch| == 0 {
        return true;
      }
      if run !in runs {
        return false;
      }
      var log := if run in events then events[run] else [];
      var added := DropKnown(log, batch);
      if |added| == 0 {
        return true;
      }
      var status := ScanStatus(added);
      var registered := RegisterRequests(perms, added);
      events := events[run := log + CopyAll(added)];
      runs := runs[run := SetStatus(runs[run], status, now)];
      perms := registered;
      return true;
    }

    method SeedAcceptedRun(task: Task, run: Run, initial: seq<Event>)
      modifies this
      ensures State() == Seed(old(State()), task, run, initial)
    {
      tasks := tasks[task.id := task];
      runs := runs[run.id := run];
      events := events[run.id := initial];
    }

    method PrepareMinimalRun(task: Task, run: Run, created: Event)
      modifies this
      ensures State() == Prepare(old(State()), task, run, created)
    {
      tasks := tasks[task.id := task];
      runs := runs[run.id := run];
      events := events[run.id := [created]];
    }

    method CancelRun(run: Id, generated: Event, now: nat) returns (found: bool)
      modifies this
      ensures State() == Cancel(old(State()), run, generated, now) && found == (run in old(runs))
    {
      found := run in runs;
      if found {
        runs := runs[run := runs[run].(status := "cancelled", updatedAt := now)];
        events := events[run := (if run in events then events[run] else []) + [generated]];
      }
    }

    method UpdateRunStatus(run: Id, status: string, now: nat)
      modifies this
      ensures State() == UpdateStatus(old(State()), run, status, now)
    {
      if run in runs {
        runs := runs[run := runs[run].(status := status, updatedAt := now)];
      }
    }

    method ReservePermissionRequest(request: Id) returns (held: Option<PermissionRequest>)
      modifies this
      ensures (State(), held) == Reserve(old(State()), request)
    {
      if request !in perms {
        return None;
      }
      held := Some(perms[request]);
      perms := perms - {request};
    }

    method RestorePermissionRequest(req: PermissionRequest)
      modifies this
      ensures State() == Restore(old(State()), req)
    {
      if req.id !in perms {
        perms := perms[req.id := req];
      }
    }

    method CommitResolvePermission(request: Id, generated: seq<Event>, now: nat) returns (found: bool)
      modifies this
      ensures State() == CommitResolve(old(State()), request, generated, now) && found == (request in old(perms))
    {
      found := request in perms;
      if found {
        var run := perms[request].runId;
        perms := perms - {request};
        events := events[run := (if run in events then events[run] else []) + generated];
        if run in runs {
          runs := runs[run := runs[run].(status := "completed", updatedAt := now)];
        }
      }
    }

    /** Returns the run's events, generating `mock` ones when the run is known but has no event list. */
    method GetEvents(run: Id, mock: seq<Event>) returns (r: Option<seq<Event>>)
      modifies this
      ensures run in old(events) ==> State() == old(State()) && r.Some? && Alike(r.value, old(events)[run])
      ensures run !in old(events) && run !in old(runs) ==> State() == old(State()) && r == None
      ensures run !in old(events) && run in old(runs) ==>
        State() == old(State()).(events := old(events)[run := mock]) && r.Some? && Alike(r.value, mock)
      ensures r.Some? ==> forall i :: 0 <= i < |r.value| ==> r.value[i].sequence == 0
    {
      if run in events {
        CopiesAreAlike(events[run]);
        return Some(CopyAll(events[run]));
      }
      if run !in runs {
        return None;
      }
      events := events[run := mock];
      CopiesAreAlike(mock);
      return Some(CopyAll(mock));
    }
  }
}
