/** What one event does to the projection, in the source's own field names and words
    (apps/gateway/internal/orchestrator/in_memory_bus.go:279-408). */
module AppendedEvents {
  import opened Wrappers
  import opened RuntimeBus

  /** An event that the run's log does not hold yet. */
  predicate Unseen(b: Bus, run: Id, e: Event) {
    run in b.runs && (run in b.events ==> forall i :: 0 <= i < |b.events[run]| ==> b.events[run][i].id != e.id)
  }

  lemma UnseenIsFresh(b: Bus, run: Id, e: Event)
    requires Unseen(b, run, e)
    ensures Fresh(IdsOf(LogOf(b, run)), [e]) == [e] && CopyAll([e]) == [Copy(e)]
  {
    assert [e][1..] == [] && CopyAll([]) == [];
    assert e.id !in IdsOf(LogOf(b, run));
    assert Fresh(IdsOf(LogOf(b, run)) + {e.id}, []) == [];
  }

  /** An unseen event of a known run becomes the last of its log with its id, type, task, run and payload; no other
      log changes. */
  lemma UnseenEventIsLogged(b: Bus, run: Id, e: Event, now: nat)
    requires Unseen(b, run, e)
    ensures var (c, ok) := Append(b, run, [e], now);
      var log := if run in b.events then b.events[run] else [];
      && ok && c.events.Keys == b.events.Keys + {run}
      && (forall r <- b.events :: r != run ==> c.events[r] == b.events[r])
      && |c.events[run]| == |log| + 1 && c.events[run][..|log|] == log
      && var last := c.events[run][|log|];
         && last.id == e.id && last.kind == e.kind && last.taskId == e.taskId && last.runId == e.runId
         && last.body == e.body && last.request == e.request
  {
    UnseenIsFresh(b, run, e);
  }

  /** A batch for a known run leaves the log as it was, followed by the events with unseen ids, alike in every field. */
  lemma BatchIsLogged(b: Bus, run: Id, batch: seq<Event>, now: nat)
    requires run in b.runs
    ensures var c, log := Append(b, run, batch, now).0, LogOf(b, run);
      && |log| <= |LogOf(c, run)| && LogOf(c, run)[..|log|] == log
      && Alike(LogOf(c, run)[|log|..], Fresh(IdsOf(log), batch))
  {
    var added := Fresh(IdsOf(LogOf(b, run)), batch);
    CopiesAreAlike(added);
    if batch != [] && added != [] {
      assert (LogOf(b, run) + CopyAll(added))[|LogOf(b, run)|..] == CopyAll(added);
    }
  }

  const DECISIVE: set<string> := {
    "agent.run.completed", "agent.run.failed", "agent.run.cancelled", "agent.run.paused", "agent.run.resumed"
  }

  /** Five types of event decide the run's status, each in one way; every other type leaves the run as it was. */
  lemma EventTypeDecidesStatus(b: Bus, run: Id, e: Event, now: nat)
    requires Unseen(b, run, e)
    ensures var c := Append(b, run, [e], now).0;
      && c.tasks == b.tasks && c.runs.Keys == b.runs.Keys
      && (forall r <- b.runs :: r != run ==> c.runs[r] == b.runs[r])
      && c.runs[run].id == b.runs[run].id && c.runs[run].taskId == b.runs[run].taskId
      && (e.kind == "agent.run.completed" ==> c.runs[run].status == "completed" && c.runs[run].updatedAt == now)
      && (e.kind == "agent.run.failed" ==> c.runs[run].status == "failed" && c.runs[run].updatedAt == now)
      && (e.kind == "agent.run.cancelled" ==> c.runs[run].status == "cancelled" && c.runs[run].updatedAt == now)
      && (e.kind == "agent.run.paused" ==> c.runs[run].status == "paused" && c.runs[run].updatedAt == now)
      && (e.kind == "agent.run.resumed" ==> c.runs[run].status == "running" && c.runs[run].updatedAt == now)
      && (e.kind !in DECISIVE ==> c.runs[run] == b.runs[run])
  {
    UnseenIsFresh(b, run, e);
    StatusOfOne(e);
  }

  lemma StatusOfOne(e: Event)
    ensures FirstStatus([e]) == StatusOf(e.kind)
  {
    assert [e][1..] == [];
  }

  /** A permission event with a request id makes that request pending, once and for allowing it once or denying it
      unless it says otherwise; every other event leaves the pending requests alone. */
  lemma PermissionEventRegisters(b: Bus, run: Id, e: Event, now: nat)
    requires Unseen(b, run, e)
    ensures var c := Append(b, run, [e], now).0;
      if e.kind == "permission.required" && e.request.Some? && e.request.value.id != "" then
        var raw := e.request.value;
        && c.perms.Keys == b.perms.Keys + {raw.id}
        && (forall q <- b.perms :: q != raw.id ==> c.perms[q] == b.perms[q])
        && var q := c.perms[raw.id];
           && q.id == raw.id && q.runId == raw.runId && q.toolName == raw.toolName
           && (raw.scope.Some? ==> q.scope == raw.scope.value) && (raw.scope.None? ==> q.scope == "once")
           && (raw.allowed != [] ==> q.allowed == raw.allowed)
           && (raw.allowed == [] ==> q.allowed == ["allow_once", "deny"])
      else c.perms == b.perms
  {
    UnseenIsFresh(b, run, e);
    RegisterOneOnly(b.perms, e);
  }

  lemma RegisterOneOnly(perms: map<Id, PermissionRequest>, e: Event)
    ensures RegisterAll(perms, [e]) == RegisterOne(perms, e)
  {
    assert [e][1..] == [] && RegisterAll(RegisterOne(perms, e), []) == RegisterOne(perms, e);
  }

  /** A known event, an unknown run and an empty batch change nothing; only the unknown run is an error. */
  lemma NothingNewChangesNothing(b: Bus, run: Id, e: Event, now: nat)
    requires !Unseen(b, run, e)
    ensures Append(b, run, [e], now) == (b, run in b.runs) && Append(b, run, [], now) == (b, true)
  {
    if run in b.runs {
      assert e.id in IdsOf(LogOf(b, run));
      assert [e][1..] == [] && Fresh(IdsOf(LogOf(b, run)), []) == [];
    }
  }

  /** Seeding, preparing, cancelling and resolving touch one run each, and leave it with exactly this status and log. */
  lemma OperationsOnOneRun(b: Bus, task: Task, run: Run, es: seq<Event>, e: Event, id: Id, now: nat)
    ensures Seed(b, task, run, es)
            == Bus(b.tasks[task.id := task], b.runs[run.id := run], b.events[run.id := es], b.perms)
    ensures Prepare(b, task, run, e)
            == Bus(b.tasks[task.id := task], b.runs[run.id := run], b.events[run.id := [e]], b.perms)
    ensures id !in b.runs ==> Cancel(b, id, e, now) == UpdateStatus(b, id, e.kind, now) == b
    ensures id in b.runs ==>
      && Cancel(b, id, e, now)
         == Bus(b.tasks, b.runs[id := Run(b.runs[id].id, b.runs[id].taskId, "cancelled", now)],
                b.events[id := LogOf(b, id) + [e]], b.perms)
      && UpdateStatus(b, id, e.kind, now)
         == Bus(b.tasks, b.runs[id := Run(b.runs[id].id, b.runs[id].taskId, e.kind, now)], b.events, b.perms)
    ensures id !in b.perms ==> CommitResolve(b, id, es, now) == b
    ensures id in b.perms && b.perms[id].runId in b.runs ==>
      var r := b.perms[id].runId;
      CommitResolve(b, id, es, now)
      == Bus(b.tasks, b.runs[r := Run(b.runs[r].id, b.runs[r].taskId, "completed", now)],
             b.events[r := LogOf(b, r) + es], b.perms - {id})
  {
  }
}
