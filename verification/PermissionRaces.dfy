/** Where permission resolution fails: runs without a stored trace id, and requests that arrive under a second event
    (apps/gateway/internal/orchestrator/redis_runtime_bus.go). */
module PermissionRaces {
  import opened Wrappers
  import opened RuntimeBus
  import opened Permissions

  // ----- runs of steps

  lemma {:induction false} RunConcat(m: Machine, a: seq<Step>, b: seq<Step>)
    ensures RunAll(m, a + b) == RunAll(RunAll(m, a), b)
    decreases |a|
  {
    hide Next;
    if a == [] {
      assert a + b == b;
    } else {
      assert (a + b)[0] == a[0] && (a + b)[1..] == a[1..] + b;
      RunConcat(Next(m, a[0]), a[1..], b);
    }
  }

  lemma RunOne(m: Machine, a: Step)
    ensures RunAll(m, [a]) == Next(m, a)
  {
    hide Next;
    RunCons(m, a, []);
    assert [a] + [] == [a];
  }

  lemma RunTwo(m: Machine, a: Step, b: Step)
    ensures RunAll(m, [a, b]) == Next(Next(m, a), b)
  {
    hide Next;
    RunCons(m, a, [b]);
    assert [a] + [b] == [a, b];
    RunOne(Next(m, a), b);
  }

  // ----- one trace per run, exactly when it is stored

  /** All commands sent for `run` carry the same trace id. */
  predicate OneTrace(commands: seq<Command>, run: Id) {
    forall c <- commands, d <- commands :: CommandRun(c) == run && CommandRun(d) == run ==> c.trace == d.trace
  }

  /** No caller is at work for `run`, and no command was sent for it. */
  predicate Untouched(m: Machine, run: Id) {
    && (forall k <- m.callers :: RunOf(m.callers[k]) != run)
    && (forall c <- m.commands :: CommandRun(c) != run)
  }

  predicate NeverPrepared(steps: seq<Step>, run: Id) {
    forall s <- steps :: s.PrepareRun? ==> s.prepared.id != run
  }

  lemma StoredTraceIsKept(m: Machine, run: Id, steps: seq<Step>)
    requires Untouched(m, run) && run in m.traces && NeverPrepared(steps, run)
    ensures OneTrace(RunAll(m, steps).commands, run)
  {
    hide Next, RunAll;
    PreparedRunHasOneTrace(m, steps, run, m.traces[run]);
  }

  lemma BothBegin(m: Machine, run: Id, i: nat, j: nat)
    requires i != j && i !in m.callers && j !in m.callers && run in m.bus.runs && run !in m.traces
    ensures Next(Next(m, BeginCancel(i, run)), BeginCancel(j, run))
            == m.(callers := m.callers[i := CancelMissed(run)][j := CancelMissed(run)])
  {
  }

  lemma BothCancelsStore(m: Machine, run: Id, i: nat, j: nat, t1: Id, t2: Id)
    requires i != j && i in m.callers && j in m.callers
    requires m.callers[i] == m.callers[j] == CancelMissed(run)
    ensures var n := Next(Next(m, Store(i, t1)), Store(j, t2));
      && i in n.callers && j in n.callers && n.callers[i] == CancelReady(run, t1) && n.callers[j] == CancelReady(run, t2)
      && n.commands == m.commands
  {
  }

  lemma BothCancelsPublish(m: Machine, run: Id, i: nat, j: nat, t1: Id, t2: Id)
    requires i != j && i in m.callers && j in m.callers
    requires m.callers[i] == CancelReady(run, t1) && m.callers[j] == CancelReady(run, t2)
    ensures Next(Next(m, Publish(i, true)), Publish(j, true)).commands
            == m.commands + [RunCancel(run, t1)] + [RunCancel(run, t2)]
  {
  }

  /** Two cancellations that both look before either stores. */
  function CancelRace(run: Id, i: nat, j: nat, t1: Id, t2: Id): seq<Step> {
    [BeginCancel(i, run), BeginCancel(j, run)] + [Store(i, t1), Store(j, t2)] + [Publish(i, true), Publish(j, true)]
  }

  lemma CancelsRace(m: Machine, run: Id, i: nat, j: nat, t1: Id, t2: Id)
    requires i != j && i !in m.callers && j !in m.callers && run in m.bus.runs && run !in m.traces
    ensures RunAll(m, CancelRace(run, i, j, t1, t2)).commands
            == m.commands + [RunCancel(run, t1)] + [RunCancel(run, t2)]
  {
    hide Next, RunAll;
    var begin, store := [BeginCancel(i, run), BeginCancel(j, run)], [Store(i, t1), Store(j, t2)];
    var publish := [Publish(i, true), Publish(j, true)];
    RunConcat(m, begin + store, publish);
    RunConcat(m, begin, store);
    BothBegin(m, run, i, j);
    RunTwo(m, begin[0], begin[1]);
    var begun := RunAll(m, begin);
    BothCancelsStore(begun, run, i, j, t1, t2);
    RunTwo(begun, store[0], store[1]);
    var stored := RunAll(begun, store);
    BothCancelsPublish(stored, run, i, j, t1, t2);
    RunTwo(stored, publish[0], publish[1]);
  }

  lemma {:induction false} Above(keys: set<nat>) returns (k: nat)
    ensures forall x <- keys :: x < k
  {
    if keys == {} {
      k := 0;
    } else {
      var x :| x in keys;
      k := Above(keys - {x});
      k := if x < k then k else x + 1;
      assert forall y <- keys :: y == x || y in keys - {x};
    }
  }

  lemma RaceBreaksOneTrace(m: Machine, run: Id)
    requires run in m.bus.runs && run !in m.traces
    ensures exists steps :: NeverPrepared(steps, run) && !OneTrace(RunAll(m, steps).commands, run)
  {
    hide Next, RunAll;
    var k := Above(m.callers.Keys);
    var steps := CancelRace(run, k, k + 1, "first", "second");
    CancelsRace(m, run, k, k + 1, "first", "second");
    var commands := RunAll(m, steps).commands;
    assert commands[|m.commands|] == RunCancel(run, "first") && commands[|m.commands| + 1] == RunCancel(run, "second");
    assert commands[|m.commands|] in commands && commands[|m.commands| + 1] in commands;
    assert "first"[0] != "second"[0];
    assert NeverPrepared(steps, run);
  }

  /** For a known run that no caller and no command mentions yet: its trace id is stored if and only if every run of
      steps that does not prepare it anew sends all its commands with one trace id. */
  lemma OneTraceExactlyWhenStored(m: Machine, run: Id)
    requires run in m.bus.runs && Untouched(m, run)
    ensures run in m.traces
            <==> forall steps :: NeverPrepared(steps, run) ==> OneTrace(RunAll(m, steps).commands, run)
  {
    hide Next, RunAll, OneTrace, NeverPrepared, Untouched;
    if run in m.traces {
      forall steps | NeverPrepared(steps, run) ensures OneTrace(RunAll(m, steps).commands, run) {
        StoredTraceIsKept(m, run, steps);
      }
    } else {
      RaceBreaksOneTrace(m, run);
    }
  }

  // ----- events that register

  /** An event with an unseen id makes its request pending and enters the log. */
  lemma UnseenEventRegisters(m: Machine, run: Id, e: Event, now: nat)
    requires run in m.bus.runs && Registers(e) && e.id !in IdsOf(LogOf(m.bus, run))
    ensures var n := Next(m, Deliver(run, [e], now));
      && n.bus.perms == m.bus.perms[e.request.value.id := ToRequest(e.request.value)]
      && n.traces == m.traces && n.callers == m.callers && n.commands == m.commands && run in n.bus.runs
      && IdsOf(LogOf(n.bus, run)) == IdsOf(LogOf(m.bus, run)) + {e.id}
  {
    var log := LogOf(m.bus, run);
    assert [e][1..] == [];
    assert Fresh(IdsOf(log), [e]) == [e] + Fresh(IdsOf(log) + {e.id}, []) == [e];
    assert CopyAll([e]) == [Copy(e)] + CopyAll([]) == [Copy(e)];
    assert RegisterAll(m.bus.perms, [e]) == RegisterAll(RegisterOne(m.bus.perms, e), []);
    LogGrows(log, Copy(e));
  }

  lemma LogGrows(log: seq<Event>, e: Event)
    ensures IdsOf(log + [e]) == IdsOf(log) + {e.id}
  {
    var all := log + [e];
    assert all[|log|] == e;
    assert forall i :: 0 <= i < |log| ==> all[i] == log[i];
    forall id | id in IdsOf(log) + {e.id} ensures id in IdsOf(all) {
      if id in IdsOf(log) {
        var i :| 0 <= i < |log| && log[i].id == id;
        assert all[i] in all;
      } else {
        assert all[|log|] in all;
      }
    }
  }

  // ----- the resolver race, from the start

  function Seeded(task: Task, run: Run): Machine {
    Next(IDLE, SeedRun(task, run, []))
  }

  lemma SeededIs(task: Task, run: Run)
    ensures var m := Seeded(task, run);
      && run.id in m.bus.runs && LogOf(m.bus, run.id) == [] && IdsOf(LogOf(m.bus, run.id)) == {}
      && m.traces == map[] && m.callers == map[] && m.commands == [] && m.bus.perms == map[]
  {
  }

  function TwoRequests(task: Task, run: Run, e: Event, f: Event, now: nat): Machine {
    Next(Next(Seeded(task, run), Deliver(run.id, [e], now)), Deliver(run.id, [f], now))
  }

  lemma TwoReserved(m: Machine, a: PermissionRequest, b: PermissionRequest)
    requires a.id != b.id && m.bus.perms == map[a.id := a, b.id := b] && m.callers == map[]
    ensures var n := Next(Next(m, Reserve(0, a.id)), Reserve(1, b.id));
      n.callers == map[0 := Holding(a), 1 := Holding(b)] && n.traces == m.traces && n.commands == m.commands
  {
    var first := Next(m, Reserve(0, a.id));
    assert first.callers == map[0 := Holding(a)];
    assert b.id in first.bus.perms && first.bus.perms[b.id] == b;
  }

  /** The steps of the race, for a run that the gateway was handed without preparing it. */
  function ResolverRace(task: Task, run: Run, e: Event, f: Event, now: nat, t1: Id, t2: Id): seq<Step>
    requires e.request.Some? && f.request.Some?
  {
    [SeedRun(task, run, [])]
    + [Deliver(run.id, [e], now), Deliver(run.id, [f], now)]
    + [Reserve(0, e.request.value.id), Reserve(1, f.request.value.id)]
    + [Lookup(0), Lookup(1)] + [Store(0, t1), Store(1, t2)] + [Publish(0, true), Publish(1, true)]
  }

  lemma BothAreHeld(task: Task, run: Run, e: Event, f: Event, now: nat)
    requires Registers(e) && Registers(f) && e.id != f.id && e.request.value.id != f.request.value.id
    ensures var a, b := ToRequest(e.request.value), ToRequest(f.request.value);
      var n := Next(Next(TwoRequests(task, run, e, f, now), Reserve(0, a.id)), Reserve(1, b.id));
      n.callers == map[0 := Holding(a), 1 := Holding(b)] && n.traces == map[] && n.commands == []
  {
    hide Next, Seeded;
    var m := Seeded(task, run);
    var a, b := ToRequest(e.request.value), ToRequest(f.request.value);
    SeededIs(task, run);
    UnseenEventRegisters(m, run.id, e, now);
    UnseenEventRegisters(Next(m, Deliver(run.id, [e], now)), run.id, f, now);
    var pending := TwoRequests(task, run, e, f, now);
    assert pending.bus.perms == map[a.id := a, b.id := b];
    TwoReserved(pending, a, b);
  }

  /** The race happens from the start: a run is seeded, two requests arrive for it, both are reserved, both callers
      look before either stores, and the two decisions carry different trace ids. */
  lemma ResolverRaceIsReachable(task: Task, run: Run, e: Event, f: Event, now: nat, t1: Id, t2: Id)
    requires Registers(e) && Registers(f) && e.id != f.id && e.request.value.id != f.request.value.id
    requires e.request.value.runId == f.request.value.runId == run.id && t1 != t2
    ensures RunAll(IDLE, ResolverRace(task, run, e, f, now, t1, t2)).commands
            == [Decision(e.request.value.id, run.id, t1), Decision(f.request.value.id, run.id, t2)]
    ensures !OneTrace(RunAll(IDLE, ResolverRace(task, run, e, f, now, t1, t2)).commands, run.id)
  {
    hide Next, RunAll, Seeded;
    var a, b := ToRequest(e.request.value), ToRequest(f.request.value);
    BothAreHeld(task, run, e, f, now);
    var held := Next(Next(TwoRequests(task, run, e, f, now), Reserve(0, a.id)), Reserve(1, b.id));
    UnpreparedRunsRace(held, a, b, 0, 1, t1, t2);
    RaceUnfolds(task, run, e, f, now, t1, t2);
    var commands := RunAll(IDLE, ResolverRace(task, run, e, f, now, t1, t2)).commands;
    assert commands == [Decision(a.id, run.id, t1), Decision(b.id, run.id, t2)];
    assert commands[0] in commands && commands[1] in commands;
  }

  lemma RaceUnfolds(task: Task, run: Run, e: Event, f: Event, now: nat, t1: Id, t2: Id)
    requires e.request.Some? && f.request.Some?
    ensures var held := Next(Next(TwoRequests(task, run, e, f, now), Reserve(0, e.request.value.id)),
                             Reserve(1, f.request.value.id));
      var stored := Next(Next(Next(Next(held, Lookup(0)), Lookup(1)), Store(0, t1)), Store(1, t2));
      RunAll(IDLE, ResolverRace(task, run, e, f, now, t1, t2)) == Next(Next(stored, Publish(0, true)), Publish(1, true))
  {
    hide Next, RunAll;
    var s0, s1 := [SeedRun(task, run, [])], [Deliver(run.id, [e], now), Deliver(run.id, [f], now)];
    var s2, s3 := [Reserve(0, e.request.value.id), Reserve(1, f.request.value.id)], [Lookup(0), Lookup(1)];
    var s4, s5 := [Store(0, t1), Store(1, t2)], [Publish(0, true), Publish(1, true)];
    RunConcat(IDLE, s0 + s1 + s2 + s3 + s4, s5);
    RunConcat(IDLE, s0 + s1 + s2 + s3, s4);
    RunConcat(IDLE, s0 + s1 + s2, s3);
    RunConcat(IDLE, s0 + s1, s2);
    RunConcat(IDLE, s0, s1);
    RunOne(IDLE, s0[0]);
    RunTwo(RunAll(IDLE, s0), s1[0], s1[1]);
    RunTwo(RunAll(IDLE, s0 + s1), s2[0], s2[1]);
    RunTwo(RunAll(IDLE, s0 + s1 + s2), s3[0], s3[1]);
    RunTwo(RunAll(IDLE, s0 + s1 + s2 + s3), s4[0], s4[1]);
    RunTwo(RunAll(IDLE, s0 + s1 + s2 + s3 + s4), s5[0], s5[1]);
  }

  // ----- a second event publishes again

  /** Delivering an event and resolving the request it registers. */
  function Round(run: Id, e: Event, now: nat, k: nat, trace: Id): seq<Step>
    requires e.request.Some?
  {
    [Deliver(run, [e], now), Reserve(k, e.request.value.id)] + [Lookup(k), Store(k, trace)] + [Publish(k, true)]
  }

  lemma HoldAndPublish(m: Machine, k: nat, req: PermissionRequest, trace: Id)
    requires k in m.callers && m.callers[k] == Holding(req)
    ensures var stored := Next(Next(m, Lookup(k)), Store(k, trace));
      && k in stored.callers && stored.callers[k].Ready? && stored.callers[k].req == req
      && stored.bus == m.bus && stored.commands == m.commands && stored.callers - {k} == m.callers - {k}
  {
  }

  lemma SendIs(m: Machine, k: nat)
    requires k in m.callers && m.callers[k].Ready?
    ensures var n := Next(m, Publish(k, true));
      && n.callers == m.callers - {k} && n.bus == m.bus
      && n.commands == m.commands + [Decision(m.callers[k].req.id, m.callers[k].req.runId, m.callers[k].trace)]
  {
  }

  lemma ReserveIs(m: Machine, k: nat, q: Id)
    requires k !in m.callers && q in m.bus.perms
    ensures var n := Next(m, Reserve(k, q));
      && n.callers == m.callers[k := Holding(m.bus.perms[q])] && n.commands == m.commands
      && n.bus.runs == m.bus.runs && n.bus.events == m.bus.events
  {
  }

  /** In every state of a known run, an event with an unseen id lets its request be published once more, whether it was
      published before or not. */
  lemma UnseenEventPublishesOnceMore(m: Machine, run: Id, e: Event, now: nat, k: nat, trace: Id)
    requires run in m.bus.runs && Registers(e) && e.id !in IdsOf(LogOf(m.bus, run)) && k !in m.callers
    ensures var n, q := RunAll(m, Round(run, e, now, k, trace)), e.request.value.id;
      && Published(n.commands, q) == Published(m.commands, q) + 1
      && run in n.bus.runs && IdsOf(LogOf(n.bus, run)) == IdsOf(LogOf(m.bus, run)) + {e.id} && n.callers == m.callers
  {
    hide Next, RunAll, Published;
    var q := e.request.value.id;
    var first, second := [Deliver(run, [e], now), Reserve(k, q)], [Lookup(k), Store(k, trace)];
    RunConcat(m, first + second, [Publish(k, true)]);
    RunConcat(m, first, second);
    RunTwo(m, first[0], first[1]);
    UnseenEventRegisters(m, run, e, now);
    ReserveIs(Next(m, first[0]), k, q);
    var held := RunAll(m, first);
    var req := held.callers[k].req;
    RunTwo(held, second[0], second[1]);
    HoldAndPublish(held, k, req, trace);
    var ready := RunAll(held, second);
    RunOne(ready, Publish(k, true));
    SendIs(ready, k);
    PublishedSnoc(m.commands, Decision(req.id, req.runId, ready.callers[k].trace), q);
    assert held.callers - {k} == m.callers;
  }

  /** A request that arrives under two event ids is published twice. */
  lemma TwoEventsPublishTwice(task: Task, run: Run, e: Event, f: Event, now: nat, trace: Id)
    requires Registers(e) && Registers(f) && e.id != f.id && e.request.value.id == f.request.value.id
    ensures var steps := [SeedRun(task, run, [])] + Round(run.id, e, now, 0, trace) + Round(run.id, f, now, 0, trace);
      Published(RunAll(IDLE, steps).commands, e.request.value.id) == 2
  {
    var q := e.request.value.id;
    assert Published([], q) == 0;
    hide Next, RunAll, Published, Round;
    var seed, r1, r2 := [SeedRun(task, run, [])], Round(run.id, e, now, 0, trace), Round(run.id, f, now, 0, trace);
    RunConcat(IDLE, seed + r1, r2);
    RunConcat(IDLE, seed, r1);
    RunOne(IDLE, seed[0]);
    SeededIs(task, run);
    UnseenEventPublishesOnceMore(Seeded(task, run), run.id, e, now, 0, trace);
    UnseenEventPublishesOnceMore(RunAll(Seeded(task, run), r1), run.id, f, now, 0, trace);
  }

  lemma ReseedForgets(m: Machine, task: Task, run: Run)
    ensures var n := Next(m, SeedRun(task, run, []));
      && run.id in n.bus.runs && IdsOf(LogOf(n.bus, run.id)) == {} && n.callers == m.callers && n.commands == m.commands
  {
  }

  /** A request whose one event is redelivered after its run was seeded again is published twice. */
  lemma ReseedPublishesTwice(task: Task, run: Run, e: Event, now: nat, trace: Id)
    requires Registers(e)
    ensures var seed, round := [SeedRun(task, run, [])], Round(run.id, e, now, 0, trace);
      Published(RunAll(IDLE, seed + round + seed + round).commands, e.request.value.id) == 2
  {
    var q := e.request.value.id;
    assert Published([], q) == 0;
    hide Next, RunAll, Published, Round;
    var seed, round := [SeedRun(task, run, [])], Round(run.id, e, now, 0, trace);
    RunConcat(IDLE, seed + round + seed, round);
    RunConcat(IDLE, seed + round, seed);
    RunConcat(IDLE, seed, round);
    RunOne(IDLE, seed[0]);
    SeededIs(task, run);
    UnseenEventPublishesOnceMore(Seeded(task, run), run.id, e, now, 0, trace);
    var once := RunAll(IDLE, seed + round);
    RunOne(once, seed[0]);
    ReseedForgets(once, task, run);
    UnseenEventPublishesOnceMore(Next(once, seed[0]), run.id, e, now, 0, trace);
  }
}
