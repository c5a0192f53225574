/** The promises of the delivery protocol, stated over every run. */
module DeliveryResults {
  import opened Wrappers
  import opened RuntimeBus
  import opened StreamGroup
  import opened Delivery
  import opened DeliverySafety
  import Projection

  lemma Reachable(steps: seq<Step>)
    ensures Inv(RunAll(NEW_WORLD, steps))
  {
    RunKeepsInv(NEW_WORLD, steps);
  }

  /** No message is lost: whatever was handed out is pending, acknowledged or dead-lettered, and only
      well-formed messages are acknowledged. */
  lemma NothingIsLost(steps: seq<Step>, id: nat)
    requires id < RunAll(NEW_WORLD, steps).server.last
    ensures var w := RunAll(NEW_WORLD, steps);
      && (id in w.server.pel || id in w.acked || DeadLettered(w.server, id))
      && (id in w.acked ==> id < |w.server.stream| && Valid(w.server.stream[id]))
  {
    Reachable(steps);
    assert Accounted(RunAll(NEW_WORLD, steps), id);
  }

  /** A well-formed event is dead-lettered only from a reclaimed delivery numbered three or more, with the
      retry-exhausted code, at least fifteen seconds after its first delivery; any other record is of a
      message the decoder rejects and carries that rejection's code. */
  lemma DeadLettersAreJustified(steps: seq<Step>, r: Record)
    requires r in RunAll(NEW_WORLD, steps).server.dead
    ensures var w := RunAll(NEW_WORLD, steps);
      && r.message < |w.server.stream| && r.message in w.firstSeen
      && (if Valid(w.server.stream[r.message])
          then r.reclaimed && r.count >= 3 && r.code == RETRY_EXHAUSTED && r.at >= w.firstSeen[r.message] + 15000
          else r.code == ErrorCode(w.server.stream[r.message]) != "")
  {
    Reachable(steps);
    assert RecordOk(RunAll(NEW_WORLD, steps), r);
  }

  /** The time since a pending message's first delivery covers its idle time and every idle time its earlier
      claims required. */
  lemma WaitingIsAccounted(steps: seq<Step>, id: nat)
    requires id in RunAll(NEW_WORLD, steps).server.pel
    ensures var w := RunAll(NEW_WORLD, steps);
      var e := w.server.pel[id];
      && id in w.firstSeen && e.since <= w.server.now
      && w.server.now - w.firstSeen[id] >= (w.server.now - e.since) + e.waited
      && (e.count >= 2 ==> e.waited >= BASE_IDLE)
  {
    Reachable(steps);
    assert EntryOk(RunAll(NEW_WORLD, steps), id);
  }

  // ----- dead-letter records and dedupe keys

  ghost predicate KeysCount(w: World, id: nat) {
    RecordsOf(w.server.dead, id) == w.expired[id] + if id in w.server.keys then 1 else 0
  }

  lemma ScriptKeepsKeysCount(s: Server, r: Record, id: nat)
    ensures var n := MoveToDeadLetter(s, r);
      RecordsOf(n.dead, id) - (if id in n.keys then 1 else 0) == RecordsOf(s.dead, id) - if id in s.keys then 1 else 0
  {
    RecordsSnoc(s.dead, r, id);
  }

  lemma NextKeepsKeysCount(w: World, step: Step, id: nat)
    requires KeysCount(w, id)
    ensures KeysCount(Next(w, step), id)
  {
    if step.Bury? {
      if step.p in w.procs && w.procs[step.p].phase.Burying? {
        ScriptKeepsKeysCount(w.server, RecordOf(w, w.procs[step.p].phase.delivery, w.procs[step.p].phase.code), id);
      }
    }
  }

  lemma {:induction false} RunKeepsKeysCount(w: World, steps: seq<Step>, id: nat)
    requires KeysCount(w, id)
    ensures KeysCount(RunAll(w, steps), id)
    decreases |steps|
  {
    if steps != [] {
      NextKeepsKeysCount(w, steps[0], id);
      RunKeepsKeysCount(Next(w, steps[0]), steps[1..], id);
    }
  }

  /** A message has one dead-letter record for its live dedupe key and one for every key that expired, through
      group loss, full replay and concurrent burials; a message whose key never expired has at most one, and
      has it exactly when the key exists. */
  lemma OneRecordPerKey(steps: seq<Step>, id: nat)
    ensures var w := RunAll(NEW_WORLD, steps);
      && RecordsOf(w.server.dead, id) == w.expired[id] + (if id in w.server.keys then 1 else 0)
      && (w.expired[id] == 0 ==>
            RecordsOf(w.server.dead, id) <= 1 && (id in w.server.keys <==> RecordsOf(w.server.dead, id) == 1))
  {
    RunKeepsKeysCount(NEW_WORLD, steps, id);
  }

  // ----- acknowledged events are projected

  predicate InLog(w: World, p: nat, id: nat) {
    && p in w.procs && id < |w.server.stream| && w.server.stream[id].envelope.Some?
    && var e := w.server.stream[id].envelope.value;
       e.id in IdsOf(LogOf(w.procs[p].bus, e.runId))
  }

  ghost predicate KeepsLogs(b: Bus, c: Bus) {
    forall run :: IdsOf(LogOf(b, run)) <= IdsOf(LogOf(c, run))
  }

  predicate BusOk(b: Bus) {
    b.events.Keys == b.runs.Keys
  }

  /** The operations the Redis-backed bus performs on its projection outside the pump. */
  predicate HandlerOp(op: Projection.Op) {
    op.SeedRun? || op.PrepareRun? || op.SetRunStatus? || op.ReserveRequest? || op.RestoreRequest?
  }

  function Handled(b: Bus, op: Projection.Op): Bus {
    Projection.Step(Projection.Tracked(b, map[]), op).bus
  }

  /** The check a caller can make before handing the operation to the projection. */
  predicate SeedIsSafe(b: Bus, op: Projection.Op) {
    match op
    case SeedRun(_, run, initial) => IdsOf(LogOf(b, run.id)) <= IdsOf(initial)
    case PrepareRun(_, run, created) => IdsOf(LogOf(b, run.id)) <= {created.id}
    case _ => true
  }

  /** A handler operation keeps every logged event if and only if it does not seed a run with a list that
      lacks an event already in the run's log. */
  lemma HandlerKeepsLogsExactly(b: Bus, op: Projection.Op)
    requires HandlerOp(op)
    ensures KeepsLogs(b, Handled(b, op)) <==> SeedIsSafe(b, op)
    ensures BusOk(b) ==> BusOk(Handled(b, op))
  {
    var c := Handled(b, op);
    if op.SeedRun? {
      assert LogOf(c, op.seeded.id) == op.initial;
    } else if op.PrepareRun? {
      assert LogOf(c, op.prepared.id) == [op.created] && IdsOf([op.created]) == {op.created.id};
    } else {
      assert c.events == b.events;
    }
  }

  lemma AppendOneKeepsLogs(b: Bus, e: Event, now: nat)
    requires BusOk(b)
    ensures var (c, ok) := Append(b, e.runId, [e], now);
      BusOk(c) && KeepsLogs(b, c) && (ok <==> e.runId in b.runs) && (ok ==> e.id in IdsOf(LogOf(c, e.runId)))
  {
    var c, log := Append(b, e.runId, [e], now).0, LogOf(b, e.runId);
    assert Fresh(IdsOf(log), [e]) == if e.id in IdsOf(log) then [] else [e];
    if e.runId in b.runs && e.id !in IdsOf(log) {
      Projection.IdsOfConcat(log, CopyAll([e]));
      assert CopyAll([e]) == [Copy(e)] && Copy(e) in [Copy(e)];
      assert LogOf(c, e.runId) == log + [Copy(e)];
    }
  }

  /** No message that process `p` acknowledged is of the same run as message `id`. */
  predicate NoneAcked(w: World, p: nat, id: nat) {
    && id < |w.server.stream| && w.server.stream[id].envelope.Some?
    && forall j <- w.acked :: w.acked[j] == p ==>
         && j < |w.server.stream| && w.server.stream[j].envelope.Some?
         && w.server.stream[j].envelope.value.runId != w.server.stream[id].envelope.value.runId
  }

  /** Acknowledged events and events about to be acknowledged are in their logs; while a process loads a run it has
      acknowledged nothing of that run. */
  ghost predicate Projected(w: World) {
    && (forall p <- w.procs :: BusOk(w.procs[p].bus))
    && (forall id <- w.acked :: w.acked[id] in w.procs ==> InLog(w, w.acked[id], id))
    && (forall p <- w.procs :: w.procs[p].phase.Acking? ==> InLog(w, p, w.procs[p].phase.id))
    && (forall p <- w.procs :: w.procs[p].phase.Loading? ==> NoneAcked(w, p, w.procs[p].phase.delivery.id))
  }

  predicate HandlesSafely(w: World, step: Step) {
    step.Handle? && step.p in w.procs ==> HandlerOp(step.op) && SeedIsSafe(w.procs[step.p].bus, step.op)
  }

  predicate AllHandledSafely(w: World, steps: seq<Step>)
    decreases |steps|
  {
    steps == [] || (HandlesSafely(w, steps[0]) && AllHandledSafely(Next(w, steps[0]), steps[1..]))
  }

  lemma PhasesStand(w: World, n: World, p: nat)
    requires Projected(w) && p in n.procs && n == w.(procs := w.procs[p := n.procs[p]])
    requires n.procs[p].phase.Loading? ==> NoneAcked(n, p, n.procs[p].phase.delivery.id)
    ensures forall q <- n.procs :: n.procs[q].phase.Loading? ==> NoneAcked(n, q, n.procs[q].phase.delivery.id)
  {
    forall q <- n.procs | n.procs[q].phase.Loading? ensures NoneAcked(n, q, n.procs[q].phase.delivery.id) {
      assert q != p ==> NoneAcked(w, q, w.procs[q].phase.delivery.id);
    }
  }

  /** One process's projection changes without losing an event; the rest of the world stands. */
  lemma BusStepKeepsProjected(w: World, n: World, p: nat)
    requires Projected(w) && p in w.procs && p in n.procs
    requires n == w.(procs := w.procs[p := n.procs[p]])
    requires BusOk(n.procs[p].bus) && KeepsLogs(w.procs[p].bus, n.procs[p].bus)
    requires n.procs[p].phase.Acking? ==> InLog(n, p, n.procs[p].phase.id)
    requires n.procs[p].phase.Loading? ==> NoneAcked(n, p, n.procs[p].phase.delivery.id)
    ensures Projected(n)
  {
    PhasesStand(w, n, p);
    forall id <- n.acked | n.acked[id] in n.procs ensures InLog(n, n.acked[id], id) {
      assert InLog(w, w.acked[id], id);
    }
    forall q <- n.procs | n.procs[q].phase.Acking? ensures InLog(n, q, n.procs[q].phase.id) {
      assert q != p ==> InLog(w, q, w.procs[q].phase.id);
    }
  }

  /** A process that does not know a run has acknowledged nothing of it. */
  lemma UnknownRunHasNoneAcked(w: World, p: nat, id: nat)
    requires Inv(w) && Projected(w) && p in w.procs
    requires id < |w.server.stream| && w.server.stream[id].envelope.Some?
    requires w.server.stream[id].envelope.value.runId !in w.procs[p].bus.runs
    ensures NoneAcked(w, p, id)
  {
    forall j <- w.acked | w.acked[j] == p
      ensures && j < |w.server.stream| && w.server.stream[j].envelope.Some?
              && w.server.stream[j].envelope.value.runId != w.server.stream[id].envelope.value.runId
    {
      assert InLog(w, p, j);
      assert BusOk(w.procs[p].bus);
    }
  }

  lemma TakeKeepsProjected(w: World, p: nat, now: nat)
    requires Inv(w) && Projected(w) && p in w.procs && w.procs[p].phase.Idle? && w.procs[p].inbox != []
    requires w.procs[p].inbox[0].id < |w.server.stream|
    ensures Projected(TakeStep(w, p, now))
  {
    var n, d := TakeStep(w, p, now), w.procs[p].inbox[0];
    var m := w.server.stream[d.id];
    if Valid(m) {
      AppendOneKeepsLogs(w.procs[p].bus, m.envelope.value, now);
      if m.envelope.value.runId !in w.procs[p].bus.runs {
        UnknownRunHasNoneAcked(w, p, d.id);
        SameAcked(w, n, p, d.id);
      }
    }
    hide Append, Inv;
    BusStepKeepsProjected(w, n, p);
  }

  lemma SameAcked(w: World, n: World, p: nat, id: nat)
    requires NoneAcked(w, p, id) && n.server == w.server && n.acked == w.acked
    ensures NoneAcked(n, p, id)
  {
  }

  /** Adopting a run empties its log, which holds nothing this process acknowledged. */
  lemma AdoptionKeepsProjected(w: World, n: World, p: nat, task: Task, run: Run)
    requires Projected(w) && p in w.procs && p in n.procs && n == w.(procs := w.procs[p := n.procs[p]])
    requires n.procs[p].bus == Seed(w.procs[p].bus, task, run, []) && n.procs[p].phase.Adopted?
    requires forall j <- w.acked :: w.acked[j] == p ==>
      j < |w.server.stream| && w.server.stream[j].envelope.Some? && w.server.stream[j].envelope.value.runId != run.id
    ensures Projected(n)
  {
    PhasesStand(w, n, p);
    assert BusOk(w.procs[p].bus);
    forall id <- n.acked | n.acked[id] in n.procs ensures InLog(n, n.acked[id], id) {
      assert InLog(w, w.acked[id], id);
    }
    forall q <- n.procs | n.procs[q].phase.Acking? ensures InLog(n, q, n.procs[q].phase.id) {
      assert InLog(w, q, w.procs[q].phase.id);
    }
  }

  lemma LoadKeepsProjected(w: World, p: nat, loaded: Option<(Task, Run)>)
    requires Inv(w) && Projected(w) && p in w.procs && w.procs[p].phase.Loading?
    ensures Projected(LoadStep(w, p, loaded))
  {
    var n, d := LoadStep(w, p, loaded), w.procs[p].phase.delivery;
    assert NoneAcked(w, p, d.id);
    if n.procs[p].phase.Adopted? {
      AdoptionKeepsProjected(w, n, p, loaded.value.0, loaded.value.1);
    } else {
      hide Inv, Valid;
      assert BusOk(w.procs[p].bus);
      BusStepKeepsProjected(w, n, p);
    }
  }

  lemma RetryKeepsProjected(w: World, p: nat, now: nat)
    requires Inv(w) && Projected(w) && p in w.procs && w.procs[p].phase.Adopted?
    ensures Projected(RetryStep(w, p, now))
  {
    var n, d := RetryStep(w, p, now), w.procs[p].phase.delivery;
    assert BusOk(w.procs[p].bus);
    if d.id < |w.server.stream| && Valid(w.server.stream[d.id]) {
      AppendOneKeepsLogs(w.procs[p].bus, w.server.stream[d.id].envelope.value, now);
    }
    hide Append, Inv;
    BusStepKeepsProjected(w, n, p);
  }

  /** A step that leaves every surviving projection alone and starts no acknowledgement and no load. */
  ghost predicate BusesStand(w: World, n: World) {
    && n.acked == w.acked && w.server.stream <= n.server.stream
    && forall q <- n.procs ::
         if q in w.procs then
           && n.procs[q].bus == w.procs[q].bus
           && (n.procs[q].phase == w.procs[q].phase || (!n.procs[q].phase.Acking? && !n.procs[q].phase.Loading?))
         else n.procs[q] == NEW_PROC && q !in w.acked.Values
  }

  lemma OtherStepKeepsProjected(w: World, n: World)
    requires Projected(w) && BusesStand(w, n)
    ensures Projected(n)
  {
    forall id <- n.acked | n.acked[id] in n.procs ensures InLog(n, n.acked[id], id) {
      assert w.acked[id] in w.acked.Values;
      assert InLog(w, w.acked[id], id);
    }
    forall q <- n.procs | n.procs[q].phase.Acking? ensures InLog(n, q, n.procs[q].phase.id) {
      assert InLog(w, q, w.procs[q].phase.id);
    }
    forall q <- n.procs | n.procs[q].phase.Loading? ensures NoneAcked(n, q, n.procs[q].phase.delivery.id) {
      assert NoneAcked(w, q, w.procs[q].phase.delivery.id);
    }
  }

  lemma PumpCallsStand(w: World, p: nat)
    requires p in w.procs
    ensures forall n: nat, outcome {:trigger ReadStep(w, p, n, outcome)} :: BusesStand(w, ReadStep(w, p, n, outcome))
    ensures forall id, outcome {:trigger ClaimStep(w, p, id, outcome)} ::
      id in w.procs[p].scan ==> BusesStand(w, ClaimStep(w, p, id, outcome))
  {
  }

  lemma BuryStands(w: World, p: nat, outcome: Outcome)
    ensures BusesStand(w, Next(w, Bury(p, outcome)))
  {
    if p in w.procs && w.procs[p].phase.Burying? {
      BuryIsOnBuried(w, p, outcome);
      hide Next, RecordOf;
      SettledStands(w, Buried(w, p, outcome), p, outcome);
    }
  }

  lemma SettledStands(w: World, mid: World, p: nat, outcome: Outcome)
    requires mid.procs == w.procs && mid.acked == w.acked && mid.server.stream == w.server.stream && p in w.procs
    ensures BusesStand(w, WithProc(mid, p, Settle(w.procs[p], outcome)))
  {
  }

  lemma OutsideStands(w: World, step: Step)
    requires step.Publish? || step.Tick? || step.Expire? || step.LoseGroup? || step.EnsureGroup?
    ensures BusesStand(w, Next(w, step))
  {
  }

  lemma LifeStands(w: World, step: Step)
    requires step.Start? || step.Die? || step.Scan?
    ensures BusesStand(w, Next(w, step))
  {
  }

  lemma CallStands(w: World, step: Step)
    requires step.Read? || step.TryClaim?
    ensures BusesStand(w, Next(w, step))
  {
    hide ReadStep, ClaimStep;
    if step.p in w.procs {
      PumpCallsStand(w, step.p);
    }
  }

  lemma OtherStepsStand(w: World, step: Step)
    requires !step.Handle? && !step.Take? && !step.Load? && !step.Retry? && !step.SendAck?
    ensures BusesStand(w, Next(w, step))
  {
    hide Next, BusesStand;
    if step.Bury? {
      BuryStands(w, step.p, step.outcome);
    } else if step.Read? || step.TryClaim? {
      CallStands(w, step);
    } else if step.Start? || step.Die? || step.Scan? {
      LifeStands(w, step);
    } else {
      OutsideStands(w, step);
    }
  }

  lemma AckKeepsProjected(w: World, p: nat, outcome: Outcome)
    requires Projected(w) && p in w.procs && w.procs[p].phase.Acking?
    ensures Projected(Next(w, SendAck(p, outcome)))
  {
    var n := Next(w, SendAck(p, outcome));
    assert InLog(w, p, w.procs[p].phase.id);
    forall id <- n.acked | n.acked[id] in n.procs ensures InLog(n, n.acked[id], id) {
      assert InLog(w, n.acked[id], id);
    }
    forall q <- n.procs | n.procs[q].phase.Acking? ensures InLog(n, q, n.procs[q].phase.id) {
      assert InLog(w, q, w.procs[q].phase.id);
    }
    forall q <- n.procs | n.procs[q].phase.Loading? ensures NoneAcked(n, q, n.procs[q].phase.delivery.id) {
      assert NoneAcked(w, q, w.procs[q].phase.delivery.id);
    }
  }

  lemma HandleKeepsProjected(w: World, p: nat, op: Projection.Op)
    requires Projected(w) && p in w.procs && HandlesSafely(w, Handle(p, op))
    ensures Projected(Next(w, Handle(p, op)))
  {
    HandlerKeepsLogsExactly(w.procs[p].bus, op);
    assert w.procs[p].phase.Acking? ==> InLog(w, p, w.procs[p].phase.id);
    assert w.procs[p].phase.Loading? ==> NoneAcked(w, p, w.procs[p].phase.delivery.id);
    BusStepKeepsProjected(w, Next(w, Handle(p, op)), p);
  }

  lemma NextKeepsProjected(w: World, step: Step)
    requires Inv(w) && Projected(w) && HandlesSafely(w, step)
    ensures Projected(Next(w, step))
  {
    hide Inv, Projected, TakeStep, LoadStep, RetryStep, BusesStand;
    if Next(w, step) != w {
      if step.Handle? {
        HandleKeepsProjected(w, step.p, step.op);
      } else if step.Take? {
        TakeKeepsProjected(w, step.p, step.now);
      } else if step.Load? {
        LoadKeepsProjected(w, step.p, step.loaded);
      } else if step.Retry? {
        RetryKeepsProjected(w, step.p, step.now);
      } else if step.SendAck? {
        AckKeepsProjected(w, step.p, step.outcome);
      } else {
        OtherStepsStand(w, step);
        OtherStepKeepsProjected(w, Next(w, step));
      }
    }
  }

  lemma {:induction false} RunKeepsProjected(w: World, steps: seq<Step>)
    requires Inv(w) && Projected(w) && AllHandledSafely(w, steps)
    ensures Projected(RunAll(w, steps))
    decreases |steps|
  {
    if steps != [] {
      NextKeepsInv(w, steps[0]);
      NextKeepsProjected(w, steps[0]);
      RunKeepsProjected(Next(w, steps[0]), steps[1..]);
    }
  }

  /** Acknowledgement safety: an acknowledged message's event is in its run's log at the process that
      acknowledged it, for as long as that process lives. */
  lemma AcknowledgedIsProjected(steps: seq<Step>, id: nat)
    requires AllHandledSafely(NEW_WORLD, steps)
    requires id in RunAll(NEW_WORLD, steps).acked
    ensures var w := RunAll(NEW_WORLD, steps); w.acked[id] in w.procs ==> InLog(w, w.acked[id], id)
  {
    RunKeepsProjected(NEW_WORLD, steps);
  }

  /** Step by step: an entry leaves the pending list only with the group, by the acknowledgement of a process
      that has its event in the log, or by a burial that has left its record. */
  lemma LeavesPendingOnlyWhenSafe(w: World, step: Step, id: nat)
    requires Inv(w) && Projected(w)
    requires id in w.server.pel && id !in Next(w, step).server.pel
    ensures step.LoseGroup?
         || (step.SendAck? && InLog(w, step.p, id) && id in Next(w, step).acked)
         || (step.Bury? && DeadLettered(Next(w, step).server, id))
  {
    assert EntryOk(w, id);
    if step.Bury? {
      BurialLeavesRecord(w, step.p, step.outcome, id);
    } else if step.SendAck? {
      assert InLog(w, step.p, w.procs[step.p].phase.id);
    } else if !step.LoseGroup? {
      PendingStays(w, step, id);
    }
  }

  lemma BurialLeavesRecord(w: World, p: nat, outcome: Outcome, id: nat)
    requires Inv(w) && id in w.server.pel && id !in Next(w, Bury(p, outcome)).server.pel
    ensures DeadLettered(Next(w, Bury(p, outcome)).server, id)
  {
    var r := RecordOf(w, w.procs[p].phase.delivery, w.procs[p].phase.code);
    if r.message in w.server.keys {
      assert DeadLettered(w.server, id);
    } else {
      assert r in Next(w, Bury(p, outcome)).server.dead;
    }
  }

  lemma PendingStays(w: World, step: Step, id: nat)
    requires Inv(w) && id in w.server.pel && !step.Bury? && !step.SendAck? && !step.LoseGroup?
    ensures id in Next(w, step).server.pel
  {
    assert EntryOk(w, id);
  }

  /** Every pending message stays claimable: any resting process can have it delivered again, whatever its
      owner did, once its idle time is up. */
  lemma PendingIsClaimable(steps: seq<Step>, p: nat, id: nat)
    requires var w := RunAll(NEW_WORLD, steps); Resting(w, p) && id in w.server.pel
    ensures var w := RunAll(NEW_WORLD, steps);
      var claimed := RunAll(w, [Tick(4 * BASE_IDLE), Scan(p, {id}), TryClaim(p, id, Done)]);
      && claimed.procs.Keys == w.procs.Keys && claimed.procs[p].inbox == [Delivered(id, w.server.pel[id].count + 1, true)]
      && id in claimed.server.pel && claimed.server.pel[id].owner == p
  {
    Reachable(steps);
    var w := RunAll(NEW_WORLD, steps);
    ClaimAfterWaiting(w, p, id);
    var all := [Tick(4 * BASE_IDLE), Scan(p, {id}), TryClaim(p, id, Done)];
    RunOfThree(w, all[0], all[1], all[2]);
  }

  /** The world once an entry has waited four base intervals and is on the scan list of `p`. */
  function Scanned(w: World, p: nat, id: nat): World {
    Next(Next(w, Tick(4 * BASE_IDLE)), Scan(p, {id}))
  }

  lemma ScannedIs(w: World, p: nat, id: nat)
    requires Resting(w, p) && id in w.server.pel
    ensures var n := Scanned(w, p, id);
      && n.procs.Keys == w.procs.Keys && Resting(n, p) && n.procs[p].scan == map[id := w.server.pel[id].count]
      && n.server == w.server.(now := w.server.now + 4 * BASE_IDLE)
  {
  }

  lemma ClaimAfterWaiting(w: World, p: nat, id: nat)
    requires Inv(w) && Resting(w, p) && id in w.server.pel
    ensures var n := Next(Scanned(w, p, id), TryClaim(p, id, Done));
      && n.procs.Keys == w.procs.Keys && n.procs[p].inbox == [Delivered(id, w.server.pel[id].count + 1, true)]
      && id in n.server.pel && n.server.pel[id].owner == p
  {
    assert EntryOk(w, id);
    ScannedIs(w, p, id);
    hide Scanned, Inv;
    RetryIdleBounds(BASE_IDLE, w.server.pel[id].count, w.server.pel[id].count);
  }

  lemma RunOfThree(w: World, a: Step, b: Step, c: Step)
    ensures RunAll(w, [a, b, c]) == Next(Next(Next(w, a), b), c)
  {
    assert [a, b, c][1..] == [b, c] && [b, c][1..] == [c] && [c][1..] == [];
    assert RunAll(Next(Next(w, a), b), [c]) == Next(Next(Next(w, a), b), c);
    assert RunAll(Next(w, a), [b, c]) == RunAll(Next(Next(w, a), b), [c]);
  }

  // ----- where seeding and adopting lose events

  /** The projection after the pump adopted a run and appended the event that made it. */
  lemma AdoptsAndLogs(b: Bus, e: Event, task: Task, run: Run, now: nat)
    requires run.id == e.runId
    ensures var (c, ok) := Append(Seed(b, task, run, []), e.runId, [e], now); ok && LogOf(c, e.runId) == [Copy(e)]
  {
    assert [e][1..] == [];
    assert Fresh({}, [e]) == [e] + Fresh({e.id}, []);
    assert CopyAll([e]) == [Copy(e)] + CopyAll([]);
    var seeded := Seed(b, task, run, []);
    assert LogOf(seeded, e.runId) == [] && IdsOf([]) == {};
    assert LogOf(Append(seeded, e.runId, [e], now).0, e.runId) == [] + CopyAll([e]);
  }

  /** A world in which process 0 has just been handed the only message, of a run it does not know. */
  predicate JustRead(w: World, e: Event) {
    && w.server.stream == [Message(true, Some(e), true)] && w.server.pel.Keys == {0} && w.acked == map[]
    && w.procs == map[0 := Proc(EMPTY_BUS, map[], [Delivered(0, 1, false)], Idle)]
  }

  lemma JustReadIsReachable(e: Event)
    ensures var w := RunAll(NEW_WORLD, [EnsureGroup, Start(0), Publish(Message(true, Some(e), true))]);
      JustRead(Next(w, Read(0, 32, Done)), e)
  {
    var m := Message(true, Some(e), true);
    RunOfThree(NEW_WORLD, EnsureGroup, Start(0), Publish(m));
    var w := Next(Next(Next(NEW_WORLD, EnsureGroup), Start(0)), Publish(m));
    assert w.server == NEW_SERVER.(grouped := true, stream := [m]) && w.procs == map[0 := NEW_PROC];
    assert Range(1, 1) == [];
    assert Range(0, 1) == [Delivered(0, 1, false)];
  }

  /** The first append fails, and the control plane is asked for the run. */
  lemma JustReadLoads(w: World, e: Event)
    requires JustRead(w, e)
    ensures var n := Next(w, Take(0, 0));
      n == WithProc(w, 0, Proc(EMPTY_BUS, map[], [], Loading(Delivered(0, 1, false))))
  {
    assert [Delivered(0, 1, false)][1..] == [];
    assert Append(EMPTY_BUS, e.runId, [e], 0) == (EMPTY_BUS, false);
  }

  lemma LoadAdopts(w: World, p: nat, e: Event, task: Task, run: Run)
    requires p in w.procs && w.procs[p].phase.Loading? && w.procs[p].phase.delivery.id < |w.server.stream|
    requires w.server.stream[w.procs[p].phase.delivery.id] == Message(true, Some(e), true) && Fits(e, Some((task, run)))
    ensures var d := w.procs[p].phase.delivery;
      Next(w, Load(p, Some((task, run))))
      == WithProc(w, p, w.procs[p].(bus := Seed(w.procs[p].bus, task, run, []), phase := Adopted(d)))
  {
  }

  lemma RetryLogs(w: World, p: nat, e: Event, now: nat)
    requires p in w.procs && w.procs[p].phase.Adopted? && w.procs[p].phase.delivery.id < |w.server.stream|
    requires w.server.stream[w.procs[p].phase.delivery.id] == Message(true, Some(e), true)
    requires Append(w.procs[p].bus, e.runId, [e], now).1
    ensures Next(w, Retry(p, now)) == WithProc(w, p, w.procs[p].(
        bus := Append(w.procs[p].bus, e.runId, [e], now).0, phase := Acking(w.procs[p].phase.delivery.id)))
  {
    hide Append;
  }

  lemma AckingAcknowledges(w: World, p: nat)
    requires p in w.procs && w.procs[p].phase.Acking?
    ensures var n, id := Next(w, SendAck(p, Done)), w.procs[p].phase.id;
      && n.acked == w.acked[id := p] && id !in n.server.pel && n.server.stream == w.server.stream
      && p in n.procs && n.procs[p].bus == w.procs[p].bus
  {
  }

  /** Between the load's answer and the acknowledgement nothing else happens: the log is the event alone. */
  lemma AdoptedAndAcknowledged(w: World, e: Event, task: Task, run: Run)
    requires w.server.stream == [Message(true, Some(e), true)] && w.server.pel.Keys == {0} && w.acked == map[]
    requires 0 in w.procs && w.procs[0].phase == Loading(Delivered(0, 1, false)) && Fits(e, Some((task, run)))
    ensures var n := Next(Next(Next(w, Load(0, Some((task, run)))), Retry(0, 0)), SendAck(0, Done));
      && n.acked == map[0 := 0] && 0 !in n.server.pel && n.server.stream == w.server.stream
      && 0 in n.procs && LogOf(n.procs[0].bus, e.runId) == [Copy(e)]
  {
    LoadAdopts(w, 0, e, task, run);
    AdoptsAndLogs(w.procs[0].bus, e, task, run, 0);
    hide Append, Seed, Next, LogOf;
    var adopted := Next(w, Load(0, Some((task, run))));
    RetryLogs(adopted, 0, e, 0);
    AckingAcknowledges(Next(adopted, Retry(0, 0)), 0);
  }

  /** Where acknowledgement safety ends: the pump adopts an unknown run, logs and acknowledges its first event,
      and the handler that created the run then seeds it. The event is gone from the log for good. */
  lemma LateSeedDropsAcknowledgedEvent(w: World, e: Event, task: Task, run: Run, created: Event)
    requires JustRead(w, e) && Fits(e, Some((task, run))) && created.id != e.id
    ensures var adopted := Next(Next(Next(w, Take(0, 0)), Load(0, Some((task, run)))), Retry(0, 0));
      var acked := Next(adopted, SendAck(0, Done));
      var seeded := Next(acked, Handle(0, Projection.SeedRun(task, run, [created])));
      && 0 in acked.acked && acked.acked[0] == 0 && InLog(acked, 0, 0)
      && 0 in seeded.acked && seeded.acked[0] == 0 && 0 in seeded.procs && !InLog(seeded, 0, 0)
  {
    JustReadLoads(w, e);
    var loading := Next(w, Take(0, 0));
    AdoptedAndAcknowledged(loading, e, task, run);
    var acked := Next(Next(Next(loading, Load(0, Some((task, run)))), Retry(0, 0)), SendAck(0, Done));
    assert Copy(e) in [Copy(e)];
    assert IdsOf([created]) == {created.id};
    hide TakeStep, LoadStep, RetryStep, Settle;
    assert InLog(acked, 0, 0);
  }

  /** The other direction: adopting a run keeps every logged event if and only if the run's log is still empty when
      the control plane's answer arrives. */
  lemma AdoptionKeepsLogsExactly(b: Bus, task: Task, run: Run)
    ensures KeepsLogs(b, Seed(b, task, run, [])) <==> LogOf(b, run.id) == []
  {
    var c := Seed(b, task, run, []);
    assert LogOf(c, run.id) == [] && IdsOf([]) == {};
    if LogOf(b, run.id) != [] {
      assert LogOf(b, run.id)[0].id in IdsOf(LogOf(b, run.id));
    } else {
      forall r ensures IdsOf(LogOf(b, r)) <= IdsOf(LogOf(c, r)) {
      }
    }
  }

  /** A handler that seeds a run while the pump waits for the control plane loses its initial events: the adoption
      empties the log, and only the event being projected is left. */
  lemma AdoptionDropsSeededEvents(w: World, e: Event, task: Task, run: Run, created: Event)
    requires JustRead(w, e) && Fits(e, Some((task, run))) && created.id != e.id
    ensures var seeded := Next(Next(w, Take(0, 0)), Handle(0, Projection.SeedRun(task, run, [created])));
      var acked := Next(Next(Next(seeded, Load(0, Some((task, run)))), Retry(0, 0)), SendAck(0, Done));
      && 0 in seeded.procs && LogOf(seeded.procs[0].bus, run.id) == [created]
      && 0 in acked.procs && LogOf(acked.procs[0].bus, run.id) == [Copy(e)]
  {
    JustReadLoads(w, e);
    var seeded := Next(Next(w, Take(0, 0)), Handle(0, Projection.SeedRun(task, run, [created])));
    assert LogOf(seeded.procs[0].bus, run.id) == [created];
    AdoptedAndAcknowledged(seeded, e, task, run);
  }

  // ----- exactly once

  /** A seed list without repeated ids, which a handler can check before it seeds. */
  predicate SeedsDistinct(step: Step) {
    step.Handle? ==> HandlerOp(step.op) && (step.op.SeedRun? ==> DistinctIds(step.op.initial))
  }

  ghost predicate LogsDistinct(w: World) {
    forall p <- w.procs :: BusDistinct(w.procs[p].bus)
  }

  ghost predicate BusDistinct(b: Bus) {
    forall run <- b.events :: DistinctIds(b.events[run])
  }

  lemma AppendKeepsDistinct(b: Bus, run: Id, e: Event, now: nat)
    requires BusDistinct(b)
    ensures BusDistinct(Append(b, run, [e], now).0)
  {
    var log, c := LogOf(b, run), Append(b, run, [e], now).0;
    FreshOne(IdsOf(log), e);
    if run in b.runs && e.id !in IdsOf(log) {
      assert c.events == b.events[run := log + [Copy(e)]];
      SnocIsDistinct(log, Copy(e));
      SeedKeepsDistinct(b, run, log + [Copy(e)], c);
    }
  }

  lemma FreshOne(known: set<Id>, e: Event)
    ensures Fresh(known, [e]) == if e.id in known then [] else [e]
    ensures CopyAll([e]) == [Copy(e)]
  {
    assert [e][1..] == [] && Fresh(known, []) == [] && Fresh(known + {e.id}, []) == [] && CopyAll([]) == [];
  }

  lemma SnocIsDistinct(log: seq<Event>, e: Event)
    requires DistinctIds(log) && e.id !in IdsOf(log)
    ensures DistinctIds(log + [e])
  {
    forall i | 0 <= i < |log| ensures log[i].id != e.id {
      assert log[i] in log;
    }
  }

  lemma SeedKeepsDistinct(b: Bus, run: Id, log: seq<Event>, c: Bus)
    requires BusDistinct(b) && DistinctIds(log) && c.events == b.events[run := log]
    ensures BusDistinct(c)
  {
  }

  lemma HandledKeepsDistinct(b: Bus, op: Projection.Op)
    requires BusDistinct(b) && HandlerOp(op) && (op.SeedRun? ==> DistinctIds(op.initial))
    ensures BusDistinct(Handled(b, op))
  {
    var c := Handled(b, op);
    if op.SeedRun? {
      SeedKeepsDistinct(b, op.seeded.id, op.initial, c);
    } else if op.PrepareRun? {
      SeedKeepsDistinct(b, op.prepared.id, [op.created], c);
    } else {
      assert c.events == b.events;
    }
  }

  /** A step that changes one process's projection to one with distinct logs, or to none. */
  lemma ProcKeepsDistinct(w: World, n: World, p: nat)
    requires LogsDistinct(w)
    requires forall q <- n.procs :: q != p ==> q in w.procs && n.procs[q].bus == w.procs[q].bus
    requires p in n.procs ==> BusDistinct(n.procs[p].bus)
    ensures LogsDistinct(n)
  {
  }

  lemma PumpKeepsDistinct(w: World, step: Step)
    requires LogsDistinct(w) && (step.Take? || step.Retry?)
    ensures LogsDistinct(Next(w, step))
  {
    var n := Next(w, step);
    if n != w {
      var p := step.p;
      var d := if step.Take? then w.procs[p].inbox[0] else w.procs[p].phase.delivery;
      assert BusDistinct(w.procs[p].bus);
      if d.id < |w.server.stream| && Valid(w.server.stream[d.id]) {
        var e := w.server.stream[d.id].envelope.value;
        AppendKeepsDistinct(w.procs[p].bus, e.runId, e, step.now);
      }
      hide Append, BusDistinct;
      ProcKeepsDistinct(w, n, p);
    }
  }

  lemma LoadKeepsDistinct(w: World, p: nat, loaded: Option<(Task, Run)>)
    requires LogsDistinct(w)
    ensures LogsDistinct(Next(w, Load(p, loaded)))
  {
    var n := Next(w, Load(p, loaded));
    if n != w {
      assert BusDistinct(w.procs[p].bus);
      if n.procs[p].phase.Adopted? {
        SeedKeepsDistinct(w.procs[p].bus, loaded.value.1.id, [], n.procs[p].bus);
      }
      hide BusDistinct;
      ProcKeepsDistinct(w, n, p);
    }
  }

  lemma HandleKeepsDistinct(w: World, p: nat, op: Projection.Op)
    requires LogsDistinct(w) && SeedsDistinct(Handle(p, op))
    ensures LogsDistinct(Next(w, Handle(p, op)))
  {
    if p in w.procs {
      HandledKeepsDistinct(w.procs[p].bus, op);
      hide BusDistinct;
      ProcKeepsDistinct(w, Next(w, Handle(p, op)), p);
    }
  }

  lemma AckStandsDistinct(w: World, p: nat, outcome: Outcome)
    requires LogsDistinct(w)
    ensures LogsDistinct(Next(w, SendAck(p, outcome)))
  {
    hide BusDistinct;
    if p in w.procs {
      ProcKeepsDistinct(w, Next(w, SendAck(p, outcome)), p);
    }
  }

  lemma StandingKeepsDistinct(w: World, n: World)
    requires LogsDistinct(w) && BusesStand(w, n)
    ensures LogsDistinct(n)
  {
    assert BusDistinct(EMPTY_BUS);
    hide BusDistinct;
    forall q <- n.procs ensures BusDistinct(n.procs[q].bus) {
      assert q !in w.procs ==> n.procs[q].bus == EMPTY_BUS;
    }
  }

  lemma NextKeepsDistinct(w: World, step: Step)
    requires LogsDistinct(w) && SeedsDistinct(step)
    ensures LogsDistinct(Next(w, step))
  {
    hide LogsDistinct, Next, BusesStand;
    if step.Handle? {
      HandleKeepsDistinct(w, step.p, step.op);
    } else if step.Take? || step.Retry? {
      PumpKeepsDistinct(w, step);
    } else if step.Load? {
      LoadKeepsDistinct(w, step.p, step.loaded);
    } else if step.SendAck? {
      AckStandsDistinct(w, step.p, step.outcome);
    } else {
      OtherStepsStand(w, step);
      StandingKeepsDistinct(w, Next(w, step));
    }
  }

  lemma {:induction false} RunKeepsDistinct(w: World, steps: seq<Step>)
    requires LogsDistinct(w) && forall s <- steps :: SeedsDistinct(s)
    ensures LogsDistinct(RunAll(w, steps))
    decreases |steps|
  {
    hide LogsDistinct, SeedsDistinct, Next;
    if steps != [] {
      assert steps[0] in steps && forall s <- steps[1..] :: s in steps;
      NextKeepsDistinct(w, steps[0]);
      RunKeepsDistinct(Next(w, steps[0]), steps[1..]);
    }
  }

  /** Exactly once: in every run whose seeds have distinct ids and keep logged events, an acknowledged message's event
      occurs once and only once in its run's log at the living process that acknowledged it, whatever was redelivered,
      replayed or adopted. */
  lemma AcknowledgedExactlyOnce(steps: seq<Step>, id: nat)
    requires AllHandledSafely(NEW_WORLD, steps) && forall s <- steps :: SeedsDistinct(s)
    requires var w := RunAll(NEW_WORLD, steps); id in w.acked && w.acked[id] in w.procs
    ensures var w := RunAll(NEW_WORLD, steps);
      && id < |w.server.stream| && w.server.stream[id].envelope.Some?
      && var e := w.server.stream[id].envelope.value;
         OccursOnce(LogOf(w.procs[w.acked[id]].bus, e.runId), e.id)
  {
    hide RunAll, LogsDistinct, AllHandledSafely, SeedsDistinct;
    var w := RunAll(NEW_WORLD, steps);
    AcknowledgedIsProjected(steps, id);
    NothingDistinctYet();
    RunKeepsDistinct(NEW_WORLD, steps);
    var p, e := w.acked[id], w.server.stream[id].envelope.value;
    DistinctLogOf(w, p, e.runId);
    OneOccurrence(LogOf(w.procs[p].bus, e.runId), e.id);
  }

  lemma NothingDistinctYet()
    ensures LogsDistinct(NEW_WORLD)
  {
  }

  lemma DistinctLogOf(w: World, p: nat, run: Id)
    requires LogsDistinct(w) && p in w.procs
    ensures DistinctIds(LogOf(w.procs[p].bus, run))
  {
    assert BusDistinct(w.procs[p].bus);
  }

  /** Exactly one event of the log has this id. */
  predicate OccursOnce(log: seq<Event>, id: Id) {
    exists i :: 0 <= i < |log| && log[i].id == id && forall j :: 0 <= j < |log| && log[j].id == id ==> j == i
  }

  lemma OneOccurrence(log: seq<Event>, id: Id)
    requires DistinctIds(log) && id in IdsOf(log)
    ensures OccursOnce(log, id)
  {
    var i :| 0 <= i < |log| && log[i].id == id;
    assert forall j :: 0 <= j < |log| && log[j].id == id ==> j == i;
  }
}
