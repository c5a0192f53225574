/** Concurrent permission resolution (apps/gateway/internal/orchestrator/redis_runtime_bus.go).

    Every lock-protected section and every publish is one atomic step; callers interleave at will.
    A permission request is a one-shot token: the steps move it, and the histories count the moves. */
module Permissions {
  import opened Wrappers
  import opened RuntimeBus
  import Projection

  /** A goroutine inside ResolvePermission or CancelRun. */
  datatype Caller =
    | Holding(req: PermissionRequest)
    | Missed(req: PermissionRequest)
    | Ready(req: PermissionRequest, trace: Id)
    | CancelMissed(run: Id)
    | CancelReady(run: Id, trace: Id)

  datatype Command =
    | Decision(request: Id, run: Id, trace: Id)
    | RunCancel(run: Id, trace: Id)

  /** `registered` counts accepted registrations of a request id; `merged` counts tokens that met another
      token of the same id in the pending map. */
  datatype Machine = Machine(
    bus: Bus, traces: map<Id, Id>, callers: map<nat, Caller>, commands: seq<Command>,
    registered: multiset<Id>, merged: multiset<Id>)

  const IDLE := Machine(EMPTY_BUS, map[], map[], [], multiset{}, multiset{})

  datatype Step =
    | Deliver(run: Id, batch: seq<Event>, now: nat)
    | SeedRun(task: Task, seeded: Run, initial: seq<Event>)
    | PrepareRun(task: Task, prepared: Run, created: Event, newTrace: Id)
    | Reserve(k: nat, request: Id)
    | BeginCancel(k: nat, run: Id)
    | Lookup(k: nat)
    | Store(k: nat, newTrace: Id)
    | Publish(k: nat, ok: bool)

  function RequestsOf(es: seq<Event>): multiset<Id>
    decreases |es|
  {
    if es == [] then
      multiset{}
    else
      (if Registers(es[0]) then multiset{es[0].request.value.id} else multiset{}) + RequestsOf(es[1..])
  }

  /** Registrations that overwrite a request which is still pending. */
  function Overwrites(perms: map<Id, PermissionRequest>, es: seq<Event>): multiset<Id>
    decreases |es|
  {
    if es == [] then
      multiset{}
    else
      (if Registers(es[0]) && es[0].request.value.id in perms then multiset{es[0].request.value.id} else multiset{})
      + Overwrites(RegisterOne(perms, es[0]), es[1..])
  }

  function Accepted(b: Bus, run: Id, batch: seq<Event>): seq<Event> {
    if run in b.runs then Fresh(IdsOf(LogOf(b, run)), batch) else []
  }

  function Next(m: Machine, step: Step): Machine {
    match step
    case Deliver(run, batch, now) =>
      var added := Accepted(m.bus, run, batch);
      m.(bus := Append(m.bus, run, batch, now).0,
         registered := m.registered + RequestsOf(added),
         merged := m.merged + Overwrites(m.bus.perms, added))
    case SeedRun(task, run, initial) => m.(bus := Seed(m.bus, task, run, initial))
    case PrepareRun(task, run, created, newTrace) =>
      m.(bus := Prepare(m.bus, task, run, created), traces := m.traces[run.id := newTrace])
    case Reserve(k, request) =>
      if k in m.callers || request !in m.bus.perms then m
      else m.(bus := RuntimeBus.Reserve(m.bus, request).0, callers := m.callers[k := Holding(m.bus.perms[request])])
    case BeginCancel(k, run) =>
      if k in m.callers || run !in m.bus.runs then m
      else m.(callers := m.callers[k := if run in m.traces then CancelReady(run, m.traces[run]) else CancelMissed(run)])
    case Lookup(k) =>
      if k !in m.callers || !m.callers[k].Holding? then m
      else
        var req := m.callers[k].req;
        m.(callers := m.callers[k := if req.runId in m.traces then Ready(req, m.traces[req.runId]) else Missed(req)])
    case Store(k, newTrace) =>
      if k !in m.callers then m
      else (match m.callers[k]
            case Missed(req) =>
              m.(traces := m.traces[req.runId := newTrace], callers := m.callers[k := Ready(req, newTrace)])
            case CancelMissed(run) =>
              m.(traces := m.traces[run := newTrace], callers := m.callers[k := CancelReady(run, newTrace)])
            case _ => m)
    case Publish(k, ok) =>
      if k !in m.callers then m
      else (match m.callers[k]
            case Ready(req, trace) =>
              if ok then
                m.(callers := m.callers - {k}, commands := m.commands + [Decision(req.id, req.runId, trace)])
              else
                m.(callers := m.callers - {k}, bus := Restore(m.bus, req),
                   merged := if req.id in m.bus.perms then m.merged + multiset{req.id} else m.merged)
            case CancelReady(run, trace) =>
              m.(callers := m.callers - {k},
                 commands := if ok then m.commands + [RunCancel(run, trace)] else m.commands)
            case _ => m)
  }

  function RunAll(m: Machine, steps: seq<Step>): Machine
    decreases |steps|
  {
    if steps == [] then m else RunAll(Next(m, steps[0]), steps[1..])
  }

  // ----- where a token can be

  function Pending(m: Machine, request: Id): nat {
    if request in m.bus.perms then 1 else 0
  }

  predicate Holds(c: Caller, request: Id) {
    (c.Holding? || c.Missed? || c.Ready?) && c.req.id == request
  }

  function Holders(m: Machine, request: Id): set<nat> {
    set k <- m.callers | Holds(m.callers[k], request)
  }

  function Published(commands: seq<Command>, request: Id): nat {
    if commands == [] then
      0
    else
      Published(commands[..|commands| - 1], request)
      + if commands[|commands| - 1].Decision? && commands[|commands| - 1].request == request then 1 else 0
  }

  function Live(m: Machine, request: Id): nat {
    Pending(m, request) + |Holders(m, request)| + Published(m.commands, request)
  }

  predicate Keyed(perms: map<Id, PermissionRequest>) {
    forall q <- perms :: perms[q].id == q
  }

  /** Every accepted registration of `q` is pending, held, published or merged into a live one. */
  ghost predicate Conserved(m: Machine, q: Id) {
    && Keyed(m.bus.perms)
    && m.registered[q] == Live(m, q) + m.merged[q]
    && (q in m.merged ==> Live(m, q) > 0)
  }

  lemma {:induction false} RegisterConserves(perms: map<Id, PermissionRequest>, es: seq<Event>, q: Id)
    requires Keyed(perms)
    ensures var after := RegisterAll(perms, es);
      && Keyed(after)
      && RequestsOf(es)[q] + (if q in perms then 1 else 0) == (if q in after then 1 else 0) + Overwrites(perms, es)[q]
      && (q in perms || q in Overwrites(perms, es) ==> q in after)
    decreases |es|
  {
    if es != [] {
      RegisterConserves(RegisterOne(perms, es[0]), es[1..], q);
    }
  }

  lemma DeliverIs(m: Machine, run: Id, batch: seq<Event>, now: nat)
    ensures var n, added := Next(m, Deliver(run, batch, now)), Accepted(m.bus, run, batch);
      && n.bus.perms == RegisterAll(m.bus.perms, added) && n.callers == m.callers && n.commands == m.commands
      && n.registered == m.registered + RequestsOf(added)
      && n.merged == m.merged + Overwrites(m.bus.perms, added)
  {
  }

  lemma SameCallersSameHolders(m: Machine, n: Machine, q: Id)
    requires n.callers == m.callers
    ensures Holders(n, q) == Holders(m, q)
  {
  }

  lemma DeliverConserves(m: Machine, run: Id, batch: seq<Event>, now: nat, q: Id)
    requires Conserved(m, q)
    ensures Conserved(Next(m, Deliver(run, batch, now)), q)
  {
    hide Next, Published, Holders, Accepted, RegisterAll, RequestsOf, Overwrites, Keyed;
    var n, added := Next(m, Deliver(run, batch, now)), Accepted(m.bus, run, batch);
    DeliverIs(m, run, batch, now);
    RegisterConserves(m.bus.perms, added, q);
    SameCallersSameHolders(m, n, q);
  }

  function HeldAt(m: Machine, k: nat, q: Id): nat {
    if k in m.callers && Holds(m.callers[k], q) then 1 else 0
  }

  lemma SameElsewhere<V>(a: map<nat, V>, b: map<nat, V>, k: nat, j: nat)
    requires a - {k} == b - {k} && j != k
    ensures (j in a <==> j in b) && (j in a ==> a[j] == b[j])
  {
    assert j in a - {k} <==> j in a;
    assert j in b - {k} <==> j in b;
    assert j in a ==> (a - {k})[j] == a[j] && (b - {k})[j] == b[j];
  }

  lemma SameHoldersElsewhere(m: Machine, n: Machine, k: nat, q: Id)
    requires n.callers - {k} == m.callers - {k}
    ensures Holders(n, q) - {k} == Holders(m, q) - {k}
  {
    hide Holds;
    forall j | j != k ensures j in Holders(n, q) <==> j in Holders(m, q) {
      SameElsewhere(m.callers, n.callers, k, j);
    }
  }

  lemma CountWithout(s: set<nat>, k: nat)
    ensures |s| == |s - {k}| + if k in s then 1 else 0
  {
    if k in s {
      assert s == s - {k} + {k};
    } else {
      assert s == s - {k};
    }
  }

  lemma OneCallerMoved(m: Machine, n: Machine, k: nat, q: Id)
    requires n.callers - {k} == m.callers - {k}
    ensures |Holders(n, q)| + HeldAt(m, k, q) == |Holders(m, q)| + HeldAt(n, k, q)
  {
    SameHoldersElsewhere(m, n, k, q);
    CountWithout(Holders(m, q), k);
    CountWithout(Holders(n, q), k);
  }

  lemma PublishedSnoc(commands: seq<Command>, c: Command, q: Id)
    ensures Published(commands + [c], q) == Published(commands, q) + if c.Decision? && c.request == q then 1 else 0
  {
    assert (commands + [c])[..|commands + [c]| - 1] == commands;
  }

  /** Conservation seen from one caller: what is held elsewhere does not matter. */
  lemma CallerConserves(m: Machine, n: Machine, k: nat, q: Id)
    requires Conserved(m, q) && Keyed(n.bus.perms) && n.callers - {k} == m.callers - {k}
    requires n.registered == m.registered && n.merged[q] >= m.merged[q]
    requires Pending(n, q) + HeldAt(n, k, q) + Published(n.commands, q) + n.merged[q]
             == Pending(m, q) + HeldAt(m, k, q) + Published(m.commands, q) + m.merged[q]
    requires n.merged[q] > m.merged[q] ==> Pending(n, q) > 0
    ensures Conserved(n, q)
  {
    hide Holders, HeldAt, Published, Keyed, Pending;
    OneCallerMoved(m, n, k, q);
  }

  lemma RemovedTwice<V>(a: map<nat, V>, k: nat)
    ensures a - {k} - {k} == a - {k}
  {
  }

  /** A caller that leaves takes its hold with it. */
  lemma LeavingConserves(m: Machine, n: Machine, k: nat, q: Id)
    requires Conserved(m, q) && Keyed(n.bus.perms) && n.callers == m.callers - {k}
    requires n.registered == m.registered && n.merged[q] >= m.merged[q]
    requires Pending(n, q) + Published(n.commands, q) + n.merged[q]
             == Pending(m, q) + HeldAt(m, k, q) + Published(m.commands, q) + m.merged[q]
    requires n.merged[q] > m.merged[q] ==> Pending(n, q) > 0
    ensures Conserved(n, q)
  {
    RemovedTwice(m.callers, k);
    NothingHeld(n, k, q);
    hide Conserved, HeldAt, Published, Keyed, Pending;
    CallerConserves(m, n, k, q);
  }

  lemma NothingHeld(m: Machine, k: nat, q: Id)
    requires k !in m.callers
    ensures HeldAt(m, k, q) == 0
  {
  }

  lemma SentIs(m: Machine, k: nat)
    requires k in m.callers && m.callers[k].Ready?
    ensures var req, n := m.callers[k].req, Next(m, Publish(k, true));
      && n.callers == m.callers - {k} && n.bus == m.bus && n.registered == m.registered && n.merged == m.merged
      && n.commands == m.commands + [Decision(req.id, req.runId, m.callers[k].trace)]
  {
  }

  lemma SentConserves(m: Machine, k: nat, q: Id)
    requires Conserved(m, q) && k in m.callers && m.callers[k].Ready?
    ensures Conserved(Next(m, Publish(k, true)), q)
  {
    KeyedByConserved(m, q);
    SentIs(m, k);
    hide Next, Conserved, Published, Keyed;
    var req := m.callers[k].req;
    PublishedSnoc(m.commands, Decision(req.id, req.runId, m.callers[k].trace), q);
    LeavingConserves(m, Next(m, Publish(k, true)), k, q);
  }

  lemma KeyedByConserved(m: Machine, q: Id)
    requires Conserved(m, q)
    ensures Keyed(m.bus.perms)
  {
    hide Holders, Published;
  }

  lemma ReturnedIs(m: Machine, k: nat)
    requires k in m.callers && m.callers[k].Ready?
    ensures var req, n := m.callers[k].req, Next(m, Publish(k, false));
      && n.callers == m.callers - {k} && n.commands == m.commands && n.registered == m.registered
      && n.bus.perms == (if req.id in m.bus.perms then m.bus.perms else m.bus.perms[req.id := req])
      && n.merged == if req.id in m.bus.perms then m.merged + multiset{req.id} else m.merged
  {
  }

  lemma ReturnedConserves(m: Machine, k: nat, q: Id)
    requires Conserved(m, q) && k in m.callers && m.callers[k].Ready?
    ensures Conserved(Next(m, Publish(k, false)), q)
  {
    KeyedByConserved(m, q);
    ReturnedIs(m, k);
    hide Next, Conserved, Published;
    LeavingConserves(m, Next(m, Publish(k, false)), k, q);
  }

  lemma CancelIs(m: Machine, k: nat, ok: bool)
    requires k in m.callers && m.callers[k].CancelReady?
    ensures var n := Next(m, Publish(k, ok));
      && n.callers == m.callers - {k} && n.bus == m.bus && n.registered == m.registered && n.merged == m.merged
      && n.commands
         == if ok then m.commands + [RunCancel(m.callers[k].run, m.callers[k].trace)] else m.commands
  {
  }

  lemma CancelConserves(m: Machine, k: nat, ok: bool, q: Id)
    requires Conserved(m, q) && k in m.callers && m.callers[k].CancelReady?
    ensures Conserved(Next(m, Publish(k, ok)), q)
  {
    KeyedByConserved(m, q);
    CancelIs(m, k, ok);
    hide Next, Conserved, Published, Keyed;
    PublishedSnoc(m.commands, RunCancel(m.callers[k].run, m.callers[k].trace), q);
    LeavingConserves(m, Next(m, Publish(k, ok)), k, q);
  }

  lemma PublishConserves(m: Machine, k: nat, ok: bool, q: Id)
    requires Conserved(m, q)
    ensures Conserved(Next(m, Publish(k, ok)), q)
  {
    if k in m.callers && m.callers[k].Ready? {
      if ok {
        SentConserves(m, k, q);
      } else {
        ReturnedConserves(m, k, q);
      }
    } else if k in m.callers && m.callers[k].CancelReady? {
      CancelConserves(m, k, ok, q);
    }
  }

  lemma ReserveConserves(m: Machine, k: nat, request: Id, q: Id)
    requires Conserved(m, q)
    ensures Conserved(Next(m, Reserve(k, request)), q)
  {
    KeyedByConserved(m, q);
    hide Conserved, Published, Holders;
    CallerConserves(m, Next(m, Reserve(k, request)), k, q);
  }

  /** A step that leaves the pending map, the histories and every hold on `q` as they are. */
  predicate Quiet(m: Machine, n: Machine, k: nat, q: Id) {
    && n.callers - {k} == m.callers - {k} && HeldAt(n, k, q) == HeldAt(m, k, q)
    && n.bus.perms == m.bus.perms && n.commands == m.commands
    && n.registered == m.registered && n.merged == m.merged
  }

  lemma QuietConserves(m: Machine, n: Machine, k: nat, q: Id)
    requires Conserved(m, q) && Quiet(m, n, k, q)
    ensures Conserved(n, q)
  {
    KeyedByConserved(m, q);
    hide Conserved, Published, Holders, HeldAt, Keyed;
    CallerConserves(m, n, k, q);
  }

  /** The caller whose hold a step may touch. */
  function CallerOf(step: Step): nat {
    match step
    case Reserve(k, _) => k
    case BeginCancel(k, _) => k
    case Lookup(k) => k
    case Store(k, _) => k
    case Publish(k, _) => k
    case _ => 0
  }

  lemma OtherStepsAreQuiet(m: Machine, step: Step, q: Id)
    requires !step.Deliver? && !step.Reserve? && !step.Publish?
    ensures Quiet(m, Next(m, step), CallerOf(step), q)
  {
  }

  lemma NextConserves(m: Machine, step: Step, q: Id)
    requires Conserved(m, q)
    ensures Conserved(Next(m, step), q)
  {
    hide Next, Conserved, Quiet;
    match step {
      case Deliver(run, batch, now) => DeliverConserves(m, run, batch, now, q);
      case Reserve(k, request) => ReserveConserves(m, k, request, q);
      case Publish(k, ok) => PublishConserves(m, k, ok, q);
      case _ =>
        OtherStepsAreQuiet(m, step, q);
        QuietConserves(m, Next(m, step), CallerOf(step), q);
    }
  }

  lemma {:induction false} RunConserves(m: Machine, steps: seq<Step>, q: Id)
    requires Conserved(m, q)
    ensures Conserved(RunAll(m, steps), q)
    decreases |steps|
  {
    if steps != [] {
      NextConserves(m, steps[0], q);
      RunConserves(Next(m, steps[0]), steps[1..], q);
    }
  }

  /** Token conservation over every interleaving. */
  lemma TokensAreConserved(steps: seq<Step>, q: Id)
    ensures var m := RunAll(IDLE, steps);
      m.registered[q] == Pending(m, q) + |Holders(m, q)| + Published(m.commands, q) + m.merged[q]
  {
    assert Holders(IDLE, q) == {};
    RunConserves(IDLE, steps, q);
  }

  /** A request registered once is in exactly one place, so it is published at most once and never while
      it is pending or held. */
  lemma RegisteredOnceIsInOnePlace(steps: seq<Step>, q: Id)
    requires RunAll(IDLE, steps).registered[q] == 1
    ensures var m := RunAll(IDLE, steps);
      Pending(m, q) + |Holders(m, q)| + Published(m.commands, q) == 1
  {
    assert Holders(IDLE, q) == {};
    RunConserves(IDLE, steps, q);
  }

  /** A failed publish makes the request resolvable again. */
  lemma FailedPublishIsRetryable(steps: seq<Step>, k: nat, other: nat)
    requires var m := RunAll(IDLE, steps); k in m.callers && m.callers[k].Ready?
    requires other !in RunAll(IDLE, steps).callers
    ensures var m := RunAll(IDLE, steps);
      var q := m.callers[k].req.id;
      var failed := Next(m, Publish(k, false));
      && q in failed.bus.perms && failed.commands == m.commands
      && Next(failed, Reserve(other, q)).callers == failed.callers[other := Holding(failed.bus.perms[q])]
      && q !in Next(failed, Reserve(other, q)).bus.perms
  {
  }

  // ----- when is a request registered once?

  /** Every registration of `q` arrives as event `id` of run `run`, and a re-seed keeps that event once it is logged. */
  predicate OneSource(m: Machine, q: Id, run: Id, id: Id, step: Step) {
    match step
    case Deliver(r, batch, _) =>
      forall e <- batch :: Registers(e) && e.request.value.id == q ==> e.id == id && r == run
    case SeedRun(_, r, initial) => r.id == run && id in IdsOf(LogOf(m.bus, run)) ==> id in IdsOf(initial)
    case PrepareRun(_, r, created, _) => r.id == run && id in IdsOf(LogOf(m.bus, run)) ==> id == created.id
    case _ => true
  }

  predicate OneSourceAll(m: Machine, q: Id, run: Id, id: Id, steps: seq<Step>)
    decreases |steps|
  {
    steps == [] || (OneSource(m, q, run, id, steps[0]) && OneSourceAll(Next(m, steps[0]), q, run, id, steps[1..]))
  }

  lemma {:induction false} FreshIsFromBatch(known: set<Id>, batch: seq<Event>)
    ensures forall e <- Fresh(known, batch) :: e in batch
    decreases |batch|
  {
    if batch != [] {
      FreshIsFromBatch(known, batch[1..]);
      FreshIsFromBatch(known + {batch[0].id}, batch[1..]);
    }
  }

  lemma {:induction false} RequestsFromOneEvent(es: seq<Event>, q: Id, id: Id)
    requires DistinctIds(es)
    requires forall e <- es :: Registers(e) && e.request.value.id == q ==> e.id == id
    ensures RequestsOf(es)[q] <= if id in IdsOf(es) then 1 else 0
    decreases |es|
  {
    if es != [] {
      assert es[0] in es && forall e <- es[1..] :: e in es;
      if es[0].id == id {
        NoRequests(es[1..], q, id);
      } else {
        RequestsFromOneEvent(es[1..], q, id);
      }
    }
  }

  lemma {:induction false} NoRequests(es: seq<Event>, q: Id, id: Id)
    requires forall e <- es :: Registers(e) && e.request.value.id == q ==> e.id == id
    requires forall e <- es :: e.id != id
    ensures RequestsOf(es)[q] == 0
    decreases |es|
  {
    if es != [] {
      assert es[0] in es && forall e <- es[1..] :: e in es;
      NoRequests(es[1..], q, id);
    }
  }

  predicate RegisteredByLog(m: Machine, q: Id, run: Id, id: Id) {
    m.registered[q] <= if id in IdsOf(LogOf(m.bus, run)) then 1 else 0
  }

  lemma DeliverFromOneSource(m: Machine, q: Id, run: Id, id: Id, r: Id, batch: seq<Event>, now: nat)
    requires RegisteredByLog(m, q, run, id) && OneSource(m, q, run, id, Deliver(r, batch, now))
    ensures RegisteredByLog(Next(m, Deliver(r, batch, now)), q, run, id)
  {
    var log, added := LogOf(m.bus, r), Accepted(m.bus, r, batch);
    FreshIsFromBatch(IdsOf(log), batch);
    Projection.FreshAvoids(IdsOf(log), batch);
    if r != run {
      forall e <- added ensures !(Registers(e) && e.request.value.id == q) {
        assert e in batch;
      }
      NoneRegister(added, q);
    } else if added != [] {
      Projection.CopyKeepsIds(added);
      Projection.IdsOfConcat(log, CopyAll(added));
      if id in IdsOf(log) {
        forall e <- added ensures e.id != id {
          assert e.id in IdsOf(added);
        }
        NoRequests(added, q, id);
      } else {
        RequestsFromOneEvent(added, q, id);
      }
    }
  }

  lemma {:induction false} NoneRegister(es: seq<Event>, q: Id)
    requires forall e <- es :: !(Registers(e) && e.request.value.id == q)
    ensures RequestsOf(es)[q] == 0
    decreases |es|
  {
    if es != [] {
      assert es[0] in es && forall e <- es[1..] :: e in es;
      NoneRegister(es[1..], q);
    }
  }

  lemma {:induction false} OneSourceRegistersOnce(m: Machine, q: Id, run: Id, id: Id, steps: seq<Step>)
    requires RegisteredByLog(m, q, run, id) && OneSourceAll(m, q, run, id, steps)
    ensures RegisteredByLog(RunAll(m, steps), q, run, id)
    decreases |steps|
  {
    if steps != [] {
      match steps[0] {
        case Deliver(r, batch, now) => DeliverFromOneSource(m, q, run, id, r, batch, now);
        case PrepareRun(_, r, created, _) => assert created in [created];
        case _ =>
      }
      OneSourceRegistersOnce(Next(m, steps[0]), q, run, id, steps[1..]);
    }
  }

  /** A request that only ever arrives as one event id is published at most once, however often that event
      is redelivered and however its resolvers interleave. */
  lemma OneEventIsPublishedAtMostOnce(steps: seq<Step>, q: Id, run: Id, id: Id)
    requires OneSourceAll(IDLE, q, run, id, steps)
    ensures Published(RunAll(IDLE, steps).commands, q) <= 1
    ensures Published(RunAll(IDLE, steps).commands, q) == 1 ==>
      q !in RunAll(IDLE, steps).bus.perms && Holders(RunAll(IDLE, steps), q) == {}
  {
    OneSourceRegistersOnce(IDLE, q, run, id, steps);
    TokensAreConserved(steps, q);
  }

  /** A registering event brings a request that is not pending back if and only if the run's log lacks its id:
      redelivery revives nothing, a second event id (or a re-seed that drops the first) does. */
  lemma RevivedExactlyByUnseenEvent(m: Machine, run: Id, e: Event, now: nat)
    requires run in m.bus.runs && Registers(e) && e.request.value.id !in m.bus.perms
    ensures var n := Next(m, Deliver(run, [e], now));
      && (e.request.value.id in n.bus.perms <==> e.id !in IdsOf(LogOf(m.bus, run)))
      && (e.id in IdsOf(LogOf(m.bus, run)) ==> n == m)
  {
    var known := IdsOf(LogOf(m.bus, run));
    assert Fresh(known, [e]) == if e.id in known then [] else [e];
    assert [e][1..] == [];
    assert RegisterAll(m.bus.perms, [e]) == RegisterOne(m.bus.perms, e);
    assert m.registered + multiset{} == m.registered && m.merged + multiset{} == m.merged;
  }

  // ----- trace ids

  function RunOf(c: Caller): Id {
    if c.CancelMissed? || c.CancelReady? then c.run else c.req.runId
  }

  function CommandRun(c: Command): Id {
    c.run
  }

  /** Run `run` has trace `trace`, nobody is about to replace it, and every command sent or about to be sent
      for the run carries it. */
  ghost predicate Uniform(m: Machine, run: Id, trace: Id) {
    && run in m.traces && m.traces[run] == trace
    && (forall k <- m.callers :: RunOf(m.callers[k]) == run ==>
         !m.callers[k].Missed? && !m.callers[k].CancelMissed? &&
         (m.callers[k].Ready? || m.callers[k].CancelReady? ==> m.callers[k].trace == trace))
    && (forall c <- m.commands :: CommandRun(c) == run ==> c.trace == trace)
  }

  lemma NextKeepsUniform(m: Machine, step: Step, run: Id, trace: Id)
    requires Uniform(m, run, trace)
    requires step.PrepareRun? ==> step.prepared.id != run
    ensures Uniform(Next(m, step), run, trace)
  {
  }

  /** Preparing a run that no caller and no command mentions yet gives it its one trace. */
  lemma PreparingGivesOneTrace(m: Machine, task: Task, prepared: Run, created: Event, trace: Id)
    requires forall k <- m.callers :: RunOf(m.callers[k]) != prepared.id
    requires forall c <- m.commands :: CommandRun(c) != prepared.id
    ensures Uniform(Next(m, PrepareRun(task, prepared, created, trace)), prepared.id, trace)
  {
  }

  /** A run prepared with a trace id keeps it: every command ever sent for the run carries that id. */
  lemma {:induction false} PreparedRunHasOneTrace(m: Machine, steps: seq<Step>, run: Id, trace: Id)
    requires Uniform(m, run, trace)
    requires forall s <- steps :: s.PrepareRun? ==> s.prepared.id != run
    ensures Uniform(RunAll(m, steps), run, trace)
    decreases |steps|
  {
    if steps != [] {
      assert steps[0] in steps;
      NextKeepsUniform(m, steps[0], run, trace);
      PreparedRunHasOneTrace(Next(m, steps[0]), steps[1..], run, trace);
    }
  }

  /** Callers `i` and `j` are at work, as `x` and `y`. */
  predicate AtWork(m: Machine, i: nat, j: nat, x: Caller, y: Caller) {
    i in m.callers && j in m.callers && m.callers[i] == x && m.callers[j] == y
  }

  lemma BothLook(m: Machine, a: PermissionRequest, b: PermissionRequest, i: nat, j: nat)
    requires i != j && a.runId !in m.traces && b.runId !in m.traces && AtWork(m, i, j, Holding(a), Holding(b))
    ensures var n := Next(Next(m, Lookup(i)), Lookup(j));
      AtWork(n, i, j, Missed(a), Missed(b)) && n.commands == m.commands
  {
  }

  lemma BothStore(m: Machine, a: PermissionRequest, b: PermissionRequest, i: nat, j: nat, t1: Id, t2: Id)
    requires i != j && AtWork(m, i, j, Missed(a), Missed(b))
    ensures var n := Next(Next(m, Store(i, t1)), Store(j, t2));
      AtWork(n, i, j, Ready(a, t1), Ready(b, t2)) && n.commands == m.commands
  {
  }

  lemma BothPublish(m: Machine, a: PermissionRequest, b: PermissionRequest, i: nat, j: nat, t1: Id, t2: Id)
    requires i != j && AtWork(m, i, j, Ready(a, t1), Ready(b, t2))
    ensures Next(Next(m, Publish(i, true)), Publish(j, true)).commands
         == m.commands + [Decision(a.id, a.runId, t1)] + [Decision(b.id, b.runId, t2)]
  {
  }

  /** Without a stored trace id, two callers that both look before either stores send different ids. */
  lemma UnpreparedRunsRace(m: Machine, a: PermissionRequest, b: PermissionRequest, i: nat, j: nat, t1: Id, t2: Id)
    requires i != j && t1 != t2 && a.runId == b.runId && a.runId !in m.traces
    requires AtWork(m, i, j, Holding(a), Holding(b))
    ensures var looked := Next(Next(m, Lookup(i)), Lookup(j));
      var stored := Next(Next(looked, Store(i, t1)), Store(j, t2));
      Next(Next(stored, Publish(i, true)), Publish(j, true)).commands
        == m.commands + [Decision(a.id, a.runId, t1)] + [Decision(b.id, b.runId, t2)]
  {
    hide Next, AtWork;
    var looked := Next(Next(m, Lookup(i)), Lookup(j));
    BothLook(m, a, b, i, j);
    BothStore(looked, a, b, i, j, t1, t2);
    BothPublish(Next(Next(looked, Store(i, t1)), Store(j, t2)), a, b, i, j, t1, t2);
  }

  lemma RunCons(m: Machine, a: Step, rest: seq<Step>)
    ensures RunAll(m, [a] + rest) == RunAll(Next(m, a), rest)
  {
    assert ([a] + rest)[1..] == rest;
  }

  lemma RunOfFour(m: Machine, a: Step, b: Step, c: Step, d: Step)
    ensures RunAll(m, [a, b, c, d]) == Next(Next(Next(Next(m, a), b), c), d)
  {
    assert [a, b, c, d] == [a] + [b, c, d] && [b, c, d] == [b] + [c, d] && [c, d] == [c] + [d] && [d] == [d] + [];
    RunCons(m, a, [b, c, d]);
    RunCons(Next(m, a), b, [c, d]);
    RunCons(Next(Next(m, a), b), c, [d]);
    RunCons(Next(Next(Next(m, a), b), c), d, []);
  }

  // ----- the object

  /** RedisRuntimeBus, as far as permission resolution uses it. */
  class RedisRuntimeBus {
    const inMemory: InMemoryRuntimeBus
    var traceIDs: map<Id, Id>
    var published: seq<Command>

    constructor ()
      ensures fresh(inMemory) && inMemory.State() == EMPTY_BUS && traceIDs == map[] && published == []
    {
      inMemory := new InMemoryRuntimeBus();
      traceIDs, published := map[], [];
    }

    /** The machine with this object's state and no other caller at work. */
    ghost function Alone(): Machine
      reads this, inMemory
    {
      Machine(inMemory.State(), traceIDs, map[], published, multiset{}, multiset{})
    }

    method ResolvePermission(request: Id, newTrace: Id, publishOk: bool) returns (r: Option<PermissionRequest>)
      requires Keyed(inMemory.perms)
      modifies this, inMemory
      ensures Alone() == Called(old(Alone()), request, newTrace, publishOk)
      ensures r == if publishOk && request in old(inMemory.perms) then Some(old(inMemory.perms)[request]) else None
    {
      var held := inMemory.ReservePermissionRequest(request);
      if held == None {
        return None;
      }
      var req := held.value;
      var trace := newTrace;
      if req.runId in traceIDs {
        trace := traceIDs[req.runId];
      } else {
        traceIDs := traceIDs[req.runId := newTrace];
      }
      if !publishOk {
        inMemory.RestorePermissionRequest(req);
        assert inMemory.perms == old(inMemory.perms);
        return None;
      }
      published := published + [Decision(request, req.runId, trace)];
      return Some(req);
    }
  }

  /** The effect of one uninterrupted call. */
  function Called(m: Machine, request: Id, newTrace: Id, publishOk: bool): Machine {
    if request !in m.bus.perms then m
    else
      var req := m.bus.perms[request];
      var trace := if req.runId in m.traces then m.traces[req.runId] else newTrace;
      var traced := m.(traces := m.traces[req.runId := trace]);
      if !publishOk then traced
      else traced.(bus := m.bus.(perms := m.bus.perms - {request}),
                   commands := m.commands + [Decision(request, req.runId, trace)])
  }

  lemma LookAndStore(m: Machine, req: PermissionRequest, newTrace: Id)
    requires m.callers == map[0 := Holding(req)]
    ensures var trace := if req.runId in m.traces then m.traces[req.runId] else newTrace;
      Next(Next(m, Lookup(0)), Store(0, newTrace))
        == m.(traces := m.traces[req.runId := trace], callers := map[0 := Ready(req, trace)])
  {
    if req.runId in m.traces {
      assert m.callers[0 := Ready(req, m.traces[req.runId])] == map[0 := Ready(req, m.traces[req.runId])];
      assert m.traces[req.runId := m.traces[req.runId]] == m.traces;
    } else {
      assert m.callers[0 := Missed(req)][0 := Ready(req, newTrace)] == map[0 := Ready(req, newTrace)];
    }
  }

  lemma ReserveAndTrace(m: Machine, request: Id, newTrace: Id)
    requires m.callers == map[] && request in m.bus.perms
    ensures var req := m.bus.perms[request];
      var trace := if req.runId in m.traces then m.traces[req.runId] else newTrace;
      Next(Next(Next(m, Reserve(0, request)), Lookup(0)), Store(0, newTrace))
        == m.(bus := m.bus.(perms := m.bus.perms - {request}), traces := m.traces[req.runId := trace],
              callers := map[0 := Ready(req, trace)])
  {
    assert m.callers[0 := Holding(m.bus.perms[request])] == map[0 := Holding(m.bus.perms[request])];
    LookAndStore(Next(m, Reserve(0, request)), m.bus.perms[request], newTrace);
  }

  lemma PublishEnds(m: Machine, n: Machine, request: Id, newTrace: Id, publishOk: bool)
    requires Keyed(m.bus.perms) && m.callers == map[] && request in m.bus.perms
    requires var req := m.bus.perms[request];
      var trace := if req.runId in m.traces then m.traces[req.runId] else newTrace;
      n == m.(bus := m.bus.(perms := m.bus.perms - {request}), traces := m.traces[req.runId := trace],
              callers := map[0 := Ready(req, trace)])
    ensures Next(n, Publish(0, publishOk)) == Called(m, request, newTrace, publishOk)
  {
    assert n.callers - {0} == map[];
    assert (m.bus.perms - {request})[request := m.bus.perms[request]] == m.bus.perms;
  }

  /** A call that nobody interrupts is its four atomic steps in order. */
  lemma CallIsItsSteps(m: Machine, request: Id, newTrace: Id, publishOk: bool)
    requires Keyed(m.bus.perms) && m.callers == map[]
    ensures RunAll(m, [Reserve(0, request), Lookup(0), Store(0, newTrace), Publish(0, publishOk)])
         == Called(m, request, newTrace, publishOk)
  {
    RunOfFour(m, Reserve(0, request), Lookup(0), Store(0, newTrace), Publish(0, publishOk));
    if request in m.bus.perms {
      ReserveAndTrace(m, request, newTrace);
      PublishEnds(m, Next(Next(Next(m, Reserve(0, request)), Lookup(0)), Store(0, newTrace)), request, newTrace, publishOk);
    } else {
      assert Next(m, Reserve(0, request)) == m;
    }
  }
}
