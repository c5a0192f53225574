/** The runtime-event delivery protocol over every run: any number of gateway processes, any interleaving
    of their calls, lost requests and replies, process death, group loss and re-creation.

    Steps follow apps/gateway/internal/orchestrator/event_pump.go call by call. */
module Delivery {
  import opened Wrappers
  import opened RuntimeBus
  import opened StreamGroup
  import Projection

  datatype Delivered = Delivered(id: nat, count: nat, reclaimed: bool)

  /** What a process is in the middle of: loading the run of an event it could not append, appending it again after
      adopting that run, or a server call it is about to make. */
  datatype Phase =
    | Idle
    | Loading(delivery: Delivered)
    | Adopted(delivery: Delivered)
    | Acking(id: nat)
    | Burying(delivery: Delivered, code: string)

  /** A gateway process: its projection, its last XPENDING reply (id to delivery count), the deliveries it
      still has to process and what it is in the middle of. */
  datatype Proc = Proc(bus: Bus, scan: map<nat, nat>, inbox: seq<Delivered>, phase: Phase)

  /** What became of a server call. */
  datatype Outcome = Done | RequestLost | ReplyLost

  /** `acked`, `firstSeen` and `expired` are histories: which process acknowledged a message, when a message
      was first delivered, how often a message's dedupe key expired. */
  datatype World = World(
    server: Server, procs: map<nat, Proc>, acked: map<nat, nat>, firstSeen: map<nat, nat>, expired: multiset<nat>)

  const NEW_WORLD := World(NEW_SERVER, map[], map[], map[], multiset{})
  const NEW_PROC := Proc(EMPTY_BUS, map[], [], Idle)

  datatype Step =
    | Publish(message: Message)
    | Tick(elapsed: nat)
    | Expire(id: nat)
    | LoseGroup
    | EnsureGroup
    | Start(p: nat)
    | Die(p: nat)
    | Handle(p: nat, op: Projection.Op)
    | Read(p: nat, n: nat, outcome: Outcome)
    | Scan(p: nat, ids: set<nat>)
    | TryClaim(p: nat, id: nat, outcome: Outcome)
    | Take(p: nat, now: nat)
    | Load(p: nat, loaded: Option<(Task, Run)>)
    | Retry(p: nat, now: nat)
    | SendAck(p: nat, outcome: Outcome)
    | Bury(p: nat, outcome: Outcome)

  function WithProc(w: World, p: nat, proc: Proc): World {
    w.(procs := w.procs[p := proc])
  }

  function Range(lo: nat, hi: nat): seq<Delivered>
    decreases hi - lo
  {
    if lo >= hi then [] else [Delivered(lo, 1, false)] + Range(lo + 1, hi)
  }

  /** The first delivery time of every message is kept; the newly read ones get `now`. */
  function Seen(firstSeen: map<nat, nat>, lo: nat, hi: nat, now: nat): map<nat, nat> {
    Between(lo, hi, now) + firstSeen
  }

  function ReadStep(w: World, p: nat, n: nat, outcome: Outcome): World
    requires p in w.procs
  {
    if outcome.RequestLost? then w
    else
      var s := ReadGroup(w.server, p, n);
      var lo := if w.server.grouped then w.server.last else s.last;
      var inbox := if outcome.Done? then Range(lo, s.last) else [];
      WithProc(w.(server := s, firstSeen := Seen(w.firstSeen, lo, s.last, s.now)), p, w.procs[p].(inbox := inbox))
  }

  function ClaimStep(w: World, p: nat, id: nat, outcome: Outcome): World
    requires p in w.procs && id in w.procs[p].scan
  {
    var seen := w.procs[p].scan[id];
    var required := RetryIdle(BASE_IDLE, seen);
    if outcome.RequestLost? || !StreamGroup.Claimable(w.server, id, required) then w
    else
      var inbox := if outcome.Done? then [Delivered(id, seen + 1, true)] else [];
      WithProc(w.(server := Claim(w.server, p, id, required)), p, w.procs[p].(inbox := inbox))
  }

  /** A projection that failed for good is buried after enough deliveries, and otherwise left pending. */
  function GivenUp(d: Delivered): Phase {
    if d.reclaimed && d.count >= MAX_DELIVERIES then Burying(d, RETRY_EXHAUSTED) else Idle
  }

  /** The first delivery is decoded and its event appended once. */
  function TakeStep(w: World, p: nat, now: nat): World
    requires p in w.procs && w.procs[p].inbox != [] && w.procs[p].inbox[0].id < |w.server.stream|
  {
    var proc := w.procs[p];
    var d, rest := proc.inbox[0], proc.inbox[1..];
    var m := w.server.stream[d.id];
    if !Valid(m) then
      WithProc(w, p, proc.(inbox := rest, phase := Burying(d, ErrorCode(m))))
    else
      var (b, ok) := Append(proc.bus, m.envelope.value.runId, [m.envelope.value], now);
      WithProc(w, p, proc.(bus := b, inbox := rest, phase := if ok then Acking(d.id) else Loading(d)))
  }

  /** The control plane's answer fits the event. */
  predicate Fits(e: Event, loaded: Option<(Task, Run)>) {
    loaded.Some? && loaded.value.0.id == e.taskId && loaded.value.1.id == e.runId && loaded.value.1.taskId == e.taskId
  }

  /** The control plane has answered: a fitting run is seeded without events. */
  function LoadStep(w: World, p: nat, loaded: Option<(Task, Run)>): World
    requires p in w.procs && w.procs[p].phase.Loading?
  {
    var proc := w.procs[p];
    var d := proc.phase.delivery;
    if d.id < |w.server.stream| && Valid(w.server.stream[d.id]) && Fits(w.server.stream[d.id].envelope.value, loaded) then
      WithProc(w, p, proc.(bus := Seed(proc.bus, loaded.value.0, loaded.value.1, []), phase := Adopted(d)))
    else
      WithProc(w, p, proc.(phase := GivenUp(d)))
  }

  /** The event is appended again. */
  function RetryStep(w: World, p: nat, now: nat): World
    requires p in w.procs && w.procs[p].phase.Adopted?
  {
    var proc := w.procs[p];
    var d := proc.phase.delivery;
    if d.id >= |w.server.stream| || !Valid(w.server.stream[d.id]) then WithProc(w, p, proc.(phase := GivenUp(d)))
    else
      var e := w.server.stream[d.id].envelope.value;
      var (b, ok) := Append(proc.bus, e.runId, [e], now);
      WithProc(w, p, proc.(bus := b, phase := if ok then Acking(d.id) else GivenUp(d)))
  }

  /** A call that returned an error abandons the rest of the batch. */
  function Settle(proc: Proc, outcome: Outcome): Proc {
    if outcome.Done? then proc.(phase := Idle) else proc.(phase := Idle, inbox := [])
  }

  function RecordOf(w: World, d: Delivered, code: string): Record {
    Record(d.id, d.count, d.reclaimed, code, w.server.now)
  }

  function Next(w: World, step: Step): World {
    match step
    case Publish(m) => w.(server := w.server.(stream := w.server.stream + [m]))
    case Tick(elapsed) => w.(server := w.server.(now := w.server.now + elapsed))
    case Expire(id) =>
      if id !in w.server.keys then w
      else w.(server := w.server.(keys := w.server.keys - {id}), expired := w.expired + multiset{id})
    case LoseGroup => w.(server := StreamGroup.DropGroup(w.server))
    case EnsureGroup => w.(server := StreamGroup.CreateGroup(w.server))
    case Start(p) => if p in w.procs || p in w.acked.Values then w else WithProc(w, p, NEW_PROC)
    case Die(p) => w.(procs := w.procs - {p})
    case Handle(p, op) =>
      if p !in w.procs then w
      else WithProc(w, p, w.procs[p].(bus := Projection.Step(Projection.Tracked(w.procs[p].bus, map[]), op).bus))
    case Read(p, n, outcome) =>
      if Resting(w, p) && n <= BATCH_SIZE then ReadStep(w, p, n, outcome) else w
    case Scan(p, ids) =>
      if Resting(w, p) then
        WithProc(w, p, w.procs[p].(scan := map id <- w.server.pel | id in ids :: w.server.pel[id].count))
      else w
    case TryClaim(p, id, outcome) =>
      if Resting(w, p) && id in w.procs[p].scan then ClaimStep(w, p, id, outcome) else w
    case Take(p, now) =>
      if p in w.procs && w.procs[p].phase.Idle? && w.procs[p].inbox != [] && w.procs[p].inbox[0].id < |w.server.stream|
      then TakeStep(w, p, now) else w
    case Load(p, loaded) => if p in w.procs && w.procs[p].phase.Loading? then LoadStep(w, p, loaded) else w
    case Retry(p, now) => if p in w.procs && w.procs[p].phase.Adopted? then RetryStep(w, p, now) else w
    case SendAck(p, outcome) =>
      if p !in w.procs || !w.procs[p].phase.Acking? then w
      else
        var id := w.procs[p].phase.id;
        var settled := WithProc(w, p, Settle(w.procs[p], outcome));
        if outcome.RequestLost? then settled
        else settled.(server := StreamGroup.Ack(w.server, id), acked := w.acked[id := p])
    case Bury(p, outcome) =>
      if p !in w.procs || !w.procs[p].phase.Burying? then w
      else
        var d := w.procs[p].phase.delivery;
        var settled := WithProc(w, p, Settle(w.procs[p], outcome));
        if outcome.RequestLost? then settled
        else settled.(server := MoveToDeadLetter(w.server, RecordOf(w, d, w.procs[p].phase.code)))
  }

  predicate Resting(w: World, p: nat) {
    p in w.procs && w.procs[p].phase.Idle? && w.procs[p].inbox == []
  }

  function RunAll(w: World, steps: seq<Step>): World
    decreases |steps|
  {
    if steps == [] then w else RunAll(Next(w, steps[0]), steps[1..])
  }
}
