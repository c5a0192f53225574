/** The pump's own code (apps/gateway/internal/orchestrator/event_pump.go and ClaimStaleDelivery in
    apps/gateway/internal/redis/reader.go), proved to move the world only by protocol steps. */
module EventPump {
  import opened Wrappers
  import opened RuntimeBus
  import opened StreamGroup
  import opened Delivery
  import opened DeliverySafety
  import opened PendingScan

  const RECLAIM_INTERVAL: nat := 1000

  /** Everything the environment decides during one cycle: what happens to each call, what the control plane
      answers, and what other processes do before each claim. */
  datatype Weather = Weather(
    scan: Outcome, read: Outcome, claim: nat -> Outcome, others: nat -> seq<Step>,
    loaded: nat -> Option<(Task, Run)>, final: nat -> Outcome)

  /** A step that leaves process `p` and its projection alone. */
  predicate ByOthers(p: nat, step: Step) {
    match step
    case Start(q) => q != p
    case Die(q) => q != p
    case Handle(q, _) => q != p
    case Read(q, _, _) => q != p
    case Scan(q, _) => q != p
    case TryClaim(q, _, _) => q != p
    case Take(q, _) => q != p
    case Load(q, _) => q != p
    case Retry(q, _) => q != p
    case SendAck(q, _) => q != p
    case Bury(q, _) => q != p
    case _ => true
  }

  lemma {:induction false} RunSnoc(w: World, steps: seq<Step>, step: Step)
    ensures RunAll(w, steps + [step]) == Next(RunAll(w, steps), step)
    decreases |steps|
  {
    if steps == [] {
      assert [step][1..] == [] && steps + [step] == [step];
      assert RunAll(Next(w, step), []) == Next(w, step);
    } else {
      assert (steps + [step])[1..] == steps[1..] + [step];
      RunSnoc(Next(w, steps[0]), steps[1..], step);
    }
  }

  /** The world outside a pump. `history` lists every step taken since the beginning. */
  class Cluster {
    var world: World
    ghost var history: seq<Step>

    ghost predicate Valid()
      reads this
    {
      world == RunAll(NEW_WORLD, history)
    }

    constructor ()
      ensures Valid() && world == NEW_WORLD && history == []
    {
      world, history := NEW_WORLD, [];
    }

    method Perform(step: Step)
      requires Valid()
      modifies this
      ensures Valid() && world == Next(old(world), step) && history == old(history) + [step]
    {
      RunSnoc(NEW_WORLD, history, step);
      world := Next(world, step);
      history := history + [step];
    }

    /** XPENDING: the process notes the delivery counts of the page it was shown. */
    method XPending(p: nat, page: seq<nat>)
      requires Valid() && Resting(world, p) && forall id <- page :: id in world.server.pel
      modifies this
      ensures Valid() && old(history) <= history && world == Next(old(world), Scan(p, set id <- page))
      ensures Resting(world, p) && world.server == old(world).server && world.procs[p].bus == old(world).procs[p].bus
      ensures forall id <- page :: id in world.procs[p].scan && world.procs[p].scan[id] == old(world).server.pel[id].count
    {
      ScanNotes(world, p, page);
      Perform(Scan(p, set id <- page));
    }

    method Interleave(p: nat, others: seq<Step>)
      requires Valid() && p in world.procs && forall s <- others :: ByOthers(p, s)
      modifies this
      ensures Valid() && old(history) <= history && world == RunAll(old(world), others)
      ensures p in world.procs && world.procs[p] == old(world.procs)[p]
    {
      for i := 0 to |others|
        invariant Valid() && old(history) <= history && world == RunAll(old(world), others[..i])
        invariant p in world.procs && world.procs[p] == old(world.procs)[p]
      {
        OthersLeaveAlone(world, p, others[i]);
        assert others[..i + 1] == others[..i] + [others[i]];
        RunSnoc(old(world), others[..i], others[i]);
        Perform(others[i]);
      }
      assert others[..|others|] == others;
    }
  }

  lemma ScanNotes(w: World, p: nat, page: seq<nat>)
    requires Resting(w, p) && forall id <- page :: id in w.server.pel
    ensures var n := Next(w, Scan(p, set id <- page));
      && Resting(n, p) && n.server == w.server && n.procs[p].bus == w.procs[p].bus
      && forall id <- page :: id in n.procs[p].scan && n.procs[p].scan[id] == w.server.pel[id].count
  {
  }

  lemma OthersLeaveAlone(w: World, p: nat, step: Step)
    requires ByOthers(p, step) && p in w.procs
    ensures p in Next(w, step).procs && Next(w, step).procs[p] == w.procs[p]
  {
  }

  /** The answer to a claim sent to `w`. */
  function Answer(w: World, id: nat, required: nat, outcome: Outcome): Verdict {
    if !outcome.Done? || !w.server.grouped then Failed
    else if Claimable(w.server, id, required) then Claimed
    else NotClaimable
  }

  predicate Due(s: Server, id: nat) {
    id in s.pel && s.now - s.pel[id].since >= RetryIdle(BASE_IDLE, s.pel[id].count)
  }

  /** The rest of a page shown by `s`, from its `i`-th entry on: entries that are not due are skipped, the others
      asked for after what other processes do first, up to the first one claimed or failed. */
  function Walk(w: World, p: nat, s: Server, page: seq<nat>, weather: Weather, i: nat): (World, seq<Verdict>)
    decreases |page| - i
  {
    if i >= |page| then (w, [])
    else if !Due(s, page[i]) then
      var rest := Walk(w, p, s, page, weather, i + 1);
      (rest.0, [NotDue] + rest.1)
    else
      var before := RunAll(w, weather.others(i));
      var v := Answer(before, page[i], RetryIdle(BASE_IDLE, s.pel[page[i]].count), weather.claim(i));
      var n := Next(before, TryClaim(p, page[i], weather.claim(i)));
      if !PassesOver(v) then (n, [v])
      else
        var rest := Walk(n, p, s, page, weather, i + 1);
        (rest.0, [v] + rest.1)
  }

  /** A walk begun in `start` that has reached `w` before its `i`-th entry. */
  ghost predicate Walking(
    start: World, w: World, p: nat, s: Server, page: seq<nat>, weather: Weather, i: nat, verdicts: seq<Verdict>)
  {
    var rest := Walk(w, p, s, page, weather, i);
    Walk(start, p, s, page, weather, 0) == (rest.0, verdicts + rest.1)
  }

  lemma NothingWalked(w: World, p: nat, s: Server, page: seq<nat>, weather: Weather)
    ensures Walking(w, w, p, s, page, weather, 0, [])
  {
    hide Walk;
    var rest := Walk(w, p, s, page, weather, 0);
    assert [] + rest.1 == rest.1;
  }

  lemma WalksOn(
    start: World, w: World, p: nat, s: Server, page: seq<nat>, weather: Weather, i: nat, verdicts: seq<Verdict>)
    requires Walking(start, w, p, s, page, weather, i, verdicts) && i < |page|
    ensures !Due(s, page[i]) ==> Walking(start, w, p, s, page, weather, i + 1, verdicts + [NotDue])
    ensures Due(s, page[i]) ==>
      var before := RunAll(w, weather.others(i));
      var v := Answer(before, page[i], RetryIdle(BASE_IDLE, s.pel[page[i]].count), weather.claim(i));
      var n := Next(before, TryClaim(p, page[i], weather.claim(i)));
      if PassesOver(v) then Walking(start, n, p, s, page, weather, i + 1, verdicts + [v])
      else Walk(start, p, s, page, weather, 0) == (n, verdicts + [v])
  {
    hide Next, RunAll, Answer;
    if !Due(s, page[i]) {
      var rest := Walk(w, p, s, page, weather, i + 1);
      assert verdicts + ([NotDue] + rest.1) == (verdicts + [NotDue]) + rest.1;
    } else {
      var before := RunAll(w, weather.others(i));
      var v := Answer(before, page[i], RetryIdle(BASE_IDLE, s.pel[page[i]].count), weather.claim(i));
      var n := Next(before, TryClaim(p, page[i], weather.claim(i)));
      var rest := Walk(n, p, s, page, weather, i + 1);
      assert verdicts + ([v] + rest.1) == (verdicts + [v]) + rest.1;
    }
  }

  lemma WalkEnds(start: World, w: World, p: nat, s: Server, page: seq<nat>, weather: Weather, verdicts: seq<Verdict>)
    requires Walking(start, w, p, s, page, weather, |page|, verdicts)
    ensures Walk(start, p, s, page, weather, 0) == (w, verdicts)
  {
    assert Walk(w, p, s, page, weather, |page|) == (w, []);
    assert verdicts + [] == verdicts;
  }

  /** A whole scan: the page it is shown, the verdicts and the world after it. None when the page is not shown. */
  function Scanned(w: World, p: nat, cursor: Cursor, weather: Weather): Option<(World, seq<nat>, seq<Verdict>)> {
    if !weather.scan.Done? || !w.server.grouped then None
    else
      var page := PendingFrom(w.server, From(cursor), PAGE_SIZE);
      var walk := Walk(Next(w, Scan(p, set id <- page)), p, w.server, page, weather, 0);
      Some((walk.0, page, walk.1))
  }

  class RuntimeEventReader {
    const cluster: Cluster
    var pendingScanStart: Cursor

    constructor (cluster: Cluster)
      ensures this.cluster == cluster && pendingScanStart == None
    {
      this.cluster := cluster;
      pendingScanStart := None;
    }

    /** Asks for one due entry, after whatever other processes do first. A claimed entry is this process's from
        now on, with its idle clock restarted and one more delivery. */
    method TryEntry(p: nat, id: nat, required: nat, others: seq<Step>, outcome: Outcome) returns (v: Verdict)
      requires cluster.Valid() && Resting(cluster.world, p) && forall s <- others :: ByOthers(p, s)
      requires id in cluster.world.procs[p].scan && required == RetryIdle(BASE_IDLE, cluster.world.procs[p].scan[id])
      modifies cluster
      ensures cluster.Valid() && old(cluster.history) <= cluster.history && p in cluster.world.procs
      ensures cluster.world.procs[p] ==
        var before := old(cluster.world).procs[p];
        if v.Claimed? then before.(inbox := [Delivered(id, before.scan[id] + 1, true)]) else before
      ensures var before := RunAll(old(cluster.world), others);
        && v == Answer(before, id, required, outcome)
        && cluster.world == Next(before, TryClaim(p, id, outcome))
        && (v.NotClaimable? || (v.Failed? && !outcome.ReplyLost?) ==> cluster.world == before)
        && (v.Claimed? ==> id in before.server.pel && cluster.world.server == before.server.(pel :=
              before.server.pel[id := Entry(p, before.server.now, before.server.pel[id].count + 1,
                                            before.server.pel[id].waited + required)]))
    {
      cluster.Interleave(p, others);
      v := Answer(cluster.world, id, required, outcome);
      ClaimAnswered(cluster.world, p, id, outcome);
      cluster.Perform(TryClaim(p, id, outcome));
    }

    /** The loop over one page: stops at the first entry claimed or failed. */
    method WalkPage(p: nat, s: Server, page: seq<nat>, weather: Weather) returns (verdicts: seq<Verdict>)
      requires cluster.Valid() && Resting(cluster.world, p)
      requires forall i: nat, step <- weather.others(i) :: ByOthers(p, step)
      requires forall id <- page ::
        id in s.pel && id in cluster.world.procs[p].scan && cluster.world.procs[p].scan[id] == s.pel[id].count
      modifies cluster
      ensures cluster.Valid() && old(cluster.history) <= cluster.history && p in cluster.world.procs
      ensures (cluster.world, verdicts) == Walk(old(cluster.world), p, s, page, weather, 0)
      ensures Walked(page, verdicts) && Judged(s, page, verdicts)
      ensures cluster.world.procs[p] ==
        var before := old(cluster.world).procs[p];
        if verdicts != [] && verdicts[|verdicts| - 1].Claimed?
        then before.(inbox := [Delivered(page[|verdicts| - 1], s.pel[page[|verdicts| - 1]].count + 1, true)])
        else before
    {
      hide ByOthers, Next, RunAll, Claimable, Due, Walk, Walking;
      verdicts := [];
      NothingWalked(cluster.world, p, s, page, weather);
      for i := 0 to |page|
        invariant |verdicts| == i && Judged(s, page, verdicts)
        invariant cluster.Valid() && old(cluster.history) <= cluster.history
        invariant p in cluster.world.procs && cluster.world.procs[p] == old(cluster.world).procs[p]
        invariant forall j :: 0 <= j < i ==> PassesOver(verdicts[j])
        invariant Walking(old(cluster.world), cluster.world, p, s, page, weather, i, verdicts)
      {
        var id, v := page[i], NotDue;
        WalksOn(old(cluster.world), cluster.world, p, s, page, weather, i, verdicts);
        if Due(s, id) {
          v := TryEntry(p, id, RetryIdle(BASE_IDLE, s.pel[id].count), weather.others(i), weather.claim(i));
        }
        verdicts := verdicts + [v];
        if !PassesOver(v) {
          return;
        }
      }
      WalkEnds(old(cluster.world), cluster.world, p, s, page, weather, verdicts);
    }

    /** Scans one page of the pending list and claims at most one stale delivery. `page` and `verdicts` say
        what was looked at and what was found. */
    method ClaimStaleDelivery(p: nat, weather: Weather)
      returns (ok: bool, d: Option<Delivered>, page: seq<nat>, verdicts: seq<Verdict>)
      requires cluster.Valid() && Resting(cluster.world, p)
      requires forall i: nat, s <- weather.others(i) :: ByOthers(p, s)
      modifies this`pendingScanStart, cluster
      ensures cluster.Valid() && old(cluster.history) <= cluster.history
      ensures p in cluster.world.procs && cluster.world.procs[p].phase == Idle
      ensures cluster.world.procs[p].bus == old(cluster.world).procs[p].bus
      ensures cluster.world.procs[p].inbox == if d.Some? then [d.value] else []
      ensures Scanned(old(cluster.world), p, old(pendingScanStart), weather) ==
        if weather.scan.Done? && old(cluster.world).server.grouped then Some((cluster.world, page, verdicts)) else None
      ensures var s := old(cluster.world).server;
        if weather.scan.Done? && s.grouped then
          && page == PendingFrom(s, From(old(pendingScanStart)), 20)
          && Walked(page, verdicts) && Judged(s, page, verdicts)
          && pendingScanStart == NextCursor(old(pendingScanStart), page, verdicts)
          && (ok <==> verdicts == [] || !verdicts[|verdicts| - 1].Failed?)
          && (d.Some? <==> verdicts != [] && verdicts[|verdicts| - 1].Claimed?)
          && (d.Some? ==> d.value == Delivered(page[|verdicts| - 1], s.pel[page[|verdicts| - 1]].count + 1, true))
        else
          !ok && d == None && pendingScanStart == old(pendingScanStart) && cluster.world == old(cluster.world)
    {
      hide RetryIdle, ByOthers, PendingFrom, Walk, Next;
      page, verdicts := [], [];
      var s := cluster.world.server;
      if !weather.scan.Done? || !s.grouped {
        return false, None, page, verdicts;
      }
      page := PendingFrom(s, From(pendingScanStart), PAGE_SIZE);
      PageIsExact(s, From(pendingScanStart), PAGE_SIZE);
      cluster.XPending(p, page);
      verdicts := WalkPage(p, s, page, weather);
      if |page| == 0 {
        pendingScanStart := None;
        return true, None, page, verdicts;
      }
      var last := page[|verdicts| - 1];
      if verdicts[|verdicts| - 1].Failed? {
        return false, None, page, verdicts;
      }
      pendingScanStart := if |page| < PAGE_SIZE then None else Some(last);
      if verdicts[|verdicts| - 1].Claimed? {
        return true, Some(Delivered(last, s.pel[last].count + 1, true)), page, verdicts;
      }
      return true, None, page, verdicts;
    }
  }

  lemma ClaimAnswered(w: World, p: nat, id: nat, outcome: Outcome)
    requires Resting(w, p) && id in w.procs[p].scan
    ensures var required, n := RetryIdle(BASE_IDLE, w.procs[p].scan[id]), Next(w, TryClaim(p, id, outcome));
      var v := Answer(w, id, required, outcome);
      && p in n.procs
      && n.procs[p] == (if v.Claimed? then w.procs[p].(inbox := [Delivered(id, w.procs[p].scan[id] + 1, true)])
                        else w.procs[p])
      && (v.NotClaimable? || (v.Failed? && !outcome.ReplyLost?) ==> n == w)
      && (v.Claimed? ==> id in w.server.pel && n.server == Claim(w.server, p, id, required))
  {
  }

  /** An entry is judged not due exactly when its idle time is below what its delivery count requires. */
  predicate Judged(s: Server, page: seq<nat>, verdicts: seq<Verdict>) {
    && |verdicts| <= |page|
    && forall i :: 0 <= i < |verdicts| ==>
         && page[i] in s.pel
         && (verdicts[i].NotDue? <==> !Due(s, page[i]))
  }

  /** What projecting an event does to a projection: an unknown run is adopted if the control plane's answer fits. */
  function Project(b: Bus, e: Event, loaded: Option<(Task, Run)>, now: nat): (Bus, bool) {
    var (appended, ok) := Append(b, e.runId, [e], now);
    if ok || !Fits(e, loaded) then (appended, ok)
    else Append(Seed(appended, loaded.value.0, loaded.value.1, []), e.runId, [e], now)
  }

  /** The first delivery taken and, if its run is unknown, loaded and tried again. */
  function Attempt(w: World, p: nat, loaded: Option<(Task, Run)>, now: nat): World {
    var taken := Next(w, Take(p, now));
    if p !in taken.procs || !taken.procs[p].phase.Loading? then taken
    else
      var answered := Next(taken, Load(p, loaded));
      if p !in answered.procs || !answered.procs[p].phase.Adopted? then answered
      else Next(answered, Retry(p, now))
  }

  /** The call that ends a delivery, if there is one. */
  function Finish(w: World, p: nat, final: Outcome): World {
    if p !in w.procs then w
    else if w.procs[p].phase.Acking? then Next(w, SendAck(p, final))
    else if w.procs[p].phase.Burying? then Next(w, Bury(p, final))
    else w
  }

  /** One delivery taken from the inbox and carried to its end: projected and acknowledged, buried, or left pending. */
  function Processed(w: World, p: nat, loaded: Option<(Task, Run)>, now: nat, final: Outcome): World {
    Finish(Attempt(w, p, loaded, now), p, final)
  }

  /** Every delivery of the inbox in order, until a call fails and the rest is abandoned. */
  function Drained(w: World, p: nat, weather: Weather, i: nat, now: nat): World
    decreases if p in w.procs then |w.procs[p].inbox| else 0
  {
    if p !in w.procs || w.procs[p].inbox == [] then w
    else
      var n := Processed(w, p, weather.loaded(i), now, weather.final(i));
      if p !in n.procs || |n.procs[p].inbox| >= |w.procs[p].inbox| then n
      else Drained(n, p, weather, i + 1, now)
  }

  /** The pump's counters. */
  datatype Metrics = Metrics(reclaimed: nat, retryDeferred: nat, deadLettered: nat, malformed: nat)

  const NO_METRICS := Metrics(0, 0, 0, 0)

  function Add(a: Metrics, b: Metrics): Metrics {
    Metrics(a.reclaimed + b.reclaimed, a.retryDeferred + b.retryDeferred, a.deadLettered + b.deadLettered,
            a.malformed + b.malformed)
  }

  /** What deliveries amount to: the events projected, whether all calls went through, and what was counted. */
  datatype Effect = Effect(projected: nat, ok: bool, counted: Metrics)

  const NOTHING := Effect(0, true, NO_METRICS)

  function Then(a: Effect, b: Effect): Effect {
    Effect(a.projected + b.projected, a.ok && b.ok, Add(a.counted, b.counted))
  }

  predicate Malformed(w: World, d: Delivered) {
    d.id < |w.server.stream| && !Valid(w.server.stream[d.id])
  }

  /** What the end of a delivery amounts to: projected, buried or left for a retry. */
  function Ended(w: World, p: nat, final: Outcome): Effect {
    if p !in w.procs then NOTHING
    else if w.procs[p].phase.Acking? then Effect(1, final.Done?, NO_METRICS)
    else if w.procs[p].phase.Burying? then
      var malformed := if Malformed(w, w.procs[p].phase.delivery) then 1 else 0;
      Effect(0, final.Done?, Metrics(0, 0, if final.Done? then 1 else 0, malformed))
    else Effect(0, true, NO_METRICS.(retryDeferred := 1))
  }

  function Report(w: World, p: nat, loaded: Option<(Task, Run)>, now: nat, final: Outcome): Effect {
    Ended(Attempt(w, p, loaded, now), p, final)
  }

  /** What a batch amounts to. */
  function Tally(w: World, p: nat, weather: Weather, i: nat, now: nat): Effect
    decreases if p in w.procs then |w.procs[p].inbox| else 0
  {
    if p !in w.procs || w.procs[p].inbox == [] then NOTHING
    else
      var first := Report(w, p, weather.loaded(i), now, weather.final(i));
      var n := Processed(w, p, weather.loaded(i), now, weather.final(i));
      if p !in n.procs || |n.procs[p].inbox| >= |w.procs[p].inbox| then first
      else Then(first, Tally(n, p, weather, i + 1, now))
  }

  /** A failed call empties the inbox, so nothing after it is reported. */
  lemma FailureEndsBatch(w: World, p: nat, loaded: Option<(Task, Run)>, now: nat, final: Outcome)
    requires InboxOk(w, p) && w.procs[p].inbox != [] && !Report(w, p, loaded, now, final).ok
    ensures var n := Processed(w, p, loaded, now, final); p in n.procs && n.procs[p].inbox == []
  {
    AttemptIs(w, p, loaded, now);
    var tried := Attempt(w, p, loaded, now);
    hide Attempt, Project, Next;
    if tried.procs[p].phase.Acking? {
      FinalCallIs(tried, p, SendAck(p, final));
    } else if tried.procs[p].phase.Burying? {
      FinalCallIs(tried, p, Bury(p, final));
    }
  }

  lemma TallyStep(w: World, p: nat, weather: Weather, i: nat, now: nat)
    requires InboxOk(w, p) && w.procs[p].inbox != []
    ensures var first, n := Report(w, p, weather.loaded(i), now, weather.final(i)),
                            Processed(w, p, weather.loaded(i), now, weather.final(i));
      && Tally(w, p, weather, i, now) == Then(first, Tally(n, p, weather, i + 1, now))
      && Drained(w, p, weather, i, now) == Drained(n, p, weather, i + 1, now)
      && (!first.ok ==> p in n.procs && n.procs[p].inbox == [] && Tally(n, p, weather, i + 1, now) == NOTHING
                        && Drained(n, p, weather, i + 1, now) == n)
  {
    ProcessedShrinks(w, p, weather.loaded(i), now, weather.final(i));
    if !Report(w, p, weather.loaded(i), now, weather.final(i)).ok {
      FailureEndsBatch(w, p, weather.loaded(i), now, weather.final(i));
    }
    hide Processed, Report;
  }

  /** A batch begun in `start` that has reached `w` before its `i`-th delivery and amounts to `sofar`. */
  ghost predicate Underway(start: World, w: World, p: nat, weather: Weather, i: nat, now: nat, sofar: Effect) {
    && Drained(start, p, weather, 0, now) == Drained(w, p, weather, i, now)
    && Tally(start, p, weather, 0, now) == Then(sofar, Tally(w, p, weather, i, now))
  }

  /** A batch begun in `start` ends in `w` and amounts to `total`. */
  ghost predicate Over(start: World, w: World, p: nat, weather: Weather, now: nat, total: Effect) {
    Drained(start, p, weather, 0, now) == w && Tally(start, p, weather, 0, now) == total
  }

  lemma Begins(start: World, p: nat, weather: Weather, now: nat)
    ensures Underway(start, start, p, weather, 0, now, NOTHING)
  {
    hide Drained, Tally;
  }

  lemma Advances(start: World, w: World, p: nat, weather: Weather, i: nat, now: nat, sofar: Effect)
    requires Underway(start, w, p, weather, i, now, sofar) && InboxOk(w, p) && w.procs[p].inbox != []
    ensures var first, n := Report(w, p, weather.loaded(i), now, weather.final(i)),
                            Processed(w, p, weather.loaded(i), now, weather.final(i));
      if first.ok then Underway(start, n, p, weather, i + 1, now, Then(sofar, first))
      else Over(start, n, p, weather, now, Then(sofar, first)) && p in n.procs && n.procs[p].inbox == []
  {
    hide Drained, Tally, Report, Processed;
    TallyStep(w, p, weather, i, now);
  }

  lemma Ends(start: World, w: World, p: nat, weather: Weather, i: nat, now: nat, sofar: Effect)
    requires Underway(start, w, p, weather, i, now, sofar) && p in w.procs && w.procs[p].inbox == []
    ensures Over(start, w, p, weather, now, sofar)
  {
    hide Drained, Tally;
    NothingLeft(w, p, weather, i, now);
  }

  lemma NothingLeft(w: World, p: nat, weather: Weather, i: nat, now: nat)
    requires p in w.procs && w.procs[p].inbox == []
    ensures Tally(w, p, weather, i, now) == NOTHING && Drained(w, p, weather, i, now) == w
  {
  }

  predicate InboxOk(w: World, p: nat) {
    && p in w.procs && w.procs[p].phase.Idle?
    && forall d <- w.procs[p].inbox :: d.id < |w.server.stream|
  }

  lemma TakeIs(w: World, p: nat, now: nat)
    requires InboxOk(w, p) && w.procs[p].inbox != []
    ensures var d, n := w.procs[p].inbox[0], Next(w, Take(p, now));
      && p in n.procs && n.server == w.server && n.acked == w.acked && d.id < |w.server.stream|
      && n.procs[p].inbox == w.procs[p].inbox[1..]
      && var m := w.server.stream[d.id];
         if Valid(m) then
           var (b, ok) := Append(w.procs[p].bus, m.envelope.value.runId, [m.envelope.value], now);
           n.procs[p].bus == b && n.procs[p].phase == if ok then Acking(d.id) else Loading(d)
         else n.procs[p].bus == w.procs[p].bus && n.procs[p].phase == Burying(d, ErrorCode(m))
  {
    assert w.procs[p].inbox[0] in w.procs[p].inbox;
    hide Append;
  }

  /** The process is waiting for the control plane, or about to try the event again. */
  predicate Trying(w: World, p: nat, d: Delivered, e: Event) {
    && p in w.procs && (w.procs[p].phase == Loading(d) || w.procs[p].phase == Adopted(d))
    && d.id < |w.server.stream| && Valid(w.server.stream[d.id]) && w.server.stream[d.id].envelope.value == e
  }

  lemma LoadIs(w: World, p: nat, d: Delivered, e: Event, loaded: Option<(Task, Run)>)
    requires Trying(w, p, d, e) && w.procs[p].phase.Loading?
    ensures var n := Next(w, Load(p, loaded));
      && p in n.procs && n.server == w.server && n.acked == w.acked && n.procs[p].inbox == w.procs[p].inbox
      && (if Fits(e, loaded) then
            && n.procs[p].phase == Adopted(d) && Trying(n, p, d, e)
            && n.procs[p].bus == Seed(w.procs[p].bus, loaded.value.0, loaded.value.1, [])
          else n.procs[p].phase == GivenUp(d) && n.procs[p].bus == w.procs[p].bus)
  {
  }

  lemma RetryIs(w: World, p: nat, d: Delivered, e: Event, now: nat)
    requires Trying(w, p, d, e) && w.procs[p].phase.Adopted?
    ensures var n := Next(w, Retry(p, now));
      && p in n.procs && n.server == w.server && n.acked == w.acked && n.procs[p].inbox == w.procs[p].inbox
      && var (b, ok) := Append(w.procs[p].bus, e.runId, [e], now);
         n.procs[p].bus == b && n.procs[p].phase == if ok then Acking(d.id) else GivenUp(d)
  {
    hide Append;
  }

  /** What an attempt leaves behind: the projected event's acknowledgement or a burial still to be sent, or nothing. */
  lemma AttemptIs(w: World, p: nat, loaded: Option<(Task, Run)>, now: nat)
    requires InboxOk(w, p) && w.procs[p].inbox != []
    ensures var d, n := w.procs[p].inbox[0], Attempt(w, p, loaded, now);
      && p in n.procs && n.server == w.server && n.acked == w.acked && d.id < |w.server.stream|
      && n.procs[p].inbox == w.procs[p].inbox[1..]
      && var m := w.server.stream[d.id];
         if Valid(m) then
           var (b, ok) := Project(w.procs[p].bus, m.envelope.value, loaded, now);
           n.procs[p].bus == b && n.procs[p].phase == if ok then Acking(d.id) else GivenUp(d)
         else n.procs[p].bus == w.procs[p].bus && n.procs[p].phase == Burying(d, ErrorCode(m))
  {
    var d := w.procs[p].inbox[0];
    TakeIs(w, p, now);
    var m, taken := w.server.stream[d.id], Next(w, Take(p, now));
    hide Next, Append, Seed, InboxOk, Fits;
    if Valid(m) && taken.procs[p].phase.Loading? {
      var e := m.envelope.value;
      LoadIs(taken, p, d, e, loaded);
      if Fits(e, loaded) {
        RetryIs(Next(taken, Load(p, loaded)), p, d, e, now);
      }
    }
  }

  lemma MalformedIsTaken(w: World, p: nat, loaded: Option<(Task, Run)>, now: nat)
    requires InboxOk(w, p) && w.procs[p].inbox != [] && Malformed(w, w.procs[p].inbox[0])
    ensures Attempt(w, p, loaded, now) == Next(w, Take(p, now))
  {
    TakeIs(w, p, now);
    hide Next, Append;
  }

  /** What the final call does to its process. */
  lemma FinalCallIs(w: World, p: nat, step: Step)
    requires p in w.procs
    requires (step.SendAck? && w.procs[p].phase.Acking?) || (step.Bury? && w.procs[p].phase.Burying?)
    requires step.p == p
    ensures var n := Next(w, step);
      && p in n.procs && n.server.stream == w.server.stream && n.procs[p].phase == Idle
      && n.procs[p].bus == w.procs[p].bus
      && n.procs[p].inbox == if step.outcome.Done? then w.procs[p].inbox else []
  {
  }

  lemma ProcessedShrinks(w: World, p: nat, loaded: Option<(Task, Run)>, now: nat, final: Outcome)
    requires InboxOk(w, p) && w.procs[p].inbox != []
    ensures var n := Processed(w, p, loaded, now, final);
      && InboxOk(n, p) && |n.procs[p].inbox| < |w.procs[p].inbox|
  {
    AttemptIs(w, p, loaded, now);
    var tried := Attempt(w, p, loaded, now);
    forall d <- tried.procs[p].inbox ensures d.id < |w.server.stream| {
      assert d in w.procs[p].inbox;
    }
    hide Attempt, Project, Next;
    if tried.procs[p].phase.Acking? {
      FinalCallIs(tried, p, SendAck(p, final));
    } else if tried.procs[p].phase.Burying? {
      FinalCallIs(tried, p, Bury(p, final));
    }
  }

  class EventPump {
    const pid: nat
    const cluster: Cluster
    const bus: InMemoryRuntimeBus
    const reader: RuntimeEventReader
    var lastReclaim: nat
    var metrics: Metrics

    /** The world's view of this process is this object's projection. */
    ghost predicate Coupled()
      reads cluster, bus
    {
      && cluster.Valid() && reader.cluster == cluster
      && pid in cluster.world.procs && cluster.world.procs[pid].bus == bus.State()
    }

    /** A call that began with the counters `before` reports and counts exactly this effect. */
    ghost predicate Shows(e: Effect, processed: nat, ok: bool, before: Metrics)
      reads this`metrics
    {
      processed == e.projected && ok == e.ok && metrics == Add(before, e.counted)
    }

    constructor (pid: nat, cluster: Cluster, bus: InMemoryRuntimeBus, reader: RuntimeEventReader)
      requires cluster.Valid() && reader.cluster == cluster
      requires pid in cluster.world.procs && cluster.world.procs[pid].bus == bus.State()
      ensures Coupled() && this.pid == pid && this.cluster == cluster && this.bus == bus && this.reader == reader
    {
      this.pid, this.cluster, this.bus, this.reader := pid, cluster, bus, reader;
      lastReclaim, metrics := 0, NO_METRICS;
    }

    /** Projects the event of the first delivery, a valid one, adopting its run from the control plane when it is
        unknown. Each call on the projection is its own step of the protocol. */
    method ProjectEvent(d: Delivered, e: Event, loaded: Option<(Task, Run)>, now: nat) returns (ok: bool)
      requires Coupled() && InboxOk(cluster.world, pid)
      requires cluster.world.procs[pid].inbox != [] && cluster.world.procs[pid].inbox[0] == d
      requires var m := cluster.world.server.stream[d.id]; Valid(m) && m.envelope.value == e
      modifies cluster, bus
      ensures Coupled() && old(cluster.history) <= cluster.history
      ensures cluster.world == Attempt(old(cluster.world), pid, loaded, now)
      ensures (bus.State(), ok) == Project(old(bus.State()), e, loaded, now)
    {
      TakeIs(cluster.world, pid, now);
      hide Next, Append, Seed, InboxOk, Fits, RunAll;
      ok := bus.AppendRuntimeEvents(e.runId, [e], now);
      cluster.Perform(Take(pid, now));
      if !ok {
        LoadIs(cluster.world, pid, d, e, loaded);
        cluster.Perform(Load(pid, loaded));
        if Fits(e, loaded) {
          bus.SeedAcceptedRun(loaded.value.0, loaded.value.1, []);
          RetryIs(cluster.world, pid, d, e, now);
          ok := bus.AppendRuntimeEvents(e.runId, [e], now);
          cluster.Perform(Retry(pid, now));
        }
      }
    }

    /** Processes the first delivery of the inbox. */
    method ProcessDelivery(d: Delivered, loaded: Option<(Task, Run)>, now: nat, final: Outcome)
      returns (processed: nat, ok: bool)
      requires Coupled() && InboxOk(cluster.world, pid)
      requires cluster.world.procs[pid].inbox != [] && cluster.world.procs[pid].inbox[0] == d
      modifies this`metrics, cluster, bus
      ensures Coupled() && old(cluster.history) <= cluster.history
      ensures cluster.world == Processed(old(cluster.world), pid, loaded, now, final)
      ensures Shows(Report(old(cluster.world), pid, loaded, now, final), processed, ok, old(metrics))
    {
      AttemptIs(cluster.world, pid, loaded, now);
      hide Next, InboxOk, Project, Attempt, RunAll, Finish;
      var m := cluster.world.server.stream[d.id];
      if !Valid(m) {
        MalformedIsTaken(cluster.world, pid, loaded, now);
        metrics := metrics.(malformed := metrics.malformed + 1);
        cluster.Perform(Take(pid, now));
        ok := DeadLetter(final);
        return 0, ok;
      }
      var projected := ProjectEvent(d, m.envelope.value, loaded, now);
      processed, ok := Settle(d, projected, final);
    }

    /** The end of a delivery whose event was projected, or could not be. */
    method Settle(d: Delivered, projected: bool, final: Outcome) returns (processed: nat, ok: bool)
      requires Coupled() && !Malformed(cluster.world, d)
      requires cluster.world.procs[pid].phase == if projected then Acking(d.id) else GivenUp(d)
      modifies this`metrics, cluster
      ensures Coupled() && old(cluster.history) <= cluster.history
      ensures cluster.world == Finish(old(cluster.world), pid, final)
      ensures Shows(Ended(old(cluster.world), pid, final), processed, ok, old(metrics))
    {
      hide Next, RunAll, Malformed;
      if !projected {
        if d.reclaimed && d.count >= MAX_DELIVERIES {
          ok := DeadLetter(final);
          return 0, ok;
        }
        metrics := metrics.(retryDeferred := metrics.retryDeferred + 1);
        return 0, true;
      }
      ok := AckEvents(final);
      return 1, ok;
    }

    /** Acknowledges the message whose event was projected. */
    method AckEvents(final: Outcome) returns (ok: bool)
      requires Coupled() && cluster.world.procs[pid].phase.Acking?
      modifies cluster
      ensures Coupled() && old(cluster.history) <= cluster.history
      ensures cluster.world == Next(old(cluster.world), SendAck(pid, final)) && ok == final.Done?
    {
      FinalCallIs(cluster.world, pid, SendAck(pid, final));
      cluster.Perform(SendAck(pid, final));
      return final.Done?;
    }

    /** Runs the dead-letter script for the delivery the process has given up on. */
    method DeadLetter(final: Outcome) returns (ok: bool)
      requires Coupled() && cluster.world.procs[pid].phase.Burying?
      modifies this`metrics, cluster
      ensures Coupled() && old(cluster.history) <= cluster.history
      ensures cluster.world == Finish(old(cluster.world), pid, final) && ok == final.Done?
      ensures metrics == if ok then old(metrics).(deadLettered := old(metrics).deadLettered + 1) else old(metrics)
    {
      FinalCallIs(cluster.world, pid, Bury(pid, final));
      cluster.Perform(Bury(pid, final));
      if final.Done? {
        metrics := metrics.(deadLettered := metrics.deadLettered + 1);
      }
      return final.Done?;
    }

    /** The loop over a batch. */
    method ProcessBatch(weather: Weather, now: nat) returns (appended: nat, ok: bool)
      requires Coupled() && InboxOk(cluster.world, pid)
      modifies this`metrics, cluster, bus
      ensures Coupled() && old(cluster.history) <= cluster.history && Resting(cluster.world, pid)
      ensures cluster.world == Drained(old(cluster.world), pid, weather, 0, now)
      ensures Shows(Tally(old(cluster.world), pid, weather, 0, now), appended, ok, old(metrics))
    {
      hide Underway, Processed, Report, Drained, Tally, Next, RunAll, Malformed;
      appended := 0;
      var i := 0;
      ghost var sofar := NOTHING;
      Begins(cluster.world, pid, weather, now);
      while |cluster.world.procs[pid].inbox| > 0
        invariant Coupled() && InboxOk(cluster.world, pid) && old(cluster.history) <= cluster.history
        invariant Underway(old(cluster.world), cluster.world, pid, weather, i, now, sofar)
        invariant Shows(sofar, appended, true, old(metrics))
        decreases |cluster.world.procs[pid].inbox|
      {
        Advances(old(cluster.world), cluster.world, pid, weather, i, now, sofar);
        ProcessedShrinks(cluster.world, pid, weather.loaded(i), now, weather.final(i));
        sofar := Then(sofar, Report(cluster.world, pid, weather.loaded(i), now, weather.final(i)));
        var processed, fine := ProcessDelivery(
          cluster.world.procs[pid].inbox[0], weather.loaded(i), now, weather.final(i));
        appended, i := appended + processed, i + 1;
        if !fine {
          return appended, false;
        }
      }
      Ends(old(cluster.world), cluster.world, pid, weather, i, now, sofar);
      return appended, true;
    }

    /** What a cycle without a claim does to `before`: it reads a batch and processes all of it, or fails to read. */
    ghost predicate AfterRead(before: World, counted: Metrics, weather: Weather, now: nat, processed: nat, ok: bool)
      reads this`metrics, cluster
    {
      var read := Next(before, Read(pid, BATCH_SIZE, weather.read));
      if weather.read.Done? && before.server.grouped then
        && cluster.world == Drained(read, pid, weather, 0, now)
        && Shows(Tally(read, pid, weather, 0, now), processed, ok, counted)
      else
        cluster.world == read && processed == 0 && !ok && metrics == counted
    }

    /** What a cycle with a reclaim due does to `before`: nothing more once the scan fails or a claim fails, the
        claimed delivery and nothing else when there is one, and else the next batch. */
    ghost predicate AfterReclaim(before: World, cursor: Cursor, counted: Metrics, weather: Weather, now: nat,
                                 processed: nat, ok: bool)
      reads this`metrics, cluster, reader
    {
      match Scanned(before, pid, cursor, weather)
      case None =>
        && cluster.world == before && reader.pendingScanStart == cursor
        && processed == 0 && !ok && metrics == counted
      case Some((w, page, verdicts)) =>
        && Walked(page, verdicts) && reader.pendingScanStart == NextCursor(cursor, page, verdicts)
        && if verdicts != [] && verdicts[|verdicts| - 1].Failed? then
             cluster.world == w && processed == 0 && !ok && metrics == counted
           else if verdicts != [] && verdicts[|verdicts| - 1].Claimed? then
             && cluster.world == Processed(w, pid, weather.loaded(0), now, weather.final(0))
             && Shows(Report(w, pid, weather.loaded(0), now, weather.final(0)), processed, ok,
                      counted.(reclaimed := counted.reclaimed + 1))
           else AfterRead(w, counted, weather, now, processed, ok)
    }

    /** One cycle: a stale delivery if a reclaim is due and one can be claimed, else the next batch. The world
        only moves by protocol steps, so whatever holds in every reachable world holds after the cycle. */
    method RunOnce(clock: nat, weather: Weather, now: nat) returns (processed: nat, ok: bool)
      requires Coupled() && Resting(cluster.world, pid) && lastReclaim <= clock
      requires forall i: nat, s <- weather.others(i) :: ByOthers(pid, s)
      modifies this, cluster, bus, reader
      ensures Coupled() && Resting(cluster.world, pid) && old(cluster.history) <= cluster.history
      ensures Inv(cluster.world)
      ensures lastReclaim == if clock - old(lastReclaim) >= 1000 then clock else old(lastReclaim)
      ensures clock - old(lastReclaim) >= 1000 ==>
        AfterReclaim(old(cluster.world), old(reader.pendingScanStart), old(metrics), weather, now, processed, ok)
      ensures clock - old(lastReclaim) < 1000 ==>
        && AfterRead(old(cluster.world), old(metrics), weather, now, processed, ok)
        && reader.pendingScanStart == old(reader.pendingScanStart)
    {
      hide Scanned, AfterRead, Processed, Report, ByOthers, Judged, RunAll, Shows, Inv, PendingFrom;
      if clock - lastReclaim >= RECLAIM_INTERVAL {
        lastReclaim := clock;
        var fine, d, _, _ := reader.ClaimStaleDelivery(pid, weather);
        if !fine {
          RunKeepsInv(NEW_WORLD, cluster.history);
          return 0, false;
        }
        if d.Some? {
          processed, ok := ProcessClaimed(d.value, weather, now);
          return;
        }
      }
      processed, ok := ReadAndProcess(weather, now);
    }

    method ProcessClaimed(d: Delivered, weather: Weather, now: nat) returns (processed: nat, ok: bool)
      requires Coupled() && cluster.world.procs[pid].phase.Idle? && cluster.world.procs[pid].inbox == [d]
      modifies this`metrics, cluster, bus
      ensures Coupled() && Resting(cluster.world, pid) && old(cluster.history) <= cluster.history
      ensures Inv(cluster.world)
      ensures cluster.world == Processed(old(cluster.world), pid, weather.loaded(0), now, weather.final(0))
      ensures Shows(Report(old(cluster.world), pid, weather.loaded(0), now, weather.final(0)), processed, ok,
                    old(metrics).(reclaimed := old(metrics).reclaimed + 1))
    {
      hide Processed, Report, Malformed;
      RunKeepsInv(NEW_WORLD, cluster.history);
      HandedOutIsInStream(cluster.world, pid);
      ProcessedShrinks(cluster.world, pid, weather.loaded(0), now, weather.final(0));
      metrics := metrics.(reclaimed := metrics.reclaimed + 1);
      processed, ok := ProcessDelivery(d, weather.loaded(0), now, weather.final(0));
      RunKeepsInv(NEW_WORLD, cluster.history);
    }

    method ReadAndProcess(weather: Weather, now: nat) returns (processed: nat, ok: bool)
      requires Coupled() && Resting(cluster.world, pid)
      modifies this`metrics, cluster, bus
      ensures Coupled() && Resting(cluster.world, pid) && old(cluster.history) <= cluster.history
      ensures Inv(cluster.world)
      ensures AfterRead(old(cluster.world), old(metrics), weather, now, processed, ok)
    {
      hide Drained, Tally, Next, RunAll;
      var grouped := cluster.world.server.grouped;
      ReadIs(cluster.world, pid, weather.read);
      cluster.Perform(Read(pid, BATCH_SIZE, weather.read));
      RunKeepsInv(NEW_WORLD, cluster.history);
      if !weather.read.Done? || !grouped {
        return 0, false;
      }
      HandedOutIsInStream(cluster.world, pid);
      processed, ok := ProcessBatch(weather, now);
      RunKeepsInv(NEW_WORLD, cluster.history);
    }
  }

  lemma HandedOutIsInStream(w: World, p: nat)
    requires Inv(w) && p in w.procs && w.procs[p].phase.Idle?
    ensures InboxOk(w, p)
  {
    forall d <- w.procs[p].inbox ensures d.id < |w.server.stream| {
      assert ProcOk(w, w.procs[p]);
      assert DeliveredOk(w, d);
    }
  }

  lemma ReadIs(w: World, p: nat, outcome: Outcome)
    requires Resting(w, p)
    ensures var n := Next(w, Read(p, BATCH_SIZE, outcome));
      && p in n.procs && n.procs[p].phase == Idle && n.procs[p].bus == w.procs[p].bus
      && (!outcome.Done? || !w.server.grouped ==> n.procs[p].inbox == [])
  {
  }
}
