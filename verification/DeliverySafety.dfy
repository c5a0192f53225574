/** Safety of the delivery protocol over every run. */
module DeliverySafety {
  import opened Wrappers
  import opened RuntimeBus
  import opened StreamGroup
  import opened Delivery
  import Projection

  // ----- the invariant

  /** At least one base interval separates the first delivery from the latest one. */
  predicate Aged(w: World, id: nat) {
    && id in w.firstSeen && w.firstSeen[id] + BASE_IDLE <= w.server.now
    && (id in w.server.pel ==> w.firstSeen[id] + BASE_IDLE <= w.server.pel[id].since)
  }

  /** A third delivery only exists three base intervals after the first one. */
  predicate DeliveredOk(w: World, d: Delivered) {
    && d.id in w.firstSeen
    && (d.count >= MAX_DELIVERIES ==> w.firstSeen[d.id] + 3 * BASE_IDLE <= w.server.now)
  }

  predicate CodeFits(w: World, id: nat, reclaimed: bool, count: nat, code: string) {
    && id < |w.server.stream|
    && (if Valid(w.server.stream[id]) then reclaimed && count >= MAX_DELIVERIES && code == RETRY_EXHAUSTED
        else code == ErrorCode(w.server.stream[id]))
  }

  /** A delivery of a well-formed event. */
  predicate Retriable(w: World, d: Delivered) {
    DeliveredOk(w, d) && d.id < |w.server.stream| && Valid(w.server.stream[d.id])
  }

  predicate ProcOk(w: World, proc: Proc) {
    && (forall id <- proc.scan :: id in w.firstSeen && (proc.scan[id] >= 2 ==> Aged(w, id)))
    && (forall d <- proc.inbox :: DeliveredOk(w, d))
    && (proc.phase.Loading? || proc.phase.Adopted? ==> Retriable(w, proc.phase.delivery))
    && (proc.phase.Acking? ==>
          && proc.phase.id in w.firstSeen && proc.phase.id < |w.server.stream|
          && Valid(w.server.stream[proc.phase.id]))
    && (proc.phase.Burying? ==>
          var d := proc.phase.delivery;
          DeliveredOk(w, d) && CodeFits(w, d.id, d.reclaimed, d.count, proc.phase.code))
  }

  predicate EntryOk(w: World, id: nat)
    requires id in w.server.pel
  {
    var e := w.server.pel[id];
    && id < w.server.last && id in w.firstSeen
    && e.count >= 1 && w.firstSeen[id] + e.waited <= e.since <= w.server.now
    && (e.count >= 2 ==> e.waited >= BASE_IDLE)
  }

  predicate RecordOk(w: World, r: Record) {
    && r.message in w.firstSeen
    && CodeFits(w, r.message, r.reclaimed, r.count, r.code)
    && (Valid(w.server.stream[r.message]) ==> w.firstSeen[r.message] + 3 * BASE_IDLE <= r.at)
  }

  ghost predicate ServerInv(w: World) {
    && (!w.server.grouped ==> w.server.last == 0)
    && w.server.last <= |w.server.stream|
    && (forall id <- w.firstSeen :: id < |w.server.stream| && w.firstSeen[id] <= w.server.now)
    && (forall id <- w.server.pel :: EntryOk(w, id))
    && (forall r <- w.server.dead :: RecordOk(w, r))
    && (forall id <- w.acked :: id < |w.server.stream| && Valid(w.server.stream[id]))
  }

  /** A message that was handed out is still pending, was acknowledged, or has a dead-letter record. */
  predicate Accounted(w: World, id: nat) {
    id in w.server.pel || id in w.acked || DeadLettered(w.server, id)
  }

  ghost predicate AllAccounted(w: World) {
    && (forall id: nat :: id < w.server.last ==> Accounted(w, id))
    && (forall id <- w.server.keys :: DeadLettered(w.server, id))
  }

  ghost predicate ProcsOk(w: World) {
    forall p <- w.procs :: ProcOk(w, w.procs[p])
  }

  ghost predicate Inv(w: World) {
    ServerInv(w) && AllAccounted(w) && ProcsOk(w)
  }

  /** What every step keeps: the stream grows, time passes, first deliveries stand, entries only get younger. */
  ghost predicate Later(w: World, n: World) {
    && w.server.stream <= n.server.stream && w.server.now <= n.server.now
    && (forall id <- w.firstSeen :: id in n.firstSeen && n.firstSeen[id] == w.firstSeen[id])
    && (forall id <- n.server.pel :: n.server.pel[id].since >= w.server.now ||
          (id in w.server.pel && w.server.pel[id].since <= n.server.pel[id].since))
  }

  lemma LaterKeepsProc(w: World, n: World, proc: Proc)
    requires Later(w, n) && ProcOk(w, proc)
    ensures ProcOk(n, proc)
  {
    forall id <- proc.scan ensures id in n.firstSeen && (proc.scan[id] >= 2 ==> Aged(n, id)) {
    }
    forall d <- proc.inbox ensures DeliveredOk(n, d) {
      assert DeliveredOk(w, d);
    }
  }

  lemma LaterKeepsProcs(w: World, n: World, p: nat)
    requires Later(w, n) && ProcsOk(w)
    requires forall q <- n.procs :: q != p ==> q in w.procs && n.procs[q] == w.procs[q]
    requires p in n.procs ==> ProcOk(n, n.procs[p])
    ensures ProcsOk(n)
  {
    forall q <- n.procs ensures ProcOk(n, n.procs[q]) {
      if q != p {
        LaterKeepsProc(w, n, w.procs[q]);
      }
    }
  }

  lemma LaterKeepsRecords(w: World, n: World)
    requires Later(w, n) && ServerInv(w) && n.server.dead == w.server.dead
    ensures forall r <- n.server.dead :: RecordOk(n, r)
  {
    forall r <- n.server.dead ensures RecordOk(n, r) {
      assert RecordOk(w, r);
    }
  }

  /** A step that changes one process and nothing else. */
  lemma ProcStepKeepsInv(w: World, n: World, p: nat)
    requires Inv(w) && n == w.(procs := n.procs)
    requires forall q <- n.procs :: q != p ==> q in w.procs && n.procs[q] == w.procs[q]
    requires p in n.procs ==> ProcOk(n, n.procs[p])
    ensures Inv(n)
  {
    LaterKeepsProcs(w, n, p);
    LaterKeepsRecords(w, n);
    forall id <- n.server.pel ensures EntryOk(n, id) {
      assert EntryOk(w, id);
    }
    forall id: nat | id < n.server.last ensures Accounted(n, id) {
      assert Accounted(w, id);
    }
  }

  lemma LaterThanItself(w: World, p: nat, proc: Proc)
    ensures Later(w, WithProc(w, p, proc))
  {
  }

  lemma WithProcKeepsInv(w: World, p: nat, proc: Proc)
    requires Inv(w) && ProcOk(w, proc)
    ensures Inv(WithProc(w, p, proc))
  {
    hide ProcOk, Inv, Later;
    LaterThanItself(w, p, proc);
    LaterKeepsProc(w, WithProc(w, p, proc), proc);
    ProcStepKeepsInv(w, WithProc(w, p, proc), p);
  }

  /** A step that leaves the records and keys alone and only takes ids out of the pending list that are accounted for. */
  lemma AccountsKept(w: World, n: World)
    requires AllAccounted(w) && n.server.dead == w.server.dead && n.server.keys <= w.server.keys
    requires n.acked.Keys >= w.acked.Keys && n.server.last <= w.server.last
    requires forall id <- w.server.pel :: id < n.server.last ==> Accounted(n, id)
    ensures AllAccounted(n)
  {
    forall id: nat | id < n.server.last ensures Accounted(n, id) {
      assert Accounted(w, id);
    }
  }

  // ----- each step keeps it

  lemma {:induction false} RangeIs(lo: nat, hi: nat)
    ensures forall d <- Range(lo, hi) :: lo <= d.id < hi && d.count == 1 && !d.reclaimed
    ensures lo <= hi ==> |Range(lo, hi)| == hi - lo && forall i :: 0 <= i < hi - lo ==> Range(lo, hi)[i].id == lo + i
    decreases hi - lo
  {
    if lo < hi {
      RangeIs(lo + 1, hi);
    }
  }

  lemma ReadKeepsServer(w: World, p: nat, n: nat, outcome: Outcome)
    requires Inv(w) && Resting(w, p) && !outcome.RequestLost?
    ensures var after := ReadStep(w, p, n, outcome); Later(w, after) && ServerInv(after) && AllAccounted(after)
  {
    var after := ReadStep(w, p, n, outcome);
    forall id <- after.server.pel ensures EntryOk(after, id) {
      assert id in w.server.pel ==> EntryOk(w, id);
    }
    LaterKeepsRecords(w, after);
    forall id: nat | id < after.server.last ensures Accounted(after, id) {
      assert id < w.server.last ==> Accounted(w, id);
    }
  }

  lemma ReadKeepsInv(w: World, p: nat, n: nat, outcome: Outcome)
    requires Inv(w) && Resting(w, p)
    ensures Inv(ReadStep(w, p, n, outcome))
  {
    if !outcome.RequestLost? {
      var after := ReadStep(w, p, n, outcome);
      ReadKeepsServer(w, p, n, outcome);
      hide EntryOk, RecordOk;
      RangeIs(if w.server.grouped then w.server.last else after.server.last, after.server.last);
      LaterKeepsProc(w, after, w.procs[p]);
      LaterKeepsProcs(w, after, p);
    }
  }

  lemma ClaimKeepsServer(w: World, p: nat, id: nat, outcome: Outcome)
    requires Inv(w) && Resting(w, p) && id in w.procs[p].scan && ClaimStep(w, p, id, outcome) != w
    ensures var after := ClaimStep(w, p, id, outcome);
      && Later(w, after) && ServerInv(after) && AllAccounted(after)
      && (w.procs[p].scan[id] >= 2 ==> w.firstSeen[id] + 3 * BASE_IDLE <= w.server.now)
  {
    var after, seen := ClaimStep(w, p, id, outcome), w.procs[p].scan[id];
    RetryIdleBounds(BASE_IDLE, seen, seen);
    assert ProcOk(w, w.procs[p]);
    forall j <- after.server.pel ensures EntryOk(after, j) {
      assert EntryOk(w, j);
    }
    LaterKeepsRecords(w, after);
    AccountsKept(w, after);
  }

  lemma ClaimKeepsInv(w: World, p: nat, id: nat, outcome: Outcome)
    requires Inv(w) && Resting(w, p) && id in w.procs[p].scan
    ensures Inv(ClaimStep(w, p, id, outcome))
  {
    var after := ClaimStep(w, p, id, outcome);
    if after != w {
      ClaimKeepsServer(w, p, id, outcome);
      assert ProcOk(w, w.procs[p]);
      LaterKeepsProc(w, after, w.procs[p]);
      LaterKeepsProcs(w, after, p);
    }
  }

  /** A process between two server calls: what it may be in the middle of with delivery `d`. */
  predicate PhaseFits(w: World, phase: Phase, d: Delivered)
    requires d.id < |w.server.stream|
  {
    match phase
    case Idle => true
    case Loading(e) => e == d && Valid(w.server.stream[d.id])
    case Adopted(e) => e == d && Valid(w.server.stream[d.id])
    case Acking(id) => id == d.id && Valid(w.server.stream[d.id])
    case Burying(e, code) => e == d && CodeFits(w, d.id, d.reclaimed, d.count, code)
  }

  /** A step on delivery `d` that touches one process's projection, inbox and phase. */
  lemma PhaseStepKeepsInv(w: World, n: World, p: nat, d: Delivered)
    requires Inv(w) && p in w.procs && p in n.procs && n == WithProc(w, p, n.procs[p])
    requires d.id < |w.server.stream| && DeliveredOk(w, d) && PhaseFits(w, n.procs[p].phase, d)
    requires n.procs[p].scan == w.procs[p].scan && forall e <- n.procs[p].inbox :: e in w.procs[p].inbox
    ensures Inv(n)
  {
    assert ProcOk(w, w.procs[p]);
    PhaseIsOk(w, w.procs[p], n.procs[p], d);
    hide ProcOk, Inv;
    WithProcKeepsInv(w, p, n.procs[p]);
  }

  lemma PhaseIsOk(w: World, before: Proc, after: Proc, d: Delivered)
    requires ProcOk(w, before) && d.id < |w.server.stream| && DeliveredOk(w, d) && PhaseFits(w, after.phase, d)
    requires after.scan == before.scan && forall e <- after.inbox :: e in before.inbox
    ensures ProcOk(w, after)
  {
    FirstSeenOf(w, d);
    hide DeliveredOk, CodeFits, Aged;
    forall e <- after.inbox ensures DeliveredOk(w, e) {
      assert e in before.inbox;
    }
  }

  lemma FirstSeenOf(w: World, d: Delivered)
    requires DeliveredOk(w, d)
    ensures d.id in w.firstSeen
  {
  }

  lemma TakeKeepsInv(w: World, p: nat, now: nat)
    requires Inv(w) && p in w.procs && w.procs[p].phase.Idle? && w.procs[p].inbox != []
    requires w.procs[p].inbox[0].id < |w.server.stream|
    ensures Inv(TakeStep(w, p, now))
  {
    var d := w.procs[p].inbox[0];
    assert ProcOk(w, w.procs[p]) && d in w.procs[p].inbox;
    TakenFits(w, p, now);
    hide Inv, ProcOk, TakeStep, PhaseFits;
    PhaseStepKeepsInv(w, TakeStep(w, p, now), p, d);
  }

  lemma TakenFits(w: World, p: nat, now: nat)
    requires p in w.procs && w.procs[p].phase.Idle? && w.procs[p].inbox != []
    requires w.procs[p].inbox[0].id < |w.server.stream|
    ensures var d, n := w.procs[p].inbox[0], TakeStep(w, p, now);
      && p in n.procs && n == WithProc(w, p, n.procs[p]) && n.procs[p].scan == w.procs[p].scan
      && (forall e <- n.procs[p].inbox :: e in w.procs[p].inbox)
      && PhaseFits(w, n.procs[p].phase, d)
  {
    hide Append;
  }

  lemma GivenUpFits(w: World, d: Delivered)
    requires d.id < |w.server.stream| && Valid(w.server.stream[d.id])
    ensures PhaseFits(w, GivenUp(d), d)
  {
  }

  lemma LoadKeepsInv(w: World, p: nat, loaded: Option<(Task, Run)>)
    requires Inv(w) && p in w.procs && w.procs[p].phase.Loading?
    ensures Inv(LoadStep(w, p, loaded))
  {
    var d := w.procs[p].phase.delivery;
    assert ProcOk(w, w.procs[p]) && Retriable(w, d);
    GivenUpFits(w, d);
    hide Inv, ProcOk, Valid, GivenUp;
    PhaseStepKeepsInv(w, LoadStep(w, p, loaded), p, d);
  }

  lemma RetryKeepsInv(w: World, p: nat, now: nat)
    requires Inv(w) && p in w.procs && w.procs[p].phase.Adopted?
    ensures Inv(RetryStep(w, p, now))
  {
    var d := w.procs[p].phase.delivery;
    assert ProcOk(w, w.procs[p]) && Retriable(w, d);
    GivenUpFits(w, d);
    hide Inv, ProcOk, Valid, GivenUp, Append;
    PhaseStepKeepsInv(w, RetryStep(w, p, now), p, d);
  }

  /** The server after an acknowledgement whose request may have been lost. */
  function Acked(w: World, p: nat, outcome: Outcome): World
    requires p in w.procs && w.procs[p].phase.Acking?
  {
    var id := w.procs[p].phase.id;
    if outcome.RequestLost? then w else w.(server := StreamGroup.Ack(w.server, id), acked := w.acked[id := p])
  }

  lemma AckIsOnAcked(w: World, p: nat, outcome: Outcome)
    requires p in w.procs && w.procs[p].phase.Acking?
    ensures Next(w, SendAck(p, outcome)) == WithProc(Acked(w, p, outcome), p, Settle(w.procs[p], outcome))
  {
  }

  lemma AckedKeepsInv(w: World, p: nat, outcome: Outcome)
    requires Inv(w) && p in w.procs && w.procs[p].phase.Acking?
    ensures Inv(Acked(w, p, outcome))
  {
    var after := Acked(w, p, outcome);
    assert ProcOk(w, w.procs[p]);
    hide ProcOk, CodeFits;
    LaterKeepsProc(w, after, w.procs[p]);
    LaterKeepsProcs(w, after, p);
    LaterKeepsRecords(w, after);
    forall id <- after.server.pel ensures EntryOk(after, id) {
      assert EntryOk(w, id);
    }
    AccountsKept(w, after);
  }

  lemma AckSettles(w: World, p: nat, outcome: Outcome)
    requires ProcsOk(w) && p in w.procs && w.procs[p].phase.Acking?
    ensures ProcOk(w, Settle(w.procs[p], outcome))
  {
    assert ProcOk(w, w.procs[p]);
  }

  lemma AckKeepsInv(w: World, p: nat, outcome: Outcome)
    requires Inv(w) && p in w.procs && w.procs[p].phase.Acking?
    ensures Inv(Next(w, SendAck(p, outcome)))
  {
    var mid := Acked(w, p, outcome);
    AckedKeepsInv(w, p, outcome);
    AckIsOnAcked(w, p, outcome);
    assert ProcsOk(mid) && mid.procs == w.procs;
    hide Next, Acked, Inv, ProcOk, ProcsOk, Settle;
    AckSettles(mid, p, outcome);
    WithProcKeepsInv(mid, p, Settle(w.procs[p], outcome));
  }

  lemma BuryKeepsServer(w: World, p: nat)
    requires Inv(w) && p in w.procs && w.procs[p].phase.Burying?
    ensures var r := RecordOf(w, w.procs[p].phase.delivery, w.procs[p].phase.code);
      var n := w.(server := MoveToDeadLetter(w.server, r));
      Later(w, n) && ServerInv(n) && AllAccounted(n)
  {
    var r := RecordOf(w, w.procs[p].phase.delivery, w.procs[p].phase.code);
    var n := w.(server := MoveToDeadLetter(w.server, r));
    assert ProcOk(w, w.procs[p]);
    forall x <- n.server.dead ensures RecordOk(n, x) {
      assert x != r ==> RecordOk(w, x);
    }
    forall id <- n.server.pel ensures EntryOk(n, id) {
      assert EntryOk(w, id);
    }
    forall id | DeadLettered(w.server, id) ensures DeadLettered(n.server, id) {
      var x :| x in w.server.dead && x.message == id;
      assert x in n.server.dead;
    }
    assert DeadLettered(n.server, r.message) by {
      assert r.message !in w.server.keys ==> r in n.server.dead;
    }
    forall id: nat | id < n.server.last ensures Accounted(n, id) {
      assert Accounted(w, id);
    }
  }

  lemma BuriedSettles(w: World, p: nat, outcome: Outcome)
    requires ProcsOk(w) && p in w.procs && w.procs[p].phase.Burying?
    ensures ProcOk(w, Settle(w.procs[p], outcome))
  {
    assert ProcOk(w, w.procs[p]);
  }

  /** The server after a burial whose request may have been lost. */
  function Buried(w: World, p: nat, outcome: Outcome): World
    requires p in w.procs && w.procs[p].phase.Burying?
  {
    var r := RecordOf(w, w.procs[p].phase.delivery, w.procs[p].phase.code);
    if outcome.RequestLost? then w else w.(server := MoveToDeadLetter(w.server, r))
  }

  lemma BuriedKeepsInv(w: World, p: nat, outcome: Outcome)
    requires Inv(w) && p in w.procs && w.procs[p].phase.Burying?
    ensures Inv(Buried(w, p, outcome))
  {
    if !outcome.RequestLost? {
      BuryKeepsServer(w, p);
      assert ProcOk(w, w.procs[p]);
      LaterKeepsProc(w, Buried(w, p, outcome), w.procs[p]);
      LaterKeepsProcs(w, Buried(w, p, outcome), p);
    }
  }

  lemma BuryIsOnBuried(w: World, p: nat, outcome: Outcome)
    requires p in w.procs && w.procs[p].phase.Burying?
    ensures Next(w, Bury(p, outcome)) == WithProc(Buried(w, p, outcome), p, Settle(w.procs[p], outcome))
  {
    hide MoveToDeadLetter, RecordOf;
  }

  lemma BuryKeepsInv(w: World, p: nat, outcome: Outcome)
    requires Inv(w) && p in w.procs && w.procs[p].phase.Burying?
    ensures Inv(Next(w, Bury(p, outcome)))
  {
    var mid := Buried(w, p, outcome);
    BuriedKeepsInv(w, p, outcome);
    assert ProcsOk(mid) && mid.procs == w.procs;
    BuryIsOnBuried(w, p, outcome);
    hide Next, Buried, Inv, ProcOk, ProcsOk, Settle;
    BuriedSettles(mid, p, outcome);
    WithProcKeepsInv(mid, p, Settle(w.procs[p], outcome));
  }

  /** What publishing, time, key expiry and the group's loss and re-creation leave as it is. */
  predicate Quiet(w: World, n: World) {
    && n.procs == w.procs && n.acked == w.acked && n.firstSeen == w.firstSeen
    && n.server.dead == w.server.dead && n.server.keys <= w.server.keys
    && w.server.stream <= n.server.stream && w.server.now <= n.server.now
    && (!n.server.grouped ==> n.server.last == 0)
    && ((n.server.pel == w.server.pel && n.server.last == w.server.last) || (n.server.pel == map[] && n.server.last == 0))
  }

  lemma OutsideIsQuiet(w: World, step: Step)
    requires Inv(w) && (step.Publish? || step.Tick? || step.Expire? || step.LoseGroup? || step.EnsureGroup?)
    ensures Quiet(w, Next(w, step))
  {
    hide ProcsOk, AllAccounted, EntryOk, RecordOk;
  }

  lemma QuietKeepsInv(w: World, n: World)
    requires Inv(w) && Quiet(w, n)
    ensures Inv(n)
  {
    hide ProcOk, CodeFits;
    LaterKeepsRecords(w, n);
    forall id <- n.server.pel ensures EntryOk(n, id) {
      assert EntryOk(w, id);
    }
    forall p <- n.procs ensures ProcOk(n, n.procs[p]) {
      LaterKeepsProc(w, n, w.procs[p]);
    }
    AccountsKept(w, n);
  }

  lemma OutsideKeepsInv(w: World, step: Step)
    requires Inv(w) && (step.Publish? || step.Tick? || step.Expire? || step.LoseGroup? || step.EnsureGroup?)
    ensures Inv(Next(w, step))
  {
    hide Next, Inv, Quiet;
    OutsideIsQuiet(w, step);
    QuietKeepsInv(w, Next(w, step));
  }

  /** A process starts, dies, or has its projection changed by a handler. */
  lemma LifeKeepsInv(w: World, step: Step)
    requires Inv(w) && (step.Start? || step.Die? || step.Handle?)
    ensures Inv(Next(w, step))
  {
    if Next(w, step) != w {
      if step.Handle? {
        assert ProcOk(w, w.procs[step.p]);
      }
      ProcStepKeepsInv(w, Next(w, step), step.p);
    }
  }

  lemma NextKeepsInv(w: World, step: Step)
    requires Inv(w)
    ensures Inv(Next(w, step))
  {
    hide Inv, TakeStep, LoadStep, RetryStep, ReadStep, ClaimStep, Settle, RecordOf, Quiet;
    if Next(w, step) != w {
      match step {
        case Read(p, n, outcome) => ReadKeepsInv(w, p, n, outcome);
        case Scan(p, ids) => ScanKeepsInv(w, p, ids);
        case TryClaim(p, id, outcome) => ClaimKeepsInv(w, p, id, outcome);
        case Take(p, now) => TakeKeepsInv(w, p, now);
        case Load(p, loaded) => LoadKeepsInv(w, p, loaded);
        case Retry(p, now) => RetryKeepsInv(w, p, now);
        case SendAck(p, outcome) => AckKeepsInv(w, p, outcome);
        case Bury(p, outcome) => BuryKeepsInv(w, p, outcome);
        case _ =>
          if step.Start? || step.Die? || step.Handle? {
            LifeKeepsInv(w, step);
          } else {
            OutsideKeepsInv(w, step);
          }
      }
    }
  }

  lemma ScanKeepsInv(w: World, p: nat, ids: set<nat>)
    requires Inv(w) && Resting(w, p)
    ensures Inv(Next(w, Scan(p, ids)))
  {
    var after := Next(w, Scan(p, ids));
    forall id <- after.procs[p].scan ensures id in w.firstSeen && (after.procs[p].scan[id] >= 2 ==> Aged(after, id)) {
      assert EntryOk(w, id);
    }
    ProcStepKeepsInv(w, after, p);
  }

  lemma {:induction false} RunKeepsInv(w: World, steps: seq<Step>)
    requires Inv(w)
    ensures Inv(RunAll(w, steps))
    decreases |steps|
  {
    if steps != [] {
      NextKeepsInv(w, steps[0]);
      RunKeepsInv(Next(w, steps[0]), steps[1..]);
    }
  }
}
