/** How one delivery ends, stated in the source's own numbers and codes
    (apps/gateway/internal/orchestrator/event_pump.go:306-376, apps/gateway/internal/redis/reader.go:151-211). */
module DeliveryOutcomes {
  import opened Wrappers
  import opened RuntimeBus
  import opened StreamGroup
  import opened Delivery
  import opened DeliverySafety
  import opened EventPump
  import opened PendingScan

  /** The first delivery of a resting pump's inbox is of the message `m`. */
  predicate FirstIs(w: World, p: nat, d: Delivered, m: Message) {
    && p in w.procs && w.procs[p].phase.Idle? && w.procs[p].inbox != [] && w.procs[p].inbox[0] == d
    && d.id < |w.server.stream| && w.server.stream[d.id] == m
  }

  /** The control plane knows task and run of the event. */
  predicate Answers(e: Event, loaded: Option<(Task, Run)>) {
    match loaded
    case None => false
    case Some((task, run)) => task.id == e.taskId && run.id == e.runId && run.taskId == e.taskId
  }

  /** What the dead-letter script leaves of one entry: a live dedupe key stops the record, never the acknowledgement. */
  predicate Buried(s: Server, n: Server, d: Delivered, code: string) {
    && n.pel == s.pel - {d.id} && n.stream == s.stream && n.last == s.last && n.now == s.now && n.grouped == s.grouped
    && n.dead == (if d.id in s.keys then s.dead else s.dead + [Record(d.id, d.count, d.reclaimed, code, s.now)])
    && n.keys == s.keys + {d.id}
  }

  lemma BuryIs(w: World, p: nat, d: Delivered, code: string)
    requires p in w.procs && w.procs[p].phase == Burying(d, code)
    ensures var n := Next(w, Bury(p, Done));
      Buried(w.server, n.server, d, code) && n.acked == w.acked
  {
    if d.id in w.server.keys {
      assert w.server.keys == w.server.keys + {d.id};
    }
  }

  lemma InboxIsFirst(w: World, p: nat, d: Delivered, m: Message)
    requires InboxOk(w, p) && FirstIs(w, p, d, m)
    ensures d == w.procs[p].inbox[0] && d.id < |w.server.stream|
  {
  }

  /** A message the decoder rejects is buried at once, with the code of the first check it fails. */
  lemma RejectedIsBuried(w: World, p: nat, d: Delivered, m: Message, loaded: Option<(Task, Run)>, now: nat)
    requires InboxOk(w, p) && FirstIs(w, p, d, m) && !(m.schemaOk && m.envelope.Some? && m.routingOk)
    ensures var n := Processed(w, p, loaded, now, Done);
      var code := if !m.schemaOk then "RUNTIME_EVENT_SCHEMA_MISMATCH"
                  else if m.envelope.None? then "RUNTIME_EVENT_MALFORMED"
                  else "RUNTIME_EVENT_ROUTING_MISMATCH";
      Buried(w.server, n.server, d, code) && n.acked == w.acked
    ensures Report(w, p, loaded, now, Done) == Effect(0, true, Metrics(0, 0, 1, 1))
  {
    AttemptIs(w, p, loaded, now);
    BuryIs(Attempt(w, p, loaded, now), p, d, ErrorCode(m));
    hide Attempt, Next, InboxOk, Project, Buried;
  }

  lemma UnknownRunFails(b: Bus, e: Event, loaded: Option<(Task, Run)>, now: nat)
    requires e.runId !in b.runs && !Answers(e, loaded)
    ensures Project(b, e, loaded, now) == (b, false)
  {
    assert !Fits(e, loaded);
  }

  /** A valid event whose run neither the process nor the control plane knows: from the third reclaimed delivery on
      it is buried, and before that the server is left as it was. */
  lemma UnprojectableIsBuriedAtThree(w: World, p: nat, d: Delivered, e: Event, loaded: Option<(Task, Run)>, now: nat)
    requires InboxOk(w, p) && FirstIs(w, p, d, Message(true, Some(e), true))
    requires e.runId !in w.procs[p].bus.runs && !Answers(e, loaded)
    ensures var n := Processed(w, p, loaded, now, Done);
      if d.reclaimed && d.count >= 3 then
        Buried(w.server, n.server, d, "RUNTIME_EVENT_PROJECTION_RETRY_EXHAUSTED") && n.acked == w.acked
      else n.server == w.server
    ensures Report(w, p, loaded, now, Done)
            == if d.reclaimed && d.count >= 3 then Effect(0, true, Metrics(0, 0, 1, 0))
               else Effect(0, true, Metrics(0, 1, 0, 0))
  {
    AttemptIs(w, p, loaded, now);
    UnknownRunFails(w.procs[p].bus, e, loaded, now);
    var tried := Attempt(w, p, loaded, now);
    if d.reclaimed && d.count >= 3 {
      BuryIs(tried, p, d, "RUNTIME_EVENT_PROJECTION_RETRY_EXHAUSTED");
    }
    hide Attempt, Next, InboxOk, Project, Buried;
  }

  /** In a reachable world the buried message is off the pending list and on record, once its key is new. */
  lemma BuriedIsOnRecord(w: World, n: Server, d: Delivered, code: string)
    requires Inv(w) && Buried(w.server, n, d, code)
    ensures d.id !in n.pel && DeadLettered(n, d.id)
    ensures d.id !in w.server.keys ==>
      n.dead != [] && n.dead[|n.dead| - 1] == Record(d.id, d.count, d.reclaimed, code, w.server.now)
  {
    if d.id in w.server.keys {
      assert DeadLettered(w.server, d.id);
    } else {
      assert n.dead[|n.dead| - 1] in n.dead;
    }
  }

  /** Given up, over every run: the third reclaimed delivery of an event that cannot be projected takes the message off
      the pending list and puts it on record; any earlier one changes nothing at the server. */
  lemma GivesUpExactlyAtThree(steps: seq<Step>, p: nat, d: Delivered, e: Event, loaded: Option<(Task, Run)>, now: nat)
    requires FirstIs(RunAll(NEW_WORLD, steps), p, d, Message(true, Some(e), true))
    requires e.runId !in RunAll(NEW_WORLD, steps).procs[p].bus.runs && !Answers(e, loaded)
    ensures var w := RunAll(NEW_WORLD, steps);
      var n := Processed(w, p, loaded, now, Done);
      if d.reclaimed && d.count >= 3 then
        && d.id !in n.server.pel && DeadLettered(n.server, d.id)
        && (d.id !in w.server.keys ==>
              && n.server.dead != []
              && n.server.dead[|n.server.dead| - 1]
                 == Record(d.id, d.count, true, "RUNTIME_EVENT_PROJECTION_RETRY_EXHAUSTED", w.server.now))
      else n.server == w.server
  {
    var w := RunAll(NEW_WORLD, steps);
    RunKeepsInv(NEW_WORLD, steps);
    HandedOutIsInStream(w, p);
    UnprojectableIsBuriedAtThree(w, p, d, e, loaded, now);
    if d.reclaimed && d.count >= 3 {
      BuriedIsOnRecord(w, Processed(w, p, loaded, now, Done).server, d, "RUNTIME_EVENT_PROJECTION_RETRY_EXHAUSTED");
    }
  }

  lemma AckIs(w: World, p: nat, id: nat)
    requires p in w.procs && w.procs[p].phase == Acking(id)
    ensures var n := Next(w, SendAck(p, Done));
      && n.server == w.server.(pel := w.server.pel - {id}) && n.acked == w.acked[id := p]
      && p in n.procs && n.procs[p].bus == w.procs[p].bus
  {
  }

  lemma KnownRunProjects(b: Bus, e: Event, loaded: Option<(Task, Run)>, now: nat)
    requires e.runId in b.runs || Answers(e, loaded)
    ensures Project(b, e, loaded, now)
            == ((if e.runId in b.runs then Append(b, e.runId, [e], now).0
                 else Append(Seed(b, loaded.value.0, loaded.value.1, []), e.runId, [e], now).0), true)
  {
    if e.runId !in b.runs {
      assert Fits(e, loaded);
      assert Append(b, e.runId, [e], now) == (b, false);
      assert Append(Seed(b, loaded.value.0, loaded.value.1, []), e.runId, [e], now).1;
    }
  }

  /** A valid event of a known run, or of one the control plane returns, is appended and acknowledged, whatever its
      delivery count; an adopted run starts with this event alone. */
  lemma ProjectableIsAcknowledged(w: World, p: nat, d: Delivered, e: Event, loaded: Option<(Task, Run)>, now: nat)
    requires InboxOk(w, p) && FirstIs(w, p, d, Message(true, Some(e), true))
    requires e.runId in w.procs[p].bus.runs || Answers(e, loaded)
    ensures var n, b := Processed(w, p, loaded, now, Done), w.procs[p].bus;
      && n.server == w.server.(pel := w.server.pel - {d.id}) && n.acked == w.acked[d.id := p] && p in n.procs
      && n.procs[p].bus
         == (if e.runId in b.runs then Append(b, e.runId, [e], now).0
             else Append(Seed(b, loaded.value.0, loaded.value.1, []), e.runId, [e], now).0)
    ensures Report(w, p, loaded, now, Done) == Effect(1, true, Metrics(0, 0, 0, 0))
  {
    AttemptIs(w, p, loaded, now);
    hide Attempt, Next, InboxOk, Append, Seed, Project, Answers;
    KnownRunProjects(w.procs[p].bus, e, loaded, now);
    AckIs(Attempt(w, p, loaded, now), p, d.id);
  }

  // ----- the numbers of reading and claiming

  /** A read hands out the next messages, thirty-two at most, each for the first time, and makes the reader their
      owner. */
  lemma ReadHandsOut(w: World, p: nat, k: nat)
    requires Resting(w, p) && w.server.grouped && w.server.last <= |w.server.stream|
    ensures var n := Next(w, Read(p, BATCH_SIZE, Done));
      var count := if |w.server.stream| - w.server.last < 32 then |w.server.stream| - w.server.last else 32;
      && p in n.procs && |n.procs[p].inbox| == count && n.server.last == w.server.last + count
      && (k < count ==>
            && n.procs[p].inbox[k] == Delivered(w.server.last + k, 1, false)
            && w.server.last + k in n.server.pel
            && n.server.pel[w.server.last + k] == Entry(p, w.server.now, 1, 0))
      && n.server.stream == w.server.stream && n.server.dead == w.server.dead && n.server.now == w.server.now
  {
    var s := ReadGroup(w.server, p, 32);
    RangeIs(w.server.last, s.last, k);
  }

  lemma {:induction false} RangeIs(lo: nat, hi: nat, k: nat)
    ensures |Range(lo, hi)| == if lo < hi then hi - lo else 0
    ensures k < |Range(lo, hi)| ==> Range(lo, hi)[k] == Delivered(lo + k, 1, false)
    decreases hi - lo
  {
    if lo < hi {
      RangeIs(lo + 1, hi, if k > 0 then k - 1 else 0);
    }
  }

  /** A claim goes through exactly when the entry has been idle for five, ten or twenty seconds, by the delivery count
      the process saw; the entry then changes owner and is delivered once more. */
  lemma ClaimNeedsIdle(w: World, p: nat, id: nat)
    requires Resting(w, p) && id in w.procs[p].scan
    ensures var n, seen := Next(w, TryClaim(p, id, Done)), w.procs[p].scan[id];
      var idle := if seen <= 1 then 5000 else if seen == 2 then 10000 else 20000;
      && p in n.procs
      && (if w.server.grouped && id in w.server.pel && w.server.now - w.server.pel[id].since >= idle then
            && n.procs[p].inbox == [Delivered(id, seen + 1, true)]
            && n.server.pel == w.server.pel[id := Entry(p, w.server.now, w.server.pel[id].count + 1,
                                                        w.server.pel[id].waited + idle)]
          else n == w)
  {
  }

  /** A scan asks for an entry exactly when it has been idle for as long. */
  lemma DueIs(s: Server, id: nat)
    ensures Due(s, id)
            <==> && id in s.pel
                 && s.now - s.pel[id].since
                    >= if s.pel[id].count <= 1 then 5000 else if s.pel[id].count == 2 then 10000 else 20000
  {
  }

  // ----- lost requests and lost replies

  /** A call whose reply is lost has acted on the server like one that succeeded, and left the process with nothing to
      process; a call whose request is lost has not acted at all. */
  lemma LostReplyHasActed(w: World, p: nat, n: nat, id: nat)
    requires p in w.procs
    ensures Next(w, Read(p, n, ReplyLost)).server == Next(w, Read(p, n, Done)).server
    ensures Next(w, TryClaim(p, id, ReplyLost)).server == Next(w, TryClaim(p, id, Done)).server
    ensures Next(w, Read(p, n, RequestLost)) == Next(w, TryClaim(p, id, RequestLost)) == w
    ensures Resting(w, p) ==> Resting(Next(w, Read(p, n, ReplyLost)), p) && Resting(Next(w, TryClaim(p, id, ReplyLost)), p)
  {
    LostRead(w, p, n);
    LostClaim(w, p, id);
    hide Next;
  }

  lemma LostRead(w: World, p: nat, n: nat)
    requires p in w.procs
    ensures Next(w, Read(p, n, ReplyLost)).server == Next(w, Read(p, n, Done)).server
    ensures Next(w, Read(p, n, RequestLost)) == w
    ensures Resting(w, p) ==> Resting(Next(w, Read(p, n, ReplyLost)), p)
  {
    hide ReadGroup, Seen, Range;
  }

  lemma LostClaim(w: World, p: nat, id: nat)
    requires p in w.procs
    ensures Next(w, TryClaim(p, id, ReplyLost)).server == Next(w, TryClaim(p, id, Done)).server
    ensures Next(w, TryClaim(p, id, RequestLost)) == w
    ensures Resting(w, p) ==> Resting(Next(w, TryClaim(p, id, ReplyLost)), p)
  {
    hide Claim, Claimable, RetryIdle;
  }

  /** The same for the two calls that end a delivery; whichever way they fail, the rest of the batch is abandoned and
      stays pending. */
  lemma FailedEndAbandonsBatch(w: World, p: nat)
    requires p in w.procs && (w.procs[p].phase.Acking? || w.procs[p].phase.Burying?)
    ensures Finish(w, p, ReplyLost).server == Finish(w, p, Done).server
    ensures Finish(w, p, ReplyLost).acked == Finish(w, p, Done).acked
    ensures Finish(w, p, RequestLost).server == w.server && Finish(w, p, RequestLost).acked == w.acked
    ensures Resting(Finish(w, p, ReplyLost), p) && Resting(Finish(w, p, RequestLost), p)
    ensures var n := Finish(w, p, Done);
      p in n.procs && n.procs[p].phase == Idle && n.procs[p].inbox == w.procs[p].inbox
  {
    hide MoveToDeadLetter, StreamGroup.Ack;
  }

  /** A claim fails exactly without a reply or without the group; it is granted exactly when the entry is pending and has
      been idle for long enough. */
  lemma AnswerIs(w: World, id: nat, required: nat, outcome: Outcome)
    ensures Answer(w, id, required, outcome) == Failed <==> outcome != Done || !w.server.grouped
    ensures Answer(w, id, required, outcome) == Claimed
            <==> && outcome == Done && w.server.grouped && id in w.server.pel
                 && w.server.now - w.server.pel[id].since >= required
    ensures Answer(w, id, required, outcome) != NotDue
  {
  }
}
