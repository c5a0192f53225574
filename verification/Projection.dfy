/** What the in-memory projection promises over every run of its operations. */
module Projection {
  import opened Wrappers
  import opened RuntimeBus

  datatype Op =
    | Deliver(run: Id, batch: seq<Event>, now: nat)
    | SeedRun(task: Task, seeded: Run, initial: seq<Event>)
    | PrepareRun(task: Task, prepared: Run, created: Event)
    | CancelRun(run: Id, notice: Event, now: nat)
    | SetRunStatus(run: Id, status: string, now: nat)
    | ReserveRequest(request: Id)
    | RestoreRequest(held: PermissionRequest)
    | ResolveRequest(request: Id, outcome: seq<Event>, now: nat)

  /** What a run was given: the list it was seeded with and everything accepted since. */
  datatype Given = Given(initial: seq<Event>, later: seq<Event>)

  /** The projection with a history of what each known run was given. */
  datatype Tracked = Tracked(bus: Bus, given: map<Id, Given>)

  const START := Tracked(EMPTY_BUS, map[])

  function Note(given: map<Id, Given>, run: Id, es: seq<Event>): map<Id, Given> {
    if run in given then given[run := given[run].(later := given[run].later + es)] else given
  }

  function Step(t: Tracked, op: Op): Tracked {
    match op
    case Deliver(run, batch, now) => Tracked(Append(t.bus, run, batch, now).0, Note(t.given, run, batch))
    case SeedRun(task, run, initial) =>
      Tracked(Seed(t.bus, task, run, initial), t.given[run.id := Given(initial, [])])
    case PrepareRun(task, run, created) =>
      Tracked(Prepare(t.bus, task, run, created), t.given[run.id := Given([created], [])])
    case CancelRun(run, notice, now) => Tracked(Cancel(t.bus, run, notice, now), Note(t.given, run, [notice]))
    case SetRunStatus(run, status, now) => t.(bus := UpdateStatus(t.bus, run, status, now))
    case ReserveRequest(request) => t.(bus := Reserve(t.bus, request).0)
    case RestoreRequest(held) => t.(bus := Restore(t.bus, held))
    case ResolveRequest(request, outcome, now) =>
      Tracked(
        CommitResolve(t.bus, request, outcome, now),
        if request in t.bus.perms then Note(t.given, t.bus.perms[request].runId, outcome) else t.given)
  }

  /** Events the gateway generates itself carry newly drawn UUIDs. */
  predicate FreshIds(t: Tracked, op: Op) {
    match op
    case CancelRun(run, notice, _) => notice.id !in IdsOf(LogOf(t.bus, run))
    case ResolveRequest(request, outcome, _) =>
      request in t.bus.perms ==>
        DistinctIds(outcome) && IdsOf(outcome) !! IdsOf(LogOf(t.bus, t.bus.perms[request].runId))
    case _ => true
  }

  function RunAll(t: Tracked, ops: seq<Op>): Tracked
    decreases |ops|
  {
    if ops == [] then t else RunAll(Step(t, ops[0]), ops[1..])
  }

  predicate Legal(t: Tracked, ops: seq<Op>)
    decreases |ops|
  {
    ops == [] || (FreshIds(t, ops[0]) && Legal(Step(t, ops[0]), ops[1..]))
  }

  /** The reference: an event is kept exactly when its id occurs nowhere before it. */
  function FirstOccurrences(es: seq<Event>): seq<Event> {
    if es == [] then []
    else
      var front, e := es[..|es| - 1], es[|es| - 1];
      FirstOccurrences(front) + if e.id in IdsOf(front) then [] else [e]
  }

  /** The log a run must show for what it was given. */
  function Shown(g: Given): seq<Event> {
    g.initial + Fresh(IdsOf(g.initial), g.later)
  }

  ghost predicate Faithful(t: Tracked) {
    && t.given.Keys == t.bus.runs.Keys <= t.bus.events.Keys
    && forall run <- t.given :: CopyAll(t.bus.events[run]) == CopyAll(Shown(t.given[run]))
  }

  // ----- the duplicate filter

  lemma IdsOfConcat(a: seq<Event>, b: seq<Event>)
    ensures IdsOf(a + b) == IdsOf(a) + IdsOf(b)
  {
    forall id | id in IdsOf(a) + IdsOf(b) ensures id in IdsOf(a + b) {
      var e :| (e in a || e in b) && e.id == id;
      assert e in a + b;
    }
  }

  lemma {:induction false} CopyConcat(a: seq<Event>, b: seq<Event>)
    ensures CopyAll(a + b) == CopyAll(a) + CopyAll(b)
    decreases |a|
  {
    if a == [] {
      assert a + b == b;
    } else {
      assert (a + b)[1..] == a[1..] + b;
      CopyConcat(a[1..], b);
    }
  }

  lemma {:induction false} CopyTwice(es: seq<Event>)
    ensures CopyAll(CopyAll(es)) == CopyAll(es)
    decreases |es|
  {
    if es != [] {
      CopyTwice(es[1..]);
      assert CopyAll(es)[1..] == CopyAll(es[1..]);
    }
  }

  lemma {:induction false} CopyKeepsIds(es: seq<Event>)
    ensures |CopyAll(es)| == |es| && IdsOf(CopyAll(es)) == IdsOf(es)
    ensures forall i :: 0 <= i < |es| ==> CopyAll(es)[i].id == es[i].id
    decreases |es|
  {
    if es != [] {
      CopyKeepsIds(es[1..]);
      IdsOfConcat([es[0]], es[1..]);
      IdsOfConcat([Copy(es[0])], CopyAll(es[1..]));
      assert es == [es[0]] + es[1..];
      assert IdsOf([es[0]]) == IdsOf([Copy(es[0])]);
    }
  }

  lemma IdsOfCons(es: seq<Event>)
    requires es != []
    ensures IdsOf(es) == {es[0].id} + IdsOf(es[1..])
  {
    assert es == [es[0]] + es[1..];
    IdsOfConcat([es[0]], es[1..]);
    assert IdsOf([es[0]]) == {es[0].id};
  }

  lemma {:induction false} FreshSplit(known: set<Id>, a: seq<Event>, b: seq<Event>)
    ensures Fresh(known, a + b) == Fresh(known, a) + Fresh(known + IdsOf(a), b)
    decreases |a|
  {
    if a == [] {
      assert a + b == b && known + IdsOf(a) == known;
    } else {
      assert (a + b)[1..] == a[1..] + b;
      IdsOfCons(a);
      if a[0].id in known {
        FreshSplit(known, a[1..], b);
        assert known + IdsOf(a[1..]) == known + IdsOf(a);
      } else {
        FreshSplit(known + {a[0].id}, a[1..], b);
        assert known + {a[0].id} + IdsOf(a[1..]) == known + IdsOf(a);
      }
    }
  }

  lemma {:induction false} FreshAvoids(known: set<Id>, es: seq<Event>)
    ensures IdsOf(Fresh(known, es)) == IdsOf(es) - known
    ensures DistinctIds(Fresh(known, es))
    decreases |es|
  {
    if es != [] {
      var rest := if es[0].id in known then Fresh(known, es[1..]) else Fresh(known + {es[0].id}, es[1..]);
      FreshAvoids(known, es[1..]);
      FreshAvoids(known + {es[0].id}, es[1..]);
      IdsOfCons(es);
      assert IdsOf([es[0]]) == {es[0].id};
      if es[0].id !in known {
        IdsOfConcat([es[0]], rest);
        forall j | 0 <= j < |rest| ensures rest[j].id != es[0].id {
          assert rest[j].id in IdsOf(rest);
        }
      }
    }
  }

  lemma {:induction false} FreshOfNew(known: set<Id>, es: seq<Event>)
    requires DistinctIds(es) && IdsOf(es) !! known
    ensures Fresh(known, es) == es
    decreases |es|
  {
    if es != [] {
      assert es[0].id in IdsOf(es);
      forall id | id in IdsOf(es[1..]) ensures id in IdsOf(es) && id != es[0].id {
        var j :| 0 <= j < |es[1..]| && es[1..][j].id == id;
        assert es[j + 1].id == id;
      }
      FreshOfNew(known + {es[0].id}, es[1..]);
    }
  }

  lemma {:induction false} FreshOfKnown(known: set<Id>, es: seq<Event>)
    requires IdsOf(es) <= known
    ensures Fresh(known, es) == []
    decreases |es|
  {
    if es != [] {
      assert es[0].id in IdsOf(es);
      FreshOfKnown(known, es[1..]);
    }
  }

  // ----- every reachable projection shows what it was given

  lemma ShownIds(log: seq<Event>, g: Given)
    requires CopyAll(log) == CopyAll(Shown(g))
    ensures IdsOf(log) == IdsOf(g.initial) + IdsOf(g.later)
  {
    CopyKeepsIds(log);
    CopyKeepsIds(Shown(g));
    IdsOfConcat(g.initial, Fresh(IdsOf(g.initial), g.later));
    FreshAvoids(IdsOf(g.initial), g.later);
  }

  lemma ShownGrows(g: Given, batch: seq<Event>)
    ensures Shown(g.(later := g.later + batch)) == Shown(g) + Fresh(IdsOf(g.initial) + IdsOf(g.later), batch)
  {
    FreshSplit(IdsOf(g.initial), g.later, batch);
  }

  lemma AppendShows(log: seq<Event>, g: Given, batch: seq<Event>)
    requires CopyAll(log) == CopyAll(Shown(g))
    ensures CopyAll(log + CopyAll(Fresh(IdsOf(log), batch))) == CopyAll(Shown(g.(later := g.later + batch)))
  {
    var added := Fresh(IdsOf(log), batch);
    ShownIds(log, g);
    ShownGrows(g, batch);
    CopyConcat(log, CopyAll(added));
    CopyTwice(added);
    CopyConcat(Shown(g), added);
  }

  lemma GeneratedShows(log: seq<Event>, g: Given, es: seq<Event>)
    requires CopyAll(log) == CopyAll(Shown(g))
    requires DistinctIds(es) && IdsOf(es) !! IdsOf(log)
    ensures CopyAll(log + es) == CopyAll(Shown(g.(later := g.later + es)))
  {
    AppendShows(log, g, es);
    FreshOfNew(IdsOf(log), es);
    CopyConcat(log, CopyAll(es));
    CopyConcat(log, es);
    CopyTwice(es);
  }

  lemma GrowKeepsFaithful(t: Tracked, run: Id, es: seq<Event>, grown: seq<Event>, b: Bus)
    requires Faithful(t) && run in t.given
    requires b.events == t.bus.events[run := grown] && b.runs.Keys == t.bus.runs.Keys
    requires CopyAll(grown) == CopyAll(Shown(t.given[run].(later := t.given[run].later + es)))
    ensures Faithful(Tracked(b, Note(t.given, run, es)))
  {
  }

  lemma DeliverKeepsFaithful(t: Tracked, run: Id, batch: seq<Event>, now: nat)
    requires Faithful(t)
    ensures Faithful(Step(t, Deliver(run, batch, now)))
  {
    if run in t.given {
      var log, b := t.bus.events[run], Append(t.bus, run, batch, now).0;
      var added := Fresh(IdsOf(log), batch);
      AppendShows(log, t.given[run], batch);
      if added == [] {
        assert log + CopyAll(added) == log;
        GrowKeepsFaithful(t, run, batch, log, b);
      } else {
        GrowKeepsFaithful(t, run, batch, log + CopyAll(added), b);
      }
    }
  }

  lemma GenerateKeepsFaithful(t: Tracked, run: Id, es: seq<Event>, b: Bus)
    requires Faithful(t) && DistinctIds(es) && IdsOf(es) !! IdsOf(LogOf(t.bus, run))
    requires b.events == t.bus.events[run := LogOf(t.bus, run) + es] && b.runs.Keys == t.bus.runs.Keys
    ensures Faithful(Tracked(b, Note(t.given, run, es)))
  {
    if run in t.given {
      GeneratedShows(t.bus.events[run], t.given[run], es);
      GrowKeepsFaithful(t, run, es, t.bus.events[run] + es, b);
    }
  }

  lemma SeedKeepsFaithful(t: Tracked, task: Task, run: Run, initial: seq<Event>)
    requires Faithful(t)
    ensures Faithful(Tracked(Seed(t.bus, task, run, initial), t.given[run.id := Given(initial, [])]))
  {
    assert Shown(Given(initial, [])) == initial;
  }

  lemma StepKeepsFaithful(t: Tracked, op: Op)
    requires Faithful(t) && FreshIds(t, op)
    ensures Faithful(Step(t, op))
  {
    match op {
      case Deliver(run, batch, now) => DeliverKeepsFaithful(t, run, batch, now);
      case SeedRun(task, run, initial) => SeedKeepsFaithful(t, task, run, initial);
      case PrepareRun(task, run, created) => SeedKeepsFaithful(t, task, run, [created]);
      case CancelRun(run, notice, now) =>
        assert IdsOf([notice]) == {notice.id};
        if run in t.bus.runs {
          GenerateKeepsFaithful(t, run, [notice], Step(t, op).bus);
        }
      case ResolveRequest(request, outcome, now) =>
        if request in t.bus.perms {
          GenerateKeepsFaithful(t, t.bus.perms[request].runId, outcome, Step(t, op).bus);
        }
      case _ =>
    }
  }

  lemma {:induction false} ReachableIsFaithful(t: Tracked, ops: seq<Op>)
    requires Faithful(t) && Legal(t, ops)
    ensures Faithful(RunAll(t, ops))
    decreases |ops|
  {
    if ops != [] {
      StepKeepsFaithful(t, ops[0]);
      ReachableIsFaithful(Step(t, ops[0]), ops[1..]);
    }
  }

  // ----- the reference filter

  lemma {:induction false} FirstOccurrencesSplit(a: seq<Event>, b: seq<Event>)
    ensures FirstOccurrences(a + b) == FirstOccurrences(a) + Fresh(IdsOf(a), b)
    decreases |b|
  {
    if b == [] {
      assert a + b == a;
    } else {
      var front, e := b[..|b| - 1], b[|b| - 1];
      assert (a + b)[..|a + b| - 1] == a + front && b == front + [e];
      FirstOccurrencesSplit(a, front);
      IdsOfConcat(a, front);
      FreshSplit(IdsOf(a), front, [e]);
    }
  }

  lemma FirstOccurrencesAreFresh(es: seq<Event>)
    ensures FirstOccurrences(es) == Fresh({}, es)
  {
    FirstOccurrencesSplit([], es);
    assert [] + es == es && IdsOf([]) == {};
  }

  lemma FirstOccurrencesDistinct(es: seq<Event>)
    ensures DistinctIds(FirstOccurrences(es))
  {
    FirstOccurrencesAreFresh(es);
    FreshAvoids({}, es);
  }

  lemma FirstOccurrencesOfDistinct(es: seq<Event>)
    requires DistinctIds(es)
    ensures FirstOccurrences(es) == es
  {
    FirstOccurrencesAreFresh(es);
    FreshOfNew({}, es);
  }

  /** Logs that copy to the same are alike event by event, in every field but the sequence number. */
  lemma SameCopiesAreAlike(a: seq<Event>, b: seq<Event>)
    ensures CopyAll(a) == CopyAll(b) <==> Alike(a, b)
  {
    CopiesAreAlike(a);
    CopiesAreAlike(b);
    if CopyAll(a) == CopyAll(b) {
      forall i | 0 <= i < |a| ensures SameEvent(a[i], b[i]) {
        assert SameEvent(CopyAll(a)[i], a[i]) && SameEvent(CopyAll(b)[i], b[i]);
      }
    } else if Alike(a, b) {
      AlikeCopyTheSame(a, b);
    }
  }

  lemma {:induction false} AlikeCopyTheSame(a: seq<Event>, b: seq<Event>)
    requires Alike(a, b)
    ensures CopyAll(a) == CopyAll(b)
  {
    if a != [] {
      assert SameEvent(a[0], b[0]);
      forall i | 0 <= i < |a[1..]| ensures SameEvent(a[1..][i], b[1..][i]) {
        assert SameEvent(a[i + 1], b[i + 1]);
      }
      AlikeCopyTheSame(a[1..], b[1..]);
    }
  }

  /** In every reachable state each known run shows its seed followed by the unseen later events, event by event and
      field by field. */
  lemma EveryRunShowsItsEvents(ops: seq<Op>, run: Id)
    requires Legal(START, ops)
    requires run in RunAll(START, ops).bus.runs
    ensures var t := RunAll(START, ops);
      && run in t.bus.events && run in t.given
      && var g := t.given[run];
         Alike(t.bus.events[run], g.initial + Fresh(IdsOf(g.initial), g.later))
  {
    ReachableIsFaithful(START, ops);
    var t := RunAll(START, ops);
    SameCopiesAreAlike(t.bus.events[run], Shown(t.given[run]));
  }

  /** In every reachable state a known run shows the first occurrences of what it was given, field by field, if and
      only if the list it was seeded with had distinct ids; and exactly then its ids are distinct. */
  lemma ProjectionIsExactlyOnce(ops: seq<Op>, run: Id)
    requires Legal(START, ops)
    requires run in RunAll(START, ops).bus.runs
    ensures var t := RunAll(START, ops);
      && run in t.bus.events && run in t.given
      && var g := t.given[run];
      && (Alike(t.bus.events[run], FirstOccurrences(g.initial + g.later)) <==> DistinctIds(g.initial))
      && (DistinctIds(t.bus.events[run]) <==> DistinctIds(g.initial))
  {
    ReachableIsFaithful(START, ops);
    var t := RunAll(START, ops);
    var g := t.given[run];
    FirstOccurrencesSplit(g.initial, g.later);
    FirstOccurrencesDistinct(g.initial + g.later);
    if DistinctIds(g.initial) {
      FirstOccurrencesOfDistinct(g.initial);
    }
    DistinctUpToCopies(t.bus.events[run], Shown(g));
    DistinctShown(g);
    SameCopiesAreAlike(t.bus.events[run], FirstOccurrences(g.initial + g.later));
    if CopyAll(t.bus.events[run]) == CopyAll(FirstOccurrences(g.initial + g.later)) {
      DistinctUpToCopies(t.bus.events[run], FirstOccurrences(g.initial + g.later));
    }
  }

  lemma DistinctUpToCopies(a: seq<Event>, b: seq<Event>)
    requires CopyAll(a) == CopyAll(b)
    ensures DistinctIds(a) <==> DistinctIds(b)
  {
    CopyKeepsIds(a);
    CopyKeepsIds(b);
  }

  lemma DistinctShown(g: Given)
    ensures DistinctIds(Shown(g)) <==> DistinctIds(g.initial)
  {
    var s, tail := Shown(g), Fresh(IdsOf(g.initial), g.later);
    FreshAvoids(IdsOf(g.initial), g.later);
    forall i | 0 <= i < |g.initial| ensures s[i] == g.initial[i] {
    }
    forall i, j | 0 <= i < |g.initial| <= j < |s| ensures s[i].id != s[j].id {
      assert s[j] == tail[j - |g.initial|] && s[j].id in IdsOf(tail) && s[i].id in IdsOf(g.initial);
    }
    if DistinctIds(g.initial) {
      forall i, j | 0 <= i < j < |s| ensures s[i].id != s[j].id {
        if |g.initial| <= i {
          assert s[i] == tail[i - |g.initial|] && s[j] == tail[j - |g.initial|];
        }
      }
    }
  }

  /** A known run always has an event list, so GetEvents never generates mock events. */
  lemma NoMockEvents(ops: seq<Op>, run: Id)
    requires Legal(START, ops)
    ensures run in RunAll(START, ops).bus.runs ==> run in RunAll(START, ops).bus.events
  {
    ReachableIsFaithful(START, ops);
  }

  /** Replaying any events a run was already given changes no field of the projection. */
  lemma ReplayChangesNothing(ops: seq<Op>, run: Id, again: seq<Event>, now: nat)
    requires Legal(START, ops)
    requires run in RunAll(START, ops).given
    requires var g := RunAll(START, ops).given[run]; forall e <- again :: e in g.initial || e in g.later
    ensures Append(RunAll(START, ops).bus, run, again, now) == (RunAll(START, ops).bus, true)
  {
    var t := RunAll(START, ops);
    ReachableIsFaithful(START, ops);
    ShownIds(t.bus.events[run], t.given[run]);
    FreshOfKnown(IdsOf(t.bus.events[run]), again);
  }

  // ----- one batch against one event at a time

  function AppendEach(b: Bus, run: Id, batch: seq<Event>, now: nat): Bus
    decreases |batch|
  {
    if batch == [] then b else AppendEach(Append(b, run, [batch[0]], now).0, run, batch[1..], now)
  }

  function AppendedAs(b: Bus, run: Id, added: seq<Event>, status: Option<string>, now: nat): Bus
    requires run in b.runs && run in b.events
  {
    Bus(b.tasks, b.runs[run := SetStatus(b.runs[run], status, now)],
        b.events[run := b.events[run] + CopyAll(added)], RegisterAll(b.perms, added))
  }

  lemma {:induction false} LastStatusOfCons(e: Event, es: seq<Event>)
    ensures LastStatus([e] + es) == if LastStatus(es).Some? then LastStatus(es) else StatusOf(e.kind)
    decreases |es|
  {
    var all := [e] + es;
    if es == [] {
      assert all[..0] == [];
    } else {
      assert all[..|all| - 1] == [e] + es[..|es| - 1];
      LastStatusOfCons(e, es[..|es| - 1]);
    }
  }

  lemma {:induction false} StatusAtBothEnds(es: seq<Event>)
    ensures FirstStatus(es).Some? <==> LastStatus(es).Some?
    decreases |es|
  {
    if es != [] {
      StatusAtBothEnds(es[1..]);
      LastStatusOfCons(es[0], es[1..]);
      assert es == [es[0]] + es[1..];
    }
  }

  lemma AppendOne(b: Bus, run: Id, e: Event, now: nat)
    requires run in b.runs && run in b.events
    ensures Append(b, run, [e], now).0 ==
      if e.id in IdsOf(b.events[run]) then b
      else AppendedAs(b, run, [e], StatusOf(e.kind), now)
  {
    assert Fresh(IdsOf(b.events[run]), [e]) == if e.id in IdsOf(b.events[run]) then [] else [e];
    assert FirstStatus([e]) == StatusOf(e.kind);
  }

  /** Appending `added` after `e` is appending both, the later status winning. */
  lemma AppendedInTurn(b: Bus, run: Id, e: Event, added: seq<Event>, now: nat)
    requires run in b.runs && run in b.events
    ensures AppendedAs(AppendedAs(b, run, [e], StatusOf(e.kind), now), run, added, LastStatus(added), now)
         == AppendedAs(b, run, [e] + added, LastStatus([e] + added), now)
  {
    LastStatusOfCons(e, added);
    CopyConcat([e], added);
    assert ([e] + added)[1..] == added;
    assert RegisterAll(b.perms, [e]) == RegisterOne(b.perms, e);
    assert b.events[run] + CopyAll([e]) + CopyAll(added) == b.events[run] + CopyAll([e] + added);
  }

  lemma {:induction false} AppendEachIs(b: Bus, run: Id, batch: seq<Event>, now: nat)
    requires run in b.runs && run in b.events
    ensures var added := Fresh(IdsOf(b.events[run]), batch);
      AppendEach(b, run, batch, now) == AppendedAs(b, run, added, LastStatus(added), now)
    decreases |batch|
  {
    if batch == [] {
      assert b.events[run] + CopyAll([]) == b.events[run];
    } else {
      var e, log := batch[0], b.events[run];
      var one := Append(b, run, [e], now).0;
      AppendOne(b, run, e, now);
      AppendEachIs(one, run, batch[1..], now);
      if e.id !in IdsOf(log) {
        CopyKeepsIds([e]);
        IdsOfConcat(log, CopyAll([e]));
        assert IdsOf([e]) == {e.id};
        AppendedInTurn(b, run, e, Fresh(IdsOf(log) + {e.id}, batch[1..]), now);
      }
    }
  }

  lemma WholeIs(b: Bus, run: Id, batch: seq<Event>, now: nat)
    requires run in b.runs && run in b.events
    ensures var added := Fresh(IdsOf(b.events[run]), batch);
      Append(b, run, batch, now).0 == AppendedAs(b, run, added, FirstStatus(added), now)
  {
    assert b.events[run] + CopyAll([]) == b.events[run];
  }

  /** A batch and its events one at a time give the same log and the same permission requests; the whole
      projection agrees if and only if the first and last status-bearing new events name the same status. */
  lemma BatchAgainstSingles(b: Bus, run: Id, batch: seq<Event>, now: nat)
    requires run in b.runs && run in b.events
    ensures var whole, each := Append(b, run, batch, now).0, AppendEach(b, run, batch, now);
      var added := Fresh(IdsOf(b.events[run]), batch);
      && whole.events == each.events && whole.perms == each.perms && whole.tasks == each.tasks
      && whole.runs.Keys == each.runs.Keys
      && (whole == each <==> FirstStatus(added) == LastStatus(added))
  {
    hide Append, AppendEach, Fresh, FirstStatus, LastStatus, RegisterAll, CopyAll;
    AppendEachIs(b, run, batch, now);
    WholeIs(b, run, batch, now);
    var added := Fresh(IdsOf(b.events[run]), batch);
    StatusAtBothEnds(added);
    var whole, each := Append(b, run, batch, now).0, AppendEach(b, run, batch, now);
    if FirstStatus(added) != LastStatus(added) {
      assert whole.runs[run].status != each.runs[run].status;
    }
  }

  /** The concrete disagreement: a batch that fails and then completes leaves the run failed. */
  lemma BatchStopsAtFirstStatus(b: Bus, failed: Event, completed: Event, now: nat)
    requires failed.runId in b.runs && failed.runId in b.events
    requires failed.id != completed.id && {failed.id, completed.id} !! IdsOf(b.events[failed.runId])
    requires failed.kind == "agent.run.failed" && completed.kind == "agent.run.completed"
    ensures Append(b, failed.runId, [failed, completed], now).0.runs[failed.runId].status == "failed"
    ensures var each := AppendEach(b, failed.runId, [failed, completed], now);
      failed.runId in each.runs && each.runs[failed.runId].status == "completed"
  {
    var run, batch := failed.runId, [failed, completed];
    FreshOfNew(IdsOf(b.events[run]), batch);
    AppendEachIs(b, run, batch, now);
  }
}
