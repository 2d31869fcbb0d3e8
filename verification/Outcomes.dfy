/** What the invariants mean to someone who reads a run's log, its checkpoints or its end. */
module Outcomes {
  import opened Wrappers
  import opened Contracts
  import opened KernelState
  import opened Sorting
  import opened Scheduler
  import opened Store
  import opened Journals
  import opened WorldRules
  import opened DriverRules
  import opened RunRules
  import opened Invariants
  import opened DriverInvariants
  import opened Recovery
  import opened Histories
  import opened Accounting
  import opened Playbacks

  // ---- budgets ----

  lemma BudgetOf(s: Setup, w: WorldState, l: Ledger, events: seq<Event>, spent: ResourceDelta)
    requires Faithful(s, w, l, Debt(map[], spent, []), events) && spent == NoResources && s.driver.SessionDriven?
    ensures w.counters.modelCalls == TotalResources(events).modelCalls + l.unlogged.modelCalls
    ensures w.resources.costUsd == TotalResources(events).costUsd + l.unlogged.costUsd
    ensures w.resources.inputTokens == TotalResources(events).inputTokens + l.unlogged.inputTokens
  {
    hide Mirrors, NotAhead, WellAddressed, Stocked, Taken, Delayed, Matched, Tallied, TotalResources;
  }

  /** At every checkpoint of every history the calls and the money counted are those of the log
      before it, plus what error emissions reported and no event carries: a resume neither
      refunds nor charges twice. */
  lemma BudgetsSurviveCrashes(s: Setup, h: History, q: nat)
    requires Runnable(s) && Orderly(s, h) && q in After(s, h).checkpoints && s.driver.SessionDriven?
    ensures q <= |After(s, h).events|
    ensures var c, spent := After(s, h).checkpoints[q], TotalResources(After(s, h).events[..q]);
      && (c.world.counters.modelCalls == spent.modelCalls <==> c.ledger.unlogged.modelCalls == 0)
      && (c.world.resources.costUsd == spent.costUsd <==> c.ledger.unlogged.costUsd == 0.0)
      && (ThriftyHistory(h) ==>
            c.world.counters.modelCalls == spent.modelCalls && c.world.resources.costUsd == spent.costUsd)
  {
    hide Agrees, After, TotalResources, Faithful, ThriftyHistory;
    Pinned(s, h, q);
    var c := After(s, h).checkpoints[q];
    AgreesIsFaithful(s, c.world, c.ledger, NoDebt, After(s, h).events[..q]);
    BudgetOf(s, c.world, c.ledger, After(s, h).events[..q], NoResources);
    if ThriftyHistory(h) {
      EverythingIsLogged(s, h, q);
    }
  }

  lemma AgreesIsFaithful(s: Setup, w: WorldState, l: Ledger, debt: Debt, events: seq<Event>)
    requires Agrees(s, w, l, debt, events)
    ensures Faithful(s, w, l, debt, events)
  {
  }

  // ---- faults ----

  lemma TallyOf(s: Setup, w: WorldState, l: Ledger, debt: Debt, events: seq<Event>)
    requires Faithful(s, w, l, debt, events)
    ensures |l.fired| == |s.faults| && Sum(l.fired) == CountKind(events, FaultInjected)
    ensures forall i :: 0 <= i < |s.faults| && s.faults[i].onOccurrences != [] && !s.faults[i].kind.AgentDropout? ==>
      l.fired[i] == |ListedUpTo(s.faults[i], Reached(w.occurrences, i))|
    ensures forall i :: 0 <= i < |s.faults| && s.faults[i].kind.AgentDropout? ==> l.fired[i] == 0
  {
    hide Mirrors, NotAhead, WellAddressed, Stocked, Taken, Delayed, Matched, Budgeted, ListedUpTo;
  }

  /** However often the run was resumed: a fault with listed occurrences fired once for each listed
      number among the deliveries that reached it, a dropout fault never, and the log before the
      checkpoint holds one record per firing. */
  lemma FaultsFireAsListed(s: Setup, h: History, q: nat)
    requires Runnable(s) && Orderly(s, h) && q in After(s, h).checkpoints
    ensures q <= |After(s, h).events|
    ensures var c := After(s, h).checkpoints[q];
      && |c.ledger.fired| == |s.faults|
      && Sum(c.ledger.fired) == CountKind(After(s, h).events[..q], FaultInjected)
      && (forall i :: 0 <= i < |s.faults| && s.faults[i].onOccurrences != [] && !s.faults[i].kind.AgentDropout? ==>
            c.ledger.fired[i] == |ListedUpTo(s.faults[i], Reached(c.world.occurrences, i))|)
      && (forall i :: 0 <= i < |s.faults| && s.faults[i].kind.AgentDropout? ==> c.ledger.fired[i] == 0)
  {
    hide Agrees, After, Faithful, ListedUpTo, Sum, CountKind;
    Pinned(s, h, q);
    var c := After(s, h).checkpoints[q];
    AgreesIsFaithful(s, c.world, c.ledger, NoDebt, After(s, h).events[..q]);
    TallyOf(s, c.world, c.ledger, NoDebt, After(s, h).events[..q]);
  }

  // ---- the end of a run ----

  lemma MirrorOf(s: Setup, w: WorldState, l: Ledger, spent: ResourceDelta, batch: seq<Item>, events: seq<Event>)
    requires Faithful(s, w, l, Debt(map[], spent, batch), events)
    ensures w.state == s.initialState + PlaybackState(events)
  {
    hide NotAhead, WellAddressed, Stocked, Taken, Delayed, Matched, Budgeted, Tallied;
    assert (s.initialState + PlaybackState(events)) + map[] == s.initialState + PlaybackState(events);
  }

  /** An attempt that reaches its end, after any history, leaves a finished log that memory agrees
      with: the state is the log's, so are the budget and the number of faults, and the end is
      the last event. */
  lemma EndAgreesWithLog(s: Setup, h: History, m: Minds)
    requires Runnable(s) && Orderly(s, h) && CanStart(After(s, h))
    ensures var x := Attempt(s, m, Opened(After(s, h)));
      var log := x.core.Events();
      && x.core.world.state == s.initialState + PlaybackState(log)
      && CountKind(log, RunFinished) == 1 && |log| > 0 && log[|log| - 1].kind.RunFinished?
      && |x.core.ledger.fired| == |s.faults| && Sum(x.core.ledger.fired) == CountKind(log, FaultInjected)
      && (forall i :: 0 <= i < |s.faults| && s.faults[i].onOccurrences != [] && !s.faults[i].kind.AgentDropout? ==>
            x.core.ledger.fired[i] == |ListedUpTo(s.faults[i], Reached(x.core.world.occurrences, i))|)
      && (forall i :: 0 <= i < |s.faults| && s.faults[i].kind.AgentDropout? ==> x.core.ledger.fired[i] == 0)
      && (s.driver.SessionDriven? ==>
            x.core.world.counters.modelCalls == TotalResources(log).modelCalls + x.core.ledger.unlogged.modelCalls)
  {
    hide After, Attempt, Faithful, Durable, Synced, TotalResources, Sum, PlaybackState, ListedUpTo, Orderly;
    EveryHistoryIsSound(s, h);
    AttemptIsSafe(s, m, After(s, h));
    var x := Attempt(s, m, Opened(After(s, h)));
    var log := x.core.Events();
    MirrorOf(s, x.core.world, x.core.ledger, NoResources, [], log);
    TallyOf(s, x.core.world, x.core.ledger, Debt(map[], NoResources, []), log);
    PhaseMeaning(log);
    if s.driver.SessionDriven? {
      BudgetOf(s, x.core.world, x.core.ledger, log, NoResources);
    }
  }

  /** What `playback` rebuilds is the state itself exactly when the logged changes cover the keys the case starts with. */
  lemma PlaybackAgainstWorld(s: Setup, h: History, q: nat)
    requires Runnable(s) && Orderly(s, h) && q in After(s, h).checkpoints
    ensures q <= |After(s, h).events|
    ensures var played := PlaybackState(After(s, h).events[..q]);
      After(s, h).checkpoints[q].world.state == played <==> s.initialState.Keys <= played.Keys
  {
    hide Agrees, After, Faithful, PlaybackState;
    Pinned(s, h, q);
    var c := After(s, h).checkpoints[q];
    AgreesIsFaithful(s, c.world, c.ledger, NoDebt, After(s, h).events[..q]);
    MirrorOf(s, c.world, c.ledger, NoResources, [], After(s, h).events[..q]);
    PlaybackMissesTheStart(s.initialState, PlaybackState(After(s, h).events[..q]));
  }

  /** Every view of every history's log plays back to the same state. */
  lemma EveryViewOfEveryHistory(s: Setup, h: History, view: string)
    requires Runnable(s) && Orderly(s, h)
    ensures PlaybackState(EventView(After(s, h).events, view)) == PlaybackState(After(s, h).events)
  {
    hide After, Dense, Timely, PhaseOf, Pins, PlaybackState, EventView;
    EveryHistoryIsSound(s, h);
    EveryViewPlaysBackAlike(After(s, h).events, view);
  }

  // ---- delivery times ----

  /** Every item scheduled by the ledger is due when it should be. */
  ghost predicate AllDelayed(s: Setup, l: Ledger) {
    forall p :: p in l.posted ==> FairlyDelayed(s, p.item, p.at)
  }

  lemma DelayOf(s: Setup, w: WorldState, l: Ledger, debt: Debt, events: seq<Event>)
    requires Faithful(s, w, l, debt, events)
    ensures AllDelayed(s, l)
  {
    hide Mirrors, NotAhead, WellAddressed, Stocked, Taken, Matched, Budgeted, Tallied, FairlyDelayed;
  }

  lemma {:induction false} LedgerIsDelayed(s: Setup, h: History)
    requires Runnable(s) && Orderly(s, h)
    ensures AllDelayed(s, LedgerOf(s, h))
  {
    match h {
      case Untouched =>
      case Then(before, m, cut, _) =>
        hide Attempt, AllDelayed, Sound, AnchorOf;
        LedgerIsDelayed(s, before);
        EveryHistoryIsSound(s, before);
        AttemptIsDelayed(s, m, After(s, before));
      case Fruitless(before, _, _) =>
        hide AllDelayed;
        LedgerIsDelayed(s, before);
    }
  }

  lemma AttemptIsDelayed(s: Setup, m: Minds, t: Tables)
    requires Runnable(s) && Sound(s, t) && CanStart(t)
    ensures AllDelayed(s, Attempt(s, m, Opened(t)).core.ledger)
  {
    hide Attempt, AllDelayed, Faithful, Sound, Durable, Synced, PhaseOf, AnchorOf;
    AttemptIsSafe(s, m, t);
    var x := Attempt(s, m, Opened(t));
    DelayOf(s, x.core.world, x.core.ledger, Debt(map[], NoResources, []), x.core.Events());
  }

  lemma PostedFor(posted: seq<Posted>, item: Item) returns (p: Posted)
    requires item in Map(posted, ItemOf())
    ensures p in posted && p.item == item
  {
    var i :| 0 <= i < |posted| && Map(posted, ItemOf())[i] == item;
    p := posted[i];
  }

  /** In every history each delivered event is dated no earlier than its item was due, which is the
      latency and the extra delay of its delivery after it was scheduled, or later, when no fault
      shortens a delay. */
  lemma NothingArrivesEarly(s: Setup, h: History, k: nat) returns (p: Posted)
    requires Runnable(s) && Orderly(s, h) && k < |Deliveries(After(s, h).events)|
    ensures p in LedgerOf(s, h).posted && Shows(Deliveries(After(s, h).events)[k], p.item)
    ensures (forall f :: f in s.faults ==> f.delayTicks >= 0) ==>
      Deliveries(After(s, h).events)[k].time >= p.item.due >= p.at + s.latency + p.item.delivery.extraDelay
    ensures (forall f :: f in s.faults ==> !f.kind.DelayMessage?) ==>
      p.item.due == p.at + s.latency + p.item.delivery.extraDelay
  {
    hide After, LedgerOf, Deliveries;
    AtMostOnce(s, h);
    LedgerIsDelayed(s, h);
    var l := LedgerOf(s, h);
    var item := l.handed[k];
    assert item in multiset(l.handed);
    assert item in multiset(Map(l.posted, ItemOf()));
    p := PostedFor(l.posted, item);
  }

  // ---- what a checkpoint in the middle of a batch forgets ----

  lemma TakenOf(s: Setup, w: WorldState, l: Ledger, spent: ResourceDelta, batch: seq<Item>, events: seq<Event>)
    requires Faithful(s, w, l, Debt(map[], spent, batch), events)
    ensures multiset(l.handed) + multiset(batch) <= multiset(Map(l.posted, ItemOf()))
    ensures |Deliveries(events)| == |l.handed| && forall k :: 0 <= k < |l.handed| ==> Shows(Deliveries(events)[k], l.handed[k])
  {
    hide Mirrors, NotAhead, WellAddressed, Delayed, Budgeted, Tallied;
  }

  /** Of distinct items, those still in hand are none of those handed over. */
  lemma NoneOfBoth(posted: seq<Item>, handed: seq<Item>, batch: seq<Item>)
    requires multiset(handed) + multiset(batch) <= multiset(posted) && Distinct(posted)
    ensures forall i :: i in handed ==> i !in batch
  {
    forall i | i in handed ensures i !in batch {
      OnceIn(posted, i);
      assert (multiset(handed) + multiset(batch))[i] <= multiset(posted)[i];
      assert i in multiset(handed);
      assert i in batch ==> i in multiset(batch);
    }
  }

  /** A checkpoint written with part of a batch in hand: however the resumed attempt goes, run to
      its end the items handed over are, together with that part, at most those scheduled. So if no
      two scheduled items are equal, none of that part is handed over, and no delivered event is for it. */
  lemma BatchInHandIsForgotten(s: Setup, a: Anchor, m: Minds, m': Minds, x: Session, batch: seq<Item>, t: Tables)
    requires Runnable(s) && Healthy(s, a, x, batch)
    requires Sound(s, t) && Latest(t.checkpoints) == Some(Capture(s, m, x))
    requires x.core.journal.sequence <= |t.events| && t.events[..x.core.journal.sequence] == x.core.Events()
    ensures var c := Capture(s, m, x);
      var end := Resume(s, m', Opened(t), c).core;
      && multiset(end.ledger.handed) + multiset(batch) <= multiset(Map(end.ledger.posted, ItemOf()))
      && |Deliveries(end.Events())| == |end.ledger.handed|
      && (forall k :: 0 <= k < |end.ledger.handed| ==> Shows(Deliveries(end.Events())[k], end.ledger.handed[k]))
      && (Distinct(Map(end.ledger.posted, ItemOf())) ==> forall i :: i in end.ledger.handed ==> i !in batch)
  {
    var c := Capture(s, m, x);
    hide Sound, Healthy, Drive, Rejoin, Faithful, Durable, Synced, PhaseOf, AnchorAt;
    CheckpointOwes(s, a, m, x, batch);
    RejoinIsHealthy(s, m', t, c, batch);
    DriveSettles(s, AnchorAt(Opened(t), c), m', Rejoin(s, m', Opened(t), c), Some(c.sequence), batch);
    var end := Resume(s, m', Opened(t), c).core;
    TakenOf(s, end.world, end.ledger, NoResources, batch, end.Events());
    if Distinct(Map(end.ledger.posted, ItemOf())) {
      NoneOfBoth(Map(end.ledger.posted, ItemOf()), end.ledger.handed, batch);
    }
  }

  /** The checkpoint itself, with the batch still owed. */
  lemma CheckpointOwes(s: Setup, a: Anchor, m: Minds, x: Session, batch: seq<Item>)
    requires Healthy(s, a, x, batch)
    ensures Agrees(s, Capture(s, m, x).world, Capture(s, m, x).ledger, Debt(map[], NoResources, batch), x.core.Events())
  {
    hide Mirrors, NotAhead, WellAddressed, Stocked, Taken, Delayed, Matched, Budgeted, Tallied, PhaseOf, Durable, Synced, Canon;
    CanonBooks(s, x.core.world, x.core.ledger);
  }

  // ---- where an attempt can start ----

  /** The first event of an attempt is accepted exactly when the database holds a checkpoint or an empty log. */
  lemma FirstCommit(s: Setup, m: Minds, t: Tables, attempt: nat, index: nat, d: Draft)
    requires Sound(s, t)
    ensures match Latest(t.checkpoints)
      case None => !Clashes(t.events, Stamp(attempt, 0, index, d)) <==> CanStart(t)
      case Some(c) =>
        CanStart(t) && !Clashes(Supersede(Opened(t), c.sequence).tables.events, Stamp(attempt, c.sequence, c.index, d))
  {
    hide Pins, Agrees, Timely, Secret, PhaseOf;
    match Latest(t.checkpoints) {
      case None => FreshJournalNeedsEmptyLog(t.events, attempt, index, d);
      case Some(c) =>
        hide SoundLog, Supersede, Sound;
        SupersedeIsDurable(s, t, c);
        SoundMeansDense(s, t);
        PrefixDense(t.events, c.sequence);
        LatestIsPinned(s, t, c);
        PinIndex(s, c, t.events);
    }
  }

  /** Whatever happened to a run, a database with a checkpoint or an empty log is one `resume` works on:
      the checkpoint's counters stand inside a dense log. */
  lemma ResumeFindsItsPlace(s: Setup, h: History)
    requires Runnable(s) && Orderly(s, h) && CanStart(After(s, h))
    ensures var t := After(s, h);
      match Latest(t.checkpoints)
      case None => t.events == []
      case Some(c) => Dense(t.events) && c.sequence == c.index <= |t.events|
  {
    hide After, Agrees, Timely, Secret, PhaseOf;
    EveryHistoryIsSound(s, h);
    var t := After(s, h);
    match Latest(t.checkpoints) {
      case None =>
      case Some(c) =>
        LatestIsPinned(s, t, c);
        SoundMeansDense(s, t);
    }
  }

  lemma PinIndex(s: Setup, c: Checkpoint, events: seq<Event>)
    requires Pins(s, c, events)
    ensures c.index == c.sequence
  {
  }

  lemma EmptyIsSound(s: Setup)
    ensures Sound(s, NoTables)
  {
  }

  lemma StartedIsHealthy(s: Setup, m: Minds)
    requires Runnable(s)
    ensures var x := Begin(s, m, Opened(NoTables));
      var y := x.(core := Emit(x.core, PublicDraft(RunStarted, WORLD_ACTOR, 0, NoBody)));
      && Healthy(s, Anchor([], map[], y.core.journal.disk.trail), y, [])
      && |y.core.journal.disk.trail| == 4 && |y.core.Events()| == 1 && y.core.journal.disk.tables.checkpoints == map[]
  {
    var x := Begin(s, m, Opened(NoTables));
    hide Agrees, Sound;
    EmptyIsSound(s);
    BeginIsHealthy(s, m, NoTables);
    hide Good, Durable;
    EmitQuiet(s, Anchor([], map[], [NoTables]), x.core, PublicDraft(RunStarted, WORLD_ACTOR, 0, NoBody), Debt(map[], NoResources, []));
    var y := x.(core := Emit(x.core, PublicDraft(RunStarted, WORLD_ACTOR, 0, NoBody)));
    Reanchor(s, Anchor([], map[], [NoTables]), y, []);
  }

  lemma Reanchor(s: Setup, a: Anchor, y: Session, batch: seq<Item>)
    requires Healthy(s, a, y, batch) && a.events == [] && a.checkpoints == map[]
    ensures Healthy(s, Anchor([], map[], y.core.journal.disk.trail), y, batch)
  {
    hide Agrees, Sound, Synced;
  }

  /** The state after the first event is one of the durable states of the whole attempt. */
  lemma StartPersists(s: Setup, m: Minds)
    requires Runnable(s)
    ensures var x := Begin(s, m, Opened(NoTables));
      var y := x.(core := Emit(x.core, PublicDraft(RunStarted, WORLD_ACTOR, 0, NoBody)));
      y.core.journal.disk.trail <= Attempt(s, m, Opened(NoTables)).core.journal.disk.trail
  {
    hide Healthy, RegisterAll, Mark, Emit, RunDriver, Conclude, Faithful, Synced, PhaseOf, Sound, Keeps, AppendOnly;
    StartedIsHealthy(s, m);
    var x := Begin(s, m, Opened(NoTables));
    var y := x.(core := Emit(x.core, PublicDraft(RunStarted, WORLD_ACTOR, 0, NoBody)));
    var a := Anchor([], map[], y.core.journal.disk.trail);
    RegisterAllHealthy(s, a, y);
    MarkKeeps(s, a, y.(core := RegisterAll(y.core, s.agents)), Running, None, []);
    var z := Announce(s, x, None);
    RunDriverKeeps(s, a, m, z, []);
    var (u, outcome) := RunDriver(s, m, z);
    ConcludeSettles(s, a, u, outcome, None, []);
  }

  /** A run that dies before its first checkpoint is stranded: its log is not empty and there is
      nothing to resume from, so a later attempt starts its journal at sequence 0 and can commit
      nothing, whatever its action index. */
  lemma DeathBeforeTheFirstCheckpointStrands(s: Setup, m: Minds)
    requires Runnable(s)
    ensures var t := After(s, Then(Untouched, m, 3, 0));
      && !CanStart(t)
      && forall attempt: nat, index: nat, d: Draft :: Clashes(t.events, Stamp(attempt, 0, index, d))
  {
    hide Healthy, Emit, Attempt, Sound, Begin, Clashes;
    StartPersists(s, m);
    StartedIsHealthy(s, m);
    var x := Begin(s, m, Opened(NoTables));
    var y := x.(core := Emit(x.core, PublicDraft(RunStarted, WORLD_ACTOR, 0, NoBody)));
    var a := Anchor([], map[], y.core.journal.disk.trail);
    LastOfTrail(s, a, y);
    var t := After(s, Then(Untouched, m, 3, 0));
    var trail := Durables(s, m, NoTables);
    assert After(s, Untouched) == NoTables;
    MarkKeepsTables(CrashedAt(trail, 3, NoTables), 0);
    assert t == CrashedAt(trail, 3, NoTables);
    assert |y.core.journal.disk.trail| == 4 && y.core.journal.disk.trail <= trail;
    assert trail[3] == y.core.journal.disk.trail[3] == y.core.journal.disk.tables;
    forall attempt: nat, index: nat, d: Draft ensures Clashes(t.events, Stamp(attempt, 0, index, d)) {
      FreshJournalNeedsEmptyLog(t.events, attempt, index, d);
    }
  }

  /** As long as no attempt stores a checkpoint it stays stranded, however often it is tried. */
  lemma {:induction false} StrandedWhileFruitless(s: Setup, h: History, later: History)
    requires Runnable(s) && Orderly(s, later) && Continues(h, later) && !CanStart(After(s, h))
    ensures !CanStart(After(s, later)) && After(s, later).events == After(s, h).events
  {
    if later != h {
      StrandedWhileFruitless(s, h, later.before);
    }
  }

  lemma RegisterAllHealthy(s: Setup, a: Anchor, y: Session)
    requires Healthy(s, a, y, [])
    ensures Healthy(s, a, y.(core := RegisterAll(y.core, s.agents)), [])
  {
    hide Good, RegisterAll;
    RegisterAllKeeps(s, a, y.core, s.agents, []);
  }

  lemma LastOfTrail(s: Setup, a: Anchor, y: Session)
    requires Healthy(s, a, y, []) && a.start == y.core.journal.disk.trail
    ensures |a.start| > 0 && a.start[|a.start| - 1] == y.core.journal.disk.tables
    ensures Dense(y.core.Events())
  {
    hide Agrees, Sound;
  }
}
