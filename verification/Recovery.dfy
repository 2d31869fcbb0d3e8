/** Whole histories of a run: attempts, crashes after any statement, and resumes. */
module Recovery {
  import opened Wrappers
  import opened Contracts
  import opened KernelState
  import opened Sorting
  import opened Scheduler
  import opened Store
  import opened Journals
  import opened WorldRules
  import opened DriverRules
  import opened RunRules
  import opened Invariants
  import opened DriverInvariants

  // ---- the start of an attempt ----

  lemma RowKeeps(s: Setup, a: Anchor, d: Disk, t: Tables)
    requires Durable(s, a, d) && t.events == d.tables.events && t.checkpoints == d.tables.checkpoints
    ensures Durable(s, a, d.Save(t))
  {
    hide SoundLog, Pins;
    assert Sound(s, d.tables) && Keeps(a, d.tables);
    SaveKeepsDurable(s, a, d, t);
  }

  lemma MarkKeepsDurable(s: Setup, a: Anchor, x: Session, state: RunState, from: Option<nat>)
    requires Durable(s, a, x.core.journal.disk)
    ensures Durable(s, a, Mark(x, state, from).core.journal.disk)
  {
    hide Durable;
    var d := x.core.journal.disk;
    RowKeeps(s, a, d, d.tables.(runState := state));
    var d' := WithRunState(d, state);
    RowKeeps(s, a, d', d'.tables.(attempts := d'.tables.attempts[x.core.journal.attempt := AttemptRow(state, from)]));
  }

  lemma MarkKeeps(s: Setup, a: Anchor, x: Session, state: RunState, from: Option<nat>, lost: seq<Item>)
    requires Healthy(s, a, x, lost)
    ensures Healthy(s, a, Mark(x, state, from), lost)
  {
    hide Agrees, Durable, Dense;
    MarkKeepsDurable(s, a, x, state, from);
  }

  lemma {:induction false} RegisterAllKeeps(s: Setup, a: Anchor, c: Core, agents: seq<AgentSpec>, lost: seq<Item>)
    requires Good(s, a, c, Debt(map[], NoResources, lost))
    ensures Good(s, a, RegisterAll(c, agents), Debt(map[], NoResources, lost))
  {
    hide Good, Emit;
    if |agents| > 0 {
      RegisterAllKeeps(s, a, c, agents[..|agents| - 1], lost);
      var c' := RegisterAll(c, agents[..|agents| - 1]);
      var spec := agents[|agents| - 1];
      EmitQuiet(s, a, c', PublicDraft(AgentRegistered, spec.id, c'.world.time, Registered(spec.role)), Debt(map[], NoResources, lost));
    }
  }

  lemma AnnounceKeeps(s: Setup, a: Anchor, x: Session, from: Option<nat>, lost: seq<Item>)
    requires Healthy(s, a, x, lost)
    ensures Healthy(s, a, Announce(s, x, from), lost)
  {
    hide Good, Emit, RegisterAll, Mark;
    var d := PublicDraft(RunStarted, WORLD_ACTOR, x.core.world.time, NoBody);
    EmitQuiet(s, a, x.core, d, Debt(map[], NoResources, lost));
    RegisterAllKeeps(s, a, Emit(x.core, d), s.agents, lost);
    MarkKeeps(s, a, x.(core := RegisterAll(Emit(x.core, d), s.agents)), Running, from, lost);
  }

  lemma RunDriverKeeps(s: Setup, a: Anchor, m: Minds, x: Session, lost: seq<Item>)
    requires Runnable(s) && Healthy(s, a, x, lost)
    ensures Healthy(s, a, RunDriver(s, m, x).0, lost)
  {
    hide Healthy;
    if s.driver.SessionDriven? {
      RunSessionKeeps(s, a, m, x, lost);
    } else {
      EnvLoopKeeps(s, a, m, x, lost);
    }
  }

  // ---- the end of an attempt ----

  /** What still holds once the end is being written. */
  ghost predicate Settled(s: Setup, a: Anchor, c: Core, lost: seq<Item>, phase: Phase) {
    && Synced(c.journal) && Durable(s, a, c.journal.disk)
    && Faithful(s, c.world, c.ledger, Debt(map[], NoResources, lost), c.Events())
    && PhaseOf(c.Events()) == phase
  }

  lemma FaithfulIsNotAhead(s: Setup, w: WorldState, l: Ledger, debt: Debt, events: seq<Event>)
    requires Faithful(s, w, l, debt, events)
    ensures NotAhead(events, w.time)
  {
  }

  lemma PhaseNext(events: seq<Event>, e: Event)
    ensures PhaseOf(events + [e]) == NextPhase(PhaseOf(events), e.kind)
  {
    Snoc(events, e);
  }

  lemma EmitEnd(s: Setup, a: Anchor, c: Core, d: Draft, phase: Phase, lost: seq<Item>)
    requires Settled(s, a, c, lost, phase)
    requires d.kind in {PayoffAssigned, VerifierResult, RunFinished} && ProperlyHidden(d.kind, d.visibility)
    requires d.time == c.world.time && d.delta == NoResources && !NextPhase(phase, d.kind).Broken?
    ensures Settled(s, a, Emit(c, d), lost, NextPhase(phase, d.kind))
  {
    hide Faithful, Durable, Dense, PhaseOf;
    FaithfulIsNotAhead(s, c.world, c.ledger, Debt(map[], NoResources, lost), c.Events());
    EmitKeepsDisk(s, a, c, d);
    FaithfulQuiet(s, c.world, c.ledger, Debt(map[], NoResources, lost), c.Events(), NextEvent(c, d));
    PhaseNext(c.Events(), NextEvent(c, d));
  }

  /** Payoffs are not part of what memory and log say about each other. */
  lemma PayoffsAside(s: Setup, a: Anchor, c: Core, payoffs: map<Agent, real>, lost: seq<Item>, phase: Phase)
    requires Settled(s, a, c, lost, phase)
    ensures Settled(s, a, c.(world := c.world.(payoffs := payoffs)), lost, phase)
  {
    hide Mirrors, NotAhead, WellAddressed, Stocked, Taken, Delayed, Matched, Budgeted, Tallied, PhaseOf, Durable, Synced;
  }

  lemma AssignPayoffsSettles(s: Setup, a: Anchor, c: Core, perAgent: map<Agent, real>, lost: seq<Item>)
    requires Settled(s, a, c, lost, Working)
    ensures Settled(s, a, AssignPayoffs(c, perAgent), lost, Phase.Paid)
  {
    hide Settled, AddPayoffs, Emit;
    PayoffsAside(s, a, c, AddPayoffs(c.world.payoffs, perAgent), lost, Working);
    var c' := c.(world := c.world.(payoffs := AddPayoffs(c.world.payoffs, perAgent)));
    EmitEnd(s, a, c', Draft(PayoffAssigned, WORLD_ACTOR, c'.world.time, [], None, OmniscientOnly, [], Body.Paid(c'.world.payoffs), NoResources),
            Working, lost);
  }

  lemma VerifySettles(s: Setup, a: Anchor, c: Core, lost: seq<Item>)
    requires Settled(s, a, c, lost, Working)
    ensures Settled(s, a, Verify(s, c).0, lost, Working) || Settled(s, a, Verify(s, c).0, lost, Phase.Judged)
  {
    hide Settled, AssignPayoffs, Emit;
    match s.verify(ViewOf(s, c.world), c.Events()) {
      case None =>
      case Some(v) =>
        var c' := if v.perAgent != map[] then AssignPayoffs(c, v.perAgent) else c;
        AssignPayoffsSettles(s, a, c, v.perAgent, lost);
        var d := Draft(VerifierResult, WORLD_ACTOR, c'.world.time, [], None, OmniscientOnly, [],
                       Body.Judged(v.success, v.reward, v.perAgent), NoResources);
        EmitEnd(s, a, c', d, if v.perAgent != map[] then Phase.Paid else Working, lost);
    }
  }

  lemma FinishSettles(s: Setup, a: Anchor, c: Core, state: RunState, reason: string, lost: seq<Item>)
    requires Settled(s, a, c, lost, Working) || Settled(s, a, c, lost, Phase.Judged)
    ensures Settled(s, a, Emit(c, PublicDraft(RunFinished, WORLD_ACTOR, c.world.time, Ended(state, reason))), lost, Finished)
  {
    var d := PublicDraft(RunFinished, WORLD_ACTOR, c.world.time, Ended(state, reason));
    hide Settled, Emit;
    if Settled(s, a, c, lost, Working) {
      EmitEnd(s, a, c, d, Working, lost);
    } else {
      EmitEnd(s, a, c, d, Phase.Judged, lost);
    }
  }

  lemma HealthyIsSettled(s: Setup, a: Anchor, x: Session, lost: seq<Item>)
    requires Healthy(s, a, x, lost)
    ensures Settled(s, a, x.core, lost, Working)
  {
    hide Faithful, Durable, Dense;
  }

  lemma ConcludeSettles(s: Setup, a: Anchor, x: Session, outcome: Outcome, from: Option<nat>, lost: seq<Item>)
    requires Healthy(s, a, x, lost)
    ensures Settled(s, a, Conclude(s, x, outcome, from).core, lost, Finished)
  {
    hide Healthy, Settled, Emit, Mark, Verify;
    HealthyIsSettled(s, a, x, lost);
    VerifySettles(s, a, x.core, lost);
    var (core, verdict) := Verify(s, x.core);
    var state := TerminalState(outcome, verdict);
    FinishSettles(s, a, core, state, outcome.reason, lost);
    var d := PublicDraft(RunFinished, WORLD_ACTOR, core.world.time, Ended(state, outcome.reason));
    MarkSettles(s, a, x.(core := Emit(core, d)), state, from, lost);
  }

  lemma MarkSettles(s: Setup, a: Anchor, x: Session, state: RunState, from: Option<nat>, lost: seq<Item>)
    requires Settled(s, a, x.core, lost, Finished)
    ensures Settled(s, a, Mark(x, state, from).core, lost, Finished)
  {
    hide Faithful, Durable, Dense, PhaseOf;
    MarkKeepsDurable(s, a, x, state, from);
  }

  lemma DriveSettles(s: Setup, a: Anchor, m: Minds, x: Session, from: Option<nat>, lost: seq<Item>)
    requires Runnable(s) && Healthy(s, a, x, lost)
    ensures Settled(s, a, Drive(s, m, x, from).core, lost, Finished)
  {
    hide Healthy, Settled, Announce, RunDriver, Conclude;
    AnnounceKeeps(s, a, x, from, lost);
    RunDriverKeeps(s, a, m, Announce(s, x, from), lost);
    var (x', outcome) := RunDriver(s, m, Announce(s, x, from));
    ConcludeSettles(s, a, x', outcome, from, lost);
  }

  // ---- execute ----

  /** The disk a controller opens: its history of statements starts here. */
  function Opened(t: Tables): Disk {
    Disk(t, [t])
  }

  lemma {:induction false} NothingFired(n: nat)
    ensures Sum(seq(n, _ => 0)) == 0
  {
    if n > 0 {
      NothingFired(n - 1);
      assert seq(n, _ => 0)[..n - 1] == seq(n - 1, _ => 0);
    }
  }

  lemma NothingTallied(s: Setup)
    ensures Tallied(s, map[], NewLedger(s).fired, [])
  {
    NothingFired(|s.faults|);
    forall f: FaultSpec ensures ListedUpTo(f, 0) == {} {
    }
  }

  lemma NothingScheduled(s: Setup)
    ensures WellAddressed(s, {}, []) && Stocked([], 0, [], [], []) && Taken([], [], [])
    ensures Delayed(s, 0, [], []) && Matched([], []) && NotAhead([], 0)
  {
  }

  lemma NothingSpent(s: Setup, none: ResourceDelta)
    requires none == ResourceDelta(0, 0, 0, 0, 0.0, 0.0, 0)
    ensures Budgeted(s, 0, none, none, none, [])
  {
  }

  lemma NewWorldAgrees(s: Setup)
    ensures Agrees(s, NewWorld(s), NewLedger(s), NoDebt, [])
  {
    hide Tallied, WellAddressed, Stocked, Taken, Delayed, Matched, NotAhead, Budgeted;
    NothingTallied(s);
    NothingScheduled(s);
    NothingSpent(s, NoResources);
    assert s.initialState + map[] + map[] == s.initialState;
  }

  lemma BeginIsHealthy(s: Setup, m: Minds, t: Tables)
    requires Sound(s, t) && t.checkpoints == map[] && t.events == []
    ensures Healthy(s, Anchor([], map[], [t]), Begin(s, m, Opened(t)), [])
  {
    hide Agrees, Sound;
    var a, d := Anchor([], map[], [t]), Opened(t);
    assert Durable(s, a, d);
    RowKeeps(s, a, d, d.tables.(runState := Planned));
    var d' := WithRunState(d, Planned);
    var number := NextAttempt(t.attempts);
    RowKeeps(s, a, d', d'.tables.(attempts := d'.tables.attempts[number := AttemptRow(Provisioning, None)]));
    NewWorldAgrees(s);
  }

  // ---- resume ----

  lemma {:induction false} CutIsPrefix(events: seq<Event>, q: nat)
    requires Dense(events) && q <= |events|
    ensures Filter(events, Before(q)) == events[..q]
    ensures |Filter(events, From(q))| == |events| - q
    decreases |events|
  {
    if |events| > 0 {
      var front := events[..|events| - 1];
      if q <= |front| {
        CutIsPrefix(front, q);
        assert front[..q] == events[..q];
      } else {
        CutIsPrefix(front, |front|);
        assert events[..q] == events;
        SamePrefix(events, q);
      }
    }
  }

  lemma SamePrefix(events: seq<Event>, q: nat)
    requires Dense(events) && q == |events|
    ensures Filter(events, Before(q)) == events && Filter(events, From(q)) == []
  {
    FilterAll(events, Before(q));
    FilterNone(events, From(q));
  }

  function AnchorAt(d: Disk, c: Checkpoint): Anchor {
    Anchor(d.tables.events[..if c.sequence <= |d.tables.events| then c.sequence else 0], d.tables.checkpoints,
           Supersede(d, c.sequence).trail)
  }

  /** While rows are archived every durable state stays sound and keeps what was pinned. */
  lemma {:induction false} ArchivingKeeps(s: Setup, a: Anchor, d: Disk, rows: seq<Event>)
    requires forall i :: 0 <= i < |d.trail| ==> Sound(s, d.trail[i]) && Keeps(a, d.trail[i])
    requires Sound(s, d.tables) && Keeps(a, d.tables)
    ensures var d' := ArchiveRows(d, rows);
      && (forall i :: 0 <= i < |d'.trail| ==> Sound(s, d'.trail[i]) && Keeps(a, d'.trail[i]))
      && d'.tables.events == d.tables.events && d'.tables.checkpoints == d.tables.checkpoints
      && d'.tables.attempts == d.tables.attempts
  {
    hide SoundLog, Pins;
    if |rows| > 0 {
      ArchivingKeeps(s, a, d, rows[..|rows| - 1]);
    }
  }

  /** What a checkpoint pins, it pins in every shorter log that still covers it. */
  lemma PinsPrefix(s: Setup, c: Checkpoint, events: seq<Event>, q: nat)
    requires Pins(s, c, events) && c.sequence <= q <= |events|
    ensures Pins(s, c, events[..q])
  {
    hide Agrees;
    assert events[..q][..c.sequence] == events[..c.sequence];
  }

  lemma {:induction false} PrefixPhase(events: seq<Event>, q: nat)
    requires q <= |events| && !PhaseOf(events).Broken?
    ensures !PhaseOf(events[..q]).Broken?
    decreases |events|
  {
    if q < |events| {
      var front := events[..|events| - 1];
      PrefixPhase(front, q);
      assert front[..q] == events[..q];
    } else {
      assert events[..q] == events;
    }
  }

  lemma PrefixSoundLog(events: seq<Event>, q: nat)
    requires SoundLog(events) && q <= |events|
    ensures SoundLog(events[..q])
  {
    PrefixPhase(events, q);
    hide PhaseOf;
  }

  lemma PrefixSound(s: Setup, t: Tables, q: nat)
    requires Sound(s, t) && q in t.checkpoints && forall k :: k in t.checkpoints ==> k <= q
    ensures q <= |t.events| && Sound(s, t.(events := t.events[..q]))
  {
    assert q <= |t.events| by {
      hide Agrees, SoundLog;
    }
    hide Pins, SoundLog;
    PrefixSoundLog(t.events, q);
    forall k | k in t.checkpoints ensures Pins(s, t.checkpoints[k], t.events[..q]) {
      PinsPrefix(s, t.checkpoints[k], t.events, q);
    }
  }

  lemma SoundMeansDense(s: Setup, t: Tables)
    requires Sound(s, t)
    ensures Dense(t.events)
  {
  }

  lemma LatestIsPinned(s: Setup, t: Tables, c: Checkpoint)
    requires Sound(s, t) && Latest(t.checkpoints) == Some(c)
    ensures c.sequence in t.checkpoints && t.checkpoints[c.sequence] == c && Pins(s, c, t.events)
    ensures forall k :: k in t.checkpoints ==> k <= c.sequence
  {
    hide SoundLog, Pins;
    assert t.checkpoints.Keys != {};
    assert c == t.checkpoints[Maximum(t.checkpoints.Keys)];
  }

  lemma SupersedeIsDurable(s: Setup, t: Tables, c: Checkpoint)
    requires Sound(s, t) && Latest(t.checkpoints) == Some(c)
    ensures c.sequence <= |t.events|
    ensures var d := Supersede(Opened(t), c.sequence);
      d.tables.events == t.events[..c.sequence] && Durable(s, AnchorAt(Opened(t), c), d)
  {
    hide Sound, Keeps, Supersede;
    var d, q := Opened(t), c.sequence;
    LatestIsPinned(s, t, c);
    LatestCovers(s, t, c);
    PrefixSound(s, t, q);
    SoundMeansDense(s, t);
    CutIsPrefix(t.events, q);
    KeptSoFar(t, q);
    CuttingKeeps(s, AnchorAt(d, c), d, q);
  }

  lemma LatestCovers(s: Setup, t: Tables, c: Checkpoint)
    requires Pins(s, c, t.events)
    ensures c.sequence <= |t.events|
  {
    hide Agrees;
  }

  lemma KeptSoFar(t: Tables, q: nat)
    requires q <= |t.events|
    ensures Keeps(Anchor(t.events[..q], t.checkpoints, []), t)
    ensures Keeps(Anchor(t.events[..q], t.checkpoints, []), t.(events := t.events[..q]))
  {
  }

  lemma KeepsAlike(a: Anchor, b: Anchor, t: Tables, t': Tables)
    requires Keeps(a, t) && b.events == a.events && b.checkpoints == a.checkpoints
    requires t'.events == t.events && t'.checkpoints == t.checkpoints
    ensures Keeps(b, t')
  {
  }

  lemma SoundAlike(s: Setup, t: Tables, t': Tables)
    requires Sound(s, t) && t'.events == t.events && t'.checkpoints == t.checkpoints
    ensures Sound(s, t')
  {
    hide SoundLog, Pins;
  }

  lemma CuttingKeeps(s: Setup, a: Anchor, d: Disk, q: nat)
    requires q <= |d.tables.events| && d.trail == [d.tables] && a.start == Supersede(d, q).trail
    requires a.events == d.tables.events[..q] && a.checkpoints == d.tables.checkpoints
    requires Sound(s, d.tables) && Sound(s, d.tables.(events := d.tables.events[..q]))
    requires Keeps(Anchor(a.events, a.checkpoints, []), d.tables)
    requires Keeps(Anchor(a.events, a.checkpoints, []), d.tables.(events := a.events))
    requires Filter(d.tables.events, Before(q)) == d.tables.events[..q]
    ensures Supersede(d, q).tables.events == d.tables.events[..q] && Durable(s, a, Supersede(d, q))
  {
    hide Sound, Keeps;
    var rows := Filter(d.tables.events, From(q));
    KeepsAlike(Anchor(a.events, a.checkpoints, []), a, d.tables, d.tables);
    ArchivingKeeps(s, a, d, rows);
    var t1 := ArchiveRows(d, rows).tables.(events := d.tables.events[..q]);
    SoundAlike(s, d.tables.(events := d.tables.events[..q]), t1);
    KeepsAlike(Anchor(a.events, a.checkpoints, []), a, d.tables.(events := a.events), t1);
  }

  lemma CutBackIsDurable(s: Setup, t: Tables, c: Checkpoint)
    requires Sound(s, t) && Latest(t.checkpoints) == Some(c)
    ensures c.sequence <= |t.events| && CutBack(Opened(t), c).tables.events == t.events[..c.sequence]
    ensures Durable(s, AnchorAt(Opened(t), c), CutBack(Opened(t), c))
  {
    hide Sound, Durable;
    SupersedeIsDurable(s, t, c);
    var d := Supersede(Opened(t), c.sequence);
    var row := AttemptRow(Provisioning, Some(c.sequence));
    RowKeeps(s, AnchorAt(Opened(t), c), d, d.tables.(attempts := d.tables.attempts[NextAttempt(d.tables.attempts) := row]));
  }

  lemma PrefixDense(events: seq<Event>, q: nat)
    requires Dense(events) && q <= |events|
    ensures Dense(events[..q])
  {
  }

  lemma ReloadIsReady(s: Setup, m: Minds, t: Tables, c: Checkpoint, lost: seq<Item>)
    requires Sound(s, t) && Latest(t.checkpoints) == Some(c)
    requires c.sequence <= |t.events|
    requires Agrees(s, c.world, c.ledger, Debt(map[], NoResources, lost), t.events[..c.sequence])
    ensures var x := Reload(m, Opened(t), c);
      && Synced(x.core.journal) && Durable(s, AnchorAt(Opened(t), c), x.core.journal.disk)
      && Agrees(s, x.core.world, x.core.ledger, Debt(map[], NoResources, lost), x.core.Events())
      && forall k :: k in AnchorAt(Opened(t), c).checkpoints ==> k <= |x.core.Events()|
  {
    hide Sound, Durable, Dense, Agrees, CutBack;
    CutBackIsDurable(s, t, c);
    LatestIsPinned(s, t, c);
    SoundMeansDense(s, t);
    PrefixDense(t.events, c.sequence);
  }

  lemma RejoinIsHealthy(s: Setup, m: Minds, t: Tables, c: Checkpoint, lost: seq<Item>)
    requires Sound(s, t) && Latest(t.checkpoints) == Some(c)
    requires c.sequence <= |t.events|
    requires Agrees(s, c.world, c.ledger, Debt(map[], NoResources, lost), t.events[..c.sequence])
    ensures Healthy(s, AnchorAt(Opened(t), c), Rejoin(s, m, Opened(t), c), lost)
  {
    hide Sound, Durable, Synced, Agrees, AnchorAt, Reload;
    var x := Reload(m, Opened(t), c);
    var superseded := |Filter(t.events, From(c.sequence))|;
    var d := PublicDraft(AttemptStarted, WORLD_ACTOR, x.core.world.time, Resumed(c.sequence, superseded));
    ReloadIsReady(s, m, t, c, lost);
    var debt := Debt(map[], NoResources, lost);
    AgreesNow(s, x.core.world, x.core.ledger, debt, x.core.Events());
    QuietAgrees(s, x.core.world, x.core.ledger, debt, x.core.Events(), NextEvent(x.core, d));
    EmitKeeps(s, AnchorAt(Opened(t), c), x.core, d, debt);
  }

  // ---- any attempt ----

  /** Execute needs an empty log; otherwise there must be a checkpoint to resume from. */
  predicate CanStart(t: Tables) {
    t.checkpoints != map[] || t.events == []
  }

  function AnchorOf(t: Tables): Anchor {
    match Latest(t.checkpoints)
    case None => Anchor([], map[], [t])
    case Some(c) => AnchorAt(Opened(t), c)
  }

  /** One whole attempt, crashed or not: every durable state it leaves is sound and keeps what
      was pinned, from its own first event on the log only grows, and run to its end its
      memory and its log agree and the log is finished. */
  lemma AttemptIsSafe(s: Setup, m: Minds, t: Tables)
    requires Runnable(s) && Sound(s, t) && CanStart(t)
    ensures Settled(s, AnchorOf(t), Attempt(s, m, Opened(t)).core, [], Finished)
  {
    hide Sound, Healthy, Settled, Drive, Faithful;
    match Latest(t.checkpoints) {
      case None =>
        BeginIsHealthy(s, m, t);
        DriveSettles(s, AnchorOf(t), m, Begin(s, m, Opened(t)), None, []);
      case Some(c) =>
        LatestIsPinned(s, t, c);
        RejoinIsHealthy(s, m, t, c, []);
        DriveSettles(s, AnchorOf(t), m, Rejoin(s, m, Opened(t), c), Some(c.sequence), []);
    }
  }
}
