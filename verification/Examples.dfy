/** Three runs, small enough to be followed to the end, in which a resumed attempt does not do what
    the run left alone does. */
module Examples {
  import opened Wrappers
  import opened Contracts
  import opened KernelState
  import opened Sorting
  import opened Scheduler
  import opened Store
  import opened Journals
  import opened WorldRules
  import opened DriverRules
  import opened RunRules
  import opened Invariants
  import opened DriverInvariants
  import opened Recovery
  import opened Histories
  import opened Outcomes
  import opened Growth
  import opened Equivalence
  import opened Resumption
  import opened Continuity
  import opened EnvResumption
  import opened TickAgain
  import opened EnvEquivalence
  import opened Swallowed

  /** Generous limits, a checkpoint after every event, time up to `maxTime`. */
  function Plain(agents: seq<AgentSpec>, driver: DriverKind, maxTime: int): Setup {
    Setup(agents, [], Limits(maxTime, 1000, 1000, 1000, 1000.0, 1), 1, 1000, true, 1, driver, "", map[], map[], map[], 0,
          (seed: int, stream: Label, n: nat) => 0.0,
          (a: Agent, b: Agent, content: string, payload: Facts, v: Visibility) => 0,
          (a: Agent, v: View) => Some("go"),
          (p: Proposal, v: View) => Decision([], Public, 0, 0, ""),
          (a: Action, v: View) => None,
          (v: View, log: seq<Event>) => None)
  }

  function Says(kind: EmissionKind): Emission {
    Emission(kind, "", [], map[], "", map[], NoResources, false)
  }

  /** Agents that do one thing, whatever they are asked, and remember nothing. */
  function Always(agents: set<Agent>, kind: EmissionKind): Minds {
    Minds((a: Agent, memo: Memo, r: Request) => Reply([Says(kind)], ""), map a | a in agents :: "", agents)
  }

  // ---- an environment run of one agent ----

  function Solo(): Setup { Plain([AgentSpec("a", "")], AecDriven, 0) }

  function Actor(): Minds { Always({"a"}, EmitAction) }

  /** What is logged of the one action: it has no handler. */
  function Act(c: Core): Core {
    PolicyEvent(Emit(c, PublicDraft(ActionTaken, "a", c.world.time, Acted("noop", map[]))), "unknown_action", "noop", 0)
  }

  /** The session of a tick in which the agent has acted and a checkpoint is due. */
  function Acted1(x: Session): Session {
    x.(core := Act(x.core), driver := x.driver.(invocations := x.driver.invocations + 1))
  }

  lemma SoloAgents()
    ensures Solo().AgentIds() == ["a"] && ActiveAgents(Solo(), {}) == ["a"]
  {
    assert Solo().AgentIds() == ["a"];
    FilterAll(["a"], TakesPart({}));
  }

  lemma SoloStream(x: Session)
    requires !x.core.world.finished && x.sinceCheckpoint == 0
    ensures EnvStream(Solo(), Actor(), x, "a", [Says(EmitAction)], [])
         == (SaveCheckpoint(Solo(), Actor(), x.(core := Act(x.core))), [])
  {
    ChargeNothing(x.core, Says(EmitAction));
    assert ActionOf("a", Says(EmitAction)) == Action("noop", "a", map[]);
    hide SaveCheckpoint, EnvCharge, Emit;
    var c1 := Act(x.core);
    assert TakeAction(Solo(), x.core, Action("noop", "a", map[]), NoResources) == c1;
    var y := x.(core := c1);
    assert y.(sinceCheckpoint := 0) == y;
    assert EnvCommit(Solo(), Actor(), x, Action("noop", "a", map[])) == SaveCheckpoint(Solo(), Actor(), y);
    assert [Says(EmitAction)][1..] == [];
  }

  lemma SoloTurn(x: Session)
    requires !x.core.world.finished && x.memos == map["a" := ""] && x.sinceCheckpoint == 0
    ensures EnvTurn(Solo(), Actor(), x, "a", []) == (SaveCheckpoint(Solo(), Actor(), Acted1(x)), [])
  {
    var x1 := x.(driver := x.driver.(invocations := x.driver.invocations + 1));
    hide SaveCheckpoint, EnvStream, Act, EnvRequest, MemoOf;
    assert x1.(core := Act(x1.core)) == Acted1(x) && x1.memos["a" := ""] == x1.memos;
    SoloStream(x1);
  }

  /** A tick of the run: the agent is asked, acts, and a checkpoint is written. */
  lemma SoloTick(x: Session)
    requires !x.core.world.finished && x.core.world.dropped == {} && x.memos == map["a" := ""] && x.sinceCheckpoint == 0
    ensures Tick(Solo(), Actor(), x) == SaveCheckpoint(Solo(), Actor(), Acted1(x))
  {
    SoloAgents();
    SoloTurn(x);
    hide SaveCheckpoint, EnvTurn, Acted1;
    assert ["a"][1..] == [];
    assert EnvAgents(Solo(), Actor(), x, ["a"], []).0 == SaveCheckpoint(Solo(), Actor(), Acted1(x));
  }

  lemma CountEmit(c: Core, d: Draft, kind: EventKind)
    ensures CountKind(Emit(c, d).Events(), kind) == CountKind(c.Events(), kind) + (if d.kind == kind then 1 else 0)
  {
    assert Emit(c, d).Events()[..|c.Events()|] == c.Events();
  }

  lemma {:induction false} RegisterFacts(c: Core, agents: seq<AgentSpec>, kind: EventKind)
    requires kind != AgentRegistered
    ensures var r := RegisterAll(c, agents);
      && r.world == c.world && r.rng == c.rng && r.ledger == c.ledger
      && r.journal.sequence == c.journal.sequence + |agents| && r.journal.index == c.journal.index + |agents|
      && c.journal.disk.trail <= r.journal.disk.trail && |r.journal.disk.trail| == |c.journal.disk.trail| + |agents|
      && r.journal.disk.tables.checkpoints == c.journal.disk.tables.checkpoints
      && |r.Events()| == |c.Events()| + |agents| && CountKind(r.Events(), kind) == CountKind(c.Events(), kind)
  {
    hide CountKind;
    if |agents| > 0 {
      var n := |agents| - 1;
      RegisterFacts(c, agents[..n], kind);
      var r := RegisterAll(c, agents[..n]);
      CountEmit(r, PublicDraft(AgentRegistered, agents[n].id, r.world.time, Registered(agents[n].role)), kind);
    }
  }

  /** Announcing a run logs its start and its agents, and marks it as running. */
  lemma Announced(s: Setup, y: Session, from: Option<nat>, kind: EventKind)
    requires kind != AgentRegistered && kind != RunStarted
    ensures var x, n := Announce(s, y, from), |s.agents|;
      && x.core.world == y.core.world && x.core.rng == y.core.rng && x.core.ledger == y.core.ledger
      && x.driver == y.driver && x.sinceCheckpoint == y.sinceCheckpoint && x.memos == y.memos
      && x.core.journal.sequence == y.core.journal.sequence + n + 1 && x.core.journal.index == y.core.journal.index + n + 1
      && y.core.journal.disk.trail <= x.core.journal.disk.trail
      && |x.core.journal.disk.trail| == |y.core.journal.disk.trail| + n + 3
      && x.core.journal.disk.tables.checkpoints == y.core.journal.disk.tables.checkpoints
      && |x.core.Events()| == |y.core.Events()| + n + 1
      && CountKind(x.core.Events(), kind) == CountKind(y.core.Events(), kind)
  {
    hide CountKind, RegisterAll;
    var d := PublicDraft(RunStarted, WORLD_ACTOR, y.core.world.time, NoBody);
    CountEmit(y.core, d, kind);
    RegisterFacts(Emit(y.core, d), s.agents, kind);
  }

  /** The session with which the run enters its driver. */
  function SoloStart(): Session {
    Started(Solo(), Actor(), NoTables)
  }

  lemma SoloStarts()
    ensures var x := SoloStart();
      && x.core.world == NewWorld(Solo()) && x.driver == Driver(0, [], 0) && x.sinceCheckpoint == 0 && x.memos == map["a" := ""]
      && x.core.journal.sequence == x.core.journal.index == |x.core.Events()| == 2 && |x.core.journal.disk.trail| == 7
      && x.core.journal.disk.tables.checkpoints == map[]
      && CountKind(x.core.Events(), ActionTaken) == 0
  {
    Announced(Solo(), Begin(Solo(), Actor(), Opened(NoTables)), None, ActionTaken);
    hide Announce;
  }

  /** The session after that tick, at time 1. */
  function SoloEnd(x: Session): Session {
    EndRound(Solo(), SaveCheckpoint(Solo(), Actor(), Acted1(x)))
  }

  lemma SoloEndFacts(x: Session)
    ensures SaveCheckpoint(Solo(), Actor(), Acted1(x)).core.world == x.core.world
    ensures SoloEnd(x).core.world == x.core.world.(time := x.core.world.time + 1)
  {
    hide Capture;
  }

  lemma OverTime(y: Session)
    requires !y.core.world.finished && y.core.world.time > 0
    ensures EnvLoop(Solo(), Actor(), y) == (y, Stopped(MaxLogicalTime))
  {
  }

  lemma SoloLoop(x: Session)
    requires !x.core.world.finished && x.core.world.time == 0 && x.core.journal.sequence < 1000
    ensures EnvLoop(Solo(), Actor(), x) == EnvLoop(Solo(), Actor(), EndRound(Solo(), Tick(Solo(), Actor(), x)))
  {
    hide Tick, EndRound;
  }

  lemma SoloEnds(x: Session)
    requires !x.core.world.finished && x.core.world.dropped == {} && x.memos == map["a" := ""] && x.sinceCheckpoint == 0
    requires x.core.world.time == 0 && x.core.journal.sequence < 1000
    ensures EnvLoop(Solo(), Actor(), x) == (SoloEnd(x), Stopped(MaxLogicalTime))
  {
    hide EnvLoop, Tick, EndRound, SaveCheckpoint, Acted1;
    SoloTick(x);
    SoloLoop(x);
    assert SoloEnd(x) == EndRound(Solo(), SaveCheckpoint(Solo(), Actor(), Acted1(x)));
    SoloEndFacts(x);
    OverTime(SoloEnd(x));
  }

  lemma SoloConcluded(x: Session, from: Option<nat>)
    ensures var y := Conclude(Solo(), x, Stopped(MaxLogicalTime), from);
      && x.core.journal.disk.trail <= y.core.journal.disk.trail
      && y.core.Events() == x.core.Events() + y.core.Events()[|x.core.Events()|..]
      && |y.core.Events()| == |x.core.Events()| + 1 && y.core.Events()[|x.core.Events()|].kind == RunFinished
  {
  }

  lemma SoloAttempt()
    ensures Attempt(Solo(), Actor(), Opened(NoTables))
         == Conclude(Solo(), SoloEnd(SoloStart()), Stopped(MaxLogicalTime), None)
  {
    SoloStarts();
    hide Conclude, EnvLoop, SoloEnd, Announce, Begin;
    SoloEnds(SoloStart());
  }

  lemma SoloSaved(x: Session)
    requires |x.core.journal.disk.trail| == 7
    ensures var z := Acted1(x);
      var trail := SoloEnd(x).core.journal.disk.trail;
      && |trail| > 9 && trail[8] == z.core.journal.disk.tables
      && trail[9] == WithCheckpoint(z.core.journal.disk, Capture(Solo(), Actor(), z)).tables
  {
    hide Capture;
  }

  /** The statements of the run: the one after the action stores the checkpoint. */
  lemma SoloTrail()
    ensures var trail := Durables(Solo(), Actor(), NoTables);
      var z := Acted1(SoloStart());
      && |trail| > 9 && trail[8] == z.core.journal.disk.tables
      && trail[9] == WithCheckpoint(z.core.journal.disk, Capture(Solo(), Actor(), z)).tables
  {
    SoloStarts();
    SoloAttempt();
    hide Attempt, Conclude, SoloEnd, SoloStart, Capture, WithCheckpoint, Acted1;
    SoloSaved(SoloStart());
    SoloConcluded(SoloEnd(SoloStart()), None);
  }

  lemma SoloCount(x: Session, from: Option<nat>)
    ensures CountKind(Conclude(Solo(), SoloEnd(x), Stopped(MaxLogicalTime), from).core.Events(), ActionTaken)
         == CountKind(x.core.Events(), ActionTaken) + 1
  {
    var c := Emit(x.core, PublicDraft(ActionTaken, "a", x.core.world.time, Acted("noop", map[])));
    CountEmit(x.core, PublicDraft(ActionTaken, "a", x.core.world.time, Acted("noop", map[])), ActionTaken);
    CountEmit(c, PublicDraft(PolicyDecided, WORLD_ACTOR, c.world.time, Policy("unknown_action", false, "noop", 0)), ActionTaken);
    hide CountKind;
    SavedCount(Acted1(x));
    hide SaveCheckpoint;
    EndRoundCount(SaveCheckpoint(Solo(), Actor(), Acted1(x)));
    hide EndRound;
    ConcludedCount(SoloEnd(x), from);
  }

  lemma SavedCount(z: Session)
    ensures CountKind(SaveCheckpoint(Solo(), Actor(), z).core.Events(), ActionTaken) == CountKind(z.core.Events(), ActionTaken)
  {
    hide Capture, CountKind;
    var c := Capture(Solo(), Actor(), z);
    CountEmit(z.core.(journal := z.core.journal.(disk := WithCheckpoint(z.core.journal.disk, c))),
              PublicDraft(SnapshotCreated, WORLD_ACTOR, z.core.world.time, Body.Snapshot(c.sequence)), ActionTaken);
  }

  lemma EndRoundCount(x: Session)
    ensures CountKind(EndRound(Solo(), x).core.Events(), ActionTaken) == CountKind(x.core.Events(), ActionTaken)
  {
    hide CountKind;
    var time := x.core.world.time + 1;
    CountEmit(x.core.(world := x.core.world.(time := time)), PublicDraft(ClockAdvanced, WORLD_ACTOR, time, Clock(time)), ActionTaken);
  }

  lemma ConcludedCount(x: Session, from: Option<nat>)
    ensures CountKind(Conclude(Solo(), x, Stopped(MaxLogicalTime), from).core.Events(), ActionTaken) == CountKind(x.core.Events(), ActionTaken)
  {
    hide CountKind;
    CountEmit(x.core, PublicDraft(RunFinished, WORLD_ACTOR, x.core.world.time, Ended(Complete, Stopped(MaxLogicalTime).reason)), ActionTaken);
  }

  /** What the run leaves that dies right after its checkpoint, and right before. */
  function SoloCrashed(): Tables {
    After(Solo(), Then(Untouched, Actor(), 9, 0))
  }

  /** The session that writes the checkpoint. */
  function SoloWriter(): Session {
    Acted1(SoloStart())
  }

  lemma ActFacts(x: Session)
    ensures var z := Acted1(x);
      && z.core.journal.sequence == x.core.journal.sequence + 2 && z.core.journal.index == x.core.journal.index + 2
      && z.core.world == x.core.world && z.sinceCheckpoint == x.sinceCheckpoint && z.memos == x.memos
      && |z.core.Events()| == |x.core.Events()| + 2
      && z.core.journal.disk.tables.checkpoints == x.core.journal.disk.tables.checkpoints
      && CountKind(z.core.Events(), ActionTaken) == CountKind(x.core.Events(), ActionTaken) + 1
  {
    hide CountKind;
    CountEmit(x.core, PublicDraft(ActionTaken, "a", x.core.world.time, Acted("noop", map[])), ActionTaken);
    var c := Emit(x.core, PublicDraft(ActionTaken, "a", x.core.world.time, Acted("noop", map[])));
    CountEmit(c, PublicDraft(PolicyDecided, WORLD_ACTOR, x.core.world.time, Policy("unknown_action", false, "noop", 0)), ActionTaken);
  }

  lemma SoloWrites()
    ensures var z := SoloWriter();
      && z.core.journal.sequence == z.core.journal.index == |z.core.Events()| == 4 && CountKind(z.core.Events(), ActionTaken) == 1
      && z.core.world == NewWorld(Solo()) && z.sinceCheckpoint == 0 && z.memos == map["a" := ""]
      && z.core.journal.disk.tables.checkpoints == map[]
  {
    SoloStarts();
    hide SoloStart, Acted1;
    ActFacts(SoloStart());
  }

  lemma SoloAfter(cut: nat)
    ensures After(Solo(), Then(Untouched, Actor(), cut, 0)) == CrashedAt(Durables(Solo(), Actor(), NoTables), cut, NoTables)
  {
    hide Durables;
    assert After(Solo(), Untouched) == NoTables;
  }

  lemma SoloCrashedIs()
    ensures SoloCrashed() == WithCheckpoint(SoloWriter().core.journal.disk, Capture(Solo(), Actor(), SoloWriter())).tables
  {
    SoloTrail();
    SoloAfter(9);
    hide Durables, After, SoloStart, Acted1, Capture, WithCheckpoint;
  }

  /** A checkpoint just written, the first one, over a dense log. */
  lemma FirstIsStored(s: Setup, m: Minds, z: Session)
    requires z.core.journal.disk.tables.checkpoints == map[] && Dense(z.core.Events()) && z.core.journal.sequence == |z.core.Events()|
    ensures Stored(s, m, z, WithCheckpoint(z.core.journal.disk, Capture(s, m, z)).tables)
  {
    OnlyOne(z.core.journal.disk, Capture(s, m, z));
    hide Dense, Capture, Latest;
  }

  lemma SoloStored()
    ensures SoloCrashed() == WithCheckpoint(SoloWriter().core.journal.disk, Capture(Solo(), Actor(), SoloWriter())).tables
    ensures Stored(Solo(), Actor(), SoloWriter(), SoloCrashed())
  {
    SoloCrashedIs();
    SoloWrites();
    SoloDense();
    hide SoloCrashed, SoloWriter, Stored, Dense, Capture, CountKind;
    FirstIsStored(Solo(), Actor(), SoloWriter());
  }

  lemma SoloDense()
    ensures Dense(SoloCrashed().events)
  {
    assert Orderly(Solo(), Then(Untouched, Actor(), 9, 0));
    hide After, Sound;
    EveryHistoryIsSound(Solo(), Then(Untouched, Actor(), 9, 0));
    SoundMeansDense(Solo(), SoloCrashed());
  }

  lemma RejoinFacts(s: Setup, m: Minds, z: Session, t: Tables)
    requires Stored(s, m, z, t)
    ensures var x := Rejoin(s, m, Opened(t), Capture(s, m, z));
      && x.core.world == SnapshotOf(s, z.core.world) && x.sinceCheckpoint == 0 && x.driver == z.driver
      && x.memos == RestoreMemos(m, Snapshots(m, z.memos))
      && x.core.journal.sequence == z.core.journal.sequence + 1 && x.core.ledger == z.core.ledger
      && |x.core.Events()| == z.core.journal.sequence + 1
      && x.core.Events()[..z.core.journal.sequence] == z.core.Events()
      && x.core.Events()[z.core.journal.sequence].kind == AttemptStarted
  {
    var c := Capture(s, m, z);
    assert c.sequence == z.core.journal.sequence && c.world == SnapshotOf(s, z.core.world) && c.memos == Snapshots(m, z.memos)
        && c.driver == z.driver && c.ledger == z.core.ledger;
    hide Capture, CutBack, Dense, Latest;
    CutBackLog(Opened(t), c);
  }

  lemma StoredLatest(s: Setup, m: Minds, z: Session, t: Tables)
    requires Stored(s, m, z, t)
    ensures Latest(t.checkpoints) == Some(Capture(s, m, z))
    ensures z.core.journal.sequence <= |t.events| && t.events[..z.core.journal.sequence] == z.core.Events()
  {
  }

  lemma CountOneMore(log: seq<Event>, longer: seq<Event>, kind: EventKind)
    requires |longer| == |log| + 1 && longer[..|log|] == log && longer[|log|].kind != kind
    ensures CountKind(longer, kind) == CountKind(log, kind)
  {
  }

  function SoloRejoined(): Session {
    Rejoin(Solo(), Actor(), Opened(SoloCrashed()), Capture(Solo(), Actor(), SoloWriter()))
  }

  lemma SoloRejoins()
    ensures var y := SoloRejoined();
      && y.core.world == NewWorld(Solo()) && y.sinceCheckpoint == 0 && y.memos == map["a" := ""]
      && y.core.journal.sequence == 5 && CountKind(y.core.Events(), ActionTaken) == 1
  {
    SoloStored();
    SoloWrites();
    hide SoloWriter, SoloCrashed, Capture, Rejoin, Stored, NewWorld, CountKind, SnapshotOf, RestoreMemos, Snapshots;
    RejoinFacts(Solo(), Actor(), SoloWriter(), SoloCrashed());
    SoloSnapshot();
    CountOneMore(SoloWriter().core.Events(), SoloRejoined().core.Events(), ActionTaken);
  }

  lemma SoloSnapshot()
    ensures SnapshotOf(Solo(), NewWorld(Solo())) == NewWorld(Solo())
    ensures RestoreMemos(Actor(), Snapshots(Actor(), map["a" := ""])) == map["a" := ""]
  {
  }

  lemma SoloFound()
    ensures Latest(SoloCrashed().checkpoints) == Some(Capture(Solo(), Actor(), SoloWriter()))
    ensures Capture(Solo(), Actor(), SoloWriter()).sequence == 4
  {
    SoloStored();
    SoloWrites();
    hide SoloWriter, SoloCrashed, Latest;
  }

  /** The session with which the resumed attempt enters its driver. */
  function SoloResumed(): Session {
    Announce(Solo(), SoloRejoined(), Some(4))
  }

  /** The attempt that resumes is back at time 0, with the agent as it was, and begins the tick over. */
  lemma SoloResumes()
    ensures var x := SoloResumed();
      && !x.core.world.finished && x.core.world.dropped == {} && x.core.world.time == 0 && x.sinceCheckpoint == 0
      && x.memos == map["a" := ""] && x.core.journal.sequence == 7 && CountKind(x.core.Events(), ActionTaken) == 1
  {
    SoloRejoins();
    hide SoloRejoined, Announce, CountKind;
    Announced(Solo(), SoloRejoined(), Some(4), ActionTaken);
  }

  lemma SoloAgain()
    ensures Attempt(Solo(), Actor(), Opened(SoloCrashed()))
         == Conclude(Solo(), SoloEnd(SoloResumed()), Stopped(MaxLogicalTime), Some(4))
  {
    SoloFound();
    SoloResumes();
    hide SoloCrashed, SoloWriter, Capture, Rejoin, Conclude, EnvLoop, SoloEnd, Announce, Latest, CountKind;
    SoloEnds(SoloResumed());
  }

  /** An environment run of one agent that acts once when asked, to be over after time 0. Left
      alone it logs one action. Killed right after its checkpoint, which follows that action, and
      resumed, it logs two, the second by the tick begun over at the same logical time. */
  lemma SoloActsTwice()
    ensures CountKind(Attempt(Solo(), Actor(), Opened(NoTables)).core.Events(), ActionTaken) == 1
    ensures CountKind(Attempt(Solo(), Actor(), Opened(SoloCrashed())).core.Events(), ActionTaken) == 2
  {
    hide Attempt, Conclude, SoloEnd, SoloResumed, SoloStart, SoloCrashed, CountKind;
    SoloStarts();
    SoloAttempt();
    SoloCount(SoloStart(), None);
    SoloResumes();
    SoloAgain();
    SoloCount(SoloResumed(), Some(4));
  }

  lemma SoloEndSequence(x: Session)
    ensures SoloEnd(x).core.journal.sequence == x.core.journal.sequence + 4
  {
    hide Capture;
  }

  lemma ActorAnswers()
    ensures SameAnswers(Actor(), Actor()) && Composed(Actor())
    ensures Restorable(Actor(), Actor(), map["a" := ""])
    ensures forall r: Request, memo: Memo :: Acts(Actor().invoke("a", memo, r).emissions)
  {
    assert [Says(EmitAction)][0].kind.EmitAction?;
    assert Acts([Says(EmitAction)]);
  }

  lemma SoloActs(x: Session)
    requires x.core.world.dropped == {}
    ensures !NobodyActs(Solo(), Actor(), x, ActiveAgents(Solo(), x.core.world.dropped))
  {
    SoloAgents();
    ActorAnswers();
    assert Acts(Actor().invoke("a", MemoOf(x, "a"), EnvRequest(Solo(), x, "a", 0)).emissions);
    hide Acts, MemoOf, EnvRequest;
    assert "a" in ["a"];
  }

  lemma SoloGoesOn()
    ensures var z, rest := SoloWriter(), InTurn("a", [], []);
      && FinishTick(Solo(), Actor(), SaveCheckpoint(Solo(), Actor(), z), rest) == SaveCheckpoint(Solo(), Actor(), z)
      && EnvGoOn(Solo(), Actor(), z, rest).0 == SoloEnd(SoloStart())
      && EnvComeBack(Solo(), Actor(), Actor(), z, SoloCrashed()).0 == SoloEnd(SoloResumed())
  {
    SoloStarts();
    SoloFound();
    SoloResumes();
    SoloEndFacts(SoloStart());
    hide SaveCheckpoint, EndRound, EnvLoop, Announce, Rejoin, Capture, SoloStart, Acted1, SoloCrashed;
    SoloEnds(SoloResumed());
    OverTime(SoloEnd(SoloStart()));
  }

  lemma SoloRest(x: Session)
    requires x.core.world.dropped == {}
    ensures var rest := InTurn("a", [], []);
      && Active(Solo(), x) == ["a"] && Fits(Solo(), rest, Active(Solo(), x)) && DoneActing(rest) && AskedAgain(Solo(), x, rest) == ["a"]
  {
    SoloAgents();
    assert AskedBefore(["a"], []) == [];
    assert ["a"] + [] == ["a"];
    assert [] + ["a"] == ["a"];
  }

  /** The same by the general result: asked once more, the agent would act. */
  lemma SoloByTheRule()
    ensures !SameResult(Solo(), EnvGoOn(Solo(), Actor(), SoloWriter(), InTurn("a", [], [])).0,
                        EnvComeBack(Solo(), Actor(), Actor(), SoloWriter(), SoloCrashed()).0)
  {
    hide SaveCheckpoint, EndRound, EnvGoOn, EnvComeBack, SoloEnd, SoloStart, SoloResumed, SoloWriter, SoloCrashed, Stored, Composed,
         SameAnswers, Restorable, FinishTick, NobodyActs, SameResult, NewWorld, Fits, DoneActing, AskedAgain, Active, LeftToSpend, CountKind;
    SoloStarts();
    SoloResumes();
    SoloStored();
    SoloWrites();
    SoloGoesOn();
    SoloEndSequence(SoloStart());
    SoloEndSequence(SoloResumed());
    ActorAnswers();
    SoloAgents();
    SoloBegins();
    var x := SaveCheckpoint(Solo(), Actor(), SoloWriter());
    assert x.core.world == NewWorld(Solo()) by { SavedWorld(SoloWriter()); }
    SoloRest(x);
    SoloRest(SoloWriter());
    SoloActs(x);
    ResumeBetweenActions(Solo(), Actor(), Actor(), SoloWriter(), InTurn("a", [], []), SoloCrashed());
  }

  lemma SavedWorld(z: Session)
    ensures SaveCheckpoint(Solo(), Actor(), z).core.world == z.core.world
  {
  }

  lemma SoloBegins()
    ensures !NewWorld(Solo()).finished && NewWorld(Solo()).dropped == {} && NewWorld(Solo()).time == 0
  {
  }

  // ---- the same run, killed one statement earlier ----

  /** What the run leaves that dies right before its checkpoint is stored. */
  function SoloStranded(): Tables {
    After(Solo(), Then(Untouched, Actor(), 8, 0))
  }

  /** What the run does up to that point. */
  function SoloOpening(): seq<Step> {
    [] + [Offer(PublicDraft(RunStarted, WORLD_ACTOR, 0, NoBody))] + [Offer(PublicDraft(AgentRegistered, "a", 0, Registered("")))]
      + [Row(Running)]
  }

  function SoloSteps(): seq<Step> {
    SoloOpening() + [Think(AskedIn(Begin(Solo(), Actor(), Opened(NoTables)), "a", ""))]
      + [Offer(PublicDraft(ActionTaken, "a", 0, Acted("noop", map[])))]
      + [Offer(PublicDraft(PolicyDecided, WORLD_ACTOR, 0, Policy("unknown_action", false, "noop", 0)))]
  }

  lemma CourseSnoc(x: Session, steps: seq<Step>, step: Step)
    ensures Course(Solo(), Actor(), x, steps + [step], true) == Stepped(Solo(), Actor(), Course(Solo(), Actor(), x, steps, true), step, true)
  {
    assert (steps + [step])[..|steps|] == steps;
    hide Stepped;
  }

  lemma OpeningIsAnnounced()
    ensures Course(Solo(), Actor(), Begin(Solo(), Actor(), Opened(NoTables)), SoloOpening(), true) == SoloStart()
  {
    var x := Begin(Solo(), Actor(), Opened(NoTables));
    var d, e := PublicDraft(RunStarted, WORLD_ACTOR, 0, NoBody), PublicDraft(AgentRegistered, "a", 0, Registered(""));
    assert x.core.world.time == 0;
    assert SoloStart() == Announce(Solo(), x, None);
    hide SoloStart, Begin, Emit, OnDisk;
    CourseSnoc(x, [], Offer(d));
    CourseSnoc(x, [] + [Offer(d)], Offer(e));
    CourseSnoc(x, [] + [Offer(d)] + [Offer(e)], Row(Running));
    var agents := Solo().agents;
    assert agents[..0] == [];
    var c := Emit(x.core, d);
    assert c.world.time == 0 by { EmitWorld(x.core, d); }
    assert RegisterAll(c, []) == c;
    assert RegisterAll(c, agents) == Emit(c, e);
  }

  /** Taken on an empty database these steps lead to where the rules lead: to the session that writes the checkpoint. */
  lemma SoloCourse()
    ensures Course(Solo(), Actor(), Begin(Solo(), Actor(), Opened(NoTables)), SoloSteps(), true) == SoloWriter()
  {
    var x := Begin(Solo(), Actor(), Opened(NoTables));
    var mind := AskedIn(x, "a", "");
    var d := PublicDraft(ActionTaken, "a", 0, Acted("noop", map[]));
    var e := PublicDraft(PolicyDecided, WORLD_ACTOR, 0, Policy("unknown_action", false, "noop", 0));
    OpeningIsAnnounced();
    SoloStarts();
    ThinkingLeads(x);
    hide SoloOpening, SoloStart, Course, CountKind, Begin, NewWorld;
    SoloBegins();
    CourseSnoc(x, SoloOpening(), Think(mind));
    CourseSnoc(x, SoloOpening() + [Think(mind)], Offer(d));
    CourseSnoc(x, SoloOpening() + [Think(mind)] + [Offer(d)], Offer(e));
  }

  /** To be asked is all that changes in memory before the action. */
  lemma ThinkingLeads(x: Session)
    requires x == Begin(Solo(), Actor(), Opened(NoTables))
    ensures var y := SoloStart();
      AskedIn(x, "a", "").(core := x.core.(journal := y.core.journal)) == y.(driver := y.driver.(invocations := y.driver.invocations + 1))
  {
    assert SoloStart() == Announce(Solo(), x, None);
    hide SoloStart, Announce, CountKind;
    Announced(Solo(), x, None, ActionTaken);
    assert x.memos["a" := ""] == x.memos;
  }

  lemma SoloStrandedIs()
    ensures SoloStranded() == SoloWriter().core.journal.disk.tables
  {
    SoloTrail();
    SoloAfter(8);
    hide Durables, After, SoloStart, Acted1;
  }

  lemma StrandedLogIsDense()
    ensures Dense(SoloStranded().events)
  {
    assert Orderly(Solo(), Then(Untouched, Actor(), 8, 0));
    hide After, Sound, Dense;
    EveryHistoryIsSound(Solo(), Then(Untouched, Actor(), 8, 0));
    SoundMeansDense(Solo(), SoloStranded());
  }

  lemma StrandedIsDense()
    ensures Dense(SoloStranded().events) && !CanStart(SoloStranded())
  {
    SoloStrandedIs();
    SoloWrites();
    StrandedLogIsDense();
    hide SoloStranded, SoloWriter, Dense, CountKind;
  }

  lemma NothingSaved()
    ensures SavesNothing(SoloSteps()) && OffersFirst(SoloSteps()) && DraftsOf(SoloSteps()) != []
  {
    var steps := SoloSteps();
    assert steps[|steps| - 1].Offer?;
  }

  /** The agent does the same again. The second attempt may have every event answered as a duplicate
      until its checkpoint is due, and its memory is then that of the first. It stores the
      checkpoint, and neither is the database sound then nor is the log of the third attempt ever canonical. */
  lemma SoloIsSwallowed()
    ensures !CanStart(SoloStranded())
    ensures MayBeSwallowed(SoloStranded().events, NextAttempt(SoloStranded().attempts), DraftsOf(SoloSteps()))
    ensures SameMemory(SoloWriter(), AtSave(Solo(), Actor(), SoloStranded(), SoloSteps()))
    ensures var c := Capture(Solo(), Actor(), AtSave(Solo(), Actor(), SoloStranded(), SoloSteps()));
      var t' := AtSave(Solo(), Actor(), SoloStranded(), SoloSteps() + [Save]).core.journal.disk.tables;
      var end := Resume(Solo(), Actor(), Opened(t'), c).core;
      && !Sound(Solo(), t') && Latest(t'.checkpoints) == Some(c)
      && |end.Events()| > 0 && end.Events()[0].kind == AttemptStarted && !Dense(end.Events())
  {
    SoloStrandedIs();
    StrandedIsDense();
    SoloCourse();
    NothingSaved();
    assert SoloStranded().checkpoints == map[];
    hide SoloWriter, SoloStranded, SoloSteps, Capture, Resume, Sound, Dense, Begin, Course, Latest, OffersFirst, SavesNothing, Rejoin;
    ExecutedAgain(Solo(), Actor(), SoloStranded(), SoloSteps());
    SwallowedCheckpoint(Solo(), Actor(), Actor(), SoloStranded(), SoloSteps());
    NeverCanonicalAgain(Solo(), Actor(), Actor(), SoloStranded(), SoloSteps());
  }

  // ---- a session run of two agents ----

  function Pair(): Setup { Plain([AgentSpec("a", ""), AgentSpec("b", "")], SessionDriven, 100) }

  function Speakers(): Minds { Always({"a", "b"}, EmitFinal) }

  function Opener(agent: Agent): Item {
    Item(1, 0, Delivery(WORLD_ACTOR, agent, "go", map["kind" := "opening"], Private, 0), 0)
  }

  lemma PairAgents()
    ensures Pair().AgentIds() == ["a", "b"] && ActiveAgents(Pair(), {}) == ["a", "b"]
  {
    assert Pair().AgentIds() == ["a", "b"];
    FilterAll(["a", "b"], TakesPart({}));
  }

  /** The session at the head of the loop for the first time, and when the first messages are due. */
  function PairOpened(): Session {
    Activate(Pair(), Started(Pair(), Speakers(), NoTables))
  }

  function PairDue(): Session {
    var x := PairOpened();
    x.(core := AdvanceTo(PopDue(Pair(), x.core).0, 1))
  }

  lemma PairStarts()
    ensures var x := Started(Pair(), Speakers(), NoTables);
      && x.core.world == NewWorld(Pair()) && x.driver == Driver(0, [], 0) && x.sinceCheckpoint == 0
      && x.memos == map["a" := "", "b" := ""]
      && x.core.journal.sequence == |x.core.Events()| == 3 && |x.core.journal.disk.trail| == 8
      && x.core.journal.disk.tables.checkpoints == map[] && CountKind(x.core.Events(), AgentInvoked) == 0
  {
    var y := Begin(Pair(), Speakers(), Opened(NoTables));
    assert y.memos == map["a" := "", "b" := ""] && y.core.world == NewWorld(Pair()) && CountKind(y.core.Events(), AgentInvoked) == 0;
    hide Announce, NewWorld, CountKind;
    Announced(Pair(), y, None, AgentInvoked);
  }

  lemma OpenerSize()
    ensures Utf8Size("go") == 2
  {
    assert "go"[..1] == "g";
    assert "g"[..0] == "";
    assert Utf8Size("g") == 1;
  }

  lemma PairOpens(x: Session, agent: Agent)
    requires agent in {"a", "b"} && x.core.world.time == 0 && x.core.world.dropped == {}
    ensures var y := Open(Pair(), x, agent);
      && y.core.journal == x.core.journal && y.memos == x.memos && y.sinceCheckpoint == x.sinceCheckpoint
      && y.driver == x.driver.(activated := x.driver.activated + [agent])
      && y.core.world.queue == x.core.world.queue + [Opener(agent)] && y.core.world.time == 0
      && y.core.world.finished == x.core.world.finished && y.core.world.dropped == {}
      && y.core.world.counters == x.core.world.counters.(messages := x.core.world.counters.messages + 1)
      && y.core.world.resources.costUsd == x.core.world.resources.costUsd
  {
    PairAgents();
    OpenerSize();
    hide Utf8Size;
  }

  lemma PairIsOpen()
    ensures var x := PairOpened();
      && x.core.world.queue == [Opener("a"), Opener("b")] && x.core.world.time == 0 && x.core.world.dropped == {} && !x.core.world.finished
      && x.core.world.counters.messages == 2 && x.core.world.counters.modelCalls == 0 && x.core.world.resources.costUsd == 0.0
      && x.driver.activated == ["a", "b"] && x.sinceCheckpoint == 0 && x.memos == map["a" := "", "b" := ""]
      && x.core.journal.sequence == |x.core.Events()| == 3 && |x.core.journal.disk.trail| == 8
      && x.core.journal.disk.tables.checkpoints == map[] && CountKind(x.core.Events(), AgentInvoked) == 0
  {
    PairStarts();
    PairAgents();
    hide Started, Open, CountKind;
    var x := Started(Pair(), Speakers(), NoTables);
    assert ["a", "b"][..1] == ["a"];
    assert ["a"][..0] == [];
    assert OpenAll(Pair(), x, []) == x;
    PairOpens(x, "a");
    var y := Open(Pair(), x, "a");
    assert OpenAll(Pair(), x, ["a"]) == y;
    PairOpens(y, "b");
  }

  lemma PairWaits()
    ensures var x := PairOpened().core;
      PopDue(Pair(), x) == (x, []) && NextDue(x.world.queue) == Some(1)
  {
    PairIsOpen();
    hide PairOpened;
    var x := PairOpened().core;
    var queue := x.world.queue;
    FilterNone(queue, DueBy(0));
    FilterAll(queue, DueAfter(0));
    assert queue[..1] == [Opener("a")];
    assert [Opener("a")][..0] == [];
    assert NextDue([Opener("a")]) == Some(1);
    assert x.ledger.popped + [] == x.ledger.popped;
  }

  lemma PairIsDue()
    ensures var x := PairDue();
      && x.core.world == PairOpened().core.world.(time := 1) && x.core.world.queue == [Opener("a"), Opener("b")]
      && x.core.world.dropped == {} && !x.core.world.finished && LimitHit(Pair(), x.core) == None
      && x.driver.activated == ["a", "b"] && x.sinceCheckpoint == 0 && x.memos == map["a" := "", "b" := ""]
      && x.core.journal.sequence == |x.core.Events()| == 4 && |x.core.journal.disk.trail| == 9
      && x.core.journal.disk.tables.checkpoints == map[] && CountKind(x.core.Events(), AgentInvoked) == 0
    ensures SessionLoop(Pair(), Speakers(), PairOpened()) == SessionLoop(Pair(), Speakers(), PairDue())
  {
    PairIsOpen();
    PairWaits();
    hide PairOpened, PopDue, NextDue, CountKind;
    var c := PairOpened().core;
    CountEmit(c.(world := c.world.(time := 1)), PublicDraft(ClockAdvanced, WORLD_ACTOR, 1, Clock(1)), AgentInvoked);
  }

  /** Both messages are due at once, in whichever order. */
  function PairPopped(): Session {
    PairDue().(core := PopDue(Pair(), PairDue().core).0)
  }

  function PairBatch(): (due: seq<Item>)
    ensures |due| == 2 && (due[0].delivery.recipient == "a" || due[0].delivery.recipient == "b")
  {
    PairPops();
    PopDue(Pair(), PairDue().core).1
  }

  lemma BothAreDue(digest: Digest, queue: seq<Item>)
    requires |queue| == 2
    requires forall i :: i in queue ==> IsOpening(i)
    ensures var due := Popped(digest, queue, 1);
      |due| == 2 && (due[0].delivery.recipient == "a" || due[0].delivery.recipient == "b") && Remaining(queue, 1) == []
  {
    FilterNone(queue, DueAfter(1));
    hide Popped, Filter;
    PopDueConserves(digest, queue, 1);
    var due := Popped(digest, queue, 1);
    assert due[0] in due;
  }

  predicate IsOpening(i: Item) {
    i.due == 1 && (i.delivery.recipient == "a" || i.delivery.recipient == "b")
  }

  lemma TwoOpenings(queue: seq<Item>)
    requires queue == [Opener("a"), Opener("b")]
    ensures |queue| == 2 && forall i :: i in queue ==> IsOpening(i)
  {
  }

  lemma PairQueue()
    ensures var w := PairDue().core.world; w.time == 1 && |w.queue| == 2 && forall i :: i in w.queue ==> IsOpening(i)
  {
    PairIsDue();
    hide PairDue, PairOpened, LimitHit, CountKind, Opener, IsOpening;
    TwoOpenings(PairDue().core.world.queue);
  }

  lemma PairPops()
    ensures var (c, due) := PopDue(Pair(), PairDue().core);
      && |due| == 2 && (due[0].delivery.recipient == "a" || due[0].delivery.recipient == "b") && c.world.queue == []
  {
    PairQueue();
    hide PairDue, Popped, Remaining;
    BothAreDue(Pair().digest, PairDue().core.world.queue);
  }

  /** The first message is delivered, and a checkpoint is due before its recipient is asked. */
  function PairWriter(): Session {
    PairPopped().(core := Hand(PairPopped().core, PairBatch()[0]))
  }

  lemma HandFacts(c: Core, item: Item)
    ensures var r := Hand(c, item);
      && r.world == c.world && r.journal.sequence == c.journal.sequence + 1 && |r.Events()| == |c.Events()| + 1
      && |r.journal.disk.trail| == |c.journal.disk.trail| + 1
      && r.journal.disk.tables.checkpoints == c.journal.disk.tables.checkpoints
      && CountKind(r.Events(), AgentInvoked) == CountKind(c.Events(), AgentInvoked)
  {
    hide CountKind;
    CountEmit(c.(ledger := c.ledger.(handed := c.ledger.handed + [item])), DeliveredDraft(item, c.world.time), AgentInvoked);
  }

  lemma PairWrites()
    ensures var z := PairWriter();
      && z.core.world == PairDue().core.world.(queue := []) && z.sinceCheckpoint == 0 && z.driver.activated == ["a", "b"]
      && z.memos == map["a" := "", "b" := ""] && z.core.journal.sequence == |z.core.Events()| == 5
      && |z.core.journal.disk.trail| == 10 && z.core.journal.disk.tables.checkpoints == map[]
      && CountKind(z.core.Events(), AgentInvoked) == 0
  {
    PairIsDue();
    PairPops();
    PoppedCore(Pair(), PairDue().core);
    hide PairDue, PopDue, CountKind, LimitHit, Hand;
    HandFacts(PairPopped().core, PairBatch()[0]);
  }

  lemma PairRests()
    ensures AtRest(PairWriter())
  {
    PairWrites();
    hide PairWriter, CountKind;
  }

  lemma PoppedCore(s: Setup, c: Core)
    ensures var r := PopDue(s, c).0;
      r.world == c.world.(queue := r.world.queue) && r.journal == c.journal
  {
  }

  /** How the round goes on from there. */
  function PairAsked(): Session {
    var d := PairBatch()[0].delivery;
    Invoke(Pair(), Speakers(), SaveCheckpoint(Pair(), Speakers(), PairWriter()), d.recipient, d, EventId(PairPopped().core.journal.sequence))
  }

  function PairRound(): Session {
    RunBatch(Pair(), Speakers(), PairPopped(), PairBatch())
  }

  lemma PairGoesOn()
    ensures Stays(PairAsked().core, PairRound().core)
    ensures PairRound() == if PairAsked().core.world.finished then PairAsked()
                           else RunBatch(Pair(), Speakers(), PairAsked(), PairBatch()[1..])
    ensures SessionLoop(Pair(), Speakers(), PairDue()) == SessionLoop(Pair(), Speakers(), EndRound(Pair(), PairRound()))
  {
    PairIsDue();
    PairWrites();
    PoppedCore(Pair(), PairDue().core);
    hide Invoke, PairDue, PopDue, Hand, LimitHit, EndRound, Stays, CountKind;
    var item := PairBatch()[0];
    assert item.delivery.recipient in Speakers().initial;
    var y := PairPopped().(core := Hand(PairPopped().core, item));
    assert MaybeCheckpoint(Pair(), Speakers(), y) == SaveCheckpoint(Pair(), Speakers(), PairWriter());
    assert DeliverAndInvoke(Pair(), Speakers(), PairPopped(), item) == PairAsked();
    QuietStays(PairAsked().core, PairAsked().core);
    RunBatchStays(Pair(), Speakers(), PairAsked(), PairBatch()[1..]);
  }

  function Afresh(): Anchor {
    Anchor([], map[], [NoTables])
  }

  lemma PairIsHealthy()
    ensures Healthy(Pair(), Afresh(), PairDue(), [])
  {
    PairWaits();
    PairStarts();
    EmptyIsSound(Pair());
    hide Good, Sound, OpenAll, Announce, Begin, PopDue, AdvanceTo, NewWorld, CountKind;
    BeginIsHealthy(Pair(), Speakers(), NoTables);
    AnnounceKeeps(Pair(), Afresh(), Begin(Pair(), Speakers(), Opened(NoTables)), None, []);
    var x := Started(Pair(), Speakers(), NoTables);
    OpenAllKeeps(Pair(), Afresh(), x, ActiveAgents(Pair(), x.core.world.dropped), []);
    AdvanceKeeps(Pair(), Afresh(), PairOpened().core, 1, Debt(map[], NoResources, []));
  }

  /** One of the two messages is handed over, the other is still in hand. */
  lemma PairHolds()
    ensures Healthy(Pair(), Afresh(), PairWriter(), PairBatch()[1..]) && |PairBatch()[1..]| == 1
  {
    PairIsHealthy();
    hide Good, PairDue, PopDue, Hand;
    var none := Debt(map[], NoResources, []);
    PopKeeps(Pair(), Afresh(), PairDue().core, none);
    assert PairBatch() + [] == PairBatch();
    HandKeeps(Pair(), Afresh(), PairPopped().core, PairBatch()[0], none.(batch := PairBatch()));
  }

  /** What the run left alone comes to. */
  lemma PairAlone()
    ensures LeftAlone(Pair(), Speakers(), NoTables) == SessionLoop(Pair(), Speakers(), EndRound(Pair(), PairRound()))
  {
    PairIsDue();
    PairGoesOn();
    hide PairRound, PairDue, SessionLoop, EndRound, Started, CountKind, LimitHit;
  }

  lemma RoundKeeps(a: Anchor)
    requires Healthy(Pair(), a, SaveCheckpoint(Pair(), Speakers(), PairWriter()), PairBatch()[1..])
    ensures Healthy(Pair(), a, EndRound(Pair(), PairRound()), [])
  {
    PairGoesOn();
    hide Healthy, PairWriter, SaveCheckpoint, Invoke, RunBatch, EndRound, PairRound, Stays;
    var rest := PairBatch()[1..];
    var d := PairBatch()[0].delivery;
    InvokeKeeps(Pair(), a, Speakers(), SaveCheckpoint(Pair(), Speakers(), PairWriter()), d.recipient, d,
                EventId(PairPopped().core.journal.sequence), rest);
    assert rest + [] == rest;
    RunBatchKeeps(Pair(), a, Speakers(), PairAsked(), rest, []);
    ForgetHealthy(Pair(), a, PairAsked(), rest, |rest|);
    EndRoundKeeps(Pair(), a, PairRound(), []);
  }

  lemma StartPersisted(s: Setup, a: Anchor, c: Core)
    requires Settled(s, a, c, [], Finished)
    ensures a.start <= c.journal.disk.trail
  {
    hide Sound, Faithful, Synced, AppendOnly;
  }

  /** The durable states up to the checkpoint are durable states of the whole run. */
  lemma PairPersists()
    ensures SaveCheckpoint(Pair(), Speakers(), PairWriter()).core.journal.disk.trail <= Durables(Pair(), Speakers(), NoTables)
  {
    PairHolds();
    PairAlone();
    hide Healthy, PairWriter, PairBatch, PairRound, SaveCheckpoint, SessionLoop, EndRound, Conclude, Attempt, LeftAlone, Settled;
    SaveCheckpointKeeps(Pair(), Afresh(), Speakers(), PairWriter(), PairBatch()[1..]);
    var y := SaveCheckpoint(Pair(), Speakers(), PairWriter());
    Reanchor(Pair(), Afresh(), y, PairBatch()[1..]);
    var a := Anchor([], map[], y.core.journal.disk.trail);
    RoundKeeps(a);
    SessionLoopKeeps(Pair(), a, Speakers(), EndRound(Pair(), PairRound()), []);
    var (u, outcome) := LeftAlone(Pair(), Speakers(), NoTables);
    var from := AttemptIsConcluded(Pair(), Speakers(), NoTables);
    ConcludeSettles(Pair(), a, u, outcome, from, []);
    StartPersisted(Pair(), a, Attempt(Pair(), Speakers(), Opened(NoTables)).core);
  }

  /** What the run leaves that dies right after its first checkpoint. */
  function PairCrashed(): Tables {
    After(Pair(), Then(Untouched, Speakers(), 10, 0))
  }

  lemma PairTrail()
    ensures PairCrashed() == WithCheckpoint(PairWriter().core.journal.disk, Capture(Pair(), Speakers(), PairWriter())).tables
  {
    PairPersists();
    PairWrites();
    hide PairWriter, Capture, Attempt, CountKind;
    assert After(Pair(), Untouched) == NoTables;
    var d := WithCheckpoint(PairWriter().core.journal.disk, Capture(Pair(), Speakers(), PairWriter()));
    assert |d.trail| == 11 && d.trail[10] == d.tables;
    assert d.trail <= SaveCheckpoint(Pair(), Speakers(), PairWriter()).core.journal.disk.trail;
    assert Durables(Pair(), Speakers(), NoTables)[10] == d.tables;
  }

  lemma PairFoundSound()
    ensures Sound(Pair(), PairCrashed())
  {
    assert Orderly(Pair(), Then(Untouched, Speakers(), 10, 0));
    hide After, Sound;
    EveryHistoryIsSound(Pair(), Then(Untouched, Speakers(), 10, 0));
  }

  lemma PairDense()
    ensures Dense(PairCrashed().events)
  {
    PairFoundSound();
    hide PairCrashed, Sound;
    SoundMeansDense(Pair(), PairCrashed());
  }

  lemma PairStored()
    ensures Stored(Pair(), Speakers(), PairWriter(), PairCrashed())
  {
    PairTrail();
    PairWrites();
    PairDense();
    hide PairWriter, PairCrashed, Capture, Stored, Dense, CountKind;
    FirstIsStored(Pair(), Speakers(), PairWriter());
  }

  lemma SpeakersAnswer()
    ensures SameMinds(Speakers(), Speakers()) && Restorable(Speakers(), Speakers(), map["a" := "", "b" := ""])
    ensures RestoreMemos(Speakers(), Snapshots(Speakers(), map["a" := "", "b" := ""])) == map["a" := "", "b" := ""]
  {
  }

  function PairRejoined(): Session {
    Rejoin(Pair(), Speakers(), Opened(PairCrashed()), Capture(Pair(), Speakers(), PairWriter()))
  }

  /** The session with which the resumed attempt enters its driver. */
  function PairResumed(): Session {
    Announce(Pair(), PairRejoined(), Some(5))
  }

  lemma NothingQueued(w: WorldState)
    requires w.queue == []
    ensures SnapshotOf(Pair(), w) == w
  {
  }

  lemma PairRejoins()
    ensures var y := PairRejoined();
      && y.core.world == PairWriter().core.world && y.driver.activated == ["a", "b"]
      && y.core.journal.sequence == 6 && CountKind(y.core.Events(), AgentInvoked) == 0
  {
    PairStored();
    PairWrites();
    hide PairWriter, PairCrashed, Capture, CountKind, Rejoin, Stored, SnapshotOf, Snapshots, RestoreMemos;
    RejoinFacts(Pair(), Speakers(), PairWriter(), PairCrashed());
    NothingQueued(PairWriter().core.world);
    CountOneMore(PairWriter().core.Events(), PairRejoined().core.Events(), AgentInvoked);
  }

  lemma PairResumes()
    ensures var x := PairResumed();
      && x.core.world == PairWriter().core.world && x.driver.activated == ["a", "b"]
      && x.core.journal.sequence == 9 && CountKind(x.core.Events(), AgentInvoked) == 0
  {
    PairRejoins();
    hide PairWriter, PairRejoined, CountKind, Announce;
    Announced(Pair(), PairRejoined(), Some(5), AgentInvoked);
  }

  lemma PairFound()
    ensures Latest(PairCrashed().checkpoints) == Some(Capture(Pair(), Speakers(), PairWriter()))
    ensures Capture(Pair(), Speakers(), PairWriter()).sequence == 5
  {
    PairStored();
    PairWrites();
    hide PairWriter, PairCrashed, CountKind, Capture, Latest;
    StoredLatest(Pair(), Speakers(), PairWriter(), PairCrashed());
    OfSnapshot(Pair(), Speakers(), PairWriter());
  }

  lemma PairComesBack()
    ensures LeftAlone(Pair(), Speakers(), PairCrashed()) == RunSession(Pair(), Speakers(), PairResumed())
    ensures LeftAlone(Pair(), Speakers(), PairCrashed()) == ComeBack(Pair(), Speakers(), Speakers(), PairWriter(), PairCrashed())
  {
    PairFound();
    hide PairWriter, PairCrashed, Capture, Latest, Rejoin, Announce, RunSession;
  }

  lemma DueWorld()
    ensures var w := PairDue().core.world;
      && w.time == 1 && !w.finished && w.counters.messages == 2 && w.counters.modelCalls == 0 && w.resources.costUsd == 0.0
  {
    PairIsOpen();
    PairIsDue();
    hide PairOpened, PairDue, CountKind, LimitHit;
  }

  lemma PairWorld()
    ensures var w := PairWriter().core.world;
      && w.queue == [] && w.time == 1 && !w.finished && w.counters.messages == 2 && w.counters.modelCalls == 0
      && w.resources.costUsd == 0.0
  {
    DueWorld();
    PairWrites();
    hide PairDue, PairWriter, CountKind;
  }

  lemma PairWithin()
    ensures !PairResumed().core.world.finished && PairResumed().core.world.queue == [] && LimitHit(Pair(), PairResumed().core) == None
  {
    PairResumes();
    PairWorld();
    hide PairResumed, PairWriter, CountKind;
  }

  lemma NothingToDo(x: Session)
    requires x.core.world.queue == [] && x.driver.activated != [] && !x.core.world.finished && LimitHit(Pair(), x.core) == None
    ensures var (v, o) := RunSession(Pair(), Speakers(), x); v.core.Events() == x.core.Events() && o == Outcome(false, "quiescent", None)
  {
    hide LimitHit;
    PopNothing(Pair(), x.core);
  }

  /** Two agents are each sent a message. The run dies right after the checkpoint that follows the
      first delivery, which holds neither the invocation that was due then nor the other message.
      The resumed attempt finds nothing to do: nobody is ever invoked, and the run ends quiescent. */
  lemma PairLosesItsWork()
    ensures !SameWork(Pair(), LeftAlone(Pair(), Speakers(), NoTables).0, LeftAlone(Pair(), Speakers(), PairCrashed()).0)
    ensures var (v, o) := LeftAlone(Pair(), Speakers(), PairCrashed());
      CountKind(v.core.Events(), AgentInvoked) == 0 && o == Outcome(false, "quiescent", None)
  {
    PairResumes();
    PairWithin();
    PairWrites();
    PairRests();
    PairStored();
    PairAlone();
    PairGoesOn();
    SpeakersAnswer();
    hide PairResumed, PairWriter, PairCrashed, PairRound, PairBatch, PairPopped, PairDue, CountKind, SameMinds, Restorable, Stored, AtRest, SameWork,
         SessionLoop, EndRound, Invoke, SaveCheckpoint, LeftAlone, ComeBack, Stays, LimitHit, RunBatch;
    PairComesBack();
    NothingToDo(PairResumed());
    var d := PairBatch()[0].delivery;
    DeliveredNotInvokedIsLost(Pair(), Speakers(), Speakers(), PairWriter(), d.recipient, d, EventId(PairPopped().core.journal.sequence),
                              PairRound(), PairCrashed());
  }

  /** The second message was in hand at that checkpoint. Together with what the resumed attempt hands
      over, to its very end, it is within what was scheduled: it is not handed over itself. */
  lemma PairForgetsTheOther()
    ensures var c := Capture(Pair(), Speakers(), PairWriter());
      var end := Resume(Pair(), Speakers(), Opened(PairCrashed()), c).core;
      multiset(end.ledger.handed) + multiset(PairBatch()[1..]) <= multiset(Map(end.ledger.posted, ItemOf()))
  {
    PairHolds();
    PairStored();
    PairFoundSound();
    hide PairWriter, PairBatch, PairCrashed, Capture, Healthy, Resume, Sound, Stored, Latest;
    StoredLatest(Pair(), Speakers(), PairWriter(), PairCrashed());
    BatchInHandIsForgotten(Pair(), Afresh(), Speakers(), Speakers(), PairWriter(), PairBatch()[1..], PairCrashed());
  }
}
