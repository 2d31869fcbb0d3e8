/** Whole attempts of environment runs, crashed and resumed, against being left alone: where their
    checkpoints come from, what was left of the tick then, and exactly when a resumed attempt comes
    to the same result. */
module EnvContinuity {
  import opened Wrappers
  import opened Contracts
  import opened KernelState
  import opened Sorting
  import opened Scheduler
  import opened Store
  import opened Journals
  import opened WorldRules
  import opened DriverRules
  import opened RunRules
  import opened Invariants
  import opened DriverInvariants
  import opened Recovery
  import opened Histories
  import opened Growth
  import opened Books
  import opened Equivalence
  import opened Resumption
  import opened Writers
  import opened Continuity
  import opened EnvResumption
  import opened Kinship
  import opened TickActions
  import opened TickAgain
  import opened EnvEquivalence

  // ---- where the checkpoints come from ----

  /** Inside a tick: everybody takes part, every agent has its cursor, the journal stands at the end of the log. */
  ghost predicate InTick(s: Setup, m: Minds, x: Session) {
    && x.core.world.dropped == {} && Kept(m, x.memos)
    && x.core.journal.sequence == |x.core.Events()| && x.core.world.time <= s.limits.maxLogicalTime
  }

  /** A session about to write a checkpoint, and what is left of its tick then. */
  ghost predicate TickWriter(s: Setup, m: Minds, z: Session, rest: Rest) {
    InTick(s, m, z) && z.sinceCheckpoint == 0 && Fits(s, rest, Active(s, z))
  }

  /** The checkpoints written in a tick that ends as `end`. */
  ghost function WrittenInTick(s: Setup, m: Minds, end: Session): iset<Checkpoint> {
    iset z, rest | TickWriter(s, m, z, rest) && FinishTick(s, m, SaveCheckpoint(s, m, z), rest) == end :: Capture(s, m, z)
  }

  /** The checkpoints written on the way to the end `u` of an environment loop. */
  ghost function ExplainedByTicks(s: Setup, m: Minds, u: (Session, Outcome)): iset<Checkpoint>
    requires s.clockStep >= 1
  {
    iset z, rest | TickWriter(s, m, z, rest) && EnvGoOn(s, m, z, rest) == u :: Capture(s, m, z)
  }

  /** Every agent of the run is there, and no two have the same id. */
  ghost predicate Manned(s: Setup, m: Minds) {
    (forall a :: a in s.AgentIds() ==> a in m.initial) && Distinct(s.AgentIds())
  }

  /** The tick is going on, and the checkpoints so far are among `known`. */
  ghost predicate Going(s: Setup, m: Minds, x: Session, known: iset<Checkpoint>) {
    InTick(s, m, x) && AllIn(x.core.journal.disk, known)
  }

  lemma GoingOn(s: Setup, m: Minds, x: Session, y: Session, known: iset<Checkpoint>)
    requires Going(s, m, x, known) && Stays(x.core, y.core) && SameCheckpoints(x.core.journal.disk, y.core.journal.disk)
    requires y.core.world.dropped == x.core.world.dropped && Kept(m, y.memos)
    ensures Going(s, m, y, known)
  {
    hide AllIn, SameCheckpoints, Kept;
    AllInSame(x.core.journal.disk, y.core.journal.disk, known);
  }

  lemma GoingAside(s: Setup, m: Minds, x: Session, y: Session, known: iset<Checkpoint>)
    requires Going(s, m, x, known) && y.core.journal == x.core.journal && Kept(m, y.memos)
    requires y.core.world.time == x.core.world.time && y.core.world.dropped == x.core.world.dropped
    ensures Going(s, m, y, known)
  {
    hide AllIn, Kept;
  }

  lemma GoingKept(s: Setup, m: Minds, x: Session, known: iset<Checkpoint>)
    requires Going(s, m, x, known)
    ensures Kept(m, x.memos) && x.core.world.dropped == {}
  {
    hide AllIn, Kept;
  }

  /** A possible checkpoint after an action, with `rest` left of the tick. */
  lemma SavedInTick(s: Setup, m: Minds, y: Session, rest: Rest, end: Session, known: iset<Checkpoint>)
    requires Going(s, m, y, known) && Fits(s, rest, Active(s, y)) && WrittenInTick(s, m, end) <= known
    requires FinishTick(s, m, MaybeCheckpoint(s, m, y), rest) == end
    ensures Going(s, m, MaybeCheckpoint(s, m, y), known)
  {
    var r := MaybeCheckpoint(s, m, y);
    MaybeCheckpointStays(s, m, y);
    assert r.core.world == y.core.world && r.memos == y.memos;
    hide Kept, Stays, FinishTick, Fits, WrittenInTick, SnapshotOf, Active;
    if y.sinceCheckpoint + 1 >= s.limits.checkpointEvery {
      var z := y.(sinceCheckpoint := 0);
      assert Active(s, z) == Active(s, y) by { SameActive(s, y, z); }
      assert TickWriter(s, m, z, rest);
      Written(s, m, z, rest, end);
      NewlyIn(s, m, z, known);
    }
    assert InTick(s, m, r) by { hide AllIn; StaysInTick(s, m, y, r); }
  }

  lemma SameActive(s: Setup, x: Session, y: Session)
    requires y.core.world.dropped == x.core.world.dropped
    ensures Active(s, x) == Active(s, y)
  {
  }

  lemma StaysInTick(s: Setup, m: Minds, x: Session, y: Session)
    requires InTick(s, m, x) && Stays(x.core, y.core) && y.core.world.dropped == x.core.world.dropped && Kept(m, y.memos)
    ensures InTick(s, m, y)
  {
    hide Kept;
  }

  lemma Written(s: Setup, m: Minds, z: Session, rest: Rest, end: Session)
    requires TickWriter(s, m, z, rest) && FinishTick(s, m, SaveCheckpoint(s, m, z), rest) == end
    ensures Capture(s, m, z) in WrittenInTick(s, m, end)
  {
    hide TickWriter, SaveCheckpoint, Capture, FinishTick;
  }

  lemma NewlyIn(s: Setup, m: Minds, z: Session, known: iset<Checkpoint>)
    requires AllIn(z.core.journal.disk, known) && Capture(s, m, z) in known
    ensures AllIn(SaveCheckpoint(s, m, z).core.journal.disk, known)
  {
    hide Capture;
  }

  /** One action, with `rest` left of the tick after it. */
  lemma CommitGoes(s: Setup, m: Minds, x: Session, action: Action, rest: Rest, end: Session, known: iset<Checkpoint>)
    requires Going(s, m, x, known) && Fits(s, rest, Active(s, x)) && WrittenInTick(s, m, end) <= known
    requires FinishTick(s, m, EnvCommit(s, m, x, action), rest) == end
    ensures Going(s, m, EnvCommit(s, m, x, action), known)
  {
    hide InTick, AllIn, TakeAction, MaybeCheckpoint, WrittenInTick, Stays, SameCheckpoints, Fits, FinishTick, Active, Kept;
    var y := x.(core := TakeAction(s, x.core, action, NoResources));
    TakeActionStays(s, x.core, action, NoResources);
    TakeActionBooks(s, x.core, action, NoResources);
    GoingKept(s, m, x, known);
    GoingOn(s, m, x, y, known);
    SameActive(s, x, y);
    SavedInTick(s, m, y, rest, end, known);
  }

  lemma ChargeGoes(s: Setup, m: Minds, x: Session, em: Emission, known: iset<Checkpoint>)
    requires Going(s, m, x, known)
    ensures var y := x.(core := EnvCharge(x.core, em));
      Going(s, m, y, known) && y.core.world.finished == x.core.world.finished && Active(s, y) == Active(s, x)
  {
    GoingKept(s, m, x, known);
    GoingAside(s, m, x, x.(core := EnvCharge(x.core, em)), known);
    hide Kept, Going;
  }

  lemma FewerFit(s: Setup, agent: Agent, emissions: seq<Emission>, others: seq<Emission>, later: seq<Agent>, active: seq<Agent>)
    requires Fits(s, InTurn(agent, emissions, later), active)
    ensures Fits(s, InTurn(agent, others, later), active)
  {
  }

  /** In turn-taking mode: a stream, with `later` still to be asked. */
  lemma {:induction false} StreamGoes(
      s: Setup, m: Minds, x: Session, agent: Agent, emissions: seq<Emission>, later: seq<Agent>, end: Session, known: iset<Checkpoint>)
    requires Going(s, m, x, known) && !x.core.world.finished && WrittenInTick(s, m, end) <= known
    requires Fits(s, InTurn(agent, emissions, later), Active(s, x)) && FinishTick(s, m, x, InTurn(agent, emissions, later)) == end
    ensures Going(s, m, EnvStream(s, m, x, agent, emissions, []).0, known)
    decreases |emissions|
  {
    hide Going, EnvCommit, EnvCharge, EnvAgents, WrittenInTick, Fits, Active;
    if |emissions| > 0 {
      var em, rest := emissions[0], InTurn(agent, emissions[1..], later);
      var y := x.(core := EnvCharge(x.core, em));
      ChargeGoes(s, m, x, em, known);
      FewerFit(s, agent, emissions, emissions[1..], later, Active(s, x));
      assert !s.driver.ParallelDriven? by { FitsMode(s, agent, emissions, later, Active(s, x)); }
      if !em.kind.EmitAction? {
        StreamGoes(s, m, y, agent, emissions[1..], later, end, known);
      } else {
        var z := EnvCommit(s, m, y, ActionOf(agent, em));
        assert FinishTick(s, m, z, rest) == end;
        CommitGoes(s, m, y, ActionOf(agent, em), rest, end, known);
        if !z.core.world.finished {
          GoingActive(s, m, y, z, known);
          StreamGoes(s, m, z, agent, emissions[1..], later, end, known);
        }
      }
    }
  }

  lemma FitsMode(s: Setup, agent: Agent, emissions: seq<Emission>, later: seq<Agent>, active: seq<Agent>)
    requires Fits(s, InTurn(agent, emissions, later), active)
    ensures !s.driver.ParallelDriven?
  {
  }

  lemma GoingActive(s: Setup, m: Minds, x: Session, y: Session, known: iset<Checkpoint>)
    requires Going(s, m, x, known) && Going(s, m, y, known)
    ensures Active(s, y) == Active(s, x) == ActiveAgents(s, {})
  {
    GoingKept(s, m, x, known);
    GoingKept(s, m, y, known);
    hide Going;
  }

  lemma AskGoes(s: Setup, m: Minds, x: Session, agent: Agent, known: iset<Checkpoint>)
    requires Going(s, m, x, known) && agent in m.initial
    ensures var n := x.driver.invocations + 1;
      var reply := m.invoke(agent, MemoOf(x, agent), EnvRequest(s, x, agent, n));
      Going(s, m, x.(driver := x.driver.(invocations := n), memos := x.memos[agent := reply.memo]), known)
  {
    GoingKept(s, m, x, known);
    var n := x.driver.invocations + 1;
    assert agent in x.memos;
    KeptWhenAsked(m, x.memos, agent, EnvRequest(s, x, agent, n));
    hide Kept, Going, EnvRequest;
    var reply := m.invoke(agent, MemoOf(x, agent), EnvRequest(s, x, agent, n));
    GoingAside(s, m, x, x.(driver := x.driver.(invocations := n), memos := x.memos[agent := reply.memo]), known);
  }

  /** What remains of the agents when the first of them has been asked. */
  lemma NextFits(s: Setup, active: seq<Agent>, agents: seq<Agent>, emissions: seq<Emission>)
    requires !s.driver.ParallelDriven? && 0 < |agents| <= |active| && active[|active| - |agents|..] == agents
    ensures Fits(s, InTurn(agents[0], emissions, agents[1..]), active)
    ensures active[|active| - |agents[1..]|..] == agents[1..]
  {
    assert active == active[..|active| - |agents|] + agents;
    assert agents == [agents[0]] + agents[1..];
  }

  /** One turn, with the tick going on to `end` after it. */
  lemma TurnGoes(s: Setup, m: Minds, x: Session, agents: seq<Agent>, end: Session, known: iset<Checkpoint>)
    requires !s.driver.ParallelDriven? && Going(s, m, x, known) && !x.core.world.finished && WrittenInTick(s, m, end) <= known
    requires 0 < |agents| <= |Active(s, x)| && Active(s, x)[|Active(s, x)| - |agents|..] == agents && agents[0] in m.initial
    requires var z := EnvTurn(s, m, x, agents[0], []).0;
      end == if z.core.world.finished then z else EnvAgents(s, m, z, agents[1..], []).0
    ensures Going(s, m, EnvTurn(s, m, x, agents[0], []).0, known)
  {
    hide Going, EnvStream, EnvAgents, WrittenInTick, Fits, Active, EnvRequest, MemoOf;
    var a, n := agents[0], x.driver.invocations + 1;
    var reply := m.invoke(a, MemoOf(x, a), EnvRequest(s, x, a, n));
    var y := x.(driver := x.driver.(invocations := n), memos := x.memos[a := reply.memo]);
    AskGoes(s, m, x, a, known);
    NextFits(s, Active(s, x), agents, reply.emissions);
    SameActive(s, x, y);
    StreamIsCommits(s, m, y, a, reply.emissions, []);
    assert FinishTick(s, m, y, InTurn(a, reply.emissions, agents[1..])) == end;
    StreamGoes(s, m, y, a, reply.emissions, agents[1..], end, known);
  }

  lemma {:induction false} AgentsGo(s: Setup, m: Minds, x: Session, agents: seq<Agent>, end: Session, known: iset<Checkpoint>)
    requires !s.driver.ParallelDriven? && Going(s, m, x, known) && !x.core.world.finished && WrittenInTick(s, m, end) <= known
    requires Manned(s, m) && |agents| <= |Active(s, x)| && Active(s, x)[|Active(s, x)| - |agents|..] == agents
    requires EnvAgents(s, m, x, agents, []).0 == end
    ensures Going(s, m, end, known)
    decreases |agents|
  {
    hide Going, EnvTurn, WrittenInTick, Fits, Active, Manned;
    if |agents| > 0 {
      ActiveIsManned(s, m, x, agents, agents[0]);
      SameCollected(s, m, x, agents[0], []);
      TurnGoes(s, m, x, agents, end, known);
      var z := EnvTurn(s, m, x, agents[0], []).0;
      if !z.core.world.finished {
        GoingActive(s, m, x, z, known);
        assert Active(s, z)[|Active(s, z)| - |agents[1..]|..] == agents[1..];
        AgentsGo(s, m, z, agents[1..], end, known);
      }
    }
  }

  lemma ActiveIsManned(s: Setup, m: Minds, x: Session, agents: seq<Agent>, a: Agent)
    requires Manned(s, m) && |agents| <= |Active(s, x)| && Active(s, x)[|Active(s, x)| - |agents|..] == agents && a in agents
    ensures a in m.initial
  {
    FilterElements(s.AgentIds(), TakesPart(x.core.world.dropped));
    var i :| 0 <= i < |agents| && agents[i] == a;
    assert Active(s, x)[|Active(s, x)| - |agents| + i] == a;
  }

  lemma {:induction false} CommitAllGoes(s: Setup, m: Minds, x: Session, actions: seq<Action>, end: Session, known: iset<Checkpoint>)
    requires s.driver.ParallelDriven? && Going(s, m, x, known) && WrittenInTick(s, m, end) <= known
    requires EnvCommitAll(s, m, x, actions) == end
    ensures Going(s, m, end, known)
    decreases |actions|
  {
    hide Going, EnvCommit, WrittenInTick, Active;
    if |actions| > 0 {
      var y := EnvCommit(s, m, x, actions[0]);
      assert FinishTick(s, m, y, AllAtOnce(actions[1..])) == end;
      CommitGoes(s, m, x, actions[0], AllAtOnce(actions[1..]), end, known);
      if !y.core.world.finished {
        CommitAllGoes(s, m, y, actions[1..], end, known);
      }
    }
  }

  /** In parallel mode nothing is written while the agents are asked. */
  lemma {:induction false} AskingGoes(s: Setup, m: Minds, x: Session, agents: seq<Agent>, collected: seq<Action>, known: iset<Checkpoint>)
    requires s.driver.ParallelDriven? && Going(s, m, x, known) && forall a :: a in agents ==> a in m.initial
    ensures Going(s, m, EnvAgents(s, m, x, agents, collected).0, known)
    decreases |agents|
  {
    hide Going, EnvStream, EnvRequest;
    if |agents| > 0 {
      var a, n := agents[0], x.driver.invocations + 1;
      var reply := m.invoke(a, MemoOf(x, a), EnvRequest(s, x, a, n));
      var y := x.(driver := x.driver.(invocations := n), memos := x.memos[a := reply.memo]);
      AskGoes(s, m, x, a, known);
      CollectingGoes(s, m, y, a, reply.emissions, collected, known);
      var (z, more) := EnvTurn(s, m, x, a, collected);
      AskingGoes(s, m, z, agents[1..], more, known);
    }
  }

  lemma {:induction false} CollectingGoes(
      s: Setup, m: Minds, x: Session, agent: Agent, emissions: seq<Emission>, collected: seq<Action>, known: iset<Checkpoint>)
    requires s.driver.ParallelDriven? && Going(s, m, x, known)
    ensures Going(s, m, EnvStream(s, m, x, agent, emissions, collected).0, known)
    decreases |emissions|
  {
    hide Going, EnvCharge, EnvCommit;
    if |emissions| > 0 {
      ChargeGoes(s, m, x, emissions[0], known);
      var y := x.(core := EnvCharge(x.core, emissions[0]));
      CollectingGoes(s, m, y, agent, emissions[1..], collected, known);
      CollectingGoes(s, m, y, agent, emissions[1..], collected + [ActionOf(agent, emissions[0])], known);
    }
  }

  /** Every checkpoint stored after a tick was stored before it, or written in it by a session and
      with a rest that the tick went through to its end. */
  lemma TickWrites(s: Setup, m: Minds, x: Session, known: iset<Checkpoint>)
    requires Going(s, m, x, known) && Manned(s, m) && !x.core.world.finished
    ensures Going(s, m, Tick(s, m, x), known + WrittenInTick(s, m, Tick(s, m, x)))
  {
    var end := Tick(s, m, x);
    var all := known + WrittenInTick(s, m, end);
    assert Going(s, m, x, all) by { hide InTick; AllInMore(x.core.journal.disk, known, all); }
    var active := Active(s, x);
    assert forall a :: a in active ==> a in m.initial by { FilterElements(s.AgentIds(), TakesPart(x.core.world.dropped)); }
    hide Going, EnvAgents, EnvCommitAll, Tick, WrittenInTick, Active, Manned, Sort;
    if s.driver.ParallelDriven? {
      ParallelTick(s, m, x);
      var (y, collected) := EnvAgents(s, m, x, active, []);
      AskingGoes(s, m, x, active, [], all);
      CommitAllGoes(s, m, y, Sort(collected, ActionOrder()), end, all);
    } else {
      TickIsAgents(s, m, x);
      AgentsGo(s, m, x, active, end, all);
    }
  }

  /** At the head of an iteration. */
  ghost predicate AtTick(m: Minds, x: Session) {
    x.core.world.dropped == {} && Kept(m, x.memos) && x.core.journal.sequence == |x.core.Events()|
  }

  lemma TicksExplain(s: Setup, m: Minds, w: Session)
    requires s.clockStep >= 1
    ensures WrittenInTick(s, m, w) <= ExplainedByTicks(s, m, EnvLoop(s, m, EndRound(s, w)))
  {
    hide TickWriter, EnvLoop, EndRound, SaveCheckpoint, Capture, FinishTick;
  }

  lemma AfterTick(s: Setup, m: Minds, w: Session, known: iset<Checkpoint>)
    requires s.clockStep >= 1 && Going(s, m, w, known + WrittenInTick(s, m, w))
    ensures var y := EndRound(s, w);
      AtTick(m, y) && AllIn(y.core.journal.disk, known + ExplainedByTicks(s, m, EnvLoop(s, m, y)))
  {
    var y := EndRound(s, w);
    assert AtTick(m, y) && SameCheckpoints(w.core.journal.disk, y.core.journal.disk) by {
      hide WrittenInTick, AllIn, Kept;
      AdvanceBooks(w.core, w.core.world.time + s.clockStep);
    }
    hide InTick, AllIn, EnvLoop, EndRound, WrittenInTick, ExplainedByTicks, SameCheckpoints, AtTick;
    TicksExplain(s, m, w);
    AllInMore(w.core.journal.disk, known + WrittenInTick(s, m, w), known + ExplainedByTicks(s, m, EnvLoop(s, m, y)));
    AllInSame(w.core.journal.disk, y.core.journal.disk, known + ExplainedByTicks(s, m, EnvLoop(s, m, y)));
  }

  /** Every checkpoint stored at the end of an environment loop was known before or is explained. */
  lemma {:induction false} EnvLoopWrites(s: Setup, m: Minds, x: Session, known: iset<Checkpoint>)
    requires s.clockStep >= 1 && Manned(s, m) && AtTick(m, x) && AllIn(x.core.journal.disk, known)
    ensures var u := EnvLoop(s, m, x); AllIn(u.0.core.journal.disk, known + ExplainedByTicks(s, m, u))
    decreases if x.core.journal.sequence < s.limits.maxEvents then s.limits.maxEvents - x.core.journal.sequence else 0
  {
    hide AllIn, Tick, EndRound, ExplainedByTicks, Manned, WrittenInTick, Kept;
    var u := EnvLoop(s, m, x);
    AllInMore(x.core.journal.disk, known, known + ExplainedByTicks(s, m, u));
    if !x.core.world.finished && x.core.world.time <= s.limits.maxLogicalTime && x.core.journal.sequence < s.limits.maxEvents {
      TickWrites(s, m, x, known);
      var w := Tick(s, m, x);
      TickEffect(s, w);
      AfterTick(s, m, w, known);
      EnvLoopWrites(s, m, EndRound(s, w), known + ExplainedByTicks(s, m, u));
      AllInMore(u.0.core.journal.disk, known + ExplainedByTicks(s, m, u) + ExplainedByTicks(s, m, u), known + ExplainedByTicks(s, m, u));
    }
  }

  // ---- whole attempts ----

  /** The environment driver of an attempt, left alone. */
  function EnvAlone(s: Setup, m: Minds, t: Tables): (Session, Outcome)
    requires s.clockStep >= 1
  {
    EnvLoop(s, m, Started(s, m, t))
  }

  /** A checkpoint of an environment run: everybody takes part, and it holds cursors of agents that can be restored. */
  ghost predicate Whole(m: Minds, c: Checkpoint) {
    c.world.dropped == {} && c.memos.Keys <= m.restorable
  }

  ghost predicate AllWhole(m: Minds, t: Tables) {
    forall q :: q in t.checkpoints ==> Whole(m, t.checkpoints[q])
  }

  lemma EnvStartFacts(s: Setup, m: Minds, t: Tables)
    requires AllWhole(m, t)
    ensures var y := Started(s, m, t);
      AllIn(y.core.journal.disk, Old(t)) && y.core.world.dropped == {} && Kept(m, y.memos)
  {
    hide SameBooks, AllIn, Old, Announce, Kept, RestoreMemos;
    match Latest(t.checkpoints) {
      case None =>
        KeptFromStart(m, map[]);
        var x := Begin(s, m, Opened(t));
        assert SameCheckpoints(Opened(t), x.core.journal.disk);
        OpenedBooks(x.core.journal.disk, t);
        AnnounceBooks(s, x, None);
        CarriedBooks(x.core, Announce(s, x, None).core, t);
      case Some(c) =>
        assert Whole(m, c) by {
          assert Maximum(t.checkpoints.Keys) in t.checkpoints;
        }
        KeptFromStart(m, c.memos);
        hide Rejoin;
        var x := Rejoin(s, m, Opened(t), c);
        RejoinBooks(s, m, t, c);
        OpenedBooks(x.core.journal.disk, t);
        AnnounceBooks(s, x, Some(c.sequence));
        CarriedBooks(x.core, Announce(s, x, Some(c.sequence)).core, t);
    }
  }

  lemma FirstTick(s: Setup, m: Minds, t: Tables)
    requires Sound(s, t) && CanStart(t) && AllWhole(m, t)
    ensures AtTick(m, Started(s, m, t)) && AllIn(Started(s, m, t).core.journal.disk, Old(t))
  {
    hide Sound, Healthy, AllIn, Old, AnchorOf, Whole, Started, Kept;
    StartHealthy(s, m, t);
    EnvStartFacts(s, m, t);
    HealthyStands(s, AnchorOf(t), Started(s, m, t));
  }

  lemma EnvConcluded(s: Setup, m: Minds, t: Tables) returns (from: Option<nat>)
    requires !s.driver.SessionDriven? && s.clockStep >= 1
    ensures Attempt(s, m, Opened(t)) == Conclude(s, EnvAlone(s, m, t).0, EnvAlone(s, m, t).1, from)
  {
    hide Conclude, EnvLoop, Announce, Begin, Rejoin;
    match Latest(t.checkpoints) {
      case None => from := None;
      case Some(c) => from := Some(c.sequence);
    }
  }

  /** A checkpoint in any durable state of an attempt was found there, or is explained: some
      session of the attempt wrote it, and what was left of its tick leads to the end of the attempt. */
  lemma EnvOrigin(s: Setup, m: Minds, t: Tables, cut: nat, marks: nat, q: nat)
    requires !s.driver.SessionDriven? && s.clockStep >= 1 && Manned(s, m) && Sound(s, t) && CanStart(t) && AllWhole(m, t)
    requires q in Left(s, m, t, cut, marks).checkpoints
    ensures Left(s, m, t, cut, marks).checkpoints[q] in Old(t) + ExplainedByTicks(s, m, EnvAlone(s, m, t))
  {
    var u := EnvAlone(s, m, t);
    var known := Old(t) + ExplainedByTicks(s, m, u);
    var t' := CrashedAt(Durables(s, m, t), cut, t);
    MarkKeepsTables(t', marks);
    hide Sound, Conclude, EnvLoop, ExplainedByTicks, AllIn, Old, Started, AllWhole, AtTick, Attempt, MarkFailed, SameCheckpoints, Manned;
    FirstTick(s, m, t);
    EnvLoopWrites(s, m, Started(s, m, t), Old(t));
    var from := EnvConcluded(s, m, t);
    ConcludeBooks(s, u.0, u.1, from);
    AllInSame(u.0.core.journal.disk, Attempt(s, m, Opened(t)).core.journal.disk, known);
    OpenedIn(t, known);
    AmongTrail(Attempt(s, m, Opened(t)).core.journal.disk, t, cut, known);
  }

  lemma TickWriterOf(s: Setup, m: Minds, u: (Session, Outcome), c: Checkpoint) returns (z: Session, rest: Rest)
    requires s.clockStep >= 1 && c in ExplainedByTicks(s, m, u)
    ensures TickWriter(s, m, z, rest) && EnvGoOn(s, m, z, rest) == u && c == Capture(s, m, z)
  {
    hide TickWriter, EnvGoOn, Capture;
    z, rest :| TickWriter(s, m, z, rest) && EnvGoOn(s, m, z, rest) == u && c == Capture(s, m, z);
  }

  // ---- one crash ----

  /** What is needed of an attempt that is left alone, crashed and resumed by another one. */
  ghost predicate EnvComparable(s: Setup, m: Minds, m': Minds, t: Tables) {
    && !s.driver.SessionDriven? && s.clockStep >= 1 && Manned(s, m)
    && Sound(s, t) && CanStart(t) && AllWhole(m, t)
    && SameAnswers(m, m) && SameAnswers(m, m') && m'.initial == m.initial && Recoverable(m)
    && EnvAlone(s, m, t).0.core.journal.sequence < s.limits.maxEvents
  }

  lemma TickWriterFacts(s: Setup, m: Minds, z: Session, rest: Rest)
    requires TickWriter(s, m, z, rest) && Manned(s, m)
    ensures z.core.journal.sequence == |z.core.Events()| && Kept(m, z.memos) && z.sinceCheckpoint == 0
    ensures z.core.world.time <= s.limits.maxLogicalTime && z.core.world.dropped == {}
    ensures Distinct(s.AgentIds()) && Fits(s, rest, Active(s, z)) && forall b :: b in Active(s, z) ==> b in z.memos
  {
    FilterElements(s.AgentIds(), TakesPart(z.core.world.dropped));
    hide Recoverable, Restorable, Fits;
  }

  lemma TickLog(s: Setup, m: Minds, t: Tables, z: Session, rest: Rest)
    requires !s.driver.SessionDriven? && s.clockStep >= 1 && EnvGoOn(s, m, z, rest) == EnvAlone(s, m, t)
    ensures z.core.Events() <= Attempt(s, m, Opened(t)).core.Events()
  {
    var x := SaveCheckpoint(s, m, z);
    assert z.core.Events() <= x.core.Events();
    hide EnvLoop, AdvanceTo, Capture, EnvAlone, Attempt, Conclude, FinishTick, SaveCheckpoint;
    FinishStays(s, m, x, rest);
    var w := FinishTick(s, m, x, rest);
    AdvanceGrows(w.core, w.core.world.time + s.clockStep);
    EnvLoopGrowsLog(s, m, EndRound(s, w));
    var from := EnvConcluded(s, m, t);
    ConcludeBooks(s, EnvAlone(s, m, t).0, EnvAlone(s, m, t).1, from);
  }

  /** What a crash comes to that left as its latest checkpoint the one that `z` writes with `rest`
      left of the tick: the same work at its logical time exactly if asking once more offers the
      actions that were left, and the same result, if it leaves cursors and spending as they were. */
  ghost predicate Compared(s: Setup, m: Minds, m': Minds, t: Tables, t': Tables, z: Session, rest: Rest)
    requires s.clockStep >= 1
  {
    var ((u, o), (v, o')) := (EnvAlone(s, m, t), EnvAlone(s, m', t'));
    var x, now := SaveCheckpoint(s, m, z), z.core.world.time;
    && (z.core.world.finished ==> SameResult(s, u, v) && o' == o)
    && (!z.core.world.finished ==>
          (WorkAt(u.core.Events(), now) == WorkAt(v.core.Events(), now) <==> SameActions(s, m, x, rest)))
    && (!z.core.world.finished && SameAgain(s, m, x, rest) ==> SameResult(s, u, v) && o' == o)
    && (Remembers(m) || (SameActions(s, m, x, rest) ==> SameCursors(s, m, x, rest)) ==>
          (SameResult(s, u, v) <==> z.core.world.finished || SameAgain(s, m, x, rest)))
  }

  lemma EnvNewCheckpoint(s: Setup, m: Minds, m': Minds, t: Tables, t': Tables, z: Session, rest: Rest)
    requires EnvComparable(s, m, m', t) && Stored(s, m, z, t')
    requires TickWriter(s, m, z, rest) && EnvGoOn(s, m, z, rest) == EnvAlone(s, m, t)
    requires EnvAlone(s, m', t').0.core.journal.sequence < s.limits.maxEvents
    ensures Compared(s, m, m', t, t', z, rest)
  {
    assert EnvAlone(s, m', t') == EnvComeBack(s, m, m', z, t') by {
      hide EnvLoop, Announce, Rejoin, Capture;
    }
    hide Capture, Sound, TickWriter, SaveCheckpoint, EnvLoop, EndRound, EnvAlone, EnvComeBack, SameAnswers, Restorable, Stored,
         EnvGoOn, SameResult, WorkAt, Recoverable, Kept, AllWhole, Manned, SameActions, SameCursors, SameAgain, Remembers, Active, Fits;
    TickWriterFacts(s, m, z, rest);
    NoCursorLost(m, m', z.memos);
    ResumeExactly(s, m, m', z, rest, t');
  }

  /** A crash that left no new checkpoint. */
  lemma EnvOldCheckpoint(s: Setup, m: Minds, m': Minds, t: Tables, t': Tables)
    requires EnvComparable(s, m, m', t) && Sound(s, t') && CanStart(t') && Keeps(AnchorOf(t), t')
    requires Latest(t'.checkpoints) == Latest(t.checkpoints)
    requires EnvAlone(s, m', t').0.core.journal.sequence < s.limits.maxEvents
    ensures SameResult(s, EnvAlone(s, m, t).0, EnvAlone(s, m', t').0) && EnvAlone(s, m', t').1 == EnvAlone(s, m, t).1
  {
    hide SameResult, EnvLoop, SameAnswers, AllWhole, Recoverable, Manned, InStep, Sound, Keeps, AnchorOf, Started, EnvAlike;
    SameStarts(s, m, m', t, t');
    StepIsAlike(s, Started(s, m, t), Started(s, m', t'), 0);
    EnvLoopAlike(s, m, m', Started(s, m, t), Started(s, m', t'));
    AlikeIsSameResult(s, EnvAlone(s, m, t).0, EnvAlone(s, m', t').0);
  }

  /** Kill any attempt of an environment run anywhere, and resume. If the killed attempt had stored
      no checkpoint yet, the new one does exactly its work. Otherwise its latest checkpoint was
      written by a session `z` with `rest` left of the tick, which the attempt left alone would
      have gone through, and what the new one comes to is decided by asking the agents once more
      in the state of `z`. */
  lemma CrashedEnvRun(s: Setup, m: Minds, m': Minds, t: Tables, cut: nat, marks: nat) returns (z: Session, rest: Rest)
    requires EnvComparable(s, m, m', t) && CanStart(Left(s, m, t, cut, marks))
    requires EnvAlone(s, m', Left(s, m, t, cut, marks)).0.core.journal.sequence < s.limits.maxEvents
    ensures var t' := Left(s, m, t, cut, marks);
      var ((u, o), (v, o')) := (EnvAlone(s, m, t), EnvAlone(s, m', t'));
      if Latest(t'.checkpoints) == Latest(t.checkpoints) then SameResult(s, u, v) && o' == o
      else
        && TickWriter(s, m, z, rest) && EnvGoOn(s, m, z, rest) == (u, o) && Stored(s, m, z, t')
        && Compared(s, m, m', t, t', z, rest)
  {
    var t' := Left(s, m, t, cut, marks);
    hide SameResult, EnvAlone, Left, Sound, SameAnswers, Recoverable, Keeps, AnchorOf, Old, ExplainedByTicks, CanStart, AllWhole, Manned,
         Compared, EnvLoop, EndRound, TickWriter, EnvGoOn, SaveCheckpoint, Capture, Attempt, Kept, Active, Fits, Stored;
    AttemptStates(s, m, t, cut, marks);
    if Latest(t'.checkpoints) == Latest(t.checkpoints) {
      EnvOldCheckpoint(s, m, m', t, t');
      z, rest := Started(s, m, t), AllAtOnce([]);
    } else {
      LatestIsNew(s, t, t');
      var c := Latest(t'.checkpoints).value;
      LatestIsPinned(s, t', c);
      EnvOrigin(s, m, t, cut, marks, c.sequence);
      z, rest := TickWriterOf(s, m, EnvAlone(s, m, t), c);
      TickLog(s, m, t, z, rest);
      TickWriterFacts(s, m, z, rest);
      StoredAtCrash(s, m, t, cut, marks, z);
      EnvNewCheckpoint(s, m, m', t, t', z, rest);
    }
  }

  // ---- a checkpoint between two actions ----

  lemma BetweenTells(s: Setup, m: Minds, x: Session, rest: Rest)
    requires Composed(m) && Fits(s, rest, Active(s, x)) && DoneActing(rest) && forall b :: b in Active(s, x) ==> b in x.memos
    ensures SameActions(s, m, x, rest) ==> SameCursors(s, m, x, rest)
    ensures SameAgain(s, m, x, rest) <==> NobodyActs(s, m, x, AskedAgain(s, x, rest)) && LeftToSpend(s, m, x, rest) == NoResources
  {
    hide Active, Fits, Composed, SameActions, SameCursors, NobodyActs, LeftToSpend, AskedAgain, Extra, DoneActing;
    NobodyAgain(s, m, x, rest);
    if NobodyActs(s, m, x, AskedAgain(s, x, rest)) {
      CalmAgain(s, m, x, rest);
      MinusNothing(LeftToSpend(s, m, x, rest));
    }
  }

  /** Any attempt of agents that act or stay as they are, killed anywhere with a new checkpoint: if
      that was written when the agent then asked had no more actions to offer, the next attempt
      comes to the same result if and only if the episode was over, or none of the agents asked
      before would act when asked once more and nothing was left to be spent in that turn. */
  lemma CrashedBetweenActions(s: Setup, m: Minds, m': Minds, t: Tables, cut: nat, marks: nat) returns (z: Session, rest: Rest)
    requires EnvComparable(s, m, m', t) && CanStart(Left(s, m, t, cut, marks)) && Composed(m)
    requires EnvAlone(s, m', Left(s, m, t, cut, marks)).0.core.journal.sequence < s.limits.maxEvents
    requires Latest(Left(s, m, t, cut, marks).checkpoints) != Latest(t.checkpoints)
    ensures var t' := Left(s, m, t, cut, marks);
      var (u, v, x) := (EnvAlone(s, m, t).0, EnvAlone(s, m', t').0, SaveCheckpoint(s, m, z));
      && TickWriter(s, m, z, rest) && EnvGoOn(s, m, z, rest) == EnvAlone(s, m, t) && Stored(s, m, z, t')
      && (DoneActing(rest) ==>
            SameResult(s, u, v) == (z.core.world.finished
              || (NobodyActs(s, m, x, AskedAgain(s, x, rest)) && LeftToSpend(s, m, x, rest) == NoResources)))
  {
    hide SameResult, EnvAlone, Left, Sound, SameAnswers, Recoverable, CanStart, AllWhole, TickWriter, EnvGoOn, SaveCheckpoint, Capture,
         Kept, Active, Fits, Latest, Composed, SameActions, SameCursors, WorkAt, NobodyActs, LeftToSpend, Remembers, Manned,
         Restorable, Dense, SameAgain, AskedAgain, DoneActing, Stored;
    z, rest := CrashedEnvRun(s, m, m', t, cut, marks);
    SavedFacts(s, m, z);
    TickWriterFacts(s, m, z, rest);
    if DoneActing(rest) {
      BetweenTells(s, m, SaveCheckpoint(s, m, z), rest);
    }
  }

  // ---- a checkpoint after the last action of its tick ----

  /** The run left alone, from the checkpoint on. */
  lemma GrowsFrom(s: Setup, m: Minds, z: Session, rest: Rest)
    requires s.clockStep >= 1
    ensures var x := SaveCheckpoint(s, m, z);
      && Grows(x.core, EnvGoOn(s, m, z, rest).0.core) && Stays(x.core, FinishTick(s, m, x, rest).core)
      && z.core.Events() <= x.core.Events() && x.core.world == z.core.world && Deeds(x.core.Events()) == Deeds(z.core.Events())
  {
    var x := SaveCheckpoint(s, m, z);
    SavedDeeds(s, m, z);
    assert z.core.Events() <= x.core.Events() && x.core.world == z.core.world by { hide Capture, Deeds; }
    hide EnvLoop, Deeds, SaveCheckpoint, Capture, AdvanceTo, FinishTick, Stays, Grows;
    FinishStays(s, m, x, rest);
    var w := FinishTick(s, m, x, rest);
    StaysGrows(x.core, w.core);
    AdvanceGrows(w.core, w.core.world.time + s.clockStep);
    EnvLoopGrowsLog(s, m, EndRound(s, w));
    GrowsOn(x.core, w.core, EndRound(s, w).core);
    GrowsOn(x.core, EndRound(s, w).core, EnvLoop(s, m, EndRound(s, w)).0.core);
  }

  /** If the run left alone logged no more work at the time of the checkpoint, nothing was left of its tick. */
  lemma TickWasDone(s: Setup, m: Minds, z: Session, rest: Rest)
    requires s.clockStep >= 1 && z.core.journal.sequence == |z.core.Events()|
    requires NothingElseNow(EnvGoOn(s, m, z, rest).0.core.Events(), Capture(s, m, z))
    ensures var x := SaveCheckpoint(s, m, z); Deeds(FinishTick(s, m, x, rest).core.Events()) == Deeds(x.core.Events())
  {
    var x := SaveCheckpoint(s, m, z);
    var w := FinishTick(s, m, x, rest);
    var u := EnvGoOn(s, m, z, rest).0.core;
    assert EnvGoOn(s, m, z, rest).0 == EnvLoop(s, m, EndRound(s, w)).0;
    hide EnvLoop, EndRound, Deeds, SaveCheckpoint, Capture, FinishTick, EnvGoOn, Filter;
    OfSnapshot(s, m, z);
    GrowsFrom(s, m, z, rest);
    assert u.Events()[..z.core.journal.sequence] == z.core.Events();
    hide Stays;
    CoreDeedsGrow(x.core, u);
    TickWork(s, m, x, w);
    hide Grows;
    var before := Deeds(x.core.Events());
    SplitAt(Deeds(u.Events()), before, before, z.core.world.time);
    NoMore(Filter(before, At(z.core.world.time)), before, Deeds(w.core.Events()));
  }

  lemma NoMore(front: seq<Deed>, before: seq<Deed>, now: seq<Deed>)
    requires before <= now && front + now[|before|..] == front + before[|before|..]
    ensures now == before
  {
    assert |front + now[|before|..]| == |front| + |now| - |before|;
    assert |front + before[|before|..]| == |front|;
  }

  lemma NothingLeftInTurn(s: Setup, m: Minds, x: Session, agent: Agent, emissions: seq<Emission>, later: seq<Agent>)
    requires !x.core.world.finished && SameAnswers(m, m) && Distinct(Active(s, x)) && Fits(s, InTurn(agent, emissions, later), Active(s, x))
    requires ActionsOf(FinishTick(s, m, x, InTurn(agent, emissions, later)).core) == ActionsOf(x.core)
    ensures !Acts(emissions) && NobodyActs(s, m, x, later)
  {
    hide Deeds, ActionsOf, NobodyActs, FinishTick, Performed, Offered, Acts, Active, SameAnswers;
    assert !s.driver.ParallelDriven? by { FitsMode(s, agent, emissions, later, Active(s, x)); }
    var p := LeftShows(s, m, x, agent, emissions, later);
    assert ActionsOf(x.core) + [] == ActionsOf(x.core);
    SameTails(ActionsOf(x.core), Performed(s, m, x, Offered(agent, emissions)) + p, []);
    PerformsNothing(s, m, x, agent, emissions);
    NobodyLater(s, m, x, agent, emissions, later);
  }

  lemma NothingLeftToCommit(s: Setup, m: Minds, x: Session, actions: seq<Action>)
    requires ActionsOf(EnvCommitAll(s, m, x, actions).core) == ActionsOf(x.core)
    ensures actions == []
  {
    hide ActionsOf, Performed, EnvCommitAll;
    CommitAllShows(s, m, x, actions);
    assert ActionsOf(x.core) + [] == ActionsOf(x.core);
    SameTails(ActionsOf(x.core), Performed(s, m, x, actions), []);
    PerformedAmong(s, m, x, actions);
  }

  lemma LaterAside(s: Setup, m: Minds, x: Session, agent: Agent, emissions: seq<Emission>, later: seq<Agent>)
    requires Fits(s, InTurn(agent, emissions, later), Active(s, x)) && NobodyActs(s, m, x, later)
    ensures NobodyActs(s, m, x, AskedAgain(s, x, InTurn(agent, emissions, later))) <==> NobodyActs(s, m, x, Active(s, x))
  {
    var asked := AskedBefore(Active(s, x), later) + [agent];
    assert asked + later == Active(s, x);
    hide NobodyActs, Active;
    NobodyOfBoth(s, m, x, asked, later);
  }

  /** Nothing was left of a tick: the stream has no more actions, and nobody after it would act. */
  lemma NothingLeft(s: Setup, m: Minds, x: Session, rest: Rest)
    requires !x.core.world.finished && SameAnswers(m, m) && Distinct(Active(s, x)) && Fits(s, rest, Active(s, x))
    requires Deeds(FinishTick(s, m, x, rest).core.Events()) == Deeds(x.core.Events())
    ensures DoneActing(rest)
    ensures NobodyActs(s, m, x, AskedAgain(s, x, rest)) <==> NobodyActs(s, m, x, Active(s, x))
  {
    assert ActionsOf(FinishTick(s, m, x, rest).core) == ActionsOf(x.core) by { hide Deeds, FinishTick; }
    hide Deeds, ActionsOf, NobodyActs, EnvCommitAll, EnvStream, EnvAgents, Acts, Active, SameAnswers;
    match rest {
      case InTurn(agent, emissions, later) =>
        NothingLeftInTurn(s, m, x, agent, emissions, later);
        LaterAside(s, m, x, agent, emissions, later);
      case AllAtOnce(actions) =>
        NothingLeftToCommit(s, m, x, actions);
    }
  }

  lemma NobodyLater(s: Setup, m: Minds, x: Session, agent: Agent, emissions: seq<Emission>, later: seq<Agent>)
    requires !x.core.world.finished && SameAnswers(m, m) && Distinct(Active(s, x)) && Fits(s, InTurn(agent, emissions, later), Active(s, x))
    requires ActionsOf(FinishTick(s, m, x, InTurn(agent, emissions, later)).core) == ActionsOf(x.core) && !Acts(emissions)
    ensures NobodyActs(s, m, x, later)
  {
    hide ActionsOf, NobodyActs, EnvStream, EnvAgents, Offered, Acts, Active, SameAnswers, Akin, Spent;
    OfferedIsHis(agent, emissions);
    StreamIsCommits(s, m, x, agent, emissions, []);
    StreamKeepsMemos(s, m, x, agent, emissions, []);
    var y, r := EnvStream(s, m, x, agent, emissions, []).0, Spent(s, m, x, agent, emissions);
    AkinWorld(s, x, y, r);
    AkinSilent(s, x, y, r);
    LaterIsDistinct(AskedBefore(Active(s, x), later), agent, later);
    assert SameOnAll(x, y, later);
    if !NobodyActs(s, m, x, later) {
      SomebodyShows(s, m, x, y, r, later, []);
    }
  }

  lemma LaterIsDistinct(before: seq<Agent>, agent: Agent, later: seq<Agent>)
    requires Distinct(before + ([agent] + later))
    ensures Distinct(later)
  {
    var all := before + ([agent] + later);
    assert forall i :: 0 <= i < |later| ==> all[|before| + 1 + i] == later[i];
  }

  /** When the checkpoint came after the last action of its tick and agents act or stay as they are:
      the new attempt comes to the same result if and only if the episode was over, or nobody would
      act when asked once more and nothing was left to be spent in the turn of the checkpoint. */
  lemma CrashedAfterTick(s: Setup, m: Minds, m': Minds, t: Tables, cut: nat, marks: nat) returns (z: Session, rest: Rest)
    requires EnvComparable(s, m, m', t) && CanStart(Left(s, m, t, cut, marks)) && Composed(m)
    requires EnvAlone(s, m', Left(s, m, t, cut, marks)).0.core.journal.sequence < s.limits.maxEvents
    requires var t' := Left(s, m, t, cut, marks);
      && Latest(t'.checkpoints) != Latest(t.checkpoints)
      && (Latest(t'.checkpoints).Some? ==> NothingElseNow(EnvAlone(s, m, t).0.core.Events(), Latest(t'.checkpoints).value))
    ensures var t' := Left(s, m, t, cut, marks);
      var (u, v, x) := (EnvAlone(s, m, t).0, EnvAlone(s, m', t').0, SaveCheckpoint(s, m, z));
      var now := z.core.world.time;
      && TickWriter(s, m, z, rest) && EnvGoOn(s, m, z, rest) == EnvAlone(s, m, t) && Stored(s, m, z, t')
      && (WorkAt(u.core.Events(), now) == WorkAt(v.core.Events(), now)) == (z.core.world.finished || NobodyActs(s, m, x, Active(s, x)))
      && SameResult(s, u, v) ==
           (z.core.world.finished || (NobodyActs(s, m, x, Active(s, x)) && LeftToSpend(s, m, x, rest) == NoResources))
  {
    var t' := Left(s, m, t, cut, marks);
    hide SameResult, EnvAlone, Left, Sound, SameAnswers, Recoverable, CanStart, AllWhole, TickWriter, EnvGoOn, SaveCheckpoint, Capture,
         Kept, Active, Fits, Latest, NothingElseNow, Composed, SameActions, SameCursors, WorkAt, NobodyActs, LeftToSpend, Remembers, Manned,
         Restorable, Dense;
    z, rest := CrashedEnvRun(s, m, m', t, cut, marks);
    AfterLast(s, m, m', t, t', z, rest);
  }

  /** With nothing left of the tick, asking once more tells by whether anybody acts. */
  lemma AskingTells(s: Setup, m: Minds, x: Session, rest: Rest)
    requires !x.core.world.finished && SameAnswers(m, m) && Composed(m) && Distinct(s.AgentIds()) && Fits(s, rest, Active(s, x))
    requires forall b :: b in Active(s, x) ==> b in x.memos
    requires Deeds(FinishTick(s, m, x, rest).core.Events()) == Deeds(x.core.Events())
    ensures SameActions(s, m, x, rest) <==> NobodyActs(s, m, x, Active(s, x))
    ensures SameActions(s, m, x, rest) ==> SameCursors(s, m, x, rest)
    ensures SameAgain(s, m, x, rest) <==> NobodyActs(s, m, x, Active(s, x)) && LeftToSpend(s, m, x, rest) == NoResources
  {
    hide SameAnswers, Active, Fits, Composed, SameActions, SameCursors, NobodyActs, LeftToSpend, Deeds, FinishTick, AskedAgain, Extra, DoneActing;
    ActiveIsDistinct(s, x);
    NothingLeft(s, m, x, rest);
    NobodyAgain(s, m, x, rest);
    if NobodyActs(s, m, x, AskedAgain(s, x, rest)) {
      CalmAgain(s, m, x, rest);
      MinusNothing(LeftToSpend(s, m, x, rest));
    }
  }

  lemma AfterLast(s: Setup, m: Minds, m': Minds, t: Tables, t': Tables, z: Session, rest: Rest)
    requires EnvComparable(s, m, m', t) && Composed(m) && Stored(s, m, z, t') && Compared(s, m, m', t, t', z, rest)
    requires TickWriter(s, m, z, rest) && EnvGoOn(s, m, z, rest) == EnvAlone(s, m, t)
    requires NothingElseNow(EnvAlone(s, m, t).0.core.Events(), Capture(s, m, z))
    ensures var (u, v, x) := (EnvAlone(s, m, t).0, EnvAlone(s, m', t').0, SaveCheckpoint(s, m, z));
      var now := z.core.world.time;
      && (WorkAt(u.core.Events(), now) == WorkAt(v.core.Events(), now)) == (z.core.world.finished || NobodyActs(s, m, x, Active(s, x)))
      && SameResult(s, u, v) ==
           (z.core.world.finished || (NobodyActs(s, m, x, Active(s, x)) && LeftToSpend(s, m, x, rest) == NoResources))
  {
    var x := SaveCheckpoint(s, m, z);
    hide EnvAlone, Sound, SameAnswers, Recoverable, CanStart, AllWhole, TickWriter, EnvGoOn, SaveCheckpoint, Capture,
         Kept, Active, Fits, NothingElseNow, Composed, SameActions, SameCursors, NobodyActs, LeftToSpend, Remembers, Manned,
         Restorable, Stored, Deeds, FinishTick, SameAgain, WorkAt, SameResult, Distinct;
    SavedFacts(s, m, z);
    TickWriterFacts(s, m, z, rest);
    if z.core.world.finished {
      FinishedWork(s, EnvAlone(s, m, t).0, EnvAlone(s, m', t').0, z.core.world.time);
    } else {
      TickWasDone(s, m, z, rest);
      AskingTells(s, m, x, rest);
    }
  }

  lemma FinishedWork(s: Setup, u: Session, v: Session, now: int)
    requires SameResult(s, u, v)
    ensures WorkAt(u.core.Events(), now) == WorkAt(v.core.Events(), now)
  {
    hide Deeds, Canon, Filter;
  }
}
