/** Resuming an environment run. Its checkpoints are written inside a tick, and a resumed attempt
    begins that tick over: exactly when it does the work the run left alone would have done. */
module EnvResumption {
  import opened Wrappers
  import opened Contracts
  import opened KernelState
  import opened Sorting
  import opened Scheduler
  import opened Store
  import opened Journals
  import opened WorldRules
  import opened DriverRules
  import opened RunRules
  import opened DriverInvariants
  import opened Recovery
  import opened Growth
  import opened Equivalence
  import opened Resumption

  /** The agents answer alike, whatever the number of their invocation. An environment driver shows them no history. */
  ghost predicate SameAnswers(m: Minds, m': Minds) {
    && m'.initial.Keys == m.initial.Keys
    && forall agent: Agent, memo: Memo, r: Request, n: nat :: m'.invoke(agent, memo, r.(invocation := n)) == m.invoke(agent, memo, r)
  }

  /** The same work, world, random streams and cursors. */
  ghost predicate EnvAlike(s: Setup, x: Session, x': Session) {
    Like(s, x.core, x'.core, x'.core.journal.sequence - x.core.journal.sequence) && x'.memos == x.memos
  }

  lemma EnvAlikeBack(s: Setup, x: Session, y: Session)
    requires EnvAlike(s, x, y)
    ensures EnvAlike(s, y, x)
  {
    hide Canon, Deeds;
  }

  lemma EnvAlikeOn(s: Setup, x: Session, y: Session, z: Session)
    requires EnvAlike(s, x, y) && EnvAlike(s, y, z)
    ensures EnvAlike(s, x, z)
  {
    hide Canon, Deeds;
  }

  /** A checkpoint, or none, makes no difference. */
  lemma CheckpointAside(s: Setup, m: Minds, x: Session)
    ensures EnvAlike(s, x, MaybeCheckpoint(s, m, x))
  {
    hide Canon, Deeds, Emit;
    var c := Capture(s, m, x.(sinceCheckpoint := 0));
    var saved := x.core.(journal := x.core.journal.(disk := WithCheckpoint(x.core.journal.disk, c)));
    assert Like(s, x.core, saved, 0);
    var d := PublicDraft(SnapshotCreated, WORLD_ACTOR, x.core.world.time, Body.Snapshot(c.sequence));
    EmitExtra(s, x.core, saved, 0, d);
    EmitOne(saved, d);
  }

  lemma EmitOne(c: Core, d: Draft)
    ensures Emit(c, d).journal.sequence == c.journal.sequence + 1
  {
  }

  lemma EnvChargeAlike(s: Setup, x: Session, x': Session, em: Emission)
    requires EnvAlike(s, x, x')
    ensures EnvAlike(s, x.(core := EnvCharge(x.core, em)), x'.(core := EnvCharge(x'.core, em)))
  {
    hide Canon, Deeds;
  }

  lemma LikeGap(s: Setup, c: Core, c': Core, k: int)
    requires Like(s, c, c', k)
    ensures k == c'.journal.sequence - c.journal.sequence
  {
  }

  lemma EnvCommitAlike(s: Setup, m: Minds, m': Minds, x: Session, x': Session, action: Action)
    requires EnvAlike(s, x, x')
    ensures EnvAlike(s, EnvCommit(s, m, x, action), EnvCommit(s, m', x', action))
  {
    hide Like, TakeAction, MaybeCheckpoint;
    var k := x'.core.journal.sequence - x.core.journal.sequence;
    var y, y' := x.(core := TakeAction(s, x.core, action, NoResources)), x'.(core := TakeAction(s, x'.core, action, NoResources));
    TakeActionLike(s, x.core, x'.core, k, action, NoResources);
    LikeGap(s, y.core, y'.core, k);
    assert EnvAlike(s, y, y');
    hide EnvAlike;
    CheckpointAside(s, m, y);
    CheckpointAside(s, m', y');
    EnvAlikeBack(s, y, MaybeCheckpoint(s, m, y));
    EnvAlikeOn(s, MaybeCheckpoint(s, m, y), y, y');
    EnvAlikeOn(s, MaybeCheckpoint(s, m, y), y', MaybeCheckpoint(s, m', y'));
  }

  lemma EnvAlikeWorld(s: Setup, x: Session, x': Session)
    requires EnvAlike(s, x, x')
    ensures x'.core.world == x.core.world.(queue := x'.core.world.queue) && x'.core.rng == x.core.rng && x'.memos == x.memos
    ensures Deeds(x'.core.Events()) == Deeds(x.core.Events())
  {
  }

  lemma {:induction false} EnvStreamAlike(
      s: Setup, m: Minds, m': Minds, x: Session, x': Session, agent: Agent, emissions: seq<Emission>, collected: seq<Action>)
    requires EnvAlike(s, x, x')
    ensures EnvAlike(s, EnvStream(s, m, x, agent, emissions, collected).0, EnvStream(s, m', x', agent, emissions, collected).0)
    ensures EnvStream(s, m, x, agent, emissions, collected).1 == EnvStream(s, m', x', agent, emissions, collected).1
    decreases |emissions|
  {
    hide EnvAlike, EnvCharge, EnvCommit;
    if |emissions| > 0 {
      var em := emissions[0];
      EnvChargeAlike(s, x, x', em);
      var y, y' := x.(core := EnvCharge(x.core, em)), x'.(core := EnvCharge(x'.core, em));
      if !em.kind.EmitAction? {
        EnvStreamAlike(s, m, m', y, y', agent, emissions[1..], collected);
      } else if s.driver.ParallelDriven? {
        EnvStreamAlike(s, m, m', y, y', agent, emissions[1..], collected + [ActionOf(agent, em)]);
      } else {
        EnvCommitAlike(s, m, m', y, y', ActionOf(agent, em));
        var z, z' := EnvCommit(s, m, y, ActionOf(agent, em)), EnvCommit(s, m', y', ActionOf(agent, em));
        EnvAlikeWorld(s, z, z');
        EnvStreamAlike(s, m, m', z, z', agent, emissions[1..], collected);
      }
    }
  }

  lemma EnvTurnAlike(s: Setup, m: Minds, m': Minds, x: Session, x': Session, agent: Agent, collected: seq<Action>)
    requires EnvAlike(s, x, x') && SameAnswers(m, m')
    ensures EnvAlike(s, EnvTurn(s, m, x, agent, collected).0, EnvTurn(s, m', x', agent, collected).0)
    ensures EnvTurn(s, m, x, agent, collected).1 == EnvTurn(s, m', x', agent, collected).1
  {
    hide Like, EnvStream;
    LikeTime(s, x.core, x'.core, x'.core.journal.sequence - x.core.journal.sequence);
    EnvAlikeWorld(s, x, x');
    var n, n' := x.driver.invocations + 1, x'.driver.invocations + 1;
    var r := EnvRequest(s, x, agent, n);
    assert EnvRequest(s, x', agent, n') == r.(invocation := n');
    var reply := m.invoke(agent, MemoOf(x, agent), r);
    EnvStreamAlike(s, m, m', x.(driver := x.driver.(invocations := n), memos := x.memos[agent := reply.memo]),
                   x'.(driver := x'.driver.(invocations := n'), memos := x'.memos[agent := reply.memo]), agent, reply.emissions, collected);
  }

  lemma {:induction false} EnvAgentsAlike(
      s: Setup, m: Minds, m': Minds, x: Session, x': Session, agents: seq<Agent>, collected: seq<Action>)
    requires EnvAlike(s, x, x') && SameAnswers(m, m')
    ensures EnvAlike(s, EnvAgents(s, m, x, agents, collected).0, EnvAgents(s, m', x', agents, collected).0)
    ensures EnvAgents(s, m, x, agents, collected).1 == EnvAgents(s, m', x', agents, collected).1
    decreases |agents|
  {
    hide EnvAlike, EnvTurn, SameAnswers;
    if |agents| > 0 {
      EnvTurnAlike(s, m, m', x, x', agents[0], collected);
      var (y, more) := EnvTurn(s, m, x, agents[0], collected);
      var y' := EnvTurn(s, m', x', agents[0], collected).0;
      EnvAlikeWorld(s, y, y');
      EnvAgentsAlike(s, m, m', y, y', agents[1..], more);
    }
  }

  lemma {:induction false} EnvCommitAllAlike(s: Setup, m: Minds, m': Minds, x: Session, x': Session, actions: seq<Action>)
    requires EnvAlike(s, x, x')
    ensures EnvAlike(s, EnvCommitAll(s, m, x, actions), EnvCommitAll(s, m', x', actions))
    decreases |actions|
  {
    hide EnvAlike, EnvCommit;
    if |actions| > 0 {
      EnvCommitAlike(s, m, m', x, x', actions[0]);
      var y, y' := EnvCommit(s, m, x, actions[0]), EnvCommit(s, m', x', actions[0]);
      EnvAlikeWorld(s, y, y');
      EnvCommitAllAlike(s, m, m', y, y', actions[1..]);
    }
  }

  lemma TickAlike(s: Setup, m: Minds, m': Minds, x: Session, x': Session)
    requires EnvAlike(s, x, x') && SameAnswers(m, m')
    ensures EnvAlike(s, Tick(s, m, x), Tick(s, m', x'))
  {
    hide EnvAlike, EnvAgents, EnvCommitAll, SameAnswers;
    EnvAlikeWorld(s, x, x');
    var agents := ActiveAgents(s, x.core.world.dropped);
    EnvAgentsAlike(s, m, m', x, x', agents, []);
    var (y, collected) := EnvAgents(s, m, x, agents, []);
    EnvCommitAllAlike(s, m, m', y, EnvAgents(s, m', x', agents, []).0, Sort(collected, ActionOrder()));
  }

  lemma EndTickAlike(s: Setup, x: Session, x': Session)
    requires EnvAlike(s, x, x')
    ensures EnvAlike(s, EndRound(s, x), EndRound(s, x'))
  {
    hide Like, AdvanceTo;
    var k := x'.core.journal.sequence - x.core.journal.sequence;
    LikeTime(s, x.core, x'.core, k);
    AdvanceLike(s, x.core, x'.core, k, x.core.world.time + s.clockStep);
    LikeGap(s, EndRound(s, x).core, EndRound(s, x').core, k);
  }

  lemma {:induction false} EnvLoopOnward(s: Setup, m: Minds, x: Session)
    requires s.clockStep >= 1
    ensures EnvLoop(s, m, x).0.core.journal.sequence >= x.core.journal.sequence
    decreases if x.core.journal.sequence < s.limits.maxEvents then s.limits.maxEvents - x.core.journal.sequence else 0
  {
    hide Tick;
    if !x.core.world.finished && x.core.world.time <= s.limits.maxLogicalTime && x.core.journal.sequence < s.limits.maxEvents {
      TickEffect(s, Tick(s, m, x));
      EnvLoopOnward(s, m, EndRound(s, Tick(s, m, x)));
    }
  }

  /** Runs that have done the same work go on to do the same work, as long as neither comes to the event limit. */
  lemma {:induction false} EnvLoopAlike(s: Setup, m: Minds, m': Minds, x: Session, x': Session)
    requires EnvAlike(s, x, x') && SameAnswers(m, m') && s.clockStep >= 1
    requires EnvLoop(s, m, x).0.core.journal.sequence < s.limits.maxEvents
    requires EnvLoop(s, m', x').0.core.journal.sequence < s.limits.maxEvents
    ensures EnvAlike(s, EnvLoop(s, m, x).0, EnvLoop(s, m', x').0) && EnvLoop(s, m', x').1 == EnvLoop(s, m, x).1
    decreases if x.core.journal.sequence < s.limits.maxEvents then s.limits.maxEvents - x.core.journal.sequence else 0
  {
    hide EnvAlike, Tick, EndRound, SameAnswers;
    EnvLoopOnward(s, m, x);
    EnvLoopOnward(s, m', x');
    EnvAlikeWorld(s, x, x');
    if !x.core.world.finished && x.core.world.time <= s.limits.maxLogicalTime {
      var y, y' := Tick(s, m, x), Tick(s, m', x');
      TickEffect(s, y);
      TickAlike(s, m, m', x, x');
      EndTickAlike(s, y, y');
      EnvLoopAlike(s, m, m', EndRound(s, y), EndRound(s, y'));
    }
  }

  // ---- ticks write at their own time ----

  lemma EnvCommitStays(s: Setup, m: Minds, x: Session, action: Action)
    ensures Stays(x.core, EnvCommit(s, m, x, action).core)
    ensures |Deeds(EnvCommit(s, m, x, action).core.Events())| > |Deeds(x.core.Events())|
  {
    hide TakeAction, MaybeCheckpoint, Stays, Deeds;
    TakeActionStays(s, x.core, action, NoResources);
    ActionIsWork(s, x.core, action, NoResources);
    var y := x.(core := TakeAction(s, x.core, action, NoResources));
    MaybeCheckpointStays(s, m, y);
    StaysOn(x.core, y.core, MaybeCheckpoint(s, m, y).core);
    GrowthIsMonotone(y.core, MaybeCheckpoint(s, m, y).core);
  }

  lemma ActionIsWork(s: Setup, c: Core, action: Action, delta: ResourceDelta)
    ensures |Deeds(TakeAction(s, c, action, delta).Events())| > |Deeds(c.Events())|
  {
    hide Deeds, ApplyChange, Stays;
    var d := PublicDraft(ActionTaken, action.actor, c.world.time, Acted(action.kind, action.args)).(delta := delta);
    OneMore(c, d);
    var c1 := Emit(c, d);
    match s.handle(action, ViewOf(s, c1.world)) {
      case None => OneMore(c1, PublicDraft(PolicyDecided, WORLD_ACTOR, c1.world.time, Policy("unknown_action", false, action.kind, 0)));
      case Some(change) =>
        ApplyChangeStays(s, c1, action, change);
        GrowthIsMonotone(c1, ApplyChange(s, c1, action, change));
    }
  }

  lemma {:induction false} EnvStreamStays(
      s: Setup, m: Minds, x: Session, agent: Agent, emissions: seq<Emission>, collected: seq<Action>)
    ensures Stays(x.core, EnvStream(s, m, x, agent, emissions, collected).0.core)
    decreases |emissions|
  {
    hide EnvCommit, Stays;
    QuietStays(x.core, x.core);
    if |emissions| > 0 {
      var em := emissions[0];
      var y := x.(core := EnvCharge(x.core, em));
      QuietStays(x.core, y.core);
      if !em.kind.EmitAction? {
        EnvStreamStays(s, m, y, agent, emissions[1..], collected);
        StaysOn(x.core, y.core, EnvStream(s, m, y, agent, emissions[1..], collected).0.core);
      } else if s.driver.ParallelDriven? {
        EnvStreamStays(s, m, y, agent, emissions[1..], collected + [ActionOf(agent, em)]);
        StaysOn(x.core, y.core, EnvStream(s, m, y, agent, emissions[1..], collected + [ActionOf(agent, em)]).0.core);
      } else {
        EnvCommitStays(s, m, y, ActionOf(agent, em));
        var z := EnvCommit(s, m, y, ActionOf(agent, em));
        StaysOn(x.core, y.core, z.core);
        EnvStreamStays(s, m, z, agent, emissions[1..], collected);
        StaysOn(x.core, z.core, EnvStream(s, m, z, agent, emissions[1..], collected).0.core);
      }
    }
  }

  lemma {:induction false} EnvAgentsStays(s: Setup, m: Minds, x: Session, agents: seq<Agent>, collected: seq<Action>)
    ensures Stays(x.core, EnvAgents(s, m, x, agents, collected).0.core)
    decreases |agents|
  {
    hide EnvStream, Stays;
    QuietStays(x.core, x.core);
    if |agents| > 0 {
      var agent, n := agents[0], x.driver.invocations + 1;
      var reply := m.invoke(agent, MemoOf(x, agent), EnvRequest(s, x, agent, n));
      EnvStreamStays(s, m, x.(driver := x.driver.(invocations := n), memos := x.memos[agent := reply.memo]), agent, reply.emissions, collected);
      var (y, more) := EnvTurn(s, m, x, agent, collected);
      EnvAgentsStays(s, m, y, agents[1..], more);
      StaysOn(x.core, y.core, EnvAgents(s, m, y, agents[1..], more).0.core);
    }
  }

  lemma {:induction false} EnvCommitAllStays(s: Setup, m: Minds, x: Session, actions: seq<Action>)
    ensures Stays(x.core, EnvCommitAll(s, m, x, actions).core)
    ensures actions != [] ==> |Deeds(EnvCommitAll(s, m, x, actions).core.Events())| > |Deeds(x.core.Events())|
    decreases |actions|
  {
    hide EnvCommit, Stays, Deeds;
    QuietStays(x.core, x.core);
    if |actions| > 0 {
      EnvCommitStays(s, m, x, actions[0]);
      var y := EnvCommit(s, m, x, actions[0]);
      EnvCommitAllStays(s, m, y, actions[1..]);
      StaysOn(x.core, y.core, EnvCommitAll(s, m, y, actions[1..]).core);
      GrowthIsMonotone(y.core, EnvCommitAll(s, m, y, actions[1..]).core);
    }
  }

  lemma TickStays(s: Setup, m: Minds, x: Session)
    ensures Stays(x.core, Tick(s, m, x).core)
  {
    hide EnvAgents, EnvCommitAll, Stays;
    var agents := ActiveAgents(s, x.core.world.dropped);
    EnvAgentsStays(s, m, x, agents, []);
    var (y, collected) := EnvAgents(s, m, x, agents, []);
    EnvCommitAllStays(s, m, y, Sort(collected, ActionOrder()));
    StaysOn(x.core, y.core, EnvCommitAll(s, m, y, Sort(collected, ActionOrder())).core);
  }

  lemma {:induction false} EnvLoopGrowsLog(s: Setup, m: Minds, x: Session)
    requires s.clockStep >= 1
    ensures Grows(x.core, EnvLoop(s, m, x).0.core)
    decreases if x.core.journal.sequence < s.limits.maxEvents then s.limits.maxEvents - x.core.journal.sequence else 0
  {
    hide Tick, Grows, Stays, AdvanceTo;
    SameGrows(x.core);
    if !x.core.world.finished && x.core.world.time <= s.limits.maxLogicalTime && x.core.journal.sequence < s.limits.maxEvents {
      var y := Tick(s, m, x);
      TickStays(s, m, x);
      StaysGrows(x.core, y.core);
      AdvanceGrows(y.core, y.core.world.time + s.clockStep);
      GrowsOn(x.core, y.core, EndRound(s, y).core);
      TickEffect(s, y);
      EnvLoopGrowsLog(s, m, EndRound(s, y));
      GrowsOn(x.core, EndRound(s, y).core, EnvLoop(s, m, EndRound(s, y)).0.core);
    }
  }

  // ---- resuming ----

  /** What was left of a tick when its checkpoint was written: in turn-taking mode the rest of one
      agent's stream and the agents after it, in parallel mode the actions not yet committed. */
  datatype Rest = InTurn(agent: Agent, emissions: seq<Emission>, later: seq<Agent>) | AllAtOnce(actions: seq<Action>)

  function FinishTick(s: Setup, m: Minds, x: Session, rest: Rest): Session {
    if x.core.world.finished then x
    else
      match rest
      case InTurn(agent, emissions, later) =>
        var (y, collected) := EnvStream(s, m, x, agent, emissions, []);
        if y.core.world.finished then y else EnvAgents(s, m, y, later, collected).0
      case AllAtOnce(actions) => EnvCommitAll(s, m, x, actions)
  }

  lemma FinishStays(s: Setup, m: Minds, x: Session, rest: Rest)
    ensures Stays(x.core, FinishTick(s, m, x, rest).core)
  {
    hide EnvStream, EnvAgents, EnvCommitAll, Stays;
    QuietStays(x.core, x.core);
    match rest {
      case InTurn(agent, emissions, later) =>
        EnvStreamStays(s, m, x, agent, emissions, []);
        var (y, collected) := EnvStream(s, m, x, agent, emissions, []);
        EnvAgentsStays(s, m, y, later, collected);
        StaysOn(x.core, y.core, EnvAgents(s, m, y, later, collected).0.core);
      case AllAtOnce(actions) => EnvCommitAllStays(s, m, x, actions);
    }
  }

  /** The run that goes on from the checkpoint `z` writes now. */
  function EnvGoOn(s: Setup, m: Minds, z: Session, rest: Rest): (Session, Outcome)
    requires s.clockStep >= 1
  {
    EnvLoop(s, m, EndRound(s, FinishTick(s, m, SaveCheckpoint(s, m, z), rest)))
  }

  /** The attempt that finds it as the latest one and resumes. */
  function EnvComeBack(s: Setup, m: Minds, m': Minds, z: Session, t: Tables): (Session, Outcome)
    requires s.clockStep >= 1
  {
    var c := Capture(s, m, z);
    EnvLoop(s, m', Announce(s, Rejoin(s, m', Opened(t), c), Some(c.sequence)))
  }

  /** The same work, and the same world and cursors in the end, except for the clock. */
  ghost predicate SameResult(s: Setup, u: Session, v: Session) {
    && Deeds(v.core.Events()) == Deeds(u.core.Events())
    && v.core.rng == u.core.rng
    && v.core.world == u.core.world.(time := v.core.world.time, queue := v.core.world.queue)
    && Canon(s.digest, v.core.world.queue) == Canon(s.digest, u.core.world.queue)
    && v.memos == u.memos
  }

  function At(time: int): Deed -> bool {
    (d: Deed) => d.time == time
  }

  /** The work a log shows at one logical time. */
  function WorkAt(log: seq<Event>, time: int): seq<Deed> {
    Filter(Deeds(log), At(time))
  }

  lemma AllAt(work: seq<Deed>, time: int)
    requires forall j :: 0 <= j < |work| ==> work[j].time == time
    ensures Filter(work, At(time)) == work
  {
    FilterAll(work, At(time));
  }

  lemma NoneAt(work: seq<Deed>, time: int)
    requires forall j :: 0 <= j < |work| ==> work[j].time > time
    ensures Filter(work, At(time)) == []
  {
    FilterNone(work, At(time));
  }

  lemma SplitAt(all: seq<Deed>, now: seq<Deed>, before: seq<Deed>, time: int)
    requires before <= now <= all
    requires forall j :: |before| <= j < |now| ==> now[j].time == time
    requires forall j :: |now| <= j < |all| ==> all[j].time > time
    ensures Filter(all, At(time)) == Filter(before, At(time)) + now[|before|..]
  {
    hide Filter;
    var added, later := now[|before|..], all[|now|..];
    AllAt(added, time);
    NoneAt(later, time);
    assert now == before + added && all == now + later;
    FilterConcat(before, added, At(time));
    FilterConcat(now, later, At(time));
    assert Filter(now, At(time)) + [] == Filter(now, At(time));
  }

  /** What a run does at the time of a tick `x` is in, if the tick ends as `w`. */
  lemma TickWork(s: Setup, m: Minds, x: Session, w: Session)
    requires s.clockStep >= 1 && Stays(x.core, w.core)
    ensures var before, now := Deeds(x.core.Events()), Deeds(w.core.Events());
      && before <= now
      && WorkAt(EnvLoop(s, m, EndRound(s, w)).0.core.Events(), x.core.world.time)
           == Filter(before, At(x.core.world.time)) + now[|before|..]
  {
    hide Deeds, EnvLoop, EndRound, Filter;
    var w1 := EndRound(s, w);
    var u := EnvLoop(s, m, w1).0;
    SameTimeDeeds(x.core, w.core);
    TickEffect(s, w);
    RoundDeedsSame(s, w);
    EnvLoopGrowsLog(s, m, w1);
    CoreDeedsGrow(w1.core, u.core);
    SplitAt(Deeds(u.core.Events()), Deeds(w.core.Events()), Deeds(x.core.Events()), x.core.world.time);
  }

  lemma RoundDeedsSame(s: Setup, x: Session)
    ensures Deeds(EndRound(s, x).core.Events()) == Deeds(x.core.Events())
  {
    var time := x.core.world.time + s.clockStep;
    DeedsSnoc(x.core.Events(), Stamp(x.core.journal.attempt, x.core.journal.sequence, x.core.journal.index,
                                     PublicDraft(ClockAdvanced, WORLD_ACTOR, time, Clock(time))));
  }

  lemma SameSuffix(before: seq<Deed>, a: seq<Deed>, b: seq<Deed>, head: seq<Deed>)
    requires before <= a && before <= b
    ensures head + a[|before|..] == head + b[|before|..] <==> a == b
  {
    if head + a[|before|..] == head + b[|before|..] {
      assert a[|before|..] == (head + a[|before|..])[|head|..];
      assert b[|before|..] == (head + b[|before|..])[|head|..];
      assert a == before + a[|before|..] && b == before + b[|before|..];
    }
  }

  lemma StepIsAlike(s: Setup, x: Session, y: Session, k: int)
    requires InStep(s, x, y, k)
    ensures EnvAlike(s, x, y)
  {
    hide Canon, Deeds;
  }

  lemma AlikeIsSameResult(s: Setup, u: Session, v: Session)
    requires EnvAlike(s, u, v)
    ensures SameResult(s, u, v)
  {
    hide Canon, Deeds;
  }

  /** The resumed attempt begins the tick over. */
  lemma BeginsOver(s: Setup, m': Minds, y: Session)
    requires s.clockStep >= 1 && !y.core.world.finished && y.core.world.time <= s.limits.maxLogicalTime
    requires EnvLoop(s, m', y).0.core.journal.sequence < s.limits.maxEvents
    ensures EnvLoop(s, m', y) == EnvLoop(s, m', EndRound(s, Tick(s, m', y)))
  {
    EnvLoopOnward(s, m', y);
    hide Tick, EndRound;
  }

  /** Resuming an environment run whose tick, left alone, ended as `left`. If the episode was over
      at the checkpoint, the resumed attempt has nothing to do, and ends as the run left alone.
      Otherwise the two log the same work at the checkpoint's logical time if and only if beginning
      the tick over, from the state captured, logs what was left of it; without that their work
      differs; and if the tick begun over ends in the state in which the tick left alone ends, all
      their work is the same. */
  lemma ResumeTick(s: Setup, m: Minds, m': Minds, z: Session, left: Session, t: Tables)
    requires s.clockStep >= 1 && SameAnswers(m, m') && Restorable(m, m', z.memos) && Stored(s, m, z, t)
    requires z.sinceCheckpoint == 0 && z.core.world.time <= s.limits.maxLogicalTime
    requires Stays(SaveCheckpoint(s, m, z).core, left.core) && (z.core.world.finished ==> left == SaveCheckpoint(s, m, z))
    requires EnvLoop(s, m, EndRound(s, left)).0.core.journal.sequence < s.limits.maxEvents
    requires EnvComeBack(s, m, m', z, t).0.core.journal.sequence < s.limits.maxEvents
    ensures var ((u, o), (v, o')) := (EnvLoop(s, m, EndRound(s, left)), EnvComeBack(s, m, m', z, t));
      var over, now := Tick(s, m, SaveCheckpoint(s, m, z)), z.core.world.time;
      if z.core.world.finished then SameResult(s, u, v) && o' == o
      else
        && (WorkAt(u.core.Events(), now) == WorkAt(v.core.Events(), now) <==> Deeds(left.core.Events()) == Deeds(over.core.Events()))
        && (SameResult(s, u, v) ==> Deeds(left.core.Events()) == Deeds(over.core.Events()))
        && (EnvAlike(s, left, over) ==> SameResult(s, u, v) && o' == o)
  {
    var x := SaveCheckpoint(s, m, z);
    var c := Capture(s, m, z);
    var y := Announce(s, Rejoin(s, m', Opened(t), c), Some(c.sequence));
    assert x.core.world == z.core.world;
    RejoinInStep(s, m, m', z, t);
    AlikeWorld(s, x, y, |s.agents| + 1);
    if z.core.world.finished {
      hide Canon, Deeds, InStep, SaveCheckpoint, Announce, Rejoin;
      EndRoundIsSameWork(s, x, y, |s.agents| + 1);
      TickEffect(s, x);
    } else {
      hide InStep, Canon, Deeds, SameAnswers, Restorable, Stored, SaveCheckpoint, Announce, Rejoin, EnvAlike, Tick, EnvLoop, SameResult,
           Capture, WorkAt, EndRound;
      StepIsAlike(s, x, y, |s.agents| + 1);
      BeginsOver(s, m', y);
      TickAlike(s, m, m', x, y);
      TickStays(s, m, x);
      TickStays(s, m', y);
      NotOver(s, m, m', x, y, left, Tick(s, m, x), Tick(s, m', y));
    }
  }

  /** The tick the resumed attempt begins with is the tick of the checkpoint, begun over. */
  lemma SameTick(s: Setup, m: Minds, m': Minds, z: Session, t: Tables)
    requires SameAnswers(m, m') && Restorable(m, m', z.memos) && Stored(s, m, z, t) && z.sinceCheckpoint == 0
    ensures var x, c := SaveCheckpoint(s, m, z), Capture(s, m, z);
      var y := Announce(s, Rejoin(s, m', Opened(t), c), Some(c.sequence));
      EnvAlike(s, x, y) && EnvAlike(s, Tick(s, m, x), Tick(s, m', y))
  {
    var x, c := SaveCheckpoint(s, m, z), Capture(s, m, z);
    var y := Announce(s, Rejoin(s, m', Opened(t), c), Some(c.sequence));
    RejoinInStep(s, m, m', z, t);
    hide InStep, SameAnswers, Restorable, Stored, SaveCheckpoint, Capture, Announce, Rejoin, EnvAlike, Tick;
    StepIsAlike(s, x, y, |s.agents| + 1);
    TickAlike(s, m, m', x, y);
  }

  /** The same for a checkpoint of which it is known what was left of its tick. */
  lemma EnvResume(s: Setup, m: Minds, m': Minds, z: Session, rest: Rest, t: Tables)
    requires s.clockStep >= 1 && SameAnswers(m, m') && Restorable(m, m', z.memos) && Stored(s, m, z, t)
    requires z.sinceCheckpoint == 0 && z.core.world.time <= s.limits.maxLogicalTime
    requires EnvGoOn(s, m, z, rest).0.core.journal.sequence < s.limits.maxEvents
    requires EnvComeBack(s, m, m', z, t).0.core.journal.sequence < s.limits.maxEvents
    ensures var ((u, o), (v, o')) := (EnvGoOn(s, m, z, rest), EnvComeBack(s, m, m', z, t));
      var x := SaveCheckpoint(s, m, z);
      var left, over, now := FinishTick(s, m, x, rest), Tick(s, m, x), z.core.world.time;
      if z.core.world.finished then SameResult(s, u, v) && o' == o
      else
        && (WorkAt(u.core.Events(), now) == WorkAt(v.core.Events(), now) <==> Deeds(left.core.Events()) == Deeds(over.core.Events()))
        && (SameResult(s, u, v) ==> Deeds(left.core.Events()) == Deeds(over.core.Events()))
        && (EnvAlike(s, left, over) ==> SameResult(s, u, v) && o' == o)
  {
    var x := SaveCheckpoint(s, m, z);
    assert x.core.world == z.core.world;
    assert z.core.world.finished ==> FinishTick(s, m, x, rest) == x;
    hide Deeds, SameAnswers, Restorable, Stored, SaveCheckpoint, EnvAlike, FinishTick, Tick, EnvLoop, SameResult, WorkAt, EndRound,
         EnvComeBack, Stays;
    FinishStays(s, m, x, rest);
    ResumeTick(s, m, m', z, FinishTick(s, m, x, rest), t);
  }

  lemma NotOver(s: Setup, m: Minds, m': Minds, x: Session, y: Session, left: Session, over: Session, again: Session)
    requires s.clockStep >= 1 && SameAnswers(m, m') && EnvAlike(s, x, y) && EnvAlike(s, over, again)
    requires Stays(x.core, left.core) && Stays(x.core, over.core) && Stays(y.core, again.core)
    requires EnvLoop(s, m, EndRound(s, left)).0.core.journal.sequence < s.limits.maxEvents
    requires EnvLoop(s, m', EndRound(s, again)).0.core.journal.sequence < s.limits.maxEvents
    ensures var ((u, o), (v, o')) := (EnvLoop(s, m, EndRound(s, left)), EnvLoop(s, m', EndRound(s, again)));
      var now := x.core.world.time;
      && (WorkAt(u.core.Events(), now) == WorkAt(v.core.Events(), now) <==> Deeds(left.core.Events()) == Deeds(over.core.Events()))
      && (SameResult(s, u, v) ==> Deeds(left.core.Events()) == Deeds(over.core.Events()))
      && (EnvAlike(s, left, over) ==> SameResult(s, u, v) && o' == o)
  {
    hide Deeds, EnvLoop, EndRound, SameAnswers, Stays, Canon, Filter, EnvAlike, Like;
    EnvAlikeWorld(s, x, y);
    EnvAlikeWorld(s, over, again);
    TickWork(s, m, x, left);
    TickWork(s, m', y, again);
    var before := Deeds(x.core.Events());
    SameSuffix(before, Deeds(left.core.Events()), Deeds(again.core.Events()), Filter(before, At(x.core.world.time)));
    if EnvAlike(s, left, over) {
      EnvAlikeOn(s, left, over, again);
      EndTickAlike(s, left, again);
      EnvLoopAlike(s, m, m', EndRound(s, left), EndRound(s, again));
      AlikeIsSameResult(s, EnvLoop(s, m, EndRound(s, left)).0, EnvLoop(s, m', EndRound(s, again)).0);
    }
  }

  // ---- agents that act or stay as they are ----

  ghost predicate Inactive(emissions: seq<Emission>) {
    forall em :: em in emissions ==> !em.kind.EmitAction? && em.delta == NoResources
  }

  /** An agent that does not act costs nothing and stays as it is. */
  ghost predicate Composed(m: Minds) {
    forall agent: Agent, memo: Memo, r: Request ::
      var reply := m.invoke(agent, memo, r);
      Acts(reply.emissions) || (Inactive(reply.emissions) && reply.memo == memo)
  }

  ghost predicate Acts(emissions: seq<Emission>) {
    exists i :: 0 <= i < |emissions| && emissions[i].kind.EmitAction?
  }

  /** Asked in the state of `x`, none of the agents would act. */
  ghost predicate NobodyActs(s: Setup, m: Minds, x: Session, agents: seq<Agent>) {
    forall a :: a in agents ==> !Acts(m.invoke(a, MemoOf(x, a), EnvRequest(s, x, a, 0)).emissions)
  }

  lemma PlusNothing(r: ResourceDelta, none: ResourceDelta)
    requires none == ResourceDelta(0, 0, 0, 0, 0.0, 0.0, 0)
    ensures r.Plus(none) == r
  {
  }

  lemma ChargeNothing(c: Core, em: Emission)
    requires em.delta == NoResources
    ensures EnvCharge(c, em) == c
  {
    PlusNothing(c.world.resources, NoResources);
    PlusNothing(c.ledger.unlogged, NoResources);
    hide ResourceDelta.Plus;
  }
}
