/** Nobody is ever dropped from a run; and when error emissions cost nothing, the session driver
    leaves no resource unlogged: in memory and in every checkpoint, in every history. */
module Accounting {
  import opened Wrappers
  import opened Contracts
  import opened KernelState
  import opened Sorting
  import opened Scheduler
  import opened Store
  import opened Journals
  import opened WorldRules
  import opened DriverRules
  import opened RunRules
  import opened DriverInvariants
  import opened Books
  import opened Recovery
  import opened Histories

  /** Error emissions carry a zero delta. */
  ghost predicate Thrifty(m: Minds) {
    forall agent: Agent, memo: Memo, r: Request :: CheapErrors(m.invoke(agent, memo, r).emissions)
  }

  ghost predicate CheapErrors(emissions: seq<Emission>) {
    forall em :: em in emissions && em.kind.EmitError? ==> em.delta == NoResources
  }

  /** When the books are kept strictly: the session driver, with free errors. */
  ghost predicate Strictly(s: Setup, m: Minds, strict: bool) {
    strict ==> s.driver.SessionDriven? && Thrifty(m)
  }

  ghost predicate Balanced(checkpoints: map<nat, Checkpoint>, strict: bool) {
    forall q :: q in checkpoints ==>
      checkpoints[q].world.dropped == {} && (strict ==> checkpoints[q].ledger.unlogged == NoResources)
  }

  /** Everybody takes part, and strictly nothing is unlogged: in memory and in every checkpoint of
      every durable state. */
  ghost predicate Tidy(c: Core, strict: bool) {
    && c.world.dropped == {}
    && (strict ==> c.ledger.unlogged == NoResources)
    && Balanced(c.journal.disk.tables.checkpoints, strict)
    && forall i :: 0 <= i < |c.journal.disk.trail| ==> Balanced(c.journal.disk.trail[i].checkpoints, strict)
  }

  lemma TidyOn(c: Core, c': Core, strict: bool)
    requires Tidy(c, strict) && SameBooks(c, c')
    ensures Tidy(c', strict)
  {
    hide Balanced;
    var d, d' := c.journal.disk, c'.journal.disk;
    forall i | 0 <= i < |d'.trail| ensures Balanced(d'.trail[i].checkpoints, strict) {
      if i < |d.trail| {
        assert d'.trail[i] == d.trail[i];
      }
    }
  }

  // ---- the session driver ----

  lemma NoneMore(none: ResourceDelta)
    requires none == ResourceDelta(0, 0, 0, 0, 0.0, 0.0, 0)
    ensures none.Plus(none) == none
  {
  }

  lemma ChargeLedger(c: Core, em: Emission, none: ResourceDelta)
    requires c.ledger.unlogged == none && none.Plus(none) == none && (em.kind.EmitError? ==> em.delta == none)
    ensures Charge(c, em).ledger.unlogged == none
  {
    hide ResourceDelta.Plus;
  }

  lemma ChargeRest(c: Core, em: Emission)
    ensures Charge(c, em).journal == c.journal && Charge(c, em).world.dropped == c.world.dropped
  {
    hide ResourceDelta.Plus;
  }

  lemma ChargeTidy(c: Core, em: Emission, strict: bool)
    requires Tidy(c, strict) && (strict && em.kind.EmitError? ==> em.delta == NoResources)
    ensures Tidy(Charge(c, em), strict)
  {
    hide Balanced, ResourceDelta.Plus, Charge;
    ChargeRest(c, em);
    if strict {
      NoneMore(NoResources);
      ChargeLedger(c, em, NoResources);
    }
  }

  lemma MaybeCheckpointTidy(s: Setup, m: Minds, x: Session, strict: bool)
    requires Tidy(x.core, strict)
    ensures Tidy(MaybeCheckpoint(s, m, x).core, strict)
  {
    var c := Capture(s, m, x.(sinceCheckpoint := 0));
    var saved := x.core.(journal := x.core.journal.(disk := WithCheckpoint(x.core.journal.disk, c)));
    assert Tidy(saved, strict);
    hide Tidy, Emit;
    var d := PublicDraft(SnapshotCreated, WORLD_ACTOR, x.core.world.time, Body.Snapshot(c.sequence));
    EmitBooks(saved, d);
    TidyOn(saved, Emit(saved, d), strict);
  }

  lemma {:induction false} RunStreamTidy(
      s: Setup, m: Minds, x: Session, agent: Agent, emissions: seq<Emission>, invocation: nat, strict: bool)
    requires Tidy(x.core, strict) && (strict ==> CheapErrors(emissions))
    ensures Tidy(RunStream(s, m, x, agent, emissions, invocation).core, strict)
    decreases |emissions|
  {
    hide Tidy, HandleEmission, Charge, MaybeCheckpoint;
    if |emissions| > 0 {
      var c := Charge(x.core, emissions[0]);
      ChargeTidy(x.core, emissions[0], strict);
      HandleEmissionBooks(s, c, agent, emissions[0], invocation);
      TidyOn(c, HandleEmission(s, c, agent, emissions[0], invocation), strict);
      var y := x.(core := HandleEmission(s, c, agent, emissions[0], invocation));
      MaybeCheckpointTidy(s, m, y, strict);
      assert CheapErrors(emissions) ==> CheapErrors(emissions[1..]);
      RunStreamTidy(s, m, MaybeCheckpoint(s, m, y), agent, emissions[1..], invocation, strict);
    }
  }

  lemma InvokeTidy(s: Setup, m: Minds, x: Session, agent: Agent, d: Delivery, cause: EventId, strict: bool)
    requires Tidy(x.core, strict) && Strictly(s, m, strict)
    ensures Tidy(Invoke(s, m, x, agent, d, cause).core, strict)
  {
    hide Tidy, RunStream, Emit, EventView, CheapErrors;
    var invocation := x.driver.invocations + 1;
    var draft := Draft(AgentInvoked, agent, x.core.world.time, [], Some(cause), Private, [agent], Invoked(invocation, d.content), NoResources);
    EmitBooks(x.core, draft);
    TidyOn(x.core, Emit(x.core, draft), strict);
    var reply := m.invoke(agent, MemoOf(x, agent), RequestFor(s, x, agent, d, invocation));
    assert strict ==> CheapErrors(reply.emissions);
    RunStreamTidy(s, m, x.(core := Emit(x.core, draft), driver := x.driver.(invocations := invocation), memos := x.memos[agent := reply.memo]),
                  agent, reply.emissions, invocation, strict);
  }

  lemma DeliverTidy(s: Setup, m: Minds, x: Session, item: Item, strict: bool)
    requires Tidy(x.core, strict) && Strictly(s, m, strict)
    ensures Tidy(DeliverAndInvoke(s, m, x, item).core, strict)
  {
    hide Tidy, Invoke, MaybeCheckpoint, Hand, Strictly;
    HandBooks(x.core, item);
    TidyOn(x.core, Hand(x.core, item), strict);
    var y := x.(core := Hand(x.core, item));
    MaybeCheckpointTidy(s, m, y, strict);
    InvokeTidy(s, m, MaybeCheckpoint(s, m, y), item.delivery.recipient, item.delivery, EventId(x.core.journal.sequence), strict);
  }

  lemma {:induction false} RunBatchTidy(s: Setup, m: Minds, x: Session, items: seq<Item>, strict: bool)
    requires Tidy(x.core, strict) && Strictly(s, m, strict)
    ensures Tidy(RunBatch(s, m, x, items).core, strict)
    decreases |items|
  {
    hide Tidy, DeliverAndInvoke, Strictly;
    if |items| > 0 {
      DeliverTidy(s, m, x, items[0], strict);
      RunBatchTidy(s, m, DeliverAndInvoke(s, m, x, items[0]), items[1..], strict);
    }
  }

  lemma AdvanceTidy(c: Core, time: int, strict: bool)
    requires Tidy(c, strict)
    ensures Tidy(AdvanceTo(c, time), strict)
  {
    hide Tidy, AdvanceTo;
    AdvanceBooks(c, time);
    TidyOn(c, AdvanceTo(c, time), strict);
  }

  lemma PopTidy(s: Setup, c: Core, strict: bool)
    requires Tidy(c, strict)
    ensures Tidy(PopDue(s, c).0, strict)
  {
    hide Balanced, Popped, Remaining;
  }

  lemma {:induction false} SessionLoopTidy(s: Setup, m: Minds, x: Session, strict: bool)
    requires Tidy(x.core, strict) && Strictly(s, m, strict)
    ensures Tidy(SessionLoop(s, m, x).0.core, strict)
    decreases if x.core.journal.sequence < s.limits.maxEvents then s.limits.maxEvents - x.core.journal.sequence else 0,
              |x.core.world.queue|
  {
    hide RunBatch, LimitHit, NextDue, PopDue, AdvanceTo, Tidy, Strictly;
    if !x.core.world.finished && LimitHit(s, x.core).None? {
      LimitLeavesRoom(s, x.core);
      PopShrinks(s, x.core);
      PopTidy(s, x.core, strict);
      var (core, due) := PopDue(s, x.core);
      var popped := x.(core := core);
      if |due| > 0 {
        var y := RunBatch(s, m, popped, due);
        RunBatchTidy(s, m, popped, due, strict);
        AdvanceTidy(y.core, y.core.world.time + s.clockStep, strict);
        EndRoundProgress(s, popped, y);
        SessionLoopTidy(s, m, EndRound(s, y), strict);
      } else {
        NextDueIsLater(core.world.queue, core.world.time);
        if NextDue(core.world.queue).Some? && NextDue(core.world.queue).value <= s.limits.maxLogicalTime {
          AdvanceTidy(core, NextDue(core.world.queue).value, strict);
          AdvanceProgress(core, NextDue(core.world.queue).value);
          SessionLoopTidy(s, m, popped.(core := AdvanceTo(core, NextDue(core.world.queue).value)), strict);
        }
      }
    }
  }

  lemma {:induction false} OpenAllTidy(s: Setup, x: Session, agents: seq<Agent>, strict: bool)
    requires Tidy(x.core, strict)
    ensures Tidy(OpenAll(s, x, agents).core, strict)
  {
    hide Tidy, Enqueue;
    if |agents| > 0 {
      OpenAllTidy(s, x, agents[..|agents| - 1], strict);
      var y := OpenAll(s, x, agents[..|agents| - 1]);
      var agent := agents[|agents| - 1];
      match s.opening(agent, ViewOf(s, y.core.world)) {
        case None =>
        case Some(text) =>
          var d := Delivery(WORLD_ACTOR, agent, text, map["kind" := "opening"], Private, 0);
          EnqueueBooks(s, y.core, d, 0);
          TidyOn(y.core, Enqueue(s, y.core, d, 0), strict);
      }
    }
  }

  lemma RunSessionTidy(s: Setup, m: Minds, x: Session, strict: bool)
    requires Tidy(x.core, strict) && Strictly(s, m, strict)
    ensures Tidy(RunSession(s, m, x).0.core, strict)
  {
    hide Tidy, SessionLoop, OpenAll, Strictly;
    OpenAllTidy(s, x, ActiveAgents(s, x.core.world.dropped), strict);
    SessionLoopTidy(s, m, Activate(s, x), strict);
  }

  // ---- the environment driver ----

  lemma EnvChargeTidy(c: Core, em: Emission)
    requires Tidy(c, false)
    ensures Tidy(EnvCharge(c, em), false)
  {
    hide Balanced;
  }

  lemma EnvCommitTidy(s: Setup, m: Minds, x: Session, action: Action)
    requires Tidy(x.core, false)
    ensures Tidy(EnvCommit(s, m, x, action).core, false)
  {
    hide Tidy, TakeAction, MaybeCheckpoint;
    TakeActionBooks(s, x.core, action, NoResources);
    TidyOn(x.core, TakeAction(s, x.core, action, NoResources), false);
    MaybeCheckpointTidy(s, m, x.(core := TakeAction(s, x.core, action, NoResources)), false);
  }

  lemma {:induction false} EnvStreamTidy(
      s: Setup, m: Minds, x: Session, agent: Agent, emissions: seq<Emission>, collected: seq<Action>)
    requires Tidy(x.core, false)
    ensures Tidy(EnvStream(s, m, x, agent, emissions, collected).0.core, false)
    decreases |emissions|
  {
    hide Tidy, EnvCommit, EnvCharge;
    if |emissions| > 0 {
      var em := emissions[0];
      EnvChargeTidy(x.core, em);
      var x1 := x.(core := EnvCharge(x.core, em));
      if !em.kind.EmitAction? {
        EnvStreamTidy(s, m, x1, agent, emissions[1..], collected);
      } else if s.driver.ParallelDriven? {
        EnvStreamTidy(s, m, x1, agent, emissions[1..], collected + [ActionOf(agent, em)]);
      } else {
        EnvCommitTidy(s, m, x1, ActionOf(agent, em));
        EnvStreamTidy(s, m, EnvCommit(s, m, x1, ActionOf(agent, em)), agent, emissions[1..], collected);
      }
    }
  }

  lemma {:induction false} EnvAgentsTidy(s: Setup, m: Minds, x: Session, agents: seq<Agent>, collected: seq<Action>)
    requires Tidy(x.core, false)
    ensures Tidy(EnvAgents(s, m, x, agents, collected).0.core, false)
    decreases |agents|
  {
    hide Tidy, EnvStream;
    if |agents| > 0 {
      var agent, n := agents[0], x.driver.invocations + 1;
      var reply := m.invoke(agent, MemoOf(x, agent), EnvRequest(s, x, agent, n));
      EnvStreamTidy(s, m, x.(driver := x.driver.(invocations := n), memos := x.memos[agent := reply.memo]),
                    agent, reply.emissions, collected);
      var (x', collected') := EnvTurn(s, m, x, agent, collected);
      EnvAgentsTidy(s, m, x', agents[1..], collected');
    }
  }

  lemma {:induction false} EnvCommitAllTidy(s: Setup, m: Minds, x: Session, actions: seq<Action>)
    requires Tidy(x.core, false)
    ensures Tidy(EnvCommitAll(s, m, x, actions).core, false)
    decreases |actions|
  {
    hide Tidy, EnvCommit;
    if |actions| > 0 {
      EnvCommitTidy(s, m, x, actions[0]);
      EnvCommitAllTidy(s, m, EnvCommit(s, m, x, actions[0]), actions[1..]);
    }
  }

  lemma {:induction false} EnvLoopTidy(s: Setup, m: Minds, x: Session)
    requires Tidy(x.core, false) && s.clockStep >= 1
    ensures Tidy(EnvLoop(s, m, x).0.core, false)
    decreases if x.core.journal.sequence < s.limits.maxEvents then s.limits.maxEvents - x.core.journal.sequence else 0
  {
    hide Tidy, EnvAgents, EnvCommitAll;
    if !x.core.world.finished && x.core.world.time <= s.limits.maxLogicalTime && x.core.journal.sequence < s.limits.maxEvents {
      var agents := ActiveAgents(s, x.core.world.dropped);
      EnvAgentsTidy(s, m, x, agents, []);
      var (x', collected) := EnvAgents(s, m, x, agents, []);
      EnvCommitAllTidy(s, m, x', Sort(collected, ActionOrder()));
      var y := Tick(s, m, x);
      AdvanceTidy(y.core, y.core.world.time + s.clockStep, false);
      EnvLoopTidy(s, m, EndRound(s, y));
    }
  }

  // ---- whole attempts ----

  lemma {:induction false} RegisterAllTidy(c: Core, agents: seq<AgentSpec>, strict: bool)
    requires Tidy(c, strict)
    ensures Tidy(RegisterAll(c, agents), strict)
  {
    hide Tidy, Emit;
    if |agents| > 0 {
      RegisterAllTidy(c, agents[..|agents| - 1], strict);
      var c' := RegisterAll(c, agents[..|agents| - 1]);
      var d := PublicDraft(AgentRegistered, agents[|agents| - 1].id, c'.world.time, Registered(agents[|agents| - 1].role));
      EmitBooks(c', d);
      TidyOn(c', Emit(c', d), strict);
    }
  }

  lemma MarkTidy(x: Session, state: RunState, from: Option<nat>, strict: bool)
    requires Tidy(x.core, strict)
    ensures Tidy(Mark(x, state, from).core, strict)
  {
    hide Balanced;
  }

  lemma VerifyTidy(s: Setup, c: Core, strict: bool)
    requires Tidy(c, strict)
    ensures Tidy(Verify(s, c).0, strict)
  {
    hide Balanced, AddPayoffs;
  }

  lemma ConcludeTidy(s: Setup, x: Session, outcome: Outcome, from: Option<nat>, strict: bool)
    requires Tidy(x.core, strict)
    ensures Tidy(Conclude(s, x, outcome, from).core, strict)
  {
    hide Tidy, Mark, Verify, Emit;
    VerifyTidy(s, x.core, strict);
    var (core, verdict) := Verify(s, x.core);
    var state := TerminalState(outcome, verdict);
    var d := PublicDraft(RunFinished, WORLD_ACTOR, core.world.time, Ended(state, outcome.reason));
    EmitBooks(core, d);
    TidyOn(core, Emit(core, d), strict);
    MarkTidy(x.(core := Emit(core, d)), state, from, strict);
  }

  lemma AnnounceTidy(s: Setup, x: Session, from: Option<nat>, strict: bool)
    requires Tidy(x.core, strict)
    ensures Tidy(Announce(s, x, from).core, strict)
  {
    hide Tidy, Emit, Mark, RegisterAll;
    var started := PublicDraft(RunStarted, WORLD_ACTOR, x.core.world.time, NoBody);
    EmitBooks(x.core, started);
    TidyOn(x.core, Emit(x.core, started), strict);
    RegisterAllTidy(Emit(x.core, started), s.agents, strict);
    MarkTidy(x.(core := RegisterAll(Emit(x.core, started), s.agents)), Running, from, strict);
  }

  lemma DriveTidy(s: Setup, m: Minds, x: Session, from: Option<nat>, strict: bool)
    requires Runnable(s) && Tidy(x.core, strict) && Strictly(s, m, strict)
    ensures Tidy(Drive(s, m, x, from).core, strict)
  {
    hide Tidy, Announce, RunSession, EnvLoop, Conclude, Thrifty;
    AnnounceTidy(s, x, from, strict);
    var y := Announce(s, x, from);
    if s.driver.SessionDriven? {
      RunSessionTidy(s, m, y, strict);
    } else {
      EnvLoopTidy(s, m, y);
    }
    var (z, outcome) := RunDriver(s, m, y);
    ConcludeTidy(s, z, outcome, from, strict);
  }

  lemma {:induction false} ArchiveBalanced(d: Disk, rows: seq<Event>, strict: bool)
    requires Balanced(d.tables.checkpoints, strict)
    requires forall i :: 0 <= i < |d.trail| ==> Balanced(d.trail[i].checkpoints, strict)
    ensures var d' := ArchiveRows(d, rows);
      Balanced(d'.tables.checkpoints, strict) && forall i :: 0 <= i < |d'.trail| ==> Balanced(d'.trail[i].checkpoints, strict)
  {
    hide Balanced;
    if |rows| > 0 {
      ArchiveBalanced(d, rows[..|rows| - 1], strict);
    }
  }

  lemma LatestIsStored(t: Tables, strict: bool)
    requires Latest(t.checkpoints).Some? && Balanced(t.checkpoints, strict)
    ensures var c := Latest(t.checkpoints).value;
      c.world.dropped == {} && (strict ==> c.ledger.unlogged == NoResources)
  {
    assert Maximum(t.checkpoints.Keys) in t.checkpoints;
  }

  lemma RejoinTidy(s: Setup, m: Minds, t: Tables, c: Checkpoint, strict: bool)
    requires Balanced(t.checkpoints, strict) && c.world.dropped == {} && (strict ==> c.ledger.unlogged == NoResources)
    ensures Tidy(Rejoin(s, m, Opened(t), c).core, strict)
  {
    ArchiveBalanced(Opened(t), Filter(t.events, From(c.sequence)), strict);
    hide ArchiveRows, Balanced;
  }

  lemma AttemptTidy(s: Setup, m: Minds, t: Tables, strict: bool)
    requires Runnable(s) && Balanced(t.checkpoints, strict) && Strictly(s, m, strict)
    ensures Tidy(Attempt(s, m, Opened(t)).core, strict)
  {
    hide Drive, Strictly;
    match Latest(t.checkpoints) {
      case None =>
        assert Tidy(Begin(s, m, Opened(t)).core, strict);
        DriveTidy(s, m, Begin(s, m, Opened(t)), None, strict);
      case Some(c) =>
        hide Balanced, Tidy, Rejoin;
        LatestIsStored(t, strict);
        RejoinTidy(s, m, t, c, strict);
        DriveTidy(s, m, Rejoin(s, m, Opened(t), c), Some(c.sequence), strict);
    }
  }

  // ---- every history ----

  ghost predicate ThriftyHistory(h: History) {
    match h
    case Untouched => true
    case Then(before, m, _, _) => Thrifty(m) && ThriftyHistory(before)
    case Fruitless(before, _, _) => ThriftyHistory(before)
  }

  lemma {:induction false} BooksOfHistory(s: Setup, h: History, strict: bool)
    requires Runnable(s) && (strict ==> s.driver.SessionDriven? && ThriftyHistory(h))
    ensures Balanced(After(s, h).checkpoints, strict)
  {
    match h {
      case Untouched =>
      case Then(before, m, cut, marks) =>
        var t := After(s, before);
        MarkKeepsTables(CrashedAt(Durables(s, m, t), cut, t), marks);
        BooksOfHistory(s, before, strict);
        hide Balanced, Thrifty, Attempt, MarkFailed;
        AttemptTidy(s, m, t, strict);
      case Fruitless(before, _, _) =>
        BooksOfHistory(s, before, strict);
        hide Balanced, Thrifty;
    }
  }

  /** In no checkpoint of any history of session runs is anything unlogged. */
  lemma EverythingIsLogged(s: Setup, h: History, q: nat)
    requires s.driver.SessionDriven? && ThriftyHistory(h) && q in After(s, h).checkpoints
    ensures After(s, h).checkpoints[q].ledger.unlogged == NoResources
  {
    hide After, ThriftyHistory;
    BooksOfHistory(s, h, true);
  }

  /** Nobody is ever dropped: not in any checkpoint of any history, nor at the end of an attempt. */
  lemma NobodyIsDropped(s: Setup, h: History, m: Minds)
    requires Runnable(s)
    ensures forall q :: q in After(s, h).checkpoints ==> After(s, h).checkpoints[q].world.dropped == {}
    ensures Attempt(s, m, Opened(After(s, h))).core.world.dropped == {}
  {
    hide After, Attempt;
    BooksOfHistory(s, h, false);
    AttemptTidy(s, m, After(s, h), false);
  }
}
