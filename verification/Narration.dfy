/** Every run tells its log in order: whatever the drivers and the controller do, and however often
    they are killed, each event is what it may be after those before it. */
module Narration {
  import opened Wrappers
  import opened Contracts
  import opened KernelState
  import opened Sorting
  import opened Scheduler
  import opened Store
  import opened Journals
  import opened WorldRules
  import opened DriverRules
  import opened RunRules
  import opened Invariants
  import opened DriverInvariants
  import opened Recovery
  import opened Histories
  import opened Books
  import opened Resumption
  import opened Chronicle

  /** These agents only ever send privately. */
  ghost predicate DiscreetMinds(quiet: set<Agent>, m: Minds) {
    forall agent: Agent, memo: Memo, r: Request :: agent in quiet ==> PrivateOnly(m.invoke(agent, memo, r).emissions)
  }

  ghost predicate PrivateOnly(emissions: seq<Emission>) {
    forall em :: em in emissions && em.kind.EmitMessage? ==> em.isPrivate
  }

  /** Memory, driver and log of a session tell the same, and no action is unsettled. */
  ghost predicate Tells(s: Setup, quiet: set<Agent>, x: Session) {
    Told(s, quiet, x.core) && DriverOk(s, x.driver, SceneIn(x.core)) && SceneIn(x.core).acting.None?
  }

  /** So far, before the attempt has begun. */
  ghost predicate MayBegin(s: Setup, quiet: set<Agent>, x: Session) {
    Ready(s, quiet, x.core) && DriverOk(s, x.driver, SceneIn(x.core)) && SceneIn(x.core).acting.None?
  }

  /** Only the core went on, and the number of invocations is the same. */
  lemma TellsOn(s: Setup, quiet: set<Agent>, x: Session, y: Session)
    requires DriverOk(s, x.driver, SceneIn(x.core)) && Told(s, quiet, y.core) && SceneIn(y.core).acting.None?
    requires SceneIn(y.core).invocations == SceneIn(x.core).invocations && y.driver.invocations == x.driver.invocations
    ensures Tells(s, quiet, y)
  {
    hide Told, Ready, SceneIn;
  }

  lemma TellsMayBegin(s: Setup, quiet: set<Agent>, x: Session)
    requires Tells(s, quiet, x)
    ensures MayBegin(s, quiet, x)
  {
    hide Ready, SceneIn;
  }

  // ---- checkpoints ----

  lemma SnapshotWorldOk(s: Setup, quiet: set<Agent>, w: WorldState, sc: Scene)
    requires WorldOk(s, quiet, w, sc)
    ensures WorldOk(s, quiet, SnapshotOf(s, w), sc)
  {
    SortKeepsElements(w.queue, ItemOrder(s.digest));
    hide Setup.AgentIds;
    assert forall i :: i in Canon(s.digest, w.queue) ==> i in multiset(Canon(s.digest, w.queue));
    assert forall i :: i in Canon(s.digest, w.queue) ==> i in w.queue;
  }

  lemma CapturedOk(s: Setup, quiet: set<Agent>, m: Minds, x: Session)
    requires Tells(s, quiet, x)
    ensures CheckpointOk(s, quiet, Capture(s, m, x), x.core.Events())
  {
    SnapshotWorldOk(s, quiet, x.core.world, SceneIn(x.core));
    assert x.core.Events()[..|x.core.Events()|] == x.core.Events();
    hide SnapshotOf, SceneOf, WorldOk, TablesOk, Snapshots;
  }

  lemma StoredOk(s: Setup, quiet: set<Agent>, d: Disk, c: Checkpoint)
    requires DiskOk(s, quiet, d) && CheckpointOk(s, quiet, c, d.tables.events)
    ensures DiskOk(s, quiet, WithCheckpoint(d, c))
  {
    hide CheckpointOk, LogOk;
    var t := WithCheckpoint(d, c).tables;
    assert TablesOk(s, quiet, t);
  }

  lemma SnapshotTold(s: Setup, quiet: set<Agent>, c: Core)
    requires Told(s, quiet, c) && SceneIn(c).acting.None?
    ensures var d := PublicDraft(SnapshotCreated, WORLD_ACTOR, c.world.time, Body.Snapshot(c.journal.sequence));
      Told(s, quiet, Emit(c, d)) && SceneIn(Emit(c, d)) == SceneIn(c)
  {
    var d := PublicDraft(SnapshotCreated, WORLD_ACTOR, c.world.time, Body.Snapshot(c.journal.sequence));
    var e := Stamp(c.journal.attempt, c.journal.sequence, c.journal.index, d);
    assert EventOk(s, quiet, SceneIn(c), e) by { hide SceneIn, Recorded, Withheld, KnownOnly; }
    assert Next(SceneIn(c), e) == SceneIn(c) by { hide SceneIn; }
    hide EventOk, Told, SceneIn, Next;
    EmitAside(s, quiet, c, d);
  }

  lemma SaveTells(s: Setup, quiet: set<Agent>, m: Minds, x: Session)
    requires Tells(s, quiet, x)
    ensures Tells(s, quiet, SaveCheckpoint(s, m, x)) && SceneIn(SaveCheckpoint(s, m, x).core) == SceneIn(x.core)
  {
    var c := Capture(s, m, x);
    assert c.sequence == x.core.journal.sequence;
    var saved := x.core.(journal := x.core.journal.(disk := WithCheckpoint(x.core.journal.disk, c)));
    CapturedOk(s, quiet, m, x);
    assert Told(s, quiet, saved) && SceneIn(saved) == SceneIn(x.core) by {
      hide CheckpointOk, WorldOk, Capture, SceneOf, DiskOk;
      StoredOk(s, quiet, x.core.journal.disk, c);
    }
    hide Told, SceneIn, Capture, Emit, WithCheckpoint;
    SnapshotTold(s, quiet, saved);
    TellsOn(s, quiet, x, SaveCheckpoint(s, m, x));
  }

  lemma MaybeTells(s: Setup, quiet: set<Agent>, m: Minds, x: Session)
    requires Tells(s, quiet, x)
    ensures Tells(s, quiet, MaybeCheckpoint(s, m, x)) && SceneIn(MaybeCheckpoint(s, m, x).core) == SceneIn(x.core)
  {
    hide Told, SceneIn, SaveCheckpoint;
    SaveTells(s, quiet, m, x.(sinceCheckpoint := 0));
  }

  // ---- the session driver ----

  lemma ChargeTold(s: Setup, quiet: set<Agent>, c: Core, em: Emission)
    requires Told(s, quiet, c)
    ensures Told(s, quiet, Charge(c, em)) && SceneIn(Charge(c, em)) == SceneIn(c)
  {
    hide Told, SceneIn, ResourceDelta.Plus;
    ToldAside(s, quiet, c, Charge(c, em));
  }

  lemma TakeEmissionTells(s: Setup, quiet: set<Agent>, m: Minds, x: Session, agent: Agent, em: Emission, invocation: nat)
    requires s.driver.SessionDriven? && Tells(s, quiet, x) && MayAct(s, SceneIn(x.core), agent) && DiscreetPack(s, quiet)
    requires invocation == SceneIn(x.core).invocations && (agent in quiet && em.kind.EmitMessage? ==> em.isPrivate)
    ensures var y := TakeEmission(s, m, x, agent, em, invocation);
      && Tells(s, quiet, y) && SceneIn(y.core).busy == SceneIn(x.core).busy && SceneIn(y.core).invocations == invocation
  {
    hide Told, SceneIn, Charge, HandleEmission, MaybeCheckpoint, DiscreetPack;
    ChargeTold(s, quiet, x.core, em);
    var c := Charge(x.core, em);
    HandleEmissionTold(s, quiet, c, agent, em, invocation);
    var y := x.(core := HandleEmission(s, c, agent, em, invocation));
    TellsOn(s, quiet, x, y);
    MaybeTells(s, quiet, m, y);
  }

  lemma {:induction false} StreamTells(
      s: Setup, quiet: set<Agent>, m: Minds, x: Session, agent: Agent, emissions: seq<Emission>, invocation: nat)
    requires s.driver.SessionDriven? && Tells(s, quiet, x) && MayAct(s, SceneIn(x.core), agent) && DiscreetPack(s, quiet)
    requires invocation == SceneIn(x.core).invocations && (agent in quiet ==> PrivateOnly(emissions))
    ensures Tells(s, quiet, RunStream(s, m, x, agent, emissions, invocation))
    decreases |emissions|
  {
    hide Tells, SceneIn, TakeEmission, DiscreetPack;
    if |emissions| > 0 {
      assert agent in quiet && emissions[0].kind.EmitMessage? ==> emissions[0].isPrivate;
      TakeEmissionTells(s, quiet, m, x, agent, emissions[0], invocation);
      var y := TakeEmission(s, m, x, agent, emissions[0], invocation);
      TellsFacts(s, quiet, y);
      if !y.core.world.finished {
        assert forall em :: em in emissions[1..] ==> em in emissions;
        StreamTells(s, quiet, m, y, agent, emissions[1..], invocation);
      }
    }
  }

  lemma TellsFacts(s: Setup, quiet: set<Agent>, x: Session)
    requires Tells(s, quiet, x)
    ensures SceneIn(x.core).acting.None? && (x.core.world.finished <==> SceneIn(x.core).over.Some?)
    ensures x.core.world.time == SceneIn(x.core).clock && x.core.world.dropped == {}
    ensures x.core.journal.sequence == |x.core.Events()| && KnownOnly(s, x.core.world.queue) && Withheld(quiet, x.core.world.queue)
    ensures s.driver.SessionDriven? ==> x.driver.invocations == SceneIn(x.core).invocations
  {
    hide DiskOk, SceneIn;
  }

  /** The delivery that an invocation is for has just been made. */
  ghost predicate JustHanded(sc: Scene, cause: EventId, agent: Agent, content: string) {
    sc.handed == Some(Handed(cause.sequence, agent, content)) && sc.over.None? && sc.acting.None?
  }

  lemma InvokedTold(s: Setup, quiet: set<Agent>, c: Core, agent: Agent, content: string, cause: EventId)
    requires Told(s, quiet, c) && s.driver.SessionDriven? && JustHanded(SceneIn(c), cause, agent, content)
    ensures var d := Draft(AgentInvoked, agent, c.world.time, [], Some(cause), Private, [agent],
                           Invoked(SceneIn(c).invocations + 1, content), NoResources);
      && Told(s, quiet, Emit(c, d))
      && SceneIn(Emit(c, d)) == SceneIn(c).(handed := None, busy := Some(agent), invocations := SceneIn(c).invocations + 1)
  {
    var d := Draft(AgentInvoked, agent, c.world.time, [], Some(cause), Private, [agent],
                   Invoked(SceneIn(c).invocations + 1, content), NoResources);
    var e := Stamp(c.journal.attempt, c.journal.sequence, c.journal.index, d);
    assert EventOk(s, quiet, SceneIn(c), e) by { hide SceneIn, Recorded, Withheld, KnownOnly; }
    assert Next(SceneIn(c), e) == SceneIn(c).(handed := None, busy := Some(agent), invocations := SceneIn(c).invocations + 1) by { hide SceneIn; }
    hide EventOk, Recorded, SceneIn, Next, Withheld, KnownOnly;
    EmitRecorded(s, quiet, c, d);
  }

  lemma RepliesPrivately(quiet: set<Agent>, m: Minds, agent: Agent, memo: Memo, r: Request)
    requires DiscreetMinds(quiet, m)
    ensures agent in quiet ==> PrivateOnly(m.invoke(agent, memo, r).emissions)
  {
    hide PrivateOnly;
  }

  lemma AskedTells(s: Setup, quiet: set<Agent>, x: Session, y: Session)
    requires Told(s, quiet, y.core) && SceneIn(y.core).acting.None? && y.driver.invocations == SceneIn(y.core).invocations
    ensures Tells(s, quiet, y)
  {
    hide Told, SceneIn;
  }

  /** The session in which an agent is being heard. */
  function HeardIn(x: Session, agent: Agent, content: string, cause: EventId, memo: Memo): Session {
    var invocation := x.driver.invocations + 1;
    var draft := Draft(AgentInvoked, agent, x.core.world.time, [], Some(cause), Private, [agent], Invoked(invocation, content), NoResources);
    x.(core := Emit(x.core, draft), driver := x.driver.(invocations := invocation), memos := x.memos[agent := memo])
  }

  lemma HeardInTells(s: Setup, quiet: set<Agent>, x: Session, agent: Agent, content: string, cause: EventId, memo: Memo)
    requires s.driver.SessionDriven? && Tells(s, quiet, x) && JustHanded(SceneIn(x.core), cause, agent, content)
    ensures var y := HeardIn(x, agent, content, cause, memo);
      Tells(s, quiet, y) && MayAct(s, SceneIn(y.core), agent) && SceneIn(y.core).invocations == x.driver.invocations + 1
  {
    TellsFacts(s, quiet, x);
    TellsIsTold(s, quiet, x);
    hide Tells, Told, SceneIn, Emit, Withheld, KnownOnly;
    InvokedTold(s, quiet, x.core, agent, content, cause);
    AskedTells(s, quiet, x, HeardIn(x, agent, content, cause, memo));
  }

  lemma InvokeTells(s: Setup, quiet: set<Agent>, m: Minds, x: Session, agent: Agent, d: Delivery, cause: EventId)
    requires s.driver.SessionDriven? && Tells(s, quiet, x) && JustHanded(SceneIn(x.core), cause, agent, d.content)
    requires DiscreetPack(s, quiet) && DiscreetMinds(quiet, m)
    ensures Tells(s, quiet, Invoke(s, m, x, agent, d, cause))
  {
    hide Tells, SceneIn, RunStream, RequestFor, DiscreetPack, DiscreetMinds, MemoOf, PrivateOnly, MayAct, JustHanded;
    var invocation := x.driver.invocations + 1;
    var r := RequestFor(s, x, agent, d, invocation);
    var reply := m.invoke(agent, MemoOf(x, agent), r);
    RepliesPrivately(quiet, m, agent, MemoOf(x, agent), r);
    var y := HeardIn(x, agent, d.content, cause, reply.memo);
    HeardInTells(s, quiet, x, agent, d.content, cause, reply.memo);
    hide Emit;
    assert Invoke(s, m, x, agent, d, cause) == RunStream(s, m, y, agent, reply.emissions, invocation);
    StreamTells(s, quiet, m, y, agent, reply.emissions, invocation);
  }

  lemma HandTold(s: Setup, quiet: set<Agent>, c: Core, item: Item)
    requires Told(s, quiet, c) && s.driver.SessionDriven? && SceneIn(c).acting.None? && SceneIn(c).over.None?
    requires Carried(s, quiet, item.delivery)
    ensures var d := item.delivery;
      && Told(s, quiet, Hand(c, item))
      && SceneIn(Hand(c, item)) == SceneIn(c).(handed := Some(Handed(c.journal.sequence, d.recipient, d.content)), busy := None)
  {
    var c1 := c.(ledger := c.ledger.(handed := c.ledger.handed + [item]));
    var draft := DeliveredDraft(item, c.world.time);
    var e := Stamp(c.journal.attempt, c.journal.sequence, c.journal.index, draft);
    assert EventOk(s, quiet, SceneIn(c), e) by { hide SceneIn, Recorded, Withheld, KnownOnly, Setup.AgentIds; }
    assert Next(SceneIn(c), e)
        == SceneIn(c).(handed := Some(Handed(c.journal.sequence, item.delivery.recipient, item.delivery.content)), busy := None) by { hide SceneIn; }
    hide EventOk, Recorded, SceneIn, Next, Withheld, KnownOnly, DeliveredDraft, Carried;
    RecordedAside(s, quiet, c, c1);
    EmitRecorded(s, quiet, c1, draft);
  }

  lemma DeliverTells(s: Setup, quiet: set<Agent>, m: Minds, x: Session, item: Item)
    requires s.driver.SessionDriven? && Tells(s, quiet, x) && !x.core.world.finished && Carried(s, quiet, item.delivery)
    requires DiscreetPack(s, quiet) && DiscreetMinds(quiet, m)
    ensures Tells(s, quiet, DeliverAndInvoke(s, m, x, item))
  {
    TellsFacts(s, quiet, x);
    hide Told, SceneIn, Hand, Invoke, MaybeCheckpoint, DiscreetPack, DiscreetMinds, Carried, Withheld, KnownOnly;
    HandTold(s, quiet, x.core, item);
    var y := x.(core := Hand(x.core, item));
    TellsOn(s, quiet, x, y);
    MaybeTells(s, quiet, m, y);
    if item.delivery.recipient in m.initial {
      InvokeTells(s, quiet, m, MaybeCheckpoint(s, m, y), item.delivery.recipient, item.delivery, EventId(x.core.journal.sequence));
    }
  }

  ghost predicate AllCarried(s: Setup, quiet: set<Agent>, items: seq<Item>) {
    forall i :: i in items ==> Carried(s, quiet, i.delivery)
  }

  lemma {:induction false} BatchTells(s: Setup, quiet: set<Agent>, m: Minds, x: Session, items: seq<Item>)
    requires s.driver.SessionDriven? && Tells(s, quiet, x) && !x.core.world.finished && AllCarried(s, quiet, items)
    requires DiscreetPack(s, quiet) && DiscreetMinds(quiet, m)
    ensures Tells(s, quiet, RunBatch(s, m, x, items))
    decreases |items|
  {
    hide Tells, DeliverAndInvoke, DiscreetPack, DiscreetMinds, Carried;
    if |items| > 0 {
      assert items[0] in items && forall i :: i in items[1..] ==> i in items;
      DeliverTells(s, quiet, m, x, items[0]);
      if !DeliverAndInvoke(s, m, x, items[0]).core.world.finished {
        BatchTells(s, quiet, m, DeliverAndInvoke(s, m, x, items[0]), items[1..]);
      }
    }
  }

  lemma AdvanceTold(s: Setup, quiet: set<Agent>, c: Core, time: int)
    requires Told(s, quiet, c) && SceneIn(c).acting.None?
    ensures Told(s, quiet, AdvanceTo(c, time)) && SceneIn(AdvanceTo(c, time)).acting.None?
    ensures SceneIn(AdvanceTo(c, time)).invocations == SceneIn(c).invocations
  {
    if time > c.world.time {
      var c1 := c.(world := c.world.(time := time));
      var d := PublicDraft(ClockAdvanced, WORLD_ACTOR, time, Clock(time));
      var e := Stamp(c.journal.attempt, c.journal.sequence, c.journal.index, d);
      assert EventOk(s, quiet, SceneIn(c), e) by { hide SceneIn, Recorded, Withheld, KnownOnly, Setup.AgentIds; }
      assert Next(SceneIn(c), e) == SceneIn(c).(clock := time, handed := None, busy := None) by { hide SceneIn; }
      hide EventOk, Recorded, SceneIn, Next, Withheld, KnownOnly;
      RecordedAside(s, quiet, c, c1);
      EmitRecorded(s, quiet, c1, d);
    }
  }

  lemma EndRoundTells(s: Setup, quiet: set<Agent>, x: Session)
    requires Tells(s, quiet, x)
    ensures Tells(s, quiet, EndRound(s, x))
  {
    hide Told, SceneIn, AdvanceTo;
    AdvanceTold(s, quiet, x.core, x.core.world.time + s.clockStep);
    TellsOn(s, quiet, x, EndRound(s, x));
  }

  lemma PopTells(s: Setup, quiet: set<Agent>, x: Session)
    requires Tells(s, quiet, x)
    ensures var (c, due) := PopDue(s, x.core);
      Tells(s, quiet, x.(core := c)) && AllCarried(s, quiet, due) && c.world.finished == x.core.world.finished
  {
    PopDueConserves(s.digest, x.core.world.queue, x.core.world.time);
    var (c, due) := PopDue(s, x.core);
    hide Recorded, SceneIn, Popped, Remaining, Setup.AgentIds;
    RecordedAside(s, quiet, x.core, c);
    assert Withheld(quiet, c.world.queue) && KnownOnly(s, c.world.queue);
  }

  lemma {:induction false} SessionLoopTells(s: Setup, quiet: set<Agent>, m: Minds, x: Session)
    requires s.driver.SessionDriven? && Tells(s, quiet, x) && DiscreetPack(s, quiet) && DiscreetMinds(quiet, m)
    ensures Tells(s, quiet, SessionLoop(s, m, x).0)
    decreases if x.core.journal.sequence < s.limits.maxEvents then s.limits.maxEvents - x.core.journal.sequence else 0,
              |x.core.world.queue|
  {
    hide RunBatch, LimitHit, NextDue, PopDue, AdvanceTo, EndRound, Tells, DiscreetPack, DiscreetMinds, AllCarried;
    if !x.core.world.finished && LimitHit(s, x.core).None? {
      LimitLeavesRoom(s, x.core);
      PopShrinks(s, x.core);
      PopTells(s, quiet, x);
      var (core, due) := PopDue(s, x.core);
      var popped := x.(core := core);
      if |due| > 0 {
        var y := RunBatch(s, m, popped, due);
        BatchTells(s, quiet, m, popped, due);
        EndRoundTells(s, quiet, y);
        EndRoundProgress(s, popped, y);
        SessionLoopTells(s, quiet, m, EndRound(s, y));
      } else {
        NextDueIsLater(core.world.queue, core.world.time);
        if NextDue(core.world.queue).Some? && NextDue(core.world.queue).value <= s.limits.maxLogicalTime {
          var next := NextDue(core.world.queue).value;
          SkipTells(s, quiet, popped, next);
          AdvanceProgress(core, next);
          SessionLoopTells(s, quiet, m, popped.(core := AdvanceTo(core, next)));
        }
      }
    }
  }

  lemma SkipTells(s: Setup, quiet: set<Agent>, x: Session, time: int)
    requires Tells(s, quiet, x)
    ensures Tells(s, quiet, x.(core := AdvanceTo(x.core, time)))
  {
    hide Told, SceneIn, AdvanceTo;
    AdvanceTold(s, quiet, x.core, time);
    TellsOn(s, quiet, x, x.(core := AdvanceTo(x.core, time)));
  }

  lemma {:induction false} OpenAllTells(s: Setup, quiet: set<Agent>, x: Session, agents: seq<Agent>)
    requires Tells(s, quiet, x)
    ensures Tells(s, quiet, OpenAll(s, x, agents))
  {
    hide Told, SceneIn, Enqueue;
    if |agents| > 0 {
      OpenAllTells(s, quiet, x, agents[..|agents| - 1]);
      var y := OpenAll(s, x, agents[..|agents| - 1]);
      var agent := agents[|agents| - 1];
      match s.opening(agent, ViewOf(s, y.core.world)) {
        case None =>
        case Some(text) =>
          var d := Delivery(WORLD_ACTOR, agent, text, map["kind" := "opening"], Private, 0);
          EnqueueTold(s, quiet, y.core, d, 0);
          TellsOn(s, quiet, y, OpenAll(s, x, agents));
      }
    }
  }

  // ---- the environment driver ----

  lemma EnvCommitTells(s: Setup, quiet: set<Agent>, m: Minds, x: Session, action: Action)
    requires !s.driver.SessionDriven? && Tells(s, quiet, x) && !x.core.world.finished && DiscreetPack(s, quiet)
    ensures Tells(s, quiet, EnvCommit(s, m, x, action))
  {
    TellsFacts(s, quiet, x);
    hide Told, SceneIn, TakeAction, MaybeCheckpoint, DiscreetPack, Withheld, KnownOnly;
    TakeActionTold(s, quiet, x.core, action, NoResources);
    var y := x.(core := TakeAction(s, x.core, action, NoResources));
    TellsOn(s, quiet, x, y);
    MaybeTells(s, quiet, m, y);
  }

  lemma EnvAside(s: Setup, quiet: set<Agent>, x: Session, y: Session)
    requires !s.driver.SessionDriven? && Tells(s, quiet, x) && y.core.journal == x.core.journal
    requires y.core.world == x.core.world.(resources := y.core.world.resources)
    ensures Tells(s, quiet, y)
  {
    hide Told, SceneIn;
    ToldAside(s, quiet, x.core, y.core);
  }

  lemma {:induction false} EnvStreamTells(
      s: Setup, quiet: set<Agent>, m: Minds, x: Session, agent: Agent, emissions: seq<Emission>, collected: seq<Action>)
    requires !s.driver.SessionDriven? && Tells(s, quiet, x) && !x.core.world.finished && DiscreetPack(s, quiet)
    ensures Tells(s, quiet, EnvStream(s, m, x, agent, emissions, collected).0)
    ensures s.driver.ParallelDriven? ==> !EnvStream(s, m, x, agent, emissions, collected).0.core.world.finished
    decreases |emissions|
  {
    hide Tells, EnvCommit, DiscreetPack, ResourceDelta.Plus;
    if |emissions| > 0 {
      var em := emissions[0];
      var y := x.(core := EnvCharge(x.core, em));
      EnvAside(s, quiet, x, y);
      if !em.kind.EmitAction? {
        EnvStreamTells(s, quiet, m, y, agent, emissions[1..], collected);
      } else if s.driver.ParallelDriven? {
        EnvStreamTells(s, quiet, m, y, agent, emissions[1..], collected + [ActionOf(agent, em)]);
      } else {
        EnvCommitTells(s, quiet, m, y, ActionOf(agent, em));
        var z := EnvCommit(s, m, y, ActionOf(agent, em));
        if !z.core.world.finished {
          EnvStreamTells(s, quiet, m, z, agent, emissions[1..], collected);
        }
      }
    }
  }

  lemma {:induction false} EnvAgentsTells(s: Setup, quiet: set<Agent>, m: Minds, x: Session, agents: seq<Agent>, collected: seq<Action>)
    requires !s.driver.SessionDriven? && Tells(s, quiet, x) && !x.core.world.finished && DiscreetPack(s, quiet)
    ensures Tells(s, quiet, EnvAgents(s, m, x, agents, collected).0)
    ensures s.driver.ParallelDriven? ==> !EnvAgents(s, m, x, agents, collected).0.core.world.finished
    decreases |agents|
  {
    hide Tells, EnvStream, DiscreetPack, EnvRequest;
    if |agents| > 0 {
      var agent, n := agents[0], x.driver.invocations + 1;
      var reply := m.invoke(agent, MemoOf(x, agent), EnvRequest(s, x, agent, n));
      var y := x.(driver := x.driver.(invocations := n), memos := x.memos[agent := reply.memo]);
      EnvAside(s, quiet, x, y);
      EnvStreamTells(s, quiet, m, y, agent, reply.emissions, collected);
      var (z, more) := EnvTurn(s, m, x, agent, collected);
      if !z.core.world.finished {
        EnvAgentsTells(s, quiet, m, z, agents[1..], more);
      }
    }
  }

  lemma {:induction false} EnvCommitAllTells(s: Setup, quiet: set<Agent>, m: Minds, x: Session, actions: seq<Action>)
    requires !s.driver.SessionDriven? && Tells(s, quiet, x) && !x.core.world.finished && DiscreetPack(s, quiet)
    ensures Tells(s, quiet, EnvCommitAll(s, m, x, actions))
    decreases |actions|
  {
    hide Tells, EnvCommit, DiscreetPack;
    if |actions| > 0 {
      EnvCommitTells(s, quiet, m, x, actions[0]);
      if !EnvCommit(s, m, x, actions[0]).core.world.finished {
        EnvCommitAllTells(s, quiet, m, EnvCommit(s, m, x, actions[0]), actions[1..]);
      }
    }
  }

  lemma {:induction false} EnvLoopTells(s: Setup, quiet: set<Agent>, m: Minds, x: Session)
    requires !s.driver.SessionDriven? && s.clockStep >= 1 && Tells(s, quiet, x) && DiscreetPack(s, quiet)
    ensures Tells(s, quiet, EnvLoop(s, m, x).0)
    decreases if x.core.journal.sequence < s.limits.maxEvents then s.limits.maxEvents - x.core.journal.sequence else 0
  {
    hide Tells, EnvAgents, EnvCommitAll, EndRound, DiscreetPack;
    if !x.core.world.finished && x.core.world.time <= s.limits.maxLogicalTime && x.core.journal.sequence < s.limits.maxEvents {
      var agents := ActiveAgents(s, x.core.world.dropped);
      EnvAgentsTells(s, quiet, m, x, agents, []);
      var (y, collected) := EnvAgents(s, m, x, agents, []);
      if s.driver.ParallelDriven? {
        EnvCommitAllTells(s, quiet, m, y, Sort(collected, ActionOrder()));
      }
      var w := Tick(s, m, x);
      TickEffect(s, w);
      EndRoundTells(s, quiet, w);
      EnvLoopTells(s, quiet, m, EndRound(s, w));
    }
  }

  // ---- whole attempts ----

  lemma {:induction false} RegisterAllTold(s: Setup, quiet: set<Agent>, c: Core, agents: seq<AgentSpec>)
    requires Told(s, quiet, c) && SceneIn(c).acting.None? && forall a :: a in agents ==> a in s.agents
    ensures Told(s, quiet, RegisterAll(c, agents)) && SceneIn(RegisterAll(c, agents)).acting.None?
    ensures SceneIn(RegisterAll(c, agents)).invocations == SceneIn(c).invocations
  {
    hide Told, SceneIn, Emit;
    if |agents| > 0 {
      var a := agents[|agents| - 1];
      assert a in agents;
      RegisterAllTold(s, quiet, c, agents[..|agents| - 1]);
      PublicTold(s, quiet, RegisterAll(c, agents[..|agents| - 1]), AgentRegistered, a.id, Registered(a.role));
    }
  }

  /** The event with which an attempt begins. */
  lemma StartTold(s: Setup, quiet: set<Agent>, c: Core, kind: EventKind, body: Body)
    requires Ready(s, quiet, c) && SceneIn(c).acting.None?
    requires (kind.RunStarted? && body == NoBody) || (kind.AttemptStarted? && body.Resumed? && body.checkpoint == c.journal.sequence)
    ensures var c' := Emit(c, PublicDraft(kind, WORLD_ACTOR, c.world.time, body));
      && Told(s, quiet, c') && SceneIn(c').acting.None? && SceneIn(c').invocations == SceneIn(c).invocations
      && SceneIn(c').over == SceneIn(c).over
  {
    var d := PublicDraft(kind, WORLD_ACTOR, c.world.time, body);
    var e := Stamp(c.journal.attempt, c.journal.sequence, c.journal.index, d);
    assert EventOk(s, quiet, SceneIn(c), e) by { hide SceneIn, Recorded, Withheld, KnownOnly; }
    assert Next(SceneIn(c), e) == SceneIn(c).(attempt := c.journal.attempt, handed := None, busy := None) by { hide SceneIn; }
    hide EventOk, Recorded, SceneIn, Next, Withheld, KnownOnly;
    EmitRecorded(s, quiet, c, d);
  }

  /** An event with which an attempt goes on to begin, or ends. */
  lemma PublicTold(s: Setup, quiet: set<Agent>, c: Core, kind: EventKind, actor: Agent, body: Body)
    requires Told(s, quiet, c) && SceneIn(c).acting.None?
    requires match kind
      case AgentRegistered => body.Registered? && AgentSpec(actor, body.role) in s.agents
      case RunFinished => body.Ended?
      case _ => false
    ensures var c' := Emit(c, PublicDraft(kind, actor, c.world.time, body));
      && Told(s, quiet, c') && SceneIn(c').acting.None? && SceneIn(c').invocations == SceneIn(c).invocations
      && SceneIn(c').over == SceneIn(c).over
  {
    var d := PublicDraft(kind, actor, c.world.time, body);
    var e := Stamp(c.journal.attempt, c.journal.sequence, c.journal.index, d);
    assert EventOk(s, quiet, SceneIn(c), e) by { hide SceneIn, Recorded, Withheld, KnownOnly; }
    assert Next(SceneIn(c), e) in {SceneIn(c), SceneIn(c).(handed := None, busy := None)} by { hide SceneIn; }
    hide EventOk, Recorded, SceneIn, Next, Withheld, KnownOnly;
    EmitRecorded(s, quiet, c, d);
  }

  lemma SecretTold(s: Setup, quiet: set<Agent>, c: Core, kind: EventKind, body: Body)
    requires Told(s, quiet, c) && SceneIn(c).acting.None?
    requires (kind.PayoffAssigned? && body.Paid?) || (kind.VerifierResult? && body.Judged?)
    ensures var c' := Emit(c, Draft(kind, WORLD_ACTOR, c.world.time, [], None, OmniscientOnly, [], body, NoResources));
      Told(s, quiet, c') && SceneIn(c') == SceneIn(c)
  {
    var d := Draft(kind, WORLD_ACTOR, c.world.time, [], None, OmniscientOnly, [], body, NoResources);
    var e := Stamp(c.journal.attempt, c.journal.sequence, c.journal.index, d);
    assert EventOk(s, quiet, SceneIn(c), e) by { hide SceneIn, Recorded, Withheld, KnownOnly; }
    assert Next(SceneIn(c), e) == SceneIn(c) by { hide SceneIn; }
    hide EventOk, Told, SceneIn, Next;
    EmitAside(s, quiet, c, d);
  }

  lemma MarkTells(s: Setup, quiet: set<Agent>, x: Session, state: RunState, from: Option<nat>)
    requires Tells(s, quiet, x)
    ensures Tells(s, quiet, Mark(x, state, from)) && SceneIn(Mark(x, state, from).core) == SceneIn(x.core)
  {
    hide LogOk, CheckpointOk, WorldOk, SceneOf;
    var d := x.core.journal.disk;
    RowsOk(s, quiet, d, d.tables.(runState := state));
    var d' := WithRunState(d, state);
    RowsOk(s, quiet, d', d'.tables.(attempts := d'.tables.attempts[x.core.journal.attempt := AttemptRow(state, from)]));
  }

  lemma RowsOk(s: Setup, quiet: set<Agent>, d: Disk, t: Tables)
    requires DiskOk(s, quiet, d) && t.events == d.tables.events && t.checkpoints == d.tables.checkpoints
    ensures DiskOk(s, quiet, d.Save(t))
  {
    hide LogOk, CheckpointOk;
    assert TablesOk(s, quiet, t);
  }

  lemma AnnounceTells(s: Setup, quiet: set<Agent>, x: Session, from: Option<nat>)
    requires MayBegin(s, quiet, x)
    ensures Tells(s, quiet, Announce(s, x, from))
  {
    hide Told, Ready, SceneIn, Emit, Mark, RegisterAll;
    StartTold(s, quiet, x.core, RunStarted, NoBody);
    var c := Emit(x.core, PublicDraft(RunStarted, WORLD_ACTOR, x.core.world.time, NoBody));
    RegisterAllTold(s, quiet, c, s.agents);
    var y := x.(core := RegisterAll(c, s.agents));
    TellsOn(s, quiet, x, y);
    MarkTells(s, quiet, y, Running, from);
  }

  lemma RunDriverTells(s: Setup, quiet: set<Agent>, m: Minds, x: Session)
    requires Runnable(s) && Tells(s, quiet, x) && DiscreetPack(s, quiet) && DiscreetMinds(quiet, m)
    ensures Tells(s, quiet, RunDriver(s, m, x).0)
  {
    hide Tells, SessionLoop, EnvLoop, OpenAll, DiscreetPack, DiscreetMinds;
    if s.driver.SessionDriven? {
      OpenAllTells(s, quiet, x, ActiveAgents(s, x.core.world.dropped));
      SessionLoopTells(s, quiet, m, Activate(s, x));
    } else {
      EnvLoopTells(s, quiet, m, x);
    }
  }

  lemma VerifyTold(s: Setup, quiet: set<Agent>, c: Core)
    requires Told(s, quiet, c) && SceneIn(c).acting.None?
    ensures Told(s, quiet, Verify(s, c).0) && SceneIn(Verify(s, c).0) == SceneIn(c)
  {
    hide Told, SceneIn, AddPayoffs, Emit;
    match s.verify(ViewOf(s, c.world), c.Events()) {
      case None =>
      case Some(v) =>
        if v.perAgent != map[] {
          var c1 := c.(world := c.world.(payoffs := AddPayoffs(c.world.payoffs, v.perAgent)));
          ToldAside(s, quiet, c, c1);
          SecretTold(s, quiet, c1, PayoffAssigned, Body.Paid(c1.world.payoffs));
        }
        var c2 := if v.perAgent != map[] then AssignPayoffs(c, v.perAgent) else c;
        SecretTold(s, quiet, c2, VerifierResult, Body.Judged(v.success, v.reward, v.perAgent));
    }
  }

  lemma ConcludeTells(s: Setup, quiet: set<Agent>, x: Session, outcome: Outcome, from: Option<nat>)
    requires Tells(s, quiet, x)
    ensures Tells(s, quiet, Conclude(s, x, outcome, from))
  {
    hide Told, SceneIn, Verify, Emit, Mark;
    VerifyTold(s, quiet, x.core);
    var (core, verdict) := Verify(s, x.core);
    var state := TerminalState(outcome, verdict);
    PublicTold(s, quiet, core, RunFinished, WORLD_ACTOR, Ended(state, outcome.reason));
    var y := x.(core := Emit(core, PublicDraft(RunFinished, WORLD_ACTOR, core.world.time, Ended(state, outcome.reason))));
    TellsOn(s, quiet, x, y);
    MarkTells(s, quiet, y, state, from);
  }

  lemma DriveTells(s: Setup, quiet: set<Agent>, m: Minds, x: Session, from: Option<nat>)
    requires Runnable(s) && MayBegin(s, quiet, x) && DiscreetPack(s, quiet) && DiscreetMinds(quiet, m)
    ensures Tells(s, quiet, Drive(s, m, x, from))
  {
    hide Tells, MayBegin, Announce, RunDriver, Conclude, DiscreetPack, DiscreetMinds;
    AnnounceTells(s, quiet, x, from);
    var y := Announce(s, x, from);
    RunDriverTells(s, quiet, m, y);
    ConcludeTells(s, quiet, RunDriver(s, m, y).0, RunDriver(s, m, y).1, from);
  }

  lemma BeginTells(s: Setup, quiet: set<Agent>, m: Minds, t: Tables)
    requires TablesOk(s, quiet, t) && t.events == []
    ensures MayBegin(s, quiet, Begin(s, m, Opened(t)))
  {
    hide CheckpointOk;
    var d := Opened(t);
    RowsOk(s, quiet, d, t.(runState := Planned));
    var d' := WithRunState(d, Planned);
    var number := NextAttempt(t.attempts);
    RowsOk(s, quiet, d', d'.tables.(attempts := d'.tables.attempts[number := AttemptRow(Provisioning, None)]));
    assert Withheld(quiet, NewWorld(s).queue) && KnownOnly(s, NewWorld(s).queue);
  }

  lemma {:induction false} ArchiveOk(s: Setup, quiet: set<Agent>, d: Disk, rows: seq<Event>)
    requires DiskOk(s, quiet, d)
    ensures DiskOk(s, quiet, ArchiveRows(d, rows))
    ensures ArchiveRows(d, rows).tables.events == d.tables.events && ArchiveRows(d, rows).tables.checkpoints == d.tables.checkpoints
  {
    hide TablesOk;
    if |rows| > 0 {
      ArchiveOk(s, quiet, d, rows[..|rows| - 1]);
      var d' := ArchiveRows(d, rows[..|rows| - 1]);
      RowsOk(s, quiet, d', d'.tables.(archive := d'.tables.archive[rows[|rows| - 1].id := rows[|rows| - 1]]));
    }
  }

  lemma CutTables(s: Setup, quiet: set<Agent>, t: Tables, n: nat)
    requires TablesOk(s, quiet, t) && n <= |t.events| && forall q :: q in t.checkpoints ==> t.checkpoints[q].sequence <= n
    ensures TablesOk(s, quiet, t.(events := t.events[..n]))
  {
    PrefixOk(s, quiet, t.events, n);
    hide LogOk, WorldOk, SceneOf, DriverOk;
    forall q | q in t.checkpoints ensures CheckpointOk(s, quiet, t.checkpoints[q], t.events[..n]) {
      assert t.events[..n][..t.checkpoints[q].sequence] == t.events[..t.checkpoints[q].sequence];
    }
  }

  lemma LatestBounds(s: Setup, t: Tables, c: Checkpoint)
    requires Sound(s, t) && Latest(t.checkpoints) == Some(c)
    ensures c.sequence in t.checkpoints && t.checkpoints[c.sequence] == c && c.sequence <= |t.events|
    ensures forall q :: q in t.checkpoints ==> t.checkpoints[q].sequence <= c.sequence
    ensures Supersede(Opened(t), c.sequence).tables.events == t.events[..c.sequence]
    ensures CutBack(Opened(t), c).tables.events == t.events[..c.sequence]
  {
    hide Sound, Pins, Supersede, Durable, CutBack;
    LatestIsPinned(s, t, c);
    StoredInOrder(s, t);
    SupersedeIsDurable(s, t, c);
    CutBackIsDurable(s, t, c);
  }

  lemma SupersedeOk(s: Setup, quiet: set<Agent>, t: Tables, n: nat)
    requires TablesOk(s, quiet, t) && n <= |t.events| && forall q :: q in t.checkpoints ==> t.checkpoints[q].sequence <= n
    requires Supersede(Opened(t), n).tables.events == t.events[..n]
    ensures DiskOk(s, quiet, Supersede(Opened(t), n))
  {
    var d := ArchiveRows(Opened(t), Filter(t.events, From(n)));
    assert DiskOk(s, quiet, Opened(t));
    hide TablesOk, Filter, ArchiveRows;
    ArchiveOk(s, quiet, Opened(t), Filter(t.events, From(n)));
    assert TablesOk(s, quiet, d.tables);
    CutTables(s, quiet, d.tables, n);
  }

  /** The log is cut back to the latest checkpoint through tables that are in order. */
  lemma CutBackOk(s: Setup, quiet: set<Agent>, t: Tables, c: Checkpoint)
    requires TablesOk(s, quiet, t) && Sound(s, t) && Latest(t.checkpoints) == Some(c)
    ensures DiskOk(s, quiet, CutBack(Opened(t), c))
  {
    hide Sound, TablesOk, Supersede, DiskOk, Latest;
    LatestBounds(s, t, c);
    SupersedeOk(s, quiet, t, c.sequence);
    var cut := Supersede(Opened(t), c.sequence);
    RowsOk(s, quiet, cut, cut.tables.(attempts :=
      cut.tables.attempts[NextAttempt(cut.tables.attempts) := AttemptRow(Provisioning, Some(c.sequence))]));
  }

  lemma StoredInOrder(s: Setup, t: Tables)
    requires Sound(s, t)
    ensures forall q :: q in t.checkpoints ==> t.checkpoints[q].sequence == q
  {
    hide Pins, SoundLog;
  }

  lemma CheckpointIn(s: Setup, quiet: set<Agent>, t: Tables, q: nat)
    requires TablesOk(s, quiet, t) && q in t.checkpoints
    ensures CheckpointOk(s, quiet, t.checkpoints[q], t.events)
  {
    hide LogOk, CheckpointOk;
  }

  lemma ReloadTells(s: Setup, quiet: set<Agent>, m: Minds, t: Tables, c: Checkpoint)
    requires CheckpointOk(s, quiet, c, t.events)
    requires DiskOk(s, quiet, CutBack(Opened(t), c)) && CutBack(Opened(t), c).tables.events == t.events[..c.sequence]
    ensures MayBegin(s, quiet, Reload(m, Opened(t), c))
  {
    hide DiskOk, CutBack, WorldOk, SceneOf, RestoreMemos;
  }

  lemma RejoinTells(s: Setup, quiet: set<Agent>, m: Minds, t: Tables, c: Checkpoint)
    requires TablesOk(s, quiet, t) && Sound(s, t) && Latest(t.checkpoints) == Some(c)
    ensures Tells(s, quiet, Rejoin(s, m, Opened(t), c))
  {
    hide Told, Ready, SceneIn, Emit, Sound, TablesOk, CheckpointOk, Reload, CutBack, DiskOk, Filter, Latest, Supersede;
    var x := Reload(m, Opened(t), c);
    LatestBounds(s, t, c);
    CutBackOk(s, quiet, t, c);
    CheckpointIn(s, quiet, t, c.sequence);
    ReloadTells(s, quiet, m, t, c);
    ReloadedAt(m, t, c);
    StartTold(s, quiet, x.core, AttemptStarted, Resumed(c.sequence, |Filter(t.events, From(c.sequence))|));
    TellsOn(s, quiet, x, Rejoin(s, m, Opened(t), c));
  }

  lemma ReloadedAt(m: Minds, t: Tables, c: Checkpoint)
    ensures Reload(m, Opened(t), c).core.journal.sequence == c.sequence
  {
    hide CutBack;
  }

  lemma TellsIsTold(s: Setup, quiet: set<Agent>, x: Session)
    requires Tells(s, quiet, x)
    ensures Told(s, quiet, x.core) && SceneIn(x.core).acting.None?
  {
    hide Told, SceneIn;
  }

  lemma AttemptTells(s: Setup, quiet: set<Agent>, m: Minds, t: Tables)
    requires Runnable(s) && TablesOk(s, quiet, t) && Sound(s, t) && CanStart(t) && DiscreetPack(s, quiet) && DiscreetMinds(quiet, m)
    ensures Tells(s, quiet, Attempt(s, m, Opened(t)))
  {
    hide Tells, MayBegin, Drive, Begin, Rejoin, TablesOk, Sound, DiscreetPack, DiscreetMinds;
    match Latest(t.checkpoints) {
      case None =>
        BeginTells(s, quiet, m, t);
        DriveTells(s, quiet, m, Begin(s, m, Opened(t)), None);
      case Some(c) =>
        RejoinTells(s, quiet, m, t, c);
        TellsMayBegin(s, quiet, Rejoin(s, m, Opened(t), c));
        DriveTells(s, quiet, m, Rejoin(s, m, Opened(t), c), Some(c.sequence));
    }
  }

  // ---- every history ----

  /** In every attempt these agents only send privately. */
  ghost predicate DiscreetHistory(quiet: set<Agent>, h: History) {
    match h
    case Untouched => true
    case Then(before, m, _, _) => DiscreetMinds(quiet, m) && DiscreetHistory(quiet, before)
    case Fruitless(before, _, _) => DiscreetHistory(quiet, before)
  }

  lemma {:induction false} EveryHistoryTells(s: Setup, quiet: set<Agent>, h: History)
    requires Runnable(s) && Orderly(s, h) && DiscreetPack(s, quiet) && DiscreetHistory(quiet, h)
    ensures TablesOk(s, quiet, After(s, h))
  {
    match h {
      case Untouched =>
      case Then(before, m, cut, marks) =>
        hide TablesOk, Sound, Attempt, DiscreetPack, DiscreetMinds;
        EveryHistoryTells(s, quiet, before);
        EveryHistoryIsSound(s, before);
        AttemptTells(s, quiet, m, After(s, before));
        LeftTells(s, quiet, m, After(s, before), cut, marks);
      case Fruitless(before, attempts, runState) =>
        hide LogOk, CheckpointOk, DiscreetPack;
        EveryHistoryTells(s, quiet, before);
    }
  }

  lemma LeftTells(s: Setup, quiet: set<Agent>, m: Minds, t: Tables, cut: nat, marks: nat)
    requires Runnable(s) && TablesOk(s, quiet, t) && Tells(s, quiet, Attempt(s, m, Opened(t)))
    ensures TablesOk(s, quiet, Left(s, m, t, cut, marks))
  {
    var t' := CrashedAt(Durables(s, m, t), cut, t);
    MarkKeepsTables(t', marks);
    hide LogOk, CheckpointOk, Attempt, MarkFailed, WorldOk, SceneIn;
    assert TablesOk(s, quiet, t');
  }

  /** The log of every history, event by event: each is what it may be in the scene that those
      before it set, and exactly those concerned may see it. */
  lemma EveryEventInPlace(s: Setup, h: History, i: nat, view: string)
    requires Runnable(s) && Orderly(s, h) && i < |After(s, h).events|
    ensures var log := After(s, h).events;
      var e := log[i];
      && InPlace(s, SceneOf(log[..i]), e) && Dated(SceneOf(log[..i]), e) && Undisturbed(SceneOf(log[..i]), e) && Stamped(SceneOf(log[..i]), e)
      && Fitting(e.kind, e.visibility)
      && (e.Project(view).Some? <==>
            view == OMNISCIENT_VIEW || e.visibility.Public?
            || (!e.visibility.OmniscientOnly? && view != PUBLIC_VIEW && view in Concerned(e)))
  {
    hide After, InPlace, Dated, Undisturbed, Stamped, Fitting, SceneOf, LogOk, CheckpointOk;
    NobodyIsQuiet(s, h);
    EveryHistoryTells(s, {}, h);
    EveryEventOk(s, {}, After(s, h).events, i);
    Audience(After(s, h).events[i], view);
  }

  lemma {:induction false} NobodyIsQuiet(s: Setup, h: History)
    ensures DiscreetPack(s, {}) && DiscreetHistory({}, h)
  {
    match h {
      case Untouched =>
      case Then(before, _, _, _) => NobodyIsQuiet(s, before);
      case Fruitless(before, _, _) => NobodyIsQuiet(s, before);
    }
  }

  /** If an agent only ever sends privately, and no handler of an action speaks up in its name, no
      view but the omniscient one, its own and those of the recipients shows any message of its,
      neither when it is sent nor when it is delivered, in any history. */
  lemma PrivateStaysPrivate(s: Setup, h: History, agent: Agent, i: nat, view: string)
    requires Runnable(s) && Orderly(s, h) && DiscreetPack(s, {agent}) && DiscreetHistory({agent}, h) && i < |After(s, h).events|
    ensures var e := After(s, h).events[i];
      && (e.kind.AgentMessage? && e.actor == agent && e.Project(view).Some? ==>
            view == OMNISCIENT_VIEW || view == agent || view in e.targets)
      && (e.kind.MessageDelivered? ==> e.body.Delivered?)
      && (e.kind.MessageDelivered? && e.body.sender == agent && e.Project(view).Some? ==>
            view == OMNISCIENT_VIEW || view == agent || view == e.body.recipient)
  {
    hide After, SceneOf, LogOk, CheckpointOk, DiscreetPack, DiscreetHistory, Dated, Undisturbed;
    EveryHistoryTells(s, {agent}, h);
    EveryEventOk(s, {agent}, After(s, h).events, i);
    Audience(After(s, h).events[i], view);
  }

  /** Each checkpoint's clock, tool calls and end of the episode are those of the log before it, and
      in a session so is the number of invocations. */
  lemma CheckpointsTell(s: Setup, h: History, q: nat)
    requires Runnable(s) && Orderly(s, h) && q in After(s, h).checkpoints
    ensures var t := After(s, h); var c := t.checkpoints[q];
      && c.sequence <= |t.events|
      && var sc := SceneOf(t.events[..c.sequence]);
         && c.world.time == sc.clock && c.world.counters.toolCalls == sc.tools && sc.acting.None?
         && (c.world.finished <==> sc.over.Some?) && (c.world.finished ==> c.world.finishReason == sc.over.value)
         && (s.driver.SessionDriven? ==> c.driver.invocations == sc.invocations)
  {
    hide After, SceneOf, LogOk;
    NobodyIsQuiet(s, h);
    EveryHistoryTells(s, {}, h);
  }
}
