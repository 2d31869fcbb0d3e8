/** What the two drivers do with a session, as functions (src/testbed_kernel/drivers.py). */
module DriverRules {
  import opened Wrappers
  import opened Contracts
  import opened KernelState
  import opened Sorting
  import opened Scheduler
  import opened Store
  import opened Journals
  import opened WorldRules

  datatype Limit = MaxLogicalTime | MaxEvents | MaxMessages | MaxModelCalls | MaxCostUsd

  datatype Outcome = Outcome(finished: bool, reason: string, limit: Option<Limit>)

  function LimitName(limit: Limit): string {
    match limit
    case MaxLogicalTime => "max_logical_time"
    case MaxEvents => "max_events"
    case MaxMessages => "max_messages"
    case MaxModelCalls => "max_model_calls"
    case MaxCostUsd => "max_cost_usd"
  }

  function Stopped(limit: Limit): Outcome {
    Outcome(false, "limit:" + LimitName(limit), Some(limit))
  }

  function Done(w: WorldState): Outcome {
    Outcome(true, if w.finishReason != "" then w.finishReason else "task_finished", None)
  }

  function LimitHit(s: Setup, c: Core): Option<Limit> {
    if c.world.time > s.limits.maxLogicalTime then Some(MaxLogicalTime)
    else if c.journal.sequence >= s.limits.maxEvents then Some(MaxEvents)
    else if c.world.counters.messages > s.limits.maxMessages then Some(MaxMessages)
    else if c.world.counters.modelCalls > s.limits.maxModelCalls then Some(MaxModelCalls)
    else if c.world.resources.costUsd > s.limits.maxCostUsd then Some(MaxCostUsd)
    else None
  }

  predicate Exceeded(s: Setup, c: Core, limit: Limit) {
    match limit
    case MaxLogicalTime => c.world.time > s.limits.maxLogicalTime
    case MaxEvents => c.journal.sequence >= s.limits.maxEvents
    case MaxMessages => c.world.counters.messages > s.limits.maxMessages
    case MaxModelCalls => c.world.counters.modelCalls > s.limits.maxModelCalls
    case MaxCostUsd => c.world.resources.costUsd > s.limits.maxCostUsd
  }

  /** The order in which the limits are looked at. */
  function Rank(limit: Limit): nat {
    match limit
    case MaxLogicalTime => 0
    case MaxEvents => 1
    case MaxMessages => 2
    case MaxModelCalls => 3
    case MaxCostUsd => 4
  }

  /** `limit` is the first limit exceeded, if any is. */
  ghost predicate FirstExceeded(s: Setup, c: Core, limit: Option<Limit>) {
    match limit
    case None => forall l :: !Exceeded(s, c, l)
    case Some(first) => Exceeded(s, c, first) && forall l :: Rank(l) < Rank(first) ==> !Exceeded(s, c, l)
  }

  /** There is only one such answer, and the loop stops at it. */
  lemma LimitHitIsFirst(s: Setup, c: Core, limit: Option<Limit>)
    ensures FirstExceeded(s, c, limit) <==> limit == LimitHit(s, c)
  {
    var first := LimitHit(s, c);
    assert FirstExceeded(s, c, first) by {
      if first.None? {
        forall l: Limit ensures !Exceeded(s, c, l) {
        }
      }
    }
    if FirstExceeded(s, c, limit) && limit.Some? && first.Some? {
      assert Rank(limit.value) == Rank(first.value);
    }
  }

  // ---- checkpoints ----

  function Snapshots(m: Minds, memos: map<Agent, Memo>): map<Agent, Memo> {
    map a | a in memos && a in m.restorable :: memos[a]
  }

  function Capture(s: Setup, m: Minds, x: Session): Checkpoint {
    var j := x.core.journal;
    Checkpoint(j.sequence, j.index, j.attempt, SnapshotOf(s, x.core.world), x.driver, Snapshots(m, x.memos), x.core.rng,
               x.core.ledger)
  }

  /** The checkpoint row first, then the event that records it. */
  function SaveCheckpoint(s: Setup, m: Minds, x: Session): Session {
    var c := Capture(s, m, x);
    var saved := x.core.(journal := x.core.journal.(disk := WithCheckpoint(x.core.journal.disk, c)));
    x.(core := Emit(saved, PublicDraft(SnapshotCreated, WORLD_ACTOR, x.core.world.time, Body.Snapshot(c.sequence))))
  }

  function MaybeCheckpoint(s: Setup, m: Minds, x: Session): (r: Session)
    ensures r.core.journal.sequence >= x.core.journal.sequence
    ensures r.core.world == x.core.world
  {
    var n := x.sinceCheckpoint + 1;
    if n >= s.limits.checkpointEvery then SaveCheckpoint(s, m, x.(sinceCheckpoint := 0))
    else x.(sinceCheckpoint := n)
  }

  // ---- one emission of an agent ----

  function Addressed(agent: Agent, em: Emission, decision: Decision, visibility: Visibility): Agent -> Delivery {
    r => Delivery(agent, r, em.content, em.action, visibility, decision.extraDelay)
  }

  function HandleMessage(s: Setup, c: Core, agent: Agent, em: Emission, invocation: nat): (r: Core)
    ensures r.journal.sequence > c.journal.sequence
  {
    var (c1, decision) := Route(s, c, Proposal(agent, em.content, em.recipients, c.world.time));
    var visibility := if em.isPrivate then Private else decision.visibility;
    var authorized := if visibility.Public? then [] else [agent] + decision.recipients;
    var c2 := Emit(c1, Draft(AgentMessage, agent, c.world.time, decision.recipients, None, visibility, authorized,
                             Said(em.content, invocation), em.delta));
    if decision.blocked != "" then c2
    else EnqueueAll(s, c2, Map(decision.recipients, Addressed(agent, em, decision, visibility)), decision.orderHint)
  }

  function ActionOf(agent: Agent, em: Emission): Action {
    Action(if "kind" in em.action then em.action["kind"] else "noop", agent, em.action - {"kind"})
  }

  /** The action event, then what its handler makes of it. */
  function TakeAction(s: Setup, c: Core, action: Action, delta: ResourceDelta): (r: Core)
    ensures r.journal.sequence > c.journal.sequence
  {
    var c1 := Emit(c, PublicDraft(ActionTaken, action.actor, c.world.time, Acted(action.kind, action.args)).(delta := delta));
    match s.handle(action, ViewOf(s, c1.world))
    case None => PolicyEvent(c1, "unknown_action", action.kind, 0)
    case Some(change) => ApplyChange(s, c1, action, change)
  }

  function HandleEmission(s: Setup, c: Core, agent: Agent, em: Emission, invocation: nat): (r: Core)
    ensures r.journal.sequence > c.journal.sequence
  {
    match em.kind
    case EmitMessage => HandleMessage(s, c, agent, em, invocation)
    case EmitAction => TakeAction(s, c, ActionOf(agent, em), em.delta)
    case EmitToolCall =>
      var c1 := c.(world := c.world.(counters := c.world.counters.(toolCalls := c.world.counters.toolCalls + 1)));
      Emit(c1, Draft(ToolCalled, agent, c.world.time, [], None, Private, [agent], ToolUse(em.tool, em.toolArgs), em.delta))
    case EmitFinal =>
      Emit(c, PublicDraft(AgentFinal, agent, c.world.time, Said(em.content, invocation)).(delta := em.delta))
    case EmitError =>
      Emit(c, PublicDraft(AgentError, agent, c.world.time, Failed(em.content)))
  }

  /** An emission is charged before it is handled. An error event carries no resources. */
  function Charge(c: Core, em: Emission): Core {
    c.(world := c.world.(
         counters := c.world.counters.(modelCalls := c.world.counters.modelCalls + em.delta.modelCalls),
         resources := c.world.resources.Plus(em.delta)),
       ledger := if em.kind.EmitError? then c.ledger.(unlogged := c.ledger.unlogged.Plus(em.delta)) else c.ledger)
  }

  function TakeEmission(s: Setup, m: Minds, x: Session, agent: Agent, em: Emission, invocation: nat): (r: Session)
    ensures r.core.journal.sequence > x.core.journal.sequence
  {
    MaybeCheckpoint(s, m, x.(core := HandleEmission(s, Charge(x.core, em), agent, em, invocation)))
  }

  function RunStream(
      s: Setup, m: Minds, x: Session, agent: Agent, emissions: seq<Emission>, invocation: nat): (r: Session)
    ensures r.core.journal.sequence >= x.core.journal.sequence
    decreases |emissions|
  {
    if |emissions| == 0 then x
    else
      var x' := TakeEmission(s, m, x, agent, emissions[0], invocation);
      if x'.core.world.finished then x' else RunStream(s, m, x', agent, emissions[1..], invocation)
  }

  // ---- deliveries ----

  function RequestFor(s: Setup, x: Session, agent: Agent, d: Delivery, invocation: nat): Request {
    Request(invocation, agent, x.core.world.time, d.content, [d], VisibleState(x.core.world),
            FactsOf(x.core.world, agent), EventView(x.core.Events(), agent), x.core.rng.seed)
  }

  function MemoOf(x: Session, agent: Agent): Memo {
    if agent in x.memos then x.memos[agent] else ""
  }

  function Invoke(s: Setup, m: Minds, x: Session, agent: Agent, d: Delivery, cause: EventId): (r: Session)
    ensures r.core.journal.sequence > x.core.journal.sequence
  {
    var invocation := x.driver.invocations + 1;
    var request := RequestFor(s, x, agent, d, invocation);
    var core := Emit(x.core, Draft(AgentInvoked, agent, x.core.world.time, [], Some(cause), Private, [agent],
                                   Invoked(invocation, d.content), NoResources));
    var reply := m.invoke(agent, MemoOf(x, agent), request);
    var x' := x.(core := core, driver := x.driver.(invocations := invocation), memos := x.memos[agent := reply.memo]);
    RunStream(s, m, x', agent, reply.emissions, invocation)
  }

  function DeliveredDraft(item: Item, time: int): Draft {
    var d := item.delivery;
    Draft(MessageDelivered, WORLD_ACTOR, time, [d.recipient], None, d.visibility,
          if d.visibility.Public? then [] else [d.sender, d.recipient],
          Delivered(d.sender, d.recipient, d.content, d.payload), NoResources)
  }

  function Hand(c: Core, item: Item): Core {
    Emit(c.(ledger := c.ledger.(handed := c.ledger.handed + [item])), DeliveredDraft(item, c.world.time))
  }

  function DeliverAndInvoke(s: Setup, m: Minds, x: Session, item: Item): (r: Session)
    ensures r.core.journal.sequence > x.core.journal.sequence || r == x
  {
    var recipient := item.delivery.recipient;
    if recipient in x.core.world.dropped then x
    else
      var cause := EventId(x.core.journal.sequence);
      var x' := MaybeCheckpoint(s, m, x.(core := Hand(x.core, item)));
      if recipient !in m.initial then x' else Invoke(s, m, x', recipient, item.delivery, cause)
  }

  function RunBatch(s: Setup, m: Minds, x: Session, items: seq<Item>): (r: Session)
    ensures r.core.journal.sequence > x.core.journal.sequence || r == x
    decreases |items|
  {
    if |items| == 0 then x
    else
      var x' := DeliverAndInvoke(s, m, x, items[0]);
      if x'.core.world.finished then x' else RunBatch(s, m, x', items[1..])
  }

  // ---- the session driver ----

  function Open(s: Setup, x: Session, agent: Agent): Session {
    match s.opening(agent, ViewOf(s, x.core.world))
    case None => x
    case Some(text) =>
      var d := Delivery(WORLD_ACTOR, agent, text, map["kind" := "opening"], Private, 0);
      x.(core := Enqueue(s, x.core, d, 0), driver := x.driver.(activated := x.driver.activated + [agent]))
  }

  function OpenAll(s: Setup, x: Session, agents: seq<Agent>): Session {
    if |agents| == 0 then x else Open(s, OpenAll(s, x, agents[..|agents| - 1]), agents[|agents| - 1])
  }

  function Activate(s: Setup, x: Session): Session {
    if x.driver.activated != [] then x else OpenAll(s, x, ActiveAgents(s, x.core.world.dropped))
  }

  /** The end of a round: the batch is done, the clock moves. */
  function EndRound(s: Setup, x: Session): Session {
    x.(core := AdvanceTo(x.core, x.core.world.time + s.clockStep), driver := x.driver.(turn := x.driver.turn + 1))
  }

  /** The main loop. It ends for every topology, latency and clock step: each iteration
      writes an event, and then it is nearer to `max_events`, or it leaves fewer deliveries queued. */
  function SessionLoop(s: Setup, m: Minds, x: Session): (Session, Outcome)
    decreases if x.core.journal.sequence < s.limits.maxEvents then s.limits.maxEvents - x.core.journal.sequence else 0,
              |x.core.world.queue|
  {
    if x.core.world.finished then (x, Done(x.core.world))
    else
      match LimitHit(s, x.core)
      case Some(limit) => (x, Stopped(limit))
      case None =>
        PopDueConserves(s.digest, x.core.world.queue, x.core.world.time);
        var (core, due) := PopDue(s, x.core);
        var popped := x.(core := core);
        if |due| > 0 then SessionLoop(s, m, EndRound(s, RunBatch(s, m, popped, due)))
        else
          NextDueIsLater(core.world.queue, core.world.time);
          match NextDue(core.world.queue)
          case None => (popped, Outcome(false, "quiescent", None))
          case Some(next) =>
            if next > s.limits.maxLogicalTime then (popped, Stopped(MaxLogicalTime))
            else SessionLoop(s, m, popped.(core := AdvanceTo(core, next)))
  }

  lemma {:induction false} NextDueIsLater(items: seq<Item>, now: int)
    requires forall i :: i in items ==> i.due > now
    ensures NextDue(items).Some? ==> NextDue(items).value > now
  {
    if |items| > 0 {
      assert items[|items| - 1] in items;
      NextDueIsLater(items[..|items| - 1], now);
    }
  }

  function RunSession(s: Setup, m: Minds, x: Session): (Session, Outcome) {
    SessionLoop(s, m, Activate(s, x))
  }

  // ---- the environment driver ----

  function EnvRequest(s: Setup, x: Session, agent: Agent, invocation: nat): Request {
    Request(invocation, agent, x.core.world.time, s.instruction, [], VisibleState(x.core.world),
            FactsOf(x.core.world, agent), [], x.core.rng.seed)
  }

  /** The environment driver adds the resources to World but writes them to no event. */
  function EnvCharge(c: Core, em: Emission): Core {
    c.(world := c.world.(resources := c.world.resources.Plus(em.delta)),
       ledger := c.ledger.(unlogged := c.ledger.unlogged.Plus(em.delta)))
  }

  function EnvCommit(s: Setup, m: Minds, x: Session, action: Action): (r: Session)
    ensures r.core.journal.sequence > x.core.journal.sequence
  {
    MaybeCheckpoint(s, m, x.(core := TakeAction(s, x.core, action, NoResources)))
  }

  /** One agent's emissions: committed as they come (AEC), or collected (parallel). */
  function EnvStream(s: Setup, m: Minds, x: Session, agent: Agent, emissions: seq<Emission>, collected: seq<Action>)
      : (r: (Session, seq<Action>))
    ensures r.0.core.journal.sequence >= x.core.journal.sequence
    decreases |emissions|
  {
    if |emissions| == 0 then (x, collected)
    else
      var em := emissions[0];
      var x1 := x.(core := EnvCharge(x.core, em));
      if !em.kind.EmitAction? then EnvStream(s, m, x1, agent, emissions[1..], collected)
      else if s.driver.ParallelDriven? then
        EnvStream(s, m, x1, agent, emissions[1..], collected + [ActionOf(agent, em)])
      else
        var x2 := EnvCommit(s, m, x1, ActionOf(agent, em));
        if x2.core.world.finished then (x2, collected) else EnvStream(s, m, x2, agent, emissions[1..], collected)
  }

  function EnvTurn(s: Setup, m: Minds, x: Session, agent: Agent, collected: seq<Action>): (r: (Session, seq<Action>))
    ensures r.0.core.journal.sequence >= x.core.journal.sequence
  {
    var invocation := x.driver.invocations + 1;
    var reply := m.invoke(agent, MemoOf(x, agent), EnvRequest(s, x, agent, invocation));
    EnvStream(s, m, x.(driver := x.driver.(invocations := invocation), memos := x.memos[agent := reply.memo]),
              agent, reply.emissions, collected)
  }

  function EnvAgents(s: Setup, m: Minds, x: Session, agents: seq<Agent>, collected: seq<Action>)
      : (r: (Session, seq<Action>))
    ensures r.0.core.journal.sequence >= x.core.journal.sequence
    decreases |agents|
  {
    if |agents| == 0 then (x, collected)
    else
      var (x', collected') := EnvTurn(s, m, x, agents[0], collected);
      if x'.core.world.finished then (x', collected') else EnvAgents(s, m, x', agents[1..], collected')
  }

  predicate TextLe(a: string, b: string) {
    if |a| == 0 then true
    else if |b| == 0 then false
    else if a[0] != b[0] then a[0] < b[0]
    else TextLe(a[1..], b[1..])
  }

  /** The order World gives simultaneous actions: by kind, then by agent. */
  function ActionOrder(): (Action, Action) -> bool {
    (a: Action, b: Action) => if a.kind != b.kind then TextLe(a.kind, b.kind) else TextLe(a.actor, b.actor)
  }

  function EnvCommitAll(s: Setup, m: Minds, x: Session, actions: seq<Action>): (r: Session)
    ensures r.core.journal.sequence >= x.core.journal.sequence
    decreases |actions|
  {
    if |actions| == 0 then x
    else
      var x' := EnvCommit(s, m, x, actions[0]);
      if x'.core.world.finished then x' else EnvCommitAll(s, m, x', actions[1..])
  }

  function Tick(s: Setup, m: Minds, x: Session): (r: Session)
    ensures r.core.journal.sequence >= x.core.journal.sequence
  {
    var (x', collected) := EnvAgents(s, m, x, ActiveAgents(s, x.core.world.dropped), []);
    if s.driver.ParallelDriven? then EnvCommitAll(s, m, x', Sort(collected, ActionOrder())) else x'
  }

  function EnvLoop(s: Setup, m: Minds, x: Session): (Session, Outcome)
    requires s.clockStep >= 1
    decreases if x.core.journal.sequence < s.limits.maxEvents then s.limits.maxEvents - x.core.journal.sequence else 0
  {
    if x.core.world.finished then (x, Done(x.core.world))
    else if x.core.world.time > s.limits.maxLogicalTime then (x, Stopped(MaxLogicalTime))
    else if x.core.journal.sequence >= s.limits.maxEvents then (x, Stopped(MaxEvents))
    else EnvLoop(s, m, EndRound(s, Tick(s, m, x)))
  }
}
