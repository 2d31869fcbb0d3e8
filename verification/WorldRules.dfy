/** What each operation of World does, as functions on the core
    (src/testbed_kernel/world.py). */
module WorldRules {
  import opened Wrappers
  import opened Contracts
  import opened KernelState
  import opened Sorting
  import opened Scheduler
  import opened Randomness
  import opened Journals

  function Emit(c: Core, d: Draft): Core {
    c.(journal := Record(c.journal, d))
  }

  // ---- what plug-ins and agents may see ----

  function ViewOf(s: Setup, w: WorldState): View {
    View(w.time, w.state, s.AgentIds(), ActiveAgents(s, w.dropped), s.Roles(), w.publicFacts, w.privateFacts, w.payoffs)
  }

  function TakesPart(dropped: set<Agent>): Agent -> bool {
    a => a !in dropped
  }

  function ActiveAgents(s: Setup, dropped: set<Agent>): seq<Agent> {
    Filter(s.AgentIds(), TakesPart(dropped))
  }

  /** Public state and public facts; what an agent alone knows travels beside it. */
  function VisibleState(w: WorldState): Facts {
    (map k | k in w.state && !("_" <= k) :: w.state[k]) + w.publicFacts
  }

  function FactsOf(w: WorldState, agent: Agent): Facts {
    if agent in w.privateFacts then w.privateFacts[agent] else map[]
  }

  // ---- clock and policy ----

  function AdvanceTo(c: Core, time: int): Core {
    if time <= c.world.time then c
    else Emit(c.(world := c.world.(time := time)), PublicDraft(ClockAdvanced, WORLD_ACTOR, time, Clock(time)))
  }

  function PolicyEvent(c: Core, rule: string, subject: string, amount: int): Core {
    Emit(c, PublicDraft(PolicyDecided, WORLD_ACTOR, c.world.time, Policy(rule, false, subject, amount)))
  }

  // ---- the queue ----

  function Post(c: Core, item: Item): Core {
    c.(world := c.world.(queue := c.world.queue + [item]),
       ledger := c.ledger.(posted := c.ledger.posted + [Posted(item, c.world.time)]))
  }

  function PopDue(s: Setup, c: Core): (Core, seq<Item>) {
    var due := Popped(s.digest, c.world.queue, c.world.time);
    (c.(world := c.world.(queue := Remaining(c.world.queue, c.world.time)),
        ledger := c.ledger.(popped := c.ledger.popped + due)), due)
  }

  function DropOut(c: Core, agent: Agent): Core {
    var gone := Filter(c.world.queue, For(agent));
    PolicyEvent(
      c.(world := c.world.(dropped := c.world.dropped + {agent}, queue := Filter(c.world.queue, NotFor(agent))),
         ledger := c.ledger.(removed := c.ledger.removed + gone)),
      "agent_dropout", agent, |gone|)
  }

  // ---- faults ----

  predicate AppliesTo(fault: FaultSpec, d: Delivery) {
    && (fault.senders != [] ==> d.sender in fault.senders)
    && (fault.recipients != [] ==> d.recipient in fault.recipients)
    && (fault.targets != [] ==> d.recipient in fault.targets || d.sender in fault.targets)
  }

  function Reached(occurrences: map<nat, nat>, index: nat): nat {
    if index in occurrences then occurrences[index] else 0
  }

  /** Counts the occurrence and decides; dropout faults are neither counted nor fired. */
  function FaultFires(s: Setup, c: Core, index: nat): (Core, bool)
    requires index < |s.faults|
  {
    var fault := s.faults[index];
    if fault.kind.AgentDropout? then (c, false)
    else
      var n := Reached(c.world.occurrences, index) + 1;
      var c' := c.(world := c.world.(occurrences := c.world.occurrences[index := n]));
      if fault.onOccurrences != [] then (c', n in fault.onOccurrences)
      else
        var stream := FaultStream(index);
        (c'.(rng := Advance(c.rng, stream)), s.draw(c.rng.seed, stream, Index(c.rng, stream)) < fault.probability)
  }

  function Bump(fired: seq<nat>, index: nat): seq<nat> {
    if index < |fired| then fired[index := fired[index] + 1] else fired
  }

  function FaultDraft(kind: FaultKind, time: int, d: Delivery): Draft {
    Draft(FaultInjected, WORLD_ACTOR, time, [], None, OmniscientOnly, [], Fault(kind, d.sender, d.recipient), NoResources)
  }

  function Reverse(text: string): string {
    if |text| == 0 then [] else [text[|text| - 1]] + Reverse(text[..|text| - 1])
  }

  function Corrupt(item: Item): Item {
    item.(delivery := item.delivery.(content := Reverse(item.delivery.content), payload := map[]))
  }

  function Transform(fault: FaultSpec, item: Item): Item {
    match fault.kind
    case DelayMessage => item.(due := item.due + fault.delayTicks)
    case CorruptMessage => Corrupt(item)
    case _ => item
  }

  function ApplyFault(s: Setup, c: Core, index: nat, item: Item): (r: (Core, Option<Item>))
    requires index < |s.faults|
    ensures r.0.journal.sequence >= c.journal.sequence
  {
    var fault := s.faults[index];
    if !AppliesTo(fault, item.delivery) then (c, Some(item))
    else
      var (c1, fires) := FaultFires(s, c, index);
      if !fires then (c1, Some(item))
      else
        var c2 := Emit(c1.(ledger := c1.ledger.(fired := Bump(c1.ledger.fired, index))),
                       FaultDraft(fault.kind, c1.world.time, item.delivery));
        match fault.kind
        case DropMessage => (c2, None)
        case DuplicateMessage =>
          var c3 := Post(c2, item.(duplicate := 1));
          (c3.(world := c3.world.(counters := c3.world.counters.(duplicates := c3.world.counters.duplicates + 1))),
           Some(item))
        case _ => (c2, Some(Transform(fault, item)))
  }

  /** The first `count` faults in manifest order; a drop ends the fold. */
  function ApplyFaults(s: Setup, c: Core, item: Item, count: nat): (r: (Core, Option<Item>))
    requires count <= |s.faults|
    ensures r.0.journal.sequence >= c.journal.sequence
  {
    if count == 0 then (c, Some(item))
    else
      var (c', o) := ApplyFaults(s, c, item, count - 1);
      match o
      case None => (c', None)
      case Some(i) => ApplyFault(s, c', count - 1, i)
  }

  // ---- scheduling a delivery ----

  /** `len(text.encode("utf-8"))`. */
  function Utf8Size(text: string): nat {
    if |text| == 0 then 0
    else
      var c := text[|text| - 1] as int;
      Utf8Size(text[..|text| - 1]) + (if c < 0x80 then 1 else if c < 0x800 then 2 else if c < 0x1_0000 then 3 else 4)
  }

  function Scheduled(s: Setup, w: WorldState, d: Delivery, orderHint: int): Item {
    Item(w.time + s.latency + d.extraDelay, orderHint, d, 0)
  }

  predicate Deliverable(s: Setup, dropped: set<Agent>, d: Delivery) {
    && d.recipient in s.AgentIds()
    && d.recipient !in dropped
    && Utf8Size(d.content) <= s.maxMessageBytes
  }

  /** The item survived its faults: queue it and count it. */
  function Accept(c: Core, item: Item, size: nat): Core {
    var c' := Post(c, item);
    c'.(world := c'.world.(
      counters := c'.world.counters.(messages := c'.world.counters.messages + 1),
      resources := c'.world.resources.Plus(NoResources.(messageBytes := size))))
  }

  function Enqueue(s: Setup, c: Core, d: Delivery, orderHint: int): (r: Core)
    ensures r.journal.sequence >= c.journal.sequence
  {
    var size := Utf8Size(d.content);
    if d.recipient !in s.AgentIds() then PolicyEvent(c, "unknown_recipient", d.recipient, 0)
    else if d.recipient in c.world.dropped then PolicyEvent(c, "recipient_dropped_out", d.recipient, 0)
    else if size > s.maxMessageBytes then PolicyEvent(c, "max_message_bytes", "bytes", size)
    else
      var (c', o) := ApplyFaults(s, c, Scheduled(s, c.world, d, orderHint), |s.faults|);
      match o
      case None => c'
      case Some(item) => Accept(c', item, size)
  }

  function EnqueueAll(s: Setup, c: Core, deliveries: seq<Delivery>, orderHint: int): (r: Core)
    ensures r.journal.sequence >= c.journal.sequence
  {
    if |deliveries| == 0 then c
    else Enqueue(s, EnqueueAll(s, c, deliveries[..|deliveries| - 1], orderHint), deliveries[|deliveries| - 1], orderHint)
  }

  // ---- routing and actions ----

  function Reachable(s: Setup, dropped: set<Agent>): Agent -> bool {
    a => a in s.AgentIds() && a !in dropped
  }

  function Route(s: Setup, c: Core, p: Proposal): (Core, Decision) {
    var decision := s.route(p, ViewOf(s, c.world));
    var recipients := Filter(decision.recipients, Reachable(s, c.world.dropped));
    if !s.broadcastAllowed && |recipients| > 1 then
      (PolicyEvent(c, "broadcast_not_allowed", p.actor, 0), decision.(recipients := recipients[..1]))
    else (c, decision.(recipients := recipients))
  }

  function GrantFacts(known: map<Agent, Facts>, more: map<Agent, Facts>): map<Agent, Facts> {
    map a | a in known.Keys + more.Keys ::
      (if a in known then known[a] else map[]) + (if a in more then more[a] else map[])
  }

  function ChangedDraft(action: Action, change: Change, time: int): Draft {
    PublicDraft(StateChanged, WORLD_ACTOR, time, Changed(action.kind, change.updates, change.finished, change.note))
  }

  function ApplyChange(s: Setup, c: Core, action: Action, change: Change): Core {
    if change.rejected != "" then PolicyEvent(c, "action_rejected", change.rejected, 0)
    else
      var c1 := c.(world := c.world.(
        state := c.world.state + change.updates,
        privateFacts := GrantFacts(c.world.privateFacts, change.factsTo)));
      var c2 := EnqueueAll(s, c1, change.messages, 0);
      var c3 := if change.finished
                then c2.(world := c2.world.(
                       finished := true,
                       finishReason := if change.note != "" then change.note else "action:" + action.kind))
                else c2;
      Emit(c3, ChangedDraft(action, change, c3.world.time))
  }

  function AddPayoffs(payoffs: map<Agent, real>, more: map<Agent, real>): map<Agent, real> {
    map a | a in payoffs.Keys + more.Keys ::
      (if a in payoffs then payoffs[a] else 0.0) + (if a in more then more[a] else 0.0)
  }

  function AssignPayoffs(c: Core, perAgent: map<Agent, real>): Core {
    var c' := c.(world := c.world.(payoffs := AddPayoffs(c.world.payoffs, perAgent)));
    Emit(c', Draft(PayoffAssigned, WORLD_ACTOR, c'.world.time, [], None, OmniscientOnly, [], Paid(c'.world.payoffs), NoResources))
  }

  // ---- snapshots ----

  function SnapshotOf(s: Setup, w: WorldState): WorldState {
    w.(queue := Canon(s.digest, w.queue))
  }

  /** A World as its constructor leaves it. */
  function NewWorld(s: Setup): WorldState {
    WorldState(0, false, "", s.initialState, [], map a | a in s.AgentIds() :: 0.0, {}, s.publicFacts,
          map a | a in s.AgentIds() :: (if a in s.privateFacts then s.privateFacts[a] else map[]),
          Counters(0, 0, 0, 0, 0), map[], NoResources)
  }

  function NewLedger(s: Setup): Ledger {
    Ledger([], [], [], [], seq(|s.faults|, _ => 0), NoResources)
  }
}
