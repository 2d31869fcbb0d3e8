/** The canonical log read on its own: the scene it sets, what each event may be in its scene, and
    who may see it. Every operation of World continues the log in that way. */
module Chronicle {
  import opened Wrappers
  import opened Contracts
  import opened KernelState
  import opened Sorting
  import opened Scheduler
  import opened Store
  import opened Journals
  import opened WorldRules
  import opened DriverRules
  import opened Books
  import opened FaultFold

  // ---- the scene ----

  datatype Handed = Handed(at: nat, recipient: Agent, content: string)

  /** What a log has come to: the attempt that writes it, the clock, the delivery just made, the agent
      being heard and how many invocations and tool calls there were, the action not yet settled,
      and the reason for which the episode is over. */
  datatype Scene = Scene(
    attempt: nat, clock: int, handed: Option<Handed>, busy: Option<Agent>, invocations: nat, tools: nat,
    acting: Option<string>, over: Option<string>)

  const Curtain := Scene(0, 0, None, None, 0, 0, None, None)

  function Next(sc: Scene, e: Event): Scene {
    match e.kind
    case ClockAdvanced => sc.(clock := e.time, handed := None, busy := None)
    case RunStarted => sc.(attempt := e.attempt, handed := None, busy := None)
    case AttemptStarted => sc.(attempt := e.attempt, handed := None, busy := None)
    case MessageDelivered =>
      if e.body.Delivered? then sc.(handed := Some(Handed(e.sequence, e.body.recipient, e.body.content)), busy := None) else sc
    case AgentInvoked => sc.(handed := None, busy := Some(e.actor), invocations := sc.invocations + 1)
    case ToolCalled => sc.(tools := sc.tools + 1)
    case ActionTaken => if e.body.Acted? then sc.(acting := Some(e.body.action)) else sc
    case StateChanged =>
      if e.body.Changed? && e.body.finished
      then sc.(acting := None, over := Some(if e.body.note != "" then e.body.note else "action:" + e.body.action))
      else sc.(acting := None)
    case PolicyDecided => if Settles(e) then sc.(acting := None) else sc
    case _ => sc
  }

  /** A policy event that answers an action. */
  predicate Settles(e: Event) {
    e.body.Policy? && (e.body.rule == "unknown_action" || e.body.rule == "action_rejected")
  }

  function SceneOf(log: seq<Event>): Scene {
    if |log| == 0 then Curtain else Next(SceneOf(log[..|log| - 1]), log[|log| - 1])
  }

  // ---- who may see what ----

  /** The agents an event concerns. */
  function Concerned(e: Event): seq<Agent> {
    match e.kind
    case AgentMessage => [e.actor] + e.targets
    case MessageDelivered => if e.body.Delivered? then [e.body.sender, e.body.recipient] else []
    case _ => [e.actor]
  }

  /** Kinds whose visibility the kernel fixes; a message has the one it was sent with. */
  ghost predicate Fitting(kind: EventKind, visibility: Visibility) {
    match kind
    case AgentMessage => true
    case MessageDelivered => true
    case AgentInvoked => visibility.Private?
    case ToolCalled => visibility.Private?
    case FaultInjected => visibility.OmniscientOnly?
    case PayoffAssigned => visibility.OmniscientOnly?
    case VerifierResult => visibility.OmniscientOnly?
    case _ => visibility.Public?
  }

  ghost predicate RightlyShown(e: Event) {
    && Fitting(e.kind, e.visibility)
    && (!e.visibility.Public? && !e.visibility.OmniscientOnly? ==> e.authorized == Concerned(e))
  }

  /** Exactly who gets to see it: everybody if it is public, only the omniscient view if it is
      secret, and otherwise those concerned beside the omniscient view. */
  lemma Audience(e: Event, view: string)
    requires RightlyShown(e)
    ensures e.Project(view).Some? <==>
      view == OMNISCIENT_VIEW || e.visibility.Public?
      || (!e.visibility.OmniscientOnly? && view != PUBLIC_VIEW && view in Concerned(e))
    ensures e.Project(view).Some? ==> e.Project(view).value.body == e.body && e.Project(view).value.kind == e.kind
  {
  }

  /** Messages of discreet agents are not public. */
  ghost predicate Discreetly(quiet: set<Agent>, e: Event) {
    && (e.kind.AgentMessage? && e.actor in quiet ==> !e.visibility.Public?)
    && (e.kind.MessageDelivered? && e.body.Delivered? && e.body.sender in quiet ==> !e.visibility.Public?)
  }

  // ---- what an event may be ----

  /** An event is dated by the clock; only the clock's own events move it, and only forward. */
  ghost predicate Dated(sc: Scene, e: Event) {
    if e.kind.ClockAdvanced? then e.time > sc.clock && e.body == Clock(e.time) else e.time == sc.clock
  }

  /** Said or done by the agent that is being heard, in its invocation. */
  ghost predicate Heard(s: Setup, sc: Scene, e: Event) {
    && s.driver.SessionDriven? && sc.busy == Some(e.actor) && sc.over.None?
    && (e.body.Said? ==> e.body.invocation == sc.invocations)
  }

  /** Some delivery between the two. */
  function Between(sender: Agent, recipient: Agent): Delivery {
    Delivery(sender, recipient, "", map[], Public, 0)
  }

  lemma ConcernsEnds(f: FaultSpec, d: Delivery)
    ensures Concerns(f, Between(d.sender, d.recipient)) == Concerns(f, d)
  {
  }

  ghost predicate Refusal(s: Setup, sc: Scene, e: Event) {
    && e.body.Policy? && !e.body.allowed && e.actor == WORLD_ACTOR
    && (|| (e.body.rule == "unknown_recipient" && e.body.subject !in s.AgentIds())
        || (e.body.rule == "max_message_bytes" && e.body.amount > s.maxMessageBytes)
        || (e.body.rule == "broadcast_not_allowed" && !s.broadcastAllowed)
        || (e.body.rule == "unknown_action" && sc.acting == Some(e.body.subject))
        || (e.body.rule == "action_rejected" && sc.acting.Some?))
  }

  /** What an event of each kind has to be, in its scene. */
  ghost predicate InPlace(s: Setup, sc: Scene, e: Event) {
    match e.kind
    case RunStarted => e.body == NoBody && e.actor == WORLD_ACTOR
    case AttemptStarted => e.body.Resumed? && e.body.checkpoint == e.sequence && e.actor == WORLD_ACTOR
    case AgentRegistered => e.body.Registered? && AgentSpec(e.actor, e.body.role) in s.agents
    case MessageDelivered =>
      && s.driver.SessionDriven? && sc.over.None? && e.actor == WORLD_ACTOR
      && e.body.Delivered? && e.targets == [e.body.recipient] && e.body.recipient in s.AgentIds()
    case AgentInvoked =>
      && s.driver.SessionDriven? && sc.over.None? && e.body.Invoked? && e.body.invocation == sc.invocations + 1
      && sc.handed.Some? && e.causation == Some(EventId(sc.handed.value.at))
      && sc.handed.value.recipient == e.actor && sc.handed.value.content == e.body.instruction
    case AgentMessage =>
      && Heard(s, sc, e) && e.body.Said? && (forall a :: a in e.targets ==> a in s.AgentIds())
      && (!s.broadcastAllowed ==> |e.targets| <= 1)
    case AgentFinal => Heard(s, sc, e) && e.body.Said?
    case AgentError => Heard(s, sc, e) && e.body.Failed?
    case ToolCalled => Heard(s, sc, e) && e.body.ToolUse?
    case ActionTaken => e.body.Acted? && sc.over.None? && (s.driver.SessionDriven? ==> Heard(s, sc, e))
    case StateChanged => e.body.Changed? && sc.acting == Some(e.body.action) && e.actor == WORLD_ACTOR
    case FaultInjected =>
      && e.body.Fault? && !e.body.fault.AgentDropout?
      && exists i :: 0 <= i < |s.faults| && s.faults[i].kind == e.body.fault && Concerns(s.faults[i], Between(e.body.sender, e.body.recipient))
    case PolicyDecided => Refusal(s, sc, e)
    case ClockAdvanced => true
    case SnapshotCreated => e.body == Snapshot(e.sequence)
    case PayoffAssigned => e.body.Paid?
    case VerifierResult => e.body.Judged?
    case RunFinished => e.body.Ended?
    case _ => false
  }

  /** Between an action and its settlement only faults and refusals of its messages are logged. */
  ghost predicate Undisturbed(sc: Scene, e: Event) {
    sc.acting.Some? ==> e.kind.FaultInjected? || e.kind.PolicyDecided? || e.kind.StateChanged?
  }

  /** An event belongs to the attempt that was last started. */
  ghost predicate Stamped(sc: Scene, e: Event) {
    e.kind.RunStarted? || e.kind.AttemptStarted? || e.attempt == sc.attempt
  }

  ghost predicate EventOk(s: Setup, quiet: set<Agent>, sc: Scene, e: Event) {
    Stamped(sc, e) && RightlyShown(e) && Discreetly(quiet, e) && Dated(sc, e) && Undisturbed(sc, e) && InPlace(s, sc, e)
  }

  ghost predicate LogOk(s: Setup, quiet: set<Agent>, log: seq<Event>) {
    |log| > 0 ==>
      var front, e := log[..|log| - 1], log[|log| - 1];
      LogOk(s, quiet, front) && e.sequence == |front| && EventOk(s, quiet, SceneOf(front), e)
  }

  lemma Snoc(s: Setup, quiet: set<Agent>, log: seq<Event>, e: Event)
    ensures SceneOf(log + [e]) == Next(SceneOf(log), e)
    ensures LogOk(s, quiet, log + [e]) <==> LogOk(s, quiet, log) && e.sequence == |log| && EventOk(s, quiet, SceneOf(log), e)
  {
    assert (log + [e])[..|log|] == log;
  }

  lemma {:induction false} PrefixOk(s: Setup, quiet: set<Agent>, log: seq<Event>, n: nat)
    requires LogOk(s, quiet, log) && n <= |log|
    ensures LogOk(s, quiet, log[..n])
    decreases |log|
  {
    if n < |log| {
      PrefixOk(s, quiet, log[..|log| - 1], n);
      assert log[..|log| - 1][..n] == log[..n];
    } else {
      assert log[..n] == log;
    }
  }

  /** Every event of such a log is what it may be after those before it. */
  lemma EveryEventOk(s: Setup, quiet: set<Agent>, log: seq<Event>, i: nat)
    requires LogOk(s, quiet, log) && i < |log|
    ensures log[i].sequence == i && EventOk(s, quiet, SceneOf(log[..i]), log[i])
  {
    PrefixOk(s, quiet, log, i + 1);
    assert log[..i + 1][..i] == log[..i];
    hide EventOk;
  }

  // ---- memory and checkpoints beside the log ----

  ghost predicate Withheld(quiet: set<Agent>, queue: seq<Item>) {
    forall i :: i in queue && i.delivery.sender in quiet ==> !i.delivery.visibility.Public?
  }

  ghost predicate KnownOnly(s: Setup, queue: seq<Item>) {
    forall i :: i in queue ==> i.delivery.recipient in s.AgentIds()
  }

  /** The clock, the tool calls and the end of the episode are those of the log. */
  ghost predicate WorldOk(s: Setup, quiet: set<Agent>, w: WorldState, sc: Scene) {
    && w.time == sc.clock && w.counters.toolCalls == sc.tools && w.dropped == {}
    && (w.finished <==> sc.over.Some?) && (w.finished ==> w.finishReason == sc.over.value)
    && Withheld(quiet, w.queue) && KnownOnly(s, w.queue)
  }

  ghost predicate DriverOk(s: Setup, d: Driver, sc: Scene) {
    s.driver.SessionDriven? ==> d.invocations == sc.invocations
  }

  ghost predicate CheckpointOk(s: Setup, quiet: set<Agent>, c: Checkpoint, log: seq<Event>) {
    && c.sequence <= |log|
    && WorldOk(s, quiet, c.world, SceneOf(log[..c.sequence])) && DriverOk(s, c.driver, SceneOf(log[..c.sequence]))
    && SceneOf(log[..c.sequence]).acting.None?
  }

  ghost predicate TablesOk(s: Setup, quiet: set<Agent>, t: Tables) {
    && LogOk(s, quiet, t.events)
    && forall q :: q in t.checkpoints ==> CheckpointOk(s, quiet, t.checkpoints[q], t.events)
  }

  ghost predicate DiskOk(s: Setup, quiet: set<Agent>, d: Disk) {
    TablesOk(s, quiet, d.tables) && forall i :: 0 <= i < |d.trail| ==> TablesOk(s, quiet, d.trail[i])
  }

  /** The journal stands at the end of a log that is in order. */
  ghost predicate Recorded(s: Setup, quiet: set<Agent>, c: Core) {
    c.journal.sequence == |c.Events()| && DiskOk(s, quiet, c.journal.disk)
  }

  function SceneIn(c: Core): Scene {
    SceneOf(c.Events())
  }

  /** Memory agrees with the log, and the attempt may begin. */
  ghost predicate Ready(s: Setup, quiet: set<Agent>, c: Core) {
    Recorded(s, quiet, c) && WorldOk(s, quiet, c.world, SceneIn(c))
  }

  /** And it has begun. */
  ghost predicate Told(s: Setup, quiet: set<Agent>, c: Core) {
    Ready(s, quiet, c) && SceneIn(c).attempt == c.journal.attempt
  }

  // ---- one event ----

  lemma TablesGrow(s: Setup, quiet: set<Agent>, t: Tables, e: Event)
    requires TablesOk(s, quiet, t) && e.sequence == |t.events| && EventOk(s, quiet, SceneOf(t.events), e)
    ensures TablesOk(s, quiet, t.(events := t.events + [e]))
  {
    Snoc(s, quiet, t.events, e);
    hide EventOk, LogOk, WorldOk, DriverOk, SceneOf;
    forall q | q in t.checkpoints ensures CheckpointOk(s, quiet, t.checkpoints[q], t.events + [e]) {
      var n := t.checkpoints[q].sequence;
      assert n <= |t.events| && (t.events + [e])[..n] == t.events[..n];
    }
  }

  lemma EmitRecorded(s: Setup, quiet: set<Agent>, c: Core, d: Draft)
    requires Recorded(s, quiet, c)
    requires EventOk(s, quiet, SceneIn(c), Stamp(c.journal.attempt, c.journal.sequence, c.journal.index, d))
    ensures Recorded(s, quiet, Emit(c, d))
    ensures SceneIn(Emit(c, d)) == Next(SceneIn(c), Stamp(c.journal.attempt, c.journal.sequence, c.journal.index, d))
  {
    var e := Stamp(c.journal.attempt, c.journal.sequence, c.journal.index, d);
    hide EventOk, TablesOk, SceneOf, Next;
    TablesGrow(s, quiet, c.journal.disk.tables, e);
    Snoc(s, quiet, c.Events(), e);
  }

  /** An event that leaves the scene as it is. */
  lemma EmitAside(s: Setup, quiet: set<Agent>, c: Core, d: Draft)
    requires Told(s, quiet, c)
    requires var e := Stamp(c.journal.attempt, c.journal.sequence, c.journal.index, d);
      EventOk(s, quiet, SceneIn(c), e) && Next(SceneIn(c), e) == SceneIn(c)
    ensures Told(s, quiet, Emit(c, d)) && SceneIn(Emit(c, d)) == SceneIn(c)
  {
    hide EventOk, Recorded, SceneIn, WorldOk, Next;
    EmitRecorded(s, quiet, c, d);
  }

  // ---- faults and scheduling ----

  ghost predicate Discreet(quiet: set<Agent>, d: Delivery) {
    d.sender in quiet ==> !d.visibility.Public?
  }

  ghost predicate Carried(s: Setup, quiet: set<Agent>, d: Delivery) {
    Discreet(quiet, d) && d.recipient in s.AgentIds()
  }

  lemma FaultOk(s: Setup, quiet: set<Agent>, c: Core, index: nat, d: Delivery)
    requires index < |s.faults| && AppliesTo(s.faults[index], d) && !s.faults[index].kind.AgentDropout?
    requires c.world.time == SceneIn(c).clock && SceneIn(c).attempt == c.journal.attempt
    ensures var e := Stamp(c.journal.attempt, c.journal.sequence, c.journal.index, FaultDraft(s.faults[index].kind, c.world.time, d));
      EventOk(s, quiet, SceneIn(c), e) && Next(SceneIn(c), e) == SceneIn(c)
  {
    AppliesToConcerned(s.faults[index], d);
    ConcernsEnds(s.faults[index], d);
    hide SceneIn, AppliesTo, Concerns;
  }

  lemma PostTold(s: Setup, quiet: set<Agent>, c: Core, item: Item)
    requires Told(s, quiet, c) && Carried(s, quiet, item.delivery)
    ensures Told(s, quiet, Post(c, item)) && SceneIn(Post(c, item)) == SceneIn(c)
  {
    hide Recorded, SceneOf, Setup.AgentIds;
    assert SceneIn(Post(c, item)) == SceneIn(c);
    assert Recorded(s, quiet, Post(c, item)) by { RecordedAside(s, quiet, c, Post(c, item)); }
  }

  lemma RecordedAside(s: Setup, quiet: set<Agent>, c: Core, c': Core)
    requires Recorded(s, quiet, c) && c'.journal == c.journal
    ensures Recorded(s, quiet, c') && SceneIn(c') == SceneIn(c)
  {
    hide DiskOk;
  }

  /** A change of memory that the log does not speak of. */
  lemma ToldAside(s: Setup, quiet: set<Agent>, c: Core, c': Core)
    requires Told(s, quiet, c) && c'.journal == c.journal
    requires c'.world.time == c.world.time && c'.world.counters.toolCalls == c.world.counters.toolCalls && c'.world.dropped == c.world.dropped
    requires c'.world.finished == c.world.finished && c'.world.finishReason == c.world.finishReason && c'.world.queue == c.world.queue
    ensures Told(s, quiet, c') && SceneIn(c') == SceneIn(c)
  {
    hide Recorded, SceneIn, Setup.AgentIds;
    RecordedAside(s, quiet, c, c');
  }

  lemma FiresOnly(s: Setup, c: Core, index: nat)
    requires index < |s.faults|
    ensures var (c', fires) := FaultFires(s, c, index);
      && c' == c.(rng := c'.rng, world := c.world.(occurrences := c'.world.occurrences))
      && (fires ==> !s.faults[index].kind.AgentDropout?)
  {
  }

  lemma FiresTold(s: Setup, quiet: set<Agent>, c: Core, index: nat)
    requires Told(s, quiet, c) && index < |s.faults|
    ensures var (c', fires) := FaultFires(s, c, index);
      Told(s, quiet, c') && SceneIn(c') == SceneIn(c) && c'.world.time == c.world.time
      && (fires ==> !s.faults[index].kind.AgentDropout?)
  {
    FiresOnly(s, c, index);
    hide Told, SceneIn, FaultFires;
    ToldAside(s, quiet, c, FaultFires(s, c, index).0);
  }

  lemma ApplyFaultTold(s: Setup, quiet: set<Agent>, c: Core, index: nat, item: Item)
    requires Told(s, quiet, c) && index < |s.faults| && Carried(s, quiet, item.delivery)
    ensures var (c', o) := ApplyFault(s, c, index, item);
      Told(s, quiet, c') && SceneIn(c') == SceneIn(c) && (o.Some? ==> Carried(s, quiet, o.value.delivery))
  {
    hide Told, SceneIn, FaultFires, AppliesTo, Corrupt, Bump;
    if AppliesTo(s.faults[index], item.delivery) {
      FiresTold(s, quiet, c, index);
      var (c1, fires) := FaultFires(s, c, index);
      if fires {
        FireTold(s, quiet, c1, index, item);
      }
    }
    CarriedStill(s, quiet, s.faults[index], item);
  }

  lemma CarriedStill(s: Setup, quiet: set<Agent>, f: FaultSpec, item: Item)
    ensures Carried(s, quiet, Transform(f, item).delivery) == Carried(s, quiet, item.delivery)
  {
    hide Setup.AgentIds, Reverse;
  }

  lemma ToldClock(s: Setup, quiet: set<Agent>, c: Core)
    requires Told(s, quiet, c)
    ensures c.world.time == SceneIn(c).clock && SceneIn(c).attempt == c.journal.attempt
  {
    hide SceneIn, Recorded, Setup.AgentIds;
  }

  lemma FireTold(s: Setup, quiet: set<Agent>, c: Core, index: nat, item: Item)
    requires Told(s, quiet, c) && index < |s.faults| && Carried(s, quiet, item.delivery)
    requires AppliesTo(s.faults[index], item.delivery) && !s.faults[index].kind.AgentDropout?
    ensures var c1 := c.(ledger := c.ledger.(fired := Bump(c.ledger.fired, index)));
      var c2 := Emit(c1, FaultDraft(s.faults[index].kind, c.world.time, item.delivery));
      var c3 := Post(c2, item.(duplicate := 1));
      var c4 := c3.(world := c3.world.(counters := c3.world.counters.(duplicates := c3.world.counters.duplicates + 1)));
      Told(s, quiet, c2) && SceneIn(c2) == SceneIn(c) && Told(s, quiet, c4) && SceneIn(c4) == SceneIn(c)
  {
    hide Told, SceneIn, Emit, Post, AppliesTo, Bump, EventOk, Next, FaultDraft, Carried;
    var c1 := c.(ledger := c.ledger.(fired := Bump(c.ledger.fired, index)));
    ToldAside(s, quiet, c, c1);
    ToldClock(s, quiet, c1);
    FaultOk(s, quiet, c1, index, item.delivery);
    var c2 := Emit(c1, FaultDraft(s.faults[index].kind, c.world.time, item.delivery));
    EmitAside(s, quiet, c1, FaultDraft(s.faults[index].kind, c.world.time, item.delivery));
    var c3 := Post(c2, item.(duplicate := 1));
    PostTold(s, quiet, c2, item.(duplicate := 1));
    ToldAside(s, quiet, c3, c3.(world := c3.world.(counters := c3.world.counters.(duplicates := c3.world.counters.duplicates + 1))));
  }

  lemma {:induction false} ApplyFaultsTold(s: Setup, quiet: set<Agent>, c: Core, item: Item, count: nat)
    requires Told(s, quiet, c) && count <= |s.faults| && Carried(s, quiet, item.delivery)
    ensures var (c', o) := ApplyFaults(s, c, item, count);
      Told(s, quiet, c') && SceneIn(c') == SceneIn(c) && (o.Some? ==> Carried(s, quiet, o.value.delivery))
  {
    hide Told, SceneIn, ApplyFault, Carried;
    if count > 0 {
      ApplyFaultsTold(s, quiet, c, item, count - 1);
      var (c', o) := ApplyFaults(s, c, item, count - 1);
      match o {
        case None =>
        case Some(i) => ApplyFaultTold(s, quiet, c', count - 1, i);
      }
    }
  }

  lemma RefusalOk(s: Setup, quiet: set<Agent>, c: Core, rule: string, subject: string, amount: int)
    requires c.world.time == SceneIn(c).clock && SceneIn(c).attempt == c.journal.attempt
    requires || (rule == "unknown_recipient" && subject !in s.AgentIds())
             || (rule == "max_message_bytes" && amount > s.maxMessageBytes)
             || (rule == "broadcast_not_allowed" && !s.broadcastAllowed)
    ensures var e := Stamp(c.journal.attempt, c.journal.sequence, c.journal.index,
                           PublicDraft(PolicyDecided, WORLD_ACTOR, c.world.time, Policy(rule, false, subject, amount)));
      EventOk(s, quiet, SceneIn(c), e) && Next(SceneIn(c), e) == SceneIn(c)
  {
    hide SceneIn, Setup.AgentIds;
  }

  lemma RefuseTold(s: Setup, quiet: set<Agent>, c: Core, rule: string, subject: string, amount: int)
    requires Told(s, quiet, c)
    requires || (rule == "unknown_recipient" && subject !in s.AgentIds())
             || (rule == "max_message_bytes" && amount > s.maxMessageBytes)
             || (rule == "broadcast_not_allowed" && !s.broadcastAllowed)
    ensures Told(s, quiet, PolicyEvent(c, rule, subject, amount)) && SceneIn(PolicyEvent(c, rule, subject, amount)) == SceneIn(c)
  {
    assert c.world.time == SceneIn(c).clock && SceneIn(c).attempt == c.journal.attempt;
    hide Told, SceneIn, Emit, EventOk, Next;
    RefusalOk(s, quiet, c, rule, subject, amount);
    EmitAside(s, quiet, c, PublicDraft(PolicyDecided, WORLD_ACTOR, c.world.time, Policy(rule, false, subject, amount)));
  }

  lemma EnqueueTold(s: Setup, quiet: set<Agent>, c: Core, d: Delivery, orderHint: int)
    requires Told(s, quiet, c) && Discreet(quiet, d)
    ensures Told(s, quiet, Enqueue(s, c, d, orderHint)) && SceneIn(Enqueue(s, c, d, orderHint)) == SceneIn(c)
  {
    assert c.world.dropped == {};
    hide Told, SceneIn, ApplyFaults, PolicyEvent, Accept, Utf8Size, Setup.AgentIds;
    if d.recipient !in s.AgentIds() {
      RefuseTold(s, quiet, c, "unknown_recipient", d.recipient, 0);
    } else if Utf8Size(d.content) > s.maxMessageBytes {
      RefuseTold(s, quiet, c, "max_message_bytes", "bytes", Utf8Size(d.content));
    } else {
      var item := Scheduled(s, c.world, d, orderHint);
      ApplyFaultsTold(s, quiet, c, item, |s.faults|);
      match ApplyFaults(s, c, item, |s.faults|) {
        case (c', None) =>
        case (c', Some(i)) => AcceptTold(s, quiet, c', i, Utf8Size(d.content));
      }
    }
  }

  lemma AcceptTold(s: Setup, quiet: set<Agent>, c: Core, item: Item, size: nat)
    requires Told(s, quiet, c) && Carried(s, quiet, item.delivery)
    ensures Told(s, quiet, Accept(c, item, size)) && SceneIn(Accept(c, item, size)) == SceneIn(c)
  {
    hide Told, SceneIn, Post, Carried, ResourceDelta.Plus;
    PostTold(s, quiet, c, item);
    ToldAside(s, quiet, Post(c, item), Accept(c, item, size));
  }

  lemma {:induction false} EnqueueAllTold(s: Setup, quiet: set<Agent>, c: Core, ds: seq<Delivery>, orderHint: int)
    requires Told(s, quiet, c) && forall d :: d in ds ==> Discreet(quiet, d)
    ensures Told(s, quiet, EnqueueAll(s, c, ds, orderHint)) && SceneIn(EnqueueAll(s, c, ds, orderHint)) == SceneIn(c)
  {
    hide Told, SceneIn, Enqueue, Discreet;
    if |ds| > 0 {
      assert ds[|ds| - 1] in ds;
      EnqueueAllTold(s, quiet, c, ds[..|ds| - 1], orderHint);
      EnqueueTold(s, quiet, EnqueueAll(s, c, ds[..|ds| - 1], orderHint), ds[|ds| - 1], orderHint);
    }
  }

  // ---- actions and messages ----

  ghost predicate DiscreetPack(s: Setup, quiet: set<Agent>) {
    forall a: Action, v: View :: s.handle(a, v).Some? ==> forall d :: d in s.handle(a, v).value.messages ==> Discreet(quiet, d)
  }

  lemma SettledBy(s: Setup, quiet: set<Agent>, c: Core, d: Draft)
    requires Told(s, quiet, c) && d.time == c.world.time && d.visibility.Public? && d.actor == WORLD_ACTOR && d.kind.PolicyDecided?
    requires d.body.Policy? && !d.body.allowed
    requires || (d.body.rule == "unknown_action" && SceneIn(c).acting == Some(d.body.subject))
             || (d.body.rule == "action_rejected" && SceneIn(c).acting.Some?)
    ensures Told(s, quiet, Emit(c, d)) && SceneIn(Emit(c, d)) == SceneIn(c).(acting := None)
  {
    var e := Stamp(c.journal.attempt, c.journal.sequence, c.journal.index, d);
    assert EventOk(s, quiet, SceneIn(c), e) by { hide SceneIn, Setup.AgentIds, Recorded, Withheld, KnownOnly; }
    assert Next(SceneIn(c), e) == SceneIn(c).(acting := None) by { hide SceneIn; }
    hide EventOk, Recorded, SceneIn, Next, Withheld, KnownOnly;
    EmitRecorded(s, quiet, c, d);
  }

  lemma ChangedTold(s: Setup, quiet: set<Agent>, c: Core, d: Draft, finished: bool, reason: string)
    requires Told(s, quiet, c) && d.time == c.world.time && d.kind.StateChanged? && d.visibility.Public? && d.actor == WORLD_ACTOR
    requires d.body.Changed? && SceneIn(c).acting == Some(d.body.action) && SceneIn(c).over.None?
    requires d.body.finished == finished
    requires reason == if d.body.note != "" then d.body.note else "action:" + d.body.action
    ensures var c' := Emit(if finished then c.(world := c.world.(finished := true, finishReason := reason)) else c, d);
      Told(s, quiet, c') && SceneIn(c') == SceneIn(c).(acting := None, over := if finished then Some(reason) else None)
  {
    var c1 := if finished then c.(world := c.world.(finished := true, finishReason := reason)) else c;
    var e := Stamp(c.journal.attempt, c.journal.sequence, c.journal.index, d);
    assert EventOk(s, quiet, SceneIn(c), e) by { hide SceneIn, Setup.AgentIds, Recorded, Withheld, KnownOnly; }
    assert Next(SceneIn(c), e) == SceneIn(c).(acting := None, over := if finished then Some(reason) else None) by { hide SceneIn; }
    hide EventOk, Recorded, SceneIn, Next, Withheld, KnownOnly;
    RecordedAside(s, quiet, c, c1);
    EmitRecorded(s, quiet, c1, d);
  }

  lemma ApplyChangeTold(s: Setup, quiet: set<Agent>, c: Core, action: Action, change: Change)
    requires Told(s, quiet, c) && SceneIn(c).acting == Some(action.kind) && SceneIn(c).over.None?
    requires forall d :: d in change.messages ==> Discreet(quiet, d)
    ensures var c' := ApplyChange(s, c, action, change);
      && Told(s, quiet, c') && SceneIn(c').acting.None?
      && SceneIn(c') == SceneIn(c).(acting := None, over := SceneIn(c').over)
  {
    hide Told, SceneIn, EnqueueAll, GrantFacts, Emit, Discreet;
    if change.rejected != "" {
      SettledBy(s, quiet, c, PublicDraft(PolicyDecided, WORLD_ACTOR, c.world.time, Policy("action_rejected", false, change.rejected, 0)));
    } else {
      var c1 := c.(world := c.world.(
        state := c.world.state + change.updates,
        privateFacts := GrantFacts(c.world.privateFacts, change.factsTo)));
      ToldAside(s, quiet, c, c1);
      EnqueueAllTold(s, quiet, c1, change.messages, 0);
      var c2 := EnqueueAll(s, c1, change.messages, 0);
      var reason := if change.note != "" then change.note else "action:" + action.kind;
      ChangedTold(s, quiet, c2, ChangedDraft(action, change, c2.world.time), change.finished, reason);
    }
  }

  /** An agent may act: in a session it is being heard. */
  ghost predicate MayAct(s: Setup, sc: Scene, agent: Agent) {
    sc.acting.None? && sc.over.None? && (s.driver.SessionDriven? ==> sc.busy == Some(agent))
  }

  lemma TakenTold(s: Setup, quiet: set<Agent>, c: Core, action: Action, delta: ResourceDelta)
    requires Told(s, quiet, c) && MayAct(s, SceneIn(c), action.actor)
    ensures var d := PublicDraft(ActionTaken, action.actor, c.world.time, Acted(action.kind, action.args)).(delta := delta);
      Told(s, quiet, Emit(c, d)) && SceneIn(Emit(c, d)) == SceneIn(c).(acting := Some(action.kind))
  {
    var d := PublicDraft(ActionTaken, action.actor, c.world.time, Acted(action.kind, action.args)).(delta := delta);
    var e := Stamp(c.journal.attempt, c.journal.sequence, c.journal.index, d);
    assert EventOk(s, quiet, SceneIn(c), e) by { hide SceneIn, Recorded, Withheld, KnownOnly; }
    assert Next(SceneIn(c), e) == SceneIn(c).(acting := Some(action.kind)) by { hide SceneIn; }
    hide EventOk, Recorded, SceneIn, Next, Withheld, KnownOnly;
    EmitRecorded(s, quiet, c, d);
  }

  lemma TakeActionTold(s: Setup, quiet: set<Agent>, c: Core, action: Action, delta: ResourceDelta)
    requires Told(s, quiet, c) && MayAct(s, SceneIn(c), action.actor) && DiscreetPack(s, quiet)
    ensures var c' := TakeAction(s, c, action, delta);
      && Told(s, quiet, c') && SceneIn(c').acting.None?
      && SceneIn(c') == SceneIn(c).(acting := None, over := SceneIn(c').over)
  {
    hide Told, SceneIn, ApplyChange, Emit, Discreet;
    TakenTold(s, quiet, c, action, delta);
    var c1 := Emit(c, PublicDraft(ActionTaken, action.actor, c.world.time, Acted(action.kind, action.args)).(delta := delta));
    match s.handle(action, ViewOf(s, c1.world)) {
      case None =>
        SettledBy(s, quiet, c1, PublicDraft(PolicyDecided, WORLD_ACTOR, c1.world.time, Policy("unknown_action", false, action.kind, 0)));
      case Some(change) =>
        ApplyChangeTold(s, quiet, c1, action, change);
    }
  }

  lemma RouteTold(s: Setup, quiet: set<Agent>, c: Core, p: Proposal)
    requires Told(s, quiet, c)
    ensures var (c', decision) := Route(s, c, p);
      && Told(s, quiet, c') && SceneIn(c') == SceneIn(c) && c'.world == c.world
      && (forall a :: a in decision.recipients ==> a in s.AgentIds())
      && (!s.broadcastAllowed ==> |decision.recipients| <= 1)
  {
    hide Told, SceneIn, Emit, Setup.AgentIds;
    var reached := Filter(s.route(p, ViewOf(s, c.world)).recipients, Reachable(s, c.world.dropped));
    FilterElements(s.route(p, ViewOf(s, c.world)).recipients, Reachable(s, c.world.dropped));
    if !s.broadcastAllowed {
      RefuseTold(s, quiet, c, "broadcast_not_allowed", p.actor, 0);
      PolicyWorld(c, "broadcast_not_allowed", p.actor, 0);
      assert forall a :: |reached| > 1 && a in reached[..1] ==> a in reached;
    }
  }

  lemma PolicyWorld(c: Core, rule: string, subject: string, amount: int)
    ensures PolicyEvent(c, rule, subject, amount).world == c.world
  {
  }

  /** What an agent says while it is being heard. */
  lemma HeardTold(s: Setup, quiet: set<Agent>, c: Core, d: Draft)
    requires Told(s, quiet, c) && s.driver.SessionDriven? && MayAct(s, SceneIn(c), d.actor) && d.time == c.world.time
    requires d.body.Said? ==> d.body.invocation == SceneIn(c).invocations
    requires match d.kind
      case AgentMessage =>
        && d.body.Said? && (forall a :: a in d.targets ==> a in s.AgentIds()) && (!s.broadcastAllowed ==> |d.targets| <= 1)
        && (!d.visibility.Public? ==> d.authorized == [d.actor] + d.targets) && (d.actor in quiet ==> !d.visibility.Public?)
      case AgentFinal => d.body.Said? && d.visibility.Public?
      case AgentError => d.body.Failed? && d.visibility.Public?
      case _ => false
    ensures Told(s, quiet, Emit(c, d)) && SceneIn(Emit(c, d)) == SceneIn(c)
  {
    var e := Stamp(c.journal.attempt, c.journal.sequence, c.journal.index, d);
    assert EventOk(s, quiet, SceneIn(c), e) by { hide SceneIn, Recorded, Withheld, KnownOnly, Setup.AgentIds; }
    assert Next(SceneIn(c), e) == SceneIn(c) by { hide SceneIn; }
    hide EventOk, Told, SceneIn, Next;
    EmitAside(s, quiet, c, d);
  }

  lemma ToolTold(s: Setup, quiet: set<Agent>, c: Core, agent: Agent, em: Emission)
    requires Told(s, quiet, c) && s.driver.SessionDriven? && MayAct(s, SceneIn(c), agent)
    ensures var c1 := c.(world := c.world.(counters := c.world.counters.(toolCalls := c.world.counters.toolCalls + 1)));
      var c' := Emit(c1, Draft(ToolCalled, agent, c.world.time, [], None, Private, [agent], ToolUse(em.tool, em.toolArgs), em.delta));
      Told(s, quiet, c') && SceneIn(c') == SceneIn(c).(tools := SceneIn(c).tools + 1)
  {
    var c1 := c.(world := c.world.(counters := c.world.counters.(toolCalls := c.world.counters.toolCalls + 1)));
    var d := Draft(ToolCalled, agent, c.world.time, [], None, Private, [agent], ToolUse(em.tool, em.toolArgs), em.delta);
    var e := Stamp(c.journal.attempt, c.journal.sequence, c.journal.index, d);
    assert EventOk(s, quiet, SceneIn(c), e) by { hide SceneIn, Recorded, Withheld, KnownOnly, Setup.AgentIds; }
    assert Next(SceneIn(c), e) == SceneIn(c).(tools := SceneIn(c).tools + 1) by { hide SceneIn; }
    hide EventOk, Recorded, SceneIn, Next, Withheld, KnownOnly;
    RecordedAside(s, quiet, c, c1);
    EmitRecorded(s, quiet, c1, d);
  }

  lemma AddressedIsDiscreet(quiet: set<Agent>, agent: Agent, em: Emission, decision: Decision, visibility: Visibility)
    requires agent in quiet ==> !visibility.Public?
    ensures forall d :: d in Map(decision.recipients, Addressed(agent, em, decision, visibility)) ==> Discreet(quiet, d)
  {
    var ds := Map(decision.recipients, Addressed(agent, em, decision, visibility));
    forall d | d in ds ensures Discreet(quiet, d) {
      var i :| 0 <= i < |ds| && ds[i] == d;
    }
  }

  lemma HandleMessageTold(s: Setup, quiet: set<Agent>, c: Core, agent: Agent, em: Emission, invocation: nat)
    requires Told(s, quiet, c) && s.driver.SessionDriven? && MayAct(s, SceneIn(c), agent)
    requires invocation == SceneIn(c).invocations && (agent in quiet ==> em.isPrivate)
    ensures Told(s, quiet, HandleMessage(s, c, agent, em, invocation))
    ensures SceneIn(HandleMessage(s, c, agent, em, invocation)) == SceneIn(c)
  {
    hide Told, SceneIn, Route, EnqueueAll, Emit, Setup.AgentIds, Discreet;
    var p := Proposal(agent, em.content, em.recipients, c.world.time);
    RouteTold(s, quiet, c, p);
    var (c1, decision) := Route(s, c, p);
    var visibility := if em.isPrivate then Private else decision.visibility;
    var authorized := if visibility.Public? then [] else [agent] + decision.recipients;
    var d := Draft(AgentMessage, agent, c.world.time, decision.recipients, None, visibility, authorized,
                   Said(em.content, invocation), em.delta);
    HeardTold(s, quiet, c1, d);
    AddressedIsDiscreet(quiet, agent, em, decision, visibility);
    EnqueueAllTold(s, quiet, Emit(c1, d), Map(decision.recipients, Addressed(agent, em, decision, visibility)), decision.orderHint);
  }

  /** One emission of the agent being heard. */
  lemma HandleEmissionTold(s: Setup, quiet: set<Agent>, c: Core, agent: Agent, em: Emission, invocation: nat)
    requires Told(s, quiet, c) && s.driver.SessionDriven? && MayAct(s, SceneIn(c), agent) && DiscreetPack(s, quiet)
    requires invocation == SceneIn(c).invocations && (agent in quiet && em.kind.EmitMessage? ==> em.isPrivate)
    ensures var c' := HandleEmission(s, c, agent, em, invocation);
      && Told(s, quiet, c') && SceneIn(c').acting.None? && SceneIn(c').busy == SceneIn(c).busy
      && SceneIn(c').invocations == SceneIn(c).invocations
  {
    hide Told, SceneIn, HandleMessage, TakeAction, Emit, DiscreetPack;
    match em.kind {
      case EmitMessage => HandleMessageTold(s, quiet, c, agent, em, invocation);
      case EmitAction => TakeActionTold(s, quiet, c, ActionOf(agent, em), em.delta);
      case EmitToolCall => ToolTold(s, quiet, c, agent, em);
      case EmitFinal =>
        HeardTold(s, quiet, c, PublicDraft(AgentFinal, agent, c.world.time, Said(em.content, invocation)).(delta := em.delta));
      case EmitError =>
        HeardTold(s, quiet, c, PublicDraft(AgentError, agent, c.world.time, Failed(em.content)));
    }
  }
}
