/** Optional values, as the source's `None`. */
module Wrappers {
  datatype Option<+T> = None | Some(value: T)
}

/** The event envelope and its enumerations (src/testbed_contracts). One run is
    modelled, so the run id that every identifier is derived from is left implicit. */
module Contracts {
  import opened Wrappers

  type Agent = string
  type Json = string
  type Facts = map<string, Json>

  const WORLD_ACTOR: Agent := "world"
  const OMNISCIENT_VIEW := "omniscient"
  const PUBLIC_VIEW := "public"

  datatype Visibility = Public | Private | Partition | OmniscientOnly

  datatype EventKind =
    | RunStarted | RunFinished | AttemptStarted
    | AgentRegistered | AgentSpawned | AgentInvoked | AgentMessage | AgentFinal | AgentError
    | ToolCalled | ToolResult
    | ActionTaken | StateChanged | MessageDelivered | ClockAdvanced | SnapshotCreated
    | FaultInjected | PolicyDecided
    | VerifierResult | PayoffAssigned

  datatype FaultKind = DropMessage | DelayMessage | DuplicateMessage | CorruptMessage | AgentDropout | ToolFailure

  datatype RunState = Planned | Provisioning | Running | Complete | TaskFailed | PolicyBlocked | InfraFailed

  /** Resources consumed by one action. Money and seconds are reals: rounding is not modelled. */
  datatype ResourceDelta = ResourceDelta(
    modelCalls: int, inputTokens: int, outputTokens: int, toolCalls: int,
    costUsd: real, wallSeconds: real, messageBytes: int)
  {
    function Plus(other: ResourceDelta): ResourceDelta {
      ResourceDelta(
        modelCalls + other.modelCalls, inputTokens + other.inputTokens, outputTokens + other.outputTokens,
        toolCalls + other.toolCalls, costUsd + other.costUsd, wallSeconds + other.wallSeconds,
        messageBytes + other.messageBytes)
    }
  }

  const NoResources := ResourceDelta(0, 0, 0, 0, 0.0, 0.0, 0)

  /** What an event carries, one constructor per payload shape the kernel writes. */
  datatype Body =
    | NoBody
    | Resumed(checkpoint: nat, superseded: nat)
    | Registered(role: string)
    | Invoked(invocation: nat, instruction: string)
    | Said(content: string, invocation: nat)
    | Delivered(sender: Agent, recipient: Agent, content: string, payload: Facts)
    | Acted(action: string, args: Facts)
    | Changed(action: string, updates: Facts, finished: bool, note: string)
    | ToolUse(tool: string, args: Facts)
    | Failed(error: string)
    | Clock(time: int)
    | Snapshot(sequence: nat)
    | Fault(fault: FaultKind, sender: Agent, recipient: Agent)
    | Policy(rule: string, allowed: bool, subject: string, amount: int)
    | Paid(payoffs: map<Agent, real>)
    | Judged(success: bool, reward: real, perAgent: map<Agent, real>)
    | Ended(state: RunState, reason: string)

  /** `short_hash({'run', 'seq'})`: the sequence number alone distinguishes the events of a run. */
  datatype EventId = EventId(sequence: nat)

  /** `idempotency_key(run, {'n', 'kind', 'actor'})`. */
  datatype Key = Key(index: nat, kind: EventKind, actor: Agent)

  datatype Event = Event(
    id: EventId,
    attempt: nat,
    sequence: nat,
    time: int,
    kind: EventKind,
    actor: Agent,
    targets: seq<Agent>,
    causation: Option<EventId>,
    key: Option<Key>,
    visibility: Visibility,
    authorized: seq<string>,
    body: Body,
    delta: ResourceDelta)
  {
    /** Whether this event may appear in the given view. */
    predicate VisibleTo(view: string) {
      if view == OMNISCIENT_VIEW then true
      else if visibility.OmniscientOnly? then false
      else if visibility.Public? then true
      else if view == PUBLIC_VIEW then false
      else view in authorized
    }

    /** The copy of this event that the view receives, if any. */
    function Project(view: string): Option<Event> {
      if !VisibleTo(view) then None
      else if view == OMNISCIENT_VIEW || visibility.Public? then Some(this)
      else Some(this.(authorized := [view]))
    }
  }

  /** `EventView(events, view)`: the projections that are not `None`, in order. */
  function EventView(events: seq<Event>, view: string): seq<Event> {
    if |events| == 0 then []
    else
      var rest := EventView(events[..|events| - 1], view);
      match events[|events| - 1].Project(view)
      case None => rest
      case Some(e) => rest + [e]
  }

  function TotalResources(events: seq<Event>): ResourceDelta {
    if |events| == 0 then NoResources
    else TotalResources(events[..|events| - 1]).Plus(events[|events| - 1].delta)
  }

  function CountKind(events: seq<Event>, kind: EventKind): nat {
    if |events| == 0 then 0
    else CountKind(events[..|events| - 1], kind) + (if events[|events| - 1].kind == kind then 1 else 0)
  }

  // ---- messages, proposals and actions (src/testbed_pack_sdk/world_ports.py) ----

  datatype Delivery = Delivery(
    sender: Agent, recipient: Agent, content: string, payload: Facts, visibility: Visibility, extraDelay: int)

  datatype Proposal = Proposal(actor: Agent, content: string, requested: seq<Agent>, time: int)

  datatype Decision = Decision(
    recipients: seq<Agent>, visibility: Visibility, orderHint: int, extraDelay: int,
    blocked: string)  // "" when the proposal is not blocked

  datatype Action = Action(kind: string, actor: Agent, args: Facts)

  datatype Change = Change(
    updates: Facts, factsTo: map<Agent, Facts>, messages: seq<Delivery>, finished: bool, note: string,
    rejected: string)  // "" when the action is not rejected

  datatype EmissionKind = EmitMessage | EmitToolCall | EmitAction | EmitFinal | EmitError

  datatype Emission = Emission(
    kind: EmissionKind, content: string, recipients: seq<Agent>, action: Facts, tool: string, toolArgs: Facts,
    delta: ResourceDelta, isPrivate: bool)

  /** What World shows plug-ins: `snapshot_view`, with the agents still taking part. */
  datatype View = View(
    time: int, state: Facts, agents: seq<Agent>, active: seq<Agent>, roles: map<Agent, string>,
    publicFacts: Facts, privateFacts: map<Agent, Facts>, payoffs: map<Agent, real>)

  datatype Verdict = Verdict(success: bool, reward: real, perAgent: map<Agent, real>)

  /** What an agent is handed for one invocation. */
  datatype Request = Request(
    invocation: nat, agent: Agent, time: int, instruction: string, inbox: seq<Delivery>, observation: Facts,
    privateFacts: Facts, history: seq<Event>, seed: int)

  /** An agent's restorable state, as its snapshot stores it. */
  type Memo = string

  datatype Reply = Reply(emissions: seq<Emission>, memo: Memo)
}
