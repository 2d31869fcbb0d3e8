/** The state of one run, as values: what the manifest fixes, what a live controller
    holds in memory, and what the database holds. */
module KernelState {
  import opened Wrappers
  import opened Contracts

  // ---- fixed for the whole run ----

  datatype AgentSpec = AgentSpec(id: Agent, role: string)

  datatype FaultSpec = FaultSpec(
    kind: FaultKind, targets: seq<Agent>, senders: seq<Agent>, recipients: seq<Agent>,
    onOccurrences: seq<int>, probability: real, delayTicks: int)

  datatype Limits = Limits(
    maxLogicalTime: int, maxEvents: int, maxMessages: int, maxModelCalls: int, maxCostUsd: real,
    checkpointEvery: int)

  datatype DriverKind = SessionDriven | AecDriven | ParallelDriven

  /** Labels of the random streams: one per fault, and the ones plug-ins name. */
  datatype Label = FaultStream(index: nat) | PluginStream(name: string)

  /** Everything the composition root resolved for a run: the manifest, the task case,
      the plug-ins as pure functions, the value of the k-th draw of a random stream, and
      the content key (16 hex digits compare as the number they write). */
  datatype Setup = Setup(
    agents: seq<AgentSpec>,
    faults: seq<FaultSpec>,
    limits: Limits,
    latency: int,
    maxMessageBytes: int,
    broadcastAllowed: bool,
    clockStep: int,
    driver: DriverKind,
    instruction: string,
    initialState: Facts,
    publicFacts: Facts,
    privateFacts: map<Agent, Facts>,
    seed: int,
    draw: (int, Label, nat) -> real,
    digest: (Agent, Agent, string, Facts, Visibility) -> int,
    opening: (Agent, View) -> Option<string>,
    route: (Proposal, View) -> Decision,
    handle: (Action, View) -> Option<Change>,
    verify: (View, seq<Event>) -> Option<Verdict>)
  {
    function AgentIds(): seq<Agent> {
      seq(|agents|, i requires 0 <= i < |agents| => agents[i].id)
    }

    function Roles(): map<Agent, string> {
      RolesOf(agents)
    }
  }

  function RolesOf(agents: seq<AgentSpec>): map<Agent, string> {
    if |agents| == 0 then map[]
    else RolesOf(agents[..|agents| - 1])[agents[|agents| - 1].id := agents[|agents| - 1].role]
  }

  /** The agents one attempt runs with. They may behave differently in every attempt. */
  datatype Minds = Minds(
    invoke: (Agent, Memo, Request) -> Reply,
    initial: map<Agent, Memo>,
    restorable: set<Agent>)

  // ---- memory ----

  /** A delivery with its scheduling decision. */
  datatype Item = Item(due: int, orderHint: int, delivery: Delivery, duplicate: nat)

  datatype Rng = Rng(seed: int, counters: map<Label, nat>)

  datatype Counters = Counters(messages: int, spawns: int, modelCalls: int, toolCalls: int, duplicates: int)

  datatype WorldState = WorldState(
    time: int,
    finished: bool,
    finishReason: string,
    state: Facts,
    queue: seq<Item>,
    payoffs: map<Agent, real>,
    dropped: set<Agent>,
    publicFacts: Facts,
    privateFacts: map<Agent, Facts>,
    counters: Counters,
    occurrences: map<nat, nat>,
    resources: ResourceDelta)

  /** `DriverState`. */
  datatype Driver = Driver(invocations: nat, activated: seq<Agent>, turn: nat)

  /** An item and the logical time at which it was scheduled. */
  datatype Posted = Posted(item: Item, at: int)

  /** History variables of the model. No decision of the kernel reads them; they name
      what happened to every scheduled item, how often each fault fired, and the
      resources that were counted in memory but written to no event. */
  datatype Ledger = Ledger(
    posted: seq<Posted>,
    popped: seq<Item>,
    removed: seq<Item>,
    handed: seq<Item>,
    fired: seq<nat>,
    unlogged: ResourceDelta)

  // ---- the database, one run's rows ----

  datatype Checkpoint = Checkpoint(
    sequence: nat,
    index: nat,
    attempt: nat,
    world: WorldState,
    driver: Driver,
    memos: map<Agent, Memo>,
    rng: Rng,
    ledger: Ledger)

  datatype AttemptRow = AttemptRow(state: RunState, resumedFrom: Option<nat>)

  /** `events` in the order of the rows; `archive` and `checkpoints` by their primary key,
      which for a checkpoint is derived from its sequence number. */
  datatype Tables = Tables(
    events: seq<Event>,
    archive: map<EventId, Event>,
    checkpoints: map<nat, Checkpoint>,
    attempts: map<nat, AttemptRow>,
    runState: RunState)

  const NoTables := Tables([], map[], map[], map[], Planned)

  /** The tables, and the tables after every statement so far. The connection is in
      autocommit mode, so these are exactly the states a crash can leave behind. */
  datatype Disk = Disk(tables: Tables, trail: seq<Tables>)
  {
    function Save(t: Tables): Disk {
      Disk(t, trail + [t])
    }
  }

  // ---- what a live controller holds ----

  datatype Journal = Journal(disk: Disk, attempt: nat, sequence: nat, index: nat)

  /** World with its journal and its random streams. */
  datatype Core = Core(journal: Journal, rng: Rng, world: WorldState, ledger: Ledger)
  {
    function Events(): seq<Event> {
      journal.disk.tables.events
    }
  }

  /** A core with a driver and its agents. */
  datatype Session = Session(core: Core, driver: Driver, sinceCheckpoint: int, memos: map<Agent, Memo>)
}
