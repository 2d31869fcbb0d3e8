/** The life of one attempt, as functions on the disk (src/testbed_kernel/controller.py). */
module RunRules {
  import opened Wrappers
  import opened Contracts
  import opened KernelState
  import opened Sorting
  import opened Store
  import opened Journals
  import opened WorldRules
  import opened DriverRules

  /** The environment loop needs a positive clock step to end; the session loop ends with any. */
  predicate Runnable(s: Setup) {
    s.driver.SessionDriven? || s.clockStep >= 1
  }

  function OnDisk(x: Session, d: Disk): Session {
    x.(core := x.core.(journal := x.core.journal.(disk := d)))
  }

  function Mark(x: Session, state: RunState, resumedFrom: Option<nat>): Session {
    OnDisk(x, WithAttempt(WithRunState(x.core.journal.disk, state), x.core.journal.attempt, AttemptRow(state, resumedFrom)))
  }

  function RegisterAll(c: Core, agents: seq<AgentSpec>): Core {
    if |agents| == 0 then c
    else
      var c' := RegisterAll(c, agents[..|agents| - 1]);
      var a := agents[|agents| - 1];
      Emit(c', PublicDraft(AgentRegistered, a.id, c'.world.time, Registered(a.role)))
  }

  function Announce(s: Setup, x: Session, resumedFrom: Option<nat>): Session {
    var core := Emit(x.core, PublicDraft(RunStarted, WORLD_ACTOR, x.core.world.time, NoBody));
    Mark(x.(core := RegisterAll(core, s.agents)), Running, resumedFrom)
  }

  function RunDriver(s: Setup, m: Minds, x: Session): (Session, Outcome)
    requires Runnable(s)
  {
    if s.driver.SessionDriven? then RunSession(s, m, x) else EnvLoop(s, m, x)
  }

  function Verify(s: Setup, c: Core): (Core, Option<Verdict>) {
    match s.verify(ViewOf(s, c.world), c.Events())
    case None => (c, None)
    case Some(v) =>
      var c' := if v.perAgent != map[] then AssignPayoffs(c, v.perAgent) else c;
      (Emit(c', Draft(VerifierResult, WORLD_ACTOR, c'.world.time, [], None, OmniscientOnly, [],
                      Judged(v.success, v.reward, v.perAgent), NoResources)), Some(v))
  }

  /** Running out of logical time or of events is an ordinary end; other limits block the run. */
  function TerminalState(outcome: Outcome, verdict: Option<Verdict>): RunState {
    if outcome.limit.Some? && outcome.limit.value !in {MaxLogicalTime, MaxEvents} then PolicyBlocked
    else if verdict.None? || verdict.value.success then Complete
    else TaskFailed
  }

  function Conclude(s: Setup, x: Session, outcome: Outcome, resumedFrom: Option<nat>): Session {
    var (core, verdict) := Verify(s, x.core);
    var state := TerminalState(outcome, verdict);
    var core' := Emit(core, PublicDraft(RunFinished, WORLD_ACTOR, core.world.time, Ended(state, outcome.reason)));
    Mark(x.(core := core'), state, resumedFrom)
  }

  function Drive(s: Setup, m: Minds, x: Session, resumedFrom: Option<nat>): Session
    requires Runnable(s)
  {
    var (x', outcome) := RunDriver(s, m, Announce(s, x, resumedFrom));
    Conclude(s, x', outcome, resumedFrom)
  }

  // ---- execute ----

  function Begin(s: Setup, m: Minds, d: Disk): Session {
    var number := NextAttempt(d.tables.attempts);
    var d' := WithAttempt(WithRunState(d, Planned), number, AttemptRow(Provisioning, None));
    Session(Core(Journal(d', number, 0, 0), Rng(s.seed, map[]), NewWorld(s), NewLedger(s)),
            Driver(0, [], 0), 0, m.initial)
  }

  function Execute(s: Setup, m: Minds, d: Disk): Session
    requires Runnable(s)
  {
    Drive(s, m, Begin(s, m, d), None)
  }

  // ---- resume ----

  function RestoreMemos(m: Minds, saved: map<Agent, Memo>): map<Agent, Memo> {
    map a | a in m.initial :: if a in saved then saved[a] else m.initial[a]
  }

  /** The disk after the log was cut back to the checkpoint and the new attempt was entered. */
  function CutBack(d: Disk, c: Checkpoint): Disk {
    var d' := Supersede(d, c.sequence);
    WithAttempt(d', NextAttempt(d'.tables.attempts), AttemptRow(Provisioning, Some(c.sequence)))
  }

  /** Memory as the checkpoint describes it. */
  function Reload(m: Minds, d: Disk, c: Checkpoint): Session {
    var number := NextAttempt(d.tables.attempts);
    Session(Core(Journal(CutBack(d, c), number, c.sequence, c.index), c.rng, c.world, c.ledger), c.driver, 0,
            RestoreMemos(m, c.memos))
  }

  function Rejoin(s: Setup, m: Minds, d: Disk, c: Checkpoint): Session {
    var x := Reload(m, d, c);
    var superseded := |Filter(d.tables.events, From(c.sequence))|;
    x.(core := Emit(x.core, PublicDraft(AttemptStarted, WORLD_ACTOR, x.core.world.time, Resumed(c.sequence, superseded))))
  }

  function Resume(s: Setup, m: Minds, d: Disk, c: Checkpoint): Session
    requires Runnable(s)
  {
    Drive(s, m, Rejoin(s, m, d, c), Some(c.sequence))
  }

  /** What a controller does with a run it finds on disk: resume from the latest checkpoint, or execute. */
  function Attempt(s: Setup, m: Minds, d: Disk): Session
    requires Runnable(s)
  {
    match Latest(d.tables.checkpoints)
    case None => Execute(s, m, d)
    case Some(c) => Resume(s, m, d, c)
  }
}
