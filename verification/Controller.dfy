/** The run controller (src/testbed_kernel/controller.py): what it does to the database is what
    the rules of an attempt say, from a database with a checkpoint or an empty log. */
module Controllers {
  import opened Wrappers
  import opened Contracts
  import opened KernelState
  import opened Sorting
  import opened Scheduler
  import opened Store
  import opened Randomness
  import opened Journals
  import opened Worlds
  import opened Drivers
  import opened Recovery
  import opened Views
  import R = WorldRules
  import D = DriverRules
  import X = RunRules

  class RunController {
    const s: Setup
    const m: Minds
    const store: SqliteStore

    constructor (s: Setup, m: Minds, store: SqliteStore)
      ensures this.s == s && this.m == m && this.store == store
    {
      this.s, this.m, this.store := s, m, store;
    }

    /** A world of this run that writes to this store. */
    ghost predicate Mine(world: World)
      reads world, world.journal, world.journal.store
    {
      world.Ready() && world.s == s && world.journal.store == store
    }

    // ---- the parts of an attempt ----

    method StartAttempt(resumedFrom: Option<nat>) returns (number: nat)
      modifies store
      ensures number == NextAttempt(old(store.attempts))
      ensures store.Disk() == WithAttempt(old(store.Disk()), number, AttemptRow(Provisioning, resumedFrom))
    {
      number := NextAttempt(store.attempts);
      store.PutAttempt(number, AttemptRow(Provisioning, resumedFrom));
    }

    method Register(world: World)
      requires Mine(world)
      modifies world.journal, store
      ensures Mine(world) && world.Core() == X.RegisterAll(old(world.Core()), s.agents)
    {
      hide R.Emit;
      ghost var c := world.Core();
      var i := 0;
      while i < |s.agents|
        invariant 0 <= i <= |s.agents| && Mine(world)
        invariant world.Core() == X.RegisterAll(c, s.agents[..i])
      {
        assert s.agents[..i + 1][..i] == s.agents[..i];
        var _ := world.Emit(PublicDraft(AgentRegistered, s.agents[i].id, world.time, Registered(s.agents[i].role)));
        i := i + 1;
      }
      assert s.agents[..i] == s.agents;
    }

    method Mark(world: World, state: RunState, resumedFrom: Option<nat>)
      requires Mine(world)
      modifies store
      ensures Mine(world)
      ensures world.Core() == old(world.Core()).(journal := old(world.journal.Journal()).(
        disk := WithAttempt(WithRunState(old(store.Disk()), state), world.journal.attempt, AttemptRow(state, resumedFrom))))
    {
      store.PutRunState(state);
      store.PutAttempt(world.journal.attempt, AttemptRow(state, resumedFrom));
    }

    method Verify(world: World) returns (verdict: Option<Verdict>)
      requires Mine(world)
      modifies world, world.journal, store
      ensures Mine(world) && (world.Core(), verdict) == X.Verify(s, old(world.Core()))
    {
      hide R.Emit, R.AssignPayoffs;
      var view := world.View();
      var stored := store.Read();
      ReadOfDense(store.events);
      OmniscientView(stored);
      verdict := s.verify(view, EventView(stored, OMNISCIENT_VIEW));
      if verdict.Some? {
        if verdict.value.perAgent != map[] {
          world.AssignPayoffs(verdict.value.perAgent);
        }
        var _ := world.Emit(Draft(VerifierResult, WORLD_ACTOR, world.time, [], None, OmniscientOnly, [],
                                  Judged(verdict.value.success, verdict.value.reward, verdict.value.perAgent), NoResources));
      }
    }

    method RunDriver(world: World, pool: AgentPool, state: Driver) returns (outcome: D.Outcome)
      requires Mine(world) && pool.m == m && X.Runnable(s)
      modifies world, world.rng, world.queue, world.journal, store, pool
      ensures Mine(world)
      ensures var (x, o) := X.RunDriver(s, m, Session(old(world.Core()), state, 0, old(pool.memos)));
        world.Core() == x.core && outcome == o
    {
      hide D.RunSession, D.EnvLoop;
      if s.driver.SessionDriven? {
        var driver := new SessionDriver(world, pool, state);
        outcome := driver.Run();
      } else {
        var driver := new EnvDriver(world, pool, state);
        outcome := driver.Run();
      }
    }

    /** From the announcement of the run to its terminal state. */
    method Drive(world: World, pool: AgentPool, state: Driver, resumedFrom: Option<nat>) returns (end: RunState)
      requires Mine(world) && pool.m == m && X.Runnable(s)
      modifies world, world.rng, world.queue, world.journal, store, pool
      ensures Mine(world) && end == store.runState
      ensures world.Core() == X.Drive(s, m, Session(old(world.Core()), state, 0, old(pool.memos)), resumedFrom).core
    {
      hide X.RegisterAll, X.RunDriver, X.Verify, R.Emit;
      var _ := world.Emit(PublicDraft(RunStarted, WORLD_ACTOR, world.time, NoBody));
      Register(world);
      Mark(world, Running, resumedFrom);
      var outcome := RunDriver(world, pool, state);
      var verdict := Verify(world);
      end := X.TerminalState(outcome, verdict);
      var _ := world.Emit(PublicDraft(RunFinished, WORLD_ACTOR, world.time, Ended(end, outcome.reason)));
      Mark(world, end, resumedFrom);
    }

    // ---- execute and resume ----

    /** Runs the record to a terminal state, on a log that is empty. */
    method Execute() returns (end: RunState)
      requires X.Runnable(s) && store.events == []
      modifies store
      ensures store.Disk() == X.Execute(s, m, old(store.Disk())).core.journal.disk
      ensures end == store.runState
    {
      hide X.Drive;
      store.PutRunState(Planned);
      var number := StartAttempt(None);
      var journal := new EventJournal(store, number, 0, 0);
      var rng := new DeterministicRng(s.draw, Rng(s.seed, map[]));
      var world := new World(s, journal, rng);
      var pool := new AgentPool(m, m.initial);
      assert world.Core() == X.Begin(s, m, old(store.Disk())).core;
      end := Drive(world, pool, Driver(0, [], 0), None);
    }

    /** Continues from the latest checkpoint, or executes when there is none. */
    method Resume() returns (end: RunState)
      requires X.Runnable(s)
      requires match Latest(store.checkpoints)
        case None => store.events == []
        case Some(c) => Dense(store.events) && c.sequence == c.index <= |store.events|
      modifies store
      ensures store.Disk() == X.Attempt(s, m, old(store.Disk())).core.journal.disk
      ensures end == store.runState
    {
      hide X.Drive, X.Execute;
      var latest := store.LatestCheckpoint();
      LatestIsTheOne(store.checkpoints, latest);
      if latest.None? {
        end := Execute();
      } else {
        end := Continue(latest.value);
      }
    }

    method Continue(c: Checkpoint) returns (end: RunState)
      requires X.Runnable(s) && Dense(store.events) && c.sequence == c.index <= |store.events|
      modifies store
      ensures store.Disk() == X.Resume(s, m, old(store.Disk()), c).core.journal.disk
      ensures end == store.runState
    {
      hide X.Drive, X.RestoreMemos, R.Emit;
      ghost var before := store.Disk();
      CutBackIsDense(before, c.sequence);
      var superseded := store.SupersedeFrom(c.sequence);
      var number := StartAttempt(Some(c.sequence));
      SupersedeKeepsAttempts(before, c.sequence);
      var world := Build(number, c);
      var _ := world.Emit(PublicDraft(AttemptStarted, WORLD_ACTOR, world.time, Resumed(c.sequence, superseded)));
      var pool := new AgentPool(m, X.RestoreMemos(m, c.memos));
      assert world.Core() == X.Rejoin(s, m, before, c).core;
      end := Drive(world, pool, c.driver, Some(c.sequence));
    }

    /** The world, journal and random streams the checkpoint describes. */
    method Build(number: nat, c: Checkpoint) returns (world: World)
      requires Synced(KernelState.Journal.Journal(store.Disk(), number, c.sequence, c.index))
      ensures fresh(world) && fresh(world.rng) && fresh(world.queue) && fresh(world.journal) && Mine(world)
      ensures world.Core() == KernelState.Core.Core(
        KernelState.Journal.Journal(store.Disk(), number, c.sequence, c.index), c.rng, c.world, c.ledger)
    {
      var journal := new EventJournal(store, number, c.sequence, c.index);
      var rng := new DeterministicRng(s.draw, c.rng);
      world := new World(s, journal, rng);
      world.Restore(c.world, c.ledger);
    }
  }

  lemma CutBackIsDense(d: Disk, q: nat)
    requires Dense(d.tables.events) && q <= |d.tables.events|
    ensures Dense(Supersede(d, q).tables.events) && |Supersede(d, q).tables.events| == q
  {
    CutIsPrefix(d.tables.events, q);
    ArchiveRowsEffect(d, Filter(d.tables.events, From(q)));
  }

  lemma SupersedeKeepsAttempts(d: Disk, q: nat)
    ensures Supersede(d, q).tables.attempts == d.tables.attempts
  {
    ArchiveRowsEffect(d, Filter(d.tables.events, From(q)));
  }
}
