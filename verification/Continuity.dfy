/** Whole attempts, crashed and resumed, against being left alone. */
module Continuity {
  import opened Wrappers
  import opened Contracts
  import opened KernelState
  import opened Sorting
  import opened Scheduler
  import opened Store
  import opened Journals
  import opened WorldRules
  import opened DriverRules
  import opened RunRules
  import opened Invariants
  import opened DriverInvariants
  import opened Recovery
  import opened Histories
  import opened Punctuality
  import opened Growth
  import opened Books
  import opened Equivalence
  import opened Resumption
  import opened Writers

  /** The session with which an attempt enters its driver. */
  function Started(s: Setup, m: Minds, t: Tables): Session {
    match Latest(t.checkpoints)
    case None => Announce(s, Begin(s, m, Opened(t)), None)
    case Some(c) => Announce(s, Rejoin(s, m, Opened(t), c), Some(c.sequence))
  }

  /** The session driver of an attempt, left alone. */
  function LeftAlone(s: Setup, m: Minds, t: Tables): (Session, Outcome) {
    RunSession(s, m, Started(s, m, t))
  }

  /** A checkpoint of a session run: the episode was opened, everybody takes part, and it holds
      cursors of agents that can be restored. */
  ghost predicate Proper(m: Minds, c: Checkpoint) {
    c.driver.activated != [] && c.world.dropped == {} && forall a :: a in c.memos ==> a in m.initial && a in m.restorable
  }

  ghost predicate AllProper(m: Minds, t: Tables) {
    forall q :: q in t.checkpoints ==> Proper(m, t.checkpoints[q])
  }

  ghost function Old(t: Tables): iset<Checkpoint> {
    iset q | q in t.checkpoints :: t.checkpoints[q]
  }

  // ---- the start of an attempt ----

  lemma StartHealthy(s: Setup, m: Minds, t: Tables)
    requires Sound(s, t) && CanStart(t)
    ensures Healthy(s, AnchorOf(t), Started(s, m, t), [])
  {
    hide Sound, Healthy, Announce, Begin, Rejoin, Pins;
    match Latest(t.checkpoints) {
      case None =>
        BeginIsHealthy(s, m, t);
        AnnounceKeeps(s, AnchorOf(t), Begin(s, m, Opened(t)), None, []);
      case Some(c) =>
        LatestIsPinned(s, t, c);
        PinnedAgrees(s, c, t.events);
        RejoinIsHealthy(s, m, t, c, []);
        AnnounceKeeps(s, AnchorOf(t), Rejoin(s, m, Opened(t), c), Some(c.sequence), []);
    }
  }

  lemma PinnedAgrees(s: Setup, c: Checkpoint, events: seq<Event>)
    requires Pins(s, c, events)
    ensures c.sequence <= |events| && Agrees(s, c.world, c.ledger, NoDebt, events[..c.sequence])
  {
    hide Agrees;
  }

  lemma {:induction false} RegisterAllBooks(c: Core, agents: seq<AgentSpec>)
    ensures SameBooks(c, RegisterAll(c, agents)) && RegisterAll(c, agents).world == c.world
  {
    hide Emit, SameBooks;
    if |agents| == 0 {
      QuietBooks(c, c);
    } else {
      RegisterAllBooks(c, agents[..|agents| - 1]);
      var c' := RegisterAll(c, agents[..|agents| - 1]);
      var d := PublicDraft(AgentRegistered, agents[|agents| - 1].id, c'.world.time, Registered(agents[|agents| - 1].role));
      EmitBooks(c', d);
      BooksOn(c, c', Emit(c', d));
      EmitWorld(c', d);
    }
  }

  lemma EmitWorld(c: Core, d: Draft)
    ensures Emit(c, d).world == c.world
  {
  }

  lemma MarkBooks(x: Session, state: RunState, from: Option<nat>)
    ensures SameBooks(x.core, Mark(x, state, from).core)
  {
  }

  lemma AnnounceBooks(s: Setup, x: Session, from: Option<nat>)
    ensures var y := Announce(s, x, from);
      && SameBooks(x.core, y.core) && y.core.world == x.core.world && y.driver == x.driver && y.memos == x.memos
  {
    hide SameBooks, RegisterAll;
    var d := PublicDraft(RunStarted, WORLD_ACTOR, x.core.world.time, NoBody);
    EmitBooks(x.core, d);
    RegisterAllBooks(Emit(x.core, d), s.agents);
    BooksOn(x.core, Emit(x.core, d), RegisterAll(Emit(x.core, d), s.agents));
    var y := x.(core := RegisterAll(Emit(x.core, d), s.agents));
    MarkBooks(y, Running, from);
    BooksOn(x.core, y.core, Mark(y, Running, from).core);
  }

  lemma {:induction false} ArchiveBooks(d: Disk, rows: seq<Event>)
    ensures SameCheckpoints(d, ArchiveRows(d, rows))
  {
    if |rows| > 0 {
      ArchiveBooks(d, rows[..|rows| - 1]);
    }
  }

  lemma CutBackBooks(d: Disk, c: Checkpoint)
    ensures SameCheckpoints(d, CutBack(d, c))
  {
    ArchiveBooks(d, Filter(d.tables.events, From(c.sequence)));
    hide ArchiveRows;
  }

  lemma RejoinBooks(s: Setup, m: Minds, t: Tables, c: Checkpoint)
    ensures var x := Rejoin(s, m, Opened(t), c);
      && SameCheckpoints(Opened(t), x.core.journal.disk) && x.core.world == c.world && x.driver == c.driver
      && x.memos == RestoreMemos(m, c.memos)
  {
    CutBackBooks(Opened(t), c);
    hide CutBack;
  }

  lemma OpenedBooks(d: Disk, t: Tables)
    requires SameCheckpoints(Opened(t), d)
    ensures AllIn(d, Old(t))
  {
    assert AllIn(Opened(t), Old(t));
    hide AllIn, Old;
    AllInSame(Opened(t), d, Old(t));
  }

  /** Opening the episode either opens it for somebody or leaves the queue empty. */
  lemma {:induction false} OpenAllBooks(s: Setup, x: Session, agents: seq<Agent>)
    ensures var y := OpenAll(s, x, agents);
      && SameBooks(x.core, y.core) && y.memos == x.memos
      && (x.core.world.queue == [] ==> y.driver.activated != [] || y.core.world.queue == [])
  {
    hide Enqueue, SameBooks;
    if |agents| == 0 {
      QuietBooks(x.core, x.core);
    } else {
      OpenAllBooks(s, x, agents[..|agents| - 1]);
      var y := OpenAll(s, x, agents[..|agents| - 1]);
      var agent := agents[|agents| - 1];
      match s.opening(agent, ViewOf(s, y.core.world)) {
        case None =>
        case Some(text) =>
          var d := Delivery(WORLD_ACTOR, agent, text, map["kind" := "opening"], Private, 0);
          EnqueueBooks(s, y.core, d, 0);
          BooksOn(x.core, y.core, Enqueue(s, y.core, d, 0));
      }
    }
  }

  /** The first head of the loop, with no checkpoint but those found. */
  lemma FirstHead(s: Setup, m: Minds, t: Tables)
    requires Sound(s, t) && CanStart(t) && AllProper(m, t)
    ensures var x := Activate(s, Started(s, m, t)); AtHead(m, x) && AllIn(x.core.journal.disk, Old(t))
  {
    hide Sound, Healthy, Announce, Rejoin, OpenAll, SameBooks, AllIn, Old, AnchorOf, Proper;
    var y := Started(s, m, t);
    StartHealthy(s, m, t);
    StartFacts(s, m, t);
    var agents := ActiveAgents(s, y.core.world.dropped);
    OpenAllBooks(s, y, agents);
    OpenAllKeeps(s, AnchorOf(t), y, agents, []);
    var x := Activate(s, y);
    assert Healthy(s, AnchorOf(t), x, []);
    HealthyStands(s, AnchorOf(t), x);
    QuietBooks(y.core, y.core);
    assert SameBooks(y.core, x.core);
    CarriedBooks(y.core, x.core, t);
  }

  lemma CarriedBooks(c: Core, c': Core, t: Tables)
    requires SameBooks(c, c') && AllIn(c.journal.disk, Old(t))
    ensures c'.world.dropped == c.world.dropped && AllIn(c'.journal.disk, Old(t))
  {
    hide AllIn, Old, SameCheckpoints;
    AllInSame(c.journal.disk, c'.journal.disk, Old(t));
  }

  lemma HealthyStands(s: Setup, a: Anchor, x: Session)
    requires Healthy(s, a, x, [])
    ensures x.core.journal.sequence == |x.core.Events()|
  {
    hide Agrees, Durable, Dense;
  }

  lemma StartFacts(s: Setup, m: Minds, t: Tables)
    requires AllProper(m, t)
    ensures var y := Started(s, m, t);
      && AllIn(y.core.journal.disk, Old(t)) && y.core.world.dropped == {} && Kept(m, y.memos)
      && (y.driver.activated != [] || y.core.world.queue == [])
  {
    hide SameBooks, AllIn, Old, Announce, Kept, RestoreMemos;
    match Latest(t.checkpoints) {
      case None =>
        KeptFromStart(m, map[]);
        var x := Begin(s, m, Opened(t));
        assert SameCheckpoints(Opened(t), x.core.journal.disk);
        OpenedBooks(x.core.journal.disk, t);
        AnnounceBooks(s, x, None);
        CarriedBooks(x.core, Announce(s, x, None).core, t);
      case Some(c) =>
        assert Proper(m, c) by {
          assert Maximum(t.checkpoints.Keys) in t.checkpoints;
        }
        KeptFromStart(m, c.memos);
        hide Rejoin;
        var x := Rejoin(s, m, Opened(t), c);
        RejoinBooks(s, m, t, c);
        OpenedBooks(x.core.journal.disk, t);
        AnnounceBooks(s, x, Some(c.sequence));
        CarriedBooks(x.core, Announce(s, x, Some(c.sequence)).core, t);
    }
  }

  // ---- where the checkpoints of an attempt come from ----

  lemma VerifyBooks(s: Setup, c: Core)
    ensures SameCheckpoints(c.journal.disk, Verify(s, c).0.journal.disk)
    ensures c.Events() <= Verify(s, c).0.Events()
  {
    hide AddPayoffs;
  }

  lemma ConcludeBooks(s: Setup, x: Session, outcome: Outcome, from: Option<nat>)
    ensures SameCheckpoints(x.core.journal.disk, Conclude(s, x, outcome, from).core.journal.disk)
    ensures x.core.Events() <= Conclude(s, x, outcome, from).core.Events()
  {
    VerifyBooks(s, x.core);
    hide Verify;
  }

  lemma AttemptIsConcluded(s: Setup, m: Minds, t: Tables) returns (from: Option<nat>)
    requires s.driver.SessionDriven?
    ensures Attempt(s, m, Opened(t)) == Conclude(s, LeftAlone(s, m, t).0, LeftAlone(s, m, t).1, from)
  {
    hide Conclude, RunSession, Announce, Begin, Rejoin;
    match Latest(t.checkpoints) {
      case None => from := None;
      case Some(c) => from := Some(c.sequence);
    }
  }

  /** A checkpoint in any durable state of an attempt was found there, or is explained: some
      session of the attempt wrote it, in a round that went on from it. */
  lemma Origin(s: Setup, m: Minds, t: Tables, cut: nat, marks: nat, q: nat)
    requires s.driver.SessionDriven? && Unhurried(s) && Sound(s, t) && CanStart(t) && AllProper(m, t)
    requires q in Left(s, m, t, cut, marks).checkpoints
    ensures Left(s, m, t, cut, marks).checkpoints[q] in Old(t) + Explained(s, m, LeftAlone(s, m, t))
  {
    var u := LeftAlone(s, m, t);
    var x := Activate(s, Started(s, m, t));
    var known := Old(t) + Explained(s, m, u);
    var t' := CrashedAt(Durables(s, m, t), cut, t);
    MarkKeepsTables(t', marks);
    hide Sound, Conclude, SessionLoop, Explained, AllIn, Old, Started, Activate, AllProper, Unhurried, AtHead, Attempt, MarkFailed,
         SameCheckpoints;
    FirstHead(s, m, t);
    LoopWrites(s, m, x, Old(t));
    var from := AttemptIsConcluded(s, m, t);
    ConcludeBooks(s, u.0, u.1, from);
    AllInSame(u.0.core.journal.disk, Attempt(s, m, Opened(t)).core.journal.disk, known);
    OpenedIn(t, known);
    AmongTrail(Attempt(s, m, Opened(t)).core.journal.disk, t, cut, known);
  }

  lemma OpenedIn(t: Tables, known: iset<Checkpoint>)
    requires Old(t) <= known
    ensures forall q :: q in t.checkpoints ==> t.checkpoints[q] in known
  {
    assert forall q :: q in t.checkpoints ==> t.checkpoints[q] in Old(t);
  }

  lemma AmongTrail(d: Disk, t: Tables, cut: nat, known: iset<Checkpoint>)
    requires AllIn(d, known) && forall q :: q in t.checkpoints ==> t.checkpoints[q] in known
    ensures var t' := CrashedAt(d.trail, cut, t); forall q :: q in t'.checkpoints ==> t'.checkpoints[q] in known
  {
  }

  lemma EarlyTrail(t: Tables, i: nat)
    requires i < |AnchorOf(t).start|
    ensures AnchorOf(t).start[i].checkpoints == t.checkpoints
  {
    match Latest(t.checkpoints) {
      case None =>
      case Some(c) => ArchiveBooks(Opened(t), Filter(t.events, From(c.sequence)));
    }
  }

  lemma StartsWith(s: Setup, m: Minds, t: Tables, i: nat)
    requires Runnable(s) && Sound(s, t) && CanStart(t) && i < |AnchorOf(t).start|
    ensures i < |Durables(s, m, t)| && Durables(s, m, t)[i] == AnchorOf(t).start[i]
  {
    hide Sound, Faithful, Attempt, Synced, Keeps, AppendOnly, AnchorOf;
    AttemptIsSafe(s, m, t);
  }

  /** Until the cut-back is done the checkpoints are those that were found. */
  lemma EarlyMeansOld(s: Setup, m: Minds, t: Tables, cut: nat)
    requires Runnable(s) && Sound(s, t) && CanStart(t)
    ensures cut + 1 < |AnchorOf(t).start| ==> CrashedAt(Durables(s, m, t), cut, t).checkpoints == t.checkpoints
  {
    hide Sound, Durables, AnchorOf;
    if cut + 1 < |AnchorOf(t).start| {
      StartsWith(s, m, t, cut);
      EarlyTrail(t, cut);
    }
  }

  // ---- one crash ----

  /** After the checkpoint the run left alone logs no more work at the checkpoint's own logical time. */
  ghost predicate NothingElseNow(log: seq<Event>, c: Checkpoint) {
    && c.sequence <= |log|
    && forall j :: |Deeds(log[..c.sequence])| <= j < |Deeds(log)| ==> Deeds(log)[j].time > c.world.time
  }

  /** What is needed of an attempt that is left alone, crashed and resumed by another one. */
  ghost predicate Comparable(s: Setup, m: Minds, m': Minds, t: Tables) {
    && s.driver.SessionDriven? && Unhurried(s) && s.clockStep <= 1
    && Sound(s, t) && CanStart(t) && AllProper(m, t)
    && SameMinds(m, m') && m'.initial == m.initial && Recoverable(m)
    && LeftAlone(s, m, t).0.core.journal.sequence + |s.agents| + 1 < s.limits.maxEvents
  }

  lemma OfSnapshot(s: Setup, m: Minds, z: Session)
    ensures var c := Capture(s, m, z);
      && c.sequence == z.core.journal.sequence && c.world.time == z.core.world.time
      && (LastTick(s, c.world) <==> LastTick(s, z.core.world))
      && c.memos == Snapshots(m, z.memos) && c.driver == z.driver && c.world.dropped == z.core.world.dropped
  {
    SortKeepsElements(z.core.world.queue, ItemOrder(s.digest));
  }

  lemma WriterAtRest(m: Minds, z: Session)
    requires Writer(m, z)
    ensures AtRest(z) && z.core.journal.sequence == |z.core.Events()| && Kept(m, z.memos)
  {
    hide Kept;
  }

  /** The log of the writer is a first part of the log of the run left alone. */
  lemma WriterLog(s: Setup, m: Minds, z: Session, w: Session)
    requires Onward(SaveCheckpoint(s, m, z), w)
    ensures var u := SessionLoop(s, m, EndRound(s, w)).0;
      SaveCheckpoint(s, m, z).core.Events() <= u.core.Events() && z.core.Events() <= u.core.Events()
  {
    hide SessionLoop, Deeds, AdvanceTo, Capture;
    AdvanceGrows(w.core, w.core.world.time + s.clockStep);
    LoopGrowsLog(s, m, EndRound(s, w));
  }

  /** The crashed database holds the new checkpoint over the log it was written for. */
  lemma StoredAtCrash(s: Setup, m: Minds, t: Tables, cut: nat, marks: nat, z: Session)
    requires Runnable(s) && Sound(s, t) && CanStart(t) && z.core.journal.sequence == |z.core.Events()|
    requires z.core.Events() <= Attempt(s, m, Opened(t)).core.Events()
    requires var t' := Left(s, m, t, cut, marks);
      Latest(t'.checkpoints) == Some(Capture(s, m, z)) && t'.checkpoints != t.checkpoints
    ensures Stored(s, m, z, Left(s, m, t, cut, marks))
  {
    var t' := Left(s, m, t, cut, marks);
    MarkKeepsTables(CrashedAt(Durables(s, m, t), cut, t), marks);
    hide Attempt, Sound, Capture, CrashedAt, MarkFailed, AnchorOf, Keeps;
    AttemptStates(s, m, t, cut, marks);
    EarlyMeansOld(s, m, t, cut);
    LateCrash(s, m, t, cut);
    SoundMeansDense(s, t');
    LatestIsPinned(s, t', Capture(s, m, z));
    LatestCovers(s, t', Capture(s, m, z));
    OfSnapshot(s, m, z);
    SamePrefixes(t'.events, z.core.Events(), Attempt(s, m, Opened(t)).core.Events());
  }

  lemma ConcludedLog(s: Setup, m: Minds, t: Tables)
    requires s.driver.SessionDriven?
    ensures LeftAlone(s, m, t).0.core.Events() <= Attempt(s, m, Opened(t)).core.Events()
  {
    hide Attempt, LeftAlone, Conclude;
    var from := AttemptIsConcluded(s, m, t);
    ConcludeBooks(s, LeftAlone(s, m, t).0, LeftAlone(s, m, t).1, from);
  }

  lemma SamePrefixes(a: seq<Event>, b: seq<Event>, log: seq<Event>)
    requires a <= log && b <= log && |b| <= |a|
    ensures a[..|b|] == b
  {
  }

  /** With the round over when the checkpoint was written, nothing else happens then. */
  lemma RoundWasOver(s: Setup, m: Minds, z: Session)
    requires Writer(m, z)
    ensures NothingElseNow(SessionLoop(s, m, EndRound(s, SaveCheckpoint(s, m, z))).0.core.Events(), Capture(s, m, z))
  {
    var x := SaveCheckpoint(s, m, z);
    var x1 := EndRound(s, x);
    var log := SessionLoop(s, m, x1).0.core.Events();
    SavedDeeds(s, m, z);
    OfSnapshot(s, m, z);
    WriterAtRest(m, z);
    RoundDeeds(s, x);
    assert x.core.world == z.core.world;
    hide SessionLoop, Deeds, Writer, SaveCheckpoint, Capture;
    QuietStays(x.core, x.core);
    assert Onward(x, x);
    WriterLog(s, m, z, x);
    assert log[..z.core.journal.sequence] == z.core.Events();
    if s.clockStep >= 1 {
      TickEffect(s, x);
      LoopGrowsLog(s, m, x1);
      CoreDeedsGrow(x1.core, SessionLoop(s, m, x1).0.core);
    } else {
      assert x1.core == x.core;
      OnlyLater(s, m, x1);
    }
  }

  lemma SavedDeeds(s: Setup, m: Minds, z: Session)
    ensures Deeds(SaveCheckpoint(s, m, z).core.Events()) == Deeds(z.core.Events())
  {
    DeedsSnoc(z.core.Events(), Stamp(z.core.journal.attempt, z.core.journal.sequence, z.core.journal.index,
      PublicDraft(SnapshotCreated, WORLD_ACTOR, z.core.world.time, Body.Snapshot(z.core.journal.sequence))));
  }

  lemma RoundDeeds(s: Setup, x: Session)
    ensures Deeds(EndRound(s, x).core.Events()) == Deeds(x.core.Events())
  {
    var time := x.core.world.time + s.clockStep;
    DeedsSnoc(x.core.Events(), Stamp(x.core.journal.attempt, x.core.journal.sequence, x.core.journal.index,
                                     PublicDraft(ClockAdvanced, WORLD_ACTOR, time, Clock(time))));
  }

  /** With something of the round left to do, something else happens then. */
  lemma RoundWasNotOver(s: Setup, m: Minds, z: Session, w: Session)
    requires Writer(m, z) && Onward(SaveCheckpoint(s, m, z), w) && w != SaveCheckpoint(s, m, z)
    ensures !NothingElseNow(SessionLoop(s, m, EndRound(s, w)).0.core.Events(), Capture(s, m, z))
  {
    var x := SaveCheckpoint(s, m, z);
    var w1 := EndRound(s, w);
    var log := SessionLoop(s, m, w1).0.core.Events();
    SavedDeeds(s, m, z);
    OfSnapshot(s, m, z);
    WriterAtRest(m, z);
    assert x.core.world == z.core.world;
    WriterLog(s, m, z, w);
    SameTimeDeeds(x.core, w.core);
    hide SessionLoop, Deeds, Writer, SaveCheckpoint, Capture, AdvanceTo;
    AdvanceGrows(w.core, w.core.world.time + s.clockStep);
    LoopGrowsLog(s, m, w1);
    GrowsOn(w.core, w1.core, SessionLoop(s, m, w1).0.core);
    CoreDeedsGrow(w.core, SessionLoop(s, m, w1).0.core);
    assert log[..z.core.journal.sequence] == z.core.Events();
    var n := |Deeds(z.core.Events())|;
    assert Deeds(log)[n] == Deeds(w.core.Events())[n];
  }

  /** Which cursors a resume brings back: those that can be restored. The other agents start over, so
      all come back exactly if each of them is where the new attempt starts it. */
  lemma CursorsComeBack(m: Minds, m': Minds, memos: map<Agent, Memo>)
    requires memos.Keys == m'.initial.Keys
    ensures RestoreMemos(m', Snapshots(m, memos)) == memos <==> Restorable(m, m', memos)
    ensures forall a :: a in m'.initial && a !in m.restorable ==> RestoreMemos(m', Snapshots(m, memos))[a] == m'.initial[a]
  {
    var back := RestoreMemos(m', Snapshots(m, memos));
    assert forall a :: a in memos ==> back[a] == if a in m.restorable then memos[a] else m'.initial[a];
    if back == memos {
      assert forall a :: a in memos ==> back[a] == memos[a];
    }
  }

  lemma NoCursorLost(m: Minds, m': Minds, memos: map<Agent, Memo>)
    requires Kept(m, memos) && m'.initial == m.initial && Recoverable(m)
    ensures Restorable(m, m', memos)
  {
    hide Recoverable;
  }

  /** The new checkpoint of a crashed attempt, and the work of a resume from it. */
  lemma NewCheckpoint(s: Setup, m: Minds, m': Minds, t: Tables, cut: nat, marks: nat, z: Session, w: Session)
    requires Comparable(s, m, m', t) && Writer(m, z) && Onward(SaveCheckpoint(s, m, z), w)
    requires SessionLoop(s, m, EndRound(s, w)) == LeftAlone(s, m, t)
    requires var t' := Left(s, m, t, cut, marks);
      Latest(t'.checkpoints) == Some(Capture(s, m, z)) && t'.checkpoints != t.checkpoints
    ensures var t', c := Left(s, m, t, cut, marks), Capture(s, m, z);
      var ((u, o), (v, o')) := (LeftAlone(s, m, t), LeftAlone(s, m', t'));
      && (SameWork(s, u, v) <==> NothingElseNow(u.core.Events(), c))
      && (SameWork(s, u, v) ==> (o' == o <==> !LastTick(s, c.world)))
  {
    var t' := Left(s, m, t, cut, marks);
    var x := SaveCheckpoint(s, m, z);
    assert LeftAlone(s, m', t') == ComeBack(s, m, m', z, t') by {
      hide RunSession, Announce, Rejoin, Capture;
    }
    assert z.core.world.queue == [] || AtRest(z) by { WriterAtRest(m, z); }
    hide Sound, SameMinds, AllProper, Unhurried, SessionLoop, LeftAlone, Left, ComeBack, NothingElseNow, SameWork, LastTick, Capture, Attempt,
         Writer, SaveCheckpoint, Stored, EndRound, Deeds, AtRest, Restorable, Recoverable, Kept;
    WriterAtRest(m, z);
    NoCursorLost(m, m', z.memos);
    OfSnapshot(s, m, z);
    WriterLog(s, m, z, w);
    ConcludedLog(s, m, t);
    StoredAtCrash(s, m, t, cut, marks, z);
    if w == x {
      RoundWasOver(s, m, z);
      OneStepSeamless(s, z);
      RestOfNothing(s, m, z);
      ResumeEquivalence(s, m, m', z, [], t');
    } else {
      RoundWasNotOver(s, m, z, w);
      UnfinishedRoundIsLost(s, m, m', z, w, t');
    }
  }

  lemma OneStepSeamless(s: Setup, z: Session)
    requires s.clockStep <= 1 && AtRest(z)
    ensures Seamless(s, z.core.world) && AllGone(z.core.world.dropped, [])
  {
  }

  lemma RestOfNothing(s: Setup, m: Minds, z: Session)
    ensures GoOn(s, m, z, []) == SessionLoop(s, m, EndRound(s, SaveCheckpoint(s, m, z)))
  {
    hide SessionLoop, EndRound, SaveCheckpoint;
  }

  // ---- two attempts from the same checkpoint ----

  lemma {:induction false} RegisterAllLike(s: Setup, c: Core, c': Core, k: int, agents: seq<AgentSpec>)
    requires Like(s, c, c', k)
    ensures Like(s, RegisterAll(c, agents), RegisterAll(c', agents), k)
  {
    hide Like, Emit;
    if |agents| > 0 {
      var n := |agents| - 1;
      RegisterAllLike(s, c, c', k, agents[..n]);
      var r, r' := RegisterAll(c, agents[..n]), RegisterAll(c', agents[..n]);
      EmitLike(s, r, r', k, PublicDraft(AgentRegistered, agents[n].id, r.world.time, Registered(agents[n].role)),
               PublicDraft(AgentRegistered, agents[n].id, r'.world.time, Registered(agents[n].role)));
    }
  }

  lemma AnnounceInStep(s: Setup, x: Session, x': Session, k: int, from: Option<nat>)
    requires InStep(s, x, x', k)
    ensures InStep(s, Announce(s, x, from), Announce(s, x', from), k)
  {
    hide Deeds, Canon, Emit, RegisterAll, SameWorld;
    var d, d' := PublicDraft(RunStarted, WORLD_ACTOR, x.core.world.time, NoBody), PublicDraft(RunStarted, WORLD_ACTOR, x'.core.world.time, NoBody);
    EmitLike(s, x.core, x'.core, k, d, d');
    RegisterAllLike(s, Emit(x.core, d), Emit(x'.core, d'), k, s.agents);
  }

  lemma {:induction false} OpenAllInStep(s: Setup, x: Session, x': Session, k: int, agents: seq<Agent>)
    requires InStep(s, x, x', k)
    ensures InStep(s, OpenAll(s, x, agents), OpenAll(s, x', agents), k)
  {
    if |agents| > 0 {
      var n := |agents| - 1;
      OpenAllInStep(s, x, x', k, agents[..n]);
      hide Like, Enqueue;
      var y, y' := OpenAll(s, x, agents[..n]), OpenAll(s, x', agents[..n]);
      LikeTime(s, y.core, y'.core, k);
      match s.opening(agents[n], ViewOf(s, y.core.world)) {
        case None =>
        case Some(text) =>
          EnqueueLike(s, y.core, y'.core, k, Delivery(WORLD_ACTOR, agents[n], text, map["kind" := "opening"], Private, 0), 0);
      }
    }
  }

  lemma ActivateInStep(s: Setup, x: Session, x': Session, k: int)
    requires InStep(s, x, x', k)
    ensures InStep(s, Activate(s, x), Activate(s, x'), k)
  {
    hide Like, OpenAll;
    LikeTime(s, x.core, x'.core, k);
    OpenAllInStep(s, x, x', k, ActiveAgents(s, x.core.world.dropped));
  }

  lemma BeginInStep(s: Setup, m: Minds, m': Minds, t: Tables, t': Tables)
    requires m'.initial == m.initial && t.events == [] && t'.events == []
    ensures InStep(s, Begin(s, m, Opened(t)), Begin(s, m', Opened(t')), 0)
  {
    hide Canon;
  }

  lemma CutBackLog(d: Disk, c: Checkpoint)
    requires Dense(d.tables.events) && c.sequence <= |d.tables.events|
    ensures CutBack(d, c).tables.events == d.tables.events[..c.sequence]
  {
    CutIsPrefix(d.tables.events, c.sequence);
    ArchiveRowsEffect(d, Filter(d.tables.events, From(c.sequence)));
  }

  lemma RejoinsInStep(s: Setup, m: Minds, m': Minds, t: Tables, t': Tables, c: Checkpoint)
    requires m'.initial == m.initial
    requires Dense(t.events) && Dense(t'.events) && c.sequence <= |t.events| && c.sequence <= |t'.events|
    requires t.events[..c.sequence] == t'.events[..c.sequence]
    ensures InStep(s, Rejoin(s, m, Opened(t), c), Rejoin(s, m', Opened(t'), c), 0)
  {
    CutBackLog(Opened(t), c);
    CutBackLog(Opened(t'), c);
    hide Canon, Deeds, CutBack, Emit, Dense;
    var x, x' := Reload(m, Opened(t), c), Reload(m', Opened(t'), c);
    assert Like(s, x.core, x'.core, 0);
    EmitLike(s, x.core, x'.core, 0,
      PublicDraft(AttemptStarted, WORLD_ACTOR, x.core.world.time, Resumed(c.sequence, |Filter(t.events, From(c.sequence))|)),
      PublicDraft(AttemptStarted, WORLD_ACTOR, x'.core.world.time, Resumed(c.sequence, |Filter(t'.events, From(c.sequence))|)));
  }

  lemma StartsInStep(s: Setup, m: Minds, m': Minds, t: Tables, t': Tables)
    requires m'.initial == m.initial && Latest(t'.checkpoints) == Latest(t.checkpoints)
    requires match Latest(t.checkpoints)
      case None => t.events == [] && t'.events == []
      case Some(c) => Dense(t.events) && Dense(t'.events) && c.sequence <= |t.events| && c.sequence <= |t'.events|
                      && t.events[..c.sequence] == t'.events[..c.sequence]
    ensures InStep(s, Started(s, m, t), Started(s, m', t'), 0)
  {
    hide InStep, Begin, Rejoin, Announce, Dense;
    match Latest(t.checkpoints) {
      case None =>
        BeginInStep(s, m, m', t, t');
        AnnounceInStep(s, Begin(s, m, Opened(t)), Begin(s, m', Opened(t')), 0, None);
      case Some(c) =>
        RejoinsInStep(s, m, m', t, t', c);
        AnnounceInStep(s, Rejoin(s, m, Opened(t), c), Rejoin(s, m', Opened(t'), c), 0, Some(c.sequence));
    }
  }

  /** Attempts that start alike do the same work. */
  lemma SameStartSameWork(s: Setup, m: Minds, m': Minds, t: Tables, t': Tables)
    requires InStep(s, Started(s, m, t), Started(s, m', t'), 0) && SameMinds(m, m')
    requires LeftAlone(s, m, t).0.core.journal.sequence < s.limits.maxEvents
    ensures SameWork(s, LeftAlone(s, m, t).0, LeftAlone(s, m', t').0) && LeftAlone(s, m', t').1 == LeftAlone(s, m, t).1
  {
    hide InStep, SameMinds, SessionLoop, Activate, Started, SameWork;
    ActivateInStep(s, Started(s, m, t), Started(s, m', t'), 0);
    LoopAlike(s, m, m', Activate(s, Started(s, m, t)), Activate(s, Started(s, m', t')), 0);
    AlikeIsSameWork(s, LeftAlone(s, m, t).0, LeftAlone(s, m', t').0, 0);
  }

  /** Attempts from the same checkpoint, or both from the beginning, start alike. */
  lemma SameStarts(s: Setup, m: Minds, m': Minds, t: Tables, t': Tables)
    requires Sound(s, t) && CanStart(t) && Sound(s, t') && CanStart(t') && Keeps(AnchorOf(t), t')
    requires m'.initial == m.initial && Latest(t'.checkpoints) == Latest(t.checkpoints)
    ensures InStep(s, Started(s, m, t), Started(s, m', t'), 0)
  {
    hide InStep, Supersede, Started;
    assert Dense(t.events) && Dense(t'.events) by {
      hide Sound;
      SoundMeansDense(s, t);
      SoundMeansDense(s, t');
    }
    hide Sound, Pins;
    if Latest(t.checkpoints).Some? {
      var c := Latest(t.checkpoints).value;
      LatestIsPinned(s, t, c);
      LatestCovers(s, t, c);
      assert t.events[..c.sequence] <= t'.events;
      assert t'.events[..c.sequence] == t.events[..c.sequence];
    }
    StartsInStep(s, m, m', t, t');
  }

  /** A crash that left no new checkpoint. */
  lemma OldCheckpoint(s: Setup, m: Minds, m': Minds, t: Tables, t': Tables)
    requires Comparable(s, m, m', t) && Sound(s, t') && CanStart(t') && Keeps(AnchorOf(t), t')
    requires Latest(t'.checkpoints) == Latest(t.checkpoints)
    ensures SameWork(s, LeftAlone(s, m, t).0, LeftAlone(s, m', t').0) && LeftAlone(s, m', t').1 == LeftAlone(s, m, t).1
  {
    hide SameWork, LeftAlone, SameMinds, Unhurried, AllProper, Recoverable, InStep, Sound, Keeps, AnchorOf;
    SameStarts(s, m, m', t, t');
    SameStartSameWork(s, m, m', t, t');
  }

  lemma LatestIsNew(s: Setup, t: Tables, t': Tables)
    requires Sound(s, t) && Sound(s, t') && Keeps(AnchorOf(t), t') && Latest(t'.checkpoints) != Latest(t.checkpoints)
    ensures Latest(t'.checkpoints).Some? && Latest(t'.checkpoints).value !in Old(t)
    ensures t'.checkpoints != t.checkpoints
  {
    hide Pins, SoundLog, Supersede;
    if Latest(t'.checkpoints).Some? {
      var top := Maximum(t'.checkpoints.Keys);
      if t'.checkpoints[top] in Old(t) {
        var q :| q in t.checkpoints && t.checkpoints[q] == t'.checkpoints[top];
        StoredSequence(s, t, q);
        TopOfBoth(s, t, t', q);
      }
    }
  }

  lemma StoredSequence(s: Setup, t: Tables, q: nat)
    requires Sound(s, t) && q in t.checkpoints
    ensures t.checkpoints[q].sequence == q
  {
    hide Pins, SoundLog;
  }

  lemma TopOfBoth(s: Setup, t: Tables, t': Tables, q: nat)
    requires Sound(s, t) && Keeps(AnchorOf(t), t') && t'.checkpoints != map[]
    requires q in t.checkpoints && t'.checkpoints[Maximum(t'.checkpoints.Keys)] == t.checkpoints[q]
    requires Sound(s, t')
    ensures Latest(t'.checkpoints) == Latest(t.checkpoints)
  {
    hide Pins, SoundLog, Supersede;
    var top := Maximum(t'.checkpoints.Keys);
    StoredSequence(s, t, q);
    StoredSequence(s, t', top);
    forall k | k in t.checkpoints ensures k <= q {
      assert k in t'.checkpoints;
    }
  }

  // ---- the theorems ----

  /** Kill any attempt of a session run anywhere, and resume. The new attempt does exactly the
      work the killed one would have done if and only if the killed one had stored no checkpoint
      yet, or, left alone, would have logged no more work at the logical time of its latest one:
      the round was over when the checkpoint was written. */
  lemma CrashedRunDoesTheSameWork(s: Setup, m: Minds, m': Minds, t: Tables, cut: nat, marks: nat)
    requires Comparable(s, m, m', t) && CanStart(Left(s, m, t, cut, marks))
    ensures var t' := Left(s, m, t, cut, marks);
      var ((u, o), (v, o')) := (LeftAlone(s, m, t), LeftAlone(s, m', t'));
      var kept := Latest(t'.checkpoints) == Latest(t.checkpoints);
      && (kept || Latest(t'.checkpoints).Some?)
      && (SameWork(s, u, v) <==> kept || NothingElseNow(u.core.Events(), Latest(t'.checkpoints).value))
      && (SameWork(s, u, v) ==> (o' == o <==> kept || !LastTick(s, Latest(t'.checkpoints).value.world)))
  {
    var t' := Left(s, m, t, cut, marks);
    hide SameWork, LeftAlone, Left, Sound, SameMinds, Unhurried, Recoverable, NothingElseNow, LastTick, Keeps, AnchorOf, Old,
         Explained, CanStart, AllProper;
    AttemptStates(s, m, t, cut, marks);
    if Latest(t'.checkpoints) == Latest(t.checkpoints) {
      OldCheckpoint(s, m, m', t, t');
    } else {
      LatestIsNew(s, t, t');
      var c := Latest(t'.checkpoints).value;
      LatestIsPinned(s, t', c);
      Origin(s, m, t, cut, marks, c.sequence);
      var z, w := WriterOf(s, m, LeftAlone(s, m, t), c);
      NewCheckpoint(s, m, m', t, cut, marks, z, w);
    }
  }

  lemma WriterOf(s: Setup, m: Minds, u: (Session, Outcome), c: Checkpoint) returns (z: Session, w: Session)
    requires c in Explained(s, m, u)
    ensures Writer(m, z) && Onward(SaveCheckpoint(s, m, z), w) && SessionLoop(s, m, EndRound(s, w)) == u && c == Capture(s, m, z)
  {
    hide Writer, Onward, SaveCheckpoint, SessionLoop, EndRound, Capture;
    z, w :| Writer(m, z) && Onward(SaveCheckpoint(s, m, z), w) && SessionLoop(s, m, EndRound(s, w)) == u && c == Capture(s, m, z);
  }

  // ---- any number of crashes ----

  lemma ExplainedIsProper(s: Setup, m: Minds, u: (Session, Outcome), c: Checkpoint)
    requires c in Explained(s, m, u)
    ensures Proper(m, c)
  {
    var z, w := WriterOf(s, m, u, c);
    hide Explained, SaveCheckpoint, Capture, Onward, SessionLoop;
    OfSnapshot(s, m, z);
    WriterAtRest(m, z);
    assert Primed(m, z);
  }

  /** The checkpoints an attempt leaves are proper ones. */
  lemma LeftIsProper(s: Setup, m: Minds, t: Tables, cut: nat, marks: nat)
    requires s.driver.SessionDriven? && Unhurried(s) && Sound(s, t) && CanStart(t) && AllProper(m, t)
    ensures AllProper(m, Left(s, m, t, cut, marks))
  {
    hide Sound, Unhurried, CanStart, Left, Proper, Explained, LeftAlone;
    var t' := Left(s, m, t, cut, marks);
    forall q | q in t'.checkpoints ensures Proper(m, t'.checkpoints[q]) {
      Origin(s, m, t, cut, marks, q);
      if t'.checkpoints[q] in Explained(s, m, LeftAlone(s, m, t)) {
        ExplainedIsProper(s, m, LeftAlone(s, m, t), t'.checkpoints[q]);
      }
    }
  }

  /** The same team in every attempt: it starts alike, answers alike, and no cursor of it is lost. */
  ghost predicate SameTeam(m: Minds, m': Minds) {
    && SameMinds(m, m') && m'.initial == m.initial && Recoverable(m')
    && forall a :: a in m.initial ==> (a in m.restorable <==> a in m'.restorable)
  }

  lemma TeamsAgree(m: Minds, a: Minds, b: Minds)
    requires SameTeam(m, a) && SameTeam(m, b)
    ensures SameTeam(a, b)
  {
    hide Deeds;
    forall agent: Agent, memo: Memo, r: Request, h: seq<Event> | Deeds(h) == Deeds(r.history)
      ensures b.invoke(agent, memo, r.(history := h)) == a.invoke(agent, memo, r)
    {
      assert r.(history := r.history) == r;
      assert a.invoke(agent, memo, r.(history := r.history)) == m.invoke(agent, memo, r);
    }
  }

  /** No crash of the history interrupted a round that a checkpoint had been written in, and no
      attempt came near the event limit. */
  ghost predicate Smooth(s: Setup, m: Minds, h: History)
    requires s.driver.SessionDriven?
  {
    match h
    case Untouched => true
    case Then(before, m', cut, marks) =>
      var t := After(s, before);
      var t' := After(s, h);
      && Smooth(s, m, before) && CanStart(t) && SameTeam(m, m')
      && LeftAlone(s, m', t).0.core.journal.sequence + |s.agents| + 1 < s.limits.maxEvents
      && (Latest(t'.checkpoints) == Latest(t.checkpoints)
          || (Latest(t'.checkpoints).Some?
              && NothingElseNow(LeftAlone(s, m', t).0.core.Events(), Latest(t'.checkpoints).value)))
    case Fruitless(_, _, _) => false
  }

  lemma {:induction false} SmoothIsOrderly(s: Setup, m: Minds, h: History)
    requires s.driver.SessionDriven? && Unhurried(s) && Smooth(s, m, h)
    ensures Orderly(s, h) && Sound(s, After(s, h)) && AllProper(m, After(s, h))
  {
    match h {
      case Untouched =>
      case Then(before, m', cut, marks) =>
        hide Sound, Left, LeftAlone, NothingElseNow, CanStart, Unhurried, Proper;
        SmoothIsOrderly(s, m, before);
        AttemptStates(s, m', After(s, before), cut, marks);
        TeamProper(m, m', After(s, before));
        LeftIsProper(s, m', After(s, before), cut, marks);
        TeamProper(m, m', After(s, h));
    }
  }

  lemma TeamProper(m: Minds, m': Minds, t: Tables)
    requires SameTeam(m, m')
    ensures AllProper(m, t) <==> AllProper(m', t)
  {
  }

  lemma SameWorkTwice(s: Setup, u: Session, v: Session, w: Session)
    requires SameWork(s, u, v) && SameWork(s, v, w)
    ensures SameWork(s, u, w)
  {
    hide Deeds, Canon;
  }

  /** Any number of crashes, none of them losing part of a round: the attempt that follows does
      exactly the work of a run that was never interrupted. */
  lemma {:induction false} AnyNumberOfCrashes(s: Setup, m: Minds, h: History, m': Minds)
    requires s.driver.SessionDriven? && Unhurried(s) && s.clockStep <= 1
    requires Smooth(s, m, h) && CanStart(After(s, h)) && SameTeam(m, m')
    requires LeftAlone(s, m, NoTables).0.core.journal.sequence + |s.agents| + 1 < s.limits.maxEvents
    ensures SameWork(s, LeftAlone(s, m, NoTables).0, LeftAlone(s, m', After(s, h)).0)
  {
    match h {
      case Untouched =>
        hide LeftAlone, SameWork, SameMinds, InStep;
        StartsInStep(s, m, m', NoTables, NoTables);
        SameStartSameWork(s, m, m', NoTables, NoTables);
      case Then(before, m1, cut, marks) =>
        hide Sound, Left, LeftAlone, NothingElseNow, CanStart, Unhurried, AllProper, SameTeam, SameWork, Recoverable, LastTick;
        var t := After(s, before);
        AnyNumberOfCrashes(s, m, before, m1);
        SmoothIsOrderly(s, m, before);
        AreComparable(s, m, m1, m', t);
        CrashedRunDoesTheSameWork(s, m1, m', t, cut, marks);
        SameWorkTwice(s, LeftAlone(s, m, NoTables).0, LeftAlone(s, m1, t).0, LeftAlone(s, m', After(s, h)).0);
    }
  }

  lemma AreComparable(s: Setup, m: Minds, m1: Minds, m': Minds, t: Tables)
    requires s.driver.SessionDriven? && Unhurried(s) && s.clockStep <= 1
    requires Sound(s, t) && CanStart(t) && AllProper(m, t) && SameTeam(m, m1) && SameTeam(m, m')
    requires LeftAlone(s, m1, t).0.core.journal.sequence + |s.agents| + 1 < s.limits.maxEvents
    ensures Comparable(s, m1, m', t)
  {
    TeamsAgree(m, m1, m');
    TeamProper(m, m1, t);
    hide Sound, Unhurried, CanStart, LeftAlone, SameMinds, AllProper;
  }
}
