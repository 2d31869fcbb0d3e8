/** What an attempt may do that `Orderly` histories leave out: on a log that is not empty and has no
    checkpoint, offer the same events again. The store may then answer duplicates instead of an
    error, and the attempt goes on with a journal that stands still. */
module Swallowed {
  import opened Wrappers
  import opened Contracts
  import opened KernelState
  import opened Sorting
  import opened Scheduler
  import opened Store
  import opened Journals
  import opened WorldRules
  import opened DriverRules
  import opened RunRules
  import opened Invariants
  import opened DriverInvariants
  import opened Recovery
  import opened Histories
  import opened Growth
  import opened Continuity
  import opened EnvResumption

  /** Every one of the drafts, offered in turn by a fresh journal, may be answered as a duplicate. */
  ghost predicate MayBeSwallowed(log: seq<Event>, attempt: nat, drafts: seq<Draft>) {
    forall i :: 0 <= i < |drafts| ==> KeyTaken(log, Stamp(attempt, 0, i, drafts[i]))
  }

  /** Kinds and actors of the drafts are those of the log from its beginning. */
  ghost predicate Replays(log: seq<Event>, drafts: seq<Draft>) {
    && |drafts| <= |log|
    && forall i :: 0 <= i < |drafts| ==> drafts[i].kind == log[i].kind && drafts[i].actor == log[i].actor
  }

  /** A fresh journal on a log that is not empty has nothing accepted. It is answered duplicates
      alone exactly as long as it offers the kinds and actors of the log, in the log's order; the
      first other event, or the first beyond the log, is an error. */
  lemma SwallowedWhileReplaying(log: seq<Event>, attempt: nat, drafts: seq<Draft>)
    requires Dense(log) && log != []
    ensures MayBeSwallowed(log, attempt, drafts) <==> Replays(log, drafts)
    ensures forall i :: 0 <= i < |drafts| ==> Clashes(log, Stamp(attempt, 0, i, drafts[i]))
  {
    forall i | 0 <= i < |drafts|
      ensures KeyTaken(log, Stamp(attempt, 0, i, drafts[i]))
          <==> i < |log| && drafts[i].kind == log[i].kind && drafts[i].actor == log[i].actor
    {
      KeyOfReplay(log, attempt, i, drafts[i]);
    }
    forall i | 0 <= i < |drafts| ensures Clashes(log, Stamp(attempt, 0, i, drafts[i])) {
      FreshJournalNeedsEmptyLog(log, attempt, i, drafts[i]);
    }
    if MayBeSwallowed(log, attempt, drafts) && drafts != [] {
      assert KeyTaken(log, Stamp(attempt, 0, |drafts| - 1, drafts[|drafts| - 1]));
    }
  }

  lemma KeyOfReplay(log: seq<Event>, attempt: nat, i: nat, d: Draft)
    requires Dense(log)
    ensures KeyTaken(log, Stamp(attempt, 0, i, d)) <==> i < |log| && d.kind == log[i].kind && d.actor == log[i].actor
  {
    var e := Stamp(attempt, 0, i, d);
    if KeyTaken(log, e) {
      var j :| 0 <= j < |log| && log[j].key == e.key;
      assert j == i;
    }
    if i < |log| && d.kind == log[i].kind && d.actor == log[i].actor {
      assert log[i].key == e.key;
    }
  }

  // ---- the steps of an attempt ----

  /** What an attempt does to the database, and what it does in memory between two such steps: it
      writes its rows, offers an event, stores a checkpoint, or goes on to the memory of `mind`. */
  datatype Step = Row(state: RunState) | Offer(draft: Draft) | Think(mind: Session) | Save

  /** One step. An event is accepted, or answered as a duplicate: then only the action index advances. */
  function Stepped(s: Setup, m: Minds, x: Session, step: Step, accepted: bool): Session {
    match step
    case Row(state) => Mark(x, state, None)
    case Offer(d) =>
      if accepted then x.(core := Emit(x.core, d))
      else x.(core := x.core.(journal := x.core.journal.(index := x.core.journal.index + 1)))
    case Think(mind) => mind.(core := mind.core.(journal := x.core.journal))
    case Save => OnDisk(x, WithCheckpoint(x.core.journal.disk, Capture(s, m, x)))
  }

  function Course(s: Setup, m: Minds, x: Session, steps: seq<Step>, accepted: bool): Session {
    if |steps| == 0 then x
    else Stepped(s, m, Course(s, m, x, steps[..|steps| - 1], accepted), steps[|steps| - 1], accepted)
  }

  function DraftsOf(steps: seq<Step>): seq<Draft> {
    if |steps| == 0 then []
    else
      var rest := DraftsOf(steps[..|steps| - 1]);
      if steps[|steps| - 1].Offer? then rest + [steps[|steps| - 1].draft] else rest
  }

  /** A driver offers an event before it stores a checkpoint. */
  ghost predicate OffersFirst(steps: seq<Step>) {
    forall i :: 0 <= i < |steps| && steps[i].Save? ==> DraftsOf(steps[..i]) != []
  }

  ghost predicate SavesNothing(steps: seq<Step>) {
    forall i :: 0 <= i < |steps| ==> !steps[i].Save?
  }

  /** All but the journal is the same. */
  ghost predicate SameMemory(x: Session, y: Session) {
    y == x.(core := x.core.(journal := y.core.journal))
  }

  /** What an environment driver shows to agents and to handlers of actions is a matter of memory alone. */
  lemma ShownFromMemory(s: Setup, x: Session, y: Session, agent: Agent, n: nat)
    requires SameMemory(x, y)
    ensures EnvRequest(s, y, agent, n) == EnvRequest(s, x, agent, n) && MemoOf(y, agent) == MemoOf(x, agent)
    ensures ViewOf(s, y.core.world) == ViewOf(s, x.core.world)
  {
  }

  /** The same steps lead to the same memory, whatever the store answers. */
  lemma {:induction false} AnswersAside(s: Setup, m: Minds, x: Session, y: Session, steps: seq<Step>, accepted: bool, other: bool)
    requires SameMemory(x, y)
    ensures SameMemory(Course(s, m, x, steps, accepted), Course(s, m, y, steps, other))
  {
    hide Capture;
    if |steps| > 0 {
      AnswersAside(s, m, x, y, steps[..|steps| - 1], accepted, other);
    }
  }

  /** What an attempt leaves that had nothing accepted: the log and the archive it found, and if it
      stored checkpoints, one with sequence 0 and an action index that counts the events offered. */
  ghost predicate StoodStill(t: Tables, t': Tables, offered: nat) {
    && t'.events == t.events && t'.archive == t.archive
    && forall q :: q in t'.checkpoints ==> t'.checkpoints[q].sequence == q == 0 < t'.checkpoints[q].index <= offered
  }

  lemma FewerSteps(steps: seq<Step>)
    requires |steps| > 0
    ensures var front := steps[..|steps| - 1];
      && (OffersFirst(steps) ==> OffersFirst(front) && (steps[|steps| - 1].Save? ==> DraftsOf(front) != []))
      && (SavesNothing(steps) <==> SavesNothing(front) && !steps[|steps| - 1].Save?)
  {
    var front := steps[..|steps| - 1];
    assert forall i :: 0 <= i < |front| ==> front[i] == steps[i] && front[..i] == steps[..i];
    if OffersFirst(steps) {
      assert DraftsOf(steps[..|steps| - 1]) == DraftsOf(front);
    }
  }

  /** An attempt none of whose events is accepted stands still, for any interleaving of its steps. */
  lemma {:induction false} StandsStill(s: Setup, m: Minds, t: Tables, steps: seq<Step>)
    requires t.checkpoints == map[] && OffersFirst(steps)
    ensures var x := Course(s, m, Begin(s, m, Opened(t)), steps, false);
      && x.core.journal.sequence == 0 && x.core.journal.index == |DraftsOf(steps)|
      && StoodStill(t, x.core.journal.disk.tables, |DraftsOf(steps)|)
      && (x.core.journal.disk.tables.checkpoints == map[] <==> SavesNothing(steps))
  {
    if |steps| == 0 {
      StillAtFirst(s, m, t);
    } else {
      hide OffersFirst, SavesNothing, Begin;
      var front, step := steps[..|steps| - 1], steps[|steps| - 1];
      FewerSteps(steps);
      StandsStill(s, m, t, front);
      StepsStill(s, m, t, Course(s, m, Begin(s, m, Opened(t)), front, false), step, |DraftsOf(front)|);
    }
  }

  lemma StillAtFirst(s: Setup, m: Minds, t: Tables)
    requires t.checkpoints == map[]
    ensures var x := Begin(s, m, Opened(t));
      x.core.journal.sequence == 0 == x.core.journal.index && StoodStill(t, x.core.journal.disk.tables, 0)
      && x.core.journal.disk.tables.checkpoints == map[]
  {
  }

  lemma StepsStill(s: Setup, m: Minds, t: Tables, x: Session, step: Step, offered: nat)
    requires x.core.journal.sequence == 0 && x.core.journal.index == offered && StoodStill(t, x.core.journal.disk.tables, offered)
    requires step.Save? ==> offered > 0
    ensures var y := Stepped(s, m, x, step, false);
      && y.core.journal.sequence == 0 && y.core.journal.index == offered + (if step.Offer? then 1 else 0)
      && StoodStill(t, y.core.journal.disk.tables, y.core.journal.index)
      && (y.core.journal.disk.tables.checkpoints == map[] <==> x.core.journal.disk.tables.checkpoints == map[] && !step.Save?)
  {
    if step.Save? {
      assert 0 in Stepped(s, m, x, step, false).core.journal.disk.tables.checkpoints;
    }
  }

  /** The log of an attempt all of whose events are accepted, on an empty database: its drafts. */
  lemma {:induction false} LogsItsDrafts(s: Setup, m: Minds, steps: seq<Step>)
    ensures var log := Course(s, m, Begin(s, m, Opened(NoTables)), steps, true).core.Events();
      |log| == |DraftsOf(steps)| && Replays(log, DraftsOf(steps))
  {
    hide Begin, Capture;
    if |steps| == 0 {
      assert Begin(s, m, Opened(NoTables)).core.Events() == [] by { NothingLogged(s, m); }
    } else {
      LogsItsDrafts(s, m, steps[..|steps| - 1]);
    }
  }

  lemma NothingLogged(s: Setup, m: Minds)
    ensures Begin(s, m, Opened(NoTables)).core.Events() == []
  {
  }

  /** An attempt is begun again with the steps of one that got as far as the log `t.events` shows,
      or less far. All it offers may be answered as duplicates, and then it is in memory where the
      first one was after those steps, with a journal that stands still. */
  lemma ExecutedAgain(s: Setup, m: Minds, t: Tables, steps: seq<Step>)
    requires Dense(t.events) && !CanStart(t) && OffersFirst(steps)
    requires var log := Course(s, m, Begin(s, m, Opened(NoTables)), steps, true).core.Events();
      |log| <= |t.events| && forall i :: 0 <= i < |log| ==> log[i].kind == t.events[i].kind && log[i].actor == t.events[i].actor
    ensures MayBeSwallowed(t.events, NextAttempt(t.attempts), DraftsOf(steps))
    ensures var x, y := Course(s, m, Begin(s, m, Opened(NoTables)), steps, true), Course(s, m, Begin(s, m, Opened(t)), steps, false);
      && SameMemory(x, y) && y.core.journal.sequence == 0 && y.core.journal.index == |DraftsOf(steps)|
      && StoodStill(t, y.core.journal.disk.tables, |DraftsOf(steps)|)
  {
    LogsItsDrafts(s, m, steps);
    assert SameMemory(Begin(s, m, Opened(NoTables)), Begin(s, m, Opened(t)));
    hide Begin, Course, OffersFirst, Dense, StoodStill;
    SwallowedWhileReplaying(t.events, NextAttempt(t.attempts), DraftsOf(steps));
    AnswersAside(s, m, Begin(s, m, Opened(NoTables)), Begin(s, m, Opened(t)), steps, true, false);
    StandsStill(s, m, t, steps);
  }

  // ---- with and without a checkpoint ----

  /** Such an attempt, after any steps, leaves the database sound if and only if it stored no
      checkpoint, and then it is a fruitless one. */
  lemma SoundIffNoCheckpoint(s: Setup, h: History, m: Minds, steps: seq<Step>)
    requires Runnable(s) && Orderly(s, h) && !CanStart(After(s, h)) && OffersFirst(steps)
    ensures var t' := Course(s, m, Begin(s, m, Opened(After(s, h))), steps, false).core.journal.disk.tables;
      && (Sound(s, t') <==> SavesNothing(steps))
      && (SavesNothing(steps) ==> var h' := Fruitless(h, t'.attempts, t'.runState); Orderly(s, h') && After(s, h') == t')
  {
    var t := After(s, h);
    EveryHistoryIsSound(s, h);
    hide After, Agrees, SoundLog, Course, Begin, OffersFirst, SavesNothing;
    StandsStill(s, m, t, steps);
    var t' := Course(s, m, Begin(s, m, Opened(t)), steps, false).core.journal.disk.tables;
    if SavesNothing(steps) {
      SoundAlike(s, t, t');
      FruitlessAfter(s, h, t'.attempts, t'.runState);
    } else {
      NotPinned(s, t');
    }
  }

  lemma NotPinned(s: Setup, t: Tables)
    requires t.checkpoints != map[] && forall q :: q in t.checkpoints ==> t.checkpoints[q].sequence == 0 < t.checkpoints[q].index
    ensures !Sound(s, t)
  {
    hide Agrees, SoundLog;
    assert t.checkpoints.Keys != {};
    var q :| q in t.checkpoints;
    assert !Pins(s, t.checkpoints[q], t.events);
  }

  lemma FruitlessAfter(s: Setup, h: History, attempts: map<nat, AttemptRow>, runState: RunState)
    requires Runnable(s)
    ensures After(s, Fruitless(h, attempts, runState)) == After(s, h).(attempts := attempts, runState := runState)
  {
  }

  lemma OnlyOne(d: Disk, c: Checkpoint)
    requires d.tables.checkpoints == map[]
    ensures var t := WithCheckpoint(d, c).tables; CanStart(t) && Latest(t.checkpoints) == Some(c)
  {
    assert WithCheckpoint(d, c).tables.checkpoints.Keys == {c.sequence};
  }

  lemma CutBackToNothing(t: Tables, c: Checkpoint)
    requires Dense(t.events) && c.sequence == 0
    ensures var d := CutBack(Opened(t), c);
      && d.tables.events == [] && forall e :: e in t.events ==> e.id in d.tables.archive && d.tables.archive[e.id] == e
  {
    FilterAll(t.events, From(0));
    FilterNone(t.events, Before(0));
    DistinctIds(t.events);
    hide ArchiveRows, Dense, Filter;
    ArchiveRowsEffect(Opened(t), t.events);
    ArchivedRows(Opened(t), t.events);
  }

  lemma DistinctIds(log: seq<Event>)
    requires Dense(log)
    ensures forall i, j :: 0 <= i < j < |log| ==> log[i].id != log[j].id
  {
  }

  lemma RejoinNothing(s: Setup, m: Minds, t: Tables, c: Checkpoint)
    requires CutBack(Opened(t), c).tables.events == []
    ensures var y := Rejoin(s, m, Opened(t), c);
      && |y.core.Events()| == 1 && y.core.Events()[0].kind == AttemptStarted
      && y.core.Events()[0].key == Some(Key(c.index, AttemptStarted, WORLD_ACTOR))
      && y.core.world == c.world && y.core.journal.disk.tables.archive == CutBack(Opened(t), c).tables.archive
  {
    hide CutBack;
  }

  /** Its memory when it stores its first checkpoint, after some events were offered. */
  function AtSave(s: Setup, m: Minds, t: Tables, steps: seq<Step>): Session {
    Course(s, m, Begin(s, m, Opened(t)), steps, false)
  }

  lemma AtSaveFacts(s: Setup, m: Minds, t: Tables, steps: seq<Step>)
    requires t.checkpoints == map[] && SavesNothing(steps) && DraftsOf(steps) != []
    ensures var x := AtSave(s, m, t, steps);
      && x.core.journal.sequence == 0 && x.core.journal.index == |DraftsOf(steps)|
      && x.core.journal.disk.tables.events == t.events && x.core.journal.disk.tables.checkpoints == map[]
  {
    hide Course, Begin;
    StandsStill(s, m, t, steps);
  }

  /** It stores a checkpoint. The next attempt can start again, from that checkpoint, but the whole
      log is archived, and the first event of the new log has the number of swallowed events as its
      action index and not its position. */
  lemma SwallowedCheckpoint(s: Setup, m: Minds, m': Minds, t: Tables, steps: seq<Step>)
    requires Dense(t.events) && t.checkpoints == map[] && SavesNothing(steps) && DraftsOf(steps) != []
    ensures var x := AtSave(s, m, t, steps);
      var c := Capture(s, m, x);
      var t' := AtSave(s, m, t, steps + [Save]).core.journal.disk.tables;
      var y := Rejoin(s, m', Opened(t'), c);
      && !Sound(s, t') && CanStart(t') && Latest(t'.checkpoints) == Some(c)
      && (forall e :: e in t.events ==> e.id in y.core.journal.disk.tables.archive && y.core.journal.disk.tables.archive[e.id] == e)
      && |y.core.Events()| == 1 && y.core.Events()[0].kind == AttemptStarted
      && y.core.Events()[0].key == Some(Key(|DraftsOf(steps)|, AttemptStarted, WORLD_ACTOR))
      && y.core.world == SnapshotOf(s, x.core.world)
  {
    var x := AtSave(s, m, t, steps);
    var c := Capture(s, m, x);
    assert c.sequence == x.core.journal.sequence && c.index == x.core.journal.index && c.world == SnapshotOf(s, x.core.world);
    var t' := WithCheckpoint(x.core.journal.disk, c).tables;
    assert AtSave(s, m, t, steps + [Save]).core.journal.disk.tables == t' by { SavedLast(s, m, t, steps); }
    hide Course, Sound, Capture, Rejoin, Dense, CutBack, Latest, CanStart, AtSave;
    AtSaveFacts(s, m, t, steps);
    assert t'.events == t.events && t'.checkpoints == map[0 := c];
    OnlyOne(x.core.journal.disk, c);
    NotPinned(s, t');
    CutBackToNothing(t', c);
    RejoinNothing(s, m', t', c);
  }

  lemma SavedLast(s: Setup, m: Minds, t: Tables, steps: seq<Step>)
    ensures var x := AtSave(s, m, t, steps);
      AtSave(s, m, t, steps + [Save]).core.journal.disk == WithCheckpoint(x.core.journal.disk, Capture(s, m, x))
  {
    assert (steps + [Save])[..|steps|] == steps;
    hide Capture, Begin;
  }

  // ---- the attempt after it ----

  lemma {:induction false} RegisterAllStays(c: Core, agents: seq<AgentSpec>)
    ensures Stays(c, RegisterAll(c, agents))
  {
    hide Emit, Stays;
    QuietStays(c, c);
    if |agents| > 0 {
      var n := |agents| - 1;
      RegisterAllStays(c, agents[..n]);
      var c' := RegisterAll(c, agents[..n]);
      var d := PublicDraft(AgentRegistered, agents[n].id, c'.world.time, Registered(agents[n].role));
      EmitStays(c', d);
      StaysOn(c, c', Emit(c', d));
    }
  }

  lemma {:induction false} OpenAllStays(s: Setup, x: Session, agents: seq<Agent>)
    ensures Stays(x.core, OpenAll(s, x, agents).core)
  {
    hide Enqueue, Stays;
    QuietStays(x.core, x.core);
    if |agents| > 0 {
      var n := |agents| - 1;
      OpenAllStays(s, x, agents[..n]);
      var y := OpenAll(s, x, agents[..n]);
      match s.opening(agents[n], ViewOf(s, y.core.world)) {
        case None =>
        case Some(text) =>
          var d := Delivery(WORLD_ACTOR, agents[n], text, map["kind" := "opening"], Private, 0);
          EnqueueStays(s, y.core, d, 0);
          StaysOn(x.core, y.core, Enqueue(s, y.core, d, 0));
      }
    }
  }

  lemma AnnounceGrowsLog(s: Setup, x: Session, from: Option<nat>)
    ensures x.core.Events() <= Announce(s, x, from).core.Events()
  {
    hide RegisterAll;
    RegisterAllStays(Emit(x.core, PublicDraft(RunStarted, WORLD_ACTOR, x.core.world.time, NoBody)), s.agents);
  }

  lemma DriverGrowsLog(s: Setup, m: Minds, x: Session)
    requires Runnable(s)
    ensures x.core.Events() <= RunDriver(s, m, x).0.core.Events()
  {
    hide SessionLoop, EnvLoop, OpenAll;
    if s.driver.SessionDriven? {
      OpenAllStays(s, x, ActiveAgents(s, x.core.world.dropped));
      LoopGrowsLog(s, m, Activate(s, x));
    } else {
      EnvLoopGrowsLog(s, m, x);
    }
  }

  /** An attempt, whatever it found, only continues the log it starts with. */
  lemma DriveGrowsLog(s: Setup, m: Minds, x: Session, from: Option<nat>)
    requires Runnable(s)
    ensures x.core.Events() <= Drive(s, m, x, from).core.Events()
  {
    hide Announce, RunDriver, Conclude;
    AnnounceGrowsLog(s, x, from);
    var y := Announce(s, x, from);
    DriverGrowsLog(s, m, y);
    ConcludeBooks(s, RunDriver(s, m, y).0, RunDriver(s, m, y).1, from);
  }

  /** So the log of the attempt that resumes from such a checkpoint is canonical at no time: it
      begins with an event whose action index is not its position, and everything before is gone. */
  lemma NeverCanonicalAgain(s: Setup, m: Minds, m': Minds, t: Tables, steps: seq<Step>)
    requires Runnable(s) && Dense(t.events) && t.checkpoints == map[] && SavesNothing(steps) && DraftsOf(steps) != []
    ensures var c := Capture(s, m, AtSave(s, m, t, steps));
      var end := Resume(s, m', Opened(AtSave(s, m, t, steps + [Save]).core.journal.disk.tables), c).core;
      && |end.Events()| > 0 && end.Events()[0].kind == AttemptStarted && !Dense(end.Events())
  {
    hide Sound, Dense, Capture, AtSave, Rejoin, Drive, Latest, CanStart, SavesNothing;
    SwallowedCheckpoint(s, m, m', t, steps);
    var c := Capture(s, m, AtSave(s, m, t, steps));
    var y := Rejoin(s, m', Opened(AtSave(s, m, t, steps + [Save]).core.journal.disk.tables), c);
    DriveGrowsLog(s, m', y, Some(c.sequence));
    var log := Drive(s, m', y, Some(c.sequence)).core.Events();
    assert log[0] == y.core.Events()[0];
    IndexIsPosition(log);
  }

  lemma IndexIsPosition(log: seq<Event>)
    requires |log| > 0
    ensures Dense(log) ==> log[0].key == Some(Key(0, log[0].kind, log[0].actor))
  {
  }
}
