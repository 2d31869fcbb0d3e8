/** Where the checkpoints of a session run come from: each one that is stored was written by a
    session in the middle of some round, or at the very end of one. */
module Writers {
  import opened Wrappers
  import opened Contracts
  import opened KernelState
  import opened Sorting
  import opened Scheduler
  import opened Journals
  import opened WorldRules
  import opened DriverRules
  import opened RunRules
  import opened DriverInvariants
  import opened Punctuality
  import opened Growth
  import opened Books
  import opened Equivalence
  import opened Resumption

  /** An agent whose cursor no checkpoint holds stays where it starts. */
  ghost predicate Recoverable(m: Minds) {
    forall a :: a in m.initial ==> a in m.restorable || forall r: Request :: m.invoke(a, m.initial[a], r).memo == m.initial[a]
  }

  /** Every agent has its cursor, and then no cursor is lost by a resume. */
  ghost predicate Kept(m: Minds, memos: map<Agent, Memo>) {
    memos.Keys == m.initial.Keys && (Recoverable(m) ==> Restorable(m, m, memos))
  }

  lemma KeptFromStart(m: Minds, saved: map<Agent, Memo>)
    requires saved.Keys <= m.restorable
    ensures Kept(m, m.initial) && Kept(m, RestoreMemos(m, saved))
  {
  }

  lemma KeptWhenAsked(m: Minds, memos: map<Agent, Memo>, agent: Agent, r: Request)
    requires Kept(m, memos) && agent in m.initial
    ensures Kept(m, memos[agent := m.invoke(agent, memos[agent], r).memo])
  {
  }

  /** Inside a round: what was due was popped, everybody takes part, and the journal stands at the end of the log. */
  ghost predicate Primed(m: Minds, x: Session) {
    && x.driver.activated != [] && Kept(m, x.memos)
    && Pending(x.core.world) && x.core.world.dropped == {}
    && x.core.journal.sequence == |x.core.Events()|
  }

  /** A session about to write a checkpoint. */
  ghost predicate Writer(m: Minds, z: Session) {
    Primed(m, z) && z.sinceCheckpoint == 0
  }

  /** `w` is `y` later in the same round: the same session, or one that has done some work since. */
  ghost predicate Onward(y: Session, w: Session) {
    Stays(y.core, w.core) && (w == y || |Deeds(w.core.Events())| > |Deeds(y.core.Events())|)
  }

  /** The checkpoints written in the round so far. */
  ghost function Written(s: Setup, m: Minds, w: Session): iset<Checkpoint> {
    iset z | Writer(m, z) && Onward(SaveCheckpoint(s, m, z), w) :: Capture(s, m, z)
  }

  ghost predicate AllIn(d: Disk, known: iset<Checkpoint>) {
    && (forall q :: q in d.tables.checkpoints ==> d.tables.checkpoints[q] in known)
    && forall i, q :: 0 <= i < |d.trail| && q in d.trail[i].checkpoints ==> d.trail[i].checkpoints[q] in known
  }

  lemma AllInMore(d: Disk, known: iset<Checkpoint>, more: iset<Checkpoint>)
    requires AllIn(d, known) && known <= more
    ensures AllIn(d, more)
  {
  }

  lemma AllInSame(d: Disk, d': Disk, known: iset<Checkpoint>)
    requires AllIn(d, known) && SameCheckpoints(d, d')
    ensures AllIn(d', known)
  {
    forall i, q | 0 <= i < |d'.trail| && q in d'.trail[i].checkpoints ensures d'.trail[i].checkpoints[q] in known {
      if i < |d.trail| {
        assert d'.trail[i] == d.trail[i];
      }
    }
  }

  lemma OnwardTwice(a: Session, b: Session, c: Session)
    requires Onward(a, b) && Onward(b, c)
    ensures Onward(a, c)
  {
    hide Deeds, Stays;
    StaysOn(a.core, b.core, c.core);
  }

  lemma WrittenOnward(s: Setup, m: Minds, y: Session, w: Session)
    requires Onward(y, w)
    ensures Written(s, m, y) <= Written(s, m, w)
  {
    hide Onward, SaveCheckpoint, Capture, Writer;
    forall c | c in Written(s, m, y) ensures c in Written(s, m, w) {
      var z :| Writer(m, z) && Onward(SaveCheckpoint(s, m, z), y) && c == Capture(s, m, z);
      OnwardTwice(SaveCheckpoint(s, m, z), y, w);
    }
  }

  // ---- one step ----

  lemma PrimedOn(m: Minds, x: Session, c: Core)
    requires Primed(m, x) && Later(x.core, c) && Stays(x.core, c) && c.world.dropped == x.core.world.dropped
    ensures Primed(m, x.(core := c))
  {
    hide Pending;
  }

  lemma ChargeAside(c: Core, em: Emission)
    ensures Charge(c, em).journal == c.journal && Charge(c, em).world.time == c.world.time
    ensures Charge(c, em).world.dropped == c.world.dropped
  {
    hide ResourceDelta.Plus;
  }

  /** One emission, handled but not yet followed by a checkpoint. */
  lemma EmissionStep(s: Setup, m: Minds, x: Session, agent: Agent, em: Emission, invocation: nat)
    requires Unhurried(s) && Primed(m, x)
    ensures var y := x.(core := HandleEmission(s, Charge(x.core, em), agent, em, invocation));
      && Primed(m, y) && SameCheckpoints(x.core.journal.disk, y.core.journal.disk)
      && Stays(x.core, y.core) && |Deeds(y.core.Events())| > |Deeds(x.core.Events())|
  {
    var c := Charge(x.core, em);
    var c' := HandleEmission(s, c, agent, em, invocation);
    assert Pending(x.core.world) by { hide Deeds, Stays; }
    assert MaybeCheckpoint(s, m, x.(core := c')).core.world == c'.world;
    ChargeAside(x.core, em);
    hide Unhurried, HandleEmission, Charge, Deeds, Stays, MaybeCheckpoint, Primed, SameCheckpoints;
    TakeEmissionLater(s, m, x, agent, em, invocation);
    QuietStays(x.core, c);
    HandleEmissionStays(s, c, agent, em, invocation);
    StaysOn(x.core, c, c');
    HandleEmissionBooks(s, c, agent, em, invocation);
    EmissionIsWork(s, c, agent, em, invocation);
    PrimedOn(m, x, c');
  }

  /** A possible checkpoint: what is newly stored was written here. */
  lemma SavePoint(s: Setup, m: Minds, y: Session, known: iset<Checkpoint>)
    requires Primed(m, y) && AllIn(y.core.journal.disk, known)
    ensures var r := MaybeCheckpoint(s, m, y);
      && Primed(m, r) && Stays(y.core, r.core) && AllIn(r.core.journal.disk, known + Written(s, m, r))
  {
    hide Pending, Stays, Written, SnapshotOf;
    MaybeCheckpointStays(s, m, y);
    var r := MaybeCheckpoint(s, m, y);
    if y.sinceCheckpoint + 1 >= s.limits.checkpointEvery {
      var z := y.(sinceCheckpoint := 0);
      assert Writer(m, z) && r == SaveCheckpoint(s, m, z);
      WrittenHere(s, m, z);
      SavedDisk(s, m, z, known);
    } else {
      AllInMore(y.core.journal.disk, known, known + Written(s, m, r));
    }
  }

  lemma WrittenHere(s: Setup, m: Minds, z: Session)
    requires Writer(m, z)
    ensures Capture(s, m, z) in Written(s, m, SaveCheckpoint(s, m, z))
  {
    hide Writer, SaveCheckpoint, Capture;
    QuietStays(SaveCheckpoint(s, m, z).core, SaveCheckpoint(s, m, z).core);
  }

  lemma SavedDisk(s: Setup, m: Minds, z: Session, known: iset<Checkpoint>)
    requires AllIn(z.core.journal.disk, known)
    requires Capture(s, m, z) in Written(s, m, SaveCheckpoint(s, m, z))
    ensures AllIn(SaveCheckpoint(s, m, z).core.journal.disk, known + Written(s, m, SaveCheckpoint(s, m, z)))
  {
    hide Written, Capture;
  }

  // ---- one round ----

  /** What a part of a round leaves behind. */
  ghost predicate Tracked(s: Setup, m: Minds, x: Session, w: Session, known: iset<Checkpoint>) {
    Primed(m, w) && Onward(x, w) && AllIn(w.core.journal.disk, known + Written(s, m, w))
  }

  /** A part, and then another part. */
  lemma TrackedOn(s: Setup, m: Minds, x: Session, y: Session, w: Session, known: iset<Checkpoint>)
    requires Tracked(s, m, x, y, known) && Tracked(s, m, y, w, known + Written(s, m, y))
    ensures Tracked(s, m, x, w, known)
  {
    hide Primed, Onward, Written, AllIn;
    OnwardTwice(x, y, w);
    WrittenOnward(s, m, y, w);
    AllInMore(w.core.journal.disk, known + Written(s, m, y) + Written(s, m, w), known + Written(s, m, w));
  }

  lemma NothingTracked(s: Setup, m: Minds, x: Session, known: iset<Checkpoint>)
    requires Primed(m, x) && AllIn(x.core.journal.disk, known)
    ensures Tracked(s, m, x, x, known)
  {
    hide Primed, Written;
    QuietStays(x.core, x.core);
    AllInMore(x.core.journal.disk, known, known + Written(s, m, x));
  }

  /** Work without a checkpoint, and then a possible checkpoint. */
  lemma WorkThenSave(s: Setup, m: Minds, x: Session, y: Session, known: iset<Checkpoint>)
    requires AllIn(x.core.journal.disk, known) && SameCheckpoints(x.core.journal.disk, y.core.journal.disk)
    requires Primed(m, y) && Stays(x.core, y.core) && |Deeds(y.core.Events())| > |Deeds(x.core.Events())|
    ensures Tracked(s, m, x, MaybeCheckpoint(s, m, y), known)
  {
    hide Primed, Stays, Deeds, Written, AllIn, SameCheckpoints, MaybeCheckpoint;
    AllInSame(x.core.journal.disk, y.core.journal.disk, known);
    SavePoint(s, m, y, known);
    var r := MaybeCheckpoint(s, m, y);
    StaysOn(x.core, y.core, r.core);
    GrowthIsMonotone(y.core, r.core);
  }

  lemma {:induction false} StreamWrites(
      s: Setup, m: Minds, x: Session, agent: Agent, emissions: seq<Emission>, invocation: nat, known: iset<Checkpoint>)
    requires Unhurried(s) && Primed(m, x) && AllIn(x.core.journal.disk, known)
    ensures Tracked(s, m, x, RunStream(s, m, x, agent, emissions, invocation), known)
    decreases |emissions|
  {
    hide Unhurried, Primed, AllIn, Charge, HandleEmission, MaybeCheckpoint, Written, Onward;
    if |emissions| == 0 {
      NothingTracked(s, m, x, known);
    } else {
      EmissionStep(s, m, x, agent, emissions[0], invocation);
      var y := x.(core := HandleEmission(s, Charge(x.core, emissions[0]), agent, emissions[0], invocation));
      WorkThenSave(s, m, x, y, known);
      var x' := MaybeCheckpoint(s, m, y);
      if !x'.core.world.finished {
        StreamWrites(s, m, x', agent, emissions[1..], invocation, known + Written(s, m, x'));
        hide Tracked;
        TrackedOn(s, m, x, x', RunStream(s, m, x', agent, emissions[1..], invocation), known);
      }
    }
  }

  /** The session in which an agent has been asked: the invocation is logged, its cursor is new. */
  lemma AskStep(m: Minds, x: Session, agent: Agent, draft: Draft, invocation: nat, memo: Memo)
    requires Primed(m, x) && draft.kind.AgentInvoked? && draft.time == x.core.world.time && Kept(m, x.memos[agent := memo])
    ensures var y := x.(core := Emit(x.core, draft), driver := x.driver.(invocations := invocation), memos := x.memos[agent := memo]);
      && Primed(m, y) && SameCheckpoints(x.core.journal.disk, y.core.journal.disk)
      && Stays(x.core, y.core) && |Deeds(y.core.Events())| > |Deeds(x.core.Events())|
  {
    hide Pending;
    OneMore(x.core, draft);
    hide Deeds;
    EmitStays(x.core, draft);
    EmitBooks(x.core, draft);
  }

  lemma KeptInRound(m: Minds, x: Session)
    requires Primed(m, x)
    ensures Kept(m, x.memos)
  {
  }

  lemma AfterWork(s: Setup, m: Minds, x: Session, y: Session, w: Session, known: iset<Checkpoint>)
    requires Stays(x.core, y.core) && |Deeds(y.core.Events())| > |Deeds(x.core.Events())| && Tracked(s, m, y, w, known)
    ensures Tracked(s, m, x, w, known)
  {
    hide Primed, Stays, Deeds, Written, AllIn;
    StaysOn(x.core, y.core, w.core);
    GrowthIsMonotone(y.core, w.core);
  }

  lemma InvokeWrites(s: Setup, m: Minds, x: Session, agent: Agent, d: Delivery, cause: EventId, known: iset<Checkpoint>)
    requires Unhurried(s) && Primed(m, x) && AllIn(x.core.journal.disk, known) && agent in m.initial
    ensures Tracked(s, m, x, Invoke(s, m, x, agent, d, cause), known)
  {
    hide Unhurried, Primed, AllIn, Emit, RunStream, Tracked, RequestFor, Deeds, Stays, SameCheckpoints, Recoverable, Restorable;
    var invocation := x.driver.invocations + 1;
    var draft := Draft(AgentInvoked, agent, x.core.world.time, [], Some(cause), Private, [agent], Invoked(invocation, d.content), NoResources);
    var reply := m.invoke(agent, MemoOf(x, agent), RequestFor(s, x, agent, d, invocation));
    KeptInRound(m, x);
    KeptWhenAsked(m, x.memos, agent, RequestFor(s, x, agent, d, invocation));
    AskStep(m, x, agent, draft, invocation, reply.memo);
    var x1 := x.(core := Emit(x.core, draft), driver := x.driver.(invocations := invocation), memos := x.memos[agent := reply.memo]);
    AllInSame(x.core.journal.disk, x1.core.journal.disk, known);
    StreamWrites(s, m, x1, agent, reply.emissions, invocation, known);
    AfterWork(s, m, x, x1, RunStream(s, m, x1, agent, reply.emissions, invocation), known);
  }

  lemma HandStep(m: Minds, x: Session, item: Item)
    requires Primed(m, x)
    ensures var y := x.(core := Hand(x.core, item));
      && Primed(m, y) && SameCheckpoints(x.core.journal.disk, y.core.journal.disk)
      && Stays(x.core, y.core) && |Deeds(y.core.Events())| > |Deeds(x.core.Events())|
  {
    HandStays(x.core, item);
    HandBooks(x.core, item);
    OneMore(x.core.(ledger := x.core.ledger.(handed := x.core.ledger.handed + [item])), DeliveredDraft(item, x.core.world.time));
    assert Primed(m, x.(core := Hand(x.core, item))) by {
      hide Pending;
    }
    hide Primed, Deeds;
  }

  lemma DeliverWrites(s: Setup, m: Minds, x: Session, item: Item, known: iset<Checkpoint>)
    requires Unhurried(s) && Primed(m, x) && AllIn(x.core.journal.disk, known)
    ensures Tracked(s, m, x, DeliverAndInvoke(s, m, x, item), known)
  {
    assert item.delivery.recipient !in x.core.world.dropped;
    hide Unhurried, Primed, AllIn, Hand, Invoke, MaybeCheckpoint, Written, Onward;
    HandStep(m, x, item);
    var y := x.(core := Hand(x.core, item));
    WorkThenSave(s, m, x, y, known);
    var x' := MaybeCheckpoint(s, m, y);
    if item.delivery.recipient in m.initial {
      var cause := EventId(x.core.journal.sequence);
      InvokeWrites(s, m, x', item.delivery.recipient, item.delivery, cause, known + Written(s, m, x'));
      hide Tracked;
      TrackedOn(s, m, x, x', Invoke(s, m, x', item.delivery.recipient, item.delivery, cause), known);
    }
  }

  /** Every checkpoint stored after a batch was stored before it, or written in it by a session
      from which the batch went on to its end. */
  lemma {:induction false} BatchWrites(s: Setup, m: Minds, x: Session, items: seq<Item>, known: iset<Checkpoint>)
    requires Unhurried(s) && Primed(m, x) && AllIn(x.core.journal.disk, known)
    ensures Tracked(s, m, x, RunBatch(s, m, x, items), known)
    decreases |items|
  {
    hide Unhurried, Primed, AllIn, DeliverAndInvoke, Written, Onward;
    if |items| == 0 {
      NothingTracked(s, m, x, known);
    } else {
      DeliverWrites(s, m, x, items[0], known);
      var x' := DeliverAndInvoke(s, m, x, items[0]);
      if !x'.core.world.finished {
        BatchWrites(s, m, x', items[1..], known + Written(s, m, x'));
        hide Tracked;
        TrackedOn(s, m, x, x', RunBatch(s, m, x', items[1..]), known);
      }
    }
  }

  // ---- the whole loop ----

  /** The checkpoints written on the way to the end `u` of a session loop: by some session, in a
      round that went on from it to its end, from which the loop went on to `u`. */
  ghost function Explained(s: Setup, m: Minds, u: (Session, Outcome)): iset<Checkpoint> {
    iset z, w | Writer(m, z) && Onward(SaveCheckpoint(s, m, z), w) && SessionLoop(s, m, EndRound(s, w)) == u :: Capture(s, m, z)
  }

  /** At the head of an iteration. */
  ghost predicate AtHead(m: Minds, x: Session) {
    && (x.driver.activated != [] || x.core.world.queue == []) && Kept(m, x.memos)
    && x.core.world.dropped == {} && x.core.journal.sequence == |x.core.Events()|
  }

  lemma WrittenIsExplained(s: Setup, m: Minds, w: Session)
    ensures Written(s, m, w) <= Explained(s, m, SessionLoop(s, m, EndRound(s, w)))
  {
    hide Writer, Onward, SessionLoop, EndRound, SaveCheckpoint, Capture;
  }

  lemma PopPrimes(s: Setup, m: Minds, x: Session)
    requires AtHead(m, x) && PopDue(s, x.core).1 != []
    ensures Primed(m, x.(core := PopDue(s, x.core).0))
  {
    PopLeavesPending(s, x.core);
    PopDueConserves(s.digest, x.core.world.queue, x.core.world.time);
  }

  lemma RoundHead(s: Setup, m: Minds, w: Session)
    requires Primed(m, w)
    ensures AtHead(m, EndRound(s, w)) && SameCheckpoints(w.core.journal.disk, EndRound(s, w).core.journal.disk)
  {
    hide Pending;
  }

  lemma SkipHead(s: Setup, m: Minds, x: Session, time: int)
    requires AtHead(m, x)
    ensures var y := x.(core := AdvanceTo(PopDue(s, x.core).0, time));
      PopDue(s, x.core).1 == [] ==> AtHead(m, y) && SameCheckpoints(x.core.journal.disk, y.core.journal.disk)
  {
    hide Popped;
    FilterElements(x.core.world.queue, DueAfter(x.core.world.time));
  }

  /** Every checkpoint stored at the end of a session loop was known before or is explained. */
  lemma {:induction false} LoopWrites(s: Setup, m: Minds, x: Session, known: iset<Checkpoint>)
    requires Unhurried(s) && AtHead(m, x) && AllIn(x.core.journal.disk, known)
    ensures var u := SessionLoop(s, m, x); AllIn(u.0.core.journal.disk, known + Explained(s, m, u))
    decreases if x.core.journal.sequence < s.limits.maxEvents then s.limits.maxEvents - x.core.journal.sequence else 0,
              |x.core.world.queue|
  {
    hide Unhurried, AllIn, RunBatch, LimitHit, NextDue, PopDue, AdvanceTo, EndRound, AtHead, Explained, Written;
    var u := SessionLoop(s, m, x);
    AllInMore(x.core.journal.disk, known, known + Explained(s, m, u));
    if !x.core.world.finished && LimitHit(s, x.core).None? {
      LimitLeavesRoom(s, x.core);
      PopShrinks(s, x.core);
      var (core, due) := PopDue(s, x.core);
      var popped := x.(core := core);
      PopDisk(s, x.core);
      if |due| > 0 {
        PopPrimes(s, m, x);
        RoundWrites(s, m, popped, due, known);
        var w := RunBatch(s, m, popped, due);
        EndRoundProgress(s, popped, w);
        LoopWrites(s, m, EndRound(s, w), known + Explained(s, m, u));
        AllInMore(u.0.core.journal.disk, known + Explained(s, m, u) + Explained(s, m, u), known + Explained(s, m, u));
      } else {
        NextDueIsLater(core.world.queue, core.world.time);
        if NextDue(core.world.queue).Some? && NextDue(core.world.queue).value <= s.limits.maxLogicalTime {
          var next := NextDue(core.world.queue).value;
          AdvanceProgress(core, next);
          SkipHead(s, m, x, next);
          AllInSame(x.core.journal.disk, AdvanceTo(core, next).journal.disk, known);
          LoopWrites(s, m, popped.(core := AdvanceTo(core, next)), known);
        }
      }
    }
  }

  lemma PopDisk(s: Setup, c: Core)
    ensures PopDue(s, c).0.journal == c.journal
  {
  }

  lemma RoundWrites(s: Setup, m: Minds, popped: Session, due: seq<Item>, known: iset<Checkpoint>)
    requires Unhurried(s) && Primed(m, popped) && AllIn(popped.core.journal.disk, known)
    ensures var y := EndRound(s, RunBatch(s, m, popped, due));
      AtHead(m, y) && AllIn(y.core.journal.disk, known + Explained(s, m, SessionLoop(s, m, y)))
  {
    hide Unhurried, AllIn, RunBatch, EndRound, AtHead, Explained, Written, SessionLoop, Primed, SameCheckpoints;
    BatchWrites(s, m, popped, due, known);
    var w := RunBatch(s, m, popped, due);
    WrittenIsExplained(s, m, w);
    AllInMore(w.core.journal.disk, known + Written(s, m, w), known + Explained(s, m, SessionLoop(s, m, EndRound(s, w))));
    RoundHead(s, m, w);
    AllInSame(w.core.journal.disk, EndRound(s, w).core.journal.disk, known + Explained(s, m, SessionLoop(s, m, EndRound(s, w))));
  }
}
