/** What holds in every history of a run: any number of attempts, with any agents, each
    crashed after any statement or run to its end. */
module Histories {
  import opened Wrappers
  import opened Contracts
  import opened KernelState
  import opened Sorting
  import opened Scheduler
  import opened Store
  import opened Journals
  import opened WorldRules
  import opened DriverRules
  import opened RunRules
  import opened Invariants
  import opened DriverInvariants
  import opened Recovery

  /** `Then(h, m, cut, marks)`: after `h`, an attempt with agents `m` that dies after its `cut`-th
      statement, or ends by itself before. If it died of an exception the controller may still
      have marked its rows as failed: none, the attempt's, or the run's too.
      `Fruitless(h, attempts, runState)`: an attempt of which only the rows that speak of attempts
      remain. Its events were answered with an error, or as duplicates, and it stored no checkpoint. */
  datatype History =
    | Untouched
    | Then(before: History, minds: Minds, cut: nat, marks: nat)
    | Fruitless(before: History, attempts: map<nat, AttemptRow>, runState: RunState)

  /** The durable states of an attempt. */
  function Durables(s: Setup, m: Minds, t: Tables): seq<Tables>
    requires Runnable(s)
  {
    Attempt(s, m, Opened(t)).core.journal.disk.trail
  }

  function CrashedAt(trail: seq<Tables>, cut: nat, t: Tables): Tables {
    if cut < |trail| then trail[cut] else if |trail| > 0 then trail[|trail| - 1] else t
  }

  function MarkFailed(t: Tables, marks: nat): Tables {
    var t' := if marks == 0 || t.attempts.Keys == {} then t
              else
                var number := Maximum(t.attempts.Keys);
                t.(attempts := t.attempts[number := t.attempts[number].(state := InfraFailed)]);
    if marks <= 1 then t' else t'.(runState := InfraFailed)
  }

  /** What one more attempt leaves in the database. */
  function Left(s: Setup, m: Minds, t: Tables, cut: nat, marks: nat): Tables
    requires Runnable(s)
  {
    MarkFailed(CrashedAt(Durables(s, m, t), cut, t), marks)
  }

  /** What the history leaves in the database. */
  function After(s: Setup, h: History): Tables
    requires Runnable(s)
  {
    match h
    case Untouched => NoTables
    case Then(before, m, cut, marks) => Left(s, m, After(s, before), cut, marks)
    case Fruitless(before, attempts, runState) => After(s, before).(attempts := attempts, runState := runState)
  }

  /** Every attempt found a checkpoint or an empty log, or it was fruitless. What this leaves out
      is an attempt on a log that is not empty and has no checkpoint whose events the store
      answered as duplicates for so long that it stored a checkpoint (see `Swallowed`). */
  ghost predicate Orderly(s: Setup, h: History)
    requires Runnable(s)
  {
    match h
    case Untouched => true
    case Then(before, _, _, _) => Orderly(s, before) && CanStart(After(s, before))
    case Fruitless(before, _, _) => Orderly(s, before) && !CanStart(After(s, before))
  }

  lemma MarkKeepsTables(t: Tables, marks: nat)
    ensures MarkFailed(t, marks).events == t.events && MarkFailed(t, marks).checkpoints == t.checkpoints
  {
  }

  lemma SameRows(s: Setup, a: Anchor, t: Tables, t': Tables)
    requires Sound(s, t) && Keeps(a, t) && t'.events == t.events && t'.checkpoints == t.checkpoints
    ensures Sound(s, t') && Keeps(a, t')
  {
    hide SoundLog, Pins;
  }

  /** The durable states of an attempt that can start. */
  lemma StartedStates(s: Setup, m: Minds, t: Tables, cut: nat)
    requires Runnable(s) && Sound(s, t) && CanStart(t)
    ensures var t' := CrashedAt(Durables(s, m, t), cut, t); Sound(s, t') && Keeps(AnchorOf(t), t')
  {
    hide Sound, Keeps, Faithful, Synced, Attempt, AnchorOf, PhaseOf, AppendOnly;
    AttemptIsSafe(s, m, t);
  }

  lemma AttemptStates(s: Setup, m: Minds, t: Tables, cut: nat, marks: nat)
    requires Runnable(s) && Sound(s, t) && CanStart(t)
    ensures Sound(s, Left(s, m, t, cut, marks)) && Keeps(AnchorOf(t), Left(s, m, t, cut, marks))
  {
    var t' := CrashedAt(Durables(s, m, t), cut, t);
    MarkKeepsTables(t', marks);
    hide Sound, Keeps, Durables, CrashedAt, MarkFailed, AnchorOf;
    StartedStates(s, m, t, cut);
    SameRows(s, AnchorOf(t), t', Left(s, m, t, cut, marks));
  }

  /** The central invariant: whatever happens to a run, its database is sound. */
  lemma {:induction false} EveryHistoryIsSound(s: Setup, h: History)
    requires Runnable(s) && Orderly(s, h)
    ensures Sound(s, After(s, h))
  {
    match h {
      case Untouched =>
      case Then(before, m, cut, marks) =>
        hide Sound, Left;
        EveryHistoryIsSound(s, before);
        AttemptStates(s, m, After(s, before), cut, marks);
      case Fruitless(before, _, _) =>
        hide Sound;
        EveryHistoryIsSound(s, before);
        SoundAlike(s, After(s, before), After(s, h));
    }
  }

  // ---- the canonical log ----

  lemma {:induction false} PhaseMeaning(events: seq<Event>)
    requires !PhaseOf(events).Broken?
    ensures CountKind(events, PayoffAssigned) <= 1 && CountKind(events, VerifierResult) <= 1
    ensures CountKind(events, RunFinished) == if PhaseOf(events).Finished? then 1 else 0
    ensures PhaseOf(events).Working? ==> CountKind(events, PayoffAssigned) == CountKind(events, VerifierResult) == 0
    ensures PhaseOf(events).Paid? ==> CountKind(events, VerifierResult) == 0
    ensures forall i :: 0 <= i < |events| && events[i].kind.RunFinished? ==> i == |events| - 1
  {
    if |events| > 0 {
      var front := events[..|events| - 1];
      PhaseMeaning(front);
      if CountKind(front, RunFinished) == 0 {
        NoneOf(front, RunFinished);
      }
    }
  }

  lemma {:induction false} NoneOf(events: seq<Event>, kind: EventKind)
    requires CountKind(events, kind) == 0
    ensures forall i :: 0 <= i < |events| ==> events[i].kind != kind
  {
    if |events| > 0 {
      var front := events[..|events| - 1];
      NoneOf(front, kind);
      assert forall i :: 0 <= i < |front| ==> events[i] == front[i];
    }
  }

  /** The canonical log of every history: numbered 0..n-1 with the action index as position,
      no idempotency key twice, logical time never falling, at most one payoff assignment,
      one verifier result and one end, and the end last. */
  lemma CanonicalLog(s: Setup, h: History)
    requires Runnable(s) && Orderly(s, h)
    ensures var log := After(s, h).events;
      && (forall i :: 0 <= i < |log| ==> log[i].sequence == i && log[i].key == Some(Key(i, log[i].kind, log[i].actor)))
      && (forall i, j :: 0 <= i < j < |log| ==> log[i].key != log[j].key && log[i].time <= log[j].time)
      && CountKind(log, PayoffAssigned) <= 1 && CountKind(log, VerifierResult) <= 1 && CountKind(log, RunFinished) <= 1
      && (forall i :: 0 <= i < |log| && log[i].kind.RunFinished? ==> i == |log| - 1)
  {
    hide Pins;
    EveryHistoryIsSound(s, h);
    PhaseMeaning(After(s, h).events);
  }

  /** Faults, payoffs and verdicts are in nobody's history but the omniscient one. */
  lemma SecretsStaySecret(s: Setup, h: History, i: nat, view: string)
    requires Runnable(s) && Orderly(s, h) && i < |After(s, h).events| && view != OMNISCIENT_VIEW
    requires SecretKind(After(s, h).events[i].kind)
    ensures After(s, h).events[i].Project(view) == None
  {
    hide Pins;
    EveryHistoryIsSound(s, h);
  }

  // ---- checkpoints ----

  /** Every stored checkpoint describes the prefix of the log it names: its state is the
      initial state overlaid with the prefix's changes, nothing of the end is in the prefix,
      every item scheduled is queued, popped or removed and was counted once, every queued
      item may still be delivered, and the clock has not run behind the log. */
  lemma CheckpointsDescribeTheLog(s: Setup, h: History, q: nat)
    requires Runnable(s) && Orderly(s, h) && q in After(s, h).checkpoints
    ensures var t := After(s, h); var c := t.checkpoints[q];
      && c.sequence == c.index == q <= |t.events|
      && c.world.state == s.initialState + PlaybackState(t.events[..q])
      && CountKind(t.events[..q], PayoffAssigned) == CountKind(t.events[..q], VerifierResult)
           == CountKind(t.events[..q], RunFinished) == 0
      && multiset(Map(c.ledger.posted, ItemOf()))
           == multiset(c.world.queue) + multiset(c.ledger.popped) + multiset(c.ledger.removed)
      && |c.world.queue| + |c.ledger.popped| + |c.ledger.removed| == c.world.counters.messages + c.world.counters.duplicates
      && (forall i :: i in c.world.queue ==> Deliverable(s, c.world.dropped, i.delivery))
      && (forall i :: 0 <= i < q ==> t.events[i].time <= c.world.time)
  {
    hide After, Agrees, Deliverable, PlaybackState, CountKind, PhaseOf;
    Pinned(s, h, q);
    var t := After(s, h);
    var c := t.checkpoints[q];
    PinnedBooks(s, c, t.events[..q]);
    PinnedWork(s, c, t.events[..q]);
    PhaseMeaning(t.events[..q]);
    forall i | 0 <= i < q ensures t.events[i].time <= c.world.time {
      assert t.events[..q][i] == t.events[i];
    }
  }

  /** Checkpoint `q` of a history's database agrees with the log it covers. */
  lemma Pinned(s: Setup, h: History, q: nat)
    requires Runnable(s) && Orderly(s, h) && q in After(s, h).checkpoints
    ensures var t := After(s, h);
      && t.checkpoints[q].sequence == t.checkpoints[q].index == q <= |t.events|
      && Agrees(s, t.checkpoints[q].world, t.checkpoints[q].ledger, NoDebt, t.events[..q])
  {
    hide Agrees, After, SoundLog;
    EveryHistoryIsSound(s, h);
    assert Pins(s, After(s, h).checkpoints[q], After(s, h).events);
  }

  lemma PinnedWork(s: Setup, c: Checkpoint, events: seq<Event>)
    requires Agrees(s, c.world, c.ledger, NoDebt, events)
    ensures PhaseOf(events) == Working && forall i :: 0 <= i < |events| ==> events[i].time <= c.world.time
    ensures forall i :: i in c.world.queue ==> Deliverable(s, c.world.dropped, i.delivery)
  {
    hide Mirrors, Stocked, Taken, Delayed, Matched, Budgeted, Tallied, PhaseOf, Deliverable;
  }

  lemma PinnedBooks(s: Setup, c: Checkpoint, events: seq<Event>)
    requires Agrees(s, c.world, c.ledger, NoDebt, events)
    ensures c.world.state == s.initialState + PlaybackState(events)
    ensures multiset(Map(c.ledger.posted, ItemOf()))
         == multiset(c.world.queue) + multiset(c.ledger.popped) + multiset(c.ledger.removed)
    ensures |c.world.queue| + |c.ledger.popped| + |c.ledger.removed| == c.world.counters.messages + c.world.counters.duplicates
  {
    hide NotAhead, WellAddressed, Taken, Delayed, Matched, Budgeted, Tallied, PhaseOf, PlaybackState;
    assert (s.initialState + PlaybackState(events)) + map[] == s.initialState + PlaybackState(events);
    var all := multiset(c.world.queue) + multiset(c.ledger.popped) + multiset(c.ledger.removed);
    assert |all| == |c.world.queue| + |c.ledger.popped| + |c.ledger.removed|;
    assert |multiset(Map(c.ledger.posted, ItemOf()))| == |c.ledger.posted|;
  }

  ghost predicate Continues(h: History, later: History) {
    later == h || (!later.Untouched? && Continues(h, later.before))
  }

  lemma SoundPin(s: Setup, t: Tables, q: nat)
    requires Sound(s, t) && q in t.checkpoints
    ensures q <= |t.events|
  {
    hide Agrees, SoundLog;
  }

  /** One more attempt alters neither a stored checkpoint nor the prefix of the log it pins. */
  lemma PinnedNext(s: Setup, m: Minds, t: Tables, cut: nat, marks: nat, q: nat)
    requires Runnable(s) && Sound(s, t) && CanStart(t) && q in t.checkpoints
    ensures var t' := Left(s, m, t, cut, marks);
      && q in t'.checkpoints && t'.checkpoints[q] == t.checkpoints[q]
      && q <= |t.events| && q <= |t'.events| && t'.events[..q] == t.events[..q]
  {
    hide Sound, Pins, Left, Supersede;
    AttemptStates(s, m, t, cut, marks);
    var c := Latest(t.checkpoints).value;
    LatestIsPinned(s, t, c);
    SoundPin(s, t, q);
    SoundPin(s, t, c.sequence);
    var t' := Left(s, m, t, cut, marks);
    assert t.events[..c.sequence] <= t'.events;
    assert t'.events[..q] == t.events[..c.sequence][..q] == t.events[..q];
  }

  /** Once stored, a checkpoint and the prefix of the log it pins are never altered again. */
  lemma {:induction false} PinnedForever(s: Setup, h: History, later: History, q: nat)
    requires Runnable(s) && Orderly(s, later) && Continues(h, later)
    requires q in After(s, h).checkpoints
    ensures q in After(s, later).checkpoints && After(s, later).checkpoints[q] == After(s, h).checkpoints[q]
    ensures q <= |After(s, h).events| && q <= |After(s, later).events|
    ensures After(s, later).events[..q] == After(s, h).events[..q]
  {
    hide Sound, Left;
    if later == h {
      EveryHistoryIsSound(s, h);
      SoundPin(s, After(s, h), q);
    } else {
      PinnedForever(s, h, later.before, q);
      EveryHistoryIsSound(s, later.before);
      assert later.Then?;
      PinnedNext(s, later.minds, After(s, later.before), later.cut, later.marks, q);
    }
  }

  // ---- at most once ----

  /** The ledger behind the canonical log: that of the attempt that wrote its last part. */
  function LedgerOf(s: Setup, h: History): Ledger
    requires Runnable(s)
  {
    match h
    case Untouched => NewLedger(s)
    case Then(before, m, cut, _) =>
      var t := After(s, before);
      if cut + 1 < |AnchorOf(t).start| then LedgerOf(s, before) else Attempt(s, m, Opened(t)).core.ledger
    case Fruitless(before, _, _) => LedgerOf(s, before)
  }

  /** The k-th delivered event of the log is the k-th item that was handed over, and the items
      handed over are among the items scheduled, each used up once. */
  ghost predicate DeliveredAtMostOnce(l: Ledger, log: seq<Event>) {
    && |Deliveries(log)| <= |l.handed|
    && (forall k :: 0 <= k < |Deliveries(log)| ==> Shows(Deliveries(log)[k], l.handed[k]))
    && multiset(l.handed) <= multiset(Map(l.posted, ItemOf()))
  }

  lemma {:induction false} DeliveriesOfPrefix(short: seq<Event>, long: seq<Event>)
    requires short <= long
    ensures Deliveries(short) <= Deliveries(long)
  {
    FilterConcat(short, long[|short|..], IsDelivery());
    assert long == short + long[|short|..];
  }

  lemma FaithfulMeansOnce(s: Setup, w: WorldState, l: Ledger, debt: Debt, events: seq<Event>, log: seq<Event>)
    requires Faithful(s, w, l, debt, events) && log <= events
    ensures DeliveredAtMostOnce(l, log)
  {
    hide Mirrors, NotAhead, WellAddressed, Delayed, Budgeted, Tallied;
    DeliveriesOfPrefix(log, events);
  }

  lemma ArchivingKeepsLog(d: Disk, sequence: nat, i: nat)
    requires |d.trail| == 1 && d.trail[0] == d.tables
    requires i + 1 < |Supersede(d, sequence).trail|
    ensures Supersede(d, sequence).trail[i].events == d.tables.events
  {
    SupersedeTrail(d, sequence);
    var rows := Filter(d.tables.events, From(sequence));
    if i > 0 {
      assert Supersede(d, sequence).trail[|d.trail| + i - 1] == Interrupted(d, sequence, i);
      ArchiveRowsEffect(d, rows[..i]);
    }
  }

  /** While the resumed attempt is still archiving, the log is the one it found. */
  lemma EarlyCrash(s: Setup, m: Minds, t: Tables, cut: nat)
    requires Runnable(s) && Sound(s, t) && CanStart(t) && cut + 1 < |AnchorOf(t).start|
    ensures CrashedAt(Durables(s, m, t), cut, t).events == t.events
  {
    hide Sound, Faithful, Attempt, Synced, Keeps, AppendOnly, Supersede;
    AttemptIsSafe(s, m, t);
    var c := Latest(t.checkpoints).value;
    ArchivingKeepsLog(Opened(t), c.sequence, cut);
    assert Durables(s, m, t)[cut] == AnchorOf(t).start[cut];
  }

  /** Later, the log is a prefix of the one this attempt would end with. */
  lemma LateCrash(s: Setup, m: Minds, t: Tables, cut: nat)
    requires Runnable(s) && Sound(s, t) && CanStart(t) && cut + 1 >= |AnchorOf(t).start|
    ensures var x := Attempt(s, m, Opened(t));
      && CrashedAt(Durables(s, m, t), cut, t).events <= x.core.Events()
      && Faithful(s, x.core.world, x.core.ledger, Debt(map[], NoResources, []), x.core.Events())
  {
    hide Sound, Faithful, Attempt, Synced, Keeps, AnchorOf;
    AttemptIsSafe(s, m, t);
  }

  lemma LogAfter(s: Setup, before: History, m: Minds, cut: nat, marks: nat)
    requires Runnable(s)
    ensures var t := After(s, before);
      After(s, Then(before, m, cut, marks)).events == CrashedAt(Durables(s, m, t), cut, t).events
  {
    var t := After(s, before);
    MarkKeepsTables(CrashedAt(Durables(s, m, t), cut, t), marks);
    hide Durables, CrashedAt, MarkFailed;
  }

  lemma LedgerAfter(s: Setup, before: History, m: Minds, cut: nat, marks: nat)
    requires Runnable(s)
    ensures var t := After(s, before);
      LedgerOf(s, Then(before, m, cut, marks))
        == if cut + 1 < |AnchorOf(t).start| then LedgerOf(s, before) else Attempt(s, m, Opened(t)).core.ledger
  {
    hide After, CanStart, AnchorOf, Attempt;
  }

  lemma NextAtMostOnce(s: Setup, before: History, m: Minds, cut: nat, marks: nat)
    requires Runnable(s) && Sound(s, After(s, before)) && CanStart(After(s, before))
    requires DeliveredAtMostOnce(LedgerOf(s, before), After(s, before).events)
    ensures var h := Then(before, m, cut, marks); DeliveredAtMostOnce(LedgerOf(s, h), After(s, h).events)
  {
    hide After, LedgerOf, Sound, Faithful, DeliveredAtMostOnce, Attempt, Durables, CrashedAt, AnchorOf, CanStart;
    var t, h := After(s, before), Then(before, m, cut, marks);
    LogAfter(s, before, m, cut, marks);
    LedgerAfter(s, before, m, cut, marks);
    if cut + 1 < |AnchorOf(t).start| {
      EarlyCrash(s, m, t, cut);
    } else {
      LateCrash(s, m, t, cut);
      var x := Attempt(s, m, Opened(t));
      FaithfulMeansOnce(s, x.core.world, x.core.ledger, Debt(map[], NoResources, []), x.core.Events(), After(s, h).events);
    }
  }

  /** At most once, in every history: each delivered event of the canonical log is a delivery
      of its own scheduled item, none before the item was due. */
  lemma {:induction false} AtMostOnce(s: Setup, h: History)
    requires Runnable(s) && Orderly(s, h)
    ensures DeliveredAtMostOnce(LedgerOf(s, h), After(s, h).events)
  {
    match h {
      case Untouched =>
      case Then(before, m, cut, marks) =>
        EveryHistoryIsSound(s, before);
        AtMostOnce(s, before);
        hide After, LedgerOf, DeliveredAtMostOnce;
        NextAtMostOnce(s, before, m, cut, marks);
      case Fruitless(before, _, _) =>
        AtMostOnce(s, before);
        hide DeliveredAtMostOnce;
    }
  }
}
