/** Event commitment (src/testbed_kernel/journal.py). */
module Journals {
  import opened Wrappers
  import opened Contracts
  import opened KernelState
  import opened Store

  /** What a caller of `commit` supplies. */
  datatype Draft = Draft(
    kind: EventKind, actor: Agent, time: int, targets: seq<Agent>, causation: Option<EventId>,
    visibility: Visibility, authorized: seq<string>, body: Body, delta: ResourceDelta)

  /** A draft with the defaults of `commit`: public, no targets, no resources. */
  function PublicDraft(kind: EventKind, actor: Agent, time: int, body: Body): Draft {
    Draft(kind, actor, time, [], None, Public, [], body, NoResources)
  }

  function Stamp(attempt: nat, sequence: nat, index: nat, d: Draft): Event {
    Event(EventId(sequence), attempt, sequence, d.time, d.kind, d.actor, d.targets, d.causation,
          Some(Key(index, d.kind, d.actor)), d.visibility, d.authorized, d.body, d.delta)
  }

  /** A commit the store accepts. */
  function Record(j: Journal, d: Draft): Journal {
    j.(disk := WithEvent(j.disk, Stamp(j.attempt, j.sequence, j.index, d)),
       sequence := j.sequence + 1, index := j.index + 1)
  }

  /** The canonical log is numbered 0, 1, 2, ... and every row's id and key say where it stands. */
  ghost predicate Dense(events: seq<Event>) {
    forall i :: 0 <= i < |events| ==>
      && events[i].sequence == i
      && events[i].id == EventId(i)
      && events[i].key == Some(Key(i, events[i].kind, events[i].actor))
  }

  /** The journal's counters stand at the end of a dense log. */
  ghost predicate Synced(j: Journal) {
    Dense(j.disk.tables.events) && j.sequence == j.index == |j.disk.tables.events|
  }

  datatype CommitResult = Committed(event: Event) | Rejected(key: Key) | Raised

  class EventJournal {
    const store: SqliteStore
    const attempt: nat
    var sequence: nat
    var index: nat
    var committed: seq<Event>
    var rejected: seq<Key>

    ghost function Journal(): Journal
      reads this, store
    {
      KernelState.Journal.Journal(store.Disk(), attempt, sequence, index)
    }

    constructor (store: SqliteStore, attempt: nat, sequence: nat, index: nat)
      ensures this.store == store && this.attempt == attempt
      ensures this.sequence == sequence && this.index == index && committed == [] && rejected == []
    {
      this.store, this.attempt := store, attempt;
      this.sequence, this.index := sequence, index;
      committed, rejected := [], [];
    }

    /** Commits one event. A duplicate key only advances the action index; other clashes raise. */
    method Commit(d: Draft) returns (r: CommitResult)
      modifies this, store
      ensures r.Committed? <==> !Clashes(old(store.events), Stamp(attempt, old(sequence), old(index), d))
      ensures r.Committed? ==>
        && r.event == Stamp(attempt, old(sequence), old(index), d)
        && Journal() == Record(old(Journal()), d)
        && committed == old(committed) + [r.event] && rejected == old(rejected)
      ensures r.Rejected? ==>
        && r.key == Key(old(index), d.kind, d.actor)
        && (exists i :: 0 <= i < |old(store.events)| && old(store.events)[i].key == Some(r.key))
        && Journal() == old(Journal()).(index := old(index) + 1)
        && committed == old(committed) && rejected == old(rejected) + [r.key]
      ensures r.Raised? ==>
        Journal() == old(Journal()) && committed == old(committed) && rejected == old(rejected)
      ensures Synced(old(Journal())) ==> r.Committed? && Synced(Journal())
    {
      var e := Stamp(attempt, sequence, index, d);
      ghost var before := Journal();
      var outcome := store.Append(e);
      match outcome {
        case Accepted =>
          sequence := sequence + 1;
          index := index + 1;
          committed := committed + [e];
          r := Committed(e);
        case Duplicate =>
          rejected := rejected + [e.key.value];
          index := index + 1;
          r := Rejected(e.key.value);
        case _ =>
          r := Raised;
      }
    }
  }

  /** Reading a dense log in sequence order gives the rows as they lie. */
  lemma ReadOfDense(events: seq<Event>)
    requires Dense(events)
    ensures Sorting.Sort(events, BySequence()) == events
  {
    Sorting.SortOfEqual(events, BySequence());
  }

  /** A journal that starts at sequence 0 can commit to a dense log exactly when it is empty. */
  lemma FreshJournalNeedsEmptyLog(events: seq<Event>, attempt: nat, index: nat, d: Draft)
    requires Dense(events)
    ensures Clashes(events, Stamp(attempt, 0, index, d)) <==> events != []
  {
    if events != [] {
      assert events[0].sequence == 0;
    }
  }
}
