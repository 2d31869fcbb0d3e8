/** One run's rows in the SQLite store (src/testbed_store/sqlite.py). Every statement is
    autocommitted, so a call that runs several statements passes through several durable
    states; `Disk.trail` lists them all. */
module Store {
  import opened Wrappers
  import opened Contracts
  import opened KernelState
  import opened Sorting

  // ---- the statements, on values ----

  function WithEvent(d: Disk, e: Event): Disk {
    d.Save(d.tables.(events := d.tables.events + [e]))
  }

  function WithCheckpoint(d: Disk, c: Checkpoint): Disk {
    d.Save(d.tables.(checkpoints := d.tables.checkpoints[c.sequence := c]))
  }

  function WithAttempt(d: Disk, number: nat, row: AttemptRow): Disk {
    d.Save(d.tables.(attempts := d.tables.attempts[number := row]))
  }

  function WithRunState(d: Disk, state: RunState): Disk {
    d.Save(d.tables.(runState := state))
  }

  function From(sequence: nat): Event -> bool {
    (e: Event) => e.sequence >= sequence
  }

  function Before(sequence: nat): Event -> bool {
    (e: Event) => e.sequence < sequence
  }

  /** INSERT OR REPLACE of each row into the archive, one statement a row. */
  function ArchiveRows(d: Disk, rows: seq<Event>): Disk {
    if |rows| == 0 then d
    else
      var d' := ArchiveRows(d, rows[..|rows| - 1]);
      var e := rows[|rows| - 1];
      d'.Save(d'.tables.(archive := d'.tables.archive[e.id := e]))
  }

  function Supersede(d: Disk, sequence: nat): Disk {
    var d' := ArchiveRows(d, Filter(d.tables.events, From(sequence)));
    d'.Save(d'.tables.(events := Filter(d'.tables.events, Before(sequence))))
  }

  function BySequence(): (Event, Event) -> bool {
    (a: Event, b: Event) => a.sequence <= b.sequence
  }

  lemma {:induction false} HasMaximum(s: set<nat>) returns (m: nat)
    requires s != {}
    ensures m in s && forall k :: k in s ==> k <= m
  {
    var x :| x in s;
    var rest := s - {x};
    if rest == {} {
      m := x;
    } else {
      m := HasMaximum(rest);
      if m < x {
        m := x;
      }
    }
    forall k | k in s ensures k <= m {
      assert k == x || k in rest;
    }
  }

  lemma MaximumExists(s: set<nat>)
    requires s != {}
    ensures exists m :: m in s && forall k :: k in s ==> k <= m
  {
    var m := HasMaximum(s);
  }

  function Maximum(s: set<nat>): (m: nat)
    requires s != {}
    ensures m in s && forall k :: k in s ==> k <= m
  {
    MaximumExists(s);
    var m :| m in s && forall k :: k in s ==> k <= m;
    m
  }

  function Latest(checkpoints: map<nat, Checkpoint>): Option<Checkpoint> {
    if checkpoints.Keys == {} then None else Some(checkpoints[Maximum(checkpoints.Keys)])
  }

  /** A stored checkpoint that no stored sequence exceeds, if there is any. */
  ghost predicate IsLatest(checkpoints: map<nat, Checkpoint>, c: Option<Checkpoint>) {
    match c
    case None => checkpoints == map[]
    case Some(latest) => exists q :: q in checkpoints && checkpoints[q] == latest && forall k :: k in checkpoints ==> k <= q
  }

  lemma LatestIsTheOne(checkpoints: map<nat, Checkpoint>, c: Option<Checkpoint>)
    ensures IsLatest(checkpoints, c) <==> c == Latest(checkpoints)
  {
    if checkpoints.Keys == {} {
      assert checkpoints == map[];
    } else {
      var top := Maximum(checkpoints.Keys);
      assert top in checkpoints && forall k :: k in checkpoints ==> k <= top;
      if IsLatest(checkpoints, c) && c.Some? {
        var q :| q in checkpoints && checkpoints[q] == c.value && forall k :: k in checkpoints ==> k <= q;
        assert q == top;
      }
    }
  }

  function NextAttempt(attempts: map<nat, AttemptRow>): nat {
    if attempts.Keys == {} then 1 else Maximum(attempts.Keys) + 1
  }

  // ---- the uniqueness constraints of the events table ----

  predicate IdTaken(events: seq<Event>, e: Event) {
    exists i :: 0 <= i < |events| && events[i].id == e.id
  }

  predicate SequenceTaken(events: seq<Event>, e: Event) {
    exists i :: 0 <= i < |events| && events[i].sequence == e.sequence
  }

  predicate KeyTaken(events: seq<Event>, e: Event) {
    e.key.Some? && exists i :: 0 <= i < |events| && events[i].key == e.key
  }

  predicate Clashes(events: seq<Event>, e: Event) {
    IdTaken(events, e) || SequenceTaken(events, e) || KeyTaken(events, e)
  }

  /** `append` returns True, returns False, or raises. */
  datatype AppendOutcome = Accepted | Duplicate | RaisedSequence | RaisedIntegrity

  class SqliteStore {
    var events: seq<Event>
    var archive: map<EventId, Event>
    var checkpoints: map<nat, Checkpoint>
    var attempts: map<nat, AttemptRow>
    var runState: RunState
    ghost var trail: seq<Tables>

    ghost function Disk(): Disk
      reads this
    {
      KernelState.Disk.Disk(Tables(events, archive, checkpoints, attempts, runState), trail)
    }

    constructor ()
      ensures Disk() == KernelState.Disk.Disk(NoTables, [NoTables])
    {
      events, archive, checkpoints, attempts, runState := [], map[], map[], map[], Planned;
      trail := [NoTables];
    }

    /** One INSERT. When it breaks several constraints at once, which of them SQLite
        names is left open. */
    method Append(e: Event) returns (outcome: AppendOutcome)
      modifies this
      ensures outcome.Accepted? <==> !Clashes(old(events), e)
      ensures outcome.Accepted? ==> Disk() == WithEvent(old(Disk()), e)
      ensures !outcome.Accepted? ==> Disk() == old(Disk())
      ensures outcome.Duplicate? ==> KeyTaken(old(events), e)
      ensures outcome.RaisedSequence? ==> SequenceTaken(old(events), e)
      ensures outcome.RaisedIntegrity? ==> IdTaken(old(events), e)
    {
      if KeyTaken(events, e) {
        outcome := Duplicate;
      } else if SequenceTaken(events, e) {
        outcome := RaisedSequence;
      } else if IdTaken(events, e) {
        outcome := RaisedIntegrity;
      } else {
        outcome := Accepted;
        events := events + [e];
        trail := trail + [Disk().tables];
      }
    }

    /** ORDER BY sequence. */
    method Read() returns (rows: seq<Event>)
      ensures rows == Sort(events, BySequence())
    {
      rows := Sort(events, BySequence());
    }

    method SupersedeFrom(sequence: nat) returns (count: nat)
      modifies this
      ensures Disk() == Supersede(old(Disk()), sequence)
      ensures count == |Filter(old(events), From(sequence))|
    {
      var rows := Filter(events, From(sequence));
      ghost var before := Disk();
      var i := 0;
      while i < |rows|
        invariant 0 <= i <= |rows|
        invariant rows == Filter(before.tables.events, From(sequence))
        invariant Disk() == ArchiveRows(before, rows[..i])
      {
        archive := archive[rows[i].id := rows[i]];
        trail := trail + [Disk().tables];
        assert rows[..i + 1][..i] == rows[..i];
        i := i + 1;
      }
      assert rows[..i] == rows;
      events := Filter(events, Before(sequence));
      trail := trail + [Disk().tables];
      count := |rows|;
    }

    method PutCheckpoint(c: Checkpoint)
      modifies this
      ensures Disk() == WithCheckpoint(old(Disk()), c)
    {
      checkpoints := checkpoints[c.sequence := c];
      trail := trail + [Disk().tables];
    }

    method LatestCheckpoint() returns (c: Option<Checkpoint>)
      ensures IsLatest(checkpoints, c)
    {
      LatestIsTheOne(checkpoints, Latest(checkpoints));
      c := Latest(checkpoints);
    }

    method PutAttempt(number: nat, row: AttemptRow)
      modifies this
      ensures Disk() == WithAttempt(old(Disk()), number, row)
    {
      attempts := attempts[number := row];
      trail := trail + [Disk().tables];
    }

    method PutRunState(state: RunState)
      modifies this
      ensures Disk() == WithRunState(old(Disk()), state)
    {
      runState := state;
      trail := trail + [Disk().tables];
    }
  }

  // ---- a supersede that is interrupted ----

  lemma {:induction false} ArchiveRowsEffect(d: Disk, rows: seq<Event>)
    ensures ArchiveRows(d, rows).tables == d.tables.(archive := ArchiveRows(d, rows).tables.archive)
    ensures d.tables.archive.Keys <= ArchiveRows(d, rows).tables.archive.Keys
    ensures forall e :: e in rows ==> e.id in ArchiveRows(d, rows).tables.archive
    ensures forall id :: id in ArchiveRows(d, rows).tables.archive && (forall e :: e in rows ==> e.id != id) ==>
      id in d.tables.archive && ArchiveRows(d, rows).tables.archive[id] == d.tables.archive[id]
  {
    if |rows| > 0 {
      ArchiveRowsEffect(d, rows[..|rows| - 1]);
      assert rows == rows[..|rows| - 1] + [rows[|rows| - 1]];
    }
  }

  /** Rows with distinct ids are all in the archive afterwards, whatever it held before. */
  lemma {:induction false} ArchivedRows(d: Disk, rows: seq<Event>)
    requires forall i, j :: 0 <= i < j < |rows| ==> rows[i].id != rows[j].id
    ensures forall e :: e in rows ==>
      e.id in ArchiveRows(d, rows).tables.archive && ArchiveRows(d, rows).tables.archive[e.id] == e
  {
    if |rows| > 0 {
      var front, last := rows[..|rows| - 1], rows[|rows| - 1];
      ArchivedRows(d, front);
      forall e | e in rows
        ensures e.id in ArchiveRows(d, rows).tables.archive && ArchiveRows(d, rows).tables.archive[e.id] == e
      {
        if e != last {
          assert e in front;
          var i :| 0 <= i < |front| && front[i] == e;
          assert rows[i].id != last.id;
        }
      }
    }
  }

  /** Archiving rows again, over an archive that already has a first part of them, changes nothing in the end. */
  lemma ArchiveAgain(d: Disk, rows: seq<Event>, done: nat, d': Disk)
    requires done <= |rows|
    requires forall i, j :: 0 <= i < j < |rows| ==> rows[i].id != rows[j].id
    requires d'.tables == ArchiveRows(d, rows[..done]).tables
    ensures ArchiveRows(d', rows).tables == ArchiveRows(d, rows).tables
  {
    hide ArchiveRows;
    OnlyTheArchive(d, rows);
    OnlyTheArchive(d', rows);
    OnlyTheArchive(d, rows[..done]);
    var once, twice := ArchiveRows(d, rows).tables.archive, ArchiveRows(d', rows).tables.archive;
    forall id: EventId ensures (id in once <==> id in twice) && (id in once ==> once[id] == twice[id]) {
      ArchiveAgainAt(d, rows, done, d', id);
    }
    SameArchive(once, twice);
  }

  lemma OnlyTheArchive(d: Disk, rows: seq<Event>)
    ensures ArchiveRows(d, rows).tables == d.tables.(archive := ArchiveRows(d, rows).tables.archive)
  {
    ArchiveRowsEffect(d, rows);
  }

  lemma SameArchive(a: map<EventId, Event>, b: map<EventId, Event>)
    requires forall id :: (id in a <==> id in b) && (id in a ==> a[id] == b[id])
    ensures a == b
  {
    assert a.Keys == b.Keys;
  }

  lemma ArchiveAgainAt(d: Disk, rows: seq<Event>, done: nat, d': Disk, id: EventId)
    requires done <= |rows|
    requires forall i, j :: 0 <= i < j < |rows| ==> rows[i].id != rows[j].id
    requires d'.tables == ArchiveRows(d, rows[..done]).tables
    ensures id in ArchiveRows(d, rows).tables.archive <==> id in ArchiveRows(d', rows).tables.archive
    ensures id in ArchiveRows(d, rows).tables.archive ==>
      ArchiveRows(d, rows).tables.archive[id] == ArchiveRows(d', rows).tables.archive[id]
  {
    if exists e :: e in rows && e.id == id {
      ArchivedRows(d, rows);
      ArchivedRows(d', rows);
    } else {
      ArchiveUntouched(d, rows, id);
      ArchiveUntouched(d', rows, id);
      ArchiveUntouched(d, rows[..done], id);
    }
  }

  lemma {:induction false} ArchiveUntouched(d: Disk, rows: seq<Event>, id: EventId)
    requires forall e :: e in rows ==> e.id != id
    ensures id in ArchiveRows(d, rows).tables.archive <==> id in d.tables.archive
    ensures id in d.tables.archive ==> ArchiveRows(d, rows).tables.archive[id] == d.tables.archive[id]
  {
    if |rows| > 0 {
      assert rows[|rows| - 1] in rows;
      ArchiveUntouched(d, rows[..|rows| - 1], id);
    }
  }

  /** The durable states a supersede passes through: the first `k` rows archived, or all of them and deleted. */
  function Interrupted(d: Disk, sequence: nat, k: nat): Tables
    requires k <= |Filter(d.tables.events, From(sequence))| + 1
  {
    var rows := Filter(d.tables.events, From(sequence));
    if k <= |rows| then ArchiveRows(d, rows[..k]).tables else Supersede(d, sequence).tables
  }

  lemma {:induction false} ArchiveTrail(d: Disk, rows: seq<Event>)
    ensures var t := ArchiveRows(d, rows).trail;
      && |t| == |d.trail| + |rows| && d.trail <= t
      && forall k :: 1 <= k <= |rows| ==> t[|d.trail| + k - 1] == ArchiveRows(d, rows[..k]).tables
  {
    if |rows| > 0 {
      var n := |rows| - 1;
      ArchiveTrail(d, rows[..n]);
      forall k | 1 <= k <= |rows|
        ensures ArchiveRows(d, rows).trail[|d.trail| + k - 1] == ArchiveRows(d, rows[..k]).tables
      {
        if k <= n {
          assert rows[..n][..k] == rows[..k];
        } else {
          assert rows[..k] == rows;
        }
      }
    }
  }

  /** The durable states of a supersede are those of `Interrupted`, in that order, and nothing else. */
  lemma SupersedeTrail(d: Disk, sequence: nat)
    ensures var n, t := |Filter(d.tables.events, From(sequence))|, Supersede(d, sequence).trail;
      && |t| == |d.trail| + n + 1 && d.trail <= t
      && forall k :: 1 <= k <= n + 1 ==> t[|d.trail| + k - 1] == Interrupted(d, sequence, k)
  {
    ArchiveTrail(d, Filter(d.tables.events, From(sequence)));
  }

  ghost predicate DistinctIds(events: seq<Event>) {
    forall i, j :: 0 <= i < j < |events| ==> events[i].id != events[j].id
  }

  lemma {:induction false} FilterDistinct(events: seq<Event>, p: Event -> bool)
    requires DistinctIds(events)
    ensures DistinctIds(Filter(events, p))
  {
    if |events| > 0 {
      var front, last := events[..|events| - 1], events[|events| - 1];
      FilterDistinct(front, p);
      FilterElements(front, p);
      forall i | 0 <= i < |Filter(front, p)| ensures Filter(front, p)[i].id != last.id {
        assert Filter(front, p)[i] in front;
        var j :| 0 <= j < |front| && front[j] == Filter(front, p)[i];
        assert events[j].id != events[|events| - 1].id;
      }
    }
  }

  /** A crash between any two statements of a supersede is harmless: every event is still in
      the log or in the archive, and superseding again from what was left reaches the log
      and the archive of an uninterrupted call. */
  lemma InterruptedSupersedeIsHarmless(d: Disk, sequence: nat, k: nat, d': Disk)
    requires DistinctIds(d.tables.events)
    requires k <= |Filter(d.tables.events, From(sequence))| + 1
    requires d'.tables == Interrupted(d, sequence, k)
    ensures forall e :: e in d.tables.events ==>
      e in d'.tables.events || (e.id in d'.tables.archive && d'.tables.archive[e.id] == e)
    ensures Supersede(d', sequence).tables == Supersede(d, sequence).tables
  {
    var rows := Filter(d.tables.events, From(sequence));
    hide Filter;
    if k <= |rows| {
      InterruptedWhileArchiving(d, sequence, k, d');
    } else {
      InterruptedAfterDeleting(d, sequence, d');
    }
  }

  lemma InterruptedWhileArchiving(d: Disk, sequence: nat, k: nat, d': Disk)
    requires DistinctIds(d.tables.events)
    requires k <= |Filter(d.tables.events, From(sequence))|
    requires d'.tables == ArchiveRows(d, Filter(d.tables.events, From(sequence))[..k]).tables
    ensures d'.tables.events == d.tables.events
    ensures Supersede(d', sequence).tables == Supersede(d, sequence).tables
  {
    var rows := Filter(d.tables.events, From(sequence));
    FilterDistinct(d.tables.events, From(sequence));
    hide Filter, ArchiveRows;
    OnlyTheArchive(d, rows[..k]);
    OnlyTheArchive(d, rows);
    OnlyTheArchive(d', rows);
    ArchiveAgain(d, rows, k, d');
  }

  lemma InterruptedAfterDeleting(d: Disk, sequence: nat, d': Disk)
    requires DistinctIds(d.tables.events) && d'.tables == Supersede(d, sequence).tables
    ensures forall e :: e in d.tables.events ==>
      e in d'.tables.events || (e.id in d'.tables.archive && d'.tables.archive[e.id] == e)
    ensures Supersede(d', sequence).tables == Supersede(d, sequence).tables
  {
    var rows := Filter(d.tables.events, From(sequence));
    FilterDistinct(d.tables.events, From(sequence));
    FilterElements(d.tables.events, From(sequence));
    FilterElements(d.tables.events, Before(sequence));
    OnlyTheArchive(d, rows);
    ArchivedRows(d, rows);
    FilterNone(d'.tables.events, From(sequence));
    FilterAll(d'.tables.events, Before(sequence));
  }
}
