/** The fold over the manifest's faults in closed form: what became of a scheduled delivery,
    read off from which faults hit it, without running the fold. */
module FaultFold {
  import opened Wrappers
  import opened Contracts
  import opened KernelState
  import opened Sorting
  import opened Scheduler
  import opened Randomness
  import opened Journals
  import opened WorldRules

  // ---- which faults hit ----

  /** A fault concerns a delivery if each list it gives names the right end of it; a list left empty names everybody. */
  predicate Concerns(fault: FaultSpec, d: Delivery) {
    && (fault.senders == [] || d.sender in fault.senders)
    && (fault.recipients == [] || d.recipient in fault.recipients)
    && (fault.targets == [] || d.sender in fault.targets || d.recipient in fault.targets)
  }

  lemma AppliesToConcerned(fault: FaultSpec, d: Delivery)
    ensures AppliesTo(fault, d) <==> Concerns(fault, d)
  {
  }

  /** A fault that does not concern the delivery passes it on and changes nothing; one that does is
      reached once more, unless it is a dropout; and no other fault is. */
  lemma FaultReached(s: Setup, c: Core, index: nat, item: Item)
    requires index < |s.faults|
    ensures var (c', o) := ApplyFault(s, c, index, item);
      && (!Concerns(s.faults[index], item.delivery) ==> c' == c && o == Some(item))
      && (Concerns(s.faults[index], item.delivery) && !s.faults[index].kind.AgentDropout? ==>
            Reached(c'.world.occurrences, index) == Reached(c.world.occurrences, index) + 1)
      && (forall i: nat :: i != index ==> Reached(c'.world.occurrences, i) == Reached(c.world.occurrences, i))
  {
    AppliesToConcerned(s.faults[index], item.delivery);
    hide AppliesTo, Concerns, Corrupt, Emit;
  }

  /** Whether fault `i` would fire at its next occurrence. */
  predicate Fires(s: Setup, c: Core, i: nat)
    requires i < |s.faults|
  {
    var fault := s.faults[i];
    && !fault.kind.AgentDropout?
    && (if fault.onOccurrences != [] then Reached(c.world.occurrences, i) + 1 in fault.onOccurrences
        else s.draw(c.rng.seed, FaultStream(i), Index(c.rng, FaultStream(i))) < fault.probability)
  }

  /** Decided by the state before the fold alone: no fault disturbs another one's decision. */
  predicate Hit(s: Setup, c: Core, d: Delivery, i: nat)
    requires i < |s.faults|
  {
    Concerns(s.faults[i], d) && Fires(s, c, i)
  }

  predicate HitBy(s: Setup, c: Core, d: Delivery, i: nat, kind: FaultKind)
    requires i < |s.faults|
  {
    Hit(s, c, d, i) && s.faults[i].kind == kind
  }

  predicate Lost(s: Setup, c: Core, d: Delivery, n: nat)
    requires n <= |s.faults|
  {
    exists j :: 0 <= j < n && HitBy(s, c, d, j, DropMessage)
  }

  /** How many faults are reached: those up to the first that drops the delivery. */
  function Extent(s: Setup, c: Core, d: Delivery, n: nat): (r: nat)
    requires n <= |s.faults|
    ensures r <= n
  {
    if n == 0 then 0 else if Lost(s, c, d, n - 1) then Extent(s, c, d, n - 1) else n
  }

  // ---- what the hits add up to ----

  function Delay(s: Setup, c: Core, d: Delivery, n: nat): int
    requires n <= |s.faults|
  {
    if n == 0 then 0
    else Delay(s, c, d, n - 1) + (if HitBy(s, c, d, n - 1, DelayMessage) then s.faults[n - 1].delayTicks else 0)
  }

  function Corruptions(s: Setup, c: Core, d: Delivery, n: nat): nat
    requires n <= |s.faults|
  {
    if n == 0 then 0 else Corruptions(s, c, d, n - 1) + (if HitBy(s, c, d, n - 1, CorruptMessage) then 1 else 0)
  }

  /** Due later by the delay, content reversed iff the corruptions are odd in number, payload gone iff there was one. */
  function Formed(item: Item, delay: int, corruptions: nat): Item {
    var d := item.delivery;
    item.(due := item.due + delay,
          delivery := d.(content := if corruptions % 2 == 1 then Reverse(d.content) else d.content,
                         payload := if corruptions > 0 then map[] else d.payload))
  }

  function Shape(s: Setup, c: Core, item: Item, n: nat): Item
    requires n <= |s.faults|
  {
    Formed(item, Delay(s, c, item.delivery, n), Corruptions(s, c, item.delivery, n))
  }

  /** One copy for each duplication, shaped by the faults before it. */
  function Copies(s: Setup, c: Core, item: Item, n: nat): seq<Item>
    requires n <= |s.faults|
  {
    if n == 0 then []
    else
      var copy := if HitBy(s, c, item.delivery, n - 1, DuplicateMessage) then [Shape(s, c, item, n - 1).(duplicate := 1)] else [];
      Copies(s, c, item, n - 1) + copy
  }

  /** One record for each hit. */
  function Records(s: Setup, c: Core, d: Delivery, n: nat): seq<Draft>
    requires n <= |s.faults|
  {
    if n == 0 then []
    else
      var record := if Hit(s, c, d, n - 1) then [FaultDraft(s.faults[n - 1].kind, c.world.time, d)] else [];
      Records(s, c, d, n - 1) + record
  }

  function RecordAll(j: Journal, drafts: seq<Draft>): Journal {
    if |drafts| == 0 then j else Record(RecordAll(j, drafts[..|drafts| - 1]), drafts[|drafts| - 1])
  }

  /** How often fault `i` has been reached, and how far its stream was drawn, after `n` faults of the fold. */
  ghost predicate Counted(s: Setup, c: Core, d: Delivery, n: nat, c': Core)
    requires n <= |s.faults|
  {
    && c'.rng.seed == c.rng.seed
    && forall i :: 0 <= i < |s.faults| ==>
         var counted := i < n && Concerns(s.faults[i], d) && !s.faults[i].kind.AgentDropout?;
         && Reached(c'.world.occurrences, i) == Reached(c.world.occurrences, i) + (if counted then 1 else 0)
         && Index(c'.rng, FaultStream(i))
              == Index(c.rng, FaultStream(i)) + (if counted && s.faults[i].onOccurrences == [] then 1 else 0)
  }

  // ---- one fault ----

  lemma {:induction false} ReverseTwice(text: string)
    ensures Reverse(Reverse(text)) == text
  {
    if |text| > 0 {
      var front, last := text[..|text| - 1], text[|text| - 1];
      ReverseTwice(front);
      ReverseOfCons(last, Reverse(front));
      assert text == front + [last];
    }
  }

  lemma {:induction false} ReverseOfCons(head: char, text: string)
    ensures Reverse([head] + text) == Reverse(text) + [head]
  {
    if |text| == 0 {
      assert [head] + text == [head];
      assert [head][..0] == [];
    } else {
      var front, last := text[..|text| - 1], text[|text| - 1];
      ReverseOfCons(head, front);
      assert ([head] + text)[..|text|] == [head] + front;
      assert [last] + (Reverse(front) + [head]) == ([last] + Reverse(front)) + [head];
    }
  }

  lemma SameEnds(s: Setup, fault: FaultSpec, d: Delivery, d': Delivery)
    requires d'.sender == d.sender && d'.recipient == d.recipient
    ensures Concerns(fault, d') == Concerns(fault, d)
  {
  }

  /** What a fault that applies leaves of the other faults' counts. */
  lemma OthersUndisturbed(s: Setup, c: Core, n: nat, i: nat)
    requires n < |s.faults| && i < |s.faults| && i != n
    ensures var c1 := FaultFires(s, c, n).0;
      && Reached(c1.world.occurrences, i) == Reached(c.world.occurrences, i)
      && Index(c1.rng, FaultStream(i)) == Index(c.rng, FaultStream(i)) && c1.rng.seed == c.rng.seed
  {
  }

  lemma OwnCount(s: Setup, c: Core, n: nat)
    requires n < |s.faults|
    ensures var c1, fault := FaultFires(s, c, n).0, s.faults[n];
      && FaultFires(s, c, n).1 == Fires(s, c, n) && c1.rng.seed == c.rng.seed
      && Reached(c1.world.occurrences, n) == Reached(c.world.occurrences, n) + (if fault.kind.AgentDropout? then 0 else 1)
      && Index(c1.rng, FaultStream(n))
           == Index(c.rng, FaultStream(n)) + (if !fault.kind.AgentDropout? && fault.onOccurrences == [] then 1 else 0)
  {
  }

  /** The next fault decides as the closed form says, and counts itself. */
  lemma NextDecision(s: Setup, c: Core, d: Delivery, n: nat, c': Core)
    requires n < |s.faults| && Counted(s, c, d, n, c') && Concerns(s.faults[n], d)
    ensures FaultFires(s, c', n).1 == Hit(s, c, d, n)
    ensures Counted(s, c, d, n + 1, FaultFires(s, c', n).0)
  {
    var c1 := FaultFires(s, c', n).0;
    OwnCount(s, c', n);
    hide FaultFires, Concerns, Reached, Index;
    forall i | 0 <= i < |s.faults| && i != n
      ensures Reached(c1.world.occurrences, i) == Reached(c'.world.occurrences, i)
           && Index(c1.rng, FaultStream(i)) == Index(c'.rng, FaultStream(i))
    {
      OthersUndisturbed(s, c', n, i);
    }
  }

  lemma FormedNext(item: Item, delay: int, corruptions: nat, more: int)
    ensures Corrupt(Formed(item, delay, corruptions)) == Formed(item, delay, corruptions + 1)
    ensures Formed(item, delay, corruptions).(due := Formed(item, delay, corruptions).due + more)
         == Formed(item, delay + more, corruptions)
  {
    ReverseTwice(item.delivery.content);
    hide Reverse;
  }

  lemma ShapeNext(s: Setup, c: Core, item: Item, n: nat)
    requires n < |s.faults|
    ensures !Hit(s, c, item.delivery, n) ==> Shape(s, c, item, n + 1) == Shape(s, c, item, n)
    ensures Hit(s, c, item.delivery, n) ==> Shape(s, c, item, n + 1) == Transform(s.faults[n], Shape(s, c, item, n))
  {
    hide Hit, Formed, Corrupt;
    FormedNext(item, Delay(s, c, item.delivery, n), Corruptions(s, c, item.delivery, n), s.faults[n].delayTicks);
  }

  /** Everything the fold has changed so far. */
  ghost predicate Folded(s: Setup, c: Core, item: Item, n: nat, c': Core)
    requires n <= |s.faults|
  {
    && Counted(s, c, item.delivery, n, c')
    && c'.journal == RecordAll(c.journal, Records(s, c, item.delivery, n))
    && c'.world.queue == c.world.queue + Copies(s, c, item, n)
    && c'.world == c.world.(
         queue := c'.world.queue, occurrences := c'.world.occurrences,
         counters := c.world.counters.(duplicates := c.world.counters.duplicates + |Copies(s, c, item, n)|))
  }

  lemma NothingNew(s: Setup, c: Core, item: Item, n: nat)
    requires n < |s.faults| && !Hit(s, c, item.delivery, n)
    ensures Copies(s, c, item, n + 1) == Copies(s, c, item, n)
    ensures Records(s, c, item.delivery, n + 1) == Records(s, c, item.delivery, n)
  {
    hide Hit, Shape;
    assert Copies(s, c, item, n) + [] == Copies(s, c, item, n);
    assert Records(s, c, item.delivery, n) + [] == Records(s, c, item.delivery, n);
  }

  lemma NotConcerned(s: Setup, c: Core, d: Delivery, n: nat, c': Core)
    requires n < |s.faults| && Counted(s, c, d, n, c') && !Concerns(s.faults[n], d)
    ensures Counted(s, c, d, n + 1, c')
  {
    hide Concerns;
  }

  lemma MissKeepsFold(s: Setup, c: Core, item: Item, n: nat, c': Core)
    requires n < |s.faults| && Folded(s, c, item, n, c') && !Hit(s, c, item.delivery, n)
    ensures ApplyFault(s, c', n, Shape(s, c, item, n)).1 == Some(Shape(s, c, item, n + 1))
    ensures Folded(s, c, item, n + 1, ApplyFault(s, c', n, Shape(s, c, item, n)).0)
  {
    SameEnds(s, s.faults[n], item.delivery, ShapedDelivery(s, c, item, n));
    AppliesToConcerned(s.faults[n], ShapedDelivery(s, c, item, n));
    hide Shape, AppliesTo, Concerns, Fires, Counted, Copies, Records, RecordAll;
    ShapeNext(s, c, item, n);
    NothingNew(s, c, item, n);
    if Concerns(s.faults[n], item.delivery) {
      NextDecision(s, c, item.delivery, n, c');
    } else {
      NotConcerned(s, c, item.delivery, n, c');
    }
  }

  function ShapedDelivery(s: Setup, c: Core, item: Item, n: nat): (d: Delivery)
    requires n <= |s.faults|
    ensures d == Shape(s, c, item, n).delivery && d.sender == item.delivery.sender && d.recipient == item.delivery.recipient
  {
    Shape(s, c, item, n).delivery
  }

  /** What a fault that fires does. */
  lemma FiredEffect(s: Setup, c: Core, n: nat, item: Item)
    requires n < |s.faults| && AppliesTo(s.faults[n], item.delivery) && FaultFires(s, c, n).1
    ensures var (r, o) := ApplyFault(s, c, n, item);
      var fault, c1 := s.faults[n], FaultFires(s, c, n).0;
      var copies := if fault.kind.DuplicateMessage? then [item.(duplicate := 1)] else [];
      && o == (if fault.kind.DropMessage? then None else Some(Transform(fault, item)))
      && r.rng == c1.rng && r.journal == Record(c.journal, FaultDraft(fault.kind, c.world.time, item.delivery))
      && r.world == c.world.(
           queue := c.world.queue + copies, occurrences := c1.world.occurrences,
           counters := c.world.counters.(duplicates := c.world.counters.duplicates + |copies|))
  {
    hide AppliesTo, Record, Corrupt;
    assert c.world.queue + [] == c.world.queue;
  }

  lemma HitKeepsFold(s: Setup, c: Core, item: Item, n: nat, c': Core)
    requires n < |s.faults| && Folded(s, c, item, n, c') && Hit(s, c, item.delivery, n)
    ensures ApplyFault(s, c', n, Shape(s, c, item, n)).1
         == if s.faults[n].kind.DropMessage? then None else Some(Shape(s, c, item, n + 1))
    ensures Folded(s, c, item, n + 1, ApplyFault(s, c', n, Shape(s, c, item, n)).0)
  {
    var d := ShapedDelivery(s, c, item, n);
    SameEnds(s, s.faults[n], item.delivery, d);
    AppliesToConcerned(s.faults[n], d);
    hide Shape, Delay, Corruptions, AppliesTo, Concerns, Fires, Counted, RecordAll, Records, ApplyFault, Record, Transform;
    ShapeNext(s, c, item, n);
    NextDecision(s, c, item.delivery, n, c');
    RecordsNext(s, c, item.delivery, n);
    FiredEffect(s, c', n, Shape(s, c, item, n));
    CountedAs(s, c, item.delivery, n + 1, FaultFires(s, c', n).0, ApplyFault(s, c', n, Shape(s, c, item, n)).0);
  }

  lemma CountedAs(s: Setup, c: Core, d: Delivery, n: nat, a: Core, b: Core)
    requires n <= |s.faults| && Counted(s, c, d, n, a) && b.rng == a.rng && b.world.occurrences == a.world.occurrences
    ensures Counted(s, c, d, n, b)
  {
    hide Concerns;
  }

  lemma RecordsNext(s: Setup, c: Core, d: Delivery, n: nat)
    requires n < |s.faults| && Hit(s, c, d, n)
    ensures RecordAll(c.journal, Records(s, c, d, n + 1))
         == Record(RecordAll(c.journal, Records(s, c, d, n)), FaultDraft(s.faults[n].kind, c.world.time, d))
  {
    var drafts := Records(s, c, d, n);
    assert Records(s, c, d, n + 1)[..|drafts|] == drafts;
  }

  // ---- the whole fold ----

  /** The closed form. The delivery is lost iff some fault drops it; otherwise it has its shape.
      The queue gains one copy per duplication among the faults reached, the log one record per
      hit among them, and each applicable one is counted once. */
  lemma {:induction false} FoldClosedForm(s: Setup, c: Core, item: Item, n: nat)
    requires n <= |s.faults|
    ensures var (c', o) := ApplyFaults(s, c, item, n);
      && o == (if Lost(s, c, item.delivery, n) then None else Some(Shape(s, c, item, n)))
      && Folded(s, c, item, Extent(s, c, item.delivery, n), c')
  {
    var d := item.delivery;
    if n == 0 {
      hide Folded, Shape, Lost;
      NothingFolded(s, c, item);
    } else {
      hide Folded, Shape, ApplyFault, Hit, Counted, Lost;
      FoldClosedForm(s, c, item, n - 1);
      LostNext(s, c, d, n - 1);
      if !Lost(s, c, d, n - 1) {
        NotLostExtent(s, c, d, n - 1);
        var c1 := ApplyFaults(s, c, item, n - 1).0;
        if Hit(s, c, d, n - 1) {
          HitKeepsFold(s, c, item, n - 1, c1);
        } else {
          MissKeepsFold(s, c, item, n - 1, c1);
        }
      }
    }
  }

  lemma NothingFolded(s: Setup, c: Core, item: Item)
    ensures Folded(s, c, item, 0, c) && !Lost(s, c, item.delivery, 0) && Shape(s, c, item, 0) == item
  {
    assert c.world.queue + [] == c.world.queue;
  }

  lemma LostNext(s: Setup, c: Core, d: Delivery, n: nat)
    requires n < |s.faults|
    ensures Lost(s, c, d, n + 1) <==> Lost(s, c, d, n) || HitBy(s, c, d, n, DropMessage)
  {
    hide HitBy;
  }

  lemma NotLostExtent(s: Setup, c: Core, d: Delivery, n: nat)
    requires n <= |s.faults| && !Lost(s, c, d, n)
    ensures Extent(s, c, d, n) == n
  {
    hide HitBy;
    if n > 0 {
      LostNext(s, c, d, n - 1);
    }
  }

  /** The faults reached: all of them, or those up to the first that drops the delivery. */
  lemma {:induction false} ExtentIsFirstDrop(s: Setup, c: Core, d: Delivery, n: nat)
    requires n <= |s.faults|
    ensures var r := Extent(s, c, d, n);
      && (Lost(s, c, d, n) ==> 0 < r && HitBy(s, c, d, r - 1, DropMessage) && !Lost(s, c, d, r - 1))
      && (!Lost(s, c, d, n) ==> r == n)
  {
    hide HitBy;
    if n > 0 {
      ExtentIsFirstDrop(s, c, d, n - 1);
      LostNext(s, c, d, n - 1);
    }
  }

  // ---- enqueue ----

  /** A delivery that may not be made leaves one policy event, which says why, and nothing else. */
  lemma RefusedDelivery(s: Setup, c: Core, d: Delivery, orderHint: int)
    requires !Deliverable(s, c.world.dropped, d)
    ensures var c' := Enqueue(s, c, d, orderHint);
      && c'.world == c.world && c'.rng == c.rng && c'.ledger == c.ledger
      && |c'.Events()| == |c.Events()| + 1 && c.Events() <= c'.Events()
      && c'.Events()[|c.Events()|].kind == PolicyDecided && c'.Events()[|c.Events()|].time == c.world.time
      && c'.Events()[|c.Events()|].body ==
           if d.recipient !in s.AgentIds() then Policy("unknown_recipient", false, d.recipient, 0)
           else if d.recipient in c.world.dropped then Policy("recipient_dropped_out", false, d.recipient, 0)
           else Policy("max_message_bytes", false, "bytes", Utf8Size(d.content))
  {
    hide Utf8Size, Setup.AgentIds;
  }

  /** `enqueue` in closed form. The queue gains the copies, and the delivery itself unless it
      was lost; only then is it counted as a message, with its bytes. Every hit is on record. */
  lemma EnqueueClosedForm(s: Setup, c: Core, d: Delivery, orderHint: int)
    requires Deliverable(s, c.world.dropped, d)
    ensures var c' := Enqueue(s, c, d, orderHint);
      var item, n := Item(c.world.time + s.latency + d.extraDelay, orderHint, d, 0), |s.faults|;
      var copies := Copies(s, c, item, Extent(s, c, d, n));
      var lost := Lost(s, c, d, n);
      && c'.world.queue == c.world.queue + copies + (if lost then [] else [Shape(s, c, item, n)])
      && c'.world.counters == c.world.counters.(
           messages := c.world.counters.messages + (if lost then 0 else 1),
           duplicates := c.world.counters.duplicates + |copies|)
      && c'.world.resources
           == (if lost then c.world.resources else c.world.resources.Plus(NoResources.(messageBytes := Utf8Size(d.content))))
      && c'.journal == RecordAll(c.journal, Records(s, c, d, Extent(s, c, d, n)))
      && Counted(s, c, d, Extent(s, c, d, n), c')
  {
    var item, n := Item(c.world.time + s.latency + d.extraDelay, orderHint, d, 0), |s.faults|;
    assert item == Scheduled(s, c.world, d, orderHint);
    hide ApplyFaults, Lost, Hit, Shape, Copies, Records, Extent, Counted, Utf8Size, RecordAll;
    FoldClosedForm(s, c, item, n);
    var (c1, o) := ApplyFaults(s, c, item, n);
    assert c1.world.queue + [] == c1.world.queue;
    CountedAs(s, c, d, Extent(s, c, d, n), c1, Enqueue(s, c, d, orderHint));
  }
}
