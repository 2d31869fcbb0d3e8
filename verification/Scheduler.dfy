/** The deterministic delivery queue (src/testbed_kernel/scheduler.py). */
module Scheduler {
  import opened Wrappers
  import opened Contracts
  import opened KernelState
  import opened Sorting

  type Digest = (Agent, Agent, string, Facts, Visibility) -> int

  datatype SortKey = SortKey(due: int, orderHint: int, content: int, duplicate: nat)

  function KeyOf(digest: Digest, item: Item): SortKey {
    var d := item.delivery;
    SortKey(item.due, item.orderHint, digest(d.sender, d.recipient, d.content, d.payload, d.visibility), item.duplicate)
  }

  /** Tuple comparison. */
  predicate KeyLe(a: SortKey, b: SortKey) {
    if a.due != b.due then a.due < b.due
    else if a.orderHint != b.orderHint then a.orderHint < b.orderHint
    else if a.content != b.content then a.content < b.content
    else a.duplicate <= b.duplicate
  }

  function ItemOrder(digest: Digest): (Item, Item) -> bool {
    (a, b) => KeyLe(KeyOf(digest, a), KeyOf(digest, b))
  }

  /** `peek_all`: the queue in canonical order, which is also what `dump` stores. */
  function Canon(digest: Digest, items: seq<Item>): seq<Item> {
    Sort(items, ItemOrder(digest))
  }

  function DueBy(now: int): Item -> bool {
    (i: Item) => i.due <= now
  }

  function DueAfter(now: int): Item -> bool {
    (i: Item) => i.due > now
  }

  function NotFor(agent: Agent): Item -> bool {
    (i: Item) => i.delivery.recipient != agent
  }

  function For(agent: Agent): Item -> bool {
    (i: Item) => i.delivery.recipient == agent
  }

  /** What `pop_due` returns. */
  function Popped(digest: Digest, items: seq<Item>, now: int): seq<Item> {
    Canon(digest, Filter(items, DueBy(now)))
  }

  function Remaining(items: seq<Item>, now: int): seq<Item> {
    Filter(items, DueAfter(now))
  }

  function NextDue(items: seq<Item>): Option<int> {
    if |items| == 0 then None
    else
      var last := items[|items| - 1].due;
      match NextDue(items[..|items| - 1])
      case None => Some(last)
      case Some(t) => Some(if last < t then last else t)
  }

  class DeliveryQueue {
    const digest: Digest
    var items: seq<Item>

    constructor (digest: Digest)
      ensures items == [] && this.digest == digest
    {
      this.digest := digest;
      items := [];
    }

    method Push(item: Item)
      modifies this
      ensures items == old(items) + [item]
    {
      items := items + [item];
    }

    method PopDue(now: int) returns (due: seq<Item>)
      modifies this
      ensures due == Popped(digest, old(items), now)
      ensures items == Remaining(old(items), now)
    {
      due := Canon(digest, Filter(items, DueBy(now)));
      items := Filter(items, DueAfter(now));
    }

    method DropFor(agent: Agent) returns (count: nat)
      modifies this
      ensures items == Filter(old(items), NotFor(agent))
      ensures count == |Filter(old(items), For(agent))|
    {
      var before := |items|;
      FilterPartition(items, For(agent), NotFor(agent));
      items := Filter(items, NotFor(agent));
      count := before - |items|;
    }

    method Load(rows: seq<Item>)
      modifies this
      ensures items == rows
    {
      items := rows;
    }
  }

  // ---- the canonical schedule ----

  lemma ItemOrderIsTotal(digest: Digest)
    ensures TotalPreorder(ItemOrder(digest))
  {
  }

  /** Splitting by complementary conditions keeps every item, exactly once. */
  lemma {:induction false} FilterPartition<T(!new)>(xs: seq<T>, p: T -> bool, q: T -> bool)
    requires forall x :: p(x) == !q(x)
    ensures multiset(Filter(xs, p)) + multiset(Filter(xs, q)) == multiset(xs)
    ensures |Filter(xs, p)| + |Filter(xs, q)| == |xs|
  {
    if |xs| > 0 {
      FilterPartition(xs[..|xs| - 1], p, q);
      assert xs == xs[..|xs| - 1] + [xs[|xs| - 1]];
    }
  }

  /** Popping and what remains are together the queue, and split it at `now`. */
  lemma PopDueConserves(digest: Digest, items: seq<Item>, now: int)
    ensures multiset(Popped(digest, items, now)) + multiset(Remaining(items, now)) == multiset(items)
    ensures |Popped(digest, items, now)| + |Remaining(items, now)| == |items|
    ensures forall i :: i in Popped(digest, items, now) ==> i in items && i.due <= now
    ensures forall i :: i in Remaining(items, now) ==> i in items && i.due > now
  {
    FilterPartition(items, DueBy(now), DueAfter(now));
    SortKeepsElements(Filter(items, DueBy(now)), ItemOrder(digest));
    FilterElements(items, DueBy(now));
    FilterElements(items, DueAfter(now));
    forall i | i in Popped(digest, items, now) ensures i in items && i.due <= now {
      assert i in multiset(Popped(digest, items, now));
    }
  }

  /** A pop is the part of the canonical order that is due. */
  lemma PoppedIsDuePartOfCanon(digest: Digest, items: seq<Item>, now: int)
    ensures Popped(digest, items, now) == Filter(Canon(digest, items), DueBy(now))
    ensures Canon(digest, Remaining(items, now)) == Filter(Canon(digest, items), DueAfter(now))
  {
    ItemOrderIsTotal(digest);
    SortFilter(items, DueBy(now), ItemOrder(digest));
    SortFilter(items, DueAfter(now), ItemOrder(digest));
  }

  /** The next due time is the due time of the first item in canonical order. */
  lemma {:induction false} NextDueIsFirst(digest: Digest, items: seq<Item>)
    ensures items == [] <==> NextDue(items) == None
    ensures items != [] ==> |Canon(digest, items)| > 0 && NextDue(items) == Some(Canon(digest, items)[0].due)
  {
    if items != [] {
      var front, last := items[..|items| - 1], items[|items| - 1];
      NextDueIsFirst(digest, front);
      ItemOrderIsTotal(digest);
      SortKeepsElements(front, ItemOrder(digest));
      SortSorted(front, ItemOrder(digest));
      InsertFirst(Canon(digest, front), last, digest);
    }
  }

  lemma {:induction false} InsertFirst(xs: seq<Item>, x: Item, digest: Digest)
    requires Sorted(xs, ItemOrder(digest))
    ensures |Insert(xs, x, ItemOrder(digest))| == |xs| + 1
    ensures Insert(xs, x, ItemOrder(digest))[0].due == if |xs| > 0 && xs[0].due < x.due then xs[0].due else x.due
  {
    InsertKeepsElements(xs, x, ItemOrder(digest));
    if |xs| > 1 {
      InsertFirst(xs[..|xs| - 1], x, digest);
      assert ItemOrder(digest)(xs[0], xs[|xs| - 1]);
    }
  }

  // ---- dumping and loading ----

  /** What can be asked of a queue after it was loaded. */
  datatype QueueStep = PushStep(item: Item) | PopStep(now: int) | DropStep(agent: Agent)

  function AfterStep(digest: Digest, items: seq<Item>, step: QueueStep): seq<Item> {
    match step
    case PushStep(item) => items + [item]
    case PopStep(now) => Remaining(items, now)
    case DropStep(agent) => Filter(items, NotFor(agent))
  }

  function Observed(digest: Digest, items: seq<Item>, step: QueueStep): (seq<Item>, Option<int>) {
    (if step.PopStep? then Popped(digest, items, step.now) else [], NextDue(items))
  }

  function Observations(digest: Digest, items: seq<Item>, steps: seq<QueueStep>): seq<(seq<Item>, Option<int>)>
    decreases |steps|
  {
    if |steps| == 0 then []
    else [Observed(digest, items, steps[0])] + Observations(digest, AfterStep(digest, items, steps[0]), steps[1..])
  }

  lemma PushKeepsSchedule(digest: Digest, a: seq<Item>, b: seq<Item>, item: Item)
    requires Canon(digest, a) == Canon(digest, b)
    ensures Canon(digest, a + [item]) == Canon(digest, b + [item])
  {
    SortSnoc(a, item, ItemOrder(digest));
    SortSnoc(b, item, ItemOrder(digest));
  }

  lemma PopKeepsSchedule(digest: Digest, a: seq<Item>, b: seq<Item>, now: int)
    requires Canon(digest, a) == Canon(digest, b)
    ensures Popped(digest, a, now) == Popped(digest, b, now)
    ensures Canon(digest, Remaining(a, now)) == Canon(digest, Remaining(b, now))
  {
    PoppedIsDuePartOfCanon(digest, a, now);
    PoppedIsDuePartOfCanon(digest, b, now);
  }

  lemma SameCanonSameNext(digest: Digest, a: seq<Item>, b: seq<Item>)
    requires Canon(digest, a) == Canon(digest, b)
    ensures NextDue(a) == NextDue(b)
  {
    NextDueIsFirst(digest, a);
    NextDueIsFirst(digest, b);
    SortKeepsElements(a, ItemOrder(digest));
    SortKeepsElements(b, ItemOrder(digest));
  }

  lemma CanonIdempotent(digest: Digest, items: seq<Item>)
    ensures Canon(digest, Canon(digest, items)) == Canon(digest, items)
  {
    ItemOrderIsTotal(digest);
    SortSorted(items, ItemOrder(digest));
    SortOfEqual(Canon(digest, items), ItemOrder(digest));
  }

  /** Queues with the same canonical order cannot be told apart by any later use. */
  lemma {:induction false} SameCanonSameObservations(
      digest: Digest, a: seq<Item>, b: seq<Item>, steps: seq<QueueStep>)
    requires Canon(digest, a) == Canon(digest, b)
    ensures Observations(digest, a, steps) == Observations(digest, b, steps)
    decreases |steps|
  {
    if |steps| > 0 {
      var step := steps[0];
      SameCanonSameNext(digest, a, b);
      match step {
        case PushStep(item) => PushKeepsSchedule(digest, a, b, item);
        case PopStep(now) => PopKeepsSchedule(digest, a, b, now);
        case DropStep(agent) =>
          ItemOrderIsTotal(digest);
          SortFilter(a, NotFor(agent), ItemOrder(digest));
          SortFilter(b, NotFor(agent), ItemOrder(digest));
      }
      SameCanonSameObservations(digest, AfterStep(digest, a, step), AfterStep(digest, b, step), steps[1..]);
    }
  }

  /** `load(dump())` is the identity for everything a queue can be asked later. */
  lemma LoadOfDumpIsFaithful(digest: Digest, items: seq<Item>, steps: seq<QueueStep>)
    ensures Observations(digest, Canon(digest, items), steps) == Observations(digest, items, steps)
    ensures multiset(Canon(digest, items)) == multiset(items)
  {
    CanonIdempotent(digest, items);
    SortKeepsElements(items, ItemOrder(digest));
    SameCanonSameObservations(digest, Canon(digest, items), items, steps);
  }

  /** Popping in two goes at `a` and then `b` delivers what one pop at `b` delivers, in the same order. */
  lemma PopInTwoGoes(digest: Digest, items: seq<Item>, a: int, b: int)
    requires a <= b
    ensures Popped(digest, items, a) + Popped(digest, Remaining(items, a), b) == Popped(digest, items, b)
    ensures Remaining(Remaining(items, a), b) == Remaining(items, b)
  {
    var canon := Canon(digest, items);
    PoppedIsDuePartOfCanon(digest, items, a);
    PoppedIsDuePartOfCanon(digest, items, b);
    PoppedIsDuePartOfCanon(digest, Remaining(items, a), b);
    ItemOrderIsTotal(digest);
    SortSorted(items, ItemOrder(digest));
    SplitByDue(digest, canon, a, b);
    RemainingTwice(items, a, b);
  }

  lemma {:induction false} SplitByDue(digest: Digest, xs: seq<Item>, a: int, b: int)
    requires a <= b && Sorted(xs, ItemOrder(digest))
    ensures Filter(xs, DueBy(a)) + Filter(Filter(xs, DueAfter(a)), DueBy(b)) == Filter(xs, DueBy(b))
  {
    if |xs| == 0 {
    } else if xs[|xs| - 1].due <= a {
      forall i | i in xs ensures i.due <= a {
        var k :| 0 <= k < |xs| && xs[k] == i;
        assert k < |xs| - 1 ==> ItemOrder(digest)(xs[k], xs[|xs| - 1]);
      }
      FilterNone(xs, DueAfter(a));
      FilterAll(xs, DueBy(a));
      FilterAll(xs, DueBy(b));
    } else {
      SplitByDue(digest, xs[..|xs| - 1], a, b);
      SplitAtLast(xs[..|xs| - 1], xs[|xs| - 1], a, b);
      assert xs == xs[..|xs| - 1] + [xs[|xs| - 1]];
    }
  }

  lemma SplitAtLast(front: seq<Item>, last: Item, a: int, b: int)
    requires last.due > a
    requires Filter(front, DueBy(a)) + Filter(Filter(front, DueAfter(a)), DueBy(b)) == Filter(front, DueBy(b))
    ensures Filter(front + [last], DueBy(a)) + Filter(Filter(front + [last], DueAfter(a)), DueBy(b))
         == Filter(front + [last], DueBy(b))
  {
    FilterSnoc(front, last, DueBy(a));
    FilterSnoc(front, last, DueBy(b));
    FilterSnoc(front, last, DueAfter(a));
    FilterSnoc(Filter(front, DueAfter(a)), last, DueBy(b));
  }

  lemma {:induction false} RemainingTwice(items: seq<Item>, a: int, b: int)
    requires a <= b
    ensures Remaining(Remaining(items, a), b) == Remaining(items, b)
  {
    if |items| > 0 {
      var front, last := items[..|items| - 1], items[|items| - 1];
      RemainingTwice(front, a, b);
      if last.due > a {
        FilterSnoc(Filter(front, DueAfter(a)), last, DueAfter(b));
      } else {
        assert Filter(front, DueAfter(b)) + [] == Filter(front, DueAfter(b));
        assert Filter(front, DueAfter(a)) + [] == Filter(front, DueAfter(a));
      }
    }
  }

  // ---- the order in which deliveries were pushed does not matter ----

  /** What a delivered event shows of an item, and what the canonical order compares. */
  datatype Shown = Shown(
    due: int, orderHint: int, sender: Agent, recipient: Agent, content: string, payload: Facts,
    visibility: Visibility, duplicate: nat)

  function Show(i: Item): Shown {
    Shown(i.due, i.orderHint, i.delivery.sender, i.delivery.recipient, i.delivery.content, i.delivery.payload,
          i.delivery.visibility, i.duplicate)
  }

  /** The content hash does not collide. */
  ghost predicate CollisionFree(digest: Digest) {
    forall s, r, c, p, v, s', r', c', p', v' :: digest(s, r, c, p, v) == digest(s', r', c', p', v')
      ==> s == s' && r == r' && c == c' && p == p' && v == v'
  }

  /** Two controllers that scheduled the same deliveries in different physical orders pop
      the same keys in the same order, and, hash collisions aside, the same deliveries. */
  lemma PhysicalOrderIsInvisible(digest: Digest, a: seq<Item>, b: seq<Item>, now: int)
    requires multiset(a) == multiset(b)
    ensures |Popped(digest, a, now)| == |Popped(digest, b, now)|
    ensures forall k :: 0 <= k < |Popped(digest, a, now)| ==>
      KeyOf(digest, Popped(digest, a, now)[k]) == KeyOf(digest, Popped(digest, b, now)[k])
    ensures CollisionFree(digest) ==> forall k :: 0 <= k < |Popped(digest, a, now)| ==>
      Show(Popped(digest, a, now)[k]) == Show(Popped(digest, b, now)[k])
  {
    var le := ItemOrder(digest);
    ItemOrderIsTotal(digest);
    FilterBag(a, b, DueBy(now));
    var xs, ys := Filter(a, DueBy(now)), Filter(b, DueBy(now));
    SortedRearrangement(xs, ys, le);
    forall k | 0 <= k < |Sort(xs, le)| ensures KeyOf(digest, Sort(xs, le)[k]) == KeyOf(digest, Sort(ys, le)[k]) {
      assert le(Sort(xs, le)[k], Sort(ys, le)[k]) && le(Sort(ys, le)[k], Sort(xs, le)[k]);
    }
  }

  /** An item goes before another one: due earlier; or at the same time with a smaller hint; or with
      the same hint and a smaller content key; or alike in all that, and then copies come last. */
  ghost predicate GoesBefore(digest: Digest, a: Item, b: Item) {
    var c, d := a.delivery, b.delivery;
    var x, y := digest(c.sender, c.recipient, c.content, c.payload, c.visibility), digest(d.sender, d.recipient, d.content, d.payload, d.visibility);
    || a.due < b.due
    || (a.due == b.due && a.orderHint < b.orderHint)
    || (a.due == b.due && a.orderHint == b.orderHint && x < y)
    || (a.due == b.due && a.orderHint == b.orderHint && x == y && a.duplicate <= b.duplicate)
  }

  /** The order in which deliveries are made. */
  lemma PoppedInOrder(digest: Digest, items: seq<Item>, now: int, i: nat, j: nat)
    requires i < j < |Popped(digest, items, now)|
    ensures GoesBefore(digest, Popped(digest, items, now)[i], Popped(digest, items, now)[j])
  {
    ItemOrderIsTotal(digest);
    SortSorted(Filter(items, DueBy(now)), ItemOrder(digest));
  }
}
