/** Stable sorting and filtering of sequences, and the facts that make a stable
    sort canonical: it commutes with filtering, and it is determined by the order
    inside each class of equal keys. */
module Sorting {

  /** The order Python's `sorted` relies on: any two elements compare, and the comparison is transitive. */
  ghost predicate TotalPreorder<T(!new)>(le: (T, T) -> bool) {
    && (forall x, y :: le(x, y) || le(y, x))
    && (forall x, y, z :: le(x, y) && le(y, z) ==> le(x, z))
  }

  predicate Sorted<T>(xs: seq<T>, le: (T, T) -> bool) {
    forall i, j :: 0 <= i < j < |xs| ==> le(xs[i], xs[j])
  }

  /** Places `x` after every element of `xs` that is not greater than it. */
  function Insert<T>(xs: seq<T>, x: T, le: (T, T) -> bool): seq<T> {
    if |xs| == 0 then [x]
    else if le(xs[|xs| - 1], x) then xs + [x]
    else Insert(xs[..|xs| - 1], x, le) + [xs[|xs| - 1]]
  }

  /** A stable sort: equal elements keep the order they had. */
  function Sort<T>(xs: seq<T>, le: (T, T) -> bool): seq<T> {
    if |xs| == 0 then [] else Insert(Sort(xs[..|xs| - 1], le), xs[|xs| - 1], le)
  }

  function Filter<T>(xs: seq<T>, p: T -> bool): seq<T> {
    if |xs| == 0 then []
    else Filter(xs[..|xs| - 1], p) + (if p(xs[|xs| - 1]) then [xs[|xs| - 1]] else [])
  }

  /** The elements of `xs` that compare equal to `r`, in their order. */
  ghost function Class<T>(xs: seq<T>, r: T, le: (T, T) -> bool): seq<T> {
    Filter(xs, Alike(r, le))
  }

  function Alike<T>(r: T, le: (T, T) -> bool): T -> bool {
    x => le(x, r) && le(r, x)
  }

  function Map<T, U>(xs: seq<T>, f: T -> U): (r: seq<U>)
    ensures |r| == |xs|
    ensures forall i :: 0 <= i < |xs| ==> r[i] == f(xs[i])
  {
    if |xs| == 0 then [] else Map(xs[..|xs| - 1], f) + [f(xs[|xs| - 1])]
  }

  ghost predicate Distinct<T>(xs: seq<T>) {
    forall i, j :: 0 <= i < j < |xs| ==> xs[i] != xs[j]
  }

  // ---- adding one element at the end ----

  lemma FilterSnoc<T>(xs: seq<T>, x: T, p: T -> bool)
    ensures Filter(xs + [x], p) == Filter(xs, p) + (if p(x) then [x] else [])
  {
    assert (xs + [x])[..|xs|] == xs;
  }

  lemma SortSnoc<T>(xs: seq<T>, x: T, le: (T, T) -> bool)
    ensures Sort(xs + [x], le) == Insert(Sort(xs, le), x, le)
  {
    assert (xs + [x])[..|xs|] == xs;
  }

  lemma MapSnoc<T, U>(xs: seq<T>, x: T, f: T -> U)
    ensures Map(xs + [x], f) == Map(xs, f) + [f(x)]
  {
    assert (xs + [x])[..|xs|] == xs;
  }

  // ---- what sorting keeps ----

  lemma {:induction false} InsertKeepsElements<T>(xs: seq<T>, x: T, le: (T, T) -> bool)
    ensures multiset(Insert(xs, x, le)) == multiset(xs) + multiset{x}
    ensures |Insert(xs, x, le)| == |xs| + 1
  {
    if |xs| == 0 {
    } else {
      assert xs == xs[..|xs| - 1] + [xs[|xs| - 1]];
      if !le(xs[|xs| - 1], x) {
        InsertKeepsElements(xs[..|xs| - 1], x, le);
      }
    }
  }

  lemma {:induction false} InsertSorted<T(!new)>(xs: seq<T>, x: T, le: (T, T) -> bool)
    requires TotalPreorder(le) && Sorted(xs, le)
    ensures Sorted(Insert(xs, x, le), le)
  {
    if |xs| > 0 && !le(xs[|xs| - 1], x) {
      var front, last := xs[..|xs| - 1], xs[|xs| - 1];
      InsertSorted(front, x, le);
      var r := Insert(front, x, le);
      InsertKeepsElements(front, x, le);
      forall i | 0 <= i < |r| ensures le(r[i], last) {
        assert r[i] in multiset(r);
        assert r[i] == x || r[i] in front;
      }
    }
  }

  lemma {:induction false} SortSorted<T(!new)>(xs: seq<T>, le: (T, T) -> bool)
    requires TotalPreorder(le)
    ensures Sorted(Sort(xs, le), le)
  {
    if |xs| > 0 {
      SortSorted(xs[..|xs| - 1], le);
      InsertSorted(Sort(xs[..|xs| - 1], le), xs[|xs| - 1], le);
    }
  }

  lemma {:induction false} SortKeepsElements<T>(xs: seq<T>, le: (T, T) -> bool)
    ensures multiset(Sort(xs, le)) == multiset(xs)
    ensures |Sort(xs, le)| == |xs|
  {
    if |xs| > 0 {
      SortKeepsElements(xs[..|xs| - 1], le);
      InsertKeepsElements(Sort(xs[..|xs| - 1], le), xs[|xs| - 1], le);
      assert xs == xs[..|xs| - 1] + [xs[|xs| - 1]];
    }
  }

  // ---- sorting and filtering commute, so a sort is stable ----

  lemma {:induction false} FilterElements<T>(xs: seq<T>, p: T -> bool)
    ensures |Filter(xs, p)| <= |xs|
    ensures forall x :: x in Filter(xs, p) <==> x in xs && p(x)
  {
    if |xs| > 0 {
      FilterElements(xs[..|xs| - 1], p);
      assert xs == xs[..|xs| - 1] + [xs[|xs| - 1]];
    }
  }

  lemma {:induction false} FilterNone<T>(xs: seq<T>, p: T -> bool)
    requires forall x :: x in xs ==> !p(x)
    ensures Filter(xs, p) == []
  {
    if |xs| > 0 {
      assert xs[|xs| - 1] in xs;
      FilterNone(xs[..|xs| - 1], p);
    }
  }

  lemma {:induction false} FilterAll<T>(xs: seq<T>, p: T -> bool)
    requires forall x :: x in xs ==> p(x)
    ensures Filter(xs, p) == xs
  {
    if |xs| > 0 {
      assert xs[|xs| - 1] in xs;
      FilterAll(xs[..|xs| - 1], p);
      assert xs == xs[..|xs| - 1] + [xs[|xs| - 1]];
    }
  }

  lemma {:induction false} FilterInsert<T(!new)>(xs: seq<T>, x: T, p: T -> bool, le: (T, T) -> bool)
    requires TotalPreorder(le) && Sorted(xs, le)
    ensures Filter(Insert(xs, x, le), p) == if p(x) then Insert(Filter(xs, p), x, le) else Filter(xs, p)
  {
    if |xs| == 0 {
      FilterSnoc(xs, x, p);
    } else if le(xs[|xs| - 1], x) {
      FilterSnoc(xs, x, p);
      assert forall y :: y in Filter(xs, p) ==> le(y, x) by {
        FilterElements(xs, p);
        LastIsGreatest(xs, x, le);
      }
      InsertAtEnd(Filter(xs, p), x, le);
    } else {
      var front, last := xs[..|xs| - 1], xs[|xs| - 1];
      FilterInsert(front, x, p, le);
      FilterAfterInsert(front, last, x, p, le);
    }
  }

  lemma LastIsGreatest<T(!new)>(xs: seq<T>, x: T, le: (T, T) -> bool)
    requires TotalPreorder(le) && Sorted(xs, le)
    requires |xs| > 0 && le(xs[|xs| - 1], x)
    ensures forall y :: y in xs ==> le(y, x)
  {
    forall y | y in xs ensures le(y, x) {
      var i :| 0 <= i < |xs| && xs[i] == y;
      assert le(y, xs[|xs| - 1]);
    }
  }

  lemma FilterAfterInsert<T>(front: seq<T>, last: T, x: T, p: T -> bool, le: (T, T) -> bool)
    requires !le(last, x)
    requires Filter(Insert(front, x, le), p) == if p(x) then Insert(Filter(front, p), x, le) else Filter(front, p)
    ensures Filter(Insert(front, x, le) + [last], p)
         == if p(x) then Insert(Filter(front + [last], p), x, le) else Filter(front + [last], p)
  {
    FilterSnoc(Insert(front, x, le), last, p);
    FilterSnoc(front, last, p);
    InsertBefore(Filter(front, p), last, x, le);
    assert Filter(front, p) + [] == Filter(front, p);
  }

  lemma InsertAtEnd<T>(xs: seq<T>, x: T, le: (T, T) -> bool)
    requires forall y :: y in xs ==> le(y, x)
    ensures Insert(xs, x, le) == xs + [x]
  {
  }

  lemma InsertBefore<T>(xs: seq<T>, last: T, x: T, le: (T, T) -> bool)
    requires !le(last, x)
    ensures Insert(xs + [last], x, le) == Insert(xs, x, le) + [last]
  {
    assert (xs + [last])[..|xs|] == xs;
  }

  lemma {:induction false} SortFilter<T(!new)>(xs: seq<T>, p: T -> bool, le: (T, T) -> bool)
    requires TotalPreorder(le)
    ensures Sort(Filter(xs, p), le) == Filter(Sort(xs, le), p)
  {
    if |xs| > 0 {
      var front, last := xs[..|xs| - 1], xs[|xs| - 1];
      SortFilter(front, p, le);
      SortSorted(front, le);
      FilterInsert(Sort(front, le), last, p, le);
      if p(last) {
        SortSnoc(Filter(front, p), last, le);
      } else {
        assert Filter(xs, p) == Filter(front, p);
      }
    }
  }

  lemma {:induction false} SortOfEqual<T(!new)>(xs: seq<T>, le: (T, T) -> bool)
    requires Sorted(xs, le)
    ensures Sort(xs, le) == xs
  {
    if |xs| > 0 {
      var front, last := xs[..|xs| - 1], xs[|xs| - 1];
      SortOfEqual(front, le);
      assert xs == front + [last];
    }
  }

  /** Stability: sorting leaves the order inside every class of equal keys alone. */
  lemma SortStable<T(!new)>(xs: seq<T>, r: T, le: (T, T) -> bool)
    requires TotalPreorder(le)
    ensures Class(Sort(xs, le), r, le) == Class(xs, r, le)
  {
    SortFilter(xs, Alike(r, le), le);
    var c := Class(xs, r, le);
    FilterElements(xs, Alike(r, le));
    forall i, j | 0 <= i < j < |c| ensures le(c[i], c[j]) {
      assert c[i] in c && c[j] in c;
    }
    SortOfEqual(c, le);
  }

  // ---- a sorted sequence is determined by its classes ----

  lemma {:induction false} FilterHead<T>(xs: seq<T>, p: T -> bool)
    requires |xs| > 0
    ensures Filter(xs, p) == (if p(xs[0]) then [xs[0]] else []) + Filter(xs[1..], p)
    decreases |xs|
  {
    if |xs| > 1 {
      FilterHead(xs[..|xs| - 1], p);
      assert xs[..|xs| - 1][1..] == xs[1..][..|xs| - 2];
      assert xs[1..][|xs| - 2] == xs[|xs| - 1];
    }
  }

  lemma {:induction false} SortedUnique<T(!new)>(xs: seq<T>, ys: seq<T>, le: (T, T) -> bool)
    requires TotalPreorder(le) && Sorted(xs, le) && Sorted(ys, le)
    requires forall r :: Class(xs, r, le) == Class(ys, r, le)
    ensures xs == ys
    decreases |xs|
  {
    if |xs| == 0 {
      if |ys| > 0 {
        FilterHead(ys, Alike(ys[0], le));
        var all := Class(ys, ys[0], le);
      }
    } else {
      forall r ensures forall x :: x in xs && Alike(r, le)(x) <==> x in ys && Alike(r, le)(x) {
        FilterElements(xs, Alike(r, le));
        FilterElements(ys, Alike(r, le));
        assert Class(xs, r, le) == Class(ys, r, le);
      }
      var x := xs[0];
      assert Alike(x, le)(x);
      assert x in ys;
      var y := ys[0];
      assert Alike(y, le)(y);
      assert y in xs;
      assert le(y, x) && le(x, y);
      FilterHead(xs, Alike(x, le));
      FilterHead(ys, Alike(x, le));
      assert Class(xs, x, le)[0] == x && Class(ys, x, le)[0] == y;
      assert Class(xs, x, le) == Class(ys, x, le);
      forall r ensures Class(xs[1..], r, le) == Class(ys[1..], r, le) {
        FilterHead(xs, Alike(r, le));
        FilterHead(ys, Alike(r, le));
        var head := if Alike(r, le)(x) then [x] else [];
        assert head + Class(xs[1..], r, le) == Class(xs, r, le) == Class(ys, r, le) == head + Class(ys[1..], r, le);
        assert Class(xs[1..], r, le) == (head + Class(xs[1..], r, le))[|head|..];
      }
      SortedUnique(xs[1..], ys[1..], le);
      assert xs == [x] + xs[1..] && ys == [y] + ys[1..];
    }
  }

  /** A stable sort sees its input only through the order inside each class. */
  lemma SortCanonical<T(!new)>(xs: seq<T>, ys: seq<T>, le: (T, T) -> bool)
    requires TotalPreorder(le)
    requires forall r :: Class(xs, r, le) == Class(ys, r, le)
    ensures Sort(xs, le) == Sort(ys, le)
  {
    SortSorted(xs, le);
    SortSorted(ys, le);
    forall r ensures Class(Sort(xs, le), r, le) == Class(Sort(ys, le), r, le) {
      SortStable(xs, r, le);
      SortStable(ys, r, le);
      assert Class(xs, r, le) == Class(ys, r, le);
    }
    SortedUnique(Sort(xs, le), Sort(ys, le), le);
  }

  // ---- rearranged input ----

  lemma {:induction false} FilterConcat<T>(xs: seq<T>, ys: seq<T>, p: T -> bool)
    ensures Filter(xs + ys, p) == Filter(xs, p) + Filter(ys, p)
  {
    if |ys| == 0 {
      assert xs + ys == xs;
    } else {
      var front, last := ys[..|ys| - 1], ys[|ys| - 1];
      FilterConcat(xs, front, p);
      assert xs + ys == (xs + front) + [last];
      FilterSnoc(xs + front, last, p);
    }
  }

  lemma {:induction false} FilterMultiplicity<T>(xs: seq<T>, p: T -> bool, x: T)
    ensures multiset(Filter(xs, p))[x] == if p(x) then multiset(xs)[x] else 0
  {
    if |xs| > 0 {
      FilterMultiplicity(xs[..|xs| - 1], p, x);
      assert xs == xs[..|xs| - 1] + [xs[|xs| - 1]];
    }
  }

  /** Filtering rearranged sequences gives rearranged sequences. */
  lemma FilterBag<T(!new)>(xs: seq<T>, ys: seq<T>, p: T -> bool)
    requires multiset(xs) == multiset(ys)
    ensures multiset(Filter(xs, p)) == multiset(Filter(ys, p))
    ensures |Filter(xs, p)| == |Filter(ys, p)|
  {
    var a, b := multiset(Filter(xs, p)), multiset(Filter(ys, p));
    forall x ensures a[x] == b[x] {
      FilterMultiplicity(xs, p, x);
      FilterMultiplicity(ys, p, x);
    }
    assert a == b;
    assert |a| == |Filter(xs, p)| && |b| == |Filter(ys, p)|;
  }

  /** Sorted sequences whose classes have the same sizes agree up to equal keys, place by place. */
  lemma {:induction false} SortedAlike<T(!new)>(xs: seq<T>, ys: seq<T>, le: (T, T) -> bool)
    requires TotalPreorder(le) && Sorted(xs, le) && Sorted(ys, le)
    requires |xs| == |ys|
    requires forall r :: |Class(xs, r, le)| == |Class(ys, r, le)|
    ensures forall i :: 0 <= i < |xs| ==> Alike(xs[i], le)(ys[i])
    decreases |xs|
  {
    if |xs| > 0 {
      var x, y := xs[0], ys[0];
      SomeoneAlike(xs, ys, y, le);
      SomeoneAlike(ys, xs, x, le);
      assert le(x, y) && le(y, x);
      forall r ensures |Class(xs[1..], r, le)| == |Class(ys[1..], r, le)| {
        FilterHead(xs, Alike(r, le));
        FilterHead(ys, Alike(r, le));
        assert Alike(r, le)(x) == Alike(r, le)(y);
        assert |Class(xs, r, le)| == |Class(ys, r, le)|;
      }
      SortedAlike(xs[1..], ys[1..], le);
      forall i | 0 <= i < |xs| ensures Alike(xs[i], le)(ys[i]) {
        if i > 0 {
          assert xs[i] == xs[1..][i - 1] && ys[i] == ys[1..][i - 1];
        }
      }
    }
  }

  /** If `r` heads sorted `ys` and `xs` has as many elements like it, then the head of sorted `xs` is at most `r`. */
  lemma SomeoneAlike<T(!new)>(xs: seq<T>, ys: seq<T>, r: T, le: (T, T) -> bool)
    requires TotalPreorder(le) && Sorted(xs, le)
    requires |xs| > 0 && |ys| > 0 && r == ys[0]
    requires |Class(xs, r, le)| == |Class(ys, r, le)|
    ensures le(xs[0], r)
  {
    FilterHead(ys, Alike(r, le));
    assert |Class(xs, r, le)| > 0;
    FilterElements(xs, Alike(r, le));
    var c := Class(xs, r, le)[0];
    assert c in Class(xs, r, le);
    var i :| 0 <= i < |xs| && xs[i] == c;
    assert le(xs[0], c) && le(c, r);
  }

  /** Sorting rearranged input gives the same keys in the same places. */
  lemma SortedRearrangement<T(!new)>(xs: seq<T>, ys: seq<T>, le: (T, T) -> bool)
    requires TotalPreorder(le) && multiset(xs) == multiset(ys)
    ensures |Sort(xs, le)| == |Sort(ys, le)|
    ensures forall i :: 0 <= i < |Sort(xs, le)| ==>
      le(Sort(xs, le)[i], Sort(ys, le)[i]) && le(Sort(ys, le)[i], Sort(xs, le)[i])
  {
    SortSorted(xs, le);
    SortSorted(ys, le);
    SortKeepsElements(xs, le);
    SortKeepsElements(ys, le);
    assert |xs| == |multiset(xs)| == |ys|;
    forall r ensures |Class(Sort(xs, le), r, le)| == |Class(Sort(ys, le), r, le)| {
      FilterBag(Sort(xs, le), Sort(ys, le), Alike(r, le));
    }
    SortedAlike(Sort(xs, le), Sort(ys, le), le);
    forall i | 0 <= i < |Sort(xs, le)|
      ensures le(Sort(xs, le)[i], Sort(ys, le)[i]) && le(Sort(ys, le)[i], Sort(xs, le)[i])
    {
      assert Alike(Sort(xs, le)[i], le)(Sort(ys, le)[i]);
    }
  }

  lemma {:induction false} DistinctPart<T>(xs: seq<T>, p: T -> bool)
    requires Distinct(xs)
    ensures Distinct(Filter(xs, p))
  {
    if |xs| > 0 {
      var front, last := xs[..|xs| - 1], xs[|xs| - 1];
      assert forall i :: 0 <= i < |front| ==> front[i] == xs[i];
      DistinctPart(front, p);
      FilterElements(front, p);
      assert last !in front;
    }
  }

  lemma {:induction false} OnceIn<T>(xs: seq<T>, x: T)
    requires Distinct(xs)
    ensures multiset(xs)[x] <= 1
  {
    if |xs| > 0 {
      var front, last := xs[..|xs| - 1], xs[|xs| - 1];
      assert xs == front + [last];
      assert forall i :: 0 <= i < |front| ==> front[i] == xs[i];
      OnceIn(front, x);
      assert last !in front;
    }
  }
}
