/** The payoff inequality (src/testbed_kernel/measures.py), over reals: the closed form over
    the sorted values is half the relative mean difference. */
module Inequality {
  import opened Sorting

  function Total(xs: seq<real>): real {
    if |xs| == 0 then 0.0 else Total(xs[..|xs| - 1]) + xs[|xs| - 1]
  }

  function Least(xs: seq<real>): (m: real)
    requires |xs| > 0
    ensures exists i :: 0 <= i < |xs| && xs[i] == m
    ensures forall i :: 0 <= i < |xs| ==> m <= xs[i]
  {
    var last := xs[|xs| - 1];
    if |xs| == 1 then last
    else
      var m := Least(xs[..|xs| - 1]);
      assert exists i :: 0 <= i < |xs| && xs[i] == m;
      if last < m then last else m
  }

  function Moved(xs: seq<real>, m: real): (r: seq<real>)
    ensures |r| == |xs| && forall i :: 0 <= i < |xs| ==> r[i] == xs[i] - m
  {
    if |xs| == 0 then [] else Moved(xs[..|xs| - 1], m) + [xs[|xs| - 1] - m]
  }

  /** Moved up to start at zero when some value is negative. */
  function Shifted(values: seq<real>): seq<real>
    requires |values| > 0
  {
    if Least(values) < 0.0 then Moved(values, Least(values)) else values
  }

  function AtMost(): (real, real) -> bool {
    (a: real, b: real) => a <= b
  }

  /** The values, each times its place. */
  function Weighted(xs: seq<real>): real {
    if |xs| == 0 then 0.0 else Weighted(xs[..|xs| - 1]) + |xs| as real * xs[|xs| - 1]
  }

  function ClosedForm(weighted: real, n: real, total: real): real
    requires n > 0.0
  {
    if total == 0.0 then 0.0
    else
      assert n * total != 0.0;
      (2.0 * weighted) / (n * total) - (n + 1.0) / n
  }

  /** `_gini`. */
  function Gini(values: seq<real>): real {
    if |values| == 0 then 0.0
    else
      var shifted := Shifted(values);
      assert |shifted| > 0;
      ClosedForm(Weighted(Sort(shifted, AtMost())), |shifted| as real, Total(shifted))
  }

  // ---- the definition it is measured against ----

  function Distance(a: real, b: real): real {
    if a < b then b - a else a - b
  }

  function Distances(xs: seq<real>, y: real): real {
    if |xs| == 0 then 0.0 else Distances(xs[..|xs| - 1], y) + Distance(xs[|xs| - 1], y)
  }

  function CrossDistances(xs: seq<real>, ys: seq<real>): real {
    if |ys| == 0 then 0.0 else CrossDistances(xs, ys[..|ys| - 1]) + Distances(xs, ys[|ys| - 1])
  }

  /** The sum of |x - y| over all ordered pairs. */
  function Spread(xs: seq<real>): real {
    CrossDistances(xs, xs)
  }

  lemma {:induction false} CrossSnoc(xs: seq<real>, x: real, ys: seq<real>)
    ensures CrossDistances(xs + [x], ys) == CrossDistances(xs, ys) + Distances(ys, x)
  {
    if |ys| > 0 {
      CrossSnoc(xs, x, ys[..|ys| - 1]);
      assert (xs + [x])[..|xs|] == xs;
    }
  }

  lemma SpreadSnoc(xs: seq<real>, x: real)
    ensures Spread(xs + [x]) == Spread(xs) + 2.0 * Distances(xs, x)
  {
    assert (xs + [x])[..|xs|] == xs;
    CrossSnoc(xs, x, xs);
    DistancesSnoc(xs, x, x);
  }

  lemma DistancesSnoc(xs: seq<real>, x: real, y: real)
    ensures Distances(xs + [x], y) == Distances(xs, y) + Distance(x, y)
  {
    assert (xs + [x])[..|xs|] == xs;
  }

  // ---- the closed form ----

  lemma {:induction false} DistancesBelow(xs: seq<real>, y: real)
    requires forall i :: 0 <= i < |xs| ==> xs[i] <= y
    ensures Distances(xs, y) == |xs| as real * y - Total(xs)
  {
    if |xs| > 0 {
      DistancesBelow(xs[..|xs| - 1], y);
    }
  }

  function SortedSum(weighted: real, n: real, total: real): real {
    4.0 * weighted - 2.0 * (n + 1.0) * total
  }

  /** Over sorted values, the sum over all pairs needs each value only once. */
  lemma {:induction false} SortedSpread(xs: seq<real>)
    requires Sorted(xs, AtMost())
    ensures Spread(xs) == SortedSum(Weighted(xs), |xs| as real, Total(xs))
  {
    if |xs| > 0 {
      var front, last := xs[..|xs| - 1], xs[|xs| - 1];
      SortedSpread(front);
      forall i | 0 <= i < |front| ensures front[i] <= last {
        assert AtMost()(xs[i], xs[|xs| - 1]);
      }
      DistancesBelow(front, last);
      SpreadSnoc(front, last);
      assert xs == front + [last];
    }
  }

  lemma {:induction false} InsertSums(xs: seq<real>, x: real, y: real)
    ensures Total(Insert(xs, x, AtMost())) == Total(xs) + x
    ensures Distances(Insert(xs, x, AtMost()), y) == Distances(xs, y) + Distance(x, y)
  {
    if |xs| == 0 {
      assert [x][..0] == [];
    } else if xs[|xs| - 1] <= x {
      assert (xs + [x])[..|xs|] == xs;
    } else {
      var front, last := xs[..|xs| - 1], xs[|xs| - 1];
      InsertSums(front, x, y);
      var r := Insert(front, x, AtMost());
      assert (r + [last])[..|r|] == r;
    }
  }

  lemma {:induction false} SortSums(xs: seq<real>, y: real)
    ensures Total(Sort(xs, AtMost())) == Total(xs) && Distances(Sort(xs, AtMost()), y) == Distances(xs, y)
  {
    if |xs| > 0 {
      SortSums(xs[..|xs| - 1], y);
      InsertSums(Sort(xs[..|xs| - 1], AtMost()), xs[|xs| - 1], y);
    }
  }

  lemma {:induction false} CrossSymmetric(xs: seq<real>, ys: seq<real>)
    ensures CrossDistances(xs, ys) == CrossDistances(ys, xs)
  {
    if |xs| == 0 {
      CrossNothing(ys);
    } else {
      var front, last := xs[..|xs| - 1], xs[|xs| - 1];
      CrossSymmetric(front, ys);
      CrossSnoc(front, last, ys);
      assert xs == front + [last];
    }
  }

  lemma {:induction false} CrossNothing(ys: seq<real>)
    ensures CrossDistances([], ys) == 0.0
  {
    if |ys| > 0 {
      CrossNothing(ys[..|ys| - 1]);
    }
  }

  lemma {:induction false} CrossSorted(xs: seq<real>, ys: seq<real>)
    ensures CrossDistances(Sort(xs, AtMost()), ys) == CrossDistances(xs, ys)
  {
    if |ys| > 0 {
      CrossSorted(xs, ys[..|ys| - 1]);
      SortSums(xs, ys[|ys| - 1]);
    }
  }

  lemma SortKeepsSpread(xs: seq<real>)
    ensures Spread(Sort(xs, AtMost())) == Spread(xs)
  {
    var sorted := Sort(xs, AtMost());
    CrossSorted(xs, sorted);
    CrossSymmetric(xs, sorted);
    CrossSorted(xs, xs);
  }

  /** Half the relative mean difference: the distances over all ordered pairs, by 2 n times the total. */
  function MeanDifference(spread: real, n: real, total: real): real
    requires n > 0.0
  {
    if total == 0.0 then 0.0
    else
      assert 2.0 * n * total != 0.0;
      spread / (2.0 * n * total)
  }

  lemma Quotients(w: real, t: real, n: real)
    requires n > 0.0
    ensures ClosedForm(w, n, t) == MeanDifference(SortedSum(w, n, t), n, t)
  {
    if t != 0.0 {
      var p, spread := n * t, SortedSum(w, n, t);
      assert p != 0.0;
      var a, b, c := (2.0 * w) / p, (n + 1.0) / n, spread / (2.0 * n * t);
      assert a * p == 2.0 * w;
      assert b * n == n + 1.0;
      assert b * p == (n + 1.0) * t;
      assert 2.0 * n * t == 2.0 * p;
      assert c * (2.0 * p) == spread;
      assert (a - b - c) * (2.0 * p) == 0.0;
    }
  }

  lemma SortedForm(xs: seq<real>)
    ensures Spread(xs) == SortedSum(Weighted(Sort(xs, AtMost())), |xs| as real, Total(xs))
  {
    var sorted := Sort(xs, AtMost());
    SortSorted(xs, AtMost());
    SortKeepsElements(xs, AtMost());
    SortSums(xs, 0.0);
    SortKeepsSpread(xs);
    hide Spread, Weighted, Sort, Total, Sorted, SortedSum;
    SortedSpread(sorted);
    assert |sorted| == |xs| && Total(sorted) == Total(xs) && Spread(sorted) == Spread(xs);
  }

  /** `_gini` is half the relative mean difference of the shifted values. */
  lemma GiniIsMeanDifference(values: seq<real>)
    requires |values| > 0
    ensures Gini(values) == MeanDifference(Spread(Shifted(values)), |values| as real, Total(Shifted(values)))
  {
    hide Spread, Weighted, Sort, Total, Shifted, ClosedForm, MeanDifference, SortedSum;
    var xs := Shifted(values);
    ShiftedLength(values);
    SortedForm(xs);
    Quotients(Weighted(Sort(xs, AtMost())), Total(xs), |xs| as real);
  }

  lemma ShiftedLength(values: seq<real>)
    requires |values| > 0
    ensures |Shifted(values)| == |values|
  {
  }

  // ---- bounds ----

  ghost predicate NonNegative(xs: seq<real>) {
    forall i :: 0 <= i < |xs| ==> xs[i] >= 0.0
  }

  lemma ShiftedIsNonNegative(values: seq<real>)
    requires |values| > 0
    ensures NonNegative(Shifted(values)) && |Shifted(values)| == |values|
  {
  }

  lemma FrontIsNonNegative(xs: seq<real>)
    requires NonNegative(xs) && |xs| > 0
    ensures NonNegative(xs[..|xs| - 1]) && xs[|xs| - 1] >= 0.0
  {
  }

  lemma {:induction false} SumIsNonNegative(xs: seq<real>, y: real)
    requires NonNegative(xs)
    ensures Total(xs) >= 0.0
    ensures y >= 0.0 ==> 0.0 <= Distances(xs, y) <= Total(xs) + |xs| as real * y
  {
    if |xs| > 0 {
      FrontIsNonNegative(xs);
      SumIsNonNegative(xs[..|xs| - 1], y);
      hide NonNegative;
      assert |xs| as real * y == |xs[..|xs| - 1]| as real * y + y;
    }
  }

  lemma {:induction false} SpreadBounds(xs: seq<real>)
    requires NonNegative(xs)
    ensures 0.0 <= Spread(xs)
    ensures |xs| > 0 ==> Spread(xs) <= 2.0 * (|xs| as real - 1.0) * Total(xs)
  {
    if |xs| > 0 {
      var front, last := xs[..|xs| - 1], xs[|xs| - 1];
      FrontIsNonNegative(xs);
      SpreadBounds(front);
      SumIsNonNegative(front, last);
      SpreadSnoc(front, last);
      hide NonNegative, Distances, Spread;
      assert xs == front + [last];
      if |front| > 0 {
        BoundStep(Spread(front), Distances(front, last), |front| as real, Total(front), last);
      }
    }
  }

  lemma BoundStep(spread: real, more: real, n: real, total: real, last: real)
    requires spread <= 2.0 * (n - 1.0) * total && more <= total + n * last
    ensures spread + 2.0 * more <= 2.0 * n * (total + last)
  {
  }

  lemma Ratio(spread: real, n: real, t: real)
    requires n > 0.0 && t > 0.0 && 0.0 <= spread <= 2.0 * (n - 1.0) * t
    ensures 0.0 <= MeanDifference(spread, n, t) <= (n - 1.0) / n
  {
    var p := n * t;
    assert p > 0.0;
    var c, b := spread / (2.0 * n * t), (n - 1.0) / n;
    assert 2.0 * n * t == 2.0 * p;
    assert c * (2.0 * p) == spread;
    assert b * n == n - 1.0;
    assert b * (2.0 * p) == 2.0 * (n - 1.0) * t;
    assert (b - c) * (2.0 * p) >= 0.0;
  }

  lemma NonNegativeRatio(n: real)
    requires n >= 1.0
    ensures 0.0 <= (n - 1.0) / n
  {
    var q := (n - 1.0) / n;
    assert q * n == n - 1.0;
  }

  /** Nobody can be more unequal than one who has everything. */
  lemma GiniBounds(values: seq<real>)
    requires |values| > 0
    ensures 0.0 <= Gini(values) <= (|values| as real - 1.0) / |values| as real
  {
    hide Gini, Spread, Total, Shifted, NonNegative, MeanDifference;
    var xs, n := Shifted(values), |values| as real;
    GiniIsMeanDifference(values);
    ShiftedIsNonNegative(values);
    SumIsNonNegative(xs, 0.0);
    SpreadBounds(xs);
    if Total(xs) != 0.0 {
      Ratio(Spread(xs), n, Total(xs));
    } else {
      NoDifference(Spread(xs), n);
      NonNegativeRatio(n);
    }
  }

  lemma NoDifference(spread: real, n: real)
    requires n > 0.0
    ensures MeanDifference(spread, n, 0.0) == 0.0
  {
  }

  // ---- equality ----

  ghost predicate AllEqual(xs: seq<real>) {
    forall i, j :: 0 <= i < |xs| && 0 <= j < |xs| ==> xs[i] == xs[j]
  }

  ghost predicate AllAre(xs: seq<real>, y: real) {
    forall i :: 0 <= i < |xs| ==> xs[i] == y
  }

  lemma {:induction false} NoDistance(xs: seq<real>, y: real)
    ensures Distances(xs, y) >= 0.0
    ensures Distances(xs, y) == 0.0 <==> AllAre(xs, y)
  {
    if |xs| > 0 {
      var front, last := xs[..|xs| - 1], xs[|xs| - 1];
      NoDistance(front, y);
      assert AllAre(xs, y) <==> AllAre(front, y) && last == y;
    }
  }

  lemma {:induction false} NoSpread(xs: seq<real>)
    ensures Spread(xs) >= 0.0
    ensures Spread(xs) == 0.0 <==> AllEqual(xs)
  {
    if |xs| > 0 {
      var front, last := xs[..|xs| - 1], xs[|xs| - 1];
      NoSpread(front);
      NoDistance(front, last);
      SpreadSnoc(front, last);
      assert xs == front + [last];
      assert AllEqual(xs) <==> AllEqual(front) && AllAre(front, last);
    }
  }

  lemma {:induction false} NothingInTotal(xs: seq<real>)
    requires NonNegative(xs) && Total(xs) == 0.0
    ensures AllAre(xs, 0.0)
  {
    if |xs| > 0 {
      var front := xs[..|xs| - 1];
      FrontIsNonNegative(xs);
      SumIsNonNegative(front, 0.0);
      NothingInTotal(front);
    }
  }

  lemma ShiftKeepsEquality(values: seq<real>)
    requires |values| > 0
    ensures AllEqual(Shifted(values)) <==> AllEqual(values)
  {
    var m, xs := Least(values), Shifted(values);
    if m < 0.0 {
      assert forall i :: 0 <= i < |values| ==> xs[i] == values[i] - m;
      assert forall i :: 0 <= i < |values| ==> values[i] == xs[i] + m;
    }
  }

  lemma ZeroDifference(spread: real, n: real, total: real)
    requires n > 0.0 && total != 0.0
    ensures MeanDifference(spread, n, total) == 0.0 <==> spread == 0.0
  {
    var b := 2.0 * n * total;
    assert b != 0.0;
    assert (spread / b) * b == spread;
  }

  /** Zero exactly when everyone gets the same amount. */
  lemma GiniZero(values: seq<real>)
    ensures Gini(values) == 0.0 <==> AllEqual(values)
  {
    if |values| == 0 {
    } else {
      hide Gini, Spread, Total, Shifted, NonNegative, MeanDifference;
      var xs, n := Shifted(values), |values| as real;
      GiniIsMeanDifference(values);
      ShiftedIsNonNegative(values);
      ShiftKeepsEquality(values);
      NoSpread(xs);
      if Total(xs) == 0.0 {
        NoDifference(Spread(xs), n);
        NothingInTotal(xs);
      } else {
        ZeroDifference(Spread(xs), n, Total(xs));
      }
    }
  }

  // ---- invariance ----

  lemma SameSorted(xs: seq<real>, ys: seq<real>)
    requires multiset(xs) == multiset(ys)
    ensures Sort(xs, AtMost()) == Sort(ys, AtMost()) && |xs| == |ys|
  {
    SortedRearrangement(xs, ys, AtMost());
    SortKeepsElements(xs, AtMost());
    SortKeepsElements(ys, AtMost());
  }

  lemma MovedSnoc(xs: seq<real>, x: real, m: real)
    ensures Moved(xs + [x], m) == Moved(xs, m) + [x - m]
  {
    assert (xs + [x])[..|xs|] == xs;
  }

  lemma {:induction false} InsertMoved(xs: seq<real>, x: real, m: real)
    ensures Moved(Insert(xs, x, AtMost()), m) == Insert(Moved(xs, m), x - m, AtMost())
  {
    hide Moved;
    MovedSnoc(xs, x, m);
    if |xs| > 0 {
      var front, last := xs[..|xs| - 1], xs[|xs| - 1];
      assert xs == front + [last];
      MovedSnoc(front, last, m);
      assert Moved(xs, m)[..|front|] == Moved(front, m);
      if last > x {
        InsertMoved(front, x, m);
        MovedSnoc(Insert(front, x, AtMost()), last, m);
      }
    } else {
      assert [] + [x] == [x];
    }
  }

  lemma {:induction false} SortMoved(xs: seq<real>, m: real)
    ensures Sort(Moved(xs, m), AtMost()) == Moved(Sort(xs, AtMost()), m)
  {
    if |xs| > 0 {
      var front, last := xs[..|xs| - 1], xs[|xs| - 1];
      assert xs == front + [last];
      SortMoved(front, m);
      hide Sort, Moved, Insert;
      SortSnoc(front, last, AtMost());
      MovedSnoc(front, last, m);
      SortSnoc(Moved(front, m), last - m, AtMost());
      InsertMoved(Sort(front, AtMost()), last, m);
    }
  }

  lemma LeastIsIn(xs: seq<real>, ys: seq<real>)
    requires |xs| > 0 && |ys| > 0 && multiset(xs) == multiset(ys)
    ensures Least(ys) <= Least(xs)
  {
    hide Least;
    var i :| 0 <= i < |xs| && xs[i] == Least(xs);
    assert xs[i] in multiset(xs);
    assert xs[i] in multiset(ys);
    var j :| 0 <= j < |ys| && ys[j] == xs[i];
  }

  lemma SameLeast(xs: seq<real>, ys: seq<real>)
    requires |xs| > 0 && |ys| > 0 && multiset(xs) == multiset(ys)
    ensures Least(ys) == Least(xs)
  {
    hide Least;
    LeastIsIn(xs, ys);
    LeastIsIn(ys, xs);
  }

  lemma ShiftedSorted(xs: seq<real>, ys: seq<real>)
    requires |xs| > 0 && |ys| > 0 && multiset(xs) == multiset(ys)
    ensures Sort(Shifted(xs), AtMost()) == Sort(Shifted(ys), AtMost()) && |Shifted(xs)| == |Shifted(ys)|
  {
    SameLeast(xs, ys);
    SameSorted(xs, ys);
    hide Sort, Least, Moved;
    SortMoved(xs, Least(xs));
    SortMoved(ys, Least(xs));
  }

  /** Who gets which amount does not matter. */
  lemma GiniPermuted(xs: seq<real>, ys: seq<real>)
    requires multiset(xs) == multiset(ys)
    ensures Gini(xs) == Gini(ys)
  {
    assert |multiset(xs)| == |xs| && |multiset(ys)| == |ys|;
    if |xs| > 0 {
      hide Sort, Total, Shifted, Weighted, ClosedForm;
      ShiftedSorted(xs, ys);
      SortSums(Shifted(xs), 0.0);
      SortSums(Shifted(ys), 0.0);
    }
  }

  function Times(k: real, x: real): real {
    k * x
  }

  function Scaled(xs: seq<real>, k: real): (r: seq<real>)
    ensures |r| == |xs|
  {
    if |xs| == 0 then [] else Scaled(xs[..|xs| - 1], k) + [Times(k, xs[|xs| - 1])]
  }

  lemma {:induction false} ScaledAt(xs: seq<real>, k: real, i: nat)
    requires i < |xs|
    ensures Scaled(xs, k)[i] == Times(k, xs[i])
  {
    hide Times;
    if i < |xs| - 1 {
      ScaledAt(xs[..|xs| - 1], k, i);
    }
  }

  lemma Distribute(k: real, a: real, b: real)
    ensures Times(k, a + b) == Times(k, a) + Times(k, b) && Times(k, a - b) == Times(k, a) - Times(k, b)
  {
  }

  lemma ScaledSnoc(xs: seq<real>, x: real, k: real)
    ensures Scaled(xs + [x], k) == Scaled(xs, k) + [Times(k, x)]
  {
    hide Times;
    assert (xs + [x])[..|xs|] == xs;
  }

  lemma TotalSnoc(xs: seq<real>, x: real)
    ensures Total(xs + [x]) == Total(xs) + x
  {
    assert (xs + [x])[..|xs|] == xs;
  }

  lemma Nothing(k: real)
    ensures Times(k, 0.0) == 0.0
  {
  }

  lemma {:induction false} ScaledTotal(xs: seq<real>, k: real)
    ensures Total(Scaled(xs, k)) == Times(k, Total(xs))
  {
    hide Times;
    if |xs| == 0 {
      Nothing(k);
    } else {
      var front, last := xs[..|xs| - 1], xs[|xs| - 1];
      assert xs == front + [last];
      ScaledTotal(front, k);
      hide Total, Scaled;
      TotalSnoc(front, last);
      ScaledSnoc(front, last, k);
      TotalSnoc(Scaled(front, k), Times(k, last));
      Distribute(k, Total(front), last);
    }
  }

  lemma ScaledDistance(a: real, b: real, k: real)
    requires k > 0.0
    ensures Distance(Times(k, a), Times(k, b)) == Times(k, Distance(a, b))
  {
    hide Times;
    Distribute(k, a, b);
    Distribute(k, b, a);
    Monotone(k, a, b);
    Monotone(k, b, a);
  }

  lemma {:induction false} ScaledDistances(xs: seq<real>, k: real, y: real)
    requires k > 0.0
    ensures Distances(Scaled(xs, k), Times(k, y)) == Times(k, Distances(xs, y))
  {
    hide Times;
    if |xs| == 0 {
      Nothing(k);
    } else {
      var front, last := xs[..|xs| - 1], xs[|xs| - 1];
      assert xs == front + [last];
      ScaledDistances(front, k, y);
      hide Distances, Scaled, Distance;
      DistancesSnoc(front, last, y);
      ScaledSnoc(front, last, k);
      DistancesSnoc(Scaled(front, k), Times(k, last), Times(k, y));
      ScaledDistance(last, y, k);
      Distribute(k, Distances(front, y), Distance(last, y));
    }
  }

  lemma CrossLast(xs: seq<real>, ys: seq<real>, y: real)
    ensures CrossDistances(xs, ys + [y]) == CrossDistances(xs, ys) + Distances(xs, y)
  {
    assert (ys + [y])[..|ys|] == ys;
  }

  lemma {:induction false} ScaledCross(xs: seq<real>, ys: seq<real>, k: real)
    requires k > 0.0
    ensures CrossDistances(Scaled(xs, k), Scaled(ys, k)) == Times(k, CrossDistances(xs, ys))
  {
    hide Times;
    if |ys| == 0 {
      Nothing(k);
    } else {
      var front, last := ys[..|ys| - 1], ys[|ys| - 1];
      assert ys == front + [last];
      ScaledCross(xs, front, k);
      hide CrossDistances, Distances, Scaled;
      CrossLast(xs, front, last);
      ScaledSnoc(front, last, k);
      CrossLast(Scaled(xs, k), Scaled(front, k), Times(k, last));
      ScaledDistances(xs, k, last);
      Distribute(k, CrossDistances(xs, front), Distances(xs, last));
    }
  }

  lemma Monotone(k: real, a: real, b: real)
    requires k > 0.0
    ensures a <= b <==> Times(k, a) <= Times(k, b)
  {
    if a <= b {
      assert k * (b - a) >= 0.0;
    } else {
      assert k * (a - b) > 0.0;
    }
  }

  lemma ScaledLeast(xs: seq<real>, k: real)
    requires |xs| > 0 && k > 0.0
    ensures Least(Scaled(xs, k)) == Times(k, Least(xs))
  {
    hide Least, Scaled, Times;
    var ys := Scaled(xs, k);
    var i :| 0 <= i < |xs| && xs[i] == Least(xs);
    ScaledAt(xs, k, i);
    var j :| 0 <= j < |ys| && ys[j] == Least(ys);
    ScaledAt(xs, k, j);
    Monotone(k, Least(xs), xs[j]);
  }

  lemma ScaledMoved(xs: seq<real>, k: real, m: real)
    ensures Moved(Scaled(xs, k), Times(k, m)) == Scaled(Moved(xs, m), k)
  {
    hide Times, Scaled, Moved;
    var a, b := Moved(Scaled(xs, k), Times(k, m)), Scaled(Moved(xs, m), k);
    forall i | 0 <= i < |xs| ensures a[i] == b[i] {
      ScaledAt(xs, k, i);
      ScaledAt(Moved(xs, m), k, i);
      Distribute(k, xs[i], m);
    }
  }

  lemma ScaledShift(xs: seq<real>, k: real)
    requires |xs| > 0 && k > 0.0
    ensures Shifted(Scaled(xs, k)) == Scaled(Shifted(xs), k)
  {
    hide Least, Scaled, Moved, Times;
    ScaledLeast(xs, k);
    ScaledMoved(xs, k, Least(xs));
    Nothing(k);
    Monotone(k, 0.0, Least(xs));
  }

  lemma CancelledFactor(k: real, spread: real, n: real, total: real)
    requires k > 0.0 && n > 0.0
    ensures MeanDifference(Times(k, spread), n, Times(k, total)) == MeanDifference(spread, n, total)
  {
    if total != 0.0 {
      var b := 2.0 * n * total;
      assert b != 0.0 && 2.0 * n * (k * total) == k * b;
      var q := spread / b;
      assert q * b == spread;
      assert q * (k * b) == k * spread;
      assert k * b != 0.0;
    }
  }

  /** Nor does the currency. */
  lemma GiniScaled(values: seq<real>, k: real)
    requires k > 0.0
    ensures Gini(Scaled(values, k)) == Gini(values)
  {
    if |values| > 0 {
      hide Gini, Scaled, Shifted, Total, CrossDistances, MeanDifference, Times;
      var xs := Shifted(values);
      GiniIsMeanDifference(values);
      GiniIsMeanDifference(Scaled(values, k));
      ScaledShift(values, k);
      ScaledTotal(xs, k);
      ScaledCross(xs, xs, k);
      CancelledFactor(k, Spread(xs), |values| as real, Total(xs));
    }
  }
}
