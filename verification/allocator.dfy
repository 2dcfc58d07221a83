/** The study plan: 40 weekly hours shared among the current-semester
    courses in proportion to units times difficulty. */
module Allocator {
  import opened Records
  import opened Columns

  const WeeklyHours := 40.0

  /** A course's study weight. */
  function Weight(c: CurrRow): (w: int)
    ensures 1 <= w <= 30
  {
    c.units * c.difficulty
  }

  function Weights(curr: seq<CurrRow>): seq<real>
  {
    seq(|curr|, i requires 0 <= i < |curr| => Weight(curr[i]) as real)
  }

  lemma WeightsAt(curr: seq<CurrRow>, i: int)
    requires 0 <= i < |curr|
    ensures |Weights(curr)| == |curr| && Weights(curr)[i] == Weight(curr[i]) as real
  {
  }

  /** The sum of the weights; never zero, every weight being at least 1. */
  function TotalWeight(curr: seq<CurrRow>): (t: real)
    requires |curr| > 0
    ensures t > 0.0
  {
    SumBounds(Weights(curr), 1.0, 30.0);
    Sum(Weights(curr))
  }

  lemma WeightWithinTotal(curr: seq<CurrRow>, i: int)
    requires 0 <= i < |curr|
    ensures Weight(curr[i]) as real <= TotalWeight(curr)
  {
    SumAtLeastEach(Weights(curr), i);
  }

  /** Hours per week for each course, in input order; no courses, no hours. */
  function Allocate(curr: seq<CurrRow>): (hours: seq<real>)
    ensures |hours| == |curr|
    ensures forall i :: 0 <= i < |curr| ==> 0.0 < hours[i] <= WeeklyHours
  {
    if |curr| == 0 then [] else
    var ws, total := Weights(curr), TotalWeight(curr);
    var hours := seq(|curr|, i requires 0 <= i < |curr| => ws[i] / total * WeeklyHours);
    forall i | 0 <= i < |curr|
      ensures 0.0 < hours[i] <= WeeklyHours
    {
      WeightWithinTotal(curr, i);
      ShareBounds(ws[i], total);
    }
    hours
  }

  /** A positive weight's share of the weekly hours lies in (0, 40]. */
  lemma ShareBounds(w: real, total: real)
    requires 0.0 < w <= total
    ensures 0.0 < w / total * WeeklyHours <= WeeklyHours
  {
    assert w / total <= 1.0;
  }

  /** Shares of a total: each is the weight over the total times 40. */
  ghost predicate Shares(ws: seq<real>, hs: seq<real>, total: real)
  {
    total > 0.0 && |hs| == |ws| &&
    forall i :: 0 <= i < |ws| ==> hs[i] == ws[i] / total * WeeklyHours
  }

  lemma AllocateShares(curr: seq<CurrRow>)
    requires |curr| > 0
    ensures Shares(Weights(curr), Allocate(curr), TotalWeight(curr))
  {
  }

  /** Hours that are the weights at one common rate. */
  ghost predicate AtRate(ws: seq<real>, hs: seq<real>, rate: real)
  {
    rate > 0.0 && |hs| == |ws| &&
    forall i :: 0 <= i < |ws| ==> hs[i] == rate * ws[i]
  }

  /** Shares are the weights at one common rate: 40 hours over the total. */
  lemma SharesAtRate(ws: seq<real>, hs: seq<real>, total: real)
    requires Shares(ws, hs, total)
    ensures AtRate(ws, hs, WeeklyHours / total)
  {
    forall i | 0 <= i < |ws|
      ensures hs[i] == (WeeklyHours / total) * ws[i]
    {
      ShareAsRate(ws[i], total);
    }
  }

  lemma ShareAsRate(w: real, total: real)
    requires total > 0.0
    ensures w / total * WeeklyHours == (WeeklyHours / total) * w
  {
    assert w / total * WeeklyHours == w * WeeklyHours / total;
  }

  /** Every course gets its weight times one common rate. */
  lemma AllocationAtRate(curr: seq<CurrRow>)
    requires |curr| > 0
    ensures AtRate(Weights(curr), Allocate(curr), WeeklyHours / TotalWeight(curr))
  {
    AllocateShares(curr);
    SharesAtRate(Weights(curr), Allocate(curr), TotalWeight(curr));
  }

  /** Hours `hi` for weight `wi` and hours `hj` for weight `wj` stand in
      the same ratio: hi / wi == hj / wj, cross-multiplied. */
  predicate InProportion(hi: real, wi: real, hj: real, wj: real)
  {
    hi * wj == hj * wi
  }

  /** Any two courses' hours stand in the ratio of their weights. */
  lemma AllocationProportional(curr: seq<CurrRow>, i: int, j: int)
    requires 0 <= i < |curr| && 0 <= j < |curr|
    ensures InProportion(Allocate(curr)[i], Weight(curr[i]) as real,
                         Allocate(curr)[j], Weight(curr[j]) as real)
  {
    AllocationAtRate(curr);
    WeightsAt(curr, i);
    WeightsAt(curr, j);
    CrossMultiply(Weights(curr), Allocate(curr), WeeklyHours / TotalWeight(curr), i, j,
                  Weight(curr[i]) as real, Weight(curr[j]) as real);
  }

  lemma CrossMultiply(ws: seq<real>, hs: seq<real>, rate: real, i: int, j: int, wi: real, wj: real)
    requires AtRate(ws, hs, rate) && 0 <= i < |ws| && 0 <= j < |ws|
    requires ws[i] == wi && ws[j] == wj
    ensures InProportion(hs[i], wi, hs[j], wj)
  {
    assert hs[i] * wj == rate * (wi * wj);
  }

  /** The plan always spends exactly the 40 weekly hours. */
  lemma AllocationSpendsWeeklyHours(curr: seq<CurrRow>)
    requires |curr| > 0
    ensures Sum(Allocate(curr)) == WeeklyHours
  {
    AllocateShares(curr);
    SharesSum(Weights(curr), Allocate(curr), TotalWeight(curr));
  }

  lemma SharesSum(ws: seq<real>, hs: seq<real>, total: real)
    requires Shares(ws, hs, total) && Sum(ws) == total
    ensures Sum(hs) == WeeklyHours
  {
    SharesAtRate(ws, hs, total);
    RateSum(ws, hs, WeeklyHours / total);
    RateTimesTotal(total);
  }

  lemma RateSum(ws: seq<real>, hs: seq<real>, rate: real)
    requires AtRate(ws, hs, rate)
    ensures Sum(hs) == rate * Sum(ws)
  {
    forall i | 0 <= i < |ws|
      ensures hs[i] == rate * ws[i] + 0.0
    {
    }
    SumAffine(ws, hs, rate, 0.0);
  }

  lemma RateTimesTotal(total: real)
    requires total > 0.0
    ensures (WeeklyHours / total) * total == WeeklyHours
  {
  }

  /** More weight means strictly more hours, equal weight equal hours. */
  lemma AllocationFollowsWeight(curr: seq<CurrRow>, i: int, j: int)
    requires 0 <= i < |curr| && 0 <= j < |curr|
    ensures Allocate(curr)[i] < Allocate(curr)[j] <==> Weight(curr[i]) < Weight(curr[j])
    ensures Allocate(curr)[i] == Allocate(curr)[j] <==> Weight(curr[i]) == Weight(curr[j])
  {
    AllocateShares(curr);
    SharesOrdered(Weights(curr), Allocate(curr), TotalWeight(curr), i, j);
  }

  lemma SharesOrdered(ws: seq<real>, hs: seq<real>, total: real, i: int, j: int)
    requires Shares(ws, hs, total) && 0 <= i < |ws| && 0 <= j < |ws|
    ensures hs[i] < hs[j] <==> ws[i] < ws[j]
    ensures hs[i] == hs[j] <==> ws[i] == ws[j]
  {
    SharesAtRate(ws, hs, total);
    RateOrdered(WeeklyHours / total, ws[i], ws[j]);
  }

  lemma RateOrdered(rate: real, wi: real, wj: real)
    requires rate > 0.0
    ensures rate * wi < rate * wj <==> wi < wj
    ensures rate * wi == rate * wj <==> wi == wj
  {
    assert rate * wj - rate * wi == rate * (wj - wi);
  }

  /** Courses of equal weight share the hours evenly: 8 each for five. */
  lemma EqualWeightsShareEvenly(curr: seq<CurrRow>)
    requires |curr| > 0
    requires forall i :: 0 <= i < |curr| ==> Weight(curr[i]) == Weight(curr[0])
    ensures forall i :: 0 <= i < |curr| ==> Allocate(curr)[i] == WeeklyHours / |curr| as real
  {
    AllocateShares(curr);
    WeightsAt(curr, 0);
    SharesEven(Weights(curr), Allocate(curr), TotalWeight(curr));
  }

  lemma SharesEven(ws: seq<real>, hs: seq<real>, total: real)
    requires Shares(ws, hs, total) && Sum(ws) == total && |ws| > 0 && ws[0] > 0.0
    requires forall i :: 0 <= i < |ws| ==> ws[i] == ws[0]
    ensures forall i :: 0 <= i < |ws| ==> hs[i] == WeeklyHours / |ws| as real
  {
    UniformSum(ws, ws[0]);
    forall i | 0 <= i < |ws|
      ensures hs[i] == WeeklyHours / |ws| as real
    {
      EvenShare(hs[i], ws[i], ws[0], |ws| as real, total);
    }
  }

  lemma UniformSum(ws: seq<real>, w: real)
    requires forall i :: 0 <= i < |ws| ==> ws[i] == w
    ensures Sum(ws) == w * |ws| as real
  {
    SumAffine(ws, ws, 0.0, w);
  }

  /** The share of one of n equal weights is 40 / n. */
  lemma EvenShare(h: real, wi: real, w: real, n: real, total: real)
    requires wi == w && w > 0.0 && n > 0.0 && total == w * n
    requires h == wi / total * WeeklyHours
    ensures h == WeeklyHours / n
  {
    assert w / (w * n) == 1.0 / n;
  }
}
