/** The whole-column operations the results page applies to its frames:
    sum, mean, minimum, and selecting the rows of a boolean mask. */
module Columns {

  function Sum(xs: seq<real>): real
  {
    if |xs| == 0 then 0.0 else Sum(xs[..|xs| - 1]) + xs[|xs| - 1]
  }

  function Mean(xs: seq<real>): real
    requires |xs| > 0
  {
    Sum(xs) / |xs| as real
  }

  /** The smallest value of a non-empty column. */
  function Min(xs: seq<real>): (m: real)
    requires |xs| > 0
    ensures m in xs
    ensures forall i :: 0 <= i < |xs| ==> m <= xs[i]
  {
    if |xs| == 1 then xs[0]
    else
      var m' := Min(xs[..|xs| - 1]);
      if xs[|xs| - 1] < m' then xs[|xs| - 1] else m'
  }

  /** Summing an affine image of a column. */
  lemma {:induction false} SumAffine(xs: seq<real>, ys: seq<real>, a: real, b: real)
    requires |ys| == |xs|
    requires forall i :: 0 <= i < |xs| ==> ys[i] == a * xs[i] + b
    ensures Sum(ys) == a * Sum(xs) + b * |xs| as real
  {
    if |xs| > 0 {
      var n := |xs|;
      SumAffine(xs[..n - 1], ys[..n - 1], a, b);
      assert a * Sum(xs) == a * Sum(xs[..n - 1]) + a * xs[n - 1];
    }
  }

  /** The mean of an affine image of a column is the affine image of its mean. */
  lemma MeanAffine(xs: seq<real>, ys: seq<real>, a: real, b: real)
    requires |ys| == |xs| > 0
    requires forall i :: 0 <= i < |xs| ==> ys[i] == a * xs[i] + b
    ensures Mean(ys) == a * Mean(xs) + b
  {
    var n := |xs| as real;
    SumAffine(xs, ys, a, b);
    var mx, my := Mean(xs), Mean(ys);
    assert mx * n == Sum(xs);
    assert my * n == Sum(ys);
    assert (a * mx + b) * n == a * (mx * n) + b * n;
    Cancel(my, a * mx + b, n);
  }

  lemma Cancel(x: real, y: real, n: real)
    requires n > 0.0 && x * n == y * n
    ensures x == y
  {
  }

  /** A column whose values lie in [lo, hi] sums to between n * lo and n * hi. */
  lemma {:induction false} SumBounds(xs: seq<real>, lo: real, hi: real)
    requires forall i :: 0 <= i < |xs| ==> lo <= xs[i] <= hi
    ensures |xs| as real * lo <= Sum(xs) <= |xs| as real * hi
  {
    if |xs| > 0 {
      SumBounds(xs[..|xs| - 1], lo, hi);
    }
  }

  /** The mean of a column lies between any bounds on its values. */
  lemma MeanBounds(xs: seq<real>, lo: real, hi: real)
    requires |xs| > 0
    requires forall i :: 0 <= i < |xs| ==> lo <= xs[i] <= hi
    ensures lo <= Mean(xs) <= hi
  {
    var n := |xs| as real;
    SumBounds(xs, lo, hi);
    assert lo == n * lo / n && hi == n * hi / n;
  }

  /** In a column without negative values, every value is at most the sum. */
  lemma {:induction false} SumAtLeastEach(xs: seq<real>, i: int)
    requires forall k :: 0 <= k < |xs| ==> 0.0 <= xs[k]
    requires 0 <= i < |xs|
    ensures xs[i] <= Sum(xs)
  {
    var n := |xs|;
    if i < n - 1 {
      SumAtLeastEach(xs[..n - 1], i);
    } else if n > 1 {
      SumAtLeastEach(xs[..n - 1], 0);
    }
  }

  /** Number of `true` entries of a mask. */
  function Count(mask: seq<bool>): (n: nat)
    ensures n <= |mask|
  {
    if |mask| == 0 then 0
    else Count(mask[..|mask| - 1]) + (if mask[|mask| - 1] then 1 else 0)
  }

  /** The entries of `xs` whose mask entry is `true`, in their order. */
  function Where<T>(xs: seq<T>, mask: seq<bool>): (r: seq<T>)
    requires |mask| == |xs|
    ensures |r| == Count(mask)
  {
    if |xs| == 0 then []
    else
      Where(xs[..|xs| - 1], mask[..|mask| - 1]) +
      (if mask[|mask| - 1] then [xs[|xs| - 1]] else [])
  }

  /** Among kept entries, one further on has more kept entries before it. */
  lemma {:induction false} CountGrows(mask: seq<bool>, i: int, j: int)
    requires 0 <= i < j <= |mask| && mask[i]
    ensures Count(mask[..i]) < Count(mask[..j])
  {
    if j == i + 1 {
      assert mask[..j][..i] == mask[..i];
    } else {
      CountGrows(mask, i, j - 1);
      assert mask[..j][..j - 1] == mask[..j - 1];
    }
  }

  /** A kept entry lands at the position given by the number of kept entries
      before it. */
  lemma {:induction false} WhereKeeps<T>(xs: seq<T>, mask: seq<bool>, i: int)
    requires |mask| == |xs| && 0 <= i < |xs| && mask[i]
    ensures Count(mask[..i]) < |Where(xs, mask)|
    ensures Where(xs, mask)[Count(mask[..i])] == xs[i]
  {
    var n := |xs|;
    if i == n - 1 {
      assert mask[..i] == mask[..n - 1];
    } else {
      WhereKeeps(xs[..n - 1], mask[..n - 1], i);
      assert mask[..n - 1][..i] == mask[..i];
    }
  }

  /** Every entry of the selection is a kept entry, at the position WhereKeeps
      gives it. */
  lemma {:induction false} WhereOnlyKept<T>(xs: seq<T>, mask: seq<bool>, k: int)
    requires |mask| == |xs| && 0 <= k < |Where(xs, mask)|
    ensures exists i :: 0 <= i < |xs| && mask[i] && Count(mask[..i]) == k && xs[i] == Where(xs, mask)[k]
  {
    var n := |xs|;
    var front := Where(xs[..n - 1], mask[..n - 1]);
    if k < |front| {
      WhereOnlyKept(xs[..n - 1], mask[..n - 1], k);
      var i :| 0 <= i < n - 1 && mask[..n - 1][i] && Count(mask[..n - 1][..i]) == k && xs[..n - 1][i] == front[k];
      assert mask[..n - 1][..i] == mask[..i];
    } else {
      assert mask[n - 1] && Count(mask[..n - 1]) == k;
    }
  }
}
