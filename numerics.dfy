/** Exact-arithmetic stand-ins for the numpy and scipy numerics of the
    classifier. Every number is a `real`; `exp` and `log` are supplied by the
    caller, so nothing here fixes a floating-point value. */
module Numerics {

  /** `1e-10`: added inside every `log` and to every row-sum denominator. */
  const LogFloor: real := 0.0000000001
  /** `1e-5`: added to a tree-vote variance before it is inverted. */
  const VarianceFloor: real := 0.00001
  /** `1e-5`: the gamma mass an expert needs before it is refit. */
  const MassFloor: real := 0.00001

  /** The two transcendental functions, as parameters of the model. */
  datatype ExpLog = ExpLog(exp: real -> real, log: real -> real)

  /** The one fact about `exp` the model relies on. */
  ghost predicate ExpPositive(nm: ExpLog) {
    forall x :: nm.exp(x) > 0.0
  }

  /** `exp` and `log` as inverse functions over the positive reals, with
      `exp(a - b) == exp(a) / exp(b)`: what a row normalised in log space
      relies on to sum to one. */
  ghost predicate ExpLogLaws(nm: ExpLog) {
    && ExpPositive(nm)
    && (forall x :: x > 0.0 ==> nm.exp(nm.log(x)) == x)
    && (forall a, b, c {:trigger nm.exp(a), nm.exp(b), nm.exp(c)} ::
          c == a - b ==> nm.exp(c) == nm.exp(a) / nm.exp(b))
  }

  lemma ExpOfLog(nm: ExpLog, x: real)
    requires ExpLogLaws(nm) && x > 0.0
    ensures nm.exp(nm.log(x)) == x
  {
  }

  lemma ExpDifference(nm: ExpLog, a: real, b: real)
    requires ExpLogLaws(nm)
    ensures nm.exp(a - b) == nm.exp(a) / nm.exp(b)
  {
    assert nm.exp(a) == nm.exp(a) && nm.exp(b) == nm.exp(b) && nm.exp(a - b) == nm.exp(a - b);
  }

  type Matrix = seq<seq<real>>

  ghost predicate IsMatrix(m: Matrix, rows: nat, cols: nat) {
    |m| == rows && forall i :: 0 <= i < rows ==> |m[i]| == cols
  }

  function Abs(x: real): (r: real)
    ensures r >= 0.0 && (r == x || r == -x)
  {
    if x < 0.0 then -x else x
  }

  /** numpy's `sum`, accumulated left to right. */
  function Sum(s: seq<real>): real
    decreases |s|
  {
    if |s| == 0 then 0.0 else Sum(s[..|s| - 1]) + s[|s| - 1]
  }

  /** Element-wise division of a row by one denominator. */
  function Divide(s: seq<real>, d: real): (r: seq<real>)
    requires d != 0.0
    ensures |r| == |s|
    ensures forall k :: 0 <= k < |s| ==> r[k] == s[k] / d
  {
    seq(|s|, k requires 0 <= k < |s| => s[k] / d)
  }

  function ExpAll(nm: ExpLog, v: seq<real>): (r: seq<real>)
    ensures |r| == |v|
  {
    seq(|v|, k requires 0 <= k < |v| => nm.exp(v[k]))
  }

  lemma ExpAt(nm: ExpLog, x: real)
    requires ExpPositive(nm)
    ensures nm.exp(x) > 0.0
  {
  }

  lemma ExpAllPositive(nm: ExpLog, v: seq<real>)
    requires ExpPositive(nm)
    ensures forall k :: 0 <= k < |v| ==> ExpAll(nm, v)[k] > 0.0
  {
    forall k | 0 <= k < |v|
      ensures ExpAll(nm, v)[k] > 0.0
    {
      ExpAt(nm, v[k]);
    }
  }

  /** scipy's `logsumexp`, by its value `log(sum(exp(v)))`; the max-shift it
      uses against overflow does not change that value over the reals. */
  function LogSumExp(nm: ExpLog, v: seq<real>): real {
    nm.log(Sum(ExpAll(nm, v)))
  }

  /** `row / (row.sum() + 1e-10)`: the epsilon-guarded row normalisation used
      for the transition table and for the gating weights. */
  function Normalise(row: seq<real>): (r: seq<real>)
    requires Sum(row) + LogFloor != 0.0
    ensures |r| == |row|
  {
    Divide(row, Sum(row) + LogFloor)
  }

  ghost predicate NonNegative(s: seq<real>) {
    forall k :: 0 <= k < |s| ==> s[k] >= 0.0
  }

  lemma {:induction false} SumNonNegative(s: seq<real>)
    requires NonNegative(s)
    ensures Sum(s) >= 0.0
  {
    if |s| > 0 {
      SumNonNegative(s[..|s| - 1]);
    }
  }

  lemma {:induction false} SumPositive(s: seq<real>)
    requires |s| > 0 && forall k :: 0 <= k < |s| ==> s[k] > 0.0
    ensures Sum(s) > 0.0
  {
    SumNonNegative(s[..|s| - 1]);
  }

  /** A non-negative entry never exceeds the sum of its row. */
  lemma {:induction false} EntryAtMostSum(s: seq<real>, k: nat)
    requires NonNegative(s) && k < |s|
    ensures s[k] <= Sum(s)
  {
    if k == |s| - 1 {
      SumNonNegative(s[..|s| - 1]);
    } else {
      EntryAtMostSum(s[..|s| - 1], k);
    }
  }

  /** Summing after dividing is dividing after summing. */
  lemma {:induction false} SumDivide(s: seq<real>, d: real)
    requires d != 0.0
    ensures Sum(Divide(s, d)) == Sum(s) / d
  {
    if |s| > 0 {
      var q := Divide(s, d);
      assert q[..|q| - 1] == Divide(s[..|s| - 1], d);
      SumDivide(s[..|s| - 1], d);
      assert Sum(q) == Sum(s[..|s| - 1]) / d + s[|s| - 1] / d;
    }
  }

  /** The row `a * s[k] + b`. */
  function Affine(s: seq<real>, a: real, b: real): (r: seq<real>)
    ensures |r| == |s|
  {
    seq(|s|, k requires 0 <= k < |s| => a * s[k] + b)
  }

  /** The sum of `a * s[k] + b` over a row. */
  lemma {:induction false} SumAffine(s: seq<real>, a: real, b: real)
    ensures Sum(Affine(s, a, b)) == a * Sum(s) + |s| as real * b
  {
    if |s| > 0 {
      var q := Affine(s, a, b);
      var s' := s[..|s| - 1];
      forall k | 0 <= k < |s'|
        ensures q[..|q| - 1][k] == Affine(s', a, b)[k]
      {
      }
      assert q[..|q| - 1] == Affine(s', a, b);
      SumAffine(s', a, b);
      calc {
        Sum(q);
        Sum(Affine(s', a, b)) + (a * s[|s| - 1] + b);
        a * Sum(s') + |s'| as real * b + a * s[|s| - 1] + b;
        a * (Sum(s') + s[|s| - 1]) + (|s'| as real + 1.0) * b;
      }
    }
  }

  lemma DivideSelf(x: real)
    requires x != 0.0
    ensures x / x == 1.0
  {
  }

  lemma DividePositive(x: real, d: real)
    requires x > 0.0 && d > 0.0
    ensures x / d > 0.0
  {
  }

  lemma DivideBelowOne(x: real, d: real)
    requires 0.0 <= x < d
    ensures 0.0 <= x / d < 1.0
  {
    assert x / d * d == x;
  }

  lemma DivideMonotone(x: real, y: real, d: real)
    requires d > 0.0 && x <= y
    ensures x / d <= y / d
  {
  }

  /** Normalised weights are non-negative, below one, keep the order of the
      raw values, and sum to S/(S+1e-10) < 1 where S is the raw sum; an
      all-zero row gives all-zero weights instead of a division error. */
  lemma NormaliseWeights(row: seq<real>)
    requires NonNegative(row)
    ensures Sum(row) + LogFloor > 0.0
    ensures var w := Normalise(row);
      && (forall k :: 0 <= k < |w| ==> 0.0 <= w[k] < 1.0)
      && Sum(w) == Sum(row) / (Sum(row) + LogFloor)
      && 0.0 <= Sum(w) < 1.0
      && (Sum(row) == 0.0 ==> forall k :: 0 <= k < |w| ==> w[k] == 0.0)
      && (forall a, b :: 0 <= a < |w| && 0 <= b < |w| && row[a] <= row[b] ==> w[a] <= w[b])
  {
    SumNonNegative(row);
    var d := Sum(row) + LogFloor;
    var w := Normalise(row);
    SumDivide(row, d);
    DivideBelowOne(Sum(row), d);
    forall k | 0 <= k < |w|
      ensures 0.0 <= w[k] < 1.0
    {
      EntryAtMostSum(row, k);
      DivideBelowOne(row[k], d);
    }
    forall k | 0 <= k < |w| && Sum(row) == 0.0
      ensures w[k] == 0.0
    {
      EntryAtMostSum(row, k);
    }
    forall a, b | 0 <= a < |w| && 0 <= b < |w| && row[a] <= row[b]
      ensures w[a] <= w[b]
    {
      DivideMonotone(row[a], row[b], d);
    }
  }
}
