/** `_get_expert_confidence`: one score per (sample, expert), chosen by the
    classifier's mode, and the epsilon-guarded normalisation of each row. */
module Gating {
  import opened Outcomes
  import opened Numerics
  import opened Experts

  datatype Mode = Confidence | Risk

  /** ASCII lower-casing, as `mode.lower()` does for the two mode names. */
  function LowerChar(c: char): char {
    if 'A' <= c <= 'Z' then (c as int + 32) as char else c
  }

  /** `mode.lower()`: every capital becomes its small letter, no capital
      is left, and every character that was not one is kept. */
  function Lower(s: string): (r: string)
    ensures |r| == |s|
    ensures forall i :: 0 <= i < |s| && 'A' <= s[i] <= 'Z' ==> r[i] == (s[i] as int + 32) as char
    ensures forall i :: 0 <= i < |s| ==> !('A' <= r[i] <= 'Z')
    ensures forall i :: 0 <= i < |s| && !('A' <= s[i] <= 'Z') ==> r[i] == s[i]
  {
    seq(|s|, i requires 0 <= i < |s| => LowerChar(s[i]))
  }

  /** Lower-casing twice is lower-casing once, so the mode the constructor
      stores is already in the form the dispatch compares against. */
  lemma LowerIdempotent(s: string)
    ensures Lower(Lower(s)) == Lower(s)
  {
    var r := Lower(s);
    forall i | 0 <= i < |s|
      ensures Lower(r)[i] == r[i]
    {
    }
  }

  /** The dispatch on `self.mode`: exactly the two names are accepted. */
  function ParseMode(s: string): (m: Option<Mode>)
    ensures m == Some(Confidence) <==> s == "confidence"
    ensures m == Some(Risk) <==> s == "risk"
    ensures m == None <==> s != "confidence" && s != "risk"
  {
    if s == "confidence" then Some(Confidence)
    else if s == "risk" then Some(Risk)
    else None
  }

  function Mean(v: seq<real>): real
    requires |v| > 0
  {
    Sum(v) / |v| as real
  }

  function SquaredDeviations(v: seq<real>, mu: real): (r: seq<real>)
    ensures |r| == |v|
  {
    seq(|v|, i requires 0 <= i < |v| => (v[i] - mu) * (v[i] - mu))
  }

  lemma DeviationsNonNegative(v: seq<real>, mu: real)
    ensures NonNegative(SquaredDeviations(v, mu))
  {
    var d := SquaredDeviations(v, mu);
    forall i | 0 <= i < |d|
      ensures d[i] >= 0.0
    {
      var x := v[i] - mu;
      assert d[i] == x * x;
      assert x * x >= 0.0 by {
        if x < 0.0 { assert (-x) * (-x) > 0.0; }
      }
    }
  }

  /** `np.var` (population variance) of one sample's tree votes: never
      negative, so the confidence score `1/(var + 1e-5)` is defined. */
  function Variance(v: seq<real>): (r: real)
    requires |v| > 0
    ensures r >= 0.0
  {
    DeviationsNonNegative(v, Mean(v));
    SumNonNegative(SquaredDeviations(v, Mean(v)));
    Sum(SquaredDeviations(v, Mean(v))) / |v| as real
  }

  /** With 0/1 votes, the variance is the Bernoulli variance m(1-m) of the
      fraction m of trees voting for the high-risk class. */
  lemma BernoulliVariance(v: seq<real>)
    requires |v| > 0
    requires forall i :: 0 <= i < |v| ==> v[i] == 0.0 || v[i] == 1.0
    ensures Variance(v) == Mean(v) * (1.0 - Mean(v))
  {
    var m := Mean(v);
    var a, b := 1.0 - 2.0 * m, m * m;
    DeviationsAreAffine(v, m);
    SumAffine(v, a, b);
    BernoulliAlgebra(Sum(SquaredDeviations(v, m)), Sum(v), |v| as real, m);
  }

  lemma DeviationsAreAffine(v: seq<real>, m: real)
    requires forall i :: 0 <= i < |v| ==> v[i] == 0.0 || v[i] == 1.0
    ensures Sum(SquaredDeviations(v, m)) == Sum(Affine(v, 1.0 - 2.0 * m, m * m))
  {
    var d := SquaredDeviations(v, m);
    var a := Affine(v, 1.0 - 2.0 * m, m * m);
    forall i | 0 <= i < |v|
      ensures d[i] == a[i]
    {
      BernoulliSquare(v[i], m);
    }
    assert d == a;
  }

  lemma BernoulliSquare(x: real, m: real)
    requires x == 0.0 || x == 1.0
    ensures (x - m) * (x - m) == (1.0 - 2.0 * m) * x + m * m
  {
  }

  lemma BernoulliAlgebra(deviations: real, total: real, n: real, m: real)
    requires n > 0.0 && m == total / n
    requires deviations == (1.0 - 2.0 * m) * total + n * (m * m)
    ensures deviations / n == m * (1.0 - m)
  {
    assert total == m * n;
    assert deviations == (m * (1.0 - m)) * n;
  }

  /** `np.linspace(0, 1, n_states)[k]`: evenly spaced from 0 to 1, a single
      state sitting at 0. */
  function Prototype(k: nat, n: nat): (r: real)
    requires k < n
    ensures 0.0 <= r <= 1.0
  {
    if n == 1 then 0.0 else k as real / (n - 1) as real
  }

  /** The prototypes start at 0, end at 1 and increase strictly. */
  lemma PrototypesSpan(n: nat)
    requires n > 1
    ensures Prototype(0, n) == 0.0 && Prototype(n - 1, n) == 1.0
    ensures forall a, b :: 0 <= a < b < n ==> Prototype(a, n) < Prototype(b, n)
  {
    DivideSelf((n - 1) as real);
    forall a, b | 0 <= a < b < n
      ensures Prototype(a, n) < Prototype(b, n)
    {
      DivideStrict(a as real, b as real, (n - 1) as real);
    }
  }

  lemma DivideStrict(x: real, y: real, d: real)
    requires d > 0.0 && x < y
    ensures x / d < y / d
  {
  }

  /** The raw score of expert k on one sample: `1/(var + 1e-5)` over its tree
      votes in confidence mode, `exp(-5|p - prototype_k|)` in risk mode. It is
      always positive. */
  function RawScore(o: Oracle, m: Mode, k: nat, n: nat, e: Expert, x: Sample): (r: real)
    requires ValidOracle(o) && k < n
    ensures r > 0.0
  {
    match m
    case Confidence =>
      var votes := o.treeVotes(e, x);
      assert |votes| > 0;
      1.0 / (Variance(votes) + VarianceFloor)
    case Risk =>
      var distance := Abs(o.riskProba(e, x) - Prototype(k, n));
      ExpAt(o.num, -distance * 5.0);
      o.num.exp(-distance * 5.0)
  }

  /** In confidence mode a forest whose trees vote 0/1 scores 1/(m(1-m) + 1e-5),
      m being its fraction of high-risk votes: unanimous forests score highest. */
  lemma ConfidenceScoreOfVotes(o: Oracle, k: nat, n: nat, e: Expert, x: Sample)
    requires ValidOracle(o) && k < n
    requires var v := o.treeVotes(e, x); forall i :: 0 <= i < |v| ==> v[i] == 0.0 || v[i] == 1.0
    ensures |o.treeVotes(e, x)| > 0
    ensures var m := Mean(o.treeVotes(e, x)); m * (1.0 - m) >= 0.0
    ensures var m := Mean(o.treeVotes(e, x));
      RawScore(o, Confidence, k, n, e, x) == 1.0 / (m * (1.0 - m) + VarianceFloor)
  {
    assert |o.treeVotes(e, x)| > 0;
    BernoulliVariance(o.treeVotes(e, x));
  }

  /** Row `scores[r, :]`: expert k's raw score for k below the number of
      experts, and the 0 of `np.zeros` for any column no expert fills. */
  function ScoreRow(o: Oracle, m: Mode, experts: seq<Expert>, x: Sample, n: nat): (r: seq<real>)
    requires ValidOracle(o) && |experts| <= n
    ensures |r| == n
  {
    seq(n, k requires 0 <= k < n => if k < |experts| then RawScore(o, m, k, n, experts[k], x) else 0.0)
  }

  lemma ScoreRowNonNegative(o: Oracle, m: Mode, experts: seq<Expert>, x: Sample, n: nat)
    requires ValidOracle(o) && |experts| <= n
    ensures NonNegative(ScoreRow(o, m, experts, x, n))
  {
  }

  /** One row of the gating output. */
  function Weights(o: Oracle, m: Mode, experts: seq<Expert>, x: Sample, n: nat): (r: seq<real>)
    requires ValidOracle(o) && |experts| <= n
    ensures |r| == n
  {
    ScoreRowNonNegative(o, m, experts, x, n);
    NormaliseWeights(ScoreRow(o, m, experts, x, n));
    Normalise(ScoreRow(o, m, experts, x, n))
  }

  /** `_get_expert_confidence(X)` raises: on an unknown mode; when a
      forest is asked about a table with no rows, which scikit-learn's input
      check refuses (the first expert of either branch asks); in risk mode,
      when some forest knows one class, so that `predict_proba(X)[:, 1]`
      has no column 1. */
  predicate Refuses(mode: string, experts: seq<Expert>, X: seq<Sample>) {
    || ParseMode(mode).None?
    || (|experts| > 0 && |X| == 0)
    || (ParseMode(mode) == Some(Risk) && AnyOneClass(experts))
  }

  /** The exception of a refusal, the mode checked first and the table
      before any forest's classes. */
  function Refusal(mode: string, experts: seq<Expert>, X: seq<Sample>): Error {
    if ParseMode(mode).None? then UnknownMode(mode)
    else if |experts| > 0 && |X| == 0 then NoSamples
    else SingleClass
  }

  /** The value `_get_expert_confidence(X)` returns or raises. */
  function ExpertConfidence(o: Oracle, mode: string, experts: seq<Expert>, X: seq<Sample>, n: nat): (r: Result<Matrix>)
    requires ValidOracle(o) && |experts| <= n
    ensures r.Err? <==> Refuses(mode, experts, X)
    ensures r.Err? ==> r.error == Refusal(mode, experts, X)
  {
    match ParseMode(mode)
    case None => Err(UnknownMode(mode))
    case Some(m) =>
      if |experts| > 0 && |X| == 0 then Err(NoSamples)
      else if m == Risk && AnyOneClass(experts) then Err(SingleClass)
      else Ok(seq(|X|, i requires 0 <= i < |X| => Weights(o, m, experts, X[i], n)))
  }

  /** The `for k, expert in enumerate(self.experts)` loop: column k of
      `scores` receives expert k's raw score on every sample; columns without
      an expert keep the 0 of `np.zeros`. */
  method ExpertScores(o: Oracle, m: Mode, experts: seq<Expert>, X: seq<Sample>, n: nat)
    returns (scores: Matrix)
    requires ValidOracle(o) && |experts| <= n
    ensures |scores| == |X|
    ensures forall i :: 0 <= i < |X| ==> scores[i] == ScoreRow(o, m, experts, X[i], n)
  {
    var table := new real[|X|, n]((i, k) => 0.0);
    for k := 0 to |experts|
      invariant forall i, c :: 0 <= i < |X| && 0 <= c < n ==>
        table[i, c] == (if c < k then RawScore(o, m, c, n, experts[c], X[i]) else 0.0)
    {
      forall i | 0 <= i < |X| {
        table[i, k] := RawScore(o, m, k, n, experts[k], X[i]);
      }
    }
    scores := seq(|X|, i requires 0 <= i < |X| reads table =>
      seq(n, c requires 0 <= c < n reads table => table[i, c]));
    forall i | 0 <= i < |X|
      ensures scores[i] == ScoreRow(o, m, experts, X[i], n)
    {
      forall c | 0 <= c < n
        ensures scores[i][c] == ScoreRow(o, m, experts, X[i], n)[c]
      {
        assert scores[i][c] == table[i, c];
      }
    }
  }

  /** `_get_expert_confidence`: the mode dispatch (raising on an unknown
      mode), the refusals of scikit-learn, the score table, then
      `scores / (row_sums + 1e-10)`. */
  method GetExpertConfidence(o: Oracle, mode: string, experts: seq<Expert>, X: seq<Sample>, n: nat)
    returns (r: Result<Matrix>)
    requires ValidOracle(o) && |experts| <= n
    ensures r == ExpertConfidence(o, mode, experts, X, n)
  {
    var parsed := ParseMode(mode);
    if parsed.None? {
      return Err(UnknownMode(mode));
    }
    var m := parsed.value;
    if |experts| > 0 && |X| == 0 {
      return Err(NoSamples);
    }
    if m == Risk && exists k :: 0 <= k < |experts| && OneClass(experts[k]) {
      return Err(SingleClass);
    }
    var scores := ExpertScores(o, m, experts, X, n);
    forall i | 0 <= i < |X|
      ensures Sum(scores[i]) + LogFloor > 0.0
    {
      ScoreRowNonNegative(o, m, experts, X[i], n);
      NormaliseWeights(scores[i]);
    }
    var weights := seq(|X|, i requires 0 <= i < |X| => Normalise(scores[i]));
    assert weights == ExpertConfidence(o, mode, experts, X, n).value;
    return Ok(weights);
  }

  /** One gating row: weights in [0, 1), positive exactly where an expert
      fills the column, summing to S/(S+1e-10) < 1 for the raw-score sum S. */
  lemma WeightsRow(o: Oracle, m: Mode, experts: seq<Expert>, x: Sample, n: nat)
    requires ValidOracle(o) && |experts| <= n
    ensures var w := Weights(o, m, experts, x, n);
      && (forall k :: 0 <= k < n ==> 0.0 <= w[k] < 1.0)
      && (forall k :: 0 <= k < |experts| ==> w[k] > 0.0)
      && (forall k :: |experts| <= k < n ==> w[k] == 0.0)
    ensures Sum(ScoreRow(o, m, experts, x, n)) >= 0.0
    ensures var w := Weights(o, m, experts, x, n);
      var S := Sum(ScoreRow(o, m, experts, x, n));
      Sum(w) == S / (S + LogFloor) && 0.0 <= Sum(w) < 1.0
  {
    var row := ScoreRow(o, m, experts, x, n);
    var w := Weights(o, m, experts, x, n);
    ScoreRowNonNegative(o, m, experts, x, n);
    NormaliseWeights(row);
    SumNonNegative(row);
    var d := Sum(row) + LogFloor;
    forall k | 0 <= k < |experts|
      ensures w[k] > 0.0
    {
      DividePositive(row[k], d);
    }
  }

  /** The gating output has one row per sample and one column per state, and
      every row is a row as `WeightsRow` describes. */
  lemma ConfidenceWeights(o: Oracle, mode: string, experts: seq<Expert>, X: seq<Sample>, n: nat)
    requires ValidOracle(o) && |experts| <= n
    requires ExpertConfidence(o, mode, experts, X, n).Ok?
    ensures var W := ExpertConfidence(o, mode, experts, X, n).value;
      && IsMatrix(W, |X|, n)
      && forall i :: 0 <= i < |X| ==> W[i] == Weights(o, ParseMode(mode).value, experts, X[i], n)
  {
  }
}
