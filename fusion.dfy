/** The tail of `predict_proba` and `predict`: the experts' class-1
    probabilities mixed with the regime posteriors as weights, the output pair
    `[1 - p, p]`, and the strict `> 0.5` threshold. */
module Fusion {
  import opened Numerics
  import opened Experts

  /** `gamma[i, k] * expert_risk[i]` for every state k: what
      `final_risk_prob[i]` receives from expert k. */
  function Contributions(o: Oracle, experts: seq<Expert>, g: seq<real>, x: Sample): (r: seq<real>)
    requires |g| <= |experts|
    ensures |r| == |g|
  {
    seq(|g|, k requires 0 <= k < |g| => g[k] * o.riskProba(experts[k], x))
  }

  /** `final_risk_prob[i]`: the posterior-weighted mixture of the experts'
      class-1 probabilities on sample i. */
  function Fused(o: Oracle, experts: seq<Expert>, g: seq<real>, x: Sample): real
    requires |g| <= |experts|
  {
    Sum(Contributions(o, experts, g, x))
  }

  /** `final_risk_prob` for every sample. */
  function FusedRisks(o: Oracle, experts: seq<Expert>, gamma: Matrix, X: seq<Sample>, n: nat): (p: seq<real>)
    requires IsMatrix(gamma, |X|, n) && n <= |experts|
    ensures |p| == |X|
  {
    seq(|X|, i requires 0 <= i < |X| => Fused(o, experts, gamma[i], X[i]))
  }

  lemma ContributionsPrefix(o: Oracle, experts: seq<Expert>, g: seq<real>, x: Sample, m: nat)
    requires m <= |g| <= |experts|
    ensures Contributions(o, experts, g, x)[..m] == Contributions(o, experts, g[..m], x)
  {
    var c := Contributions(o, experts, g, x);
    forall j | 0 <= j < m
      ensures c[..m][j] == Contributions(o, experts, g[..m], x)[j]
    {
    }
  }

  lemma SumPrefixStep(c: seq<real>, k: nat)
    requires k < |c|
    ensures Sum(c[..k + 1]) == Sum(c[..k]) + c[k]
  {
    assert c[..k + 1][..k] == c[..k];
  }

  /** The `for k in range(self.n_states)` loop, adding expert k's weighted
      probabilities to `final_risk_prob` in place. */
  method FuseRisk(o: Oracle, experts: seq<Expert>, gamma: Matrix, X: seq<Sample>, n: nat) returns (p: seq<real>)
    requires IsMatrix(gamma, |X|, n) && n <= |experts|
    ensures p == FusedRisks(o, experts, gamma, X, n)
  {
    var final := new real[|X|](i => 0.0);
    for k := 0 to n
      invariant forall i :: 0 <= i < |X| ==> final[i] == Sum(Contributions(o, experts, gamma[i], X[i])[..k])
    {
      forall i | 0 <= i < |X| {
        final[i] := final[i] + gamma[i][k] * o.riskProba(experts[k], X[i]);
      }
      forall i | 0 <= i < |X|
        ensures final[i] == Sum(Contributions(o, experts, gamma[i], X[i])[..k + 1])
      {
        SumPrefixStep(Contributions(o, experts, gamma[i], X[i]), k);
      }
    }
    p := final[..];
    forall i | 0 <= i < |X|
      ensures p[i] == FusedRisks(o, experts, gamma, X, n)[i]
    {
      assert Contributions(o, experts, gamma[i], X[i])[..n] == Contributions(o, experts, gamma[i], X[i]);
    }
  }

  /** `np.vstack([1 - final_risk_prob, final_risk_prob]).T`. */
  function ProbaRows(p: seq<real>): (P: Matrix)
    ensures IsMatrix(P, |p|, 2)
  {
    seq(|p|, i requires 0 <= i < |p| => [1.0 - p[i], p[i]])
  }

  /** `(probs[:, 1] > 0.5).astype(int)`. */
  function Labels(P: Matrix): (y: seq<int>)
    requires IsMatrix(P, |P|, 2)
    ensures |y| == |P| && forall i :: 0 <= i < |P| ==> y[i] == 0 || y[i] == 1
  {
    seq(|P|, i requires 0 <= i < |P| => if P[i][1] > 0.5 then 1 else 0)
  }

  /** Each output row is `[1 - p, p]` and sums to exactly 1; it lies in
      [0, 1] when p does. */
  lemma ProbaRowsSumToOne(p: seq<real>)
    ensures forall i :: 0 <= i < |p| ==> ProbaRows(p)[i][1] == p[i] && Sum(ProbaRows(p)[i]) == 1.0
    ensures forall i :: 0 <= i < |p| && 0.0 <= p[i] <= 1.0 ==>
      0.0 <= ProbaRows(p)[i][0] <= 1.0 && 0.0 <= ProbaRows(p)[i][1] <= 1.0
  {
    forall i | 0 <= i < |p|
      ensures Sum(ProbaRows(p)[i]) == 1.0
    {
      var row := ProbaRows(p)[i];
      assert row[..1][..0] == [];
      assert Sum(row[..1]) == 1.0 - p[i];
    }
  }

  /** One label per output row: 1 exactly where the class-1 column is
      strictly above one half, so a tie at 0.5 is class 0. */
  ghost predicate Thresholded(P: Matrix, labels: seq<int>)
    requires IsMatrix(P, |P|, 2)
  {
    && |labels| == |P|
    && (forall i :: 0 <= i < |P| ==> (labels[i] == 1 <==> P[i][1] > 0.5))
    && (forall i :: 0 <= i < |P| ==> (labels[i] == 0 <==> P[i][1] <= 0.5))
  }

  /** `predict` thresholds the class-1 column as `Thresholded` states. */
  lemma LabelsThreshold(P: Matrix)
    requires IsMatrix(P, |P|, 2)
    ensures Thresholded(P, Labels(P))
  {
  }

  /** With non-negative weights and class probabilities in [0, 1], the
      mixture lies between 0 and the total weight. */
  lemma MixtureBounds(o: Oracle, experts: seq<Expert>, g: seq<real>, x: Sample)
    requires ValidOracle(o) && |g| <= |experts| && NonNegative(g)
    ensures 0.0 <= Fused(o, experts, g, x) <= Sum(g)
  {
    var c := Contributions(o, experts, g, x);
    forall k | 0 <= k < |g|
      ensures 0.0 <= c[k] <= g[k]
    {
      assert 0.0 <= o.riskProba(experts[k], x) <= 1.0;
      WeightedBounds(g[k], o.riskProba(experts[k], x));
    }
    SumBetween(c, g);
  }

  /** Entry-wise `0 <= c <= g` carries over to the sums. */
  lemma {:induction false} SumBetween(c: seq<real>, g: seq<real>)
    requires |c| == |g| && forall k :: 0 <= k < |g| ==> 0.0 <= c[k] <= g[k]
    ensures 0.0 <= Sum(c) <= Sum(g)
    decreases |g|
  {
    if |g| > 0 {
      SumBetween(c[..|c| - 1], g[..|g| - 1]);
    }
  }

  lemma WeightedBounds(w: real, q: real)
    requires w >= 0.0 && 0.0 <= q <= 1.0
    ensures 0.0 <= w * q <= w
  {
  }

  /** Experts that agree on a sample give that answer back, scaled by the
      total weight: the posterior only matters where the experts differ. */
  lemma {:induction false} AgreeingExperts(o: Oracle, experts: seq<Expert>, g: seq<real>, x: Sample, q: real)
    requires |g| <= |experts|
    requires forall k :: 0 <= k < |g| ==> o.riskProba(experts[k], x) == q
    ensures Fused(o, experts, g, x) == q * Sum(g)
    decreases |g|
  {
    if |g| > 0 {
      var m := |g| - 1;
      ContributionsPrefix(o, experts, g, x, m);
      AgreeingExperts(o, experts, g[..m], x, q);
    }
  }

  /** A posterior certain of state k passes expert k's answer through. */
  lemma {:induction false} CertainState(o: Oracle, experts: seq<Expert>, g: seq<real>, x: Sample, k: nat)
    requires |g| <= |experts| && k < |g| && g[k] == 1.0
    requires forall j :: 0 <= j < |g| && j != k ==> g[j] == 0.0
    ensures Fused(o, experts, g, x) == o.riskProba(experts[k], x)
    decreases |g|
  {
    var m := |g| - 1;
    var c := Contributions(o, experts, g, x);
    ContributionsPrefix(o, experts, g, x, m);
    if k < m {
      CertainState(o, experts, g[..m], x, k);
    } else {
      ZeroContributions(o, experts, g[..m], x);
    }
  }

  lemma {:induction false} ZeroContributions(o: Oracle, experts: seq<Expert>, g: seq<real>, x: Sample)
    requires |g| <= |experts| && forall j :: 0 <= j < |g| ==> g[j] == 0.0
    ensures Fused(o, experts, g, x) == 0.0
    decreases |g|
  {
    if |g| > 0 {
      var m := |g| - 1;
      ContributionsPrefix(o, experts, g, x, m);
      ZeroContributions(o, experts, g[..m], x);
    }
  }
}
