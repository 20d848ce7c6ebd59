/** The counting half of `_init_params`: transitions between consecutive
    cluster labels and start-label counts, and their normalisation into the
    initial transition table and start distribution. The clustering itself is
    an input: `labels` is the KMeans assignment of every sample. */
module InitParams {
  import opened Numerics

  /** Every label names one of the `n` states. */
  ghost predicate LabelsBelow(labels: seq<nat>, n: nat) {
    forall t :: 0 <= t < |labels| ==> labels[t] < n
  }

  /** Number of loop steps of `range(len(labels) - 1)`. */
  function Steps(labels: seq<nat>): nat {
    if |labels| == 0 then 0 else |labels| - 1
  }

  /** Number of steps t < m with labels[t] == i and labels[t+1] == j. */
  function PairCount(labels: seq<nat>, i: nat, j: nat, m: nat): nat
    requires m <= Steps(labels)
  {
    if m == 0 then 0
    else PairCount(labels, i, j, m - 1) + (if labels[m - 1] == i && labels[m] == j then 1 else 0)
  }

  /** Number of positions t < m with labels[t] == i. */
  function Occurrences(labels: seq<nat>, i: nat, m: nat): nat
    requires m <= |labels|
  {
    if m == 0 then 0
    else Occurrences(labels, i, m - 1) + (if labels[m - 1] == i then 1 else 0)
  }

  /** The `for t in range(len(labels) - 1)` loop that fills `trans_counts`. */
  method CountTransitions(labels: seq<nat>, n: nat) returns (counts: array2<real>)
    requires LabelsBelow(labels, n)
    ensures counts.Length0 == n && counts.Length1 == n
    ensures forall i, j :: 0 <= i < n && 0 <= j < n ==>
      counts[i, j] == PairCount(labels, i, j, Steps(labels)) as real
  {
    counts := new real[n, n]((i, j) => 0.0);
    for t := 0 to Steps(labels)
      invariant forall i, j :: 0 <= i < n && 0 <= j < n ==>
        counts[i, j] == PairCount(labels, i, j, t) as real
    {
      var curr, next := labels[t], labels[t + 1];
      counts[curr, next] := counts[curr, next] + 1.0;
    }
  }

  /** The transition counts as a value. */
  function CountMatrix(labels: seq<nat>, n: nat): (m: Matrix)
    ensures IsMatrix(m, n, n)
  {
    seq(n, i requires 0 <= i < n =>
      seq(n, j requires 0 <= j < n => PairCount(labels, i, j, Steps(labels)) as real))
  }

  /** `trans_counts / (trans_counts.sum(axis=1, keepdims=True) + 1e-10)`. */
  function NormaliseRows(m: Matrix): (r: Matrix)
    requires forall i :: 0 <= i < |m| ==> NonNegative(m[i])
    ensures |r| == |m| && forall i :: 0 <= i < |m| ==> |r[i]| == |m[i]|
  {
    seq(|m|, i requires 0 <= i < |m| =>
      NormaliseWeights(m[i]);
      Normalise(m[i]))
  }

  function InitialTransitions(labels: seq<nat>, n: nat): (r: Matrix)
    ensures IsMatrix(r, n, n)
  {
    NormaliseRows(CountMatrix(labels, n))
  }

  /** `np.bincount(labels, minlength=n_states)` for labels below n_states. */
  function BinCount(labels: seq<nat>, n: nat): (r: seq<real>)
    ensures |r| == n
  {
    seq(n, k requires 0 <= k < n => Occurrences(labels, k, |labels|) as real)
  }

  /** `start_counts / start_counts.sum()`. KMeans has rejected every input
      with fewer samples than states before this runs, so `labels` is not
      empty and the sum is `len(labels)`. */
  function StartProb(labels: seq<nat>, n: nat): (r: seq<real>)
    requires |labels| > 0
    ensures |r| == n
  {
    Divide(BinCount(labels, n), |labels| as real)
  }

  // ---------------------------------------------------------------------
  // Counting identities

  /** Sum over the columns j < c of PairCount(i, j, m). */
  function RowTotal(labels: seq<nat>, i: nat, c: nat, m: nat): nat
    requires m <= Steps(labels)
  {
    if c == 0 then 0 else RowTotal(labels, i, c - 1, m) + PairCount(labels, i, c - 1, m)
  }

  /** Sum over the states i < r of Occurrences(i, m). */
  function OccurrenceTotal(labels: seq<nat>, r: nat, m: nat): nat
    requires m <= |labels|
  {
    if r == 0 then 0 else OccurrenceTotal(labels, r - 1, m) + Occurrences(labels, r - 1, m)
  }

  lemma {:induction false} RowTotalStep(labels: seq<nat>, i: nat, c: nat, m: nat)
    requires m < Steps(labels)
    ensures RowTotal(labels, i, c, m + 1) ==
      RowTotal(labels, i, c, m) + (if labels[m] == i && labels[m + 1] < c then 1 else 0)
  {
    if c > 0 {
      RowTotalStep(labels, i, c - 1, m);
    }
  }

  lemma {:induction false} RowTotalZero(labels: seq<nat>, i: nat, c: nat)
    ensures RowTotal(labels, i, c, 0) == 0
  {
    if c > 0 {
      RowTotalZero(labels, i, c - 1);
    }
  }

  /** Row i of the transition counts sums to the number of times state i is left. */
  lemma {:induction false} RowTotalIsDepartures(labels: seq<nat>, i: nat, n: nat, m: nat)
    requires LabelsBelow(labels, n) && m <= Steps(labels)
    ensures RowTotal(labels, i, n, m) == Occurrences(labels, i, m)
  {
    if m == 0 {
      RowTotalZero(labels, i, n);
    } else {
      RowTotalIsDepartures(labels, i, n, m - 1);
      RowTotalStep(labels, i, n, m - 1);
    }
  }

  lemma {:induction false} OccurrenceTotalStep(labels: seq<nat>, r: nat, m: nat)
    requires m < |labels|
    ensures OccurrenceTotal(labels, r, m + 1) ==
      OccurrenceTotal(labels, r, m) + (if labels[m] < r then 1 else 0)
  {
    if r > 0 {
      OccurrenceTotalStep(labels, r - 1, m);
    }
  }

  lemma {:induction false} OccurrenceTotalZero(labels: seq<nat>, r: nat)
    ensures OccurrenceTotal(labels, r, 0) == 0
  {
    if r > 0 {
      OccurrenceTotalZero(labels, r - 1);
    }
  }

  /** Every one of the first m labels is counted under exactly one state. */
  lemma {:induction false} OccurrencesPartition(labels: seq<nat>, n: nat, m: nat)
    requires LabelsBelow(labels, n) && m <= |labels|
    ensures OccurrenceTotal(labels, n, m) == m
  {
    if m == 0 {
      OccurrenceTotalZero(labels, n);
    } else {
      OccurrencesPartition(labels, n, m - 1);
      OccurrenceTotalStep(labels, n, m - 1);
    }
  }

  /** The real-valued sum of a row of counts equals its natural-number total. */
  lemma {:induction false} SumOfCountRow(labels: seq<nat>, i: nat, c: nat)
    ensures Sum(seq(c, j requires 0 <= j < c => PairCount(labels, i, j, Steps(labels)) as real))
      == RowTotal(labels, i, c, Steps(labels)) as real
  {
    if c > 0 {
      var row := seq(c, j requires 0 <= j < c => PairCount(labels, i, j, Steps(labels)) as real);
      var prefix := seq(c - 1, j requires 0 <= j < c - 1 => PairCount(labels, i, j, Steps(labels)) as real);
      assert row[..c - 1] == prefix;
      SumOfCountRow(labels, i, c - 1);
    }
  }

  lemma {:induction false} SumOfBinCount(labels: seq<nat>, c: nat)
    ensures Sum(BinCount(labels, c)) == OccurrenceTotal(labels, c, |labels|) as real
  {
    if c > 0 {
      assert BinCount(labels, c)[..c - 1] == BinCount(labels, c - 1);
      SumOfBinCount(labels, c - 1);
    }
  }

  // ---------------------------------------------------------------------
  // Properties of the initial parameters

  /** After the loop, the counts add up to one per consecutive pair: len(labels) - 1
      for a non-empty sequence. */
  lemma {:induction false} TransitionCountsTotal(labels: seq<nat>, n: nat)
    requires LabelsBelow(labels, n)
    ensures var m := CountMatrix(labels, n);
      Sum(seq(n, i requires 0 <= i < n => Sum(m[i]))) == Steps(labels) as real
  {
    var m := CountMatrix(labels, n);
    var sums := seq(n, i requires 0 <= i < n => Sum(m[i]));
    forall i | 0 <= i < n
      ensures sums[i] == Occurrences(labels, i, Steps(labels)) as real
    {
      SumOfCountRow(labels, i, n);
      RowTotalIsDepartures(labels, i, n, Steps(labels));
    }
    var departures := labels[..Steps(labels)];
    assert LabelsBelow(departures, n);
    forall i | 0 <= i < n
      ensures sums[i] == BinCount(departures, n)[i]
    {
      OccurrencesOfPrefixAgree(labels, Steps(labels), Steps(labels), i);
    }
    assert sums == BinCount(departures, n);
    SumOfBinCount(departures, n);
    OccurrencesPartition(departures, n, |departures|);
  }

  /** Counting up to k sees only the first k labels. */
  lemma {:induction false} OccurrencesOfPrefixAgree(labels: seq<nat>, k: nat, m: nat, i: nat)
    requires k <= m <= |labels|
    ensures Occurrences(labels[..m], i, k) == Occurrences(labels, i, k)
  {
    if k > 0 {
      OccurrencesOfPrefixAgree(labels, k - 1, m, i);
    }
  }

  /** Each row of the initial transition table is non-negative and sums to
      D/(D+1e-10) < 1, where D is the number of times the state is left; the
      row is all zero exactly for a state that is never left. */
  lemma InitialTransitionRow(labels: seq<nat>, n: nat, i: nat)
    requires LabelsBelow(labels, n) && i < n
    ensures var row := InitialTransitions(labels, n)[i];
      var departures := Occurrences(labels, i, Steps(labels)) as real;
      && NonNegative(row)
      && Sum(row) == departures / (departures + LogFloor)
      && Sum(row) < 1.0
      && ((forall j :: 0 <= j < n ==> row[j] == 0.0) <==> departures == 0.0)
  {
    var counts := CountMatrix(labels, n)[i];
    SumOfCountRow(labels, i, n);
    RowTotalIsDepartures(labels, i, n, Steps(labels));
    NormaliseWeights(counts);
    var row := InitialTransitions(labels, n)[i];
    if Occurrences(labels, i, Steps(labels)) > 0 && forall j :: 0 <= j < n ==> row[j] == 0.0 {
      ZeroRowSum(row);
      assert false;
    }
  }

  lemma {:induction false} ZeroRowSum(s: seq<real>)
    requires forall k :: 0 <= k < |s| ==> s[k] == 0.0
    ensures Sum(s) == 0.0
  {
    if |s| > 0 {
      ZeroRowSum(s[..|s| - 1]);
    }
  }

  /** `start_counts[k]` counts the labels equal to k, and `startprob_` is a
      probability distribution: entries in [0, 1] summing to exactly 1. */
  lemma StartProbDistribution(labels: seq<nat>, n: nat)
    requires LabelsBelow(labels, n) && |labels| > 0
    ensures forall k :: 0 <= k < n ==> BinCount(labels, n)[k] == Occurrences(labels, k, |labels|) as real
    ensures forall k :: 0 <= k < n ==> 0.0 <= StartProb(labels, n)[k] <= 1.0
    ensures Sum(StartProb(labels, n)) == 1.0
  {
    var total := |labels| as real;
    var counts := BinCount(labels, n);
    SumOfBinCount(labels, n);
    OccurrencesPartition(labels, n, |labels|);
    assert Sum(counts) == total;
    SumDivide(counts, total);
    assert Sum(StartProb(labels, n)) == total / total;
    DivideSelf(total);
    forall k | 0 <= k < n
      ensures 0.0 <= StartProb(labels, n)[k] <= 1.0
    {
      StartProbEntry(labels, n, k);
    }
  }

  lemma StartProbEntry(labels: seq<nat>, n: nat, k: nat)
    requires |labels| > 0 && k < n
    ensures 0.0 <= StartProb(labels, n)[k] <= 1.0
  {
    var total := |labels| as real;
    OccurrencesAtMost(labels, k, |labels|);
    assert StartProb(labels, n)[k] == Occurrences(labels, k, |labels|) as real / total;
    DivideMonotone(Occurrences(labels, k, |labels|) as real, total, total);
  }

  /** A label occurs at most once per position. */
  lemma {:induction false} OccurrencesAtMost(labels: seq<nat>, i: nat, m: nat)
    requires m <= |labels|
    ensures Occurrences(labels, i, m) <= m
  {
    if m > 0 {
      OccurrencesAtMost(labels, i, m - 1);
    }
  }
}
