/** What `_forward_backward` guarantees about its outputs: when it raises,
    which segment each gamma row belongs to, that every gamma row is a
    distribution over the regimes, and when `xi_sum` has an empty row. */
module Posteriors {
  import opened Outcomes
  import opened Numerics
  import opened ForwardBackward

  // ---------------------------------------------------------------------
  // Segments

  /** Segment t covers row i. */
  ghost predicate Covers(lengths: seq<nat>, t: nat, i: nat)
    requires t < |lengths|
  {
    Offset(lengths, t) <= i < Offset(lengths, t) + lengths[t]
  }

  /** Every row before `Offset(lengths, s)` lies in one of the first s segments. */
  lemma {:induction false} RowInSomeSegment(lengths: seq<nat>, s: nat, i: nat)
    requires s <= |lengths| && i < Offset(lengths, s)
    ensures exists t :: 0 <= t < s && Covers(lengths, t, i)
    decreases s
  {
    if i >= Offset(lengths, s - 1) {
      assert Covers(lengths, s - 1, i);
    } else {
      RowInSomeSegment(lengths, s - 1, i);
    }
  }

  /** The segments tile the rows: each row of the input is covered by exactly
      one segment. */
  lemma SegmentsPartitionRows(lengths: seq<nat>, i: nat)
    requires i < Total(lengths)
    ensures exists t :: 0 <= t < |lengths| && Covers(lengths, t, i)
    ensures forall t, u :: 0 <= t < |lengths| && 0 <= u < |lengths| && Covers(lengths, t, i) && Covers(lengths, u, i) ==> t == u
  {
    RowInSomeSegment(lengths, |lengths|, i);
    forall t, u | 0 <= t < |lengths| && 0 <= u < |lengths| && Covers(lengths, t, i) && Covers(lengths, u, i)
      ensures t == u
    {
      if t < u {
        OffsetMonotone(lengths, t + 1, u);
      } else if u < t {
        OffsetMonotone(lengths, u + 1, t);
      }
    }
  }

  // ---------------------------------------------------------------------
  // Errors

  /** The fold fails exactly when one of its segments fails, and then with
      the error of the first segment that failed. */
  lemma {:induction false} AccumulateFails(outs: seq<Result<SegmentOut>>, lengths: seq<nat>, n: nat, s: nat)
    requires Shaped(outs, lengths, n) && s <= |outs|
    ensures Accumulate(outs, lengths, n, s).Err? <==> exists t :: 0 <= t < s && outs[t].Err?
    ensures Accumulate(outs, lengths, n, s).Err? ==>
      exists t :: 0 <= t < s && outs[t].Err? && Accumulate(outs, lengths, n, s).error == outs[t].error
        && forall u :: 0 <= u < t ==> outs[u].Ok?
    decreases s
  {
    if s > 0 {
      AccumulateFails(outs, lengths, n, s - 1);
      if Accumulate(outs, lengths, n, s - 1).Ok? {
        forall u | 0 <= u < s - 1
          ensures outs[u].Ok?
        {
        }
        if outs[s - 1].Err? {
          assert forall u :: 0 <= u < s - 1 ==> outs[u].Ok?;
        }
      } else {
        var t :| 0 <= t < s - 1 && outs[t].Err? && Accumulate(outs, lengths, n, s - 1).error == outs[t].error
          && forall u :: 0 <= u < t ==> outs[u].Ok?;
        assert 0 <= t < s && outs[t].Err?;
      }
    }
  }

  /** Segment t fails on its own exactly when it is empty. */
  lemma SegmentFails(nm: ExpLog, h: LogParams, E: Matrix, lengths: seq<nat>, outs: seq<Result<SegmentOut>>, t: nat)
    requires WellFormed(h) && IsMatrix(E, |E|, |h.start|) && Total(lengths) == |E|
    requires SegmentsOf(nm, h, E, lengths, outs) && t < |lengths|
    ensures outs[t].Err? <==> lengths[t] == 0
    ensures outs[t].Err? ==> outs[t].error == EmptySequence
  {
    var B := SegmentRows(E, lengths, t);
  }

  /** `_forward_backward` raises exactly when some segment is empty, and
      then with `EmptySequence` (numpy's IndexError on `log_B[0]`). */
  lemma ForwardBackwardFails(nm: ExpLog, h: LogParams, E: Matrix, lengths: seq<nat>)
    requires WellFormed(h) && IsMatrix(E, |E|, |h.start|) && Total(lengths) == |E|
    ensures ForwardBackwardSpec(nm, h, E, lengths).Err? <==> exists t :: 0 <= t < |lengths| && lengths[t] == 0
    ensures ForwardBackwardSpec(nm, h, E, lengths).Err? ==>
      ForwardBackwardSpec(nm, h, E, lengths).error == EmptySequence
  {
    var outs := SegmentList(nm, h, E, lengths);
    SpecOfList(nm, h, E, lengths, outs);
    AccumulateFails(outs, lengths, |h.start|, |lengths|);
    forall t | 0 <= t < |lengths|
      ensures outs[t].Err? <==> lengths[t] == 0
      ensures outs[t].Err? ==> outs[t].error == EmptySequence
    {
      SegmentFails(nm, h, E, lengths, outs, t);
    }
  }

  // ---------------------------------------------------------------------
  // Gamma

  /** Row r of segment t of the folded gamma is row r of that segment's own
      gamma: segments never see each other's rows. */
  lemma {:induction false} AccumulateGammaRow(outs: seq<Result<SegmentOut>>, lengths: seq<nat>, n: nat, s: nat, t: nat, r: nat)
    requires Shaped(outs, lengths, n) && s <= |outs|
    requires Accumulate(outs, lengths, n, s).Ok?
    requires t < s && r < lengths[t]
    ensures outs[t].Ok? && Offset(lengths, t) + r < Offset(lengths, s)
    ensures Accumulate(outs, lengths, n, s).value.gamma[Offset(lengths, t) + r] == outs[t].value.gamma[r]
    decreases s
  {
    var acc := Accumulate(outs, lengths, n, s - 1).value;
    var o := outs[s - 1].value;
    assert Accumulate(outs, lengths, n, s).value.gamma == acc.gamma + o.gamma;
    if t < s - 1 {
      AccumulateGammaRow(outs, lengths, n, s - 1, t, r);
    }
  }

  /** Row `Offset(t) + r` of gamma is row r of the posterior of segment t
      computed alone. */
  lemma GammaRowOfSegment(nm: ExpLog, h: LogParams, E: Matrix, lengths: seq<nat>, t: nat, r: nat)
    requires WellFormed(h) && IsMatrix(E, |E|, |h.start|) && Total(lengths) == |E|
    requires ForwardBackwardSpec(nm, h, E, lengths).Ok?
    requires t < |lengths| && r < lengths[t]
    ensures IsSegment(SegmentRows(E, lengths, t), |h.start|)
    ensures Offset(lengths, t) + r < |E|
    ensures ForwardBackwardSpec(nm, h, E, lengths).value.gamma[Offset(lengths, t) + r] ==
      SegmentGamma(nm, h, SegmentRows(E, lengths, t))[r]
  {
    var outs := SegmentList(nm, h, E, lengths);
    SpecOfList(nm, h, E, lengths, outs);
    var B := SegmentRows(E, lengths, t);
    AccumulateGammaRow(outs, lengths, |h.start|, |lengths|, t, r);
  }

  /** Positive entries summing to one. */
  ghost predicate Distribution(row: seq<real>) {
    (forall k :: 0 <= k < |row| ==> row[k] > 0.0) && Sum(row) == 1.0
  }

  ghost predicate RowsAreDistributions(m: Matrix) {
    forall i :: 0 <= i < |m| ==> Distribution(m[i])
  }

  /** A positive row divided by its own sum is a distribution. */
  lemma DivideBySumIsDistribution(e: seq<real>)
    requires |e| > 0 && forall k :: 0 <= k < |e| ==> e[k] > 0.0
    ensures Sum(e) > 0.0 && Distribution(Divide(e, Sum(e)))
  {
    SumPositive(e);
    var total := Sum(e);
    var g := Divide(e, total);
    forall k | 0 <= k < |g|
      ensures g[k] > 0.0
    {
      DividePositive(e[k], total);
    }
    SumDivide(e, total);
    DivideSelf(total);
  }

  lemma ShiftEntry(nm: ExpLog, x: real, total: real)
    requires ExpLogLaws(nm) && total > 0.0
    ensures nm.exp(x - nm.log(total)) == nm.exp(x) / total
  {
    ExpDifference(nm, x, nm.log(total));
    ExpOfLog(nm, total);
  }

  /** Subtracting `logsumexp` before `exp` is dividing by the sum of the
      exponentials. */
  lemma ShiftIsDivide(nm: ExpLog, alpha: seq<real>, beta: seq<real>)
    requires ExpLogLaws(nm) && |alpha| == |beta| > 0
    ensures var lg := LogGamma(alpha, beta);
      Sum(ExpAll(nm, lg)) > 0.0 && GammaFromLogs(nm, alpha, beta) == Divide(ExpAll(nm, lg), Sum(ExpAll(nm, lg)))
  {
    var lg := LogGamma(alpha, beta);
    var e := ExpAll(nm, lg);
    ExpAllPositive(nm, lg);
    SumPositive(e);
    ShiftRowIsDivide(nm, lg, Sum(e));
  }

  /** `exp(v - log(total))` is `exp(v) / total`, entry by entry. */
  lemma ShiftRowIsDivide(nm: ExpLog, v: seq<real>, total: real)
    requires ExpLogLaws(nm) && total > 0.0
    ensures ExpShiftRow(nm, v, nm.log(total)) == Divide(ExpAll(nm, v), total)
  {
    var g := ExpShiftRow(nm, v, nm.log(total));
    forall k | 0 <= k < |v|
      ensures g[k] == Divide(ExpAll(nm, v), total)[k]
    {
      ShiftEntry(nm, v[k], total);
    }
  }

  /** A row normalised in log space is a distribution. */
  lemma GammaFromLogsIsDistribution(nm: ExpLog, alpha: seq<real>, beta: seq<real>)
    requires ExpLogLaws(nm) && |alpha| == |beta| > 0
    ensures Distribution(GammaFromLogs(nm, alpha, beta))
  {
    var lg := LogGamma(alpha, beta);
    ShiftIsDivide(nm, alpha, beta);
    ExpAllPositive(nm, lg);
    DivideBySumIsDistribution(ExpAll(nm, lg));
  }

  lemma SegmentGammaDistributions(nm: ExpLog, h: LogParams, B: Matrix)
    requires ExpLogLaws(nm) && |h.start| > 0
    requires WellFormed(h) && IsSegment(B, |h.start|)
    ensures RowsAreDistributions(SegmentGamma(nm, h, B))
  {
    var g := SegmentGamma(nm, h, B);
    forall t | 0 <= t < |B|
      ensures Distribution(g[t])
    {
      GammaFromLogsIsDistribution(nm, AlphaRow(nm, h, B, t), BetaRow(nm, h, B, t));
    }
  }

  /** Appending rows that are distributions keeps every row a distribution. */
  lemma {:induction false} AccumulateKeepsDistributions(outs: seq<Result<SegmentOut>>, lengths: seq<nat>, n: nat, s: nat)
    requires Shaped(outs, lengths, n) && s <= |outs|
    requires Accumulate(outs, lengths, n, s).Ok?
    requires forall t :: 0 <= t < s && outs[t].Ok? ==> RowsAreDistributions(outs[t].value.gamma)
    ensures RowsAreDistributions(Accumulate(outs, lengths, n, s).value.gamma)
    decreases s
  {
    if s > 0 {
      AccumulateKeepsDistributions(outs, lengths, n, s - 1);
      var acc := Accumulate(outs, lengths, n, s - 1).value;
      var o := outs[s - 1].value;
      var g := acc.gamma + o.gamma;
      assert Accumulate(outs, lengths, n, s).value.gamma == g;
      forall i | 0 <= i < |g|
        ensures Distribution(g[i])
      {
        if i < |acc.gamma| {
          assert g[i] == acc.gamma[i];
        } else {
          assert g[i] == o.gamma[i - |acc.gamma|];
        }
      }
    }
  }

  /** Each segment's own gamma rows are distributions. */
  lemma SegmentListDistributions(nm: ExpLog, h: LogParams, E: Matrix, lengths: seq<nat>, outs: seq<Result<SegmentOut>>, t: nat)
    requires ExpLogLaws(nm) && |h.start| > 0
    requires WellFormed(h) && IsMatrix(E, |E|, |h.start|) && Total(lengths) == |E|
    requires SegmentsOf(nm, h, E, lengths, outs) && t < |lengths| && outs[t].Ok?
    ensures RowsAreDistributions(outs[t].value.gamma)
  {
    var B := SegmentRows(E, lengths, t);
    SegmentGammaDistributions(nm, h, B);
  }

  /** Every row of gamma is a distribution over the regimes. */
  lemma GammaRowsAreDistributions(nm: ExpLog, h: LogParams, E: Matrix, lengths: seq<nat>)
    requires ExpLogLaws(nm) && |h.start| > 0
    requires WellFormed(h) && IsMatrix(E, |E|, |h.start|) && Total(lengths) == |E|
    requires ForwardBackwardSpec(nm, h, E, lengths).Ok?
    ensures RowsAreDistributions(ForwardBackwardSpec(nm, h, E, lengths).value.gamma)
  {
    var outs := SegmentList(nm, h, E, lengths);
    SpecOfList(nm, h, E, lengths, outs);
    forall t | 0 <= t < |lengths| && outs[t].Ok?
      ensures RowsAreDistributions(outs[t].value.gamma)
    {
      SegmentListDistributions(nm, h, E, lengths, outs, t);
    }
    AccumulateKeepsDistributions(outs, lengths, |h.start|, |lengths|);
  }

  // ---------------------------------------------------------------------
  // Xi

  ghost predicate NonNegativeTable(m: Matrix) {
    forall i, j :: 0 <= i < |m| && 0 <= j < |m[i]| ==> m[i][j] >= 0.0
  }

  ghost predicate PositiveTable(m: Matrix) {
    forall i, j :: 0 <= i < |m| && 0 <= j < |m[i]| ==> m[i][j] > 0.0
  }

  /** Each step's normalised `exp(log_xi)` has positive entries. */
  lemma XiAtPositive(nm: ExpLog, h: LogParams, B: Matrix, t: nat)
    requires ExpPositive(nm) && WellFormed(h) && IsSegment(B, |h.start|) && t + 1 < |B|
    ensures PositiveTable(XiAt(nm, h, B, t)) && NonNegativeTable(XiAt(nm, h, B, t))
  {
    var lx := LogXi(AlphaRow(nm, h, B, t), h.trans, B[t + 1], BetaRow(nm, h, B, t + 1));
    var z := LogSumExp(nm, Flatten(lx));
    var x := XiAt(nm, h, B, t);
    assert x == ExpShift(nm, lx, z);
    forall i, j | 0 <= i < |x| && 0 <= j < |x[i]|
      ensures x[i][j] > 0.0 && x[i][j] >= 0.0
    {
      ExpAt(nm, lx[i][j] - z);
    }
  }

  /** Adding a non-negative table keeps a table non-negative, or positive. */
  lemma MatAddSign(a: Matrix, x: Matrix, n: nat)
    requires IsMatrix(a, n, n) && IsMatrix(x, n, n)
    requires NonNegativeTable(a) && NonNegativeTable(x)
    ensures NonNegativeTable(MatAdd(a, x))
    ensures PositiveTable(a) || PositiveTable(x) ==> PositiveTable(MatAdd(a, x))
  {
    var r := MatAdd(a, x);
    forall i, j | 0 <= i < |r| && 0 <= j < |r[i]|
      ensures r[i][j] == a[i][j] + x[i][j]
    {
    }
  }

  /** A sum of non-negative tables is non-negative; it is positive once one
      of the tables added is positive, and it is `acc` when none is added. */
  lemma {:induction false} XiAccumulateSign(steps: seq<Matrix>, acc: Matrix, n: nat, m: nat)
    requires Tables(steps, n) && m <= |steps| && IsMatrix(acc, n, n) && NonNegativeTable(acc)
    requires forall t :: 0 <= t < m ==> NonNegativeTable(steps[t]) && PositiveTable(steps[t])
    ensures NonNegativeTable(XiAccumulate(steps, acc, n, m))
    ensures m > 0 ==> PositiveTable(XiAccumulate(steps, acc, n, m))
    ensures m == 0 ==> XiAccumulate(steps, acc, n, m) == acc
    decreases m
  {
    if m > 0 {
      XiAccumulateSign(steps, acc, n, m - 1);
      MatAddSign(XiAccumulate(steps, acc, n, m - 1), steps[m - 1], n);
    }
  }

  /** Every xi table of a segment is positive. */
  lemma XiStepsPositive(nm: ExpLog, h: LogParams, B: Matrix)
    requires ExpPositive(nm) && WellFormed(h) && IsSegment(B, |h.start|)
    ensures forall t :: 0 <= t < |B| - 1 ==>
      NonNegativeTable(XiSteps(nm, h, B)[t]) && PositiveTable(XiSteps(nm, h, B)[t])
  {
    var steps := XiSteps(nm, h, B);
    forall t | 0 <= t < |B| - 1
      ensures NonNegativeTable(steps[t]) && PositiveTable(steps[t])
    {
      XiAtPositive(nm, h, B, t);
    }
  }

  /** The folded `xi_sum` is never negative when no segment's table is. */
  lemma {:induction false} AccumulateXiNonNegative(outs: seq<Result<SegmentOut>>, lengths: seq<nat>, n: nat, s: nat)
    requires Shaped(outs, lengths, n) && s <= |outs|
    requires Accumulate(outs, lengths, n, s).Ok?
    requires forall t :: 0 <= t < s && outs[t].Ok? ==> NonNegativeTable(outs[t].value.xi)
    ensures NonNegativeTable(Accumulate(outs, lengths, n, s).value.xiSum)
    decreases s
  {
    if s > 0 {
      AccumulateXiNonNegative(outs, lengths, n, s - 1);
      MatAddSign(Accumulate(outs, lengths, n, s - 1).value.xiSum, outs[s - 1].value.xi, n);
    }
  }

  /** The folded `xi_sum` is positive everywhere once segment u's table is. */
  lemma {:induction false} AccumulateXiPositive(outs: seq<Result<SegmentOut>>, lengths: seq<nat>, n: nat, s: nat, u: nat)
    requires Shaped(outs, lengths, n) && u < s <= |outs|
    requires Accumulate(outs, lengths, n, s).Ok?
    requires forall t :: 0 <= t < s && outs[t].Ok? ==> NonNegativeTable(outs[t].value.xi)
    requires outs[u].Ok? && PositiveTable(outs[u].value.xi)
    ensures PositiveTable(Accumulate(outs, lengths, n, s).value.xiSum)
    decreases s
  {
    AccumulateXiNonNegative(outs, lengths, n, s - 1);
    if u < s - 1 {
      AccumulateXiPositive(outs, lengths, n, s - 1, u);
    }
    MatAddSign(Accumulate(outs, lengths, n, s - 1).value.xiSum, outs[s - 1].value.xi, n);
  }

  /** The folded `xi_sum` is zero when every segment's table is. */
  lemma {:induction false} AccumulateXiZero(outs: seq<Result<SegmentOut>>, lengths: seq<nat>, n: nat, s: nat)
    requires Shaped(outs, lengths, n) && s <= |outs|
    requires Accumulate(outs, lengths, n, s).Ok?
    requires forall t :: 0 <= t < s && outs[t].Ok? ==> outs[t].value.xi == Zeros(n, n)
    ensures Accumulate(outs, lengths, n, s).value.xiSum == Zeros(n, n)
    decreases s
  {
    if s > 0 {
      AccumulateXiZero(outs, lengths, n, s - 1);
      MatAddZeros(Zeros(n, n), n);
    }
  }

  lemma ZerosNonNegative(n: nat)
    ensures NonNegativeTable(Zeros(n, n))
  {
  }

  /** A segment's xi sum is never negative, is positive once the segment has
      a transition, and is zero for a single sample. */
  lemma SegmentXiSumSign(nm: ExpLog, h: LogParams, B: Matrix, xi: Matrix)
    requires ExpPositive(nm) && WellFormed(h) && IsSegment(B, |h.start|)
    requires xi == XiAccumulate(XiSteps(nm, h, B), Zeros(|h.start|, |h.start|), |h.start|, |B| - 1)
    ensures NonNegativeTable(xi)
    ensures |B| >= 2 ==> PositiveTable(xi)
    ensures |B| == 1 ==> xi == Zeros(|h.start|, |h.start|)
  {
    var n := |h.start|;
    XiStepsPositive(nm, h, B);
    ZerosNonNegative(n);
    XiAccumulateSign(XiSteps(nm, h, B), Zeros(n, n), n, |B| - 1);
  }

  /** The xi part of a segment's contribution. */
  lemma SegmentXi(nm: ExpLog, h: LogParams, B: Matrix, o: SegmentOut)
    requires WellFormed(h) && IsSegment(B, |h.start|) && SegmentPosterior(nm, h, B) == Ok(o)
    ensures o.xi == XiAccumulate(XiSteps(nm, h, B), Zeros(|h.start|, |h.start|), |h.start|, |B| - 1)
  {
  }

  /** What one segment contributes to `xi_sum`. */
  lemma SegmentXiSign(nm: ExpLog, h: LogParams, E: Matrix, lengths: seq<nat>, outs: seq<Result<SegmentOut>>, t: nat)
    requires ExpPositive(nm)
    requires WellFormed(h) && IsMatrix(E, |E|, |h.start|) && Total(lengths) == |E|
    requires SegmentsOf(nm, h, E, lengths, outs) && t < |lengths| && outs[t].Ok?
    ensures NonNegativeTable(outs[t].value.xi)
    ensures lengths[t] >= 2 ==> PositiveTable(outs[t].value.xi)
    ensures lengths[t] == 1 ==> outs[t].value.xi == Zeros(|h.start|, |h.start|)
  {
    var B := SegmentRows(E, lengths, t);
    SegmentXi(nm, h, B, outs[t].value);
    SegmentXiSumSign(nm, h, B, outs[t].value.xi);
  }

  /** `xi_sum` is never negative; it is positive everywhere when some segment
      has two or more samples, and all zero when every segment has one. */
  lemma XiSumSign(nm: ExpLog, h: LogParams, E: Matrix, lengths: seq<nat>)
    requires ExpPositive(nm)
    requires WellFormed(h) && IsMatrix(E, |E|, |h.start|) && Total(lengths) == |E|
    requires ForwardBackwardSpec(nm, h, E, lengths).Ok?
    ensures NonNegativeTable(ForwardBackwardSpec(nm, h, E, lengths).value.xiSum)
    ensures (exists t :: 0 <= t < |lengths| && lengths[t] >= 2) ==>
      PositiveTable(ForwardBackwardSpec(nm, h, E, lengths).value.xiSum)
    ensures (forall t :: 0 <= t < |lengths| ==> lengths[t] <= 1) ==>
      ForwardBackwardSpec(nm, h, E, lengths).value.xiSum == Zeros(|h.start|, |h.start|)
  {
    var n := |h.start|;
    var outs := SegmentList(nm, h, E, lengths);
    SpecOfList(nm, h, E, lengths, outs);
    AccumulateFails(outs, lengths, n, |lengths|);
    forall t | 0 <= t < |lengths|
      ensures outs[t].Ok? && lengths[t] >= 1
      ensures NonNegativeTable(outs[t].value.xi)
      ensures lengths[t] >= 2 ==> PositiveTable(outs[t].value.xi)
      ensures lengths[t] == 1 ==> outs[t].value.xi == Zeros(n, n)
    {
      SegmentFails(nm, h, E, lengths, outs, t);
      SegmentXiSign(nm, h, E, lengths, outs, t);
    }
    AccumulateXiNonNegative(outs, lengths, n, |lengths|);
    if exists t :: 0 <= t < |lengths| && lengths[t] >= 2 {
      var u :| 0 <= u < |lengths| && lengths[u] >= 2;
      AccumulateXiPositive(outs, lengths, n, |lengths|, u);
    }
    if forall t :: 0 <= t < |lengths| ==> lengths[t] <= 1 {
      AccumulateXiZero(outs, lengths, n, |lengths|);
    }
  }

  // ---------------------------------------------------------------------
  // A NaN `transmat_`

  /** The posterior under the fitted parameters fails on an empty segment,
      whatever the table, and otherwise exactly when a NaN table meets a
      segment of two samples or more. */
  lemma PosteriorUnderFails(nm: ExpLog, startprob: seq<real>, T: Transitions, E: Matrix, lengths: seq<nat>)
    requires TransitionsSized(T, |startprob|) && IsMatrix(E, |E|, |startprob|) && Total(lengths) == |E|
    ensures var r := PosteriorUnder(nm, startprob, T, E, lengths);
      var empty := exists t :: 0 <= t < |lengths| && lengths[t] == 0;
      && (r.Err? <==> empty || (T.NaNTable? && LongSegment(lengths)))
      && (r.Err? ==> r.error == if empty then EmptySequence else NaNPosterior)
  {
    ForwardBackwardFails(nm, ParamsOf(nm, startprob, T), E, lengths);
  }

  /** A segment of at most one sample never reads `log_trans`. */
  lemma SegmentUnread(nm: ExpLog, h: LogParams, h': LogParams, B: Matrix)
    requires WellFormed(h) && WellFormed(h') && h.start == h'.start
    requires IsMatrix(B, |B|, |h.start|) && |B| <= 1
    ensures SegmentPosterior(nm, h, B) == SegmentPosterior(nm, h', B)
  {
    if |B| == 1 {
      assert AlphaRow(nm, h, B, 0) == AlphaRow(nm, h', B, 0);
      assert BetaRow(nm, h, B, 0) == BetaRow(nm, h', B, 0);
      assert SegmentGamma(nm, h, B) == SegmentGamma(nm, h', B);
      assert XiSteps(nm, h, B) == XiSteps(nm, h', B);
    }
  }

  /** When no segment has two samples, `_forward_backward` gives the same
      result whatever `log_trans` holds. */
  lemma TransitionsUnread(nm: ExpLog, h: LogParams, h': LogParams, E: Matrix, lengths: seq<nat>)
    requires WellFormed(h) && WellFormed(h') && h.start == h'.start
    requires IsMatrix(E, |E|, |h.start|) && Total(lengths) == |E| && !LongSegment(lengths)
    ensures ForwardBackwardSpec(nm, h, E, lengths) == ForwardBackwardSpec(nm, h', E, lengths)
  {
    var outs := Segments(nm, h, E, lengths);
    var outs' := Segments(nm, h', E, lengths);
    forall t | 0 <= t < |lengths|
      ensures outs[t] == outs'[t]
    {
      SegmentUnread(nm, h, h', SegmentRows(E, lengths, t));
    }
    assert outs == outs';
  }

  /** Where no segment reads it, a NaN `transmat_` gives the posterior any
      table of the right shape gives: the zeros `ParamsOf` passes in its
      place are never looked at. */
  lemma NaNTableUnread(nm: ExpLog, startprob: seq<real>, transmat: Matrix, E: Matrix, lengths: seq<nat>)
    requires IsMatrix(transmat, |startprob|, |startprob|)
    requires IsMatrix(E, |E|, |startprob|) && Total(lengths) == |E| && !LongSegment(lengths)
    ensures PosteriorUnder(nm, startprob, NaNTable, E, lengths) ==
      ForwardBackwardSpec(nm, LogParamsOf(nm, startprob, transmat), E, lengths)
  {
    TransitionsUnread(nm, ParamsOf(nm, startprob, NaNTable), LogParamsOf(nm, startprob, transmat), E, lengths);
  }
}
