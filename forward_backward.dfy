/** `_forward_backward`: the log-space forward-backward recursion, run segment
    by segment over a flat table of log emissions. The rows `[cursor,
    cursor + length)` form one segment for each entry of `lengths`. */
module ForwardBackward {
  import opened Outcomes
  import opened Numerics

  /** `log(startprob_ + 1e-10)` and `log(transmat_ + 1e-10)`. */
  datatype LogParams = LogParams(start: seq<real>, trans: Matrix)

  ghost predicate WellFormed(h: LogParams) {
    IsMatrix(h.trans, |h.start|, |h.start|)
  }

  function LogShifted(nm: ExpLog, s: seq<real>): (r: seq<real>)
    ensures |r| == |s|
  {
    seq(|s|, k requires 0 <= k < |s| => nm.log(s[k] + LogFloor))
  }

  function LogParamsOf(nm: ExpLog, startprob: seq<real>, transmat: Matrix): (h: LogParams)
    requires IsMatrix(transmat, |startprob|, |startprob|)
    ensures WellFormed(h) && |h.start| == |startprob|
  {
    LogParams(LogShifted(nm, startprob),
              seq(|transmat|, i requires 0 <= i < |transmat| => LogShifted(nm, transmat[i])))
  }

  /** `transmat_`: a table of reals, or the table `xi_sum / xi_sum.sum(axis=1)`
      leaves when some row of `xi_sum` sums to zero. numpy fills that row
      with NaN and raises nothing. A single NaN row of `log_trans` turns
      every `log_alpha` entry after the first row NaN, and with it every
      `log_beta`, `log_xi` and gamma entry of the segment, so the model keeps
      only that the table is NaN, not which rows are. */
  datatype Transitions = Table(rows: Matrix) | NaNTable

  ghost predicate TransitionsSized(T: Transitions, n: nat) {
    T.Table? ==> IsMatrix(T.rows, n, n)
  }

  /** Some segment has two samples or more. Only such a segment reads
      `log_trans`: with one sample the alpha recursion has no step, the
      beta row is the initial zeros and there is no xi table. */
  predicate LongSegment(lengths: seq<nat>) {
    exists t :: 0 <= t < |lengths| && lengths[t] >= 2
  }

  /** The parameters the recursion reads. A NaN table is given as zeros;
      `PosteriorUnder` uses it only where no segment reads it. */
  function ParamsOf(nm: ExpLog, startprob: seq<real>, T: Transitions): (h: LogParams)
    requires TransitionsSized(T, |startprob|)
    ensures WellFormed(h) && |h.start| == |startprob|
  {
    LogParamsOf(nm, startprob, if T.Table? then T.rows else Zeros(|startprob|, |startprob|))
  }

  /** An `n`-column table of log emissions with at least one row. */
  ghost predicate IsSegment(B: Matrix, n: nat) {
    |B| > 0 && IsMatrix(B, |B|, n)
  }

  // ---------------------------------------------------------------------
  // The recursion on one segment

  /** `log_alpha[t-1] + log_trans[:, j]`. */
  function Incoming(prev: seq<real>, trans: Matrix, j: nat): (r: seq<real>)
    requires IsMatrix(trans, |prev|, |prev|) && j < |prev|
    ensures |r| == |prev|
  {
    seq(|prev|, i requires 0 <= i < |prev| => prev[i] + trans[i][j])
  }

  /** Row t of `log_alpha`. */
  function AlphaRow(nm: ExpLog, h: LogParams, B: Matrix, t: nat): (r: seq<real>)
    requires WellFormed(h) && IsSegment(B, |h.start|) && t < |B|
    ensures |r| == |h.start|
    decreases t
  {
    var n := |h.start|;
    if t == 0 then
      seq(n, j requires 0 <= j < n => h.start[j] + B[0][j])
    else
      var prev := AlphaRow(nm, h, B, t - 1);
      seq(n, j requires 0 <= j < n => LogSumExp(nm, Incoming(prev, h.trans, j)) + B[t][j])
  }

  /** `log_trans[i, :] + log_B[t+1] + log_beta[t+1]`. */
  function Outgoing(transRow: seq<real>, emission: seq<real>, next: seq<real>): (r: seq<real>)
    requires |transRow| == |emission| == |next|
    ensures |r| == |next|
  {
    seq(|next|, j requires 0 <= j < |next| => transRow[j] + emission[j] + next[j])
  }

  /** Row t of `log_beta`; the last row keeps the zeros it was created with. */
  function BetaRow(nm: ExpLog, h: LogParams, B: Matrix, t: nat): (r: seq<real>)
    requires WellFormed(h) && IsSegment(B, |h.start|) && t < |B|
    ensures |r| == |h.start|
    decreases |B| - t
  {
    var n := |h.start|;
    if t == |B| - 1 then
      seq(n, i requires 0 <= i < n => 0.0)
    else
      var next := BetaRow(nm, h, B, t + 1);
      seq(n, i requires 0 <= i < n => LogSumExp(nm, Outgoing(h.trans[i], B[t + 1], next)))
  }

  /** `np.exp(v - z)` for one row. */
  function ExpShiftRow(nm: ExpLog, v: seq<real>, z: real): (r: seq<real>)
    ensures |r| == |v|
  {
    seq(|v|, k requires 0 <= k < |v| => nm.exp(v[k] - z))
  }

  /** `log_gamma = log_alpha + log_beta` for one row. */
  function LogGamma(alpha: seq<real>, beta: seq<real>): (r: seq<real>)
    requires |alpha| == |beta|
    ensures |r| == |alpha|
  {
    seq(|alpha|, k requires 0 <= k < |alpha| => alpha[k] + beta[k])
  }

  /** `exp(log_gamma - logsumexp(log_gamma))` for one row, where
      `log_gamma = log_alpha + log_beta`. */
  function GammaFromLogs(nm: ExpLog, alpha: seq<real>, beta: seq<real>): (r: seq<real>)
    requires |alpha| == |beta|
    ensures |r| == |alpha|
  {
    var lg := LogGamma(alpha, beta);
    ExpShiftRow(nm, lg, LogSumExp(nm, lg))
  }

  /** The rows of `gamma` one segment writes. */
  function SegmentGamma(nm: ExpLog, h: LogParams, B: Matrix): (r: Matrix)
    requires WellFormed(h) && IsSegment(B, |h.start|)
    ensures IsMatrix(r, |B|, |h.start|)
  {
    seq(|B|, t requires 0 <= t < |B| =>
      GammaFromLogs(nm, AlphaRow(nm, h, B, t), BetaRow(nm, h, B, t)))
  }

  /** `log_xi[i, j] = log_alpha[t, i] + log_trans[i, j] + log_B[t+1, j] + log_beta[t+1, j]`. */
  function LogXi(alpha: seq<real>, trans: Matrix, emission: seq<real>, next: seq<real>): (r: Matrix)
    requires IsMatrix(trans, |alpha|, |alpha|) && |emission| == |next| == |alpha|
    ensures IsMatrix(r, |alpha|, |alpha|)
  {
    var n := |alpha|;
    seq(n, i requires 0 <= i < n =>
      seq(n, j requires 0 <= j < n => alpha[i] + trans[i][j] + emission[j] + next[j]))
  }

  /** The entries of a table in row-major order, as `logsumexp(log_xi)` sees them. */
  function Flatten(m: Matrix): seq<real>
    decreases |m|
  {
    if |m| == 0 then [] else Flatten(m[..|m| - 1]) + m[|m| - 1]
  }

  /** `np.exp(m - z)`. */
  function ExpShift(nm: ExpLog, m: Matrix, z: real): (r: Matrix)
    ensures |r| == |m| && forall i :: 0 <= i < |m| ==> |r[i]| == |m[i]|
  {
    seq(|m|, i requires 0 <= i < |m| =>
      seq(|m[i]|, j requires 0 <= j < |m[i]| => nm.exp(m[i][j] - z)))
  }

  /** `np.exp(log_xi - logsumexp(log_xi))` for one step, from the alpha row
      of the step, the emissions and beta row of the next. */
  function XiTable(nm: ExpLog, alpha: seq<real>, trans: Matrix, emission: seq<real>, next: seq<real>): (r: Matrix)
    requires IsMatrix(trans, |alpha|, |alpha|) && |emission| == |next| == |alpha|
    ensures IsMatrix(r, |alpha|, |alpha|)
  {
    var lx := LogXi(alpha, trans, emission, next);
    ExpShift(nm, lx, LogSumExp(nm, Flatten(lx)))
  }

  /** The normalised `exp(log_xi)` of step t of a segment. */
  function XiAt(nm: ExpLog, h: LogParams, B: Matrix, t: nat): (r: Matrix)
    requires WellFormed(h) && IsSegment(B, |h.start|) && t + 1 < |B|
    ensures IsMatrix(r, |h.start|, |h.start|)
  {
    XiTable(nm, AlphaRow(nm, h, B, t), h.trans, B[t + 1], BetaRow(nm, h, B, t + 1))
  }

  function MatAdd(a: Matrix, b: Matrix): (r: Matrix)
    requires |a| == |b| && forall i :: 0 <= i < |a| ==> |a[i]| == |b[i]|
    ensures |r| == |a| && forall i :: 0 <= i < |a| ==> |r[i]| == |a[i]|
  {
    seq(|a|, i requires 0 <= i < |a| =>
      seq(|a[i]|, j requires 0 <= j < |a[i]| => a[i][j] + b[i][j]))
  }

  ghost predicate Tables(steps: seq<Matrix>, n: nat) {
    forall t :: 0 <= t < |steps| ==> IsMatrix(steps[t], n, n)
  }

  /** The normalised xi tables of a segment, one per transition. */
  function XiSteps(nm: ExpLog, h: LogParams, B: Matrix): (r: seq<Matrix>)
    requires WellFormed(h) && IsSegment(B, |h.start|)
    ensures |r| == |B| - 1 && Tables(r, |h.start|)
  {
    seq(|B| - 1, t requires 0 <= t < |B| - 1 => XiAt(nm, h, B, t))
  }

  /** `acc` plus the first m tables, added one by one as `xi_sum += xi`. */
  function XiAccumulate(steps: seq<Matrix>, acc: Matrix, n: nat, m: nat): (r: Matrix)
    requires Tables(steps, n) && m <= |steps| && IsMatrix(acc, n, n)
    ensures IsMatrix(r, n, n)
    decreases m
  {
    if m == 0 then acc
    else MatAdd(XiAccumulate(steps, acc, n, m - 1), steps[m - 1])
  }

  // ---------------------------------------------------------------------
  // The segments

  /** Where segment s starts: `cursor` after s passes of the loop. */
  function Offset(lengths: seq<nat>, s: nat): nat
    requires s <= |lengths|
  {
    if s == 0 then 0 else Offset(lengths, s - 1) + lengths[s - 1]
  }

  /** The number of rows the segments cover. */
  function Total(lengths: seq<nat>): nat {
    Offset(lengths, |lengths|)
  }

  lemma {:induction false} OffsetMonotone(lengths: seq<nat>, s: nat, s': nat)
    requires s <= s' <= |lengths|
    ensures Offset(lengths, s) <= Offset(lengths, s')
    decreases s' - s
  {
    if s < s' {
      OffsetMonotone(lengths, s, s' - 1);
    }
  }

  function Zeros(rows: nat, cols: nat): (r: Matrix)
    ensures IsMatrix(r, rows, cols)
  {
    seq(rows, i requires 0 <= i < rows => seq(cols, j requires 0 <= j < cols => 0.0))
  }

  /** What `_forward_backward` returns. */
  datatype Posterior = Posterior(gamma: Matrix, xiSum: Matrix, logLikelihood: real)

  /** What one segment contributes on its own: its gamma rows, the sum of its
      normalised xi tables, and its `logsumexp(log_alpha[-1])`. */
  datatype SegmentOut = SegmentOut(gamma: Matrix, xi: Matrix, logLikelihood: real)

  /** One pass of the `for length in lengths` loop on the segment `B`:
      `log_B[0]` of an empty segment raises. */
  function SegmentPosterior(nm: ExpLog, h: LogParams, B: Matrix): (r: Result<SegmentOut>)
    requires WellFormed(h) && IsMatrix(B, |B|, |h.start|)
    ensures r.Err? <==> |B| == 0
    ensures r.Err? ==> r.error == EmptySequence
    ensures r.Ok? ==> IsMatrix(r.value.gamma, |B|, |h.start|) && IsMatrix(r.value.xi, |h.start|, |h.start|)
  {
    var n := |h.start|;
    if |B| == 0 then Err(EmptySequence)
    else
      Ok(SegmentOut(
        SegmentGamma(nm, h, B),
        XiAccumulate(XiSteps(nm, h, B), Zeros(n, n), n, |B| - 1),
        LogSumExp(nm, AlphaRow(nm, h, B, |B| - 1))))
  }

  /** `log_emissions[cursor : cursor + length]` for segment t. */
  function SegmentRows(E: Matrix, lengths: seq<nat>, t: nat): (B: Matrix)
    requires t < |lengths| && Total(lengths) == |E|
    ensures |B| == lengths[t] && Offset(lengths, t) + lengths[t] <= |E|
    ensures forall r :: 0 <= r < |B| ==> B[r] == E[Offset(lengths, t) + r]
  {
    OffsetMonotone(lengths, t + 1, |lengths|);
    E[Offset(lengths, t)..Offset(lengths, t + 1)]
  }

  /** Segment contributions whose gamma rows number the segment's length and
      whose xi tables are `n` by `n`. */
  ghost predicate Shaped(outs: seq<Result<SegmentOut>>, lengths: seq<nat>, n: nat) {
    && |outs| == |lengths|
    && forall t :: 0 <= t < |outs| && outs[t].Ok? ==>
         IsMatrix(outs[t].value.gamma, lengths[t], n) && IsMatrix(outs[t].value.xi, n, n)
  }

  /** Each segment's contribution, computed independently of the others. */
  function Segments(nm: ExpLog, h: LogParams, E: Matrix, lengths: seq<nat>): (outs: seq<Result<SegmentOut>>)
    requires WellFormed(h) && IsMatrix(E, |E|, |h.start|) && Total(lengths) == |E|
    ensures |outs| == |lengths|
    ensures forall t :: 0 <= t < |lengths| ==> outs[t] == SegmentPosterior(nm, h, SegmentRows(E, lengths, t))
    ensures Shaped(outs, lengths, |h.start|)
  {
    seq(|lengths|, t requires 0 <= t < |lengths| => SegmentPosterior(nm, h, SegmentRows(E, lengths, t)))
  }

  /** The state of `_forward_backward` after its first s segments: the first
      failure stops the loop; otherwise gamma rows are appended in segment
      order, xi tables added and likelihoods added. */
  function Accumulate(outs: seq<Result<SegmentOut>>, lengths: seq<nat>, n: nat, s: nat): (r: Result<Posterior>)
    requires Shaped(outs, lengths, n) && s <= |outs|
    ensures r.Ok? ==> IsMatrix(r.value.gamma, Offset(lengths, s), n) && IsMatrix(r.value.xiSum, n, n)
    decreases s
  {
    if s == 0 then Ok(Posterior([], Zeros(n, n), 0.0))
    else
      match Accumulate(outs, lengths, n, s - 1)
      case Err(e) => Err(e)
      case Ok(acc) =>
        match outs[s - 1]
        case Err(e) => Err(e)
        case Ok(o) =>
          Ok(Posterior(acc.gamma + o.gamma, MatAdd(acc.xiSum, o.xi), acc.logLikelihood + o.logLikelihood))
  }

  /** `_forward_backward(log_emissions, lengths)`. */
  function ForwardBackwardSpec(nm: ExpLog, h: LogParams, E: Matrix, lengths: seq<nat>): (r: Result<Posterior>)
    requires WellFormed(h) && IsMatrix(E, |E|, |h.start|) && Total(lengths) == |E|
    ensures r.Ok? ==> IsMatrix(r.value.gamma, |E|, |h.start|)
    ensures r.Ok? ==> IsMatrix(r.value.xiSum, |h.start|, |h.start|)
  {
    Accumulate(Segments(nm, h, E, lengths), lengths, |h.start|, |lengths|)
  }

  lemma MatAddZeros(a: Matrix, n: nat)
    requires IsMatrix(a, n, n)
    ensures MatAdd(a, Zeros(n, n)) == a
  {
    var r := MatAdd(a, Zeros(n, n));
    forall i | 0 <= i < n
      ensures r[i] == a[i]
    {
    }
  }

  lemma MatAddAssoc(a: Matrix, b: Matrix, c: Matrix, n: nat)
    requires IsMatrix(a, n, n) && IsMatrix(b, n, n) && IsMatrix(c, n, n)
    ensures MatAdd(MatAdd(a, b), c) == MatAdd(a, MatAdd(b, c))
  {
    var l := MatAdd(MatAdd(a, b), c);
    var r := MatAdd(a, MatAdd(b, c));
    forall i | 0 <= i < n
      ensures l[i] == r[i]
    {
    }
  }

  /** Adding the xi tables to `acc` one by one is adding their sum to it. */
  lemma {:induction false} XiAccumulateFrom(steps: seq<Matrix>, acc: Matrix, n: nat, m: nat)
    requires Tables(steps, n) && m <= |steps| && IsMatrix(acc, n, n)
    ensures XiAccumulate(steps, acc, n, m) == MatAdd(acc, XiAccumulate(steps, Zeros(n, n), n, m))
    decreases m
  {
    if m == 0 {
      MatAddZeros(acc, n);
    } else {
      XiAccumulateFrom(steps, acc, n, m - 1);
      MatAddAssoc(acc, XiAccumulate(steps, Zeros(n, n), n, m - 1), steps[m - 1], n);
    }
  }

  /** `outs` lists each segment's contribution on its own. The element
      relation fires only where the segment's rows are named, so that a
      proof about the fold does not unfold every segment's recursion. */
  ghost predicate SegmentsOf(nm: ExpLog, h: LogParams, E: Matrix, lengths: seq<nat>, outs: seq<Result<SegmentOut>>)
    requires WellFormed(h) && IsMatrix(E, |E|, |h.start|) && Total(lengths) == |E|
  {
    && Shaped(outs, lengths, |h.start|)
    && forall t {:trigger SegmentRows(E, lengths, t)} :: 0 <= t < |lengths| ==>
         outs[t] == SegmentPosterior(nm, h, SegmentRows(E, lengths, t))
  }

  /** `Segments` is the one list `SegmentsOf` describes. */
  lemma SegmentsOfUnique(nm: ExpLog, h: LogParams, E: Matrix, lengths: seq<nat>, outs: seq<Result<SegmentOut>>)
    requires WellFormed(h) && IsMatrix(E, |E|, |h.start|) && Total(lengths) == |E|
    ensures SegmentsOf(nm, h, E, lengths, Segments(nm, h, E, lengths))
    ensures SegmentsOf(nm, h, E, lengths, outs) ==> outs == Segments(nm, h, E, lengths)
  {
    var segs := Segments(nm, h, E, lengths);
    forall t | 0 <= t < |lengths|
      ensures segs[t] == SegmentPosterior(nm, h, SegmentRows(E, lengths, t))
    {
    }
    if SegmentsOf(nm, h, E, lengths, outs) {
      forall t | 0 <= t < |lengths|
        ensures outs[t] == segs[t]
      {
        var B := SegmentRows(E, lengths, t);
      }
    }
  }

  /** The list of the segments' contributions, as a value the imperative
      pass can carry without unfolding it. */
  lemma SegmentList(nm: ExpLog, h: LogParams, E: Matrix, lengths: seq<nat>) returns (outs: seq<Result<SegmentOut>>)
    requires WellFormed(h) && IsMatrix(E, |E|, |h.start|) && Total(lengths) == |E|
    ensures SegmentsOf(nm, h, E, lengths, outs)
  {
    outs := Segments(nm, h, E, lengths);
    SegmentsOfUnique(nm, h, E, lengths, outs);
  }

  /** The whole call is the fold over any list `SegmentsOf` describes. */
  lemma SpecOfList(nm: ExpLog, h: LogParams, E: Matrix, lengths: seq<nat>, outs: seq<Result<SegmentOut>>)
    requires WellFormed(h) && IsMatrix(E, |E|, |h.start|) && Total(lengths) == |E|
    requires SegmentsOf(nm, h, E, lengths, outs)
    ensures ForwardBackwardSpec(nm, h, E, lengths) == Accumulate(outs, lengths, |h.start|, |lengths|)
  {
    SegmentsOfUnique(nm, h, E, lengths, outs);
  }

  /** One more successful segment extends a successful prefix. */
  lemma AccumulateStep(outs: seq<Result<SegmentOut>>, lengths: seq<nat>, n: nat, s: nat, acc: Posterior, o: SegmentOut)
    requires Shaped(outs, lengths, n) && s < |outs|
    requires Accumulate(outs, lengths, n, s) == Ok(acc) && outs[s] == Ok(o)
    ensures Accumulate(outs, lengths, n, s + 1) ==
      Ok(Posterior(acc.gamma + o.gamma, MatAdd(acc.xiSum, o.xi), acc.logLikelihood + o.logLikelihood))
  {
  }

  /** Once a prefix of the segments fails, the whole call fails the same way. */
  lemma {:induction false} ErrorPersists(outs: seq<Result<SegmentOut>>, lengths: seq<nat>, n: nat, s: nat)
    requires Shaped(outs, lengths, n) && s <= |outs|
    requires Accumulate(outs, lengths, n, s).Err?
    ensures Accumulate(outs, lengths, n, |outs|) == Accumulate(outs, lengths, n, s)
    decreases |outs| - s
  {
    if s < |outs| {
      ErrorPersists(outs, lengths, n, s + 1);
    }
  }

  /** A failing segment after a successful prefix fails the prefix with
      its own error. */
  lemma AccumulateStepFails(outs: seq<Result<SegmentOut>>, lengths: seq<nat>, n: nat, s: nat)
    requires Shaped(outs, lengths, n) && s < |outs|
    requires Accumulate(outs, lengths, n, s).Ok? && outs[s].Err?
    ensures Accumulate(outs, lengths, n, s + 1) == Err(outs[s].error)
  {
  }

  /** The first failing segment decides the whole call's error. */
  lemma FailureStops(outs: seq<Result<SegmentOut>>, lengths: seq<nat>, n: nat, s: nat)
    requires Shaped(outs, lengths, n) && s < |outs|
    requires Accumulate(outs, lengths, n, s).Ok? && outs[s].Err?
    ensures Accumulate(outs, lengths, n, |outs|) == Err(outs[s].error)
  {
    AccumulateStepFails(outs, lengths, n, s);
    ErrorPersists(outs, lengths, n, s + 1);
  }

  /** The state after s + 1 segments, from the state after s and what
      segment s produced on its own. */
  lemma SegmentStep(nm: ExpLog, h: LogParams, E: Matrix, lengths: seq<nat>, outs: seq<Result<SegmentOut>>,
                    s: nat, acc: Posterior, o: SegmentOut, acc': Posterior)
    requires WellFormed(h) && IsMatrix(E, |E|, |h.start|) && Total(lengths) == |E|
    requires s < |lengths| && SegmentsOf(nm, h, E, lengths, outs)
    requires Accumulate(outs, lengths, |h.start|, s) == Ok(acc)
    requires SegmentPosterior(nm, h, SegmentRows(E, lengths, s)) == Ok(o)
    requires IsMatrix(acc.xiSum, |h.start|, |h.start|) && IsMatrix(o.xi, |h.start|, |h.start|)
    requires acc' == Posterior(acc.gamma + o.gamma, MatAdd(acc.xiSum, o.xi), acc.logLikelihood + o.logLikelihood)
    ensures Accumulate(outs, lengths, |h.start|, s + 1) == Ok(acc')
  {
    AccumulateStep(outs, lengths, |h.start|, s, acc, o);
  }

  /** `log_B[0]` on an empty segment raises, whatever follows it. */
  lemma EmptySegmentFails(nm: ExpLog, h: LogParams, E: Matrix, lengths: seq<nat>, outs: seq<Result<SegmentOut>>, s: nat)
    requires WellFormed(h) && IsMatrix(E, |E|, |h.start|) && Total(lengths) == |E|
    requires s < |lengths| && lengths[s] == 0 && SegmentsOf(nm, h, E, lengths, outs)
    requires Accumulate(outs, lengths, |h.start|, s).Ok?
    ensures Accumulate(outs, lengths, |h.start|, |lengths|) == Err(EmptySequence)
  {
    var B := SegmentRows(E, lengths, s);
    FailureStops(outs, lengths, |h.start|, s);
  }

  // ---------------------------------------------------------------------
  // The imperative passes

  /** The contents of a two-dimensional array. */
  function Snapshot(a: array2<real>): (m: Matrix)
    reads a
    ensures IsMatrix(m, a.Length0, a.Length1)
    ensures forall i, j :: 0 <= i < a.Length0 && 0 <= j < a.Length1 ==> m[i][j] == a[i, j]
  {
    seq(a.Length0, i requires 0 <= i < a.Length0 reads a =>
      seq(a.Length1, j requires 0 <= j < a.Length1 reads a => a[i, j]))
  }

  /** Row t of `log_alpha`, one state at a time (`for j in range(n_states)`). */
  method FillAlphaRow(nm: ExpLog, h: LogParams, B: Matrix, la: array2<real>, t: nat)
    requires WellFormed(h) && IsSegment(B, |h.start|) && 0 < t < |B|
    requires la.Length0 == |B| && la.Length1 == |h.start|
    requires forall p, j :: p == t - 1 && 0 <= j < |h.start| ==> la[p, j] == AlphaRow(nm, h, B, p)[j]
    modifies la
    ensures forall j :: 0 <= j < |h.start| ==> la[t, j] == AlphaRow(nm, h, B, t)[j]
    ensures forall t', j :: 0 <= t' < |B| && t' != t && 0 <= j < |h.start| ==> la[t', j] == old(la[t', j])
  {
    var n := |h.start|;
    var prev := seq(n, i requires 0 <= i < n reads la => la[t - 1, i]);
    assert prev == AlphaRow(nm, h, B, t - 1);
    for j := 0 to n
      invariant forall t', j' :: 0 <= t' < |B| && t' != t && 0 <= j' < n ==> la[t', j'] == old(la[t', j'])
      invariant forall j' :: 0 <= j' < j ==> la[t, j'] == AlphaRow(nm, h, B, t)[j']
    {
      la[t, j] := LogSumExp(nm, Incoming(prev, h.trans, j)) + B[t][j];
    }
  }

  /** The forward pass: `log_alpha[0] = log_start + log_B[0]`, then each row
      from the previous one. */
  method Forward(nm: ExpLog, h: LogParams, B: Matrix) returns (alpha: Matrix)
    requires WellFormed(h) && IsSegment(B, |h.start|)
    ensures IsMatrix(alpha, |B|, |h.start|)
    ensures forall t :: 0 <= t < |B| ==> alpha[t] == AlphaRow(nm, h, B, t)
    ensures alpha[0] == seq(|h.start|, j requires 0 <= j < |h.start| => h.start[j] + B[0][j])
  {
    var n := |h.start|;
    var la := new real[|B|, n]((t, j) => 0.0);
    forall j | 0 <= j < n {
      la[0, j] := h.start[j] + B[0][j];
    }
    for t := 1 to |B|
      invariant forall t', j :: 0 <= t' < t && 0 <= j < n ==> la[t', j] == AlphaRow(nm, h, B, t')[j]
    {
      FillAlphaRow(nm, h, B, la, t);
    }
    alpha := Snapshot(la);
    forall t | 0 <= t < |B|
      ensures alpha[t] == AlphaRow(nm, h, B, t)
    {
      forall j | 0 <= j < n
        ensures alpha[t][j] == AlphaRow(nm, h, B, t)[j]
      {
        assert alpha[t][j] == la[t, j];
      }
    }
  }

  /** One step of the backward recursion, entry by entry. */
  lemma BetaRowStep(nm: ExpLog, h: LogParams, B: Matrix, t: nat)
    requires WellFormed(h) && IsSegment(B, |h.start|) && t + 1 < |B|
    ensures forall i :: 0 <= i < |h.start| ==>
      BetaRow(nm, h, B, t)[i] == LogSumExp(nm, Outgoing(h.trans[i], B[t + 1], BetaRow(nm, h, B, t + 1)))
  {
  }

  /** Row t of `log_beta`, one state at a time (`for i in range(n_states)`). */
  method FillBetaRow(nm: ExpLog, h: LogParams, B: Matrix, lb: array2<real>, t: nat)
    requires WellFormed(h) && IsSegment(B, |h.start|) && t + 1 < |B|
    requires lb.Length0 == |B| && lb.Length1 == |h.start|
    requires forall p, i :: p == t + 1 && 0 <= i < |h.start| ==> lb[p, i] == BetaRow(nm, h, B, p)[i]
    modifies lb
    ensures forall i :: 0 <= i < |h.start| ==> lb[t, i] == BetaRow(nm, h, B, t)[i]
    ensures forall t', i :: 0 <= t' < |B| && t' != t && 0 <= i < |h.start| ==> lb[t', i] == old(lb[t', i])
  {
    var n := |h.start|;
    var next := seq(n, j requires 0 <= j < n reads lb => lb[t + 1, j]);
    assert next == BetaRow(nm, h, B, t + 1);
    for i := 0 to n
      invariant forall t', i' :: 0 <= t' < |B| && t' != t && 0 <= i' < n ==> lb[t', i'] == old(lb[t', i'])
      invariant forall i' :: 0 <= i' < i ==> lb[t, i'] == LogSumExp(nm, Outgoing(h.trans[i'], B[t + 1], next))
    {
      lb[t, i] := LogSumExp(nm, Outgoing(h.trans[i], B[t + 1], next));
    }
    BetaRowStep(nm, h, B, t);
  }

  /** The backward pass: `for t in range(length - 2, -1, -1)`, leaving the
      last row of `log_beta` at zero. */
  method Backward(nm: ExpLog, h: LogParams, B: Matrix) returns (beta: Matrix)
    requires WellFormed(h) && IsSegment(B, |h.start|)
    ensures IsMatrix(beta, |B|, |h.start|)
    ensures forall t :: 0 <= t < |B| ==> beta[t] == BetaRow(nm, h, B, t)
    ensures beta[|B| - 1] == seq(|h.start|, i requires 0 <= i < |h.start| => 0.0)
  {
    var n := |h.start|;
    var lb := new real[|B|, n]((t, i) => 0.0);
    var t := |B| - 1;
    while t > 0
      invariant 0 <= t <= |B| - 1
      invariant forall t', i :: t <= t' < |B| && 0 <= i < n ==> lb[t', i] == BetaRow(nm, h, B, t')[i]
    {
      FillBetaRow(nm, h, B, lb, t - 1);
      t := t - 1;
    }
    beta := Snapshot(lb);
    forall t | 0 <= t < |B|
      ensures beta[t] == BetaRow(nm, h, B, t)
    {
      forall i | 0 <= i < n
        ensures beta[t][i] == BetaRow(nm, h, B, t)[i]
      {
        assert beta[t][i] == lb[t, i];
      }
    }
  }

  /** `log_xi`, filled entry by entry. */
  method FillLogXi(alpha: seq<real>, trans: Matrix, emission: seq<real>, next: seq<real>) returns (lx: Matrix)
    requires IsMatrix(trans, |alpha|, |alpha|) && |emission| == |next| == |alpha|
    ensures lx == LogXi(alpha, trans, emission, next)
  {
    var n := |alpha|;
    var table := new real[n, n]((i, j) => 0.0);
    for i := 0 to n
      invariant forall i', j :: 0 <= i' < i && 0 <= j < n ==> table[i', j] == LogXi(alpha, trans, emission, next)[i'][j]
    {
      for j := 0 to n
        invariant forall i', j' :: 0 <= i' < i && 0 <= j' < n ==> table[i', j'] == LogXi(alpha, trans, emission, next)[i'][j']
        invariant forall j' :: 0 <= j' < j ==> table[i, j'] == LogXi(alpha, trans, emission, next)[i][j']
      {
        table[i, j] := alpha[i] + trans[i][j] + emission[j] + next[j];
      }
    }
    lx := Snapshot(table);
    forall i | 0 <= i < n
      ensures lx[i] == LogXi(alpha, trans, emission, next)[i]
    {
      forall j | 0 <= j < n
        ensures lx[i][j] == LogXi(alpha, trans, emission, next)[i][j]
      {
        assert lx[i][j] == table[i, j];
      }
    }
  }

  /** `xi_sum += m`, element-wise. */
  method AddInto(xiSum: array2<real>, m: Matrix)
    requires IsMatrix(m, xiSum.Length0, xiSum.Length1)
    modifies xiSum
    ensures Snapshot(xiSum) == MatAdd(old(Snapshot(xiSum)), m)
  {
    ghost var before := Snapshot(xiSum);
    forall i, j | 0 <= i < xiSum.Length0 && 0 <= j < xiSum.Length1 {
      xiSum[i, j] := xiSum[i, j] + m[i][j];
    }
    ghost var after := Snapshot(xiSum);
    ghost var sum := MatAdd(before, m);
    forall i | 0 <= i < xiSum.Length0
      ensures after[i] == sum[i]
    {
      forall j | 0 <= j < xiSum.Length1
        ensures after[i][j] == sum[i][j]
      {
        assert after[i][j] == xiSum[i, j];
      }
    }
  }

  /** `for t in range(length - 1)`: add each step's normalised `exp(log_xi)`
      to `xi_sum`. */
  method AccumulateXi(nm: ExpLog, h: LogParams, B: Matrix, alpha: Matrix, beta: Matrix, xiSum: array2<real>,
                      ghost steps: seq<Matrix>)
    requires WellFormed(h) && IsSegment(B, |h.start|)
    requires IsMatrix(alpha, |B|, |h.start|) && IsMatrix(beta, |B|, |h.start|)
    requires |steps| == |B| - 1 && Tables(steps, |h.start|)
    requires forall t :: 0 <= t < |steps| ==> steps[t] == XiTable(nm, alpha[t], h.trans, B[t + 1], beta[t + 1])
    requires xiSum.Length0 == |h.start| && xiSum.Length1 == |h.start|
    modifies xiSum
    ensures Snapshot(xiSum) == XiAccumulate(steps, old(Snapshot(xiSum)), |h.start|, |B| - 1)
  {
    var n := |h.start|;
    ghost var initial := Snapshot(xiSum);
    for t := 0 to |B| - 1
      invariant Snapshot(xiSum) == XiAccumulate(steps, initial, n, t)
    {
      var lx := FillLogXi(alpha[t], h.trans, B[t + 1], beta[t + 1]);
      var xi := ExpShift(nm, lx, LogSumExp(nm, Flatten(lx)));
      assert xi == steps[t];
      AddInto(xiSum, xi);
    }
  }

  /** The xi tables computed from the stored alpha and beta rows are those of
      the recursions. */
  lemma XiStepsFromRows(nm: ExpLog, h: LogParams, B: Matrix, alpha: Matrix, beta: Matrix)
    requires WellFormed(h) && IsSegment(B, |h.start|)
    requires |alpha| == |B| && forall t :: 0 <= t < |B| ==> alpha[t] == AlphaRow(nm, h, B, t)
    requires |beta| == |B| && forall t :: 0 <= t < |B| ==> beta[t] == BetaRow(nm, h, B, t)
    ensures IsMatrix(alpha, |B|, |h.start|) && IsMatrix(beta, |B|, |h.start|)
    ensures forall t :: 0 <= t < |B| - 1 ==>
      XiSteps(nm, h, B)[t] == XiTable(nm, alpha[t], h.trans, B[t + 1], beta[t + 1])
  {
    var steps := XiSteps(nm, h, B);
    forall t | 0 <= t < |B| - 1
      ensures steps[t] == XiTable(nm, alpha[t], h.trans, B[t + 1], beta[t + 1])
    {
      assert steps[t] == XiAt(nm, h, B, t);
    }
  }

  /** `gamma[cursor : cursor + len(rows)] = rows`, after the rows of
      `written` were stored before `cursor`. */
  method WriteRows(gamma: array2<real>, cursor: nat, rows: Matrix, ghost written: Matrix)
    requires cursor + |rows| <= gamma.Length0 && IsMatrix(rows, |rows|, gamma.Length1)
    requires IsMatrix(written, cursor, gamma.Length1)
    requires forall i, k :: 0 <= i < cursor && 0 <= k < gamma.Length1 ==> gamma[i, k] == written[i][k]
    modifies gamma
    ensures forall i, k :: 0 <= i < cursor + |rows| && 0 <= k < gamma.Length1 ==>
      gamma[i, k] == (written + rows)[i][k]
  {
    forall t, k | 0 <= t < |rows| && 0 <= k < gamma.Length1 {
      gamma[cursor + t, k] := rows[t][k];
    }
    forall i, k | 0 <= i < cursor + |rows| && 0 <= k < gamma.Length1
      ensures gamma[i, k] == (written + rows)[i][k]
    {
      if i < cursor {
        assert (written + rows)[i] == written[i];
      } else {
        assert (written + rows)[i] == rows[i - cursor];
      }
    }
  }

  /** The body of `for length in lengths` on one non-empty segment `B`
      starting at row `cursor`: the forward and backward passes, its gamma
      rows written at the cursor, and its xi terms added to `xi_sum`. */
  method ProcessSegment(nm: ExpLog, h: LogParams, B: Matrix, cursor: nat,
                        gamma: array2<real>, xiSum: array2<real>, ghost written: Matrix)
      returns (rows: Matrix, ll: real, ghost xi: Matrix)
    requires WellFormed(h) && IsSegment(B, |h.start|)
    requires cursor + |B| <= gamma.Length0 && gamma.Length1 == |h.start| && gamma != xiSum
    requires xiSum.Length0 == |h.start| && xiSum.Length1 == |h.start|
    requires IsMatrix(written, cursor, |h.start|)
    requires forall i, k :: 0 <= i < cursor && 0 <= k < |h.start| ==> gamma[i, k] == written[i][k]
    modifies gamma, xiSum
    ensures SegmentPosterior(nm, h, B) == Ok(SegmentOut(rows, xi, ll))
    ensures Snapshot(xiSum) == MatAdd(old(Snapshot(xiSum)), xi)
    ensures forall i, k :: 0 <= i < cursor + |B| && 0 <= k < |h.start| ==> gamma[i, k] == (written + rows)[i][k]
  {
    var alpha := Forward(nm, h, B);
    ll := LogSumExp(nm, alpha[|B| - 1]);
    var beta := Backward(nm, h, B);
    rows := seq(|B|, t requires 0 <= t < |B| => GammaFromLogs(nm, alpha[t], beta[t]));
    assert rows == SegmentGamma(nm, h, B);
    WriteRows(gamma, cursor, rows, written);
    ghost var before := Snapshot(xiSum);
    XiStepsFromRows(nm, h, B, alpha, beta);
    AccumulateXi(nm, h, B, alpha, beta, xiSum, XiSteps(nm, h, B));
    xi := XiAccumulate(XiSteps(nm, h, B), Zeros(|h.start|, |h.start|), |h.start|, |B| - 1);
    XiAccumulateFrom(XiSteps(nm, h, B), before, |h.start|, |B| - 1);
  }

  /** One pass of `for length in lengths` on a non-empty segment: gamma
      rows written at the cursor, xi terms added, likelihood added. */
  method Advance(nm: ExpLog, h: LogParams, E: Matrix, lengths: seq<nat>, ghost outs: seq<Result<SegmentOut>>,
                 s: nat, cursor: nat, gamma: array2<real>, xiSum: array2<real>, total: real, ghost acc: Posterior)
      returns (total': real, ghost acc': Posterior)
    requires WellFormed(h) && IsMatrix(E, |E|, |h.start|) && Total(lengths) == |E|
    requires s < |lengths| && lengths[s] > 0 && cursor == Offset(lengths, s) && cursor + lengths[s] <= |E|
    requires gamma.Length0 == |E| && gamma.Length1 == |h.start| && gamma != xiSum
    requires xiSum.Length0 == |h.start| && xiSum.Length1 == |h.start|
    requires SegmentsOf(nm, h, E, lengths, outs)
    requires Accumulate(outs, lengths, |h.start|, s) == Ok(acc)
    requires IsMatrix(acc.gamma, cursor, |h.start|) && Snapshot(xiSum) == acc.xiSum
    requires total == acc.logLikelihood
    requires forall i, k :: 0 <= i < cursor && 0 <= k < |h.start| ==> gamma[i, k] == acc.gamma[i][k]
    modifies gamma, xiSum
    ensures Accumulate(outs, lengths, |h.start|, s + 1) == Ok(acc')
    ensures IsMatrix(acc'.gamma, cursor + lengths[s], |h.start|) && Snapshot(xiSum) == acc'.xiSum
    ensures total' == acc'.logLikelihood
    ensures forall i, k :: 0 <= i < cursor + lengths[s] && 0 <= k < |h.start| ==> gamma[i, k] == acc'.gamma[i][k]
  {
    var B := SegmentRows(E, lengths, s);
    var rows, ll, xi := ProcessSegment(nm, h, B, cursor, gamma, xiSum, acc.gamma);
    total' := total + ll;
    acc' := Posterior(acc.gamma + rows, Snapshot(xiSum), acc.logLikelihood + ll);
    SegmentStep(nm, h, E, lengths, outs, s, acc, SegmentOut(rows, xi, ll), acc');
  }

  /** `return gamma, xi_sum, total_log_likelihood` after the last segment. */
  method Collect(nm: ExpLog, h: LogParams, E: Matrix, lengths: seq<nat>, ghost outs: seq<Result<SegmentOut>>,
                 gamma: array2<real>, xiSum: array2<real>, total: real, ghost acc: Posterior) returns (r: Result<Posterior>)
    requires WellFormed(h) && IsMatrix(E, |E|, |h.start|) && Total(lengths) == |E|
    requires SegmentsOf(nm, h, E, lengths, outs)
    requires Accumulate(outs, lengths, |h.start|, |lengths|) == Ok(acc)
    requires IsMatrix(acc.gamma, gamma.Length0, gamma.Length1) && Snapshot(xiSum) == acc.xiSum
    requires total == acc.logLikelihood
    requires forall i, k :: 0 <= i < gamma.Length0 && 0 <= k < gamma.Length1 ==> gamma[i, k] == acc.gamma[i][k]
    ensures r == Ok(acc)
  {
    var g := Snapshot(gamma);
    forall i | 0 <= i < gamma.Length0
      ensures g[i] == acc.gamma[i]
    {
    }
    assert g == acc.gamma;
    r := Ok(Posterior(g, Snapshot(xiSum), total));
  }

  /** The `for length in lengths` loop, folding the contributions `outs`
      of the segments one by one. */
  method SegmentLoop(nm: ExpLog, h: LogParams, E: Matrix, lengths: seq<nat>, ghost outs: seq<Result<SegmentOut>>)
      returns (r: Result<Posterior>)
    requires WellFormed(h) && IsMatrix(E, |E|, |h.start|) && Total(lengths) == |E|
    requires SegmentsOf(nm, h, E, lengths, outs)
    ensures r == Accumulate(outs, lengths, |h.start|, |lengths|)
  {
    var n := |h.start|;
    var gamma := new real[|E|, n]((i, k) => 0.0);
    var xiSum := new real[n, n]((i, j) => 0.0);
    var total := 0.0;
    var cursor := 0;
    ghost var acc := Posterior([], Zeros(n, n), 0.0);
    forall i | 0 <= i < n
      ensures Snapshot(xiSum)[i] == Zeros(n, n)[i]
    {
    }
    for s := 0 to |lengths|
      invariant cursor == Offset(lengths, s) <= |E|
      invariant Accumulate(outs, lengths, n, s) == Ok(acc)
      invariant IsMatrix(acc.gamma, cursor, n) && Snapshot(xiSum) == acc.xiSum
      invariant total == acc.logLikelihood
      invariant forall i, k :: 0 <= i < cursor && 0 <= k < n ==> gamma[i, k] == acc.gamma[i][k]
    {
      var length := lengths[s];
      OffsetMonotone(lengths, s + 1, |lengths|);
      if length == 0 {
        EmptySegmentFails(nm, h, E, lengths, outs, s);
        return Err(EmptySequence);
      }
      total, acc := Advance(nm, h, E, lengths, outs, s, cursor, gamma, xiSum, total, acc);
      cursor := cursor + length;
    }
    r := Collect(nm, h, E, lengths, outs, gamma, xiSum, total, acc);
  }

  /** `_forward_backward`: one pass of the forward and backward recursions
      per segment, the cursor advancing by each segment's length. */
  method ForwardBackwardPass(nm: ExpLog, h: LogParams, E: Matrix, lengths: seq<nat>) returns (r: Result<Posterior>)
    requires WellFormed(h) && IsMatrix(E, |E|, |h.start|) && Total(lengths) == |E|
    ensures r == ForwardBackwardSpec(nm, h, E, lengths)
  {
    ghost var outs := SegmentList(nm, h, E, lengths);
    r := SegmentLoop(nm, h, E, lengths, outs);
    SpecOfList(nm, h, E, lengths, outs);
  }

  /** `_forward_backward` under `startprob_` and `transmat_`. An empty
      segment raises whatever the table; otherwise a NaN table gives the
      NaN posterior exactly when some segment reads it. */
  function PosteriorUnder(nm: ExpLog, startprob: seq<real>, T: Transitions, E: Matrix, lengths: seq<nat>)
    : (r: Result<Posterior>)
    requires TransitionsSized(T, |startprob|) && IsMatrix(E, |E|, |startprob|) && Total(lengths) == |E|
    ensures r.Ok? ==> IsMatrix(r.value.gamma, |E|, |startprob|) && IsMatrix(r.value.xiSum, |startprob|, |startprob|)
  {
    match ForwardBackwardSpec(nm, ParamsOf(nm, startprob, T), E, lengths)
    case Err(e) => Err(e)
    case Ok(post) => if T.NaNTable? && LongSegment(lengths) then Err(NaNPosterior) else Ok(post)
  }

  /** `self._forward_backward(log_emissions, lengths)` on the fitted
      parameters. */
  method PosteriorPass(nm: ExpLog, startprob: seq<real>, T: Transitions, E: Matrix, lengths: seq<nat>)
      returns (r: Result<Posterior>)
    requires TransitionsSized(T, |startprob|) && IsMatrix(E, |E|, |startprob|) && Total(lengths) == |E|
    ensures r == PosteriorUnder(nm, startprob, T, E, lengths)
  {
    r := ForwardBackwardPass(nm, ParamsOf(nm, startprob, T), E, lengths);
    if r.Ok? && T.NaNTable? && LongSegment(lengths) {
      r := Err(NaNPosterior);
    }
  }
}
