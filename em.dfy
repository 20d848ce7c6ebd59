/** `fit`: the EM control loop as a state machine over the fitted attributes.
    One step gates the samples, runs forward-backward, logs the likelihood,
    and either stops (convergence) or replaces `transmat_` and refits the
    experts that carry enough posterior mass. */
module Em {
  import opened Outcomes
  import opened Numerics
  import opened Experts
  import opened Gating
  import opened InitParams
  import opened ForwardBackward
  import opened Posteriors
  import opened Inputs

  /** The constructor arguments `fit` reads. */
  datatype Settings = Settings(nStates: nat, nIter: nat, forest: ForestConfig, tol: real, mode: string)

  /** `X_flat`, `y_flat` and `lengths`. */
  datatype Data = Data(X: seq<Sample>, y: seq<int>, lengths: seq<nat>)

  ghost predicate Consistent(d: Data) {
    |d.y| == |d.X| && Total(d.lengths) == |d.X|
  }

  /** `experts`, `startprob_`, `transmat_` and `monitor_` once `_init_params`
      has set them. */
  datatype Fitted = Fitted(experts: seq<Expert>, startprob: seq<real>, transmat: Transitions, monitor: seq<real>)

  ghost predicate Sized(st: Fitted, n: nat) {
    |st.experts| == n && |st.startprob| == n && TransitionsSized(st.transmat, n)
  }

  /** How one pass of `for i in range(self.n_iter)` ends: an exception, the
      `break`, or the end of the body with the new likelihood. */
  datatype Step =
    | Failed(state: Fitted, error: Error)
    | Stopped(state: Fitted)
    | Next(state: Fitted, logLikelihood: real)

  /** How the whole loop ends: the attributes, and the exception if one was
      raised. */
  datatype LoopEnd = LoopEnd(state: Fitted, failure: Option<Error>)

  /** `fit` either raises before touching any attribute, or runs the loop. */
  datatype FitOutcome = Unchanged(error: Error) | Ran(end: LoopEnd)

  /** `np.log(expert_confidences + 1e-10)`. */
  function LogEmissions(nm: ExpLog, W: Matrix): (E: Matrix)
    ensures |E| == |W| && forall i :: 0 <= i < |W| ==> |E[i]| == |W[i]|
  {
    seq(|W|, i requires 0 <= i < |W| => LogShifted(nm, W[i]))
  }

  /** `i > 1 and abs(delta) < self.tol`; before the first likelihood
      `prev_log_likelihood` is `-inf`, so `delta` is `+inf` and the test
      fails. */
  predicate Converged(i: nat, prev: Option<real>, ll: real, tol: real) {
    i > 1 && prev.Some? && Abs(ll - prev.value) < tol
  }

  /** `xi_sum / xi_sum.sum(axis=1, keepdims=True)`: no epsilon here, so a
      row summing to zero turns NaN. */
  function RowNormalise(m: Matrix): (r: Transitions)
    ensures r.NaNTable? <==> exists i :: 0 <= i < |m| && Sum(m[i]) == 0.0
    ensures r.Table? ==> |r.rows| == |m| && forall i :: 0 <= i < |m| ==> |r.rows[i]| == |m[i]|
  {
    if exists i :: 0 <= i < |m| && Sum(m[i]) == 0.0 then NaNTable
    else Table(seq(|m|, i requires 0 <= i < |m| => Divide(m[i], Sum(m[i]))))
  }

  /** `gamma[:, k]`. */
  function Column(gamma: Matrix, k: nat): (w: seq<real>)
    requires forall i :: 0 <= i < |gamma| ==> k < |gamma[i]|
    ensures |w| == |gamma|
  {
    seq(|gamma|, i requires 0 <= i < |gamma| => gamma[i][k])
  }

  /** The `for k in range(self.n_states)` refit loop: expert k is refit on
      the whole training set, weighted by its gamma column, when that column
      sums to more than 1e-5. */
  function Refitted(experts: seq<Expert>, X: seq<Sample>, y: seq<int>, gamma: Matrix): (r: seq<Expert>)
    requires IsMatrix(gamma, |gamma|, |experts|)
    ensures |r| == |experts|
  {
    seq(|experts|, k requires 0 <= k < |experts| =>
      if Sum(Column(gamma, k)) > MassFloor then Refit(experts[k], X, y, Column(gamma, k)) else experts[k])
  }


  /** The gating weights, their logs, and `_forward_backward` under the
      current `startprob_` and `transmat_`. */
  function StepPosterior(o: Oracle, s: Settings, d: Data, st: Fitted): (r: Result<Posterior>)
    requires ValidOracle(o) && Consistent(d) && Sized(st, s.nStates)
    ensures r.Ok? ==> IsMatrix(r.value.gamma, |d.X|, s.nStates) && IsMatrix(r.value.xiSum, s.nStates, s.nStates)
  {
    match ExpertConfidence(o, s.mode, st.experts, d.X, s.nStates)
    case Err(e) => Err(e)
    case Ok(W) =>
      ConfidenceWeights(o, s.mode, st.experts, d.X, s.nStates);
      PosteriorUnder(o.num, st.startprob, st.transmat, LogEmissions(o.num, W), d.lengths)
  }

  /** The posterior of one iteration as a function of the attributes. The
      loop is stated over any such function that behaves as `StepPosterior`
      does (`Regular`), so that reasoning about the loop never has to look
      inside the numerics. */
  type PosteriorFn = Fitted --> Result<Posterior>

  /** How `StepPosterior` behaves on the attributes `st`: it raises where
      the gating refuses (`Refuses`), then on an empty segment; a NaN `transmat_` read by a
      segment of two samples gives the NaN posterior; otherwise it returns
      tables of the right shape whose `xi_sum` is positive when some segment
      has two samples or more and all zero when none has. */
  ghost predicate PosteriorSound(s: Settings, d: Data, st: Fitted, r: Result<Posterior>) {
    var empty := exists t :: 0 <= t < |d.lengths| && d.lengths[t] == 0;
    var refused := Refuses(s.mode, st.experts, d.X);
    && (r.Err? <==> refused || empty || (st.transmat.NaNTable? && LongSegment(d.lengths)))
    && (r.Err? ==>
          (r.error == if refused then Refusal(s.mode, st.experts, d.X) else if empty then EmptySequence else NaNPosterior))
    && (r.Ok? ==>
          && IsMatrix(r.value.gamma, |d.X|, s.nStates)
          && IsMatrix(r.value.xiSum, s.nStates, s.nStates)
          && (LongSegment(d.lengths) ==> PositiveTable(r.value.xiSum))
          && (!LongSegment(d.lengths) ==> r.value.xiSum == Zeros(s.nStates, s.nStates)))
  }

  ghost predicate Regular(s: Settings, d: Data, P: PosteriorFn) {
    forall st :: Sized(st, s.nStates) ==> P.requires(st) && PosteriorSound(s, d, st, P(st))
  }

  /** `transmat_` is NaN only where no segment reads it. `fit` keeps this:
      its table turns NaN only when `xi_sum` is all zero, that is when no
      training sequence has two samples. */
  ghost predicate NaNUnread(d: Data, st: Fitted) {
    st.transmat.NaNTable? ==> !LongSegment(d.lengths)
  }

  /** `StepPosterior` as a value. */
  function PosteriorsOf(o: Oracle, s: Settings, d: Data): (P: PosteriorFn)
    requires ValidOracle(o) && Consistent(d)
    ensures forall st :: Sized(st, s.nStates) ==> P.requires(st) && P(st) == StepPosterior(o, s, d, st)
  {
    st requires Sized(st, s.nStates) => StepPosterior(o, s, d, st)
  }

  /** The rest of the loop body once the posterior is known: log the
      likelihood, `break` on convergence, otherwise replace `transmat_`
      (NaN when a row of `xi_sum` sums to zero) and refit the experts. */
  function Update(s: Settings, d: Data, st: Fitted, i: nat, prev: Option<real>, post: Posterior): (r: Step)
    requires Consistent(d) && Sized(st, s.nStates)
    requires IsMatrix(post.gamma, |d.X|, s.nStates) && IsMatrix(post.xiSum, s.nStates, s.nStates)
    ensures Sized(r.state, s.nStates)
  {
    var logged := st.(monitor := st.monitor + [post.logLikelihood]);
    if Converged(i, prev, post.logLikelihood, s.tol) then Stopped(logged)
    else
      Next(logged.(transmat := RowNormalise(post.xiSum), experts := Refitted(st.experts, d.X, d.y, post.gamma)),
           post.logLikelihood)
  }

  /** One pass of the EM loop body, at iteration i with the previous
      likelihood `prev`. */
  function EmStep(s: Settings, d: Data, P: PosteriorFn, st: Fitted, i: nat, prev: Option<real>): (r: Step)
    requires Consistent(d) && Regular(s, d, P) && Sized(st, s.nStates)
    ensures Sized(r.state, s.nStates)
  {
    match P(st)
    case Err(e) => Failed(st, e)
    case Ok(post) => Update(s, d, st, i, prev, post)
  }

  /** The loop from iteration i on. */
  function EmLoop(s: Settings, d: Data, P: PosteriorFn, st: Fitted, i: nat, prev: Option<real>): (r: LoopEnd)
    requires Consistent(d) && Regular(s, d, P) && Sized(st, s.nStates) && i <= s.nIter
    ensures Sized(r.state, s.nStates)
    decreases s.nIter - i
  {
    if i == s.nIter then LoopEnd(st, None)
    else
      match EmStep(s, d, P, st, i, prev)
      case Failed(st', e) => LoopEnd(st', Some(e))
      case Stopped(st') => LoopEnd(st', None)
      case Next(st', ll) => EmLoop(s, d, P, st', i + 1, Some(ll))
  }

  /** The `for i in range(self.n_states)` loop of `_init_params`: one forest
      per state, each fit on the whole unweighted training set. */
  function InitialExperts(forest: ForestConfig, X: seq<Sample>, y: seq<int>, n: nat): (r: seq<Expert>)
    ensures |r| == n
    ensures forall k :: 0 <= k < n ==> r[k].forest == forest && r[k].state == k && r[k].trainings == [Training(X, y, None)]
  {
    seq(n, k requires 0 <= k < n => Trained(forest, k, X, y))
  }

  /** The attributes after `_init_params` and `self.monitor_ = []`. */
  function InitialState(s: Settings, X: seq<Sample>, y: seq<int>, labels: seq<nat>): (st: Fitted)
    requires |labels| > 0
    ensures Sized(st, s.nStates)
  {
    Fitted(InitialExperts(s.forest, X, y, s.nStates), StartProb(labels, s.nStates),
           Table(InitialTransitions(labels, s.nStates)), [])
  }

  /** What `rf.fit(X_flat, y_flat)` needs of `X_input` and `y_input`: two
      arrays of the same length, or, once `np.vstack` has accepted a
      non-empty list, a non-empty list of label sequences whose
      concatenation is as long as the stacked table. The sequences need not
      pair up one by one. */
  ghost predicate Matched(X: Batch<Sample>, y: Batch<int>) {
    match X
    case Sequences(xs) => y.Sequences? && (|xs| > 0 ==> |y.parts| > 0 && |Concat(y.parts)| == |Concat(xs)|)
    case Single(xs) => y.Single? && |y.items| == |xs|
  }

  /** KMeans is asked for labels only when it accepts the input; then it
      returns one label below `n_states` per sample. */
  ghost predicate KMeansLabels(n: nat, X: Batch<Sample>, labels: seq<nat>) {
    Stacked(X).Ok? && n > 0 && |Stacked(X).value| >= n ==>
      |labels| == |Stacked(X).value| && LabelsBelow(labels, n)
  }

  /** Stacking matched inputs gives as many labels as samples, and the
      segment lengths cover the stacked table. */
  lemma MatchedData(X: Batch<Sample>, y: Batch<int>)
    requires Matched(X, y) && Stacked(X).Ok?
    ensures Stacked(y).Ok? && |Stacked(y).value| == |Stacked(X).value|
    ensures Total(SegmentLengths(X)) == |Stacked(X).value|
  {
    StackedSegments(X);
  }

  /** The data `fit` works on once the input has been stacked. */
  function FitData(X: Batch<Sample>, y: Batch<int>): (d: Data)
    requires Matched(X, y) && Stacked(X).Ok?
    ensures Consistent(d)
  {
    MatchedData(X, y);
    Data(Stacked(X).value, Stacked(y).value, SegmentLengths(X))
  }

  /** `fit(X_input, y_input)` with the KMeans labels of the stacked table. */
  function FitSpec(o: Oracle, s: Settings, X: Batch<Sample>, y: Batch<int>, labels: seq<nat>): (r: FitOutcome)
    requires ValidOracle(o) && Matched(X, y) && KMeansLabels(s.nStates, X, labels)
    ensures r.Ran? ==> Sized(r.end.state, s.nStates)
  {
    match Stacked(X)
    case Err(e) => Unchanged(e)
    case Ok(flat) =>
      if s.nStates == 0 || |flat| < s.nStates then Unchanged(TooFewSamples)
      else
        var d := FitData(X, y);
        StepPosteriorRegular(o, s, d);
        Ran(EmLoop(s, d, PosteriorsOf(o, s, d), InitialState(s, d.X, d.y, labels), 0, None))
  }

  // ---------------------------------------------------------------------
  // The posterior of a step

  /** `StepPosterior` raises first where the gating refuses (an unknown
      mode, a table with no rows, a one-class forest in risk mode), then on
      an empty segment; past those, only a NaN `transmat_` met by a segment
      of two samples gives the NaN posterior. */
  lemma PosteriorErrors(o: Oracle, s: Settings, d: Data, st: Fitted)
    requires ValidOracle(o) && Consistent(d) && Sized(st, s.nStates)
    ensures var r := StepPosterior(o, s, d, st);
      var empty := exists t :: 0 <= t < |d.lengths| && d.lengths[t] == 0;
      var refused := Refuses(s.mode, st.experts, d.X);
      && (r.Err? <==> refused || empty || (st.transmat.NaNTable? && LongSegment(d.lengths)))
      && (r.Err? ==>
            (r.error == if refused then Refusal(s.mode, st.experts, d.X) else if empty then EmptySequence else NaNPosterior))
  {
    var n := s.nStates;
    if ExpertConfidence(o, s.mode, st.experts, d.X, n).Ok? {
      var W := ExpertConfidence(o, s.mode, st.experts, d.X, n).value;
      ConfidenceWeights(o, s.mode, st.experts, d.X, n);
      PosteriorUnderFails(o.num, st.startprob, st.transmat, LogEmissions(o.num, W), d.lengths);
    }
  }

  /** The `xi_sum` of `StepPosterior` is positive everywhere when some
      segment has two samples or more, and all zero otherwise. */
  lemma PosteriorXi(o: Oracle, s: Settings, d: Data, st: Fitted)
    requires ValidOracle(o) && Consistent(d) && Sized(st, s.nStates)
    requires StepPosterior(o, s, d, st).Ok?
    ensures LongSegment(d.lengths) ==> PositiveTable(StepPosterior(o, s, d, st).value.xiSum)
    ensures !LongSegment(d.lengths) ==> StepPosterior(o, s, d, st).value.xiSum == Zeros(s.nStates, s.nStates)
  {
    var n := s.nStates;
    var W := ExpertConfidence(o, s.mode, st.experts, d.X, n).value;
    ConfidenceWeights(o, s.mode, st.experts, d.X, n);
    var h := ParamsOf(o.num, st.startprob, st.transmat);
    var E := LogEmissions(o.num, W);
    ForwardBackwardFails(o.num, h, E, d.lengths);
    XiSumSign(o.num, h, E, d.lengths);
  }

  lemma StepPosteriorRegular(o: Oracle, s: Settings, d: Data)
    requires ValidOracle(o) && Consistent(d)
    ensures Regular(s, d, PosteriorsOf(o, s, d))
  {
    var P := PosteriorsOf(o, s, d);
    forall st | Sized(st, s.nStates)
      ensures P.requires(st) && PosteriorSound(s, d, st, P(st))
    {
      PosteriorErrors(o, s, d, st);
      if StepPosterior(o, s, d, st).Ok? {
        PosteriorXi(o, s, d, st);
      }
    }
  }

  // ---------------------------------------------------------------------
  // One step

  /** A positive table normalises into a table of distributions; an
      all-zero table turns NaN. */
  lemma RowNormaliseSign(xi: Matrix, n: nat)
    requires IsMatrix(xi, n, n) && n > 0
    ensures PositiveTable(xi) ==>
      && RowNormalise(xi).Table?
      && IsMatrix(RowNormalise(xi).rows, n, n)
      && RowsAreDistributions(RowNormalise(xi).rows)
    ensures xi == Zeros(n, n) ==> RowNormalise(xi) == NaNTable
  {
    if PositiveTable(xi) {
      forall i | 0 <= i < n
        ensures Sum(xi[i]) > 0.0 && Distribution(Divide(xi[i], Sum(xi[i])))
      {
        DivideBySumIsDistribution(xi[i]);
      }
    }
    if xi == Zeros(n, n) {
      ZeroRowSum(xi[0]);
    }
  }

  /** The rest of the body: it logs exactly one likelihood and raises
      nothing; it leaves through `break` exactly on convergence, with
      nothing else changed; otherwise the experts are refit and `transmat_`
      becomes a table of distributions, or NaN when `xi_sum` is all zero. */
  lemma UpdateEffects(s: Settings, d: Data, st: Fitted, i: nat, prev: Option<real>, post: Posterior)
    requires Consistent(d) && Sized(st, s.nStates) && s.nStates > 0
    requires IsMatrix(post.gamma, |d.X|, s.nStates) && IsMatrix(post.xiSum, s.nStates, s.nStates)
    requires PositiveTable(post.xiSum) || post.xiSum == Zeros(s.nStates, s.nStates)
    ensures var r := Update(s, d, st, i, prev, post);
      && !r.Failed?
      && r.state.startprob == st.startprob
      && r.state.monitor == st.monitor + [post.logLikelihood]
      && (r.Stopped? <==> Converged(i, prev, post.logLikelihood, s.tol))
      && (r.Stopped? ==> r.state == st.(monitor := r.state.monitor))
      && (r.Next? ==>
            && r.logLikelihood == post.logLikelihood
            && r.state.experts == Refitted(st.experts, d.X, d.y, post.gamma)
            && (PositiveTable(post.xiSum) ==>
                  r.state.transmat.Table? && RowsAreDistributions(r.state.transmat.rows))
            && (post.xiSum == Zeros(s.nStates, s.nStates) ==> r.state.transmat == NaNTable))
  {
    RowNormaliseSign(post.xiSum, s.nStates);
  }

  /** What a step does to the attributes: an exception changes nothing;
      `break` only appends the likelihood to `monitor_`; a step that ends
      normally appends it, did not converge, and leaves a table of
      distributions when some segment has two samples and a NaN table
      otherwise; `startprob_` is never touched. */
  lemma StepEffects(s: Settings, d: Data, P: PosteriorFn, st: Fitted, i: nat, prev: Option<real>)
    requires Consistent(d) && Regular(s, d, P) && Sized(st, s.nStates) && s.nStates > 0
    ensures var r := EmStep(s, d, P, st, i, prev);
      && r.state.startprob == st.startprob
      && (r.Failed? ==> r.state == st)
      && (r.Stopped? ==>
            && r.state == st.(monitor := r.state.monitor) && |r.state.monitor| == |st.monitor| + 1
            && r.state.monitor[..|st.monitor|] == st.monitor
            && Converged(i, prev, r.state.monitor[|st.monitor|], s.tol))
      && (r.Next? ==>
            && r.state.monitor == st.monitor + [r.logLikelihood]
            && !Converged(i, prev, r.logLikelihood, s.tol)
            && (r.state.transmat.Table? <==> LongSegment(d.lengths))
            && (r.state.transmat.Table? ==> RowsAreDistributions(r.state.transmat.rows)))
  {
    assert PosteriorSound(s, d, st, P(st));
    if P(st).Ok? {
      var post := P(st).value;
      UpdateEffects(s, d, st, i, prev, post);
      assert (st.monitor + [post.logLikelihood])[..|st.monitor|] == st.monitor;
      if LongSegment(d.lengths) {
        assert post.xiSum[0][0] > 0.0;
        assert post.xiSum != Zeros(s.nStates, s.nStates);
      }
    }
  }

  /** Which exceptions a step raises: the gating's refusal before anything
      else, an empty segment next; past those, the NaN posterior exactly
      when a NaN `transmat_` meets a segment of two samples, and nothing
      else. */
  lemma StepFailures(s: Settings, d: Data, P: PosteriorFn, st: Fitted, i: nat, prev: Option<real>)
    requires Consistent(d) && Regular(s, d, P) && Sized(st, s.nStates) && s.nStates > 0
    ensures var r := EmStep(s, d, P, st, i, prev);
      var empty := exists t :: 0 <= t < |d.lengths| && d.lengths[t] == 0;
      var refused := Refuses(s.mode, st.experts, d.X);
      && (refused ==> r == Failed(st, Refusal(s.mode, st.experts, d.X)))
      && (!refused && empty ==> r == Failed(st, EmptySequence))
      && (!refused && !empty ==>
            (r.Failed? <==> st.transmat.NaNTable? && LongSegment(d.lengths)))
      && (!refused && !empty && r.Failed? ==> r == Failed(st, NaNPosterior))
  {
    assert PosteriorSound(s, d, st, P(st));
    if P(st).Ok? {
      UpdateEffects(s, d, st, i, prev, P(st).value);
    }
  }

  /** Every forest's last `fit` was on the labels `y`: `_init_params` and
      every refit train on `y_flat`. */
  ghost predicate TrainedOn(experts: seq<Expert>, y: seq<int>) {
    forall k :: 0 <= k < |experts| ==>
      |experts[k].trainings| > 0 && experts[k].trainings[|experts[k].trainings| - 1].y == y
  }

  /** The gating of `fit` refuses every iteration alike: on an unknown
      mode, on a table with no rows, or in risk mode on training labels of a
      single class. */
  ghost predicate FitRefused(s: Settings, d: Data) {
    ParseMode(s.mode).None? || |d.X| == 0 || (ParseMode(s.mode) == Some(Risk) && OneClassLabels(d.y))
  }

  function FitRefusal(s: Settings, d: Data): Error {
    if ParseMode(s.mode).None? then UnknownMode(s.mode)
    else if |d.X| == 0 then NoSamples
    else SingleClass
  }

  /** On forests trained on `y`, the gating refuses exactly as `FitRefused`
      says, with the exception of `FitRefusal`. */
  lemma TrainedRefusal(s: Settings, d: Data, experts: seq<Expert>)
    requires TrainedOn(experts, d.y) && |experts| > 0
    ensures Refuses(s.mode, experts, d.X) <==> FitRefused(s, d)
    ensures Refuses(s.mode, experts, d.X) ==> Refusal(s.mode, experts, d.X) == FitRefusal(s, d)
  {
    assert OneClass(experts[0]) <==> OneClassLabels(d.y);
    if AnyOneClass(experts) {
      var k :| 0 <= k < |experts| && OneClass(experts[k]);
      assert OneClass(experts[k]) <==> OneClassLabels(d.y);
    }
  }

  /** A step keeps every forest trained on `y_flat`. */
  lemma StepTrainedOn(s: Settings, d: Data, P: PosteriorFn, st: Fitted, i: nat, prev: Option<real>)
    requires Consistent(d) && Regular(s, d, P) && Sized(st, s.nStates) && s.nStates > 0
    requires TrainedOn(st.experts, d.y)
    ensures TrainedOn(EmStep(s, d, P, st, i, prev).state.experts, d.y)
  {
    assert PosteriorSound(s, d, st, P(st));
    if P(st).Ok? {
      var post := P(st).value;
      UpdateEffects(s, d, st, i, prev, post);
      forall k | 0 <= k < s.nStates
        ensures var e := Refitted(st.experts, d.X, d.y, post.gamma)[k];
          |e.trainings| > 0 && e.trainings[|e.trainings| - 1].y == d.y
      {
        RefitRule(st.experts, d.X, d.y, post.gamma, k);
      }
    }
  }

  /** The training history the expert of state k keeps: first the
      unweighted fit of `_init_params`, then only weighted refits on the same
      stacked table whose weights carry more than 1e-5 of posterior mass. */
  ghost predicate History(e: Expert, forest: ForestConfig, k: nat, X: seq<Sample>, y: seq<int>) {
    && e.forest == forest && e.state == k
    && |e.trainings| >= 1
    && e.trainings[0] == Training(X, y, None)
    && forall j :: 1 <= j < |e.trainings| ==> Weighted(e.trainings[j], X, y)
  }

  ghost predicate Weighted(t: Training, X: seq<Sample>, y: seq<int>) {
    t.X == X && t.y == y && t.sampleWeight.Some? && |t.sampleWeight.value| == |X|
    && Sum(t.sampleWeight.value) > MassFloor
  }

  /** Every expert has its history, and at most one refit per logged
      iteration. */
  ghost predicate Histories(experts: seq<Expert>, forest: ForestConfig, X: seq<Sample>, y: seq<int>, iterations: nat) {
    forall k :: 0 <= k < |experts| ==>
      History(experts[k], forest, k, X, y) && |experts[k].trainings| <= iterations + 1
  }

  /** Expert k gains one training exactly when its gamma column has mass
      above 1e-5, and that training is weighted by the column; otherwise
      it is left as it was. */
  lemma RefitRule(experts: seq<Expert>, X: seq<Sample>, y: seq<int>, gamma: Matrix, k: nat)
    requires IsMatrix(gamma, |gamma|, |experts|) && k < |experts|
    ensures var e := Refitted(experts, X, y, gamma)[k];
      && e == experts[k].(trainings := e.trainings)
      && e.trainings[..|experts[k].trainings|] == experts[k].trainings
      && (|e.trainings| == |experts[k].trainings| + 1 <==> Sum(Column(gamma, k)) > MassFloor)
      && (|e.trainings| == |experts[k].trainings| + 1 ==>
            e.trainings[|experts[k].trainings|] == Training(X, y, Some(Column(gamma, k))))
      && (|e.trainings| != |experts[k].trainings| + 1 ==> e == experts[k])
  {
  }

  lemma StepHistories(s: Settings, d: Data, P: PosteriorFn, st: Fitted, i: nat, prev: Option<real>)
    requires Consistent(d) && Regular(s, d, P) && Sized(st, s.nStates) && s.nStates > 0
    requires Histories(st.experts, s.forest, d.X, d.y, |st.monitor|)
    ensures var r := EmStep(s, d, P, st, i, prev);
      Histories(r.state.experts, s.forest, d.X, d.y, |r.state.monitor|)
  {
    assert PosteriorSound(s, d, st, P(st));
    if P(st).Ok? {
      var post := P(st).value;
      UpdateEffects(s, d, st, i, prev, post);
      var r := Update(s, d, st, i, prev, post);
      if r.Next? {
        forall k | 0 <= k < s.nStates
          ensures History(r.state.experts[k], s.forest, k, d.X, d.y)
          ensures |r.state.experts[k].trainings| <= |r.state.monitor| + 1
        {
          RefitRule(st.experts, d.X, d.y, post.gamma, k);
        }
      }
    }
  }

  // ---------------------------------------------------------------------
  // The whole loop

  /** The last logged likelihood: `prev_log_likelihood` after the iterations
      that logged `m`. */
  function Last(m: seq<real>): (r: Option<real>)
    ensures r.Some? <==> |m| > 0
    ensures r.Some? ==> r.value == m[|m| - 1]
  {
    if |m| == 0 then None else Some(m[|m| - 1])
  }

  function Min(a: nat, b: nat): nat {
    if a < b then a else b
  }

  /** No logged iteration from the third on met the tolerance. */
  ghost predicate NeverConverged(m: seq<real>, tol: real) {
    forall j :: 2 <= j < |m| ==> Abs(m[j] - m[j - 1]) >= tol
  }

  /** No logged iteration but the last, from the third on, met the
      tolerance. */
  ghost predicate ConvergedOnlyLast(m: seq<real>, tol: real) {
    forall j :: 2 <= j && j + 1 < |m| ==> Abs(m[j] - m[j - 1]) >= tol
  }

  /** The loop never rewrites the entries of `monitor_` already logged and
      never logs past `n_iter`; `startprob_` is left alone. */
  lemma {:induction false} LoopLog(s: Settings, d: Data, P: PosteriorFn, st: Fitted, i: nat, prev: Option<real>)
    requires Consistent(d) && Regular(s, d, P) && Sized(st, s.nStates) && s.nStates > 0 && i <= s.nIter
    requires |st.monitor| == i
    ensures var r := EmLoop(s, d, P, st, i, prev);
      var m := r.state.monitor;
      && i <= |m| <= s.nIter && m[..i] == st.monitor
      && r.state.startprob == st.startprob
    decreases s.nIter - i
  {
    if i < s.nIter {
      StepEffects(s, d, P, st, i, prev);
      var step := EmStep(s, d, P, st, i, prev);
      if step.Next? {
        assert step.state.monitor[..i] == st.monitor;
        LoopLog(s, d, P, step.state, i + 1, Some(step.logLikelihood));
        var m := EmLoop(s, d, P, st, i, prev).state.monitor;
        assert m[..i] == m[..i + 1][..i];
      }
    }
  }

  /** The loop leaves early without an exception only at an iteration i > 1
      whose likelihood is within `tol` of the previous one. */
  lemma {:induction false} LoopStops(s: Settings, d: Data, P: PosteriorFn, st: Fitted, i: nat, prev: Option<real>)
    requires Consistent(d) && Regular(s, d, P) && Sized(st, s.nStates) && s.nStates > 0 && i <= s.nIter
    requires |st.monitor| == i && prev == Last(st.monitor)
    ensures var r := EmLoop(s, d, P, st, i, prev);
      var m := r.state.monitor;
      && (r.failure.None? && |m| < s.nIter ==> |m| >= 3 && Abs(m[|m| - 1] - m[|m| - 2]) < s.tol)
      && (r.failure.None? ==> |m| >= Min(s.nIter, 3))
    decreases s.nIter - i
  {
    if i < s.nIter {
      StepEffects(s, d, P, st, i, prev);
      var step := EmStep(s, d, P, st, i, prev);
      if step.Next? {
        LoopStops(s, d, P, step.state, i + 1, Some(step.logLikelihood));
      }
    }
  }

  /** No iteration before the last one, from the third on, met the
      convergence test: the loop leaves at the first iteration that does. */
  lemma {:induction false} LoopConverges(s: Settings, d: Data, P: PosteriorFn, st: Fitted, i: nat, prev: Option<real>)
    requires Consistent(d) && Regular(s, d, P) && Sized(st, s.nStates) && s.nStates > 0 && i <= s.nIter
    requires |st.monitor| == i && prev == Last(st.monitor) && NeverConverged(st.monitor, s.tol)
    ensures ConvergedOnlyLast(EmLoop(s, d, P, st, i, prev).state.monitor, s.tol)
    decreases s.nIter - i
  {
    if i < s.nIter {
      StepEffects(s, d, P, st, i, prev);
      var step := EmStep(s, d, P, st, i, prev);
      if step.Next? {
        LogNotConverged(st.monitor, step.logLikelihood, prev, s.tol);
        LoopConverges(s, d, P, step.state, i + 1, Some(step.logLikelihood));
      } else {
        LogOneMore(st.monitor, step.state.monitor, s.tol);
      }
    }
  }

  /** An iteration that fails the convergence test keeps the log free of
      converged iterations. */
  lemma LogNotConverged(m: seq<real>, ll: real, prev: Option<real>, tol: real)
    requires NeverConverged(m, tol) && prev == Last(m) && !Converged(|m|, prev, ll, tol)
    ensures NeverConverged(m + [ll], tol)
  {
  }

  /** Logging one more iteration, or none, leaves only the last one
      possibly converged. */
  lemma LogOneMore(m: seq<real>, m': seq<real>, tol: real)
    requires NeverConverged(m, tol) && |m| <= |m'| <= |m| + 1 && m'[..|m|] == m
    ensures ConvergedOnlyLast(m', tol)
  {
    forall j | 2 <= j && j + 1 < |m'|
      ensures Abs(m'[j] - m'[j - 1]) >= tol
    {
      assert m'[j] == m[j] && m'[j - 1] == m[j - 1];
    }
  }

  /** The exceptions the loop can raise, and when: the gating's refusal or
      an empty segment on the first iteration, and nothing at all when the
      gating accepts, every segment is non-empty, and `transmat_` is NaN
      only where no segment reads it. */
  lemma {:induction false} LoopFailures(s: Settings, d: Data, P: PosteriorFn, st: Fitted, i: nat, prev: Option<real>)
    requires Consistent(d) && Regular(s, d, P) && Sized(st, s.nStates) && s.nStates > 0 && i <= s.nIter
    requires NaNUnread(d, st) && TrainedOn(st.experts, d.y)
    ensures var r := EmLoop(s, d, P, st, i, prev);
      var empty := exists t :: 0 <= t < |d.lengths| && d.lengths[t] == 0;
      && (r.failure.Some? ==> r.failure.value in {FitRefusal(s, d), EmptySequence})
      && (FitRefused(s, d) && i < s.nIter ==> r == LoopEnd(st, Some(FitRefusal(s, d))))
      && (!FitRefused(s, d) && i < s.nIter && empty ==> r == LoopEnd(st, Some(EmptySequence)))
      && (!FitRefused(s, d) && !empty ==> r.failure.None?)
    decreases s.nIter - i
  {
    if i < s.nIter {
      TrainedRefusal(s, d, st.experts);
      StepFailures(s, d, P, st, i, prev);
      StepEffects(s, d, P, st, i, prev);
      StepTrainedOn(s, d, P, st, i, prev);
      var step := EmStep(s, d, P, st, i, prev);
      if step.Next? {
        LoopFailures(s, d, P, step.state, i + 1, Some(step.logLikelihood));
      }
    }
  }

  /** Experts keep their histories through the loop, and the transition
      table is the one the loop started with, a table of distributions, or
      NaN where no segment reads it. */
  lemma {:induction false} LoopHistories(s: Settings, d: Data, P: PosteriorFn, st: Fitted, i: nat, prev: Option<real>)
    requires Consistent(d) && Regular(s, d, P) && Sized(st, s.nStates) && s.nStates > 0 && i <= s.nIter
    requires Histories(st.experts, s.forest, d.X, d.y, |st.monitor|)
    ensures var r := EmLoop(s, d, P, st, i, prev);
      && Histories(r.state.experts, s.forest, d.X, d.y, |r.state.monitor|)
      && (|| r.state.transmat == st.transmat
          || (r.state.transmat.Table? && RowsAreDistributions(r.state.transmat.rows))
          || (r.state.transmat == NaNTable && !LongSegment(d.lengths)))
    decreases s.nIter - i
  {
    if i < s.nIter {
      StepHistories(s, d, P, st, i, prev);
      StepEffects(s, d, P, st, i, prev);
      var step := EmStep(s, d, P, st, i, prev);
      if step.Next? {
        LoopHistories(s, d, P, step.state, i + 1, Some(step.logLikelihood));
      }
    }
  }

  // ---------------------------------------------------------------------
  // The whole of `fit`

  /** `fit` changes nothing when it raises before `_init_params` has
      assigned: on an empty list of sequences, or when KMeans refuses the
      table (no states, or fewer samples than states). */
  lemma FitUnchanged(o: Oracle, s: Settings, X: Batch<Sample>, y: Batch<int>, labels: seq<nat>)
    requires ValidOracle(o) && Matched(X, y) && KMeansLabels(s.nStates, X, labels)
    ensures FitSpec(o, s, X, y, labels) == Unchanged(NoSequences) <==> X == Sequences([])
    ensures FitSpec(o, s, X, y, labels) == Unchanged(TooFewSamples) <==>
      Stacked(X).Ok? && (s.nStates == 0 || |Stacked(X).value| < s.nStates)
  {
  }

  /** The loop `fit` runs once `_init_params` has assigned. */
  lemma FitLoop(o: Oracle, s: Settings, X: Batch<Sample>, y: Batch<int>, labels: seq<nat>)
    requires ValidOracle(o) && Matched(X, y) && KMeansLabels(s.nStates, X, labels)
    requires FitSpec(o, s, X, y, labels).Ran?
    ensures Stacked(X).Ok? && s.nStates > 0 && |labels| == |Stacked(X).value| >= s.nStates
    ensures LabelsBelow(labels, s.nStates)
    ensures Regular(s, FitData(X, y), PosteriorsOf(o, s, FitData(X, y)))
    ensures var d := FitData(X, y);
      FitSpec(o, s, X, y, labels).end ==
        EmLoop(s, d, PosteriorsOf(o, s, d), InitialState(s, d.X, d.y, labels), 0, None)
  {
    StepPosteriorRegular(o, s, FitData(X, y));
  }

  /** What `fit` promises about `monitor_`: at most `n_iter` likelihoods,
      none converged before the last; when no exception was raised, at
      least `min(n_iter, 3)` of them, and fewer than `n_iter` only when the
      last one is within `tol` of the one before. */
  ghost predicate MonitorRule(s: Settings, r: LoopEnd) {
    var m := r.state.monitor;
    && |m| <= s.nIter
    && ConvergedOnlyLast(m, s.tol)
    && (r.failure.None? && |m| < s.nIter ==> |m| >= 3 && Abs(m[|m| - 1] - m[|m| - 2]) < s.tol)
    && (r.failure.None? ==> |m| >= Min(s.nIter, 3))
  }

  /** The exceptions the EM loop of `fit` raises: the gating's refusal (an
      unknown mode, or in risk mode training labels of a single class) or
      an empty segment, on the first iteration before anything is logged,
      and nothing else. In particular sequences of one sample each, whose
      `xi_sum` is all zero and whose `transmat_` turns NaN, raise nothing. */
  ghost predicate FailureRule(s: Settings, d: Data, r: LoopEnd) {
    var empty := exists t :: 0 <= t < |d.lengths| && d.lengths[t] == 0;
    && (r.failure.Some? ==> r.failure.value in {FitRefusal(s, d), EmptySequence})
    && (FitRefused(s, d) && s.nIter > 0 ==> r.failure == Some(FitRefusal(s, d)) && r.state.monitor == [])
    && (!FitRefused(s, d) && s.nIter > 0 && empty ==> r.failure == Some(EmptySequence) && r.state.monitor == [])
    && (!FitRefused(s, d) && !empty ==> r.failure.None?)
  }

  /** The attributes `fit` leaves: `startprob_` is the start distribution
      of the KMeans labels, untouched by the loop; `transmat_` is the
      initial count table, a table of distributions, or NaN when no
      sequence has two samples; there is one expert per state, each with
      the history of `History`. */
  ghost predicate ParameterRule(s: Settings, X: seq<Sample>, y: seq<int>, lengths: seq<nat>, labels: seq<nat>, st: Fitted) {
    && |labels| > 0 && st.startprob == StartProb(labels, s.nStates)
    && |st.startprob| == s.nStates && Sum(st.startprob) == 1.0
    && (forall k :: 0 <= k < s.nStates ==> 0.0 <= st.startprob[k] <= 1.0)
    && (|| st.transmat == Table(InitialTransitions(labels, s.nStates))
        || (st.transmat.Table? && RowsAreDistributions(st.transmat.rows))
        || (st.transmat == NaNTable && !LongSegment(lengths)))
    && |st.experts| == s.nStates
    && Histories(st.experts, s.forest, X, y, |st.monitor|)
  }

  /** The loop run from the state `_init_params` leaves keeps
      `MonitorRule`, for any posterior that behaves as `StepPosterior`
      does. */
  lemma RunMonitor(s: Settings, d: Data, P: PosteriorFn, labels: seq<nat>)
    requires Consistent(d) && Regular(s, d, P) && s.nStates > 0 && |labels| > 0
    ensures MonitorRule(s, EmLoop(s, d, P, InitialState(s, d.X, d.y, labels), 0, None))
  {
    var init := InitialState(s, d.X, d.y, labels);
    LoopLog(s, d, P, init, 0, None);
    LoopStops(s, d, P, init, 0, None);
    LoopConverges(s, d, P, init, 0, None);
  }

  /** The same loop keeps `FailureRule`. */
  lemma RunFailures(s: Settings, d: Data, P: PosteriorFn, labels: seq<nat>)
    requires Consistent(d) && Regular(s, d, P) && s.nStates > 0 && |labels| > 0
    ensures FailureRule(s, d, EmLoop(s, d, P, InitialState(s, d.X, d.y, labels), 0, None))
  {
    var init := InitialState(s, d.X, d.y, labels);
    assert TrainedOn(init.experts, d.y);
    LoopFailures(s, d, P, init, 0, None);
  }

  /** The same loop keeps `ParameterRule`. */
  lemma RunParameters(s: Settings, d: Data, P: PosteriorFn, labels: seq<nat>)
    requires Consistent(d) && Regular(s, d, P) && s.nStates > 0 && |labels| > 0 && LabelsBelow(labels, s.nStates)
    ensures ParameterRule(s, d.X, d.y, d.lengths, labels, EmLoop(s, d, P, InitialState(s, d.X, d.y, labels), 0, None).state)
  {
    var init := InitialState(s, d.X, d.y, labels);
    LoopLog(s, d, P, init, 0, None);
    LoopHistories(s, d, P, init, 0, None);
    StartProbDistribution(labels, s.nStates);
  }

  /** `monitor_` after `fit`, as `MonitorRule` states it. */
  lemma FitMonitor(o: Oracle, s: Settings, X: Batch<Sample>, y: Batch<int>, labels: seq<nat>)
    requires ValidOracle(o) && Matched(X, y) && KMeansLabels(s.nStates, X, labels)
    requires FitSpec(o, s, X, y, labels).Ran?
    ensures MonitorRule(s, FitSpec(o, s, X, y, labels).end)
  {
    FitLoop(o, s, X, y, labels);
    var d := FitData(X, y);
    RunMonitor(s, d, PosteriorsOf(o, s, d), labels);
  }

  /** The attributes after `fit`, as `ParameterRule` states them, over the
      stacked training table. */
  lemma FitParameters(o: Oracle, s: Settings, X: Batch<Sample>, y: Batch<int>, labels: seq<nat>)
    requires ValidOracle(o) && Matched(X, y) && KMeansLabels(s.nStates, X, labels)
    requires FitSpec(o, s, X, y, labels).Ran?
    ensures Stacked(X).Ok? && Stacked(y).Ok?
    ensures ParameterRule(s, Stacked(X).value, Stacked(y).value, SegmentLengths(X), labels,
                          FitSpec(o, s, X, y, labels).end.state)
  {
    FitLoop(o, s, X, y, labels);
    var d := FitData(X, y);
    RunParameters(s, d, PosteriorsOf(o, s, d), labels);
  }

  /** The exceptions `fit` raises once `_init_params` has assigned, as
      `FailureRule` states them, over the lengths of the input sequences. */
  lemma FitFailures(o: Oracle, s: Settings, X: Batch<Sample>, y: Batch<int>, labels: seq<nat>)
    requires ValidOracle(o) && Matched(X, y) && KMeansLabels(s.nStates, X, labels)
    requires FitSpec(o, s, X, y, labels).Ran?
    ensures Stacked(X).Ok? && |Stacked(X).value| > 0
    ensures FailureRule(s, FitData(X, y), FitSpec(o, s, X, y, labels).end)
  {
    FitLoop(o, s, X, y, labels);
    var d := FitData(X, y);
    RunFailures(s, d, PosteriorsOf(o, s, d), labels);
  }
}
