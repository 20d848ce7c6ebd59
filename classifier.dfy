/** `MSRF_Classifier`: a regime-switching ensemble of random forests. One
    forest per hidden state; `fit` runs EM over the state posteriors and
    `predict_proba` mixes the forests' class-1 probabilities with those
    posteriors as weights. */
module Msrf {
  import opened Outcomes
  import opened Numerics
  import opened Experts
  import opened Gating
  import opened InitParams
  import opened ForwardBackward
  import opened Posteriors
  import opened Inputs
  import opened Fusion
  import opened Em

  /** The attributes `predict_proba` reads are either all unset, as the
      constructor leaves them, or set and sized for `n` states. */
  ghost predicate Attributes(n: nat, experts: seq<Expert>, startprob: Option<seq<real>>, transmat: Option<Transitions>) {
    || (experts == [] && startprob.None? && transmat.None?)
    || (startprob.Some? && transmat.Some? && Sized(Fitted(experts, startprob.value, transmat.value, []), n))
  }

  /** `predict_proba(X_input)`: stack the input, gate it, run
      forward-backward under the fitted parameters, mix the experts. It
      raises on an empty list, then where the gating refuses (an unknown
      mode, a table with no rows, a one-class forest in risk mode), then
      when the model was never fitted (`np.log(None + 1e-10)`), then on an
      empty sequence, then on a one-class forest in the mixing loop
      (`predict_proba(X_flat)[:, 1]`); a NaN `transmat_` read by a sequence
      of two samples gives the NaN posterior. */
  function ProbaSpec(o: Oracle, n: nat, mode: string, experts: seq<Expert>, startprob: Option<seq<real>>,
                     transmat: Option<Transitions>, X: Batch<Sample>): (r: Result<Matrix>)
    requires ValidOracle(o) && Attributes(n, experts, startprob, transmat)
    ensures r.Ok? ==> Stacked(X).Ok? && IsMatrix(r.value, |Stacked(X).value|, 2)
    ensures r == Err(NaNPosterior) ==> Stacked(X).Ok?
  {
    match Stacked(X)
    case Err(e) => Err(e)
    case Ok(flat) =>
      match ExpertConfidence(o, mode, experts, flat, n)
      case Err(e) => Err(e)
      case Ok(W) =>
        if startprob.None? then Err(NotFitted)
        else
          ConfidenceWeights(o, mode, experts, flat, n);
          StackedSegments(X);
          var fb := PosteriorUnder(o.num, startprob.value, transmat.value, LogEmissions(o.num, W), SegmentLengths(X));
          if fb == Err(EmptySequence) then Err(EmptySequence)
          else if AnyOneClass(experts) then Err(SingleClass)
          else
            match fb
            case Err(e) => Err(e)
            case Ok(post) => Ok(ProbaRows(FusedRisks(o, experts, post.gamma, flat, n)))
  }

  /** The exceptions of `predict_proba`, in the order they are raised. */
  lemma ProbaErrors(o: Oracle, n: nat, mode: string, experts: seq<Expert>, startprob: Option<seq<real>>,
                    transmat: Option<Transitions>, X: Batch<Sample>)
    requires ValidOracle(o) && Attributes(n, experts, startprob, transmat)
    ensures X != Sequences([]) ==> Stacked(X).Ok?
    ensures var r := ProbaSpec(o, n, mode, experts, startprob, transmat, X);
      var lengths := SegmentLengths(X);
      var empty := exists t :: 0 <= t < |lengths| && lengths[t] == 0;
      var refused := Stacked(X).Ok? && Refuses(mode, experts, Stacked(X).value);
      && (r.Err? <==>
            || X == Sequences([]) || refused || startprob.None? || empty || AnyOneClass(experts)
            || (transmat == Some(NaNTable) && LongSegment(lengths)))
      && (X == Sequences([]) ==> r == Err(NoSequences))
      && (refused ==> r == Err(Refusal(mode, experts, Stacked(X).value)))
      && (X != Sequences([]) && !refused && startprob.None? ==> r == Err(NotFitted))
      && (X != Sequences([]) && !refused && startprob.Some? && empty ==> r == Err(EmptySequence))
      && (X != Sequences([]) && !refused && startprob.Some? && !empty && AnyOneClass(experts) ==>
            r == Err(SingleClass))
      && (r.Err? && X != Sequences([]) && !refused && startprob.Some? && !empty && !AnyOneClass(experts) ==>
            r == Err(NaNPosterior))
  {
    if Stacked(X).Ok? && !Refuses(mode, experts, Stacked(X).value) && startprob.Some? {
      ProbaPastGating(o, n, mode, experts, startprob, transmat, X);
    }
  }

  /** Past the gating on a fitted model, `predict_proba` raises on an empty
      sequence, then on a one-class forest; otherwise nothing fails but the
      NaN posterior (NaN values, not an exception), exactly when a NaN
      `transmat_` meets a sequence of two samples. */
  lemma ProbaPastGating(o: Oracle, n: nat, mode: string, experts: seq<Expert>, startprob: Option<seq<real>>,
                        transmat: Option<Transitions>, X: Batch<Sample>)
    requires ValidOracle(o) && Attributes(n, experts, startprob, transmat)
    requires Stacked(X).Ok? && !Refuses(mode, experts, Stacked(X).value) && startprob.Some?
    ensures var r := ProbaSpec(o, n, mode, experts, startprob, transmat, X);
      var lengths := SegmentLengths(X);
      var empty := exists t :: 0 <= t < |lengths| && lengths[t] == 0;
      && (empty ==> r == Err(EmptySequence))
      && (!empty && AnyOneClass(experts) ==> r == Err(SingleClass))
      && (!empty && !AnyOneClass(experts) ==>
            (r.Err? <==> transmat == Some(NaNTable) && LongSegment(lengths)) && (r.Err? ==> r == Err(NaNPosterior)))
  {
    var flat := Stacked(X).value;
    var W := ExpertConfidence(o, mode, experts, flat, n).value;
    ConfidenceWeights(o, mode, experts, flat, n);
    StackedSegments(X);
    PosteriorUnderFails(o.num, startprob.value, transmat.value, LogEmissions(o.num, W), SegmentLengths(X));
  }

  /** A result of `predict_proba` is the mixture under the gamma of
      `_forward_backward` on the fitted parameters, turned into rows. */
  lemma ProbaSpecValue(o: Oracle, n: nat, mode: string, experts: seq<Expert>, startprob: Option<seq<real>>,
                       transmat: Option<Transitions>, X: Batch<Sample>)
    requires ValidOracle(o) && Attributes(n, experts, startprob, transmat)
    requires ProbaSpec(o, n, mode, experts, startprob, transmat, X).Ok?
    ensures Stacked(X).Ok? && ExpertConfidence(o, mode, experts, Stacked(X).value, n).Ok? && startprob.Some?
    ensures var flat := Stacked(X).value;
      var W := ExpertConfidence(o, mode, experts, flat, n).value;
      && IsMatrix(W, |flat|, n) && Total(SegmentLengths(X)) == |flat|
      && var h := ParamsOf(o.num, startprob.value, transmat.value);
         var fb := ForwardBackwardSpec(o.num, h, LogEmissions(o.num, W), SegmentLengths(X));
         && fb.Ok? && IsMatrix(fb.value.gamma, |flat|, n)
         && ProbaSpec(o, n, mode, experts, startprob, transmat, X).value ==
              ProbaRows(FusedRisks(o, experts, fb.value.gamma, flat, n))
  {
    var flat := Stacked(X).value;
    ConfidenceWeights(o, mode, experts, flat, n);
    StackedSegments(X);
  }

  /** On a fitted model with at least one state, every output row is a
      probability pair: both entries in [0, 1], summing to 1. The gamma rows
      are distributions, so each mixture of class-1 probabilities stays in
      [0, 1]. */
  lemma ProbaRowsArePairs(o: Oracle, n: nat, mode: string, experts: seq<Expert>, startprob: Option<seq<real>>,
                          transmat: Option<Transitions>, X: Batch<Sample>)
    requires ValidOracle(o) && ExpLogLaws(o.num) && n > 0 && Attributes(n, experts, startprob, transmat)
    requires ProbaSpec(o, n, mode, experts, startprob, transmat, X).Ok?
    ensures var P := ProbaSpec(o, n, mode, experts, startprob, transmat, X).value;
      forall i :: 0 <= i < |P| ==>
        && 0.0 <= P[i][0] <= 1.0 && 0.0 <= P[i][1] <= 1.0
        && Sum(P[i]) == 1.0 && P[i][0] == 1.0 - P[i][1]
  {
    ProbaSpecValue(o, n, mode, experts, startprob, transmat, X);
    var flat := Stacked(X).value;
    var W := ExpertConfidence(o, mode, experts, flat, n).value;
    var h := ParamsOf(o.num, startprob.value, transmat.value);
    var E := LogEmissions(o.num, W);
    var post := ForwardBackwardSpec(o.num, h, E, SegmentLengths(X)).value;
    GammaRowsAreDistributions(o.num, h, E, SegmentLengths(X));
    var p := FusedRisks(o, experts, post.gamma, flat, n);
    forall i | 0 <= i < |p|
      ensures 0.0 <= p[i] <= 1.0
    {
      var g := post.gamma[i];
      assert Distribution(g);
      MixtureBounds(o, experts, g, flat[i]);
    }
    ProbaRowsSumToOne(p);
  }

  class MsrfClassifier {
    const nStates: nat
    const nIter: nat
    const rfParams: Option<map<string, string>>
    const nEstimators: nat
    const maxDepth: nat
    const tol: real
    /** The mode, lower-cased once by the constructor. */
    const mode: string

    /** One forest per state, `None` until `_init_params` has run. */
    var experts: seq<Expert>
    var startprob: Option<seq<real>>
    var transmat: Option<Transitions>
    /** The log-likelihood of every EM iteration of the last `fit`. */
    var monitor: seq<real>

    ghost predicate Valid()
      reads this
    {
      Attributes(nStates, experts, startprob, transmat)
    }

    /** The attributes once `_init_params` has assigned them. */
    ghost predicate IsFitted()
      reads this
    {
      startprob.Some? && transmat.Some? && Sized(State(), nStates)
    }

    function State(): Fitted
      reads this
      requires startprob.Some? && transmat.Some?
    {
      Fitted(experts, startprob.value, transmat.value, monitor)
    }

    /** The forest each state gets: `RandomForestClassifier(**rf_params)`
        when `rf_params` is given, the balanced default otherwise. */
    function Forest(): ForestConfig {
      if rfParams.Some? then Custom(rfParams.value) else Default(nEstimators, maxDepth)
    }

    function Config(): Settings {
      Settings(nStates, nIter, Forest(), tol, mode)
    }

    constructor(nStates: nat := 3, nIter: nat := 10, rfParams: Option<map<string, string>> := None,
                nEstimators: nat := 50, maxDepth: nat := 10, tol: real := 0.001, mode: string := "confidence")
      ensures this.nStates == nStates && this.nIter == nIter && this.rfParams == rfParams
      ensures this.nEstimators == nEstimators && this.maxDepth == maxDepth && this.tol == tol
      ensures this.mode == Lower(mode)
      ensures experts == [] && startprob == None && transmat == None && monitor == []
      ensures Valid()
    {
      this.nStates := nStates;
      this.nIter := nIter;
      this.rfParams := rfParams;
      this.nEstimators := nEstimators;
      this.maxDepth := maxDepth;
      this.tol := tol;
      this.mode := Lower(mode);
      experts := [];
      startprob := None;
      transmat := None;
      monitor := [];
    }

    /** `_init_params` with the KMeans labels given: count the label
        transitions, normalise them into `transmat_`, take the label
        frequencies as `startprob_`, and train one fresh forest per state on
        the whole table. */
    method InitParams(X: seq<Sample>, y: seq<int>, labels: seq<nat>)
      requires |labels| > 0 && LabelsBelow(labels, nStates)
      modifies this
      ensures experts == InitialExperts(Forest(), X, y, nStates)
      ensures startprob == Some(StartProb(labels, nStates))
      ensures transmat == Some(Table(InitialTransitions(labels, nStates)))
      ensures monitor == old(monitor)
    {
      var counts := CountTransitions(labels, nStates);
      forall i | 0 <= i < nStates
        ensures Snapshot(counts)[i] == CountMatrix(labels, nStates)[i]
      {
      }
      assert Snapshot(counts) == CountMatrix(labels, nStates);
      transmat := Some(Table(NormaliseRows(Snapshot(counts))));
      startprob := Some(StartProb(labels, nStates));
      experts := [];
      for k := 0 to nStates
        invariant experts == InitialExperts(Forest(), X, y, k)
        invariant startprob == Some(StartProb(labels, nStates))
        invariant transmat == Some(Table(InitialTransitions(labels, nStates)))
        invariant monitor == old(monitor)
      {
        experts := experts + [Trained(Forest(), k, X, y)];
      }
    }

    /** The `for k in range(self.n_states)` refit loop of one iteration. */
    method RefitExperts(X: seq<Sample>, y: seq<int>, gamma: Matrix)
      requires |experts| == nStates && IsMatrix(gamma, |gamma|, nStates)
      modifies this
      ensures experts == Refitted(old(experts), X, y, gamma)
      ensures startprob == old(startprob) && transmat == old(transmat) && monitor == old(monitor)
    {
      ghost var before := experts;
      for k := 0 to nStates
        invariant |experts| == nStates
        invariant forall j :: 0 <= j < k ==> experts[j] == Refitted(before, X, y, gamma)[j]
        invariant forall j :: k <= j < nStates ==> experts[j] == before[j]
        invariant startprob == old(startprob) && transmat == old(transmat) && monitor == old(monitor)
      {
        var weights := Column(gamma, k);
        if Sum(weights) > MassFloor {
          experts := experts[k := Refit(experts[k], X, y, weights)];
        }
      }
    }

    /** One pass of the body of `for i in range(self.n_iter)`, as `EmStep`
        describes it, changing the attributes in place. */
    method Iteration(o: Oracle, d: Data, i: nat, prev: Option<real>) returns (step: Step)
      requires ValidOracle(o) && Consistent(d) && IsFitted()
      requires Regular(Config(), d, PosteriorsOf(o, Config(), d))
      modifies this
      ensures IsFitted() && State() == step.state
      ensures step == EmStep(Config(), d, PosteriorsOf(o, Config(), d), old(State()), i, prev)
    {
      ghost var st := State();
      assert PosteriorsOf(o, Config(), d)(st) == StepPosterior(o, Config(), d, st);
      var conf := GetExpertConfidence(o, mode, experts, d.X, nStates);
      if conf.Err? {
        return Failed(State(), conf.error);
      }
      ConfidenceWeights(o, mode, experts, d.X, nStates);
      var fb := PosteriorPass(o.num, startprob.value, transmat.value, LogEmissions(o.num, conf.value), d.lengths);
      if fb.Err? {
        return Failed(State(), fb.error);
      }
      step := Advance(d, i, prev, fb.value);
    }

    /** The rest of the body once the posterior is known, as `Update`
        describes it: log the likelihood, `break` on convergence, otherwise
        renormalise `xi_sum` into `transmat_` and refit the forests. */
    method Advance(d: Data, i: nat, prev: Option<real>, post: Posterior) returns (step: Step)
      requires Consistent(d) && IsFitted()
      requires IsMatrix(post.gamma, |d.X|, nStates) && IsMatrix(post.xiSum, nStates, nStates)
      modifies this
      ensures IsFitted() && State() == step.state
      ensures step == Update(Config(), d, old(State()), i, prev, post)
    {
      monitor := monitor + [post.logLikelihood];
      if Converged(i, prev, post.logLikelihood, tol) {
        return Stopped(State());
      }
      transmat := Some(RowNormalise(post.xiSum));
      RefitExperts(d.X, d.y, post.gamma);
      step := Next(State(), post.logLikelihood);
    }

    /** `fit(X_input, y_input)`, with the labels KMeans assigns to the
        stacked table given. It either raises before touching any attribute
        (an empty list, or too few samples for KMeans), or leaves exactly
        the attributes of the EM loop of `FitSpec`, returning the exception
        that loop raised, if any. */
    method Fit(o: Oracle, X: Batch<Sample>, y: Batch<int>, labels: seq<nat>) returns (err: Option<Error>)
      requires Valid() && ValidOracle(o) && Matched(X, y) && KMeansLabels(nStates, X, labels)
      modifies this
      ensures Valid()
      ensures FitSpec(o, Config(), X, y, labels).Unchanged? ==>
        && err == Some(FitSpec(o, Config(), X, y, labels).error)
        && experts == old(experts) && startprob == old(startprob)
        && transmat == old(transmat) && monitor == old(monitor)
      ensures FitSpec(o, Config(), X, y, labels).Ran? ==>
        && IsFitted() && State() == FitSpec(o, Config(), X, y, labels).end.state
        && err == FitSpec(o, Config(), X, y, labels).end.failure
    {
      var s := Config();
      if Stacked(X).Err? {
        return Some(Stacked(X).error);
      }
      if nStates == 0 || |Stacked(X).value| < nStates {
        return Some(TooFewSamples);
      }
      FitLoop(o, s, X, y, labels);
      var d := FitData(X, y);
      InitParams(d.X, d.y, labels);
      monitor := [];
      err := RunEm(o, d);
    }

    /** The EM loop of `fit`, from the attributes `_init_params` left and an
        empty `monitor_`: it ends in the state `EmLoop` describes. */
    method RunEm(o: Oracle, d: Data) returns (err: Option<Error>)
      requires ValidOracle(o) && Consistent(d) && IsFitted()
      requires Regular(Config(), d, PosteriorsOf(o, Config(), d))
      modifies this
      ensures IsFitted()
      ensures var r := EmLoop(Config(), d, PosteriorsOf(o, Config(), d), old(State()), 0, None);
        State() == r.state && err == r.failure
    {
      ghost var P := PosteriorsOf(o, Config(), d);
      ghost var init := State();
      var i := 0;
      var prev: Option<real> := None;
      while i < nIter
        invariant i <= nIter && IsFitted()
        invariant EmLoop(Config(), d, P, State(), i, prev) == EmLoop(Config(), d, P, init, 0, None)
        decreases nIter - i
      {
        var step := Iteration(o, d, i, prev);
        match step
        case Failed(_, e) => return Some(e);
        case Stopped(_) => return None;
        case Next(_, ll) =>
          prev := Some(ll);
          i := i + 1;
      }
      err := None;
    }

    /** `predict_proba(X_input)`; it changes nothing. */
    method PredictProba(o: Oracle, X: Batch<Sample>) returns (r: Result<Matrix>)
      requires Valid() && ValidOracle(o)
      ensures r == ProbaSpec(o, nStates, mode, experts, startprob, transmat, X)
    {
      if Stacked(X).Err? {
        return Err(Stacked(X).error);
      }
      var flat := Stacked(X).value;
      var conf := GetExpertConfidence(o, mode, experts, flat, nStates);
      if conf.Err? {
        return Err(conf.error);
      }
      if startprob.None? {
        return Err(NotFitted);
      }
      ConfidenceWeights(o, mode, experts, flat, nStates);
      StackedSegments(X);
      var fb := PosteriorPass(o.num, startprob.value, transmat.value, LogEmissions(o.num, conf.value), SegmentLengths(X));
      if fb == Err(EmptySequence) {
        return Err(EmptySequence);
      }
      if exists k :: 0 <= k < |experts| && OneClass(experts[k]) {
        return Err(SingleClass);
      }
      if fb.Err? {
        return Err(fb.error);
      }
      var risk := FuseRisk(o, experts, fb.value.gamma, flat, nStates);
      r := Ok(ProbaRows(risk));
    }

    /** `predict(X_input)`: class 1 exactly where the mixed probability is
        strictly above one half, with the exceptions of `predict_proba`. */
    method Predict(o: Oracle, X: Batch<Sample>) returns (r: Result<seq<int>>)
      requires Valid() && ValidOracle(o)
      ensures var P := ProbaSpec(o, nStates, mode, experts, startprob, transmat, X);
        && (r.Err? <==> P.Err?)
        && (r.Err? ==> r.error == P.error)
        && (r.Ok? ==> Thresholded(P.value, r.value))
    {
      var probs := PredictProba(o, X);
      if probs.Err? {
        return Err(probs.error);
      }
      LabelsThreshold(probs.value);
      r := Ok(Labels(probs.value));
    }
  }
}
