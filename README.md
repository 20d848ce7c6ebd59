# MSRF classifier in Dafny

A model of `MSRF_Classifier` (`python/export_model.py`), a
Markov-switching random-forest classifier. It keeps one random-forest expert
per hidden regime. `fit` runs EM: it gates every sample to the experts by
their confidence (or by how close their risk is to a per-state prototype),
runs forward-backward over the concatenated sequences, logs the
likelihood, stops early once the likelihood settles, and otherwise replaces
the transition table and refits every expert that carries enough posterior
mass. `predict_proba` mixes the experts' class-1 probabilities with the
regime posteriors as weights, and `predict` thresholds the result at 0.5.

Modules, one per concern of the class:

- `Outcomes`: `Option`, `Result` and the exceptions the class raises.
- `Numerics`: sums, row division, the epsilon constants, and `exp`/`log`
  as parameters (`ExpLog`).
- `Experts`: a forest is its configuration, the index of the state it
  was built for, and the list of `fit` calls it has received. What a
  trained forest predicts comes from an `Oracle` parameter. The state
  index stands for the tree randomness of `random_state=None`: the forests
  `_init_params` builds are distinct values, and an oracle may answer
  differently for each. A forest's classes are the labels of its last
  `fit`; when they are a single class, `predict_proba(X)[:, 1]` raises
  (`SingleClass`).
- `Gating`: `_get_expert_confidence`.
- `InitParams`: the counting and normalisation of `_init_params`.
- `ForwardBackward`: `_forward_backward`, as a specification on values
  plus the array-filling methods proved against it. A `transmat_` is a
  table of rows or the NaN table that `xi_sum / xi_sum.sum(axis=1)` gives
  when a row of `xi_sum` sums to zero.
- `Posteriors`: its error cases, the partition of rows into segments,
  the gamma rows, the sign of `xi_sum`, and why a NaN `transmat_` is
  never read by a sequence of one sample.
- `Inputs`: how a list of sequences is stacked and cut into segments.
- `Fusion`: the mixture of `predict_proba` and the threshold of
  `predict`.
- `Em`: the EM loop of `fit`, as a state machine over the fitted
  attributes, with its properties.
- `Msrf`: the class itself. It has the constructor's settings as
  constants and `experts`, `startprob_`, `transmat_` and `monitor_` as
  fields. Its methods update those fields in place and are proved equal
  to the `Em` and `Fusion` specifications.

## Model

| member | source | states |
|---|---|---|
| Msrf.MsrfClassifier.constructor | python/export_model.py:22-37 | stores the settings with the mode lower-cased; no expert, no `startprob_`/`transmat_`, empty `monitor_` |
| Msrf.MsrfClassifier.InitParams | python/export_model.py:39-67 | `transmat_` becomes the row-normalised transition counts of the labels, `startprob_` their frequencies, and `experts` one freshly trained forest per state; `monitor_` is untouched |
| Msrf.MsrfClassifier.RefitExperts | python/export_model.py:148-151 | expert k is refit, weighted by gamma column k, exactly when that column has mass above 1e-5; the other attributes are untouched |
| Msrf.MsrfClassifier.Iteration | python/export_model.py:135-151 | one pass of the loop body updates the attributes in place exactly as `Em.EmStep` describes the step |
| Msrf.MsrfClassifier.Advance | python/export_model.py:139-151 | the rest of the body, once the posterior is known, updates the attributes in place exactly as `Em.Update` describes |
| Msrf.MsrfClassifier.RunEm | python/export_model.py:131-151 | the in-place loop ends in the attributes and exception of `Em.EmLoop` from the initial state |
| Msrf.MsrfClassifier.Fit | python/export_model.py:121-152 | either raises before changing any attribute (empty list, KMeans refusing the table), or leaves exactly the attributes of `Em.FitSpec` and returns the exception its loop raised |
| Msrf.MsrfClassifier.PredictProba | python/export_model.py:154-168 | changes nothing and returns `Msrf.ProbaSpec`, with its errors in the same order: stacking, the gating's refusals, not fitted, an empty sequence, a one-class forest in the mixing loop, the NaN posterior |
| Msrf.MsrfClassifier.Predict | python/export_model.py:170-172 | raises what `predict_proba` raises; otherwise one label per row, 1 exactly when the class-1 probability is strictly above 0.5 |
| Msrf.ProbaSpec | python/export_model.py:154-168 | `predict_proba` as a value: an output is one `[1 - p, p]`-shaped row per stacked sample; a NaN `transmat_` read by a sequence of two samples gives the NaN posterior (NaN values, not an exception) only once the input has stacked |
| Msrf.ProbaErrors | python/export_model.py:154-168 | `predict_proba` raises exactly on: an empty list (`np.vstack`); then scikit-learn's refusals in the gating, which are an unknown mode, a table with no rows given to fitted forests, and a one-class forest in risk mode; then an unfitted model; then an empty sequence; then a one-class forest in the mixing loop (`[:, 1]` at line 166). Past those, a NaN `transmat_` that meets a sequence of two samples gives the NaN posterior, and nothing else fails |
| Msrf.ProbaPastGating | python/export_model.py:160-166 | past the gating on a fitted model: an empty sequence raises, then a one-class forest raises in the mixing loop; otherwise a NaN `transmat_` that meets a sequence of two samples gives the NaN posterior (NaN values, not an exception), and nothing else fails |
| Msrf.ProbaSpecValue | python/export_model.py:154-168 | a result of `predict_proba` is `[1 - p, p]` rows of the gamma-weighted mixture, gamma being that of `_forward_backward` on the stacked input under the fitted attributes |
| Msrf.ProbaRowsArePairs | python/export_model.py:161-168 | on a fitted model every output row is `[1 - p, p]` with both entries in [0, 1], summing to 1 (with `exp`/`log` obeying their laws) |
| Em.InitialExperts | python/export_model.py:52-65 | one forest per state, with the configuration of the constructor, built for that state, and trained once on the whole unweighted table |
| Em.StepPosterior | python/export_model.py:136-138 | the gating, its logs and `_forward_backward` under the current attributes give one gamma row per sample and an n×n `xi_sum` |
| Em.RowNormalise | python/export_model.py:147 | `xi_sum / xi_sum.sum(axis=1)` is the NaN table exactly when some row sums to zero, and otherwise a table of the same shape |
| Em.Refitted | python/export_model.py:148-151 | the refit loop keeps one expert per state |
| Em.Update | python/export_model.py:139-151 | the rest of the body keeps the attributes sized for `n_states` |
| Em.EmStep | python/export_model.py:135-151 | one pass of the body keeps the attributes sized for `n_states` |
| Em.EmLoop | python/export_model.py:135-151 | the loop from iteration i on keeps the attributes sized for `n_states`, its recursive calls' contracts carrying it |
| Em.FitSpec | python/export_model.py:121-152 | `fit` as a value: a run of the loop leaves attributes sized for `n_states` |
| Em.FitUnchanged | python/export_model.py:121-130 | `fit` raises without touching anything exactly on an empty list of sequences, and exactly when there are no states or fewer samples than states |
| Em.FitLoop | python/export_model.py:121-135 | once `_init_params` has run, the labels are one per stacked sample and below `n_states`, and `fit` is the EM loop from the initial attributes |
| Em.FitMonitor | python/export_model.py:131-151 | `monitor_` holds at most `n_iter` likelihoods, none converged before the last. When no exception was raised it holds at least `min(n_iter, 3)`, and fewer than `n_iter` only when the last is within `tol` of the one before |
| Em.FitParameters | python/export_model.py:121-152 | after `fit`, `startprob_` is the label distribution (entries in [0, 1], sum 1). `transmat_` is the initial count table, a table of distributions, or NaN when no sequence has two samples. There is one expert per state, built for that state, first trained unweighted and then only refit with weights of mass above 1e-5, at most once per logged iteration |
| Em.FitFailures | python/export_model.py:121-152 | the stacked table `fit` runs on is non-empty. The EM loop raises the gating's refusal (an unknown mode, or in risk mode training labels of a single class) or an empty sequence, on the first iteration with nothing logged, and nothing else; so sequences of one sample each, whose `transmat_` turns NaN, raise nothing |
| Em.RunMonitor | python/export_model.py:131-151 | the loop from the initial attributes satisfies the `monitor_` rule of `Em.FitMonitor` for any posterior behaving as `Em.StepPosterior` does |
| Em.RunFailures | python/export_model.py:131-151 | from the attributes `_init_params` leaves, whose forests are all trained on `y_flat`, the loop raises only as `Em.FitFailures` states |
| Em.RunParameters | python/export_model.py:130-151 | the same loop leaves the attributes `Em.FitParameters` states |
| Em.LoopLog | python/export_model.py:135-151 | the loop never rewrites the likelihoods already logged and never logs past `n_iter`; `startprob_` never changes |
| Em.LoopStops | python/export_model.py:143-145 | the loop ends before `n_iter` without an exception only after a third or later iteration within `tol` of the previous one |
| Em.LoopConverges | python/export_model.py:140-146 | no iteration before the last, from the third on, met the convergence test |
| Em.LoopFailures | python/export_model.py:135-151 | while a NaN `transmat_` is never read and every forest was last trained on `y_flat`, the loop raises only the gating's refusal of the training data or an empty sequence, on its first iteration and with the attributes unchanged, and nothing once the gating accepts and every sequence is non-empty |
| Em.TrainedRefusal | python/export_model.py:64-80 | on forests all last trained on `y_flat`, the gating refuses exactly when the mode is unknown, the table is empty, or the mode is risk and `y_flat` has a single class |
| Em.StepTrainedOn | python/export_model.py:147-151 | a pass keeps every forest last trained on `y_flat`, since refits use `y_flat` too |
| Em.LoopHistories | python/export_model.py:147-151 | the experts keep their training histories through the loop, and `transmat_` stays the initial table, becomes a table of distributions, or turns NaN only when no sequence has two samples |
| Em.StepEffects | python/export_model.py:135-151 | one pass never touches `startprob_`; an exception changes nothing; `break` only appends the likelihood; a normal pass appends it, did not converge, and leaves a table of distributions exactly when some sequence has two samples, the NaN table otherwise |
| Em.StepFailures | python/export_model.py:135-151 | one pass raises the gating's refusal first (an unknown mode, a table with no rows, a one-class forest in risk mode), then on an empty sequence; past those, a NaN `transmat_` that meets a sequence of two samples gives the NaN posterior (NaN values, not an exception; `fit` never reaches it), and nothing else fails |
| Em.StepHistories | python/export_model.py:148-151 | one pass keeps every expert's history: same forest and state, first fit unweighted, only weighted refits on the stacked table, at most one per logged iteration |
| Em.UpdateEffects | python/export_model.py:139-151 | after the posterior nothing is raised; the likelihood is appended; `break` exactly on convergence, with nothing else changed; otherwise the experts are refit and `transmat_` becomes a table of distributions, or NaN when `xi_sum` is all zero |
| Em.RefitRule | python/export_model.py:148-151 | expert k gains one training, weighted by gamma column k, exactly when that column sums to more than 1e-5; nothing else about it changes |
| Em.RowNormaliseSign | python/export_model.py:147 | a positive `xi_sum` normalises into a table of distributions; an all-zero one into the NaN table |
| Em.StepPosteriorRegular | python/export_model.py:136-138 | gating plus forward-backward raise exactly on the gating's refusal or an empty sequence, in that order; past those, a NaN table meeting a sequence of two samples gives the NaN posterior (NaN values, not an exception; `fit` never reaches it); otherwise they give tables whose `xi_sum` is positive when a sequence has two samples and zero when none has |
| Em.PosteriorErrors | python/export_model.py:136-138 | the posterior of one iteration raises exactly on the gating's refusal (an unknown mode, a table with no rows, a one-class forest in risk mode), then on an empty sequence; past those, a NaN table meeting a sequence of two samples gives the NaN posterior (NaN values, not an exception; `fit` never reaches it) |
| Em.PosteriorXi | python/export_model.py:136-138 | the `xi_sum` of one iteration is positive when some sequence has two samples or more and all zero otherwise |
| Em.MatchedData | python/export_model.py:122-129 | stacking matched inputs gives as many labels as samples, and the lengths cover the stacked table |
| Inputs.Stacked | python/export_model.py:122-129 | stacking fails exactly on an empty list, with that error, and an array is taken as it is |
| Inputs.StackedSegments | python/export_model.py:122-129 | the segment lengths sum to the stacked table's length, segment t of the table is input sequence t, and a single array is one segment |
| Inputs.SplitConcat | python/export_model.py:123-125 | cutting the stacked table at the running offsets gives each input sequence back |
| Inputs.ConcatLength | python/export_model.py:123-125 | the stacked table is as long as the lengths add up to |
| Gating.ParseMode | python/export_model.py:72-84 | exactly `confidence` and `risk` are accepted |
| Gating.Lower | python/export_model.py:31 | lower-casing maps every capital letter to its lower-case letter, leaves no capital letter and keeps every other character |
| Gating.LowerIdempotent | python/export_model.py:31 | lower-casing twice is lower-casing once |
| Gating.ExpertConfidence | python/export_model.py:69-86 | raises exactly where the gating is refused: an unknown mode (with that mode in the error); then, with forests present, a table with no rows, which scikit-learn refuses in either mode; then, in risk mode, a forest fit on a single class, whose `predict_proba(X)[:, 1]` has no column 1 |
| Gating.GetExpertConfidence | python/export_model.py:69-86 | the method's refusals, score table and normalisation give `Gating.ExpertConfidence` |
| Gating.ExpertScores | python/export_model.py:70-82 | the score-table loop leaves row i equal to the raw scores of sample i |
| Gating.ScoreRow | python/export_model.py:71-82 | one score per state for a sample; `Gating.ScoreRowNonNegative` adds that none is negative |
| Gating.Weights | python/export_model.py:85-86 | `scores / (row_sums + 1e-10)` for one sample gives one weight per state |
| Gating.ConfidenceWeights | python/export_model.py:85-86 | the gating output is one row of n weights per sample |
| Gating.WeightsRow | python/export_model.py:85-86 | every weight lies in [0, 1), is positive for a state with an expert and zero for one without, and a row sums to S / (S + 1e-10) < 1 |
| Gating.RawScore | python/export_model.py:72-82 | every raw score is positive in both modes |
| Gating.ConfidenceScoreOfVotes | python/export_model.py:73-76 | with 0/1 tree votes of mean m, the confidence score is 1 / (m(1 - m) + 1e-5) |
| Gating.Variance | python/export_model.py:75 | the population variance of the votes is never negative, so `1 / (variance + 1e-5)` is defined |
| Gating.BernoulliVariance | python/export_model.py:75 | the variance of 0/1 votes is m(1 - m) |
| Gating.Prototype | python/export_model.py:78 | each prototype of `np.linspace(0, 1, n_states)` lies in [0, 1] |
| Gating.PrototypesSpan | python/export_model.py:78 | the prototypes run from 0 to 1 and increase strictly |
| Numerics.NormaliseWeights | python/export_model.py:85-86 | dividing a non-negative row by its sum plus 1e-10 gives entries in [0, 1) that keep their order, summing below 1, all zero for an all-zero row |
| InitParams.CountTransitions | python/export_model.py:44-48 | cell (i, j) counts the steps t with `labels[t] == i` and `labels[t+1] == j` |
| InitParams.TransitionCountsTotal | python/export_model.py:44-48 | the counts add up to `len(labels) - 1` |
| InitParams.RowTotalIsDepartures | python/export_model.py:44-48 | row i of the counts adds up to the number of departures from state i |
| InitParams.InitialTransitions | python/export_model.py:49 | the initial `transmat_` is an n×n table |
| InitParams.InitialTransitionRow | python/export_model.py:49 | each row of the initial `transmat_` is non-negative and sums to d / (d + 1e-10) < 1 for d departures; it is all zero exactly when the state never departs |
| InitParams.StartProb | python/export_model.py:50-51 | `startprob_` has one entry per state |
| InitParams.StartProbDistribution | python/export_model.py:50-51 | `bincount` counts each label, and `startprob_` has entries in [0, 1] summing to 1 |
| InitParams.StartProbEntry | python/export_model.py:51 | each start probability lies in [0, 1] |
| InitParams.OccurrencesPartition | python/export_model.py:50 | the occurrences of the states add up to the number of labels |
| ForwardBackward.ForwardBackwardSpec | python/export_model.py:88-119 | `_forward_backward` as a value: a result has one gamma row of n entries per sample and an n×n `xi_sum` |
| ForwardBackward.AlphaRow | python/export_model.py:98-102 | each `log_alpha` row has one entry per state |
| ForwardBackward.BetaRow | python/export_model.py:104-107 | each `log_beta` row has one entry per state |
| ForwardBackward.XiTable | python/export_model.py:112-117 | each normalised xi table is n×n |
| ForwardBackward.PosteriorUnder | python/export_model.py:92-119 | the posterior under the fitted attributes, a NaN `transmat_` included, has one gamma row per sample and an n×n `xi_sum`; its `Err(NaNPosterior)` stands for the NaN posterior (NaN values, not an exception) |
| ForwardBackward.PosteriorPass | python/export_model.py:92-119 | the array-filling pass run on the fitted attributes returns `ForwardBackward.PosteriorUnder`, the NaN posterior included |
| ForwardBackward.ForwardBackwardPass | python/export_model.py:88-119 | the array-filling implementation returns `ForwardBackward.ForwardBackwardSpec` |
| ForwardBackward.SegmentLoop | python/export_model.py:96-118 | the `for length in lengths` loop returns the fold of the per-segment results |
| ForwardBackward.Advance | python/export_model.py:96-118 | one pass of the segment loop writes the segment's gamma rows at the cursor, adds its xi tables and its likelihood |
| ForwardBackward.ProcessSegment | python/export_model.py:97-117 | one segment's alpha, beta, gamma and xi arrays equal its specification, and `xi_sum` grows by its xi tables |
| ForwardBackward.Forward | python/export_model.py:98-102 | the alpha array holds the forward recursion, with row 0 `log_start + log_B[0]` |
| ForwardBackward.FillAlphaRow | python/export_model.py:100-102 | row t of `log_alpha` is filled from row t-1, no other row changes |
| ForwardBackward.Backward | python/export_model.py:104-107 | the beta array holds the backward recursion, with the last row zero |
| ForwardBackward.FillBetaRow | python/export_model.py:105-107 | row t of `log_beta` is filled from row t+1, no other row changes |
| ForwardBackward.FillLogXi | python/export_model.py:112-115 | the `log_xi` table of one step |
| ForwardBackward.AddInto | python/export_model.py:117 | `xi_sum += table` in place |
| ForwardBackward.AccumulateXi | python/export_model.py:111-117 | after a segment, `xi_sum` has grown by the sum of its xi tables |
| ForwardBackward.WriteRows | python/export_model.py:110 | the gamma rows of a segment land at the cursor and earlier rows are kept |
| ForwardBackward.XiAccumulateFrom | python/export_model.py:117 | accumulating into a non-zero table is that table plus the accumulation from zero |
| ForwardBackward.SegmentPosterior | python/export_model.py:97-117 | one segment fails exactly when it is empty (`log_B[0]`), and otherwise has `length` gamma rows and an n×n xi sum |
| ForwardBackward.FailureStops | python/export_model.py:96-118 | an exception in one segment is the result of the whole pass |
| ForwardBackward.EmptySegmentFails | python/export_model.py:97-99 | an empty segment reached by the loop raises |
| Posteriors.ForwardBackwardFails | python/export_model.py:88-119 | `_forward_backward` raises exactly when some sequence is empty |
| Posteriors.AccumulateFails | python/export_model.py:96-118 | the pass fails exactly when some segment fails, with the first failing segment's error |
| Posteriors.SegmentFails | python/export_model.py:97-99 | a segment fails exactly when it is empty |
| Posteriors.SegmentsPartitionRows | python/export_model.py:95-118 | every row of the stacked table lies in exactly one segment |
| Posteriors.GammaRowOfSegment | python/export_model.py:110 | gamma row `cursor + r` is row r of its segment's gamma |
| Posteriors.GammaRowsAreDistributions | python/export_model.py:108-110 | with `exp`/`log` obeying their laws, every gamma row is positive and sums to 1 |
| Posteriors.GammaFromLogsIsDistribution | python/export_model.py:108-110 | subtracting the row's logsumexp and exponentiating gives a distribution |
| Posteriors.XiSumSign | python/export_model.py:111-117 | `xi_sum` is non-negative; positive everywhere when some sequence has two samples; all zero when none has |
| Posteriors.PosteriorUnderFails | python/export_model.py:92-119 | under the fitted attributes the pass raises on an empty sequence, whatever the table; otherwise a NaN `transmat_` that meets a sequence of two samples gives the NaN posterior (NaN values, not an exception; `fit` never reaches it), and nothing else fails |
| Posteriors.SegmentUnread | python/export_model.py:97-117 | a segment of at most one sample gives the same posterior whatever `log_trans` holds |
| Posteriors.TransitionsUnread | python/export_model.py:96-118 | when no sequence has two samples, `_forward_backward` gives the same result whatever `log_trans` holds |
| Posteriors.NaNTableUnread | python/export_model.py:93-118 | when no sequence has two samples, a NaN `transmat_` gives the posterior any table of the right shape gives |
| Fusion.FusedRisks | python/export_model.py:164-167 | `final_risk_prob` has one entry per stacked sample |
| Fusion.FuseRisk | python/export_model.py:164-167 | the in-place `final_risk_prob +=` loop gives the posterior-weighted mixture of the experts' class-1 probabilities |
| Fusion.MixtureBounds | python/export_model.py:164-167 | with non-negative weights, the mixture lies between 0 and the total weight |
| Fusion.AgreeingExperts | python/export_model.py:164-167 | experts that agree on q give q times the total weight |
| Fusion.CertainState | python/export_model.py:164-167 | a posterior certain of state k passes expert k's probability through |
| Fusion.ZeroContributions | python/export_model.py:164-167 | zero weights give a zero mixture |
| Fusion.ProbaRows | python/export_model.py:168 | `np.vstack([1 - p, p]).T` has one two-column row per entry of p |
| Fusion.ProbaRowsSumToOne | python/export_model.py:168 | each output row is `[1 - p, p]`, sums to 1, and lies in [0, 1] when p does |
| Fusion.Labels | python/export_model.py:172 | one label per row, each 0 or 1 |
| Fusion.LabelsThreshold | python/export_model.py:170-172 | the label is 1 exactly when the class-1 entry is above 0.5 and 0 exactly when it is at or below, so a tie is class 0 |

## Left out

- Floating point: reals are exact, so infinities and rounding are not modelled. `prev_log_likelihood = -np.inf` is `None`, which makes the first `delta` fail the tolerance test as `+inf` does.
- NaN: the one NaN the class can produce on finite inputs is modelled. `xi_sum / xi_sum.sum(axis=1)` on a row that sums to zero gives NaN rows, and `Em.RowNormalise` returns the `NaNTable` value for the whole table. The model keeps only that the table is NaN, not which of its rows are. `fit` goes on as the program does, refitting the experts. A NaN table is never read by a sequence of one sample (`Posteriors.NaNTableUnread`), and it arises only when no training sequence has two samples.
- ProbaSpec: after a `fit` that left a NaN `transmat_`, input with a sequence of two or more samples gives `Err(NaNPosterior)` for the whole call. The program raises nothing there: it returns NaN rows for the samples of such sequences and finite rows for the rest.
- PredictProba: returns `ProbaSpec`, so it has the same coarse NaN outcome in place of per-row NaN values.
- Predict: propagates that `Err(NaNPosterior)`. The program instead labels NaN rows 0, because `NaN > 0.5` is false.
- ProbaErrors: its last case, `NaNPosterior`, is that same coarse outcome and is not an exception the program raises.
- ProbaPastGating: its NaN case is the same coarse outcome as `ProbaSpec`'s, not an exception the program raises.
- PosteriorUnder: `Err(NaNPosterior)` stands for a gamma and `xi_sum` of NaN values. The program raises nothing there; the model keeps only that the posterior is NaN.
- PosteriorPass: returns `PosteriorUnder`, so it has the same coarse NaN posterior.
- PosteriorUnderFails: its NaN case is that coarse posterior, not an exception.
- StepFailures: a pass that meets the NaN posterior ends as `Failed(NaNPosterior)`, whereas the program would go on with NaN values. `Em.LoopFailures` proves `fit` never reaches that pass.
- PosteriorErrors: its NaN case is the same coarse posterior, not an exception.
- StepPosteriorRegular: its NaN case is the same coarse posterior, not an exception.
- `exp` and `log` are parameters (`ExpLog`), as are what a trained forest predicts (`Oracle`: `predict_proba[:, 1]` and the per-tree votes). The sum-to-one results assume `ExpLogLaws`, an idealisation of the real functions.
- `logsumexp` is `log(sum(exp(v)))`, without scipy's max-shift for stability.
- KMeans is not modelled. Its labels are an input to `fit`, assumed to be one per stacked sample and below `n_states` (`Em.KMeansLabels`). Its refusal of an empty table or of fewer samples than clusters is modelled as `TooFewSamples`.
- Forest training is not modelled. A forest is its configuration, its state index and the list of `fit` calls it received. The state index stands for the tree randomness of `random_state=None`; `n_jobs=-1` (parallel training) and `class_weight` are out of scope.
- `verbose` and every `print` are left out, as is `random_state` among the constructor's settings.
- Sample widths are not checked. A `Sample` is any sequence of reals, so samples of different widths, and a `predict_proba` input whose width differs from the one `fit` saw, are accepted by `Inputs.Stacked` and the `Oracle`. numpy's `vstack` and scikit-learn's feature-count check raise ValueError on both.
- The `Em.Matched` precondition of `fit` excludes labels that `rf.fit(X_flat, y_flat)` would refuse. It requires labels of the same form as the input, and exactly one label per stacked sample. In the list form it asks only for equal totals, as `np.concatenate` does, so label sequences need not pair up one by one with the input sequences.
- `Gating.Lower` lower-cases ASCII only, whereas `str.lower` covers all of Unicode.
- `startprob_` divides the label counts by the number of labels. This equals `start_counts.sum()` because every label is below `n_states`.
- The numeric values of the likelihood, gamma and the convergence of EM are not proved. The properties above hold for any `exp`, `log` and forest answers that meet the stated assumptions.
- `fit` returns the exception it raised as a value (`Option<Error>`) instead of raising it, and does not return `self`.
- The module-level export script (`python/export_model.py:174-355`) is I/O and code generation: loading with joblib, CSV reads, m2cgen, JSON and CSV writes. `python/export_all_models.py`, `python/convert_lstm_v2.py` and `python/convert_lstm_to_tflite.py` are not part of this model for the same reason.
