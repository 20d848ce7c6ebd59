/** The three random-forest experts as values. A forest is opaque to the
    model: an expert is its configuration plus the history of `fit` calls it
    has received, and what a trained forest predicts is supplied by an
    `Oracle`, a parameter of every operation that asks an expert something. */
module Experts {
  import opened Outcomes
  import opened Numerics

  /** One feature vector (one row of `X`). */
  type Sample = seq<real>

  /** How `_init_params` builds each `RandomForestClassifier`. */
  datatype ForestConfig =
    | Custom(params: map<string, string>)         // RandomForestClassifier(**rf_params)
    | Default(nEstimators: nat, maxDepth: nat)    // class_weight='balanced', n_jobs=-1

  /** One call `expert.fit(X, y)` or `expert.fit(X, y, sample_weight=w)`. */
  datatype Training = Training(X: seq<Sample>, y: seq<int>, sampleWeight: Option<seq<real>>)

  /** A forest: its configuration, the state it was built for, and the
      `fit` calls it has received. Each state's forest is built and trained
      on its own with `random_state=None`, so the forests differ; `state`
      keeps them apart, and an `Oracle` may answer differently for each. */
  datatype Expert = Expert(forest: ForestConfig, state: nat, trainings: seq<Training>)

  /** What a trained forest answers, plus the transcendental functions:
      `riskProba(e, x)` is `e.predict_proba([x])[0, 1]` and `treeVotes(e, x)`
      is `[tree.predict([x])[0] for tree in e.estimators_]`. */
  datatype Oracle = Oracle(
    num: ExpLog,
    riskProba: (Expert, Sample) -> real,
    treeVotes: (Expert, Sample) -> seq<real>)

  /** `exp` is positive, class probabilities lie in [0, 1], and a forest has
      at least one tree. */
  ghost predicate ValidOracle(o: Oracle) {
    && ExpPositive(o.num)
    && (forall e, x :: 0.0 <= o.riskProba(e, x) <= 1.0)
    && (forall e, x :: |o.treeVotes(e, x)| > 0)
  }

  /** The forest built for state k, after `rf.fit(X, y)`. */
  function Trained(forest: ForestConfig, k: nat, X: seq<Sample>, y: seq<int>): Expert {
    Expert(forest, k, [Training(X, y, None)])
  }

  /** `expert.fit(X, y, sample_weight=w)`. */
  function Refit(e: Expert, X: seq<Sample>, y: seq<int>, w: seq<real>): Expert {
    e.(trainings := e.trainings + [Training(X, y, Some(w))])
  }

  /** Every label is the same one (or there is none). */
  predicate OneClassLabels(y: seq<int>) {
    forall i :: 0 <= i < |y| ==> y[i] == y[0]
  }

  /** The forest knows a single class: the labels of its last `fit` were
      all equal. Its `predict_proba` then has one column, and `[:, 1]`
      raises IndexError. */
  predicate OneClass(e: Expert) {
    |e.trainings| > 0 && OneClassLabels(e.trainings[|e.trainings| - 1].y)
  }

  /** Some forest of the list knows a single class. */
  predicate AnyOneClass(experts: seq<Expert>) {
    exists k :: 0 <= k < |experts| && OneClass(experts[k])
  }
}
