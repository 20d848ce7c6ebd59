/** Error outcomes of the classifier: the exceptions the Python class raises,
    and the NaN posterior that exact reals cannot represent. */
module Outcomes {

  datatype Option<T> = None | Some(value: T)

  datatype Error =
    | UnknownMode(mode: string)   // ValueError from the gating step
    | NotFitted                   // TypeError: log(None + 1e-10) before fit
    | EmptySequence               // IndexError: log_alpha[0] of a zero-length segment
    | NoSequences                 // ValueError: np.vstack of an empty list
    | TooFewSamples               // KMeans: fewer than one state, or fewer samples than states
    | NoSamples                   // ValueError: scikit-learn refuses a table with no rows
    | SingleClass                 // IndexError: `predict_proba(X)[:, 1]` of a forest fit on one class
    | NaNPosterior                // not raised: the NaN gamma a NaN transmat_ gives a sequence of 2+ samples

  datatype Result<T> = Ok(value: T) | Err(error: Error)
}
