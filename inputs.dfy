/** How `fit` and `predict_proba` read their input: a list of sequences is
    stacked into one flat table, with one segment length per sequence; an
    array is one sequence on its own. */
module Inputs {
  import opened Outcomes
  import opened ForwardBackward

  /** `X_input`: a Python list of sequences, or a single array. */
  datatype Batch<T> = Sequences(parts: seq<seq<T>>) | Single(items: seq<T>)

  /** `np.vstack` / `np.concatenate` of the parts, in order. */
  function Concat<T>(parts: seq<seq<T>>): (r: seq<T>)
    decreases |parts|
  {
    if |parts| == 0 then [] else Concat(parts[..|parts| - 1]) + parts[|parts| - 1]
  }

  /** `[len(x) for x in X_input]`. */
  function Lengths<T>(parts: seq<seq<T>>): (r: seq<nat>)
    ensures |r| == |parts| && forall t :: 0 <= t < |parts| ==> r[t] == |parts[t]|
  {
    seq(|parts|, t requires 0 <= t < |parts| => |parts[t]|)
  }

  /** The flat table, or the error `np.vstack` raises on an empty list. */
  function Stacked<T>(b: Batch<T>): (r: Result<seq<T>>)
    ensures r.Err? <==> b == Sequences([])
    ensures r.Err? ==> r.error == NoSequences
    ensures b.Single? ==> r == Ok(b.items)
  {
    match b
    case Sequences(parts) => if |parts| == 0 then Err(NoSequences) else Ok(Concat(parts))
    case Single(items) => Ok(items)
  }

  /** `lengths` as the two branches set it. */
  function SegmentLengths<T>(b: Batch<T>): seq<nat> {
    match b
    case Sequences(parts) => Lengths(parts)
    case Single(items) => [|items|]
  }

  /** Rows `[Offset(t), Offset(t + 1))` of a flat table: the slice
      `X_flat[cursor : cursor + lengths[t]]` of segment t. */
  function Segment<T>(flat: seq<T>, lengths: seq<nat>, t: nat): (r: seq<T>)
    requires t < |lengths| && Total(lengths) == |flat|
    ensures |r| == lengths[t]
  {
    OffsetMonotone(lengths, t + 1, |lengths|);
    flat[Offset(lengths, t)..Offset(lengths, t + 1)]
  }

  /** Stacking the parts and cutting at the running offsets gives the parts
      back. */
  lemma {:induction false} SplitConcat<T>(parts: seq<seq<T>>, t: nat)
    requires t < |parts|
    ensures Offset(Lengths(parts), t + 1) <= |Concat(parts)|
    ensures Concat(parts)[Offset(Lengths(parts), t)..Offset(Lengths(parts), t + 1)] == parts[t]
    decreases |parts|
  {
    var L := Lengths(parts);
    var last := |parts| - 1;
    var front := parts[..last];
    assert Concat(parts) == Concat(front) + parts[last];
    assert Lengths(front) == L[..last];
    ConcatLength(front);
    OffsetOfPrefix(L, last, last);
    if t < last {
      SplitConcat(front, t);
      OffsetOfPrefix(L, last, t);
      OffsetOfPrefix(L, last, t + 1);
      OffsetMonotone(L, t + 1, last);
    }
  }

  lemma {:induction false} ConcatLength<T>(parts: seq<seq<T>>)
    ensures |Concat(parts)| == Total(Lengths(parts))
    decreases |parts|
  {
    if |parts| > 0 {
      var front := parts[..|parts| - 1];
      ConcatLength(front);
      assert Lengths(front) == Lengths(parts)[..|parts| - 1];
      OffsetOfPrefix(Lengths(parts), |parts| - 1, |parts| - 1);
    }
  }

  /** Offsets only look at the lengths before them. */
  lemma {:induction false} OffsetOfPrefix(lengths: seq<nat>, m: nat, s: nat)
    requires s <= m <= |lengths|
    ensures Offset(lengths[..m], s) == Offset(lengths, s)
    decreases s
  {
    if s > 0 {
      OffsetOfPrefix(lengths, m, s - 1);
    }
  }

  /** The lengths cover the flat table exactly, and segment t of the flat
      table is the t-th input sequence. */
  lemma StackedSegments<T>(b: Batch<T>)
    requires Stacked(b).Ok?
    ensures Total(SegmentLengths(b)) == |Stacked(b).value|
    ensures b.Sequences? ==> forall t :: 0 <= t < |b.parts| ==>
      Segment(Stacked(b).value, SegmentLengths(b), t) == b.parts[t]
    ensures b.Single? ==> SegmentLengths(b) == [|Stacked(b).value|]
  {
    match b
    case Sequences(parts) =>
      ConcatLength(parts);
      forall t | 0 <= t < |parts|
        ensures Segment(Concat(parts), Lengths(parts), t) == parts[t]
      {
        SplitConcat(parts, t);
      }
    case Single(items) =>
      assert Offset([|items|], 1) == Offset([|items|], 0) + |items|;
  }
}
