/**
 * The glue both classifiers put around their statistical model in `predict`: the label
 * index becomes a label name, the probability vector becomes a label-keyed listing, and
 * the confidence is the largest probability. The model itself is outside this module:
 * its predicted index and its probability vector are inputs.
 */
module Prediction {
  import opened Wrappers

  /** The result record of `predict`; `probabilities` keeps the order of the label map. */
  datatype ClassifierOutput = ClassifierOutput(
    prediction: string,
    confidence: real,
    probabilities: seq<(string, real)>)

  /** `np.max` of a non-empty vector. */
  function MaxOf(xs: seq<real>): (m: real)
    requires |xs| > 0
    ensures m in xs
    ensures forall x :: x in xs ==> x <= m
  {
    if |xs| == 1 then xs[0]
    else
      assert xs == [xs[0]] + xs[1..];
      var rest := MaxOf(xs[1..]);
      if xs[0] >= rest then xs[0] else rest
  }

  /** `label_map.get(index, "unknown")` for a label map `{0: labels[0], 1: labels[1], ...}`. */
  function LabelOf(labels: seq<string>, index: int): string {
    if 0 <= index < |labels| then labels[index] else "unknown"
  }

  /**
   * The result assembled from the predicted index and, when the model has `predict_proba`,
   * its probability vector; `None` stands for a model without `predict_proba`.
   * The vector must be non-empty (`np.max` of an empty array raises) and no longer than
   * the label map (`label_map[i]` raises a KeyError past its end).
   */
  function Predict(labels: seq<string>, index: int, probabilities: Option<seq<real>>): (r: ClassifierOutput)
    requires probabilities.Some? ==> 0 < |probabilities.value| <= |labels|
    ensures r.prediction == (if 0 <= index < |labels| then labels[index] else "unknown")
    ensures probabilities.Some? ==>
      r.confidence in probabilities.value
      && (forall p :: p in probabilities.value ==> p <= r.confidence)
    ensures probabilities.None? ==>
      r.confidence == 1.0
      && |r.probabilities| == |labels|
      && forall i :: 0 <= i < |labels| ==> r.probabilities[i] == (labels[i], 0.0)
    ensures probabilities.Some? ==>
      |r.probabilities| == |probabilities.value|
      && forall i :: 0 <= i < |r.probabilities| ==> r.probabilities[i] == (labels[i], probabilities.value[i])
  {
    var ps := if probabilities.Some? then probabilities.value else seq(|labels|, _ => 0.0);
    var confidence := if probabilities.Some? then MaxOf(probabilities.value) else 1.0;
    ClassifierOutput(
      LabelOf(labels, index),
      confidence,
      seq(|ps|, i requires 0 <= i < |ps| => (labels[i], ps[i])))
  }

  /** With every class probability in [0, 1], so is the confidence. */
  lemma ConfidenceInUnitRange(labels: seq<string>, index: int, probabilities: Option<seq<real>>)
    requires probabilities.Some? ==> 0 < |probabilities.value| <= |labels|
    requires probabilities.Some? ==> forall p :: p in probabilities.value ==> 0.0 <= p <= 1.0
    ensures 0.0 <= Predict(labels, index, probabilities).confidence <= 1.0
  {
  }
}
