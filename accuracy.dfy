/** The `accuracy` helper of the experiment script: the arg-max class of every
    score row is compared with its target and the fraction of hits returned.
    Scores are exact reals, and the fraction is an exact rational. */
module Accuracy {
  import opened Wrappers

  /** torch's `argmax` along one row: the index of the FIRST largest score. */
  function ArgMax(row: seq<real>): (k: nat)
    requires |row| > 0
    ensures k < |row|
    ensures forall j :: 0 <= j < |row| ==> row[j] <= row[k]
    ensures forall j :: 0 <= j < k ==> row[j] < row[k]
  {
    if |row| == 1 then 0
    else
      var k := ArgMax(row[..|row| - 1]);
      if row[|row| - 1] > row[k] then |row| - 1 else k
  }

  predicate NoEmptyRow(predictions: seq<seq<real>>) {
    forall i :: 0 <= i < |predictions| ==> |predictions[i]| > 0
  }

  /** `predictions.argmax(dim=1)`: the predicted class of every example. */
  function Predicted(predictions: seq<seq<real>>): (classes: seq<int>)
    requires NoEmptyRow(predictions)
    ensures |classes| == |predictions|
    ensures forall i :: 0 <= i < |predictions| ==>
              0 <= classes[i] < |predictions[i]| && classes[i] == ArgMax(predictions[i])
  {
    seq(|predictions|, i requires 0 <= i < |predictions| => ArgMax(predictions[i]) as int)
  }

  /** `(predictions == targets).sum()`: how many positions agree. */
  function Hits(predicted: seq<int>, targets: seq<int>): (h: nat)
    requires |predicted| == |targets|
    ensures h <= |targets|
    ensures h == |targets| ==> predicted == targets
  {
    if |targets| == 0 then 0
    else
      var n := |targets| - 1;
      Hits(predicted[..n], targets[..n]) + (if predicted[n] == targets[n] then 1 else 0)
  }

  /** The accuracy helper: hits over the number of targets. It stops on an
      empty score row (argmax), on a row count that differs from the number
      of targets (`view`), and on zero targets (0/0). */
  function Accuracy(predictions: seq<seq<real>>, targets: seq<int>): (r: Result<real>)
    ensures r.Ok? <==> NoEmptyRow(predictions) && |predictions| == |targets| && |targets| > 0
    ensures !NoEmptyRow(predictions) ==> r == Err(EmptyArgMax)
    ensures r.Ok? ==> 0.0 <= r.value <= 1.0
    ensures r.Ok? ==> r.value == Hits(Predicted(predictions), targets) as real / |targets| as real
  {
    if !NoEmptyRow(predictions) then Err(EmptyArgMax)
    else if |predictions| != |targets| then Err(ViewShapeMismatch)
    else if |targets| == 0 then Err(UndefinedAccuracy)
    else
      var h := Hits(Predicted(predictions), targets);
      Ratio(h, |targets|);
      Ok(h as real / |targets| as real)
  }

  /** A hit count over a positive total is a fraction in [0, 1]. */
  lemma Ratio(h: nat, n: nat)
    requires 0 < n && h <= n
    ensures 0.0 <= h as real / n as real <= 1.0
  {
  }

  /** Every position agrees exactly when the hit count is the full length. */
  lemma {:induction false} HitsAll(predicted: seq<int>, targets: seq<int>)
    requires |predicted| == |targets|
    ensures Hits(predicted, targets) == |targets| <==>
              forall i :: 0 <= i < |targets| ==> predicted[i] == targets[i]
  {
    if |targets| > 0 {
      var n := |targets| - 1;
      HitsAll(predicted[..n], targets[..n]);
    }
  }

  /** No position agrees exactly when the hit count is zero. */
  lemma {:induction false} HitsNone(predicted: seq<int>, targets: seq<int>)
    requires |predicted| == |targets|
    ensures Hits(predicted, targets) == 0 <==>
              forall i :: 0 <= i < |targets| ==> predicted[i] != targets[i]
  {
    if |targets| > 0 {
      var n := |targets| - 1;
      HitsNone(predicted[..n], targets[..n]);
      assert forall i :: 0 <= i < n ==> predicted[..n][i] == predicted[i] && targets[..n][i] == targets[i];
    }
  }

  lemma Fraction(h: nat, n: nat)
    requires 0 < n
    ensures h as real / n as real == 1.0 <==> h == n
    ensures h as real / n as real == 0.0 <==> h == 0
  {
    assert (h as real / n as real) * n as real == h as real;
  }

  /** Accuracy is 1 exactly when every row's arg-max is its target. */
  lemma AccuracyIsOne(predictions: seq<seq<real>>, targets: seq<int>)
    requires Accuracy(predictions, targets).Ok?
    ensures Accuracy(predictions, targets).value == 1.0 <==>
              forall i :: 0 <= i < |targets| ==> ArgMax(predictions[i]) == targets[i]
  {
    Fraction(Hits(Predicted(predictions), targets), |targets|);
    HitsAll(Predicted(predictions), targets);
  }

  /** Accuracy is 0 exactly when no row's arg-max is its target. */
  lemma AccuracyIsZero(predictions: seq<seq<real>>, targets: seq<int>)
    requires Accuracy(predictions, targets).Ok?
    ensures Accuracy(predictions, targets).value == 0.0 <==>
              forall i :: 0 <= i < |targets| ==> ArgMax(predictions[i]) != targets[i]
  {
    Fraction(Hits(Predicted(predictions), targets), |targets|);
    HitsNone(Predicted(predictions), targets);
  }
}
