/** The adaptation/evaluation split at the start of `fast_adapt`: a boolean
    mask of the batch's size is zeroed, set at indices 0, 2, ..., 2*(m-1)
    with m = shots * ways, and the mask and its complement select the
    adaptation and the evaluation halves of both the data and the labels. */
module Episode {
  import opened Wrappers

  /** One sampled task: examples and their labels, in the sampler's order. */
  datatype Batch<X> = Batch(data: seq<X>, labels: seq<int>)

  datatype Halves<X> = Halves(adaptationData: seq<X>, adaptationLabels: seq<int>,
                              evaluationData: seq<X>, evaluationLabels: seq<int>)

  /** `arr[np.arange(m) * 2] = True` indexes past an array of n elements. */
  predicate OutOfRange(n: nat, m: nat) {
    m > 0 && 2 * (m - 1) >= n
  }

  /** The values `np.zeros(n, dtype=bool)` holds after true is stored at the even indices below 2*m. */
  function EvenBelow(n: nat, m: nat): (mask: seq<bool>)
    ensures |mask| == n
  {
    seq(n, i => i % 2 == 0 && i < 2 * m)
  }

  /** The adaptation mask of a batch of n examples, or numpy's IndexError. */
  function MaskOf(n: nat, m: nat): (r: Result<seq<bool>>)
    ensures r.Err? <==> n + 1 < 2 * m
    ensures r.Err? ==> r.error == MaskIndexOutOfRange
  {
    if OutOfRange(n, m) then Err(MaskIndexOutOfRange) else Ok(EvenBelow(n, m))
  }

  /** Storing true at index 2*k extends the even indices below 2*k by one. */
  lemma EvenBelowStep(n: nat, k: nat)
    requires 2 * k < n
    ensures EvenBelow(n, k)[2 * k := true] == EvenBelow(n, k + 1)
  {
  }

  /** test_refact.py lines 55-56: allocate a zeroed mask and set the adaptation indices in place. */
  method AdaptationMask(n: nat, shots: nat, ways: nat) returns (r: Result<seq<bool>>)
    ensures r == MaskOf(n, shots * ways)
  {
    var m := shots * ways;
    var a := new bool[n](_ => false);
    assert a[..] == EvenBelow(n, 0);
    var k := 0;
    while k < m
      invariant 0 <= k <= m
      invariant k > 0 ==> 2 * (k - 1) < n
      invariant a[..] == EvenBelow(n, k)
    {
      if 2 * k >= n {
        return Err(MaskIndexOutOfRange);
      }
      EvenBelowStep(n, k);
      a[2 * k] := true;
      k := k + 1;
    }
    return Ok(a[..]);
  }

  /** `~mask` */
  function Complement(mask: seq<bool>): (c: seq<bool>)
    ensures |c| == |mask|
    ensures forall i :: 0 <= i < |mask| ==> c[i] == !mask[i]
  {
    seq(|mask|, i requires 0 <= i < |mask| => !mask[i])
  }

  /** Boolean-mask indexing `xs[mask]`: the selected elements, in order. */
  function Masked<T>(xs: seq<T>, mask: seq<bool>): (r: seq<T>)
    requires |xs| == |mask|
    ensures |r| <= |xs|
  {
    if |xs| == 0 then []
    else
      var n := |xs| - 1;
      Masked(xs[..n], mask[..n]) + (if mask[n] then [xs[n]] else [])
  }

  /** A helper of Positions: the indices 0, ..., n-1. */
  function Range(n: nat): (r: seq<nat>)
    ensures |r| == n && forall i :: 0 <= i < n ==> r[i] == i
  {
    seq(n, i => i)
  }

  /** The indices a mask selects, i.e. `np.nonzero(mask)`. */
  function Positions(mask: seq<bool>): seq<nat> {
    Masked(Range(|mask|), mask)
  }

  /** Indexing by a mask and then the labels is splitting the labels by the same mask. */
  function SplitWith<X>(b: Batch<X>, mask: seq<bool>): (r: Result<Halves<X>>)
    requires |mask| == |b.data|
  {
    if |b.labels| != |mask| then Err(MaskShapeMismatch)
    else
      var eval := Complement(mask);
      Ok(Halves(Masked(b.data, mask), Masked(b.labels, mask),
                Masked(b.data, eval), Masked(b.labels, eval)))
  }

  /** test_refact.py lines 55-63 of `fast_adapt`: a successful split had a
      batch long enough for the mask and one label per example; a failing
      one raised one of the two indexing errors. */
  function SplitOf<X>(b: Batch<X>, shots: nat, ways: nat): (r: Result<Halves<X>>)
    ensures r.Ok? ==> |b.labels| == |b.data| && |b.data| + 1 >= 2 * (shots * ways)
    ensures r.Err? ==> r.error == MaskIndexOutOfRange || r.error == MaskShapeMismatch
  {
    var mask :- MaskOf(|b.data|, shots * ways);
    SplitWith(b, mask)
  }

  // ---------------------------------------------------------------------
  // Facts about masks

  /** The selected positions are increasing, in range, and exactly the true entries. */
  lemma {:induction false} PositionsFacts(mask: seq<bool>)
    ensures forall k :: 0 <= k < |Positions(mask)| ==>
              Positions(mask)[k] < |mask| && mask[Positions(mask)[k]]
    ensures forall k, l :: 0 <= k < l < |Positions(mask)| ==> Positions(mask)[k] < Positions(mask)[l]
    ensures forall i :: 0 <= i < |mask| && mask[i] ==> i in Positions(mask)
  {
    if |mask| > 0 {
      var n := |mask| - 1;
      PositionsSnoc(mask);
      PositionsFacts(mask[..n]);
    }
  }

  /** Unfolding Positions by the last mask entry. */
  lemma PositionsSnoc(mask: seq<bool>)
    requires |mask| > 0
    ensures Positions(mask) == Positions(mask[..|mask| - 1]) +
                               (if mask[|mask| - 1] then [|mask| - 1] else [])
  {
    var n := |mask| - 1;
    assert Range(|mask|)[..n] == Range(n);
  }

  /** `xs[mask]` holds element `Positions(mask)[k]` of `xs` at place k: the
      mask selects the same positions from every sequence of its length. */
  lemma {:induction false} MaskedAt<T>(xs: seq<T>, mask: seq<bool>)
    requires |xs| == |mask|
    ensures |Masked(xs, mask)| == |Positions(mask)|
    ensures forall k :: 0 <= k < |Positions(mask)| ==>
              Positions(mask)[k] < |xs| && Masked(xs, mask)[k] == xs[Positions(mask)[k]]
  {
    PositionsFacts(mask);
    if |xs| > 0 {
      var n := |xs| - 1;
      PositionsSnoc(mask);
      MaskedAt(xs[..n], mask[..n]);
    }
  }

  /** Unfolding Masked by the last element. */
  lemma MaskedSnoc<T>(xs: seq<T>, mask: seq<bool>)
    requires |xs| == |mask| > 0
    ensures Masked(xs, mask) == Masked(xs[..|xs| - 1], mask[..|xs| - 1]) +
                                (if mask[|xs| - 1] then [xs[|xs| - 1]] else [])
  {
  }

  lemma ComplementPrefix(mask: seq<bool>, n: nat)
    requires n <= |mask|
    ensures Complement(mask)[..n] == Complement(mask[..n])
  {
  }

  lemma MultisetSnoc<T>(xs: seq<T>)
    requires |xs| > 0
    ensures multiset(xs) == multiset(xs[..|xs| - 1]) + multiset{xs[|xs| - 1]}
  {
    assert xs == xs[..|xs| - 1] + [xs[|xs| - 1]];
  }

  /** A mask and its complement select every element once. */
  lemma {:induction false} MaskedCover<T>(xs: seq<T>, mask: seq<bool>)
    requires |xs| == |mask|
    ensures multiset(Masked(xs, mask)) + multiset(Masked(xs, Complement(mask))) == multiset(xs)
    ensures |Masked(xs, mask)| + |Masked(xs, Complement(mask))| == |xs|
  {
    if |xs| > 0 {
      var n := |xs| - 1;
      MaskedCover(xs[..n], mask[..n]);
      ComplementPrefix(mask, n);
      MaskedSnoc(xs, mask);
      MaskedSnoc(xs, Complement(mask));
      MultisetSnoc(xs);
    }
  }

  /** The positions a mask and its complement select are disjoint and cover the batch. */
  lemma PositionsPartition(mask: seq<bool>)
    ensures forall i :: i in Positions(mask) ==> i !in Positions(Complement(mask))
    ensures forall i :: 0 <= i < |mask| ==> i in Positions(mask) || i in Positions(Complement(mask))
    ensures |Positions(mask)| + |Positions(Complement(mask))| == |mask|
  {
    PositionsFacts(mask);
    PositionsFacts(Complement(mask));
    MaskedCover(Range(|mask|), mask);
  }

  /** The true entries of the numpy mask are the first `(min(n, 2m) + 1) / 2` even indices. */
  lemma {:induction false} EvenBelowPositions(n: nat, m: nat)
    ensures Positions(EvenBelow(n, m)) ==
            seq((if n < 2 * m then n + 1 else 2 * m + 1) / 2, k => 2 * k)
  {
    if n > 0 {
      assert EvenBelow(n, m)[..n - 1] == EvenBelow(n - 1, m);
      PositionsSnoc(EvenBelow(n, m));
      EvenBelowPositions(n - 1, m);
    }
  }

  /** Below 2*m, the complement of the numpy mask is true exactly at the odd indices. */
  lemma {:induction false} OddBelowPositions(n: nat, m: nat)
    requires n <= 2 * m
    ensures Positions(Complement(EvenBelow(n, m))) == seq(n / 2, k => 2 * k + 1)
  {
    if n > 0 {
      assert Complement(EvenBelow(n, m))[..n - 1] == Complement(EvenBelow(n - 1, m));
      PositionsSnoc(Complement(EvenBelow(n, m)));
      OddBelowPositions(n - 1, m);
    }
  }

  // ---------------------------------------------------------------------
  // Facts about the split

  /** The split stops exactly when the batch is shorter than 2*shots*ways - 1
      (numpy's IndexError, checked first) or the labels are not as many as
      the examples (torch's mask shape error). */
  lemma SplitFails<X>(b: Batch<X>, shots: nat, ways: nat)
    ensures SplitOf(b, shots, ways).Err? <==>
              |b.data| + 1 < 2 * (shots * ways) || |b.labels| != |b.data|
    ensures |b.data| + 1 < 2 * (shots * ways) ==>
              SplitOf(b, shots, ways) == Err(MaskIndexOutOfRange)
    ensures |b.data| + 1 >= 2 * (shots * ways) && |b.labels| != |b.data| ==>
              SplitOf(b, shots, ways) == Err(MaskShapeMismatch)
  {
  }

  /** A successful split selects by the numpy mask and by its complement. */
  lemma SplitHalves<X>(b: Batch<X>, shots: nat, ways: nat)
    requires SplitOf(b, shots, ways).Ok?
    ensures var n, m := |b.data|, shots * ways;
      var mask := EvenBelow(n, m);
      && |b.labels| == n && n + 1 >= 2 * m
      && SplitOf(b, shots, ways).value ==
         Halves(Masked(b.data, mask), Masked(b.labels, mask),
                Masked(b.data, Complement(mask)), Masked(b.labels, Complement(mask)))
  {
    assert MaskOf(|b.data|, shots * ways) == Ok(EvenBelow(|b.data|, shots * ways));
  }

  /** The numpy mask selects the elements at 0, 2, ..., 2*(m-1). */
  lemma AdaptationHalf<T>(xs: seq<T>, m: nat)
    requires |xs| + 1 >= 2 * m
    ensures |Masked(xs, EvenBelow(|xs|, m))| == m
    ensures forall k :: 0 <= k < m ==> 2 * k < |xs| && Masked(xs, EvenBelow(|xs|, m))[k] == xs[2 * k]
  {
    EvenBelowPositions(|xs|, m);
    MaskedAt(xs, EvenBelow(|xs|, m));
  }

  /** The complement selects the elements at its own positions, in order. */
  lemma EvaluationHalf<T>(xs: seq<T>, m: nat)
    ensures var eval := Positions(Complement(EvenBelow(|xs|, m)));
      && |Masked(xs, Complement(EvenBelow(|xs|, m)))| == |eval|
      && forall k :: 0 <= k < |eval| ==>
           eval[k] < |xs| && Masked(xs, Complement(EvenBelow(|xs|, m)))[k] == xs[eval[k]]
  {
    MaskedAt(xs, Complement(EvenBelow(|xs|, m)));
  }

  /** The positions of the complement: n - m increasing indices below n,
      each odd or at least 2*m. */
  lemma EvaluationIndices(n: nat, m: nat)
    requires n + 1 >= 2 * m
    ensures var eval := Positions(Complement(EvenBelow(n, m)));
      && |eval| == n - m
      && (forall k :: 0 <= k < |eval| ==> eval[k] < n && (eval[k] % 2 == 1 || eval[k] >= 2 * m))
      && (forall k, l :: 0 <= k < l < |eval| ==> eval[k] < eval[l])
  {
    var mask := EvenBelow(n, m);
    EvenBelowPositions(n, m);
    PositionsPartition(mask);
    PositionsFacts(Complement(mask));
  }

  /** Whenever the split succeeds, the adaptation half is the shots*ways
      examples and labels at indices 0, 2, ..., 2*(shots*ways - 1), each
      example still paired with its own label. */
  lemma SplitAdaptation<X>(b: Batch<X>, shots: nat, ways: nat)
    requires SplitOf(b, shots, ways).Ok?
    ensures var h := SplitOf(b, shots, ways).value;
      var m := shots * ways;
      && |h.adaptationData| == |h.adaptationLabels| == m
      && (forall k :: 0 <= k < m ==>
            2 * k < |b.data| && h.adaptationData[k] == b.data[2 * k] && h.adaptationLabels[k] == b.labels[2 * k])
  {
    SplitHalves(b, shots, ways);
    AdaptationHalf(b.data, shots * ways);
    AdaptationHalf(b.labels, shots * ways);
  }

  /** Whenever the split succeeds, the evaluation half holds the remaining
      |batch| - shots*ways examples, in batch order, at indices that are odd
      or past the adaptation indices, each example with its own label. */
  lemma SplitEvaluation<X>(b: Batch<X>, shots: nat, ways: nat)
    requires SplitOf(b, shots, ways).Ok?
    ensures var h := SplitOf(b, shots, ways).value;
      var m := shots * ways;
      var eval := Positions(Complement(EvenBelow(|b.data|, m)));
      && |h.evaluationData| == |h.evaluationLabels| == |eval| == |b.data| - m
      && (forall k :: 0 <= k < |eval| ==>
            eval[k] < |b.data| && (eval[k] % 2 == 1 || eval[k] >= 2 * m))
      && (forall k :: 0 <= k < |eval| ==>
            eval[k] < |b.data| &&
            h.evaluationData[k] == b.data[eval[k]] && h.evaluationLabels[k] == b.labels[eval[k]])
      && (forall k, l :: 0 <= k < l < |eval| ==> eval[k] < eval[l])
  {
    SplitHalves(b, shots, ways);
    EvaluationHalf(b.data, shots * ways);
    EvaluationHalf(b.labels, shots * ways);
    EvaluationIndices(|b.data|, shots * ways);
  }

  /** Whenever the split succeeds, the two halves together are the whole
      batch: of the examples and of the labels, each is a permutation. */
  lemma SplitPermutation<X>(b: Batch<X>, shots: nat, ways: nat)
    requires SplitOf(b, shots, ways).Ok?
    ensures var h := SplitOf(b, shots, ways).value;
      && multiset(h.adaptationData) + multiset(h.evaluationData) == multiset(b.data)
      && multiset(h.adaptationLabels) + multiset(h.evaluationLabels) == multiset(b.labels)
  {
    SplitHalves(b, shots, ways);
    MaskedCover(b.data, EvenBelow(|b.data|, shots * ways));
    MaskedCover(b.labels, EvenBelow(|b.data|, shots * ways));
  }

  /** Between 2*m - 1 and 2*m elements, the complement of the numpy mask
      selects the odd-indexed ones. */
  lemma OddHalf<T>(xs: seq<T>, m: nat)
    requires |xs| == 2 * m
    ensures |Masked(xs, Complement(EvenBelow(|xs|, m)))| == m
    ensures forall k :: 0 <= k < m ==> Masked(xs, Complement(EvenBelow(|xs|, m)))[k] == xs[2 * k + 1]
  {
    OddBelowPositions(|xs|, m);
    MaskedAt(xs, Complement(EvenBelow(|xs|, m)));
  }

  /** For an episode of exactly 2*shots*ways examples with as many labels,
      the split succeeds, the mask is true exactly at the even indices, and
      the two halves are the even- and the odd-indexed examples, shots*ways
      each, every example keeping its label. */
  lemma EpisodeSplit<X>(b: Batch<X>, shots: nat, ways: nat)
    requires |b.data| == |b.labels| == 2 * (shots * ways)
    ensures MaskOf(|b.data|, shots * ways) == Ok(seq(|b.data|, i => i % 2 == 0))
    ensures SplitOf(b, shots, ways).Ok?
    ensures var h := SplitOf(b, shots, ways).value;
      var m := shots * ways;
      && |h.adaptationData| == |h.adaptationLabels| == |h.evaluationData| == |h.evaluationLabels| == m
      && (forall k :: 0 <= k < m ==>
            h.adaptationData[k] == b.data[2 * k] && h.adaptationLabels[k] == b.labels[2 * k])
      && (forall k :: 0 <= k < m ==>
            h.evaluationData[k] == b.data[2 * k + 1] && h.evaluationLabels[k] == b.labels[2 * k + 1])
  {
    var n, m := |b.data|, shots * ways;
    assert EvenBelow(n, m) == seq(n, i => i % 2 == 0);
    SplitHalves(b, shots, ways);
    AdaptationHalf(b.data, m);
    AdaptationHalf(b.labels, m);
    OddHalf(b.data, m);
    OddHalf(b.labels, m);
  }
}
