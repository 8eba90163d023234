/** Concrete calls and their verdicts, among them the documented cases of the
    validator. */
module ValidationExamples {
  import opened Outcomes
  import opened NumPy
  import opened Validation
  import opened ValidationProperties

  /** A protocol that rejects every index list. */
  function Rejects(): seq<int> -> bool
  {
    (idx: seq<int>) => false
  }

  /** A Python list of `n` feature rows: it has a length, no shape, and refuses
      list-based indexing `X[[0, 1]]`. */
  function FeatureList(n: nat): Features
  {
    Features(Some(n), None, false, false, false, Rejects(), Rejects(), Rejects())
  }

  /** Labels given as a flat list. */
  function LabelList(s: seq<int>): Labels
  {
    ArrayLabels(Vector(s))
  }

  /** Every class 0, 1, 2 occurs, some twice. */
  lemma ContiguousLabelsPass()
    ensures CheckClassLabels(Vector([0, 0, 1, 2]), false) == Pass
  {
    assert Elements([0, 0, 1, 2]) == ClassSet(3);
    ClassLabelsPassIff(Vector([0, 0, 1, 2]));
  }

  /** Class 0 is missing: a TypeError, unless missing classes are allowed. */
  lemma GappedLabelsFail()
    ensures CheckClassLabels(Vector([1, 2, 3]), false) == Fail(TypeError)
    ensures CheckClassLabels(Vector([1, 2, 3]), true) == Pass
  {
    var e := Elements([1, 2, 3]);
    assert e == {1, 2, 3};
    assert 0 in ClassSet(3) && 0 !in e;
    ClassLabelsFailureKind(Vector([1, 2, 3]));
  }

  /** A single class is a ValueError, before the zero-indexing check: for
      `[1]` too, which is also not zero-indexed. */
  lemma SingleClassFails()
    ensures CheckClassLabels(Vector([0]), false) == Fail(ValueError)
    ensures CheckClassLabels(Vector([1]), false) == Fail(ValueError)
  {
    assert Elements([0]) == {0};
    assert Elements([1]) == {1};
    ClassLabelsFailureKind(Vector([0]));
    ClassLabelsFailureKind(Vector([1]));
  }

  /** A column of labels is two-dimensional, even with missing classes allowed. */
  lemma ColumnLabelsFail()
    ensures CheckClassLabels(Matrix(2, 1, [0, 1]), true) == Fail(ValueError)
  {
  }

  lemma LabelsToArrayExamples()
    ensures LabelsToArray(FrameLabels(Table(1, [[3], [1], [2]]))) == Ok(Vector([3, 1, 2]))
    ensures LabelsToArray(FrameLabels(Table(2, [[0, 1], [1, 0]]))) == Err(ValueError)
    ensures LabelsToArray(NestedLabels([[0, 1], [1]])) == Err(ValueError)
  {
    var column := LabelsToArray(FrameLabels(Table(1, [[3], [1], [2]])));
    assert column.value.data == [3, 1, 2];
    assert !SameLengths([[0, 1], [1]]) by {
      assert |[[0, 1], [1]][1]| != |[[0, 1], [1]][0]|;
    }
  }

  /** Labels 0 and 1 are the class set of size 2. */
  lemma BinaryLabels()
    ensures LabelsAcceptable(LabelList([0, 1]), false, false)
    ensures |Elements([0, 1])| == 2
  {
    assert Elements([0, 1]) == ClassSet(2);
    ClassSetSize(2);
  }

  /** Shapes agree, probabilities are in range and both classes occur. */
  lemma AlignedInputsPass()
    ensures CheckValidInputs(FeatureList(2), LabelList([0, 1]),
                             ProbsArray(Matrix(2, 2, [0.9, 0.1, 0.2, 0.8])), false, false) == Pass
  {
    var probs := Matrix(2, 2, [0.9, 0.1, 0.2, 0.8]);
    assert forall v | v in probs.data :: 0.0 <= v <= 1.0;
    BinaryLabels();
    ProbsErrors(FeatureList(2), LabelList([0, 1]), probs, false, false);
  }

  /** One feature row against two labels, without `pred_probs`. */
  lemma LengthMismatchFails()
    ensures CheckValidInputs(FeatureList(1), LabelList([0, 1]), NoProbs, false, false) == Fail(ValueError)
  {
    BinaryLabels();
    FeatureErrors(FeatureList(1), LabelList([0, 1]), false, false);
  }

  /** With `pred_probs`, `X` may be None. */
  lemma NoFeaturesWithProbsPass()
    ensures CheckValidInputs(NoFeatures, LabelList([0, 1]),
                             ProbsArray(Matrix(2, 2, [0.5, 0.5, 0.5, 0.5])), false, false) == Pass
  {
    var probs := Matrix(2, 2, [0.5, 0.5, 0.5, 0.5]);
    assert forall v | v in probs.data :: 0.0 <= v <= 1.0;
    BinaryLabels();
    ProbsErrors(NoFeatures, LabelList([0, 1]), probs, false, false);
  }

  /** Multi-label lists of unequal length are not checked for classes: two
      examples against a two-row, three-column `pred_probs` pass. */
  lemma MultiLabelPass()
    ensures CheckValidInputs(NoFeatures, NestedLabels([[0, 2], [1]]),
                             ProbsArray(Matrix(2, 3, [0.5, 0.1, 0.4, 0.2, 0.7, 0.1])), true, false) == Pass
  {
    var probs := Matrix(2, 3, [0.5, 0.1, 0.4, 0.2, 0.7, 0.1]);
    assert forall v | v in probs.data :: 0.0 <= v <= 1.0;
    ProbsErrors(NoFeatures, NestedLabels([[0, 2], [1]]), probs, true, false);
  }

  /** `X[[0, 1]]` alone is enough; an object with no protocol is refused. */
  lemma IndexingExamples()
    ensures CheckIndexing(Features(None, Some(2), false, false, false, Rejects(), Rejects(),
                                   (idx: seq<int>) => idx == [0, 1]), None, Some(2)) == Pass
    ensures CheckIndexing(FeatureList(2), None, Some(2)) == Fail(TypeError)
    ensures CheckIndexing(NoFeatures, None, None) == Fail(TypeError)
  {
  }
}
